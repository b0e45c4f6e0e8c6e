/** What the verifiers accept, said of the wire fields, the entries and the signatures alone: each verifier returns a
  * value exactly when these conditions hold of it. */
module Acceptance {
  import opened Wrappers
  import opened Bytes
  import opened Primitives
  import opened Errors
  import opened Wire
  import opened Transcripts
  import opened Authority
  import opened Registry
  import opened Resolvers
  import opened Verify
  import opened VerifyFacts
  import Principal

  // Bindings.

  /** `b` is the first binding of the device. */
  ghost predicate FirstOfDevice(bs: seq<VerifiedBinding>, device: PublicKey, b: VerifiedBinding) {
    exists i | 0 <= i < |bs| ::
      bs[i] == b && b.deviceKey == device && forall j | 0 <= j < i :: bs[j].deviceKey != device
  }

  /** `b` is the first binding with the approval key. */
  ghost predicate FirstOfApproval(bs: seq<VerifiedBinding>, key: PublicKey, b: VerifiedBinding) {
    exists i | 0 <= i < |bs| :: bs[i] == b && Approves(b, key) && forall j | 0 <= j < i :: !Approves(bs[j], key)
  }

  predicate Approves(b: VerifiedBinding, key: PublicKey) { b.approval.Some? && b.approval.value.1 == key }

  lemma LaterOfDevice(bs: seq<VerifiedBinding>, device: PublicKey, b: VerifiedBinding)
    requires bs != [] && bs[0].deviceKey != device
    ensures FirstOfDevice(bs, device, b) <==> FirstOfDevice(bs[1..], device, b)
  {
    if i :| 0 <= i < |bs| && bs[i] == b && b.deviceKey == device
            && forall j | 0 <= j < i :: bs[j].deviceKey != device {
      assert bs[1..][i - 1] == b;
    }
    if i :| 0 <= i < |bs[1..]| && bs[1..][i] == b && b.deviceKey == device
            && forall j | 0 <= j < i :: bs[1..][j].deviceKey != device {
      assert bs[i + 1] == b;
      assert forall j | 0 < j < i + 1 :: bs[j] == bs[1..][j - 1];
    }
  }

  lemma {:induction false} FindDeviceIs(bs: seq<VerifiedBinding>, device: PublicKey, b: VerifiedBinding)
    ensures FindDevice(bs, device) == Some(b) <==> FirstOfDevice(bs, device, b)
  {
    if bs != [] {
      if bs[0].deviceKey != device {
        FindDeviceIs(bs[1..], device, b);
        LaterOfDevice(bs, device, b);
      } else {
        assert FirstOfDevice(bs, device, bs[0]);
      }
    }
  }

  lemma LaterOfApproval(bs: seq<VerifiedBinding>, key: PublicKey, b: VerifiedBinding)
    requires bs != [] && !Approves(bs[0], key)
    ensures FirstOfApproval(bs, key, b) <==> FirstOfApproval(bs[1..], key, b)
  {
    hide Approves;
    if i :| 0 <= i < |bs| && bs[i] == b && Approves(b, key) && forall j | 0 <= j < i :: !Approves(bs[j], key) {
      assert bs[1..][i - 1] == b;
    }
    if i :| 0 <= i < |bs[1..]| && bs[1..][i] == b && Approves(b, key)
            && forall j | 0 <= j < i :: !Approves(bs[1..][j], key) {
      assert bs[i + 1] == b;
      assert forall j | 0 < j < i + 1 :: bs[j] == bs[1..][j - 1];
    }
  }

  lemma {:induction false} FindApprovalIs(bs: seq<VerifiedBinding>, key: PublicKey, b: VerifiedBinding)
    ensures FindApproval(bs, key) == Some(b) <==> FirstOfApproval(bs, key, b)
  {
    if bs != [] {
      if !Approves(bs[0], key) {
        FindApprovalIs(bs[1..], key, b);
        LaterOfApproval(bs, key, b);
      } else {
        assert FirstOfApproval(bs, key, bs[0]);
      }
    }
  }

  // Chains.

  /** `d` delegates `device` for the entry at `at`: the current root signs it, neither key is revoked, and it is the
    * bound one of a human on a host that is not frozen, or else at most 31 days long and open. */
  ghost predicate Delegates(d: KeyDelegation, entry: VerifiedEntry, device: PublicKey, r: Resolver, at: i64) {
    && entry.currentRoot.Some?
    && var root := entry.currentRoot.value.signing;
       && d.principalGenesis == Some(ToPb(entry.id.genesis)) && d.signingRoot == Some(ToPb(root)) && d.purpose == 2
       && d.delegated == Some(ToPb(device)) && d.notAfter != 0 && at <= d.notAfter
       && SignedBy(root, Delegation(d), d.signature)
       && !r.IsRevoked(entry.id, root, at) && !r.IsRevoked(entry.id, device, at)
       && (entry.kind == Human ==>
             && entry.id in r.entries
             && exists b <- r.entries[entry.id].bindings ::
                  && FirstOfDevice(r.entries[entry.id].bindings, device, b) && b.device == d
                  && (b.host.Some? ==> !r.IsFrozen(b.host.value, at)))
       && (entry.kind != Human ==> 0 < d.notAfter - d.issuedAt <= 2_678_400 && d.issuedAt - 30 <= at)
  }

  /** `c` certifies the session key under `device` at `at`, for at most a day. */
  predicate Certifies(c: DelegationCert, device: PublicKey, session: PublicKey, at: i64) {
    && c.device == Some(ToPb(device)) && c.session == Some(ToPb(session))
    && SignedBy(device, SessionDelegation(c), c.signature)
    && 0 < c.notAfter - c.notBefore <= 86_400
    && c.notBefore - 30 <= at <= c.notAfter
  }

  lemma DeviceCurrentIs(d: KeyDelegation, entry: VerifiedEntry, r: Resolver, at: i64, device: PublicKey)
    ensures DeviceCurrent(d, entry, r, at) == Success(device) <==> Delegates(d, entry, device, r, at)
  {
    hide TranscriptOf, VerifyP256, Resolver.IsRevoked, Resolver.IsFrozen, FirstOfDevice, FindDevice;
    KeysParse();
    if entry.id in r.entries {
      forall b {
        FindDeviceIs(r.entries[entry.id].bindings, device, b);
      }
    }
  }

  lemma CheckCertIs(c: DelegationCert, device: PublicKey, at: i64, session: PublicKey, notAfter: i64)
    ensures CheckCert(c, device, at).Success? && CheckCert(c, device, at).value.0 == session
            && CheckCert(c, device, at).value.1 == notAfter
       <==> Certifies(c, device, session, at) && notAfter == c.notAfter
  {
    hide TranscriptOf, VerifyP256;
    KeysParse();
  }

  /** What stands behind a self-rooted chain: the host of a human's binding, the daemon itself, or nothing. */
  ghost predicate StandsBehind(host: Hosting, entry: VerifiedEntry, device: PublicKey) {
    match entry.kind
    case Daemon => host == HostDaemon(entry.id)
    case Agent => host == Unhosted
    case Service => host == Hostless
    case Human =>
      exists b <- entry.bindings ::
        && FirstOfDevice(entry.bindings, device, b)
        && host == if b.host.Some? then HostDaemon(b.host.value) else Hostless
  }

  /** A chain of an entry with its own root: the root delegates the device, the device certifies the session. */
  ghost predicate SelfRootedHolds(d: KeyDelegation, c: DelegationCert, r: Resolver, at: i64, v: VerifiedChain) {
    && c.principalGenesis == Some(ToPb(v.principal.genesis)) && c.mode == 0
    && v.principal in r.entries && !r.IsFrozen(v.principal, at)
    && var entry := r.entries[v.principal];
       && v.kind == entry.kind && v.subject == None
       && Delegates(d, entry, v.device, r, at)
       && Certifies(c, v.device, v.sessionKey, at) && v.sessionNotAfter == c.notAfter
       && StandsBehind(v.host, entry, v.device)
  }

  /** A chain of an agent without a root of its own: a daemon it allows delegates the device and names it as a subject
    * under the daemon's short id. */
  ghost predicate HostVouchedHolds(d: KeyDelegation, c: DelegationCert, r: Resolver, at: i64, v: VerifiedChain) {
    && v.host.HostDaemon? && c.mode == 1 && v.kind == Agent
    && var daemon, agent := v.host.id, v.principal;
       && d.principalGenesis == Some(ToPb(daemon.genesis)) && c.hostGenesis == Some(ToPb(daemon.genesis))
       && daemon in r.entries && r.entries[daemon].kind == Daemon && !r.IsFrozen(daemon, at)
       && c.principalGenesis == Some(ToPb(agent.genesis))
       && agent in r.entries && !r.IsFrozen(agent, at)
       && r.entries[agent].kind == Agent && r.entries[agent].currentRoot.None?
       && (Any in r.entries[agent].allowedHosts || Host(daemon) in r.entries[agent].allowedHosts)
       && v.subject.Some? && c.subject == v.subject
       && Principal.HexEncode(Sha256(daemon.genesis)[..8]) + [47] <= v.subject.value
       && Delegates(d, r.entries[daemon], v.device, r, at)
       && Certifies(c, v.device, v.sessionKey, at) && v.sessionNotAfter == c.notAfter
  }

  ghost predicate ChainHolds(signer: SignerChain, r: Resolver, at: i64, v: VerifiedChain) {
    match signer.chain
    case Some(SelfRooted(Some(d), Some(c))) => SelfRootedHolds(d, c, r, at, v)
    case Some(HostVouched(Some(d), Some(c))) => HostVouchedHolds(d, c, r, at, v)
    case _ => false
  }

  lemma HostingIs(entry: VerifiedEntry, device: PublicKey, r: Resolver, at: i64, d: KeyDelegation, host: Hosting)
    requires Delegates(d, entry, device, r, at) && entry.id in r.entries && r.entries[entry.id] == entry
    ensures HostingOf(entry, device, r) == host <==> StandsBehind(host, entry, device)
  {
    hide SignedBy, Resolver.IsRevoked, Resolver.IsFrozen, FirstOfDevice, FindDevice;
    forall b {
      FindDeviceIs(entry.bindings, device, b);
    }
  }

  lemma SelfRootedIs(d: KeyDelegation, c: DelegationCert, r: Resolver, at: i64, v: VerifiedChain)
    requires Keyed(r)
    ensures VerifySelfRooted(Some(d), Some(c), r, at) == Success(v) <==> SelfRootedHolds(d, c, r, at, v)
  {
    hide DeviceCurrent, CheckCert, Delegates, Certifies, HostingOf, StandsBehind, Resolver.IsFrozen;
    KeysParse();
    var genesis := Req(c.principalGenesis, SessionPrincipalGenesis);
    if genesis.Success? && PrincipalId(genesis.value) in r.entries {
      var entry := r.entries[PrincipalId(genesis.value)];
      DeviceCurrentIs(d, entry, r, at, v.device);
      CheckCertIs(c, v.device, at, v.sessionKey, v.sessionNotAfter);
      if Delegates(d, entry, v.device, r, at) {
        HostingIs(entry, v.device, r, at, d, v.host);
        DelegatorHasRoot(d, entry, v.device, r, at);
      }
    }
  }

  lemma DelegatorHasRoot(d: KeyDelegation, entry: VerifiedEntry, device: PublicKey, r: Resolver, at: i64)
    requires Delegates(d, entry, device, r, at)
    ensures entry.currentRoot.Some?
  {}

  lemma HostVouchedIs(d: KeyDelegation, c: DelegationCert, r: Resolver, at: i64, v: VerifiedChain)
    ensures VerifyHostVouched(Some(d), Some(c), r, at) == Success(v) <==> HostVouchedHolds(d, c, r, at, v)
  {
    hide DeviceCurrent, CheckCert, Delegates, Certifies, Resolver.IsFrozen;
    KeysParse();
    var genesis := Req(d.principalGenesis, HostDevicePrincipalGenesis);
    if genesis.Success? && PrincipalId(genesis.value) in r.entries {
      var entry := r.entries[PrincipalId(genesis.value)];
      DeviceCurrentIs(d, entry, r, at, v.device);
      CheckCertIs(c, v.device, at, v.sessionKey, v.sessionNotAfter);
    }
  }

  /** Every entry is filed under its own id, as in every resolver that is built from a document. */
  lemma ChainIs(signer: SignerChain, r: Resolver, when: When, v: VerifiedChain)
    requires Keyed(r)
    ensures VerifyChain(signer, r, when) == Success(v) <==> ChainHolds(signer, r, when.At(), v)
  {
    hide VerifySelfRooted, VerifyHostVouched, SelfRootedHolds, HostVouchedHolds;
    match signer.chain {
      case Some(SelfRooted(Some(d), Some(c))) => SelfRootedIs(d, c, r, when.At(), v);
      case Some(HostVouched(Some(d), Some(c))) => HostVouchedIs(d, c, r, when.At(), v);
      case Some(SelfRooted(d, c)) => NoChain(d, c, r, when.At());
      case Some(HostVouched(d, c)) => NoChain(d, c, r, when.At());
      case None =>
    }
  }

  lemma NoChain(d: Option<KeyDelegation>, c: Option<DelegationCert>, r: Resolver, at: i64)
    requires d.None? || c.None?
    ensures VerifySelfRooted(d, c, r, at).Failure? && VerifyHostVouched(d, c, r, at).Failure?
  {}

  // Messages.

  predicate WithinSkew(issuedAt: i64, when: When) { when.Live? ==> -30 <= issuedAt - when.now <= 30 }

  /** A message is accepted as `v` exactly when its chain holds, it is addressed to the expected audience, the session
    * key of the chain signs it and, live, it is at most 30 seconds off; what is returned is what was signed. */
  lemma MessageIsSigned(msg: SignedMessage, audience: Text, r: Resolver, when: When, v: VerifiedMessage)
    requires Keyed(r)
    ensures VerifySignedMessage(msg, audience, r, when) == Success(v) <==>
              && msg.signer.Some? && ChainHolds(msg.signer.value, r, when.At(), v.chain)
              && msg.audience == audience
              && SignedBy(v.chain.sessionKey, Message(msg), msg.signature)
              && WithinSkew(msg.issuedAt, when)
              && v.nonce == msg.nonce && v.issuedAt == msg.issuedAt && v.inReplyToNonce == msg.inReplyToNonce
              && v.bodyType == msg.bodyType && v.body == msg.body
  {
    hide VerifyChain, ChainHolds, TranscriptOf, VerifyP256;
    if msg.signer.Some? {
      ChainIs(msg.signer.value, r, when, v.chain);
    }
  }

  /** The interim verifier accepts exactly the messages of self-rooted chains whose certificate names the author and a
    * device of the list, is signed by that device and open, and whose session key signs the message. */
  lemma TrustedMessageIsSigned(msg: SignedMessage, audience: Text, author: PublicKey, devices: seq<PublicKey>,
                               when: When, v: VerifiedTrustedMessage)
    ensures VerifySignedMessageTrustedDevices(msg, audience, author, devices, when) == Success(v) <==>
              && msg.signer.Some? && msg.signer.value.chain.Some? && msg.signer.value.chain.value.SelfRooted?
              && msg.signer.value.chain.value.session.Some?
              && var c := msg.signer.value.chain.value.session.value;
                 && c.mode == 0 && c.principalGenesis == Some(ToPb(author))
                 && v.authorGenesis == author && v.device in devices
                 && Certifies(c, v.device, v.sessionKey, when.At()) && v.sessionNotAfter == c.notAfter
                 && msg.audience == audience
                 && SignedBy(v.sessionKey, Message(msg), msg.signature)
                 && WithinSkew(msg.issuedAt, when)
                 && v.nonce == msg.nonce && v.issuedAt == msg.issuedAt && v.inReplyToNonce == msg.inReplyToNonce
                 && v.bodyType == msg.bodyType && v.body == msg.body
  {
    hide CheckCert, TranscriptOf, VerifyP256;
    KeysParse();
    if msg.signer.Some? && msg.signer.value.chain.Some? && msg.signer.value.chain.value.session.Some? {
      var c := msg.signer.value.chain.value.session.value;
      CheckCertIs(c, v.device, when.At(), v.sessionKey, v.sessionNotAfter);
    }
  }

  // Approvals.

  /** An approval is accepted as `v` exactly when it is the human's of the session, for the session's device, with the
    * approval key bound to that device, in force and not revoked, for this request and audience, and signed by that
    * key; the answer returned is the one signed. */
  lemma ApprovalIsSigned(a: Approval, audience: Text, requestId: Text, session: VerifiedChain, digest: Bytes32,
                         r: Resolver, when: When, v: VerifiedApproval)
    ensures VerifyApproval(a, audience, requestId, session, digest, r, when) == Success(v) <==>
              && v.principal == session.principal && a.principalGenesis == Some(ToPb(v.principal.genesis))
              && session.kind == Human && !r.IsFrozen(v.principal, when.At())
              && a.device == Some(ToPb(session.device)) && a.approvalKey == Some(ToPb(v.approvalKey))
              && v.principal in r.entries
              && (exists b <- r.entries[v.principal].bindings ::
                    && FirstOfDevice(r.entries[v.principal].bindings, session.device, b)
                    && Approves(b, v.approvalKey) && when.At() <= b.approval.value.0.notAfter)
              && !r.IsRevoked(v.principal, v.approvalKey, when.At())
              && a.audience == audience && a.requestId == requestId && a.requestDigest == digest
              && SignedBy(v.approvalKey, ApprovalOf(a), a.signature)
              && WithinSkew(a.issuedAt, when)
              && v.requestId == a.requestId && v.accept == a.accept && v.issuedAt == a.issuedAt
  {
    hide TranscriptOf, VerifyP256, Resolver.IsRevoked, Resolver.IsFrozen, FirstOfDevice, FindDevice;
    KeysParse();
    if session.principal in r.entries {
      forall b {
        FindDeviceIs(r.entries[session.principal].bindings, session.device, b);
      }
    }
  }

  // Peer revocations.

  /** A peer revocation is accepted as `v` exactly when the document allows them and is the one named, a bound approval
    * key of the authority that is in force signs it, neither that key nor its device is revoked, and the target has an
    * entry, with a root of its own if a single key is named. */
  lemma PeerRevocationIsSigned(rev: PeerRevocation, r: Resolver, when: When, v: VerifiedPeerRevocation)
    ensures VerifyPeerRevocation(rev, r, when) == Success(v) <==>
              && r.authority in r.entries && r.allowPeerRevocation && rev.documentId == r.documentId
              && rev.revokerGenesis == Some(ToPb(r.authority.genesis)) && !r.IsFrozen(r.authority, when.At())
              && (exists b <- r.entries[r.authority].bindings :: Revokes(rev, b, r, when))
              && v.target in r.entries && rev.targetGenesis == Some(ToPb(v.target.genesis))
              && rev.revoked == ToPbOption(v.revoked)
              && (v.revoked.Some? ==> r.entries[v.target].currentRoot.Some?)
              && WithinSkew(rev.issuedAt, when)
              && v.acceptedAt == when.At() && v.documentId == r.documentId
  {
    hide TranscriptOf, VerifyP256, Resolver.IsRevoked, Resolver.IsFrozen, FirstOfApproval, FindApproval;
    KeysParse();
    if r.authority in r.entries {
      forall key: PublicKey, b {
        FindApprovalIs(r.entries[r.authority].bindings, key, b);
      }
    }
  }

  /** The authority's binding `b` is the first with the approval key that signs `rev`, and is good for it. */
  ghost predicate Revokes(rev: PeerRevocation, b: VerifiedBinding, r: Resolver, when: When)
    requires r.authority in r.entries
  {
    && b.approval.Some?
    && var key := b.approval.value.1;
       && FirstOfApproval(r.entries[r.authority].bindings, key, b)
       && rev.approvalKey == Some(ToPb(key)) && when.At() <= b.approval.value.0.notAfter
       && !r.IsRevoked(r.authority, key, when.At()) && !r.IsRevoked(r.authority, b.deviceKey, when.At())
       && SignedBy(key, PeerRevocationOf(rev), rev.signature)
  }

  // Freezes and revocations over a run.

  /** `rev` names the principal, and no key or the current root of its entry. */
  predicate FreezesTarget(rev: PeerRevocation, id: PrincipalId, e: VerifiedEntry) {
    && rev.targetGenesis == Some(ToPb(id.genesis))
    && (rev.revoked.None? || (e.currentRoot.Some? && rev.revoked == Some(ToPb(e.currentRoot.value.signing))))
  }

  /** `rev` names the principal and this key. */
  predicate RevokesKey(rev: PeerRevocation, id: PrincipalId, key: PublicKey) {
    rev.targetGenesis == Some(ToPb(id.genesis)) && rev.revoked == Some(ToPb(key))
  }

  /** Adding an accepted revocation freezes its target, or revokes the key it names there, from its acceptance on, and
    * changes nothing else. */
  lemma PeerRevocationEffect(rev: PeerRevocation, r: Resolver, when: When, id: PrincipalId, key: PublicKey, t: i64)
    requires VerifyPeerRevocation(rev, r, when).Success?
    ensures var added := r.WithPeerRevocation(VerifyPeerRevocation(rev, r, when).value);
            && added.Success? && added.value.(peer := r.peer) == r
            && (added.value.IsFrozen(id, t) <==>
                  || r.IsFrozen(id, t)
                  || (id in r.entries && FreezesTarget(rev, id, r.entries[id]) && when.At() <= t))
            && (added.value.IsRevoked(id, key, t) <==>
                  || r.IsRevoked(id, key, t)
                  || (id in r.entries && RevokesKey(rev, id, key) && when.At() <= t))
  {
    hide VerifyPeerRevocation, Revokes;
    var v := VerifyPeerRevocation(rev, r, when).value;
    PeerRevocationIsSigned(rev, r, when, v);
    assert forall p :: p in r.peer + [v] <==> p in r.peer || p == v;
  }

  datatype Notice = Notice(rev: PeerRevocation, when: When)

  predicate Taken(r: Resolver, n: Notice) { VerifyPeerRevocation(n.rev, r, n.when).Success? }

  /** The resolver after a run of notices: those that verify are added, the others are dropped. */
  function Receive(r: Resolver, notices: seq<Notice>): Resolver {
    if notices == [] then r
    else
      var held, last := Receive(r, notices[..|notices| - 1]), notices[|notices| - 1];
      match VerifyPeerRevocation(last.rev, held, last.when)
      case Failure(_) => held
      case Success(v) =>
        match held.WithPeerRevocation(v)
        case Failure(_) => held
        case Success(more) => more
  }

  /** Some notice of the run was taken, holds for `id` and counts at `t`. */
  ghost predicate FrozenByNotice(r: Resolver, notices: seq<Notice>, id: PrincipalId, t: i64)
    requires id in r.entries
  {
    exists n | 0 <= n < |notices| ::
      && Taken(Receive(r, notices[..n]), notices[n])
      && FreezesTarget(notices[n].rev, id, r.entries[id]) && notices[n].when.At() <= t
  }

  ghost predicate RevokedByNotice(r: Resolver, notices: seq<Notice>, id: PrincipalId, key: PublicKey, t: i64) {
    exists n | 0 <= n < |notices| ::
      && Taken(Receive(r, notices[..n]), notices[n])
      && RevokesKey(notices[n].rev, id, key) && notices[n].when.At() <= t
  }

  lemma OneMoreNotice(r: Resolver, notices: seq<Notice>, id: PrincipalId, key: PublicKey, t: i64)
    requires notices != [] && id in r.entries
    ensures var m := |notices| - 1;
            var counts := Taken(Receive(r, notices[..m]), notices[m]) && notices[m].when.At() <= t;
            && (FrozenByNotice(r, notices, id, t) <==>
                  || FrozenByNotice(r, notices[..m], id, t)
                  || (counts && FreezesTarget(notices[m].rev, id, r.entries[id])))
            && (RevokedByNotice(r, notices, id, key, t) <==>
                  || RevokedByNotice(r, notices[..m], id, key, t)
                  || (counts && RevokesKey(notices[m].rev, id, key)))
  {
    hide Taken, FreezesTarget, RevokesKey, Receive;
    var m := |notices| - 1;
    assert forall n | 0 <= n <= m :: notices[..m][..n] == notices[..n];
    assert forall n | 0 <= n < m :: notices[..m][n] == notices[n];
  }

  /** After any run of notices a principal is frozen exactly if its entry says so or a notice that was taken freezes it
    * by then, and a key is revoked exactly if its entry revokes it by then or such a notice does. */
  lemma {:induction false} StandingIsSigned(r: Resolver, notices: seq<Notice>, id: PrincipalId, key: PublicKey, t: i64)
    requires r.peer == []
    ensures var held := Receive(r, notices);
            && held.entries == r.entries && held.(peer := []) == r
            && (held.IsFrozen(id, t) <==>
                  id in r.entries && (r.entries[id].frozen || FrozenByNotice(r, notices, id, t)))
            && (held.IsRevoked(id, key, t) <==>
                  && id in r.entries
                  && (|| (exists k <- r.entries[id].revocations :: k.0 == key && k.1 <= t)
                      || RevokedByNotice(r, notices, id, key, t)))
  {
    hide VerifyPeerRevocation, FreezesTarget, RevokesKey, FrozenByNotice, RevokedByNotice;
    if notices == [] {
      NoNotices(r, id, key, t);
    } else {
      var m := |notices| - 1;
      var held, last := Receive(r, notices[..m]), notices[m];
      StandingIsSigned(r, notices[..m], id, key, t);
      if id in r.entries {
        OneMoreNotice(r, notices, id, key, t);
      }
      if Taken(held, last) {
        PeerRevocationEffect(last.rev, held, last.when, id, key, t);
      }
    }
  }

  lemma NoNotices(r: Resolver, id: PrincipalId, key: PublicKey, t: i64)
    ensures id in r.entries ==> !FrozenByNotice(r, [], id, t)
    ensures !RevokedByNotice(r, [], id, key, t)
  {}
}
