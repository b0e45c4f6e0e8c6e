/** When the verifiers accept, and how a resolver's revocations change their answers. */
module VerifyFacts {
  import opened Wrappers
  import opened Bytes
  import opened Primitives
  import opened Errors
  import opened Wire
  import opened Transcripts
  import opened Authority
  import opened Registry
  import opened RegistryFacts
  import opened Resolvers
  import opened Verify

  // Acceptance times of one chain.

  function Max(a: int, b: int): int { if a < b then b else a }

  /** The delegation and certificate of a chain, and the principal that delegates. */
  datatype Parts = Parts(delegation: KeyDelegation, cert: DelegationCert, delegator: PrincipalId, root: PublicKey)

  /** The parts of a chain, where it has them all. */
  function PartsOf(signer: SignerChain): Option<Parts> {
    match signer.chain
    case None => None
    case Some(SelfRooted(Some(d), Some(c))) => MakeParts(d, c, c.principalGenesis)
    case Some(HostVouched(Some(d), Some(c))) => MakeParts(d, c, d.principalGenesis)
    case Some(_) => None
  }

  function MakeParts(d: KeyDelegation, c: DelegationCert, delegator: Option<PbKey>): Option<Parts> {
    var genesis :- KeyOf(delegator);
    var root :- KeyOf(d.signingRoot);
    Some(Parts(d, c, PrincipalId(genesis), root))
  }

  /** The first time at which a chain that is accepted at all is accepted. */
  function Opens(p: Parts, r: Resolver): int {
    var sessionOpens := p.cert.notBefore - SKEW_SECONDS;
    if p.delegator in r.entries && r.entries[p.delegator].kind == Human then sessionOpens
    else Max(sessionOpens, p.delegation.issuedAt - SKEW_SECONDS)
  }

  /** The last: the certificate and the delegation have not ended, neither the principal nor the daemon behind it is
    * frozen yet, neither the root nor the device is revoked yet. */
  function Closes(p: Parts, v: VerifiedChain, r: Resolver): int {
    var windows := Min(p.cert.notAfter, p.delegation.notAfter);
    var freezes := Min(FrozenFrom(r, v.principal), if v.host.HostDaemon? then FrozenFrom(r, v.host.id) else NEVER);
    var revocations := Min(RevokedFrom(r, p.delegator, p.root), RevokedFrom(r, p.delegator, v.device));
    Min(windows, Min(freezes, revocations) - 1)
  }

  /** Times enter the delegation check only through its window and the moments of freezes and revocations. */
  lemma DeviceCurrentTimes(d: KeyDelegation, entry: VerifiedEntry, r: Resolver, a: i64, t: i64)
    requires DeviceCurrent(d, entry, r, a).Success?
    ensures var device := DeviceCurrent(d, entry, r, a).value;
            && KeyOf(d.signingRoot).Some?
            && (DeviceCurrent(d, entry, r, t).Success? <==>
                  && t <= d.notAfter
                  && (entry.kind != Human ==> d.issuedAt - SKEW_SECONDS <= t)
                  && !r.IsRevoked(entry.id, KeyOf(d.signingRoot).value, t)
                  && !r.IsRevoked(entry.id, device, t)
                  && (entry.kind == Human && r.Binding(entry.id, device).Some?
                      && r.Binding(entry.id, device).value.host.Some?
                      ==> !r.IsFrozen(r.Binding(entry.id, device).value.host.value, t)))
            && (DeviceCurrent(d, entry, r, t).Success? ==> DeviceCurrent(d, entry, r, t).value == device)
  {
    hide TranscriptOf, VerifyP256, Resolver.IsRevoked, Resolver.IsFrozen, Resolver.Binding, ParseKey;
  }

  lemma CheckCertTimes(c: DelegationCert, device: PublicKey, a: i64, t: i64)
    requires CheckCert(c, device, a).Success?
    ensures CheckCert(c, device, t).Success? <==> c.notBefore - SKEW_SECONDS <= t <= c.notAfter
    ensures CheckCert(c, device, t).Success? ==> CheckCert(c, device, t).value == CheckCert(c, device, a).value
    ensures c.notAfter - c.notBefore <= MAX_SESSION_SECONDS
  {
    hide TranscriptOf, VerifyP256;
  }

  /** An accepted chain has all its parts: its delegation is current for the delegator's entry and its certificate
    * holds under the device. */
  lemma AcceptedParts(signer: SignerChain, r: Resolver, a: When)
    requires VerifyChain(signer, r, a).Success? && Keyed(r)
    ensures PartsOf(signer).Some?
    ensures var p, v := PartsOf(signer).value, VerifyChain(signer, r, a).value;
            && p.delegator in r.entries
            && DeviceCurrent(p.delegation, r.entries[p.delegator], r, a.At()) == Success(v.device)
            && CheckCert(p.cert, v.device, a.At()) == Success((v.sessionKey, v.sessionNotAfter))
            && p.cert.notAfter - p.cert.notBefore <= MAX_SESSION_SECONDS
  {
    hide CheckCert, Resolver.IsRevoked, Resolver.IsFrozen, Resolver.Binding, TranscriptOf, VerifyP256, ParseKey,
      CheckBound, CheckUnlisted, Allows, SubjectPrefix;
    match signer.chain {
      case Some(SelfRooted(d, c)) =>
        var principal := PrincipalId(KeyOf(c.value.principalGenesis).value);
        DeviceCurrentTimes(d.value, r.entries[principal], r, a.At(), a.At());
        CheckCertTimes(c.value, VerifyChain(signer, r, a).value.device, a.At(), a.At());
      case Some(HostVouched(d, c)) =>
        var daemon := PrincipalId(KeyOf(d.value.principalGenesis).value);
        DeviceCurrentTimes(d.value, r.entries[daemon], r, a.At(), a.At());
        CheckCertTimes(c.value, VerifyChain(signer, r, a).value.device, a.At(), a.At());
    }
  }

  /** The moments that close the interval, said as the checks that a verifier makes. */
  lemma BeforeClosing(p: Parts, v: VerifiedChain, r: Resolver, t: i64)
    ensures t <= Closes(p, v, r) <==>
              && t <= p.cert.notAfter && t <= p.delegation.notAfter
              && !r.IsFrozen(v.principal, t)
              && (v.host.HostDaemon? ==> !r.IsFrozen(v.host.id, t))
              && !r.IsRevoked(p.delegator, p.root, t) && !r.IsRevoked(p.delegator, v.device, t)
  {
    hide FrozenFrom, RevokedFrom, Resolver.IsRevoked, Resolver.IsFrozen;
    FrozenIsAMoment(r, v.principal, t);
    RevokedIsAMoment(r, p.delegator, p.root, t);
    RevokedIsAMoment(r, p.delegator, v.device, t);
    if v.host.HostDaemon? {
      FrozenIsAMoment(r, v.host.id, t);
    }
  }

  /** The times at which one chain is accepted are the whole interval between `Opens` and `Closes`, and the result is
    * the same at each of them. */
  lemma AcceptanceIsAnInterval(signer: SignerChain, r: Resolver, a: When, t: When)
    requires VerifyChain(signer, r, a).Success? && Keyed(r)
    ensures PartsOf(signer).Some?
    ensures var p, v := PartsOf(signer).value, VerifyChain(signer, r, a).value;
            && (VerifyChain(signer, r, t).Success? <==> Opens(p, r) <= t.At() <= Closes(p, v, r))
            && (VerifyChain(signer, r, t).Success? ==> VerifyChain(signer, r, t).value == v)
  {
    hide DeviceCurrent, CheckCert, Closes, Resolver.IsRevoked, Resolver.IsFrozen, Resolver.Binding, ParseKey, Allows,
      SubjectPrefix;
    AcceptedParts(signer, r, a);
    var v := VerifyChain(signer, r, a).value;
    var p := PartsOf(signer).value;
    DeviceCurrentTimes(p.delegation, r.entries[p.delegator], r, a.At(), t.At());
    CheckCertTimes(p.cert, v.device, a.At(), t.At());
    BeforeClosing(p, v, r, t.At());
  }

  /** Every entry is filed under its own id. */
  predicate Keyed(r: Resolver) { forall id <- r.entries :: r.entries[id].id == id }

  lemma BuiltIsKeyed(r: Resolver, reg: PrincipalRegistry, chain: AuthorityChain)
    requires Built(r, reg, chain)
    ensures Keyed(r)
  {
    hide Accepts, EntryInvariant;
    forall id | id in r.entries
      ensures r.entries[id].id == id
    {
      AcceptedEntryInvariant(reg, chain, r.entries, id);
    }
  }

  /** Two times at which one chain is accepted are at most a session and a skew apart. */
  lemma AcceptanceIsShort(signer: SignerChain, r: Resolver, a: When, b: When)
    requires VerifyChain(signer, r, a).Success? && VerifyChain(signer, r, b).Success? && Keyed(r)
    ensures b.At() - a.At() <= 86_430
  {
    hide VerifyChain, DeviceCurrent, CheckCert, FrozenFrom, RevokedFrom;
    AcceptedParts(signer, r, a);
    AcceptanceIsAnInterval(signer, r, a, a);
    AcceptanceIsAnInterval(signer, r, a, b);
  }

  /** A message accepted once is accepted, as the same message, at the times of its chain, in live mode within the
    * skew only. */
  lemma MessageTimes(msg: SignedMessage, audience: Text, r: Resolver, a: When, t: When)
    requires VerifySignedMessage(msg, audience, r, a).Success?
    requires Keyed(r)
    ensures msg.signer.Some?
    ensures VerifySignedMessage(msg, audience, r, t).Success?
       <==> VerifyChain(msg.signer.value, r, t).Success? && t.CheckSkew(msg.issuedAt).Pass?
    ensures VerifySignedMessage(msg, audience, r, t).Success? ==>
              VerifySignedMessage(msg, audience, r, t) == VerifySignedMessage(msg, audience, r, a)
  {
    hide VerifyChain, TranscriptOf, VerifyP256, Keyed, Opens, Closes, PartsOf;
    AcceptanceIsAnInterval(msg.signer.value, r, a, t);
  }

  // All verifiers as one.

  datatype Call =
    | CallChain(signer: SignerChain)
    | CallMessage(message: SignedMessage, audience: Text)
    | CallApproval(approval: Approval, approvalAudience: Text, requestId: Text, session: VerifiedChain, digest: Bytes32)
    | CallPeerRevocation(revocation: PeerRevocation)

  datatype Verdict =
    | ChainVerdict(chain: VerifiedChain)
    | MessageVerdict(message: VerifiedMessage)
    | ApprovalVerdict(approval: VerifiedApproval)
    | PeerRevocationVerdict(revocation: VerifiedPeerRevocation)

  function Answer(c: Call, r: Resolver, when: When): Result<Verdict, Error> {
    match c
    case CallChain(signer) =>
      var v :- VerifyChain(signer, r, when);
      Success(ChainVerdict(v))
    case CallMessage(msg, audience) =>
      var v :- VerifySignedMessage(msg, audience, r, when);
      Success(MessageVerdict(v))
    case CallApproval(a, audience, requestId, session, digest) =>
      var v :- VerifyApproval(a, audience, requestId, session, digest, r, when);
      Success(ApprovalVerdict(v))
    case CallPeerRevocation(rev) =>
      var v :- VerifyPeerRevocation(rev, r, when);
      Success(PeerRevocationVerdict(v))
  }

  // Peer revocations.

  /** `b` differs from `a` in its peer revocations only, and every freeze and revocation of `a` at this time is one
    * of `b`. */
  ghost predicate RevokesMore(a: Resolver, b: Resolver, at: i64) {
    && b == a.(peer := b.peer)
    && (forall p :: a.IsFrozen(p, at) ==> b.IsFrozen(p, at))
    && (forall p, k :: a.IsRevoked(p, k, at) ==> b.IsRevoked(p, k, at))
  }

  lemma BindingSame(a: Resolver, b: Resolver)
    requires b == a.(peer := b.peer)
    ensures forall p, k :: a.Binding(p, k) == b.Binding(p, k)
    ensures forall e, k :: HostingOf(e, k, a) == HostingOf(e, k, b)
  {}

  /** What a resolver that revokes more accepts, one that revokes less accepts with the same value; where they revoke
    * the same, they answer the same, errors included. */
  lemma DeviceFollows(d: KeyDelegation, entry: VerifiedEntry, a: Resolver, b: Resolver, at: i64)
    requires RevokesMore(a, b, at)
    ensures DeviceCurrent(d, entry, b, at).Success? ==> DeviceCurrent(d, entry, a, at) == DeviceCurrent(d, entry, b, at)
    ensures RevokesMore(b, a, at) ==> DeviceCurrent(d, entry, a, at) == DeviceCurrent(d, entry, b, at)
  {
    hide TranscriptOf, VerifyP256, Resolver.IsRevoked, Resolver.IsFrozen, Resolver.Binding, ParseKey;
    BindingSame(a, b);
  }

  lemma ChainFollows(signer: SignerChain, a: Resolver, b: Resolver, when: When)
    requires RevokesMore(a, b, when.At())
    ensures VerifyChain(signer, b, when).Success? ==> VerifyChain(signer, a, when) == VerifyChain(signer, b, when)
    ensures RevokesMore(b, a, when.At()) ==> VerifyChain(signer, a, when) == VerifyChain(signer, b, when)
  {
    hide DeviceCurrent, CheckCert, HostingOf, Resolver.IsRevoked, Resolver.IsFrozen,
      Resolver.Binding, ParseKey, Allows, SubjectPrefix;
    BindingSame(a, b);
    match signer.chain {
      case None =>
      case Some(SelfRooted(device, session)) =>
        if device.Some? && session.Some? && EntryNamed(session.value.principalGenesis, a).Some? {
          DeviceFollows(device.value, EntryNamed(session.value.principalGenesis, a).value, a, b, when.At());
        }
      case Some(HostVouched(hostDevice, session)) =>
        if hostDevice.Some? && EntryNamed(hostDevice.value.principalGenesis, a).Some? {
          DeviceFollows(hostDevice.value, EntryNamed(hostDevice.value.principalGenesis, a).value, a, b, when.At());
        }
    }
  }

  function EntryNamed(genesis: Option<PbKey>, r: Resolver): Option<VerifiedEntry> {
    var key :- KeyOf(genesis);
    r.Entry(PrincipalId(key))
  }

  lemma MessageFollows(msg: SignedMessage, audience: Text, a: Resolver, b: Resolver, when: When)
    requires RevokesMore(a, b, when.At())
    ensures VerifySignedMessage(msg, audience, b, when).Success? ==>
              VerifySignedMessage(msg, audience, a, when) == VerifySignedMessage(msg, audience, b, when)
    ensures RevokesMore(b, a, when.At()) ==>
              VerifySignedMessage(msg, audience, a, when) == VerifySignedMessage(msg, audience, b, when)
  {
    hide VerifyChain, CheckMessageUnderSession, RevokesMore;
    if msg.signer.Some? {
      ChainFollows(msg.signer.value, a, b, when);
    }
  }

  lemma ApprovalFollows(p: Approval, audience: Text, requestId: Text, session: VerifiedChain, digest: Bytes32,
                        a: Resolver, b: Resolver, when: When)
    requires RevokesMore(a, b, when.At())
    ensures VerifyApproval(p, audience, requestId, session, digest, b, when).Success? ==>
              VerifyApproval(p, audience, requestId, session, digest, a, when)
              == VerifyApproval(p, audience, requestId, session, digest, b, when)
    ensures RevokesMore(b, a, when.At()) ==>
              VerifyApproval(p, audience, requestId, session, digest, a, when)
              == VerifyApproval(p, audience, requestId, session, digest, b, when)
  {
    hide TranscriptOf, VerifyP256, Resolver.IsRevoked, Resolver.IsFrozen, Resolver.Binding, ParseKey;
    BindingSame(a, b);
  }

  lemma PeerRevocationFollows(rev: PeerRevocation, a: Resolver, b: Resolver, when: When)
    requires RevokesMore(a, b, when.At())
    ensures VerifyPeerRevocation(rev, b, when).Success? ==>
              VerifyPeerRevocation(rev, a, when) == VerifyPeerRevocation(rev, b, when)
    ensures RevokesMore(b, a, when.At()) ==> VerifyPeerRevocation(rev, a, when) == VerifyPeerRevocation(rev, b, when)
  {
    hide TranscriptOf, VerifyP256, Resolver.IsRevoked, Resolver.IsFrozen, ParseKey, FindApproval;
  }

  lemma AnswerFollows(c: Call, a: Resolver, b: Resolver, when: When)
    requires RevokesMore(a, b, when.At())
    ensures Answer(c, b, when).Success? ==> Answer(c, a, when) == Answer(c, b, when)
    ensures RevokesMore(b, a, when.At()) ==> Answer(c, a, when) == Answer(c, b, when)
  {
    hide VerifyChain, VerifySignedMessage, VerifyApproval, VerifyPeerRevocation, RevokesMore;
    match c {
      case CallChain(signer) => ChainFollows(signer, a, b, when);
      case CallMessage(msg, audience) => MessageFollows(msg, audience, a, b, when);
      case CallApproval(p, audience, requestId, session, digest) =>
        ApprovalFollows(p, audience, requestId, session, digest, a, b, when);
      case CallPeerRevocation(rev) => PeerRevocationFollows(rev, a, b, when);
    }
  }

  /** Every revocation of `a` in effect at `at` is in `b`. */
  predicate InEffectIn(a: Resolver, b: Resolver, at: i64) { forall p <- a.peer | p.acceptedAt <= at :: p in b.peer }

  lemma InEffectRevokesMore(a: Resolver, b: Resolver, at: i64)
    requires b == a.(peer := b.peer) && InEffectIn(a, b, at)
    ensures RevokesMore(a, b, at)
  {
    hide Freezes;
  }

  /** Peer revocations only take access away: whatever a verifier accepts with more of them, it accepts with fewer,
    * with the same value. */
  lemma RevocationsOnlyRemoveAccess(c: Call, fewer: Resolver, more: Resolver, when: When)
    requires more == fewer.(peer := more.peer) && InEffectIn(fewer, more, when.At())
    requires Answer(c, more, when).Success?
    ensures Answer(c, fewer, when) == Answer(c, more, when)
  {
    hide Answer, RevokesMore, InEffectIn;
    InEffectRevokesMore(fewer, more, when.At());
    AnswerFollows(c, fewer, more, when);
  }

  /** Only the set of revocations accepted so far counts: not their order, not repetition, and not those accepted
    * later. Answers are the same, errors included. */
  lemma OnlyRevocationsSoFarCount(c: Call, a: Resolver, b: Resolver, when: When)
    requires b == a.(peer := b.peer) && InEffectIn(a, b, when.At()) && InEffectIn(b, a, when.At())
    ensures Answer(c, a, when) == Answer(c, b, when)
  {
    hide Answer, RevokesMore, InEffectIn;
    InEffectRevokesMore(a, b, when.At());
    InEffectRevokesMore(b, a, when.At());
    AnswerFollows(c, a, b, when);
  }

  /** Adding one revocation: nothing changes before it was accepted, and afterwards access is only lost. */
  lemma OneMoreRevocation(c: Call, r: Resolver, rev: VerifiedPeerRevocation, when: When)
    requires r.WithPeerRevocation(rev).Success?
    ensures var after := r.WithPeerRevocation(rev).value;
            && (when.At() < rev.acceptedAt ==> Answer(c, after, when) == Answer(c, r, when))
            && (Answer(c, after, when).Success? ==> Answer(c, r, when) == Answer(c, after, when))
  {
    hide Answer;
    var after := r.WithPeerRevocation(rev).value;
    if when.At() < rev.acceptedAt {
      OnlyRevocationsSoFarCount(c, r, after, when);
    } else if Answer(c, after, when).Success? {
      RevocationsOnlyRemoveAccess(c, r, after, when);
    }
  }
}
