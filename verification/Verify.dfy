/** The per-message verifiers: each checks only what its input carries, against a resolver and a time. */
module Verify {
  import opened Wrappers
  import opened Bytes
  import opened Primitives
  import opened Errors
  import opened Wire
  import opened Transcripts
  import opened Authority
  import opened Registry
  import opened Resolvers
  import Principal

  const SKEW_SECONDS: i64 := 30
  const MAX_SESSION_SECONDS: i64 := 86_400
  const MAX_UNLISTED_DELEGATION_SECONDS: i64 := 31 * 86_400

  /** The time of a check: now, or the receiver's own record of acceptance. */
  datatype When = Live(now: i64) | Accepted(time: i64) {
    function At(): i64 {
      match this
      case Live(now) => now
      case Accepted(time) => time
    }

    function CheckSkew(issuedAt: i64): Outcome<Error> {
      match this
      case Accepted(_) => Pass
      case Live(now) => Need(-SKEW_SECONDS <= issuedAt - now <= SKEW_SECONDS, Skew)
    }
  }

  /** What stands behind a chain: a daemon, a human device without a host (or a service), or nothing. */
  datatype Hosting = HostDaemon(id: PrincipalId) | Hostless | Unhosted

  datatype VerifiedChain = VerifiedChain(
    principal: PrincipalId,
    kind: PrincipalKind,
    host: Hosting,
    subject: Option<Text>,
    device: PublicKey,
    sessionKey: PublicKey,
    sessionNotAfter: i64)

  function CheckSessionSpan(notBefore: i64, notAfter: i64): Outcome<Error> {
    Need(0 < notAfter - notBefore <= MAX_SESSION_SECONDS, InvalidField(SessionNotAfter))
  }

  function CheckUnlistedSpan(issuedAt: i64, notAfter: i64): Outcome<Error> {
    Need(0 < notAfter - issuedAt <= MAX_UNLISTED_DELEGATION_SECONDS, InvalidField(DeviceNotAfter))
  }

  /** The device key of a delegation that holds for the entry at this time: its root's and unrevoked, in its window,
    * and for a human the bound one. */
  function DeviceCurrent(d: KeyDelegation, entry: VerifiedEntry, r: Resolver, at: i64): Result<PublicKey, Error> {
    var genesis :- Req(d.principalGenesis, DevicePrincipalGenesis);
    :- Need(genesis == entry.id.genesis, ChainMismatch(DevicePrincipalGenesis));
    var root :- Req(d.signingRoot, DeviceSigningRoot);
    :- Need(entry.currentRoot.Some? && root == entry.currentRoot.value.signing, ChainMismatch(DeviceSigningRoot));
    :- Need(!r.IsRevoked(entry.id, root, at), KeyRevoked);
    :- Need(d.purpose == PURPOSE_DEVICE, ChainMismatch(DevicePurpose));
    var transcript :- TranscriptOf(Delegation(d));
    :- VerifyP256(root, transcript, d.signature);
    var device :- Req(d.delegated, DeviceDelegated);
    :- Need(!r.IsRevoked(entry.id, device, at), KeyRevoked);
    :- Need(d.notAfter != 0, InvalidField(DeviceNotAfter));
    :- if entry.kind == Human then CheckBound(d, entry.id, device, r, at) else CheckUnlisted(d, at);
    Success(device)
  }

  /** A human's delegation is the bound one, and the binding's host is not frozen. */
  function CheckBound(d: KeyDelegation, principal: PrincipalId, device: PublicKey, r: Resolver, at: i64)
    : Outcome<Error>
  {
    match r.Binding(principal, device)
    case None => Fail(NotBound)
    case Some(b) =>
      if b.device != d then Fail(ChainMismatch(BoundDelegation))
      else if at > d.notAfter then Fail(Expired(DeviceDelegation))
      else Need(!(b.host.Some? && r.IsFrozen(b.host.value, at)), HostFrozen)
  }

  function CheckUnlisted(d: KeyDelegation, at: i64): Outcome<Error> {
    match CheckUnlistedSpan(d.issuedAt, d.notAfter)
    case Fail(e) => Fail(e)
    case Pass =>
      if d.issuedAt > SaturatingAdd(at, SKEW_SECONDS) then Fail(NotYetValid(DeviceDelegation))
      else Need(at <= d.notAfter, Expired(DeviceDelegation))
  }

  /** The session certificate under `device`: the session key and the end of its window. */
  function CheckCert(c: DelegationCert, device: PublicKey, at: i64): Result<(PublicKey, i64), Error> {
    var named :- Req(c.device, SessionDevice);
    :- Need(named == device, ChainMismatch(SessionDevice));
    var transcript :- TranscriptOf(SessionDelegation(c));
    :- VerifyP256(device, transcript, c.signature);
    :- CheckSessionSpan(c.notBefore, c.notAfter);
    :- Need(at >= SaturatingSub(c.notBefore, SKEW_SECONDS), NotYetValid(SessionCert));
    :- Need(at <= c.notAfter, Expired(SessionCert));
    var session :- Req(c.session, SessionSession);
    Success((session, c.notAfter))
  }

  function HostingOf(entry: VerifiedEntry, device: PublicKey, r: Resolver): Hosting {
    match entry.kind
    case Daemon => HostDaemon(entry.id)
    case Agent => Unhosted
    case Service => Hostless
    case Human =>
      match r.Binding(entry.id, device)
      case None => Hostless
      case Some(b) => if b.host.Some? then HostDaemon(b.host.value) else Hostless
  }

  function VerifySelfRooted(device: Option<KeyDelegation>, session: Option<DelegationCert>, r: Resolver, at: i64)
    : Result<VerifiedChain, Error>
  {
    var d :- OkOr(device, MissingField(SelfRootedDevice));
    var cert :- OkOr(session, MissingField(SelfRootedSession));
    var genesis :- Req(cert.principalGenesis, SessionPrincipalGenesis);
    var principal := PrincipalId(genesis);
    var entry :- OkOr(r.Entry(principal), UnknownPrincipal);
    :- Need(entry.IsSelfRooted(), WrongKind);
    :- Need(!r.IsFrozen(principal, at), Frozen);
    :- Need(cert.mode == 0, ChainMismatch(SessionMode));
    var deviceKey :- DeviceCurrent(d, entry, r, at);
    var (sessionKey, notAfter) :- CheckCert(cert, deviceKey, at);
    Success(VerifiedChain(principal, entry.kind, HostingOf(entry, deviceKey, r), None, deviceKey, sessionKey, notAfter))
  }

  /** The prefix of the subjects a daemon may vouch for. */
  function SubjectPrefix(daemon: PrincipalId): Text { Principal.HexEncode(ShortId(daemon)) + [47] }

  predicate Allows(hosts: seq<AllowedHost>, daemon: PrincipalId) {
    exists h <- hosts :: h == Any || h == Host(daemon)
  }

  function VerifyHostVouched(hostDevice: Option<KeyDelegation>, session: Option<DelegationCert>, r: Resolver, at: i64)
    : Result<VerifiedChain, Error>
  {
    var d :- OkOr(hostDevice, MissingField(HostVouchedDevice));
    var cert :- OkOr(session, MissingField(HostVouchedSession));
    var hostGenesis :- Req(d.principalGenesis, HostDevicePrincipalGenesis);
    var daemon := PrincipalId(hostGenesis);
    var daemonEntry :- OkOr(r.Entry(daemon), UnknownPrincipal);
    :- Need(daemonEntry.kind == Daemon, WrongKind);
    :- Need(!r.IsFrozen(daemon, at), Frozen);
    :- Need(cert.mode == 1, ChainMismatch(SessionMode));
    var named :- Req(cert.hostGenesis, SessionHostGenesis);
    :- Need(named == daemon.genesis, ChainMismatch(SessionHostGenesis));
    var subject :- OkOr(cert.subject, MissingField(SessionSubject));
    :- Need(SubjectPrefix(daemon) <= subject, NotVouched);
    var genesis :- Req(cert.principalGenesis, SessionPrincipalGenesis);
    var agent := PrincipalId(genesis);
    var agentEntry :- OkOr(r.Entry(agent), UnknownPrincipal);
    :- Need(agentEntry.kind == Agent && !agentEntry.IsSelfRooted(), WrongKind);
    :- Need(!r.IsFrozen(agent, at), Frozen);
    :- Need(Allows(agentEntry.allowedHosts, daemon), NotVouched);
    var device :- DeviceCurrent(d, daemonEntry, r, at);
    var (sessionKey, notAfter) :- CheckCert(cert, device, at);
    Success(VerifiedChain(agent, Agent, HostDaemon(daemon), Some(subject), device, sessionKey, notAfter))
  }

  function VerifyChain(signer: SignerChain, r: Resolver, when: When): Result<VerifiedChain, Error> {
    match signer.chain
    case None => Failure(MissingField(ChainField))
    case Some(SelfRooted(device, session)) => VerifySelfRooted(device, session, r, when.At())
    case Some(HostVouched(hostDevice, session)) => VerifyHostVouched(hostDevice, session, r, when.At())
  }

  datatype VerifiedMessage = VerifiedMessage(
    chain: VerifiedChain,
    nonce: seq<byte>,
    issuedAt: i64,
    inReplyToNonce: Option<seq<byte>>,
    bodyType: Text,
    body: seq<byte>)

  /** Audience, signature under the session key, live skew. */
  function CheckMessageUnderSession(msg: SignedMessage, expectedAudience: Text, sessionKey: PublicKey, when: When)
    : Result<(), Error>
  {
    var addressed := Need(msg.audience == expectedAudience, WrongAudience);
    :- addressed;
    var transcript :- TranscriptOf(Message(msg));
    :- VerifyP256(sessionKey, transcript, msg.signature);
    :- when.CheckSkew(msg.issuedAt);
    Success(())
  }

  function VerifySignedMessage(msg: SignedMessage, expectedAudience: Text, r: Resolver, when: When)
    : Result<VerifiedMessage, Error>
  {
    var signed := Need(msg.signature != [], EmptySignature);
    :- signed;
    var signer :- OkOr(msg.signer, MissingField(Signer));
    var chain :- VerifyChain(signer, r, when);
    var _ :- CheckMessageUnderSession(msg, expectedAudience, chain.sessionKey, when);
    Success(VerifiedMessage(chain, msg.nonce, msg.issuedAt, msg.inReplyToNonce, msg.bodyType, msg.body))
  }

  datatype VerifiedTrustedMessage = VerifiedTrustedMessage(
    authorGenesis: PublicKey,
    device: PublicKey,
    sessionKey: PublicKey,
    sessionNotAfter: i64,
    nonce: seq<byte>,
    issuedAt: i64,
    inReplyToNonce: Option<seq<byte>>,
    bodyType: Text,
    body: seq<byte>)

  /** The interim verifier: it trusts a list of the author's device keys instead of a registry. */
  function VerifySignedMessageTrustedDevices(msg: SignedMessage, expectedAudience: Text, authorGenesis: PublicKey,
                                             devices: seq<PublicKey>, when: When): Result<VerifiedTrustedMessage, Error>
  {
    var signed := Need(msg.signature != [], EmptySignature);
    :- signed;
    var signer :- OkOr(msg.signer, MissingField(Signer));
    var chain :- OkOr(signer.chain, MissingField(ChainField));
    var cert :- match chain
      case SelfRooted(_, session) => OkOr(session, MissingField(SelfRootedSession))
      case HostVouched(_, _) => Failure(ChainMismatch(SignerHostVouched));
    :- Need(cert.mode == 0, ChainMismatch(SessionMode));
    var principal :- Req(cert.principalGenesis, SessionPrincipalGenesis);
    :- Need(principal == authorGenesis, ChainMismatch(SessionPrincipalGenesis));
    var device :- Req(cert.device, SessionDevice);
    :- Need(device in devices, NotBound);
    var (sessionKey, notAfter) :- CheckCert(cert, device, when.At());
    var _ :- CheckMessageUnderSession(msg, expectedAudience, sessionKey, when);
    Success(VerifiedTrustedMessage(authorGenesis, device, sessionKey, notAfter, msg.nonce, msg.issuedAt,
                                   msg.inReplyToNonce, msg.bodyType, msg.body))
  }

  datatype VerifiedApproval = VerifiedApproval(
    principal: PrincipalId,
    approvalKey: PublicKey,
    requestId: Text,
    accept: bool,
    issuedAt: i64)

  function VerifyApproval(a: Approval, expectedAudience: Text, expectedRequestId: Text, session: VerifiedChain,
                          digest: Bytes32, r: Resolver, when: When): Result<VerifiedApproval, Error>
  {
    var signed := Need(a.signature != [], EmptySignature);
    :- signed;
    var at := when.At();
    var genesis :- Req(a.principalGenesis, PrincipalGenesis);
    var principal := PrincipalId(genesis);
    :- Need(principal == session.principal, ChainMismatch(ApprovalPrincipalGenesis));
    :- Need(session.kind == Human, WrongKind);
    :- Need(!r.IsFrozen(principal, at), Frozen);
    var device :- Req(a.device, Device);
    :- Need(device == session.device, ChainMismatch(ApprovalDevice));
    var approvalKey :- Req(a.approvalKey, Field.ApprovalKey);
    var binding :- OkOr(r.Binding(principal, device), NotBound);
    :- Need(binding.ApprovalKey() == Some(approvalKey), NotBound);
    var delegation :- OkOr(binding.approval, Panic(ApprovalImpliesDelegation));
    :- Need(at <= delegation.0.notAfter, Expired(ApprovalDelegation));
    :- Need(!r.IsRevoked(principal, approvalKey, at), KeyRevoked);
    :- Need(a.audience == expectedAudience, WrongAudience);
    :- Need(a.requestId == expectedRequestId && a.requestDigest == digest, DigestMismatch);
    var transcript :- TranscriptOf(ApprovalOf(a));
    :- VerifyP256(approvalKey, transcript, a.signature);
    :- when.CheckSkew(a.issuedAt);
    Success(VerifiedApproval(principal, approvalKey, a.requestId, a.accept, a.issuedAt))
  }

  function VerifyPeerRevocation(rev: PeerRevocation, r: Resolver, when: When): Result<VerifiedPeerRevocation, Error> {
    var signed := Need(rev.signature != [], EmptySignature);
    :- signed;
    var at := when.At();
    :- Need(r.allowPeerRevocation, PeerRevocationDisabled);
    :- Need(rev.documentId == r.documentId, StalePeerRevocation);
    var genesis :- Req(rev.revokerGenesis, RevokerGenesis);
    var revoker := PrincipalId(genesis);
    :- Need(revoker == r.authority, NotAuthority);
    :- Need(!r.IsFrozen(revoker, at), Frozen);
    var approvalKey :- Req(rev.approvalKey, Field.ApprovalKey);
    var entry :- OkOr(r.Entry(revoker), Panic(AuthorityEntry));
    var binding :- OkOr(FindApproval(entry.bindings, approvalKey), NotBound);
    var delegation :- OkOr(binding.approval, Panic(ApprovalImpliesDelegation));
    :- Need(at <= delegation.0.notAfter, Expired(ApprovalDelegation));
    :- Need(!(r.IsRevoked(revoker, approvalKey, at) || r.IsRevoked(revoker, binding.deviceKey, at)), KeyRevoked);
    var targetGenesis :- Req(rev.targetGenesis, TargetGenesis);
    var target := PrincipalId(targetGenesis);
    var targetEntry :- OkOr(r.Entry(target), UnknownPrincipal);
    var revoked :- OptKey(rev.revoked);
    :- Need(revoked.Some? ==> targetEntry.IsSelfRooted(), WrongKind);
    var transcript :- TranscriptOf(PeerRevocationOf(rev));
    :- VerifyP256(approvalKey, transcript, rev.signature);
    :- when.CheckSkew(rev.issuedAt);
    Success(VerifiedPeerRevocation(target, revoked, at, r.documentId))
  }
}
