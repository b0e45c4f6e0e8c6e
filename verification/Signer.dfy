/** The signing side: delegations, rotations, sessions and messages, and its agreement with the verifiers. Each key
  * pair can sign: it holds its private half. */
module Signer {
  import opened Wrappers
  import opened Bytes
  import opened Primitives
  import opened Errors
  import opened Wire
  import opened Encoding
  import opened Transcripts
  import opened Authority
  import opened Registry
  import opened Resolvers
  import opened Verify
  import opened VerifyFacts

  type Bytes16 = b: seq<byte> | |b| == 16 witness seq(16, _ => 0)

  function NewDelegation(genesis: PrincipalId, root: PublicKey, deviceSigning: PublicKey, deviceEncryption: PublicKey,
                         issuedAt: i64, notAfter: i64): KeyDelegation
  {
    KeyDelegation(Some(ToPb(genesis.genesis)), Some(ToPb(root)), PURPOSE_DEVICE, Some(ToPb(deviceSigning)),
                  Some(ToPb(deviceEncryption)), issuedAt, notAfter, [])
  }

  function SignKeyDelegation(root: PublicKey, d: KeyDelegation): Result<KeyDelegation, Error> {
    var transcript :- TranscriptOf(Delegation(d));
    Success(d.(signature := SignBytes(root, transcript)))
  }

  function DelegateDevice(root: KeyDuo, genesis: PrincipalId, device: KeyDuo, issuedAt: i64, notAfter: i64)
    : Result<KeyDelegation, Error>
  {
    var spanned := CheckUnlistedSpan(issuedAt, notAfter);
    :- spanned;
    SignKeyDelegation(root.signing,
                      NewDelegation(genesis, root.signing, device.signing, device.encryption, issuedAt, notAfter))
  }

  predicate RenewalDue(d: KeyDelegation, now: i64, margin: i64) { SaturatingSub(d.notAfter, now) <= margin }

  /** The old root's signed succession by a new one. */
  function Rotate(oldRoot: KeyDuo, genesis: PrincipalId, newRoot: KeyDuo, issuedAt: i64): Result<RootRotation, Error> {
    var r := RootRotation(Some(ToPb(genesis.genesis)), Some(ToPb(oldRoot.signing)), Some(ToPb(newRoot.signing)),
                          issuedAt, []);
    var transcript :- TranscriptOf(Rotation(r));
    Success(r.(signature := SignBytes(oldRoot.signing, transcript)))
  }

  datatype SessionCredential = SessionCredential(cert: DelegationCert, key: PublicKey)

  /** `mint_session`, with the session key it generates. */
  function MintSession(device: PublicKey, genesis: PublicKey, notBefore: i64, notAfter: i64, key: PublicKey)
    : Result<SessionCredential, Error>
  {
    var spanned := CheckSessionSpan(notBefore, notAfter);
    :- spanned;
    var cert := DelegationCert(notBefore, notAfter, [], Some(ToPb(genesis)), 0, Some(ToPb(device)), Some(ToPb(key)),
                               None, None);
    var transcript :- TranscriptOf(SessionDelegation(cert));
    Success(SessionCredential(cert.(signature := SignBytes(device, transcript)), key))
  }

  function NonceBytes(nonce: Option<Bytes16>): Option<seq<byte>> {
    match nonce
    case None => None
    case Some(n) => Some(n)
  }

  function SignMessage(c: SessionCredential, device: Option<KeyDelegation>, audience: Text, nonce: Bytes16,
                       issuedAt: i64, inReplyToNonce: Option<Bytes16>, bodyType: Text, body: seq<byte>)
    : Result<SignedMessage, Error>
  {
    var reply := NonceBytes(inReplyToNonce);
    var m := SignedMessage(Some(SignerChain.SignerChain(Some(SelfRooted(device, Some(c.cert))))), audience, nonce,
                           issuedAt, reply, bodyType, body, []);
    var transcript :- TranscriptOf(Message(m));
    Success(m.(signature := SignBytes(c.key, transcript)))
  }

  // When signing succeeds.

  /** A device is delegated exactly when the window is positive and at most 31 days and the three keys differ. */
  lemma DelegateSucceeds(root: KeyDuo, genesis: PrincipalId, device: KeyDuo, issuedAt: i64, notAfter: i64)
    ensures DelegateDevice(root, genesis, device, issuedAt, notAfter).Success?
       <==> && 0 < notAfter - issuedAt <= MAX_UNLISTED_DELEGATION_SECONDS
            && root.signing != device.signing && root.signing != device.encryption
            && device.signing != device.encryption
  {
    hide TagText, Encode;
    KeysParse();
  }

  lemma MintSucceeds(device: PublicKey, genesis: PublicKey, notBefore: i64, notAfter: i64, key: PublicKey)
    ensures MintSession(device, genesis, notBefore, notAfter, key).Success?
       <==> 0 < notAfter - notBefore <= MAX_SESSION_SECONDS && device != key
  {
    hide TagText, Encode;
  }

  /** A message of a minted session is signed exactly when audience and body type are not empty and every
    * variable-length field is below 4 GiB. */
  lemma SignSucceeds(c: SessionCredential, device: Option<KeyDelegation>, audience: Text, nonce: Bytes16, issuedAt: i64,
                     reply: Option<Bytes16>, bodyType: Text, body: seq<byte>)
    requires Req(c.cert.principalGenesis, PrincipalGenesis).Success? && Req(c.cert.session, Session).Success?
    ensures SignMessage(c, device, audience, nonce, issuedAt, reply, bodyType, body).Success?
       <==> && audience != [] && bodyType != []
            && |audience| < U32_LIMIT && |bodyType| < U32_LIMIT && |body| < U32_LIMIT
  {
    hide TagText, Encode;
  }

  lemma RotateSucceeds(oldRoot: KeyDuo, genesis: PrincipalId, newRoot: KeyDuo, issuedAt: i64)
    ensures Rotate(oldRoot, genesis, newRoot, issuedAt).Success? <==> oldRoot.signing != newRoot.signing
  {
    hide TagText, Encode;
  }

  /** A produced rotation links its two roots for its principal. */
  lemma RotationLinks(oldRoot: KeyDuo, genesis: PrincipalId, newRoot: KeyDuo, issuedAt: i64)
    requires Rotate(oldRoot, genesis, newRoot, issuedAt).Success?
    ensures Link(genesis.genesis, oldRoot.signing, Rotate(oldRoot, genesis, newRoot, issuedAt).value, newRoot.signing)
    ensures Rotate(oldRoot, genesis, newRoot, issuedAt).value.issuedAt == issuedAt
  {
    hide TagText, Encode;
  }

  /** What a produced delegation says, and that its root's signature verifies. */
  lemma DelegationHolds(root: KeyDuo, genesis: PrincipalId, device: KeyDuo, issuedAt: i64, notAfter: i64)
    requires DelegateDevice(root, genesis, device, issuedAt, notAfter).Success?
    ensures var d := DelegateDevice(root, genesis, device, issuedAt, notAfter).value;
            && d.(signature := [])
               == NewDelegation(genesis, root.signing, device.signing, device.encryption, issuedAt, notAfter)
            && DelegationVerifies(d, root.signing)
            && 0 < notAfter - issuedAt <= MAX_UNLISTED_DELEGATION_SECONDS
  {
    hide TagText, Encode;
  }

  /** The same, field by field. */
  lemma DelegationSays(root: KeyDuo, genesis: PrincipalId, device: KeyDuo, issuedAt: i64, notAfter: i64)
    requires DelegateDevice(root, genesis, device, issuedAt, notAfter).Success?
    ensures var d := DelegateDevice(root, genesis, device, issuedAt, notAfter).value;
            && d.principalGenesis == Some(ToPb(genesis.genesis)) && d.signingRoot == Some(ToPb(root.signing))
            && d.purpose == 2 && d.delegated == Some(ToPb(device.signing))
            && d.delegatedEncryption == Some(ToPb(device.encryption))
            && d.issuedAt == issuedAt && d.notAfter == notAfter
            && SignedBy(root.signing, Delegation(d), d.signature)
  {
    hide TagText, Encode;
  }

  /** A minted certificate is a mode-0 one of the device for the new key and this window, signed by the device. */
  lemma CertHolds(device: PublicKey, genesis: PublicKey, notBefore: i64, notAfter: i64, key: PublicKey)
    requires MintSession(device, genesis, notBefore, notAfter, key).Success?
    ensures var c := MintSession(device, genesis, notBefore, notAfter, key).value;
            && c.key == key && c.cert.mode == 0 && c.cert.hostGenesis.None? && c.cert.subject.None?
            && c.cert.principalGenesis == Some(ToPb(genesis)) && c.cert.device == Some(ToPb(device))
            && c.cert.session == Some(ToPb(key)) && c.cert.notBefore == notBefore && c.cert.notAfter == notAfter
            && SignedBy(device, SessionDelegation(c.cert), c.cert.signature)
  {
    hide TagText, Encode;
  }

  /** A signed message carries its arguments and the session's chain, signed by the session key. */
  lemma MessageHolds(c: SessionCredential, device: Option<KeyDelegation>, audience: Text, nonce: Bytes16,
                     issuedAt: i64, reply: Option<Bytes16>, bodyType: Text, body: seq<byte>)
    requires SignMessage(c, device, audience, nonce, issuedAt, reply, bodyType, body).Success?
    ensures var m := SignMessage(c, device, audience, nonce, issuedAt, reply, bodyType, body).value;
            && m.signer.Some? && m.signer.value.chain == Some(SelfRooted(device, Some(c.cert)))
            && m.audience == audience && m.nonce == nonce && m.issuedAt == issuedAt && m.bodyType == bodyType
            && m.body == body
            && (reply.None? ==> m.inReplyToNonce.None?) && (reply.Some? ==> m.inReplyToNonce == Some(reply.value))
            && SignedBy(c.key, Message(m), m.signature)
  {
    hide TagText, Encode;
  }

  /** A delegation is due when it ends within the margin; saturation counts at the largest margin only. */
  lemma RenewalDueIs(d: KeyDelegation, now: i64, margin: i64)
    ensures RenewalDue(d, now, margin) <==> d.notAfter - now <= margin || margin == 0x7fff_ffff_ffff_ffff
  {}

  // The signer and the verifier agree.

  lemma DeviceAgrees(entry: VerifiedEntry, root: KeyDuo, device: KeyDuo, issuedAt: i64, notAfter: i64, r: Resolver,
                     at: i64)
    requires entry.kind != Human && entry.currentRoot.Some? && entry.currentRoot.value.signing == root.signing
    requires notAfter != 0 && DelegateDevice(root, entry.id, device, issuedAt, notAfter).Success?
    ensures var d := DelegateDevice(root, entry.id, device, issuedAt, notAfter).value;
            && (DeviceCurrent(d, entry, r, at).Success? <==>
                  && issuedAt - SKEW_SECONDS <= at <= notAfter
                  && !r.IsRevoked(entry.id, root.signing, at) && !r.IsRevoked(entry.id, device.signing, at))
            && (DeviceCurrent(d, entry, r, at).Success? ==> DeviceCurrent(d, entry, r, at).value == device.signing)
  {
    hide DelegateDevice, TranscriptOf, VerifyP256, Resolver.IsRevoked;
    DelegationHolds(root, entry.id, device, issuedAt, notAfter);
    KeysParse();
  }

  lemma CertAgrees(device: PublicKey, genesis: PublicKey, notBefore: i64, notAfter: i64, key: PublicKey, at: i64)
    requires MintSession(device, genesis, notBefore, notAfter, key).Success?
    ensures var cert := MintSession(device, genesis, notBefore, notAfter, key).value.cert;
            && (CheckCert(cert, device, at).Success? <==> notBefore - SKEW_SECONDS <= at <= notAfter)
            && (CheckCert(cert, device, at).Success? ==> CheckCert(cert, device, at).value == (key, notAfter))
  {
    hide TagText, Encode;
  }

  lemma MessageAgrees(c: SessionCredential, device: Option<KeyDelegation>, audience: Text, nonce: Bytes16,
                      issuedAt: i64, reply: Option<Bytes16>, bodyType: Text, body: seq<byte>, when: When)
    requires SignMessage(c, device, audience, nonce, issuedAt, reply, bodyType, body).Success?
    ensures var m := SignMessage(c, device, audience, nonce, issuedAt, reply, bodyType, body).value;
            && m.signature != []
            && (CheckMessageUnderSession(m, audience, c.key, when).Success? <==> when.CheckSkew(issuedAt).Pass?)
  {
    hide TagText, Encode;
  }

  /** End to end: a message signed under a delegated device of a self-rooted daemon, service or agent is accepted for
    * its audience exactly while both windows are open, the principal is not frozen, root and device are not revoked
    * and, in live mode, its time is within the skew; the verified fields are the signed ones. */
  lemma SignerMeetsVerifier(r: Resolver, id: PrincipalId, root: KeyDuo, device: KeyDuo, issuedAt: i64, notAfter: i64,
                            sessionOpens: i64, sessionCloses: i64, key: PublicKey, audience: Text, nonce: Bytes16,
                            at: i64, reply: Option<Bytes16>, bodyType: Text, body: seq<byte>, when: When)
    requires Keyed(r) && id in r.entries && r.entries[id].kind != Human
    requires r.entries[id].currentRoot.Some? && r.entries[id].currentRoot.value.signing == root.signing
    requires notAfter != 0 && DelegateDevice(root, id, device, issuedAt, notAfter).Success?
    requires MintSession(device.signing, id.genesis, sessionOpens, sessionCloses, key).Success?
    requires var d := DelegateDevice(root, id, device, issuedAt, notAfter).value;
             var c := MintSession(device.signing, id.genesis, sessionOpens, sessionCloses, key).value;
             SignMessage(c, Some(d), audience, nonce, at, reply, bodyType, body).Success?
    ensures var d := DelegateDevice(root, id, device, issuedAt, notAfter).value;
            var c := MintSession(device.signing, id.genesis, sessionOpens, sessionCloses, key).value;
            var m := SignMessage(c, Some(d), audience, nonce, at, reply, bodyType, body).value;
            var v := VerifySignedMessage(m, audience, r, when);
            && (v.Success? <==>
                  && issuedAt - SKEW_SECONDS <= when.At() <= notAfter
                  && sessionOpens - SKEW_SECONDS <= when.At() <= sessionCloses
                  && !r.IsFrozen(id, when.At())
                  && !r.IsRevoked(id, root.signing, when.At()) && !r.IsRevoked(id, device.signing, when.At())
                  && when.CheckSkew(at).Pass?)
            && (v.Success? ==>
                  && v.value == VerifiedMessage(v.value.chain, nonce, at, NonceBytes(reply), bodyType, body)
                  && v.value.chain == VerifiedChain(id, r.entries[id].kind, HostingOf(r.entries[id], device.signing, r),
                                                    None, device.signing, key, sessionCloses))
  {
    hide DelegateDevice, DeviceCurrent, CheckCert, CheckMessageUnderSession, Resolver.IsRevoked, Resolver.IsFrozen,
      HostingOf,      TranscriptOf, TagText, Encode;
    DeviceAgrees(r.entries[id], root, device, issuedAt, notAfter, r, when.At());
    CertAgrees(device.signing, id.genesis, sessionOpens, sessionCloses, key, when.At());
    var d := DelegateDevice(root, id, device, issuedAt, notAfter).value;
    var c := MintSession(device.signing, id.genesis, sessionOpens, sessionCloses, key).value;
    MessageAgrees(c, Some(d), audience, nonce, at, reply, bodyType, body, when);
    KeysParse();
  }
}
