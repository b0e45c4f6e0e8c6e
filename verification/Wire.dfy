/** The wire types (`pb` in the crate), after protobuf decoding, and the key parser. */
module Wire {
  import opened Wrappers
  import opened Bytes
  import opened Primitives
  import opened Errors

  const P256_SCHEME := 3

  const PURPOSE_DEVICE := 2
  const PURPOSE_APPROVAL := 3

  datatype PbKey = PbKey(scheme: int, key: seq<byte>)

  datatype PbKeyDuo = PbKeyDuo(signing: Option<PbKey>, encryption: Option<PbKey>)

  datatype KeyDelegation = KeyDelegation(
    principalGenesis: Option<PbKey>,
    signingRoot: Option<PbKey>,
    purpose: int,
    delegated: Option<PbKey>,
    delegatedEncryption: Option<PbKey>,
    issuedAt: i64,
    notAfter: i64,
    signature: seq<byte>)

  datatype RootRotation = RootRotation(
    principalGenesis: Option<PbKey>,
    oldRoot: Option<PbKey>,
    newRoot: Option<PbKey>,
    issuedAt: i64,
    signature: seq<byte>)

  datatype KeyRevocation = KeyRevocation(
    principalGenesis: Option<PbKey>,
    revoked: Option<PbKey>,
    revokedBy: Option<PbKey>,
    revokedAt: i64,
    signature: seq<byte>)

  datatype DelegationCert = DelegationCert(
    notBefore: i64,
    notAfter: i64,
    signature: seq<byte>,
    principalGenesis: Option<PbKey>,
    mode: nat,
    device: Option<PbKey>,
    session: Option<PbKey>,
    hostGenesis: Option<PbKey>,
    subject: Option<Text>)

  datatype Chain =
    | SelfRooted(device: Option<KeyDelegation>, session: Option<DelegationCert>)
    | HostVouched(hostDevice: Option<KeyDelegation>, session: Option<DelegationCert>)

  datatype SignerChain = SignerChain(chain: Option<Chain>)

  datatype SignedMessage = SignedMessage(
    signer: Option<SignerChain>,
    audience: Text,
    nonce: seq<byte>,
    issuedAt: i64,
    inReplyToNonce: Option<seq<byte>>,
    bodyType: Text,
    body: seq<byte>,
    signature: seq<byte>)

  datatype SignedDocument = SignedDocument(
    signerGenesis: Option<PbKey>,
    signing: Option<PbKey>,
    documentType: Text,
    version: u64,
    issuedAt: i64,
    expiresAt: i64,
    body: seq<byte>,
    signature: seq<byte>,
    signerRotations: seq<RootRotation>)

  datatype Approval = Approval(
    principalGenesis: Option<PbKey>,
    approvalKey: Option<PbKey>,
    device: Option<PbKey>,
    audience: Text,
    requestId: Text,
    requestDigest: seq<byte>,
    accept: bool,
    issuedAt: i64,
    signature: seq<byte>)

  datatype PeerRevocation = PeerRevocation(
    revokerGenesis: Option<PbKey>,
    approvalKey: Option<PbKey>,
    targetGenesis: Option<PbKey>,
    revoked: Option<PbKey>,
    issuedAt: i64,
    signature: seq<byte>,
    documentId: seq<byte>)

  datatype AttestedMessage = AttestedMessage(
    messageId: Text,
    roomId: Text,
    bodyText: Text,
    delegationCert: Option<DelegationCert>,
    authorGenesis: Option<PbKey>)

  datatype Timestamp = Timestamp(seconds: i64, nanos: i32)

  datatype DeliveryAttestation = DeliveryAttestation(
    keyId: Text,
    batchSequence: u64,
    attestedAt: Option<Timestamp>,
    messages: seq<AttestedMessage>,
    signature: seq<byte>,
    recipientDevices: seq<PbKey>)

  datatype RequestDigestInput = RequestDigestInput(
    requester: PrincipalId,
    host: PrincipalId,
    subject: Option<Text>,
    instanceId: Text,
    actionId: Text,
    parameters: seq<byte>,
    requestId: Text,
    target: PrincipalId)

  datatype Resource = Resource(kind: Text, id: Text)

  datatype ClientRequestDigestInput = ClientRequestDigestInput(
    requester: PrincipalId,
    host: Option<PrincipalId>,
    resource: Option<Resource>,
    messageKind: Text,
    body: seq<byte>,
    requestId: Text,
    target: PrincipalId)

  datatype DeviceBinding = DeviceBinding(
    device: Option<KeyDelegation>,
    approval: Option<KeyDelegation>,
    hostDaemonId: Option<Text>)

  datatype RegistryEntry = RegistryEntry(
    principalId: Text,
    kind: int,
    name: Option<Text>,
    frozen: bool,
    currentRoot: Option<PbKeyDuo>,
    rotations: seq<RootRotation>,
    revocations: seq<KeyRevocation>,
    devices: seq<DeviceBinding>,
    allowedHosts: seq<Text>)

  datatype PrincipalRegistry = PrincipalRegistry(entries: seq<RegistryEntry>, allowPeerRevocation: bool)

  datatype AcceptedPrincipal = AcceptedPrincipal(principalId: Text, kind: int, rotations: seq<RootRotation>)

  datatype RetiredDevice = RetiredDevice(signing: Option<PbKey>, encryption: Option<PbKey>, retiredAt: i64)

  /** `PublicKey::try_from(&pb::PublicKey)`. */
  function ParseKey(p: PbKey): (r: Result<PublicKey, Error>)
    ensures r.Success? ==> p == ToPb(r.value)
  {
    if p.scheme != P256_SCHEME then Failure(UnsupportedScheme(p.scheme))
    else if |p.key| != 65 then Failure(BadLength(KeyField, 65, |p.key|))
    else if !OnCurve(p.key) then Failure(InvalidKey)
    else Success(p.key)
  }

  /** `pb::PublicKey::from(&PublicKey)`. */
  function ToPb(k: PublicKey): PbKey { PbKey(P256_SCHEME, k) }

  /** The key in a field that must be present; `field` names it in the error of an absent one. */
  function Req(k: Option<PbKey>, field: Field): (r: Result<PublicKey, Error>)
    ensures r.Success? <==> k.Some? && ParseKey(k.value).Success?
    ensures r.Success? ==> k == Some(ToPb(r.value))
  {
    if k.None? then Failure(MissingField(field)) else ParseKey(k.value)
  }

  /** An optional key field. */
  function OptKey(k: Option<PbKey>): (r: Result<Option<PublicKey>, Error>)
    ensures r.Success? ==> k == ToPbOption(r.value)
  {
    if k.None? then Success(None)
    else
      var key :- ParseKey(k.value);
      Success(Some(key))
  }

  function ToPbOption(k: Option<PublicKey>): Option<PbKey> {
    match k
    case None => None
    case Some(key) => Some(ToPb(key))
  }

  /** Every key's wire form parses back to it. */
  lemma KeysParse()
    ensures forall k: PublicKey :: ParseKey(ToPb(k)) == Success(k)
  {}

  /** A wire key parses exactly if it is of scheme 3 and its 65 bytes are a point of the curve. */
  lemma ParseKeyIs(p: PbKey, k: PublicKey)
    ensures ParseKey(p) == Success(k) <==> p == PbKey(3, k)
    ensures ParseKey(p).Success? <==> p.scheme == 3 && |p.key| == 65 && OnCurve(p.key)
  {}

  /** `verify_p256`. */
  function VerifyP256(key: PublicKey, message: seq<byte>, signature: seq<byte>): (r: Outcome<Error>)
    ensures r.Pass? <==> |signature| == 64 && VerifyBytes(key, message, signature)
  {
    if signature == [] then Fail(EmptySignature)
    else if |signature| != 64 then Fail(BadLength(Signature, 64, |signature|))
    else if !VerifyBytes(key, message, signature) then Fail(BadSignature)
    else Pass
  }
}
