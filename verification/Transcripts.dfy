/** The bytes each signature covers: for every transcript function, the checks it makes in order and
  * the values it then writes under its tag. */
module Transcripts {
  import opened Wrappers
  import opened Bytes
  import opened Primitives
  import opened Errors
  import opened Wire
  import opened Encoding

  datatype Kind =
    | KeyChallengeKind | PrincipalRenameKind | KeyDelegationKind | KeyRevocationKind | RootRotationKind
    | SessionDelegationKind | SignedMessageKind | SignedDocumentKind | ApprovalKind | PeerRevocationKind
    | DeliveryAttestationKind | RequestDigestKind | ClientRequestDigestKind

  function TagText(k: Kind): string {
    match k
    case KeyChallengeKind => "identitycrypto.key-challenge.v1"
    case PrincipalRenameKind => "identitycrypto.principal-rename.v1"
    case KeyDelegationKind => "identitycrypto.key-delegation.v1"
    case KeyRevocationKind => "identitycrypto.key-revocation.v1"
    case RootRotationKind => "identitycrypto.root-rotation.v1"
    case SessionDelegationKind => "identitycrypto.session-delegation.v1"
    case SignedMessageKind => "identitycrypto.signed-message.v1"
    case SignedDocumentKind => "identitycrypto.signed-document.v1"
    case ApprovalKind => "identitycrypto.approval.v1"
    case PeerRevocationKind => "identitycrypto.peer-revocation.v1"
    case DeliveryAttestationKind => "identitycrypto.delivery-attestation.v1"
    case RequestDigestKind => "identitycrypto.request-digest.v1"
    case ClientRequestDigestKind => "identitycrypto.client-request-digest.v1"
  }

  /** The bytes of an ASCII string. */
  function Ascii(s: string): (b: seq<byte>)
    ensures |b| == |s|
  {
    seq(|s|, i requires 0 <= i < |s| => s[i] as int % 256)
  }

  /** The tag and its terminating NUL. */
  function Tag(k: Kind): seq<byte> { Ascii(TagText(k)) + [0] }

  function Transcript(k: Kind, items: Items): seq<byte> { Tag(k) + EncodeAll(items) }

  /** The value types a decoder reads after each tag. */
  function Layout(k: Kind): Shapes {
    match k
    case KeyChallengeKind => S3(VarShape, VarShape, KeyShape)
    case PrincipalRenameKind => S3(VarShape, KeyShape, VarShape)
    case KeyDelegationKind =>
      S7(KeyShape, KeyShape, U8Shape, KeyShape, OptShape(S1(KeyShape)), I64Shape, I64Shape)
    case KeyRevocationKind => S4(KeyShape, KeyShape, KeyShape, I64Shape)
    case RootRotationKind => S4(KeyShape, KeyShape, KeyShape, I64Shape)
    case SessionDelegationKind => CertLayout(End)
    case SignedMessageKind =>
      S8(KeyShape, KeyShape, VarShape, FixedShape(16), I64Shape, OptShape(S1(FixedShape(16))), VarShape, VarShape)
    case SignedDocumentKind =>
      S7(KeyShape, KeyShape, VarShape, U64Shape, I64Shape, I64Shape, VarShape)
    case ApprovalKind =>
      S8(KeyShape, KeyShape, KeyShape, VarShape, VarShape, FixedShape(32), U8Shape, I64Shape)
    case PeerRevocationKind =>
      S6(KeyShape, KeyShape, KeyShape, OptShape(S1(KeyShape)), I64Shape, FixedShape(32))
    case DeliveryAttestationKind =>
      S6(ManyShape(S1(KeyShape)), VarShape, U64Shape, I64Shape, I32Shape, ManyShape(MessageLayout()))
    case RequestDigestKind =>
      S8(KeyShape, KeyShape, OptShape(S1(VarShape)), VarShape, VarShape, VarShape, VarShape, KeyShape)
    case ClientRequestDigestKind =>
      S7(KeyShape, OptShape(S1(KeyShape)), OptShape(S2(VarShape, VarShape)), VarShape, VarShape, VarShape, KeyShape)
  }

  /** A certificate body, then `rest`. */
  function CertLayout(rest: Shapes): Shapes {
    S8Then(U8Shape, KeyShape, OptShape(S1(KeyShape)), OptShape(S1(VarShape)), KeyShape, KeyShape, I64Shape, I64Shape,
           rest)
  }

  function MessageLayout(): Shapes {
    S4Then(VarShape, VarShape, KeyShape, VarShape, CertLayout(S1(VarShape)))
  }

  // One value: the check its writer makes, and the value.

  function VarItem(b: seq<byte>): (r: Result<Item, Error>)
    ensures r.Success? ==> Fits(VarShape, r.value)
  {
    if |b| < U32_LIMIT then Success(Var(b)) else Failure(InvalidField(Length))
  }

  function FixedItem(field: Field, b: seq<byte>, n: nat): (r: Result<Item, Error>)
    ensures r.Success? ==> Fits(FixedShape(n), r.value)
  {
    if |b| == n then Success(Fixed(b)) else Failure(BadLength(field, n, |b|))
  }

  function U8Item(field: Field, v: int): (r: Result<Item, Error>)
    ensures r.Success? ==> Fits(U8Shape, r.value)
  {
    if 0 <= v < 256 then Success(U8(v)) else Failure(ScalarOutOfRange(field, v))
  }

  function OptKeyItem(k: Option<PublicKey>): (r: Item)
    ensures Fits(OptShape(S1(KeyShape)), r)
  {
    match k
    case None => Absent
    case Some(key) => Present(L1(Key(key)))
  }

  function OptVarItem(b: Option<seq<byte>>): (r: Result<Item, Error>)
    ensures r.Success? ==> Fits(OptShape(S1(VarShape)), r.value)
  {
    if b.None? then Success(Absent)
    else
      var v :- VarItem(b.value);
      Success(Present(L1(v)))
  }

  function OptFixedItem(field: Field, b: Option<seq<byte>>, n: nat): (r: Result<Item, Error>)
    ensures r.Success? ==> Fits(OptShape(S1(FixedShape(n))), r.value)
  {
    if b.None? then Success(Absent)
    else
      var v :- FixedItem(field, b.value, n);
      assert FitsAll(S1(FixedShape(n)), L1(v));
      Success(Present(L1(v)))
  }

  function OptResourceItem(r: Option<Resource>): (item: Result<Item, Error>)
    ensures item.Success? ==> Fits(OptShape(S2(VarShape, VarShape)), item.value)
  {
    if r.None? then Success(Absent)
    else
      var kind :- VarItem(r.value.kind);
      var id :- VarItem(r.value.id);
      Success(Present(L2(kind, id)))
  }

  function NonEmpty(field: Field, b: seq<byte>): Outcome<Error> {
    Need(b != [], InvalidField(field))
  }

  // The values each function writes, or the first check that fails.

  function KeyChallengeItems(audience: Text, nonce: seq<byte>, new_: PublicKey): Result<Items, Error> {
    var first := NonEmpty(Audience, audience);
    :- first;
    :- NonEmpty(Nonce, nonce);
    var audienceItem :- VarItem(audience);
    var nonceItem :- VarItem(nonce);
    Success(L3(audienceItem, nonceItem, Key(new_)))
  }

  function PrincipalRenameItems(nonce: seq<byte>, principal: PrincipalId, newName: Text): Result<Items, Error> {
    var first := NonEmpty(Nonce, nonce);
    :- first;
    :- NonEmpty(NewName, newName);
    var nonceItem :- VarItem(nonce);
    var nameItem :- VarItem(newName);
    Success(L3(nonceItem, Key(principal.genesis), nameItem))
  }

  function KeyDelegationItems(d: KeyDelegation): Result<Items, Error> {
    var principal :- Req(d.principalGenesis, PrincipalGenesis);
    var root :- Req(d.signingRoot, SigningRoot);
    :- Need(d.purpose == PURPOSE_DEVICE || d.purpose == PURPOSE_APPROVAL, InvalidField(Purpose));
    var delegated :- Req(d.delegated, Delegated);
    :- Need(!(d.purpose == PURPOSE_DEVICE && d.delegatedEncryption.None?), MissingField(DelegatedEncryption));
    :- Need(!(d.purpose == PURPOSE_APPROVAL && d.delegatedEncryption.Some?), InvalidField(DelegatedEncryption));
    var encryption :- OptKey(d.delegatedEncryption);
    :- Need(root != delegated && encryption != Some(root) && encryption != Some(delegated), NotDistinct);
    var purpose :- U8Item(Purpose, d.purpose);
    Success(L7(Key(principal), Key(root), purpose, Key(delegated), OptKeyItem(encryption), I64(d.issuedAt),
               I64(d.notAfter)))
  }

  function KeyRevocationItems(r: KeyRevocation): Result<Items, Error> {
    var principal :- Req(r.principalGenesis, PrincipalGenesis);
    var revoked :- Req(r.revoked, Revoked);
    var revokedBy :- Req(r.revokedBy, RevokedBy);
    Success(L4(Key(principal), Key(revoked), Key(revokedBy), I64(r.revokedAt)))
  }

  function RootRotationItems(r: RootRotation): Result<Items, Error> {
    var principal :- Req(r.principalGenesis, PrincipalGenesis);
    var oldRoot :- Req(r.oldRoot, OldRoot);
    var newRoot :- Req(r.newRoot, NewRoot);
    :- Need(oldRoot != newRoot, NotDistinct);
    Success(L4(Key(principal), Key(oldRoot), Key(newRoot), I64(r.issuedAt)))
  }

  /** `encode_cert_body`, with what is written after it. */
  function CertItems(c: DelegationCert, rest: Items): Result<Items, Error> {
    var first := Need(c.mode <= 1, InvalidField(Mode));
    :- first;
    var principal :- Req(c.principalGenesis, PrincipalGenesis);
    var vouched :- CertHost(c);
    var device :- Req(c.device, Device);
    var session :- Req(c.session, Session);
    :- Need(device != session, NotDistinct);
    var mode :- U8Item(Mode, c.mode);
    var subject :- OptVarItem(vouched.1);
    Success(L8Then(mode, Key(principal), OptKeyItem(vouched.0), subject, Key(device), Key(session), I64(c.notBefore),
                   I64(c.notAfter), rest))
  }

  /** The host and subject of a certificate: both forbidden in mode 0, both required in mode 1. */
  function CertHost(c: DelegationCert): Result<(Option<PublicKey>, Option<Text>), Error> {
    if c.mode == 0 then
      :- Need(c.hostGenesis.None?, InvalidField(HostGenesis));
      :- Need(c.subject.None?, InvalidField(Subject));
      Success((None, None))
    else
      var host :- Req(c.hostGenesis, HostGenesis);
      var subject :- OkOr(c.subject, MissingField(Subject));
      :- NonEmpty(Subject, subject);
      Success((Some(host), Some(subject)))
  }

  /** The certificate a message carries, in either kind of chain. */
  function MessageCert(m: SignedMessage): Result<DelegationCert, Error> {
    var signer :- OkOr(m.signer, MissingField(Signer));
    var chain :- OkOr(signer.chain, MissingField(Field.SignerChain));
    OkOr(chain.session, MissingField(SignerSession))
  }

  function SignedMessageItems(m: SignedMessage): Result<Items, Error> {
    var cert :- MessageCert(m);
    var principal :- Req(cert.principalGenesis, PrincipalGenesis);
    var session :- Req(cert.session, Session);
    :- NonEmpty(Audience, m.audience);
    :- NonEmpty(BodyType, m.bodyType);
    var audience :- VarItem(m.audience);
    var nonce :- FixedItem(Nonce, m.nonce, 16);
    var reply :- OptFixedItem(InReplyToNonce, m.inReplyToNonce, 16);
    var bodyType :- VarItem(m.bodyType);
    var body :- VarItem(m.body);
    Success(L8(Key(principal), Key(session), audience, nonce, I64(m.issuedAt), reply, bodyType, body))
  }

  function SignedDocumentItems(d: SignedDocument): Result<Items, Error> {
    var signer :- Req(d.signerGenesis, SignerGenesis);
    var signing :- Req(d.signing, Signing);
    :- NonEmpty(DocumentType, d.documentType);
    var documentType :- VarItem(d.documentType);
    var body :- VarItem(d.body);
    Success(L7(Key(signer), Key(signing), documentType, U64(d.version), I64(d.issuedAt), I64(d.expiresAt), body))
  }

  function ApprovalItems(a: Approval): Result<Items, Error> {
    var principal :- Req(a.principalGenesis, PrincipalGenesis);
    var approvalKey :- Req(a.approvalKey, ApprovalKey);
    var device :- Req(a.device, Device);
    :- Need(approvalKey != device, NotDistinct);
    :- NonEmpty(Audience, a.audience);
    var audience :- VarItem(a.audience);
    var requestId :- VarItem(a.requestId);
    var digest :- FixedItem(RequestDigest, a.requestDigest, 32);
    var accept :- U8Item(Accept, if a.accept then 1 else 0);
    Success(L8(Key(principal), Key(approvalKey), Key(device), audience, requestId, digest, accept, I64(a.issuedAt)))
  }

  function PeerRevocationItems(p: PeerRevocation): Result<Items, Error> {
    var revoker :- Req(p.revokerGenesis, RevokerGenesis);
    var approvalKey :- Req(p.approvalKey, ApprovalKey);
    var target :- Req(p.targetGenesis, TargetGenesis);
    var revoked :- OptKey(p.revoked);
    var documentId :- FixedItem(DocumentId, p.documentId, 32);
    Success(L6(Key(revoker), Key(approvalKey), Key(target), OptKeyItem(revoked), I64(p.issuedAt), documentId))
  }

  function DeliveryAttestationItems(a: DeliveryAttestation): Result<Items, Error> {
    var first := Need(|a.recipientDevices| < U32_LIMIT, InvalidField(RecipientDevices));
    :- first;
    var devices :- DeviceRows(a.recipientDevices);
    var keyId :- VarItem(a.keyId);
    var at :- OkOr(a.attestedAt, MissingField(AttestedAt));
    :- Need(0 <= at.nanos <= 999_999_999, InvalidField(Nanos));
    :- Need(|a.messages| < U32_LIMIT, InvalidField(Messages));
    var messages :- MessageRows(a.messages);
    Success(L6(Many(devices), keyId, U64(a.batchSequence), I64(at.seconds), I32(at.nanos), Many(messages)))
  }

  function DeviceRows(devices: seq<PbKey>): Result<seq<Items>, Error> {
    if devices == [] then Success([])
    else
      var init :- DeviceRows(devices[..|devices| - 1]);
      var key :- ParseKey(devices[|devices| - 1]);
      Success(init + [L1(Key(key))])
  }

  function MessageRows(messages: seq<AttestedMessage>): Result<seq<Items>, Error> {
    if messages == [] then Success([])
    else
      var init :- MessageRows(messages[..|messages| - 1]);
      var items :- MessageItems(messages[|messages| - 1]);
      Success(init + [items])
  }

  function MessageItems(m: AttestedMessage): Result<Items, Error> {
    var messageId :- VarItem(m.messageId);
    var roomId :- VarItem(m.roomId);
    var author :- Req(m.authorGenesis, AuthorGenesis);
    var cert :- OkOr(m.delegationCert, MissingField(DelegationCertField));
    var bodyText :- VarItem(m.bodyText);
    var certItems :- CertItems(cert, L1(Var(cert.signature)));
    var _ :- VarItem(cert.signature);
    Success(L4Then(messageId, roomId, Key(author), bodyText, certItems))
  }

  function RequestDigestItems(i: RequestDigestInput): Result<Items, Error> {
    var first := Need(i.subject != Some([]), InvalidField(Subject));
    :- first;
    :- NonEmpty(InstanceId, i.instanceId);
    :- NonEmpty(ActionId, i.actionId);
    :- NonEmpty(RequestId, i.requestId);
    var subject :- OptVarItem(i.subject);
    var instanceId :- VarItem(i.instanceId);
    var actionId :- VarItem(i.actionId);
    var parameters :- VarItem(i.parameters);
    var requestId :- VarItem(i.requestId);
    Success(L8(Key(i.requester.genesis), Key(i.host.genesis), subject, instanceId, actionId, parameters, requestId,
               Key(i.target.genesis)))
  }

  function ClientRequestDigestItems(i: ClientRequestDigestInput): Result<Items, Error> {
    var first := Need(i.resource.Some? ==> i.resource.value.kind != [], InvalidField(ResourceKind));
    :- first;
    :- Need(i.resource.Some? ==> i.resource.value.id != [], InvalidField(ResourceId));
    :- NonEmpty(MessageKind, i.messageKind);
    :- NonEmpty(RequestId, i.requestId);
    var resource :- OptResourceItem(i.resource);
    var messageKind :- VarItem(i.messageKind);
    var body :- VarItem(i.body);
    var requestId :- VarItem(i.requestId);
    Success(L7(Key(i.requester.genesis), OptKeyItem(OptGenesis(i.host)), resource, messageKind, body, requestId,
               Key(i.target.genesis)))
  }

  function OptGenesis(p: Option<PrincipalId>): Option<PublicKey> {
    match p
    case None => None
    case Some(id) => Some(id.genesis)
  }

  // All thirteen functions as one.

  datatype Input =
    | KeyChallenge(audience: Text, nonce: seq<byte>, new_: PublicKey)
    | PrincipalRename(renameNonce: seq<byte>, principal: PrincipalId, newName: Text)
    | Delegation(delegation: KeyDelegation)
    | Revocation(revocation: KeyRevocation)
    | Rotation(rotation: RootRotation)
    | SessionDelegation(cert: DelegationCert)
    | Message(message: SignedMessage)
    | Document(document: SignedDocument)
    | ApprovalOf(approval: Approval)
    | PeerRevocationOf(peer: PeerRevocation)
    | Attestation(attestation: DeliveryAttestation)
    | RequestDigestOf(request: RequestDigestInput)
    | ClientRequestDigestOf(client: ClientRequestDigestInput)

  function KindOf(i: Input): Kind {
    match i
    case KeyChallenge(_, _, _) => KeyChallengeKind
    case PrincipalRename(_, _, _) => PrincipalRenameKind
    case Delegation(_) => KeyDelegationKind
    case Revocation(_) => KeyRevocationKind
    case Rotation(_) => RootRotationKind
    case SessionDelegation(_) => SessionDelegationKind
    case Message(_) => SignedMessageKind
    case Document(_) => SignedDocumentKind
    case ApprovalOf(_) => ApprovalKind
    case PeerRevocationOf(_) => PeerRevocationKind
    case Attestation(_) => DeliveryAttestationKind
    case RequestDigestOf(_) => RequestDigestKind
    case ClientRequestDigestOf(_) => ClientRequestDigestKind
  }

  function ItemsOf(i: Input): Result<Items, Error> {
    match i
    case KeyChallenge(audience, nonce, new_) => KeyChallengeItems(audience, nonce, new_)
    case PrincipalRename(nonce, principal, newName) => PrincipalRenameItems(nonce, principal, newName)
    case Delegation(d) => KeyDelegationItems(d)
    case Revocation(r) => KeyRevocationItems(r)
    case Rotation(r) => RootRotationItems(r)
    case SessionDelegation(c) => CertItems(c, Nil)
    case Message(m) => SignedMessageItems(m)
    case Document(d) => SignedDocumentItems(d)
    case ApprovalOf(a) => ApprovalItems(a)
    case PeerRevocationOf(p) => PeerRevocationItems(p)
    case Attestation(a) => DeliveryAttestationItems(a)
    case RequestDigestOf(r) => RequestDigestItems(r)
    case ClientRequestDigestOf(c) => ClientRequestDigestItems(c)
  }

  function TranscriptOf(i: Input): Result<seq<byte>, Error> {
    var items :- ItemsOf(i);
    Success(Transcript(KindOf(i), items))
  }

  /** `signature` is one that `key` accepts for the transcript of `i`. */
  predicate SignedBy(key: PublicKey, i: Input, signature: seq<byte>) {
    && TranscriptOf(i).Success?
    && |signature| == 64
    && VerifyBytes(key, TranscriptOf(i).value, signature)
  }
}
