/** The bytes of each transcript, field by field, and the inputs that have one. */
module Layouts {
  import opened Wrappers
  import opened Bytes
  import opened Primitives
  import opened Errors
  import opened Wire
  import opened Encoding
  import opened Transcripts
  import opened Registry
  import AttestationDecoder

  // Values.

  /** The low four, and eight, bytes of a number, most significant first; two's complement below zero. */
  function BE4(n: int): seq<byte> { [n / 0x100_0000 % 256, n / 0x1_0000 % 256, n / 0x100 % 256, n % 256] }

  function BE8(n: int): seq<byte> { BE4(n / 0x1_0000_0000) + BE4(n) }

  /** A length in four bytes, then the bytes. */
  function V(b: seq<byte>): seq<byte> { BE4(|b|) + b }

  /** The scheme, then the 65 bytes of the key with their length. */
  function K(k: PublicKey): seq<byte> { [3] + V(k) }

  function OptK(k: Option<PublicKey>): seq<byte> {
    match k
    case None => [0]
    case Some(key) => [1] + K(key)
  }

  function OptV(b: Option<seq<byte>>): seq<byte> {
    match b
    case None => [0]
    case Some(bytes) => [1] + V(bytes)
  }

  /** A tag and its NUL. */
  function T(tag: string): seq<byte> { Ascii(tag) + [0] }

  lemma TagBytes(s: string, i: nat)
    requires i < |s| && s[i] as int < 128
    ensures T(s)[i] as int == s[i] as int && T(s)[|s|] == 0
  {}

  predicate Short(b: seq<byte>) { |b| < 0x1_0000_0000 }

  lemma BigEndianIs(n: nat)
    ensures BigEndian(n, 4) == BE4(n)
    ensures BigEndian(n, 8) == BE8(n)
  {
    Four(n);
    Four(n / 0x1_0000_0000);
    assert BigEndian(n, 8) == BigEndian(n / 0x1_0000_0000, 4) + BigEndian(n, 4) by {
      assert BigEndian(n, 5) == BigEndian(n / 256, 4) + [n % 256];
      EightByFour(n);
    }
  }

  lemma Four(n: nat)
    ensures BigEndian(n, 4) == BE4(n)
  {
    assert BigEndian(n / 256 / 256 / 256 / 256, 0) == [];
    assert BigEndian(n / 256 / 256 / 256, 1) == [n / 256 / 256 / 256 % 256];
    assert BigEndian(n / 256 / 256, 2) == [n / 256 / 256 / 256 % 256, n / 256 / 256 % 256];
    assert BigEndian(n / 256, 3) == [n / 256 / 256 / 256 % 256, n / 256 / 256 % 256, n / 256 % 256];
    assert n / 256 / 256 == n / 0x1_0000 && n / 256 / 256 / 256 == n / 0x100_0000;
  }

  /** The low four bytes come after the high ones. */
  lemma EightByFour(n: nat)
    ensures BigEndian(n, 8) == BigEndian(n / 0x1_0000_0000, 4) + BigEndian(n, 4)
  {
    var a, b, c, d := n / 256, n / 256 / 256, n / 256 / 256 / 256, n / 256 / 256 / 256 / 256;
    assert d == n / 0x1_0000_0000;
    assert BigEndian(n, 8) == BigEndian(a, 7) + [n % 256];
    assert BigEndian(a, 7) == BigEndian(b, 6) + [a % 256];
    assert BigEndian(b, 6) == BigEndian(c, 5) + [b % 256];
    assert BigEndian(c, 5) == BigEndian(d, 4) + [c % 256];
    Four(n);
    assert BigEndian(n, 4) == [c % 256, b % 256, a % 256, n % 256];
  }

  lemma TwosComplement(i: i64)
    ensures I64Bytes(i) == BE8(i)
  {
    Widths();
    BigEndianIs(Unsigned(i, 8));
    Wraps(i);
    Wraps(i / 0x1_0000_0000);
  }

  lemma Wraps(n: int)
    ensures BE4(n + 0x1_0000_0000) == BE4(n) && BE4(n + U64_LIMIT) == BE4(n)
    ensures (n + U64_LIMIT) / 0x1_0000_0000 == n / 0x1_0000_0000 + 0x1_0000_0000
  {
    SameByte(n / 0x100_0000, 0x100);
    SameByte(n / 0x1_0000, 0x1_0000);
    SameByte(n / 0x100, 0x100_0000);
    SameByte(n, 0x1_0000_0000);
    SameByte(n / 0x100_0000, 0x100_0000_0000);
    SameByte(n / 0x1_0000, 0x1_0000_0000_0000);
    SameByte(n / 0x100, 0x100_0000_0000_0000);
    SameByte(n, U64_LIMIT);
  }

  lemma SameByte(n: int, m: int)
    requires m % 256 == 0
    ensures (n + m) % 256 == n % 256
  {}

  lemma FourSigned(i: i32)
    ensures I32Bytes(i) == BE4(i)
  {
    Widths();
    BigEndianIs(Unsigned(i, 4));
    Wraps(i);
  }

  // Bytes in sequence.

  function J2(a: seq<byte>, b: seq<byte>): seq<byte> { a + b }

  function J3(a: seq<byte>, b: seq<byte>, c: seq<byte>): seq<byte> { a + J2(b, c) }

  function J4(a: seq<byte>, b: seq<byte>, c: seq<byte>, d: seq<byte>): seq<byte> { a + J3(b, c, d) }

  function J5(a: seq<byte>, b: seq<byte>, c: seq<byte>, d: seq<byte>, rest: seq<byte>): seq<byte> {
    a + J4(b, c, d, rest)
  }

  predicate IsKey(k: Option<PbKey>) { KeyOf(k).Some? }

  function Key(k: Option<PbKey>): PublicKey
    requires IsKey(k)
  {
    KeyOf(k).value
  }

  // What each function requires and writes.

  predicate KeyDelegationOk(d: KeyDelegation) {
    && IsKey(d.principalGenesis) && IsKey(d.signingRoot) && IsKey(d.delegated)
    && Key(d.signingRoot) != Key(d.delegated)
    && ((d.purpose == 2 && IsKey(d.delegatedEncryption)
         && Key(d.delegatedEncryption) != Key(d.signingRoot) && Key(d.delegatedEncryption) != Key(d.delegated))
        || (d.purpose == 3 && d.delegatedEncryption.None?))
  }

  function KeyDelegationBytes(d: KeyDelegation): seq<byte>
    requires KeyDelegationOk(d)
  {
    J5(T("identitycrypto.key-delegation.v1"), K(Key(d.principalGenesis)), K(Key(d.signingRoot)), [d.purpose],
       J4(K(Key(d.delegated)), OptK(KeyOf(d.delegatedEncryption)), BE8(d.issuedAt), BE8(d.notAfter)))
  }

  predicate KeyRevocationOk(r: KeyRevocation) { IsKey(r.principalGenesis) && IsKey(r.revoked) && IsKey(r.revokedBy) }

  function KeyRevocationBytes(r: KeyRevocation): seq<byte>
    requires KeyRevocationOk(r)
  {
    J5(T("identitycrypto.key-revocation.v1"), K(Key(r.principalGenesis)), K(Key(r.revoked)), K(Key(r.revokedBy)),
       BE8(r.revokedAt))
  }

  predicate RootRotationOk(r: RootRotation) {
    IsKey(r.principalGenesis) && IsKey(r.oldRoot) && IsKey(r.newRoot) && Key(r.oldRoot) != Key(r.newRoot)
  }

  function RootRotationBytes(r: RootRotation): seq<byte>
    requires RootRotationOk(r)
  {
    J5(T("identitycrypto.root-rotation.v1"), K(Key(r.principalGenesis)), K(Key(r.oldRoot)), K(Key(r.newRoot)),
       BE8(r.issuedAt))
  }

  /** Mode 0 names neither host nor subject, mode 1 both. */
  predicate CertOk(c: DelegationCert) {
    && IsKey(c.principalGenesis) && IsKey(c.device) && IsKey(c.session) && Key(c.device) != Key(c.session)
    && ((c.mode == 0 && c.hostGenesis.None? && c.subject.None?)
        || (c.mode == 1 && IsKey(c.hostGenesis) && c.subject.Some? && c.subject.value != [] && Short(c.subject.value)))
  }

  function CertBytes(c: DelegationCert): seq<byte>
    requires CertOk(c)
  {
    J5([c.mode], K(Key(c.principalGenesis)), OptK(KeyOf(c.hostGenesis)), OptV(c.subject),
       J4(K(Key(c.device)), K(Key(c.session)), BE8(c.notBefore), BE8(c.notAfter)))
  }

  function SessionDelegationBytes(c: DelegationCert): seq<byte>
    requires CertOk(c)
  {
    T("identitycrypto.session-delegation.v1") + CertBytes(c)
  }

  /** The certificate of either kind of chain. */
  function CertOf(m: SignedMessage): Option<DelegationCert> {
    var signer :- m.signer;
    var chain :- signer.chain;
    chain.session
  }

  predicate SignedMessageOk(m: SignedMessage) {
    && CertOf(m).Some? && IsKey(CertOf(m).value.principalGenesis) && IsKey(CertOf(m).value.session)
    && m.audience != [] && Short(m.audience) && m.bodyType != [] && Short(m.bodyType) && Short(m.body)
    && |m.nonce| == 16 && (m.inReplyToNonce.Some? ==> |m.inReplyToNonce.value| == 16)
  }

  function SignedMessageBytes(m: SignedMessage): seq<byte>
    requires SignedMessageOk(m)
  {
    var c := CertOf(m).value;
    var reply := if m.inReplyToNonce.Some? then [1] + m.inReplyToNonce.value else [0];
    J5(T("identitycrypto.signed-message.v1"), K(Key(c.principalGenesis)), K(Key(c.session)), V(m.audience),
       J5(m.nonce, BE8(m.issuedAt), reply, V(m.bodyType), V(m.body)))
  }

  predicate SignedDocumentOk(d: SignedDocument) {
    IsKey(d.signerGenesis) && IsKey(d.signing) && d.documentType != [] && Short(d.documentType) && Short(d.body)
  }

  function SignedDocumentBytes(d: SignedDocument): seq<byte>
    requires SignedDocumentOk(d)
  {
    J5(T("identitycrypto.signed-document.v1"), K(Key(d.signerGenesis)), K(Key(d.signing)), V(d.documentType),
       J4(BE8(d.version), BE8(d.issuedAt), BE8(d.expiresAt), V(d.body)))
  }

  predicate ApprovalOk(a: Approval) {
    && IsKey(a.principalGenesis) && IsKey(a.approvalKey) && IsKey(a.device) && Key(a.approvalKey) != Key(a.device)
    && a.audience != [] && Short(a.audience) && Short(a.requestId) && |a.requestDigest| == 32
  }

  function ApprovalBytes(a: Approval): seq<byte>
    requires ApprovalOk(a)
  {
    J5(T("identitycrypto.approval.v1"), K(Key(a.principalGenesis)), K(Key(a.approvalKey)), K(Key(a.device)),
       J5(V(a.audience), V(a.requestId), a.requestDigest, [if a.accept then 1 else 0], BE8(a.issuedAt)))
  }

  predicate PeerRevocationOk(p: PeerRevocation) {
    && IsKey(p.revokerGenesis) && IsKey(p.approvalKey) && IsKey(p.targetGenesis)
    && (p.revoked.Some? ==> IsKey(p.revoked)) && |p.documentId| == 32
  }

  function PeerRevocationBytes(p: PeerRevocation): seq<byte>
    requires PeerRevocationOk(p)
  {
    J5(T("identitycrypto.peer-revocation.v1"), K(Key(p.revokerGenesis)), K(Key(p.approvalKey)),
       K(Key(p.targetGenesis)), J3(OptK(KeyOf(p.revoked)), BE8(p.issuedAt), p.documentId))
  }

  predicate KeyChallengeOk(audience: Text, nonce: seq<byte>) {
    audience != [] && Short(audience) && nonce != [] && Short(nonce)
  }

  function KeyChallengeBytes(audience: Text, nonce: seq<byte>, key: PublicKey): seq<byte> {
    J4(T("identitycrypto.key-challenge.v1"), V(audience), V(nonce), K(key))
  }

  predicate PrincipalRenameOk(nonce: seq<byte>, newName: Text) {
    nonce != [] && Short(nonce) && newName != [] && Short(newName)
  }

  function PrincipalRenameBytes(nonce: seq<byte>, principal: PrincipalId, newName: Text): seq<byte> {
    J4(T("identitycrypto.principal-rename.v1"), V(nonce), K(principal.genesis), V(newName))
  }

  predicate RequestDigestOk(i: RequestDigestInput) {
    && (i.subject.Some? ==> i.subject.value != [] && Short(i.subject.value))
    && i.instanceId != [] && Short(i.instanceId) && i.actionId != [] && Short(i.actionId)
    && Short(i.parameters) && i.requestId != [] && Short(i.requestId)
  }

  function RequestDigestBytes(i: RequestDigestInput): seq<byte> {
    J5(T("identitycrypto.request-digest.v1"), K(i.requester.genesis), K(i.host.genesis), OptV(i.subject),
       J5(V(i.instanceId), V(i.actionId), V(i.parameters), V(i.requestId), K(i.target.genesis)))
  }

  predicate ClientRequestDigestOk(i: ClientRequestDigestInput) {
    && (i.resource.Some? ==>
          && i.resource.value.kind != [] && Short(i.resource.value.kind)
          && i.resource.value.id != [] && Short(i.resource.value.id))
    && i.messageKind != [] && Short(i.messageKind) && Short(i.body) && i.requestId != [] && Short(i.requestId)
  }

  function ResourceBytes(r: Option<Resource>): seq<byte> {
    match r
    case None => [0]
    case Some(resource) => J3([1], V(resource.kind), V(resource.id))
  }

  function ClientRequestDigestBytes(i: ClientRequestDigestInput): seq<byte> {
    var host := if i.host.Some? then Some(i.host.value.genesis) else None;
    J5(T("identitycrypto.client-request-digest.v1"), K(i.requester.genesis), OptK(host), ResourceBytes(i.resource),
       J4(V(i.messageKind), V(i.body), V(i.requestId), K(i.target.genesis)))
  }

  predicate AttestedOk(m: AttestedMessage) {
    && Short(m.messageId) && Short(m.roomId) && IsKey(m.authorGenesis) && Short(m.bodyText)
    && m.delegationCert.Some? && CertOk(m.delegationCert.value) && Short(m.delegationCert.value.signature)
  }

  function AttestedBytes(m: AttestedMessage): seq<byte>
    requires AttestedOk(m)
  {
    var c := m.delegationCert.value;
    J5(V(m.messageId), V(m.roomId), K(Key(m.authorGenesis)), V(m.bodyText), J2(CertBytes(c), V(c.signature)))
  }

  predicate AttestationOk(a: DeliveryAttestation) {
    && |a.recipientDevices| < 0x1_0000_0000 && (forall k <- a.recipientDevices :: IsKey(Some(k)))
    && Short(a.keyId) && a.attestedAt.Some? && 0 <= a.attestedAt.value.nanos < 1_000_000_000
    && |a.messages| < 0x1_0000_0000 && (forall m <- a.messages :: AttestedOk(m))
  }

  /** The keys one after the other. */
  function KeysBytes(keys: seq<PbKey>): seq<byte>
    requires forall k <- keys :: IsKey(Some(k))
  {
    if keys == [] then [] else KeysBytes(keys[..|keys| - 1]) + K(Key(Some(keys[|keys| - 1])))
  }

  function MessagesBytes(messages: seq<AttestedMessage>): seq<byte>
    requires forall m <- messages :: AttestedOk(m)
  {
    if messages == [] then []
    else MessagesBytes(messages[..|messages| - 1]) + AttestedBytes(messages[|messages| - 1])
  }

  function AttestationBytes(a: DeliveryAttestation): seq<byte>
    requires AttestationOk(a)
  {
    J5(T("identitycrypto.delivery-attestation.v1"), BE4(|a.recipientDevices|), KeysBytes(a.recipientDevices),
       V(a.keyId), J5(BE8(a.batchSequence), BE8(a.attestedAt.value.seconds), BE4(a.attestedAt.value.nanos),
                      BE4(|a.messages|), MessagesBytes(a.messages)))
  }

  // The functions write these bytes, and nothing else.

  /** The encoding of single values, and of a list at its end. */
  lemma EncodeIs()
    ensures forall k: PublicKey {:trigger Encode(Item.Key(k))} :: Encode(Item.Key(k)) == K(k)
    ensures forall b: seq<byte> {:trigger Encode(Var(b))} :: Encode(Var(b)) == V(b)
    ensures forall i: i64 {:trigger Encode(I64(i))} :: Encode(I64(i)) == BE8(i)
    ensures forall n: u64 {:trigger Encode(U64(n))} :: Encode(U64(n)) == BE8(n)
    ensures forall i: i32 {:trigger Encode(I32(i))} :: Encode(I32(i)) == BE4(i)
    ensures forall k: Option<PublicKey> {:trigger OptKeyItem(k)} :: Encode(OptKeyItem(k)) == OptK(k)
    ensures forall n: byte {:trigger Encode(Item.U8(n))} :: Encode(Item.U8(n)) == [n]
    ensures forall b: seq<byte> {:trigger Encode(Fixed(b))} :: Encode(Fixed(b)) == b
    ensures forall v: Item {:trigger Cons(v, Nil)} :: EncodeAll(Cons(v, Nil)) == Encode(v)
  {
    hide Encode, EncodeAll, V, K, BE8, BE4, OptK;
    forall k: PublicKey
      ensures Encode(Item.Key(k)) == K(k) && Encode(OptKeyItem(Some(k))) == OptK(Some(k))
    {
      KeyIs(k);
    }
    forall b: seq<byte>
      ensures Encode(Var(b)) == V(b) && Encode(Fixed(b)) == b
    {
      VarIs(b);
    }
    forall i: i64
      ensures Encode(I64(i)) == BE8(i)
    {
      I64Is(i);
    }
    forall n: u64
      ensures Encode(U64(n)) == BE8(n)
    {
      U64Is(n);
    }
    forall i: i32
      ensures Encode(I32(i)) == BE4(i)
    {
      I32Is(i);
    }
    forall n: byte
      ensures Encode(Item.U8(n)) == [n]
    {
      U8Is(n);
    }
    forall v: Item
      ensures EncodeAll(Cons(v, Nil)) == Encode(v)
    {
      LastIs(v);
    }
    forall k: Option<PublicKey>
      ensures Encode(OptKeyItem(k)) == OptK(k)
    {
      OptKeyIs(k);
    }
  }

  lemma KeyIs(k: PublicKey)
    ensures Encode(Item.Key(k)) == K(k) && Encode(OptKeyItem(Some(k))) == OptK(Some(k))
  {
    BigEndianIs(65);
    OneInside(Item.Key(k));
  }

  lemma OptKeyIs(k: Option<PublicKey>)
    ensures Encode(OptKeyItem(k)) == OptK(k)
  {
    if k.Some? {
      KeyIs(k.value);
    }
  }

  lemma VarIs(b: seq<byte>)
    ensures Encode(Var(b)) == V(b) && Encode(Fixed(b)) == b
  {
    BigEndianIs(|b|);
  }

  lemma I64Is(i: i64)
    ensures Encode(I64(i)) == BE8(i)
  {
    TwosComplement(i);
  }

  lemma U64Is(n: u64)
    ensures Encode(U64(n)) == BE8(n)
  {
    BigEndianIs(n);
  }

  lemma I32Is(i: i32)
    ensures Encode(I32(i)) == BE4(i)
  {
    FourSigned(i);
  }

  lemma U8Is(n: byte)
    ensures Encode(Item.U8(n)) == [n]
  {}

  lemma LastIs(v: Item)
    ensures EncodeAll(Cons(v, Nil)) == Encode(v)
  {
    hide Encode;
    assert EncodeAll(Nil) == [];
  }

  lemma OneInside(v: Item)
    ensures Encode(Present(L1(v))) == [1] + Encode(v)
  {
    assert EncodeAll(L1(v)) == Encode(v) + [] == Encode(v);
  }

  lemma OptVarIs(b: Option<seq<byte>>)
    requires OptVarItem(b).Success?
    ensures Encode(OptVarItem(b).value) == OptV(b)
  {
    if b.Some? {
      BigEndianIs(|b.value|);
      OneInside(Var(b.value));
    }
  }

  lemma OptFixedIs(b: Option<seq<byte>>)
    ensures Encode(if b.None? then Absent else Present(L1(Fixed(b.value)))) == if b.None? then [0] else [1] + b.value
  {
    if b.Some? {
      OneInside(Fixed(b.value));
    }
  }

  lemma ResourceIs(r: Option<Resource>)
    requires OptResourceItem(r).Success?
    ensures Encode(OptResourceItem(r).value) == ResourceBytes(r)
  {
    if r.Some? {
      TwoInside(r.value.kind, r.value.id);
    }
  }

  lemma EncodeSeven(a: Item, b: Item, c: Item, d: Item, e: Item, f: Item, g: Item)
    ensures EncodeAll(L7(a, b, c, d, e, f, g))
         == J5(Encode(a), Encode(b), Encode(c), Encode(d), J3(Encode(e), Encode(f), Encode(g)))
  {
    hide Encode;
    UnfoldEncode();
    LastIs(g);
  }

  lemma EncodeEight(a: Item, b: Item, c: Item, d: Item, e: Item, f: Item, g: Item, h: Item)
    ensures EncodeAll(L8(a, b, c, d, e, f, g, h))
         == J5(Encode(a), Encode(b), Encode(c), Encode(d), J4(Encode(e), Encode(f), Encode(g), Encode(h)))
  {
    hide Encode;
    UnfoldEncode();
    LastIs(h);
  }

  lemma TwoInside(a: seq<byte>, b: seq<byte>)
    ensures Encode(Present(L2(Var(a), Var(b)))) == J3([1], V(a), V(b))
  {
    BigEndianIs(|a|);
    BigEndianIs(|b|);
    assert EncodeAll(Cons(Var(b), Nil)) == VarBytes(b) by {
      assert EncodeAll(Nil) == [];
    }
    assert EncodeAll(L2(Var(a), Var(b))) == VarBytes(a) + VarBytes(b);
  }

  lemma KeyDelegationNeeds(d: KeyDelegation)
    ensures KeyDelegationItems(d).Success? <==> KeyDelegationOk(d)
  {}

  lemma KeyDelegationWrites(d: KeyDelegation)
    requires KeyDelegationOk(d) && KeyDelegationItems(d).Success?
    ensures TranscriptOf(Delegation(d)).value == KeyDelegationBytes(d)
  {
    hide Ascii, Encode, EncodeAll, K, V, BE8, BE4, OptK, OptV;
    EncodeIs();
    UnfoldEncode();
  }

  lemma KeyDelegationLayout(d: KeyDelegation, bs: seq<byte>)
    ensures TranscriptOf(Delegation(d)) == Success(bs) <==> KeyDelegationOk(d) && bs == KeyDelegationBytes(d)
  {
    hide KeyDelegationItems, KeyDelegationOk, KeyDelegationBytes, Transcript;
    KeyDelegationNeeds(d);
    if KeyDelegationOk(d) {
      KeyDelegationWrites(d);
    }
  }

  lemma KeyRevocationLayout(r: KeyRevocation, bs: seq<byte>)
    ensures TranscriptOf(Revocation(r)) == Success(bs) <==> KeyRevocationOk(r) && bs == KeyRevocationBytes(r)
  {
    hide Ascii, Encode, EncodeAll, K, V, BE8, BE4, OptK;
    EncodeIs();
    UnfoldEncode();
  }

  lemma RootRotationLayout(r: RootRotation, bs: seq<byte>)
    ensures TranscriptOf(Rotation(r)) == Success(bs) <==> RootRotationOk(r) && bs == RootRotationBytes(r)
  {
    hide Ascii, Encode, EncodeAll, K, V, BE8, BE4, OptK, OptV;
    EncodeIs();
    UnfoldEncode();
  }

  lemma SessionDelegationNeeds(c: DelegationCert)
    ensures CertItems(c, Nil).Success? <==> CertOk(c)
  {}

  lemma SessionDelegationWrites(c: DelegationCert)
    requires CertOk(c) && CertItems(c, Nil).Success?
    ensures TranscriptOf(SessionDelegation(c)).value == SessionDelegationBytes(c)
  {
    hide Ascii, Encode, EncodeAll, K, V, BE8, BE4, OptK, OptV;
    EncodeIs();
    if c.mode == 0 {
      OptVarIs(None);
    } else {
      OptVarIs(c.subject);
    }
    UnfoldEncode();
  }

  lemma SessionDelegationLayout(c: DelegationCert, bs: seq<byte>)
    ensures TranscriptOf(SessionDelegation(c)) == Success(bs) <==> CertOk(c) && bs == SessionDelegationBytes(c)
  {
    hide CertItems, CertOk, SessionDelegationBytes, Transcript;
    SessionDelegationNeeds(c);
    if CertOk(c) {
      SessionDelegationWrites(c);
    }
  }

  lemma SignedMessageNeeds(m: SignedMessage)
    ensures SignedMessageItems(m).Success? <==> SignedMessageOk(m)
    ensures SignedMessageOk(m) ==>
              SignedMessageItems(m).value
              == L8(Item.Key(Key(CertOf(m).value.principalGenesis)), Item.Key(Key(CertOf(m).value.session)),
                    Var(m.audience), Fixed(m.nonce), I64(m.issuedAt),
                    if m.inReplyToNonce.None? then Absent else Present(L1(Fixed(m.inReplyToNonce.value))),
                    Var(m.bodyType), Var(m.body))
  {}

  lemma SignedMessageWrites(m: SignedMessage)
    requires SignedMessageOk(m) && SignedMessageItems(m).Success?
    ensures TranscriptOf(Message(m)).value == SignedMessageBytes(m)
  {
    hide Ascii, Encode, EncodeAll, K, V, BE8, SignedMessageItems, L8;
    SignedMessageNeeds(m);
    var c := CertOf(m).value;
    var reply := if m.inReplyToNonce.None? then Absent else Present(L1(Fixed(m.inReplyToNonce.value)));
    EncodeEight(Item.Key(Key(c.principalGenesis)), Item.Key(Key(c.session)), Var(m.audience), Fixed(m.nonce),
                I64(m.issuedAt), reply, Var(m.bodyType), Var(m.body));
    KeyIs(Key(c.principalGenesis));
    KeyIs(Key(c.session));
    VarIs(m.audience);
    VarIs(m.nonce);
    I64Is(m.issuedAt);
    OptFixedIs(m.inReplyToNonce);
    VarIs(m.bodyType);
    VarIs(m.body);
  }

  lemma SignedMessageLayout(m: SignedMessage, bs: seq<byte>)
    ensures TranscriptOf(Message(m)) == Success(bs) <==> SignedMessageOk(m) && bs == SignedMessageBytes(m)
  {
    hide SignedMessageItems, SignedMessageOk, SignedMessageBytes, Transcript;
    SignedMessageNeeds(m);
    if SignedMessageOk(m) {
      SignedMessageWrites(m);
    }
  }

  lemma SignedDocumentNeeds(d: SignedDocument)
    ensures SignedDocumentItems(d).Success? <==> SignedDocumentOk(d)
  {}

  lemma SignedDocumentWrites(d: SignedDocument)
    requires SignedDocumentOk(d) && SignedDocumentItems(d).Success?
    ensures TranscriptOf(Document(d)).value == SignedDocumentBytes(d)
  {
    hide Ascii, Encode, EncodeAll, K, V, BE8, BE4, OptK, OptV;
    EncodeIs();
    UnfoldEncode();
  }

  lemma SignedDocumentLayout(d: SignedDocument, bs: seq<byte>)
    ensures TranscriptOf(Document(d)) == Success(bs) <==> SignedDocumentOk(d) && bs == SignedDocumentBytes(d)
  {
    hide SignedDocumentItems, SignedDocumentOk, SignedDocumentBytes, Transcript;
    SignedDocumentNeeds(d);
    if SignedDocumentOk(d) {
      SignedDocumentWrites(d);
    }
  }

  lemma ApprovalNeeds(a: Approval)
    ensures ApprovalItems(a).Success? <==> ApprovalOk(a)
  {}

  lemma ApprovalWrites(a: Approval)
    requires ApprovalOk(a) && ApprovalItems(a).Success?
    ensures TranscriptOf(ApprovalOf(a)).value == ApprovalBytes(a)
  {
    hide Ascii, Encode, EncodeAll, K, V, BE8, BE4, OptK, OptV;
    EncodeIs();
    UnfoldEncode();
  }

  lemma ApprovalLayout(a: Approval, bs: seq<byte>)
    ensures TranscriptOf(ApprovalOf(a)) == Success(bs) <==> ApprovalOk(a) && bs == ApprovalBytes(a)
  {
    hide ApprovalItems, ApprovalOk, ApprovalBytes, Transcript;
    ApprovalNeeds(a);
    if ApprovalOk(a) {
      ApprovalWrites(a);
    }
  }

  lemma PeerRevocationNeeds(p: PeerRevocation)
    ensures PeerRevocationItems(p).Success? <==> PeerRevocationOk(p)
  {}

  lemma PeerRevocationWrites(p: PeerRevocation)
    requires PeerRevocationOk(p) && PeerRevocationItems(p).Success?
    ensures TranscriptOf(PeerRevocationOf(p)).value == PeerRevocationBytes(p)
  {
    hide Ascii, Encode, EncodeAll, K, V, BE8, BE4, OptK, OptV;
    EncodeIs();
    UnfoldEncode();
  }

  lemma PeerRevocationLayout(p: PeerRevocation, bs: seq<byte>)
    ensures TranscriptOf(PeerRevocationOf(p)) == Success(bs) <==> PeerRevocationOk(p) && bs == PeerRevocationBytes(p)
  {
    hide PeerRevocationItems, PeerRevocationOk, PeerRevocationBytes, Transcript;
    PeerRevocationNeeds(p);
    if PeerRevocationOk(p) {
      PeerRevocationWrites(p);
    }
  }

  lemma KeyChallengeLayout(audience: Text, nonce: seq<byte>, key: PublicKey, bs: seq<byte>)
    ensures TranscriptOf(KeyChallenge(audience, nonce, key)) == Success(bs) <==>
              KeyChallengeOk(audience, nonce) && bs == KeyChallengeBytes(audience, nonce, key)
  {
    hide Ascii, Encode, EncodeAll, K, V, BE8, BE4, OptK, OptV;
    EncodeIs();
    UnfoldEncode();
  }

  lemma PrincipalRenameLayout(nonce: seq<byte>, principal: PrincipalId, newName: Text, bs: seq<byte>)
    ensures TranscriptOf(PrincipalRename(nonce, principal, newName)) == Success(bs) <==>
              PrincipalRenameOk(nonce, newName) && bs == PrincipalRenameBytes(nonce, principal, newName)
  {
    hide Ascii, Encode, EncodeAll, K, V, BE8, BE4, OptK, OptV;
    EncodeIs();
    UnfoldEncode();
  }

  lemma RequestDigestNeeds(i: RequestDigestInput)
    ensures RequestDigestItems(i).Success? <==> RequestDigestOk(i)
    ensures RequestDigestOk(i) ==> OptVarItem(i.subject).Success?
    ensures RequestDigestOk(i) ==>
              RequestDigestItems(i).value
              == L8(Item.Key(i.requester.genesis), Item.Key(i.host.genesis), OptVarItem(i.subject).value,
                    Var(i.instanceId), Var(i.actionId), Var(i.parameters), Var(i.requestId), Item.Key(i.target.genesis))
  {}

  lemma RequestDigestWrites(i: RequestDigestInput)
    requires RequestDigestOk(i) && RequestDigestItems(i).Success?
    ensures TranscriptOf(RequestDigestOf(i)).value == RequestDigestBytes(i)
  {
    hide Ascii, Encode, EncodeAll, K, V, OptV, RequestDigestItems, OptVarItem, L8;
    RequestDigestNeeds(i);
    EncodeEight(Item.Key(i.requester.genesis), Item.Key(i.host.genesis), OptVarItem(i.subject).value, Var(i.instanceId),
                Var(i.actionId), Var(i.parameters), Var(i.requestId), Item.Key(i.target.genesis));
    KeyIs(i.requester.genesis);
    KeyIs(i.host.genesis);
    OptVarIs(i.subject);
    VarIs(i.instanceId);
    VarIs(i.actionId);
    VarIs(i.parameters);
    VarIs(i.requestId);
    KeyIs(i.target.genesis);
  }

  lemma RequestDigestLayout(i: RequestDigestInput, bs: seq<byte>)
    ensures TranscriptOf(RequestDigestOf(i)) == Success(bs) <==> RequestDigestOk(i) && bs == RequestDigestBytes(i)
  {
    hide RequestDigestItems, RequestDigestOk, RequestDigestBytes, Transcript;
    RequestDigestNeeds(i);
    if RequestDigestOk(i) {
      RequestDigestWrites(i);
    }
  }

  lemma ClientRequestDigestNeeds(i: ClientRequestDigestInput)
    ensures ClientRequestDigestItems(i).Success? <==> ClientRequestDigestOk(i)
    ensures ClientRequestDigestOk(i) ==> OptResourceItem(i.resource).Success?
    ensures ClientRequestDigestOk(i) ==>
              ClientRequestDigestItems(i).value
              == L7(Item.Key(i.requester.genesis), OptKeyItem(OptGenesis(i.host)), OptResourceItem(i.resource).value,
                    Var(i.messageKind), Var(i.body), Var(i.requestId), Item.Key(i.target.genesis))
  {}

  lemma ClientRequestDigestWrites(i: ClientRequestDigestInput)
    requires ClientRequestDigestOk(i) && ClientRequestDigestItems(i).Success?
    ensures TranscriptOf(ClientRequestDigestOf(i)).value == ClientRequestDigestBytes(i)
  {
    hide Ascii, Encode, EncodeAll, K, V, OptK, ClientRequestDigestItems, OptResourceItem, ResourceBytes, OptKeyItem, L7;
    ClientRequestDigestNeeds(i);
    EncodeSeven(Item.Key(i.requester.genesis), OptKeyItem(OptGenesis(i.host)), OptResourceItem(i.resource).value,
                Var(i.messageKind), Var(i.body), Var(i.requestId), Item.Key(i.target.genesis));
    KeyIs(i.requester.genesis);
    OptKeyIs(OptGenesis(i.host));
    ResourceIs(i.resource);
    VarIs(i.messageKind);
    VarIs(i.body);
    VarIs(i.requestId);
    KeyIs(i.target.genesis);
  }

  lemma ClientRequestDigestLayout(i: ClientRequestDigestInput, bs: seq<byte>)
    ensures TranscriptOf(ClientRequestDigestOf(i)) == Success(bs) <==>
              ClientRequestDigestOk(i) && bs == ClientRequestDigestBytes(i)
  {
    hide ClientRequestDigestItems, ClientRequestDigestOk, ClientRequestDigestBytes, Transcript;
    ClientRequestDigestNeeds(i);
    if ClientRequestDigestOk(i) {
      ClientRequestDigestWrites(i);
    }
  }

  // The lists of an attestation.

  lemma {:induction false} DevicesNeed(devices: seq<PbKey>)
    ensures DeviceRows(devices).Success? <==> forall k <- devices :: IsKey(Some(k))
    ensures DeviceRows(devices).Success? ==> |DeviceRows(devices).value| == |devices|
  {
    hide ParseKey;
    if devices != [] {
      var n := |devices| - 1;
      DevicesNeed(devices[..n]);
      assert devices == devices[..n] + [devices[n]];
      assert IsKey(Some(devices[n])) <==> ParseKey(devices[n]).Success?;
    }
  }

  lemma {:induction false} DevicesWrite(devices: seq<PbKey>)
    requires DeviceRows(devices).Success? && forall k <- devices :: IsKey(Some(k))
    ensures EncodeRows(DeviceRows(devices).value) == KeysBytes(devices)
  {
    hide ParseKey, Encode, K;
    if devices != [] {
      var n := |devices| - 1;
      var rows := DeviceRows(devices).value;
      DevicesNeed(devices[..n]);
      DevicesWrite(devices[..n]);
      assert rows[..n] == DeviceRows(devices[..n]).value && rows[n] == L1(Item.Key(Key(Some(devices[n]))));
      KeyIs(Key(Some(devices[n])));
      LastIs(Item.Key(Key(Some(devices[n]))));
    }
  }

  lemma MessageNeeds(m: AttestedMessage)
    ensures MessageItems(m).Success? <==> AttestedOk(m)
  {
    hide ParseKey, CertItems, CertOk;
    if m.delegationCert.Some? {
      SessionDelegationNeeds(m.delegationCert.value);
      AttestationDecoder.CertAlone(m.delegationCert.value, L1(Var(m.delegationCert.value.signature)));
    }
  }

  lemma MessageWrites(m: AttestedMessage)
    requires AttestedOk(m) && MessageItems(m).Success?
    ensures EncodeAll(MessageItems(m).value) == AttestedBytes(m)
  {
    hide Ascii, MessageItems, CertBytes, V, K, VarBytes, KeyBytes, TranscriptOf, CertOk, KeyOf;
    var c := m.delegationCert.value;
    AttestationDecoder.EmbeddedCertBytes(m);
    SessionDelegationLayout(c, TranscriptOf(SessionDelegation(c)).value);
    assert SessionDelegationBytes(c)[|Tag(SessionDelegationKind)|..] == CertBytes(c);
    VarBytesIs(m.messageId);
    VarBytesIs(m.roomId);
    VarBytesIs(m.bodyText);
    VarBytesIs(c.signature);
    KeyBytesIs(Key(m.authorGenesis));
  }

  lemma VarBytesIs(b: seq<byte>)
    ensures VarBytes(b) == V(b)
  {
    BigEndianIs(|b|);
  }

  lemma KeyBytesIs(k: PublicKey)
    ensures KeyBytes(k) == K(k)
  {
    BigEndianIs(65);
  }

  lemma {:induction false} MessagesNeed(messages: seq<AttestedMessage>)
    ensures MessageRows(messages).Success? <==> forall m <- messages :: AttestedOk(m)
    ensures MessageRows(messages).Success? ==> |MessageRows(messages).value| == |messages|
  {
    hide MessageItems, AttestedOk;
    if messages != [] {
      var n := |messages| - 1;
      MessagesNeed(messages[..n]);
      MessageNeeds(messages[n]);
      assert messages == messages[..n] + [messages[n]];
    }
  }

  lemma {:induction false} MessagesWrite(messages: seq<AttestedMessage>)
    requires MessageRows(messages).Success? && forall m <- messages :: AttestedOk(m)
    ensures EncodeRows(MessageRows(messages).value) == MessagesBytes(messages)
  {
    hide MessageItems, AttestedOk, AttestedBytes, EncodeAll;
    if messages != [] {
      var n := |messages| - 1;
      var rows := MessageRows(messages).value;
      MessagesNeed(messages[..n]);
      MessagesWrite(messages[..n]);
      MessageWrites(messages[n]);
      assert rows[..n] == MessageRows(messages[..n]).value;
    }
  }

  lemma AttestationNeeds(a: DeliveryAttestation)
    ensures DeliveryAttestationItems(a).Success? <==> AttestationOk(a)
  {
    hide DeviceRows, MessageRows, AttestedOk, KeyOf;
    DevicesNeed(a.recipientDevices);
    MessagesNeed(a.messages);
  }

  lemma ManyIs(rows: seq<Items>)
    ensures Encode(Many(rows)) == BE4(|rows|) + EncodeRows(rows)
  {
    BigEndianIs(|rows|);
  }

  lemma AttestationWrites(a: DeliveryAttestation)
    requires AttestationOk(a) && DeliveryAttestationItems(a).Success?
    ensures TranscriptOf(Attestation(a)).value == AttestationBytes(a)
  {
    hide Ascii, Encode, EncodeAll, EncodeRows, K, V, BE8, BE4, OptK, OptV, DeviceRows, MessageRows, AttestedOk, KeyOf,
         KeysBytes, MessagesBytes;
    EncodeIs();
    UnfoldEncode();
    var devices, messages := DeviceRows(a.recipientDevices).value, MessageRows(a.messages).value;
    DevicesNeed(a.recipientDevices);
    MessagesNeed(a.messages);
    DevicesWrite(a.recipientDevices);
    MessagesWrite(a.messages);
    ManyIs(devices);
    ManyIs(messages);
  }

  lemma DeliveryAttestationLayout(a: DeliveryAttestation, bs: seq<byte>)
    ensures TranscriptOf(Attestation(a)) == Success(bs) <==> AttestationOk(a) && bs == AttestationBytes(a)
  {
    hide DeliveryAttestationItems, AttestationOk, AttestationBytes, Transcript;
    AttestationNeeds(a);
    if AttestationOk(a) {
      AttestationWrites(a);
    }
  }
}
