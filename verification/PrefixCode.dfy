/** The thirteen transcript functions together form a prefix code that determines every covered field. */
module PrefixCode {
  import opened Wrappers
  import opened Bytes
  import opened Primitives
  import opened Errors
  import opened Wire
  import opened Encoding
  import opened Transcripts

  /** What a function writes has the layout its tag announces. */
  lemma ItemsFit(i: Input)
    requires ItemsOf(i).Success?
    ensures FitsAll(Layout(KindOf(i)), ItemsOf(i).value)
  {
    match i
    case KeyChallenge(audience, nonce, new_) => KeyChallengeFits(audience, nonce, new_);
    case PrincipalRename(nonce, principal, newName) => PrincipalRenameFits(nonce, principal, newName);
    case Delegation(d) => KeyDelegationFits(d);
    case Revocation(r) => KeyRevocationFits(r);
    case Rotation(r) => RootRotationFits(r);
    case Message(m) => SignedMessageFits(m);
    case Document(d) => SignedDocumentFits(d);
    case ApprovalOf(a) => ApprovalFits(a);
    case PeerRevocationOf(p) => PeerRevocationFits(p);
    case Attestation(a) => DeliveryAttestationFits(a);
    case RequestDigestOf(r) => RequestDigestFits(r);
    case ClientRequestDigestOf(c) => ClientRequestDigestFits(c);
    case SessionDelegation(c) => CertFits(c, Nil, End);
  }

  lemma KeyChallengeFits(audience: Text, nonce: seq<byte>, new_: PublicKey)
    requires KeyChallengeItems(audience, nonce, new_).Success?
    ensures FitsAll(Layout(KeyChallengeKind), KeyChallengeItems(audience, nonce, new_).value)
  {
    UnfoldFits();
  }

  lemma PrincipalRenameFits(nonce: seq<byte>, principal: PrincipalId, newName: Text)
    requires PrincipalRenameItems(nonce, principal, newName).Success?
    ensures FitsAll(Layout(PrincipalRenameKind), PrincipalRenameItems(nonce, principal, newName).value)
  {
    UnfoldFits();
  }

  lemma KeyDelegationFits(d: KeyDelegation)
    requires KeyDelegationItems(d).Success?
    ensures FitsAll(Layout(KeyDelegationKind), KeyDelegationItems(d).value)
  {
    UnfoldFits();
  }

  lemma KeyRevocationFits(r: KeyRevocation)
    requires KeyRevocationItems(r).Success?
    ensures FitsAll(Layout(KeyRevocationKind), KeyRevocationItems(r).value)
  {
    UnfoldFits();
  }

  lemma RootRotationFits(r: RootRotation)
    requires RootRotationItems(r).Success?
    ensures FitsAll(Layout(RootRotationKind), RootRotationItems(r).value)
  {
    UnfoldFits();
  }

  lemma SignedMessageFits(m: SignedMessage)
    requires SignedMessageItems(m).Success?
    ensures FitsAll(Layout(SignedMessageKind), SignedMessageItems(m).value)
  {
    UnfoldFits();
  }

  lemma SignedDocumentFits(d: SignedDocument)
    requires SignedDocumentItems(d).Success?
    ensures FitsAll(Layout(SignedDocumentKind), SignedDocumentItems(d).value)
  {
    UnfoldFits();
  }

  lemma ApprovalFits(a: Approval)
    requires ApprovalItems(a).Success?
    ensures FitsAll(Layout(ApprovalKind), ApprovalItems(a).value)
  {
    UnfoldFits();
  }

  lemma PeerRevocationFits(p: PeerRevocation)
    requires PeerRevocationItems(p).Success?
    ensures FitsAll(Layout(PeerRevocationKind), PeerRevocationItems(p).value)
  {
    UnfoldFits();
  }

  lemma DeliveryAttestationFits(a: DeliveryAttestation)
    requires DeliveryAttestationItems(a).Success?
    ensures FitsAll(Layout(DeliveryAttestationKind), DeliveryAttestationItems(a).value)
  {
    DeviceRowsFit(a.recipientDevices);
    MessageRowsFit(a.messages);
    var devices := Many(DeviceRows(a.recipientDevices).value);
    var messages := Many(MessageRows(a.messages).value);
    BatchFits(devices, Var(a.keyId), U64(a.batchSequence), I64(a.attestedAt.value.seconds),
              I32(a.attestedAt.value.nanos), messages);
  }

  lemma RequestDigestFits(i: RequestDigestInput)
    requires RequestDigestItems(i).Success?
    ensures FitsAll(Layout(RequestDigestKind), RequestDigestItems(i).value)
  {
    UnfoldFits();
  }

  lemma ClientRequestDigestFits(i: ClientRequestDigestInput)
    requires ClientRequestDigestItems(i).Success?
    ensures FitsAll(Layout(ClientRequestDigestKind), ClientRequestDigestItems(i).value)
  {
    UnfoldFits();
  }

  lemma BatchFits(devices: Item, keyId: Item, batch: Item, seconds: Item, nanos: Item, messages: Item)
    requires Fits(ManyShape(S1(KeyShape)), devices) && Fits(VarShape, keyId) && Fits(U64Shape, batch)
    requires Fits(I64Shape, seconds) && Fits(I32Shape, nanos) && Fits(ManyShape(MessageLayout()), messages)
    ensures FitsAll(Layout(DeliveryAttestationKind), L6(devices, keyId, batch, seconds, nanos, messages))
  {
    UnfoldFits();
  }

  lemma {:induction false} DeviceRowsFit(devices: seq<PbKey>)
    requires DeviceRows(devices).Success?
    ensures |DeviceRows(devices).value| == |devices|
    ensures forall r <- DeviceRows(devices).value :: FitsAll(S1(KeyShape), r)
  {
    if devices != [] {
      DeviceRowsFit(devices[..|devices| - 1]);
    }
  }

  lemma {:induction false} MessageRowsFit(messages: seq<AttestedMessage>)
    requires MessageRows(messages).Success?
    ensures |MessageRows(messages).value| == |messages|
    ensures forall r <- MessageRows(messages).value :: FitsAll(MessageLayout(), r)
  {
    if messages != [] {
      MessageRowsFit(messages[..|messages| - 1]);
      MessageFits(messages[|messages| - 1]);
    }
  }

  lemma MessageFits(m: AttestedMessage)
    requires MessageItems(m).Success?
    ensures FitsAll(MessageLayout(), MessageItems(m).value)
  {
    UnfoldFits();
    CertFits(m.delegationCert.value, L1(Var(m.delegationCert.value.signature)), S1(VarShape));
  }

  lemma CertFits(c: DelegationCert, rest: Items, shapes: Shapes)
    requires CertItems(c, rest).Success?
    requires FitsAll(shapes, rest)
    ensures FitsAll(CertLayout(shapes), CertItems(c, rest).value)
  {
    UnfoldFits();
  }

  // Tags.

  /** Four characters of a tag, at 15, 16, 19 and 22, that no two tags share. */
  function Mark(k: Kind): (char, char, char, char) {
    match k
    case KeyChallengeKind => ('k', 'e', 'c', 'l')
    case PrincipalRenameKind => ('p', 'r', 'c', 'a')
    case KeyDelegationKind => ('k', 'e', 'd', 'e')
    case KeyRevocationKind => ('k', 'e', 'r', 'o')
    case RootRotationKind => ('r', 'o', '-', 't')
    case SessionDelegationKind => ('s', 'e', 'i', '-')
    case SignedMessageKind => ('s', 'i', 'e', 'm')
    case SignedDocumentKind => ('s', 'i', 'e', 'd')
    case ApprovalKind => ('a', 'p', 'o', 'l')
    case PeerRevocationKind => ('p', 'e', '-', 'v')
    case DeliveryAttestationKind => ('d', 'e', 'v', 'y')
    case RequestDigestKind => ('r', 'e', 'e', '-')
    case ClientRequestDigestKind => ('c', 'l', 'n', 'r')
  }

  lemma TagMarks(k: Kind)
    ensures |TagText(k)| > 22 && Mark(k) == (TagText(k)[15], TagText(k)[16], TagText(k)[19], TagText(k)[22])
  {}

  lemma TagsSplit(k: Kind, l: Kind, a: seq<byte>, b: seq<byte>)
    requires Tag(k) + a <= Tag(l) + b
    ensures k == l && a <= b
  {
    TagMarks(k);
    TagMarks(l);
    hide TagText;
    forall p | p == 15 || p == 16 || p == 19 || p == 22
      ensures Tag(k)[p] == Tag(l)[p]
    {
      assert (Tag(k) + a)[p] == (Tag(l) + b)[p];
    }
    assert Tag(k)[15] == Mark(k).0 as int % 256 && Tag(l)[15] == Mark(l).0 as int % 256;
    assert Tag(k)[16] == Mark(k).1 as int % 256 && Tag(l)[16] == Mark(l).1 as int % 256;
    assert Tag(k)[19] == Mark(k).2 as int % 256 && Tag(l)[19] == Mark(l).2 as int % 256;
    assert Tag(k)[22] == Mark(k).3 as int % 256 && Tag(l)[22] == Mark(l).3 as int % 256;
    assert a == (Tag(k) + a)[|Tag(k)|..] && b == (Tag(l) + b)[|Tag(k)|..];
  }

  // What a transcript covers.

  /** Everything of a message its signature covers: not the kind of chain, nor the rest of the certificate. */
  datatype MessageFields = MessageFields(principalGenesis: Option<PbKey>, session: Option<PbKey>, audience: Text,
    nonce: seq<byte>, issuedAt: i64, inReplyToNonce: Option<seq<byte>>, bodyType: Text, body: seq<byte>)

  function CoveredMessage(m: SignedMessage): MessageFields
    requires MessageCert(m).Success?
  {
    var cert := MessageCert(m).value;
    MessageFields(cert.principalGenesis, cert.session, m.audience, m.nonce, m.issuedAt, m.inReplyToNonce,
                  m.bodyType, m.body)
  }

  /** The two inputs go to the same function and agree on every field it covers. */
  predicate SameCovered(i: Input, j: Input) {
    match (i, j)
    case (KeyChallenge(_, _, _), _) => i == j
    case (PrincipalRename(_, _, _), _) => i == j
    case (Delegation(d), Delegation(e)) => d.(signature := []) == e.(signature := [])
    case (Revocation(r), Revocation(s)) => r.(signature := []) == s.(signature := [])
    case (Rotation(r), Rotation(s)) => r.(signature := []) == s.(signature := [])
    case (SessionDelegation(c), SessionDelegation(d)) => c.(signature := []) == d.(signature := [])
    case (Message(m), Message(n)) =>
      MessageCert(m).Success? && MessageCert(n).Success? && CoveredMessage(m) == CoveredMessage(n)
    case (Document(d), Document(e)) =>
      d.(signature := [], signerRotations := []) == e.(signature := [], signerRotations := [])
    case (ApprovalOf(a), ApprovalOf(b)) => a.(signature := []) == b.(signature := [])
    case (PeerRevocationOf(p), PeerRevocationOf(q)) => p.(signature := []) == q.(signature := [])
    case (Attestation(a), Attestation(b)) => a.(signature := []) == b.(signature := [])
    case (RequestDigestOf(_), _) => i == j
    case (ClientRequestDigestOf(_), _) => i == j
    case _ => false
  }

  /** No transcript equals or starts another one, of the same or any other function, unless both cover the
    * same fields. */
  lemma TranscriptsArePrefixFree(i: Input, j: Input)
    requires TranscriptOf(i).Success? && TranscriptOf(j).Success?
    requires TranscriptOf(i).value <= TranscriptOf(j).value
    ensures TranscriptOf(i) == TranscriptOf(j)
    ensures SameCovered(i, j)
  {
    hide TagText, ItemsOf, KindOf, Layout, SameCovered, FitsAll;
    var v, w := ItemsOf(i).value, ItemsOf(j).value;
    var a, b := EncodeAll(v), EncodeAll(w);
    TagsSplit(KindOf(i), KindOf(j), a, b);
    ItemsFit(i);
    ItemsFit(j);
    var shapes := Layout(KindOf(i));
    var rest := b[|a|..];
    assert a + rest == b + [];
    DecodeEncodeAll(shapes, v, rest);
    DecodeEncodeAll(shapes, w, []);
    ItemsDetermine(i, j);
  }

  /** Conversely the covered fields determine the transcript. */
  lemma CoveredFieldsDetermineTranscript(i: Input, j: Input)
    requires SameCovered(i, j)
    ensures TranscriptOf(i) == TranscriptOf(j)
  {
    hide SameCovered, ItemsOf, Transcript;
    CoveredFieldsDetermineItems(i, j);
  }

  lemma CoveredFieldsDetermineItems(i: Input, j: Input)
    requires SameCovered(i, j)
    ensures KindOf(i) == KindOf(j) && ItemsOf(i) == ItemsOf(j)
  {
    hide CertItems, KeyDelegationItems, SignedMessageItems, ApprovalItems, DeliveryAttestationItems;
    match (i, j)
    case (Delegation(d), Delegation(e)) => DelegationCovered(d, e);
    case (SessionDelegation(c), SessionDelegation(d)) => CertCovered(c, d);
    case (Message(m), Message(n)) => MessageCovered(m, n);
    case (ApprovalOf(a), ApprovalOf(b)) => ApprovalCovered(a, b);
    case (Attestation(a), Attestation(b)) => AttestationCovered(a, b);
    case _ =>
  }

  lemma DelegationCovered(d: KeyDelegation, e: KeyDelegation)
    requires d.(signature := []) == e.(signature := [])
    ensures KeyDelegationItems(d) == KeyDelegationItems(e)
  {}

  lemma CertCovered(c: DelegationCert, d: DelegationCert)
    requires c.(signature := []) == d.(signature := [])
    ensures CertItems(c, Nil) == CertItems(d, Nil)
  {}

  lemma MessageCovered(m: SignedMessage, n: SignedMessage)
    requires MessageCert(m).Success? && MessageCert(n).Success? && CoveredMessage(m) == CoveredMessage(n)
    ensures SignedMessageItems(m) == SignedMessageItems(n)
  {}

  lemma ApprovalCovered(a: Approval, b: Approval)
    requires a.(signature := []) == b.(signature := [])
    ensures ApprovalItems(a) == ApprovalItems(b)
  {}

  lemma AttestationCovered(a: DeliveryAttestation, b: DeliveryAttestation)
    requires a.(signature := []) == b.(signature := [])
    ensures DeliveryAttestationItems(a) == DeliveryAttestationItems(b)
  {
    hide DeviceRows, MessageRows;
  }

  lemma ItemsDetermine(i: Input, j: Input)
    requires ItemsOf(i).Success? && ItemsOf(i) == ItemsOf(j) && KindOf(i) == KindOf(j)
    ensures SameCovered(i, j)
  {
    hide KeyDelegationItems, CertItems, SignedMessageItems, DeliveryAttestationItems, ApprovalItems,
         RequestDigestItems, ClientRequestDigestItems, SignedDocumentItems, PeerRevocationItems, KeyRevocationItems,
         RootRotationItems;
    match (i, j)
    case (Delegation(d), Delegation(e)) => DelegationDetermines(d, e);
    case (Revocation(r), Revocation(t)) => RevocationDetermines(r, t);
    case (Rotation(r), Rotation(t)) => RotationDetermines(r, t);
    case (SessionDelegation(c), SessionDelegation(d)) => CertDetermines(c, d, Nil, Nil);
    case (Message(m), Message(n)) => MessageDetermines(m, n);
    case (Document(d), Document(e)) => DocumentDetermines(d, e);
    case (Attestation(a), Attestation(b)) => AttestationDetermines(a, b);
    case (ApprovalOf(a), ApprovalOf(b)) => ApprovalDetermines(a, b);
    case (PeerRevocationOf(p), PeerRevocationOf(q)) => PeerRevocationDetermines(p, q);
    case (RequestDigestOf(a), RequestDigestOf(b)) => RequestDetermines(a, b);
    case (ClientRequestDigestOf(a), ClientRequestDigestOf(b)) => ClientRequestDetermines(a, b);
    case _ =>
  }

  lemma RevocationDetermines(r: KeyRevocation, s: KeyRevocation)
    requires KeyRevocationItems(r).Success? && KeyRevocationItems(r) == KeyRevocationItems(s)
    ensures r.(signature := []) == s.(signature := [])
  {}

  lemma RotationDetermines(r: RootRotation, s: RootRotation)
    requires RootRotationItems(r).Success? && RootRotationItems(r) == RootRotationItems(s)
    ensures r.(signature := []) == s.(signature := [])
  {}

  lemma DocumentDetermines(d: SignedDocument, e: SignedDocument)
    requires SignedDocumentItems(d).Success? && SignedDocumentItems(d) == SignedDocumentItems(e)
    ensures d.(signature := [], signerRotations := []) == e.(signature := [], signerRotations := [])
  {}

  lemma PeerRevocationDetermines(p: PeerRevocation, q: PeerRevocation)
    requires PeerRevocationItems(p).Success? && PeerRevocationItems(p) == PeerRevocationItems(q)
    ensures p.(signature := []) == q.(signature := [])
  {}

  lemma DelegationDetermines(d: KeyDelegation, e: KeyDelegation)
    requires KeyDelegationItems(d).Success? && KeyDelegationItems(d) == KeyDelegationItems(e)
    ensures d.(signature := []) == e.(signature := [])
  {}

  lemma CertDetermines(c: DelegationCert, d: DelegationCert, x: Items, y: Items)
    requires CertItems(c, x).Success? && CertItems(c, x) == CertItems(d, y)
    ensures c.(signature := []) == d.(signature := []) && x == y
  {}

  lemma MessageDetermines(m: SignedMessage, n: SignedMessage)
    requires SignedMessageItems(m).Success? && SignedMessageItems(m) == SignedMessageItems(n)
    ensures MessageCert(m).Success? && MessageCert(n).Success? && CoveredMessage(m) == CoveredMessage(n)
  {}

  lemma ApprovalDetermines(a: Approval, b: Approval)
    requires ApprovalItems(a).Success? && ApprovalItems(a) == ApprovalItems(b)
    ensures a.(signature := []) == b.(signature := [])
  {}

  lemma RequestDetermines(a: RequestDigestInput, b: RequestDigestInput)
    requires RequestDigestItems(a).Success? && RequestDigestItems(a) == RequestDigestItems(b)
    ensures a == b
  {}

  lemma ClientRequestDetermines(a: ClientRequestDigestInput, b: ClientRequestDigestInput)
    requires ClientRequestDigestItems(a).Success? && ClientRequestDigestItems(a) == ClientRequestDigestItems(b)
    ensures a == b
  {}

  lemma AttestationDetermines(a: DeliveryAttestation, b: DeliveryAttestation)
    requires DeliveryAttestationItems(a).Success? && DeliveryAttestationItems(a) == DeliveryAttestationItems(b)
    ensures a.(signature := []) == b.(signature := [])
  {
    hide DeviceRows, MessageRows;
    DevicesDetermine(a.recipientDevices, b.recipientDevices);
    MessagesDetermine(a.messages, b.messages);
  }

  lemma {:induction false} DevicesDetermine(a: seq<PbKey>, b: seq<PbKey>)
    requires DeviceRows(a).Success? && DeviceRows(a) == DeviceRows(b)
    ensures a == b
  {
    DeviceRowsFit(a);
    DeviceRowsFit(b);
    if a != [] {
      var n := |a| - 1;
      var x, y := DeviceRows(a[..n]).value, DeviceRows(b[..n]).value;
      assert DeviceRows(a).value[..n] == x && DeviceRows(b).value[..n] == y;
      assert DeviceRows(a).value[n] == DeviceRows(b).value[n];
      DevicesDetermine(a[..n], b[..n]);
      assert a == a[..n] + [a[n]] && b == b[..n] + [b[n]];
    }
  }

  lemma {:induction false} MessagesDetermine(a: seq<AttestedMessage>, b: seq<AttestedMessage>)
    requires MessageRows(a).Success? && MessageRows(a) == MessageRows(b)
    ensures a == b
  {
    hide MessageItems;
    MessageRowsFit(a);
    MessageRowsFit(b);
    if a != [] {
      var n := |a| - 1;
      var x, y := MessageRows(a[..n]).value, MessageRows(b[..n]).value;
      assert MessageRows(a).value[..n] == x && MessageRows(b).value[..n] == y;
      assert MessageRows(a).value[n] == MessageRows(b).value[n];
      MessagesDetermine(a[..n], b[..n]);
      AttestedMessageDetermines(a[n], b[n]);
      assert a == a[..n] + [a[n]] && b == b[..n] + [b[n]];
    }
  }

  lemma AttestedMessageDetermines(m: AttestedMessage, n: AttestedMessage)
    requires MessageItems(m).Success? && MessageItems(m) == MessageItems(n)
    ensures m == n
  {
    var c, d := m.delegationCert.value, n.delegationCert.value;
    CertDetermines(c, d, L1(Var(c.signature)), L1(Var(d.signature)));
  }
}
