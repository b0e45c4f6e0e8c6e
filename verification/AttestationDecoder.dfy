/** A decoder that recovers a whole delivery attestation from its transcript. */
module AttestationDecoder {
  import opened Wrappers
  import opened Bytes
  import opened Primitives
  import opened Errors
  import opened Wire
  import opened Encoding
  import opened Transcripts
  import opened PrefixCode

  /** Everything of an attestation but its signature, which the transcript does not cover. */
  function DecodeAttestation(bs: seq<byte>): Option<DeliveryAttestation> {
    var tag := Tag(DeliveryAttestationKind);
    if !(tag <= bs) then None
    else
      var (items, rest) :- DecodeAll(Layout(DeliveryAttestationKind), bs[|tag|..]);
      if rest != [] then None else AttestationOf(items)
  }

  function AttestationOf(items: Items): Option<DeliveryAttestation> {
    match items
    case Cons(Many(devices), Cons(Var(keyId), Cons(U64(batch), more))) =>
      (match more
       case Cons(I64(seconds), Cons(I32(nanos), Cons(Many(messages), Nil))) =>
         var recipientDevices :- DevicesOf(devices);
         var attested :- MessagesOf(messages);
         Some(DeliveryAttestation(keyId, batch, Some(Timestamp(seconds, nanos)), attested, [], recipientDevices))
       case _ => None)
    case _ => None
  }

  function DevicesOf(rows: seq<Items>): Option<seq<PbKey>> {
    if rows == [] then Some([])
    else
      var init :- DevicesOf(rows[..|rows| - 1]);
      match rows[|rows| - 1]
      case Cons(Key(k), Nil) => Some(init + [ToPb(k)])
      case _ => None
  }

  function MessagesOf(rows: seq<Items>): Option<seq<AttestedMessage>> {
    if rows == [] then Some([])
    else
      var init :- MessagesOf(rows[..|rows| - 1]);
      var last :- MessageOf(rows[|rows| - 1]);
      Some(init + [last])
  }

  function MessageOf(row: Items): Option<AttestedMessage> {
    match row
    case Cons(Var(messageId), Cons(Var(roomId), Cons(Key(author), Cons(Var(bodyText), rest)))) =>
      var cert :- CertOf(rest);
      Some(AttestedMessage(messageId, roomId, bodyText, Some(cert), Some(ToPb(author))))
    case _ => None
  }

  function CertOf(items: Items): Option<DelegationCert> {
    match items
    case Cons(U8(mode), Cons(Key(principal), Cons(hostItem, Cons(subjectItem, more)))) =>
      (match more
       case Cons(Key(device), Cons(Key(session), Cons(I64(notBefore), Cons(I64(notAfter), last)))) =>
         var host :- HostOf(hostItem);
         var subject :- SubjectOf(subjectItem);
         (match last
          case Cons(Var(signature), Nil) =>
            Some(DelegationCert(notBefore, notAfter, signature, Some(ToPb(principal)), mode, Some(ToPb(device)),
                                Some(ToPb(session)), host, subject))
          case _ => None)
       case _ => None)
    case _ => None
  }

  function HostOf(item: Item): Option<Option<PbKey>> {
    match item
    case Absent => Some(None)
    case Present(Cons(Key(k), Nil)) => Some(Some(ToPb(k)))
    case _ => None
  }

  function SubjectOf(item: Item): Option<Option<Text>> {
    match item
    case Absent => Some(None)
    case Present(Cons(Var(b), Nil)) => Some(Some(b))
    case _ => None
  }

  /** The decoder recovers the device list, key id, batch, time and every message with its certificate. */
  lemma AttestationRoundTrip(a: DeliveryAttestation)
    requires TranscriptOf(Attestation(a)).Success?
    ensures DecodeAttestation(TranscriptOf(Attestation(a)).value) == Some(a.(signature := []))
  {
    hide TagText, Layout, DeliveryAttestationItems, AttestationOf;
    var items := ItemsOf(Attestation(a)).value;
    var tag := Tag(DeliveryAttestationKind);
    var bs := Transcript(DeliveryAttestationKind, items);
    assert bs[|tag|..] == EncodeAll(items) == EncodeAll(items) + [];
    DeliveryAttestationFits(a);
    DecodeEncodeAll(Layout(DeliveryAttestationKind), items, []);
    ItemsRoundTrip(a);
  }

  lemma ItemsRoundTrip(a: DeliveryAttestation)
    requires DeliveryAttestationItems(a).Success?
    ensures AttestationOf(DeliveryAttestationItems(a).value) == Some(a.(signature := []))
  {
    hide DeviceRows, MessageRows, DevicesOf, MessagesOf;
    DevicesRoundTrip(a.recipientDevices);
    MessagesRoundTrip(a.messages);
  }

  lemma DevicesOfMore(rows: seq<Items>, k: PublicKey)
    requires DevicesOf(rows).Some?
    ensures DevicesOf(rows + [L1(Key(k))]) == Some(DevicesOf(rows).value + [ToPb(k)])
  {
    assert (rows + [L1(Key(k))])[..|rows|] == rows;
  }

  lemma {:induction false} DevicesRoundTrip(devices: seq<PbKey>)
    requires DeviceRows(devices).Success?
    ensures DevicesOf(DeviceRows(devices).value) == Some(devices)
  {
    hide ParseKey, DevicesOf;
    if devices == [] {
      assert DeviceRows(devices).value == [];
      NoDevices();
    } else {
      var n := |devices| - 1;
      var init, key := DeviceRows(devices[..n]).value, ParseKey(devices[n]).value;
      assert DeviceRows(devices).value == init + [L1(Key(key))];
      DevicesRoundTrip(devices[..n]);
      DevicesOfMore(init, key);
      assert devices == devices[..n] + [devices[n]];
    }
  }

  lemma NoDevices()
    ensures DevicesOf([]) == Some([])
  {}

  lemma {:induction false} MessagesRoundTrip(messages: seq<AttestedMessage>)
    requires MessageRows(messages).Success?
    ensures MessagesOf(MessageRows(messages).value) == Some(messages)
  {
    hide MessageItems, MessageOf, FitsAll;
    if messages != [] {
      var n := |messages| - 1;
      MessagesRoundTrip(messages[..n]);
      MessageRowsFit(messages);
      MessageRoundTrip(messages[n]);
      assert MessageRows(messages).value[..n] == MessageRows(messages[..n]).value;
      assert messages == messages[..n] + [messages[n]];
    }
  }

  lemma MessageRoundTrip(m: AttestedMessage)
    requires MessageItems(m).Success?
    ensures MessageOf(MessageItems(m).value) == Some(m)
  {
    hide CertItems, CertOf;
    CertRoundTrip(m.delegationCert.value);
  }

  lemma CertRoundTrip(c: DelegationCert)
    requires CertItems(c, L1(Var(c.signature))).Success?
    ensures CertOf(CertItems(c, L1(Var(c.signature))).value) == Some(c)
  {}

  /** A message carries its certificate as the bytes of the certificate's own transcript without the tag,
    * then the length-prefixed signature. */
  lemma EmbeddedCertBytes(m: AttestedMessage)
    requires MessageItems(m).Success?
    ensures m.delegationCert.Some? && TranscriptOf(SessionDelegation(m.delegationCert.value)).Success?
    ensures var c := m.delegationCert.value;
            var body := TranscriptOf(SessionDelegation(c)).value[|Tag(SessionDelegationKind)|..];
            EncodeAll(MessageItems(m).value)
            == VarBytes(m.messageId) + (VarBytes(m.roomId) + (KeyBytes(Req(m.authorGenesis, AuthorGenesis).value)
               + (VarBytes(m.bodyText) + (body + VarBytes(c.signature)))))
  {
    hide TagText, CertItems, ParseKey, EncodeAll, Encode;
    var c := m.delegationCert.value;
    CertAlone(c, L1(Var(c.signature)));
    var cert := CertItems(c, Nil).value;
    var last := L1(Var(c.signature));
    assert TranscriptOf(SessionDelegation(c)).value[|Tag(SessionDelegationKind)|..] == EncodeAll(cert);
    CertThen(c, last);
    EncodeConcat(cert, last);
    OneVar(c.signature);
    MessageBytes(m.messageId, m.roomId, Req(m.authorGenesis, AuthorGenesis).value, m.bodyText, Concat(cert, last));
  }

  /** What follows a certificate does not decide whether it encodes. */
  lemma CertAlone(c: DelegationCert, rest: Items)
    ensures CertItems(c, rest).Success? == CertItems(c, Nil).Success?
  {
    hide ParseKey;
  }

  lemma OneVar(b: seq<byte>)
    requires |b| < U32_LIMIT
    ensures EncodeAll(L1(Var(b))) == VarBytes(b)
  {
    assert EncodeAll(Nil) == [];
    assert EncodeAll(L1(Var(b))) == VarBytes(b) + [];
  }

  lemma MessageBytes(messageId: Text, roomId: Text, author: PublicKey, bodyText: Text, rest: Items)
    requires |messageId| < U32_LIMIT && |roomId| < U32_LIMIT && |bodyText| < U32_LIMIT
    ensures EncodeAll(L4Then(Var(messageId), Var(roomId), Key(author), Var(bodyText), rest))
            == VarBytes(messageId) + (VarBytes(roomId) + (KeyBytes(author) + (VarBytes(bodyText) + EncodeAll(rest))))
  {
    UnfoldEncode();
  }

  function Concat(xs: Items, ys: Items): Items {
    match xs
    case Nil => ys
    case Cons(x, rest) => Cons(x, Concat(rest, ys))
  }

  lemma {:induction false} EncodeConcat(xs: Items, ys: Items)
    ensures EncodeAll(Concat(xs, ys)) == EncodeAll(xs) + EncodeAll(ys)
  {
    match xs
    case Nil => assert EncodeAll(xs) + EncodeAll(ys) == EncodeAll(ys);
    case Cons(x, rest) =>
      EncodeConcat(rest, ys);
      Assoc(Encode(x), EncodeAll(rest), EncodeAll(ys));
  }

  lemma CertThen(c: DelegationCert, rest: Items)
    requires CertItems(c, Nil).Success?
    ensures CertItems(c, rest) == Success(Concat(CertItems(c, Nil).value, rest))
  {
    hide ParseKey;
    var cert := CertItems(c, Nil).value;
    var half := cert.tail.tail.tail.tail;
    assert Concat(half, rest) == Cons(half.head, Concat(half.tail, rest));
    var last := half.tail.tail.tail;
    assert Concat(last, rest) == Cons(last.head, Concat(last.tail, rest)) == Cons(last.head, rest);
    assert Concat(half.tail.tail, rest)
        == Cons(half.tail.tail.head, Cons(half.tail.tail.tail.head, rest));
    assert Concat(cert.tail.tail, rest)
        == Cons(cert.tail.tail.head, Cons(cert.tail.tail.tail.head, Concat(half, rest)));
  }
}
