/** The encoder as the crate runs it: one append-only byte buffer, driven field by field. Every transcript
  * method is proved to return exactly what `TranscriptOf` says, errors included. */
module Encoder {
  import opened Wrappers
  import opened Bytes
  import opened Primitives
  import opened Errors
  import opened Wire
  import opened Encoding
  import opened Transcripts

  class Enc {
    var buf: seq<byte>

    constructor (k: Kind)
      ensures buf == Tag(k)
    {
      buf := Ascii(TagText(k)) + [0];
    }

    method Push(b: byte)
      modifies this
      ensures buf == old(buf) + [b]
    {
      buf := buf + [b];
    }

    method Extend(x: seq<byte>)
      modifies this
      ensures buf == old(buf) + x
    {
      buf := buf + x;
    }

    method Var(x: seq<byte>) returns (o: Outcome<Error>)
      modifies this
      ensures VarItem(x).Success? ==> o.Pass? && buf == old(buf) + Encode(VarItem(x).value)
      ensures VarItem(x).Failure? ==> o == Fail(VarItem(x).error)
    {
      if |x| >= U32_LIMIT {
        return Fail(InvalidField(Length));
      }
      Extend(U32Bytes(|x|));
      Extend(x);
      assert buf == old(buf) + VarBytes(x);
      return Pass;
    }

    /** A key is always 65 bytes, so its length prefix never fails. */
    method Key(k: PublicKey)
      modifies this
      ensures buf == old(buf) + Encode(Item.Key(k))
    {
      Push(P256);
      var written := Var(k);
      assert buf == old(buf) + KeyBytes(k);
    }

    method Absent()
      modifies this
      ensures buf == old(buf) + Encode(Item.Absent)
    {
      Push(0);
    }

    method Present()
      modifies this
      ensures buf == old(buf) + [1]
    {
      Push(1);
    }

    method OptKey(k: Option<PublicKey>)
      modifies this
      ensures buf == old(buf) + Encode(OptKeyItem(k))
    {
      match k
      case Some(key) =>
        Present();
        Key(key);
        PresentOne(old(buf), Item.Key(key));
      case None =>
        Absent();
    }

    method OptVar(x: Option<seq<byte>>) returns (o: Outcome<Error>)
      modifies this
      ensures OptVarItem(x).Success? ==> o.Pass? && buf == old(buf) + Encode(OptVarItem(x).value)
      ensures OptVarItem(x).Failure? ==> o == Fail(OptVarItem(x).error)
    {
      match x
      case Some(b) =>
        Present();
        o := Var(b);
        PresentOne(old(buf), Item.Var(b));
      case None =>
        Absent();
        o := Pass;
    }

    method OptFixed(field: Field, x: Option<seq<byte>>, n: nat) returns (o: Outcome<Error>)
      modifies this
      ensures OptFixedItem(field, x, n).Success? ==>
                o.Pass? && buf == old(buf) + Encode(OptFixedItem(field, x, n).value)
      ensures OptFixedItem(field, x, n).Failure? ==> o == Fail(OptFixedItem(field, x, n).error)
    {
      match x
      case Some(b) =>
        Present();
        o := Fixed(field, b, n);
        PresentOne(old(buf), Item.Fixed(b));
      case None =>
        Absent();
        o := Pass;
    }

    method U8(field: Field, v: int) returns (o: Outcome<Error>)
      modifies this
      ensures U8Item(field, v).Success? ==> o.Pass? && buf == old(buf) + Encode(U8Item(field, v).value)
      ensures U8Item(field, v).Failure? ==> o == Fail(U8Item(field, v).error)
    {
      if !(0 <= v < 256) {
        return Fail(ScalarOutOfRange(field, v));
      }
      Push(v);
      return Pass;
    }

    method I64(v: i64)
      modifies this
      ensures buf == old(buf) + Encode(Item.I64(v))
    {
      Extend(I64Bytes(v));
    }

    method I32(v: i32)
      modifies this
      ensures buf == old(buf) + Encode(Item.I32(v))
    {
      Extend(I32Bytes(v));
    }

    method U64(v: u64)
      modifies this
      ensures buf == old(buf) + Encode(Item.U64(v))
    {
      Extend(U64Bytes(v));
    }

    /** A list length. */
    method U32(field: Field, n: nat) returns (o: Outcome<Error>)
      modifies this
      ensures n < U32_LIMIT ==> o.Pass? && buf == old(buf) + U32Bytes(n)
      ensures n >= U32_LIMIT ==> o == Fail(InvalidField(field))
    {
      if n >= U32_LIMIT {
        return Fail(InvalidField(field));
      }
      Extend(U32Bytes(n));
      return Pass;
    }

    method Fixed(field: Field, x: seq<byte>, n: nat) returns (o: Outcome<Error>)
      modifies this
      ensures FixedItem(field, x, n).Success? ==> o.Pass? && buf == old(buf) + Encode(FixedItem(field, x, n).value)
      ensures FixedItem(field, x, n).Failure? ==> o == Fail(FixedItem(field, x, n).error)
    {
      if |x| != n {
        return Fail(BadLength(field, n, |x|));
      }
      Extend(x);
      return Pass;
    }

    /** `encode_cert_body`; `rest` is what the caller writes next. */
    method CertBody(c: DelegationCert, ghost rest: Items) returns (o: Outcome<Error>)
      modifies this
      ensures CertItems(c, rest).Success? ==>
                o.Pass? && EncodeOnto(buf, rest) == EncodeOnto(old(buf), CertItems(c, rest).value)
      ensures CertItems(c, rest).Failure? ==> o == Fail(CertItems(c, rest).error)
    {
      o := Pass;
      if c.mode > 1 { return Fail(InvalidField(Mode)); }
      var principal := Req(c.principalGenesis, PrincipalGenesis);
      if principal.Failure? { return Fail(principal.error); }
      var vouched := CertHost(c);
      if vouched.Failure? { return Fail(vouched.error); }
      var device := Req(c.device, Device);
      if device.Failure? { return Fail(device.error); }
      var session := Req(c.session, Session);
      if session.Failure? { return Fail(session.error); }
      if device.value == session.value { return Fail(NotDistinct); }
      o := U8(Mode, c.mode);
      Key(principal.value);
      OptKey(vouched.value.0);
      o := OptVar(vouched.value.1);
      if o.Fail? { return; }
      Key(device.value);
      Key(session.value);
      I64(c.notBefore);
      I64(c.notAfter);
      UnfoldOnto();
    }
  }

  /** `EncodeAll` written after `buf`, in the order the encoder appends. */
  function EncodeOnto(buf: seq<byte>, items: Items): seq<byte>
    decreases items
  {
    match items
    case Nil => buf
    case Cons(v, rest) => EncodeOnto(buf + Encode(v), rest)
  }

  lemma {:induction false} OntoAppends(buf: seq<byte>, items: Items)
    ensures EncodeOnto(buf, items) == buf + EncodeAll(items)
    decreases items
  {
    match items
    case Nil => assert buf + [] == buf;
    case Cons(v, rest) =>
      OntoAppends(buf + Encode(v), rest);
      Assoc(buf, Encode(v), EncodeAll(rest));
  }

  lemma UnfoldOnto()
    ensures forall b, v, vs {:trigger EncodeOnto(b, Cons(v, vs))} ::
              EncodeOnto(b, Cons(v, vs)) == EncodeOnto(b + Encode(v), vs)
  {}

  lemma PresentOne(buf: seq<byte>, v: Item)
    ensures (buf + [1]) + Encode(v) == buf + Encode(Item.Present(L1(v)))
  {
    assert EncodeAll(L1(v)) == Encode(v) + EncodeAll(Nil) == Encode(v);
  }

  /** What a finished buffer holds when its items were appended one after the other. */
  lemma Finished(k: Kind, items: Items)
    ensures EncodeOnto(Tag(k), items) == Transcript(k, items)
    ensures forall b, v, vs {:trigger EncodeOnto(b, Cons(v, vs))} ::
              EncodeOnto(b, Cons(v, vs)) == EncodeOnto(b + Encode(v), vs)
  {
    OntoAppends(Tag(k), items);
  }

  method KeyChallengeTranscript(audience: Text, nonce: seq<byte>, new_: PublicKey) returns (r: Result<seq<byte>, Error>)
    ensures r == TranscriptOf(KeyChallenge(audience, nonce, new_))
  {
    hide TagText;
    :- NonEmpty(Audience, audience);
    :- NonEmpty(Nonce, nonce);
    var e := new Enc(KeyChallengeKind);
    :- e.Var(audience);
    :- e.Var(nonce);
    e.Key(new_);
    Finished(KeyChallengeKind, KeyChallengeItems(audience, nonce, new_).value);
    return Success(e.buf);
  }

  method PrincipalRenameTranscript(nonce: seq<byte>, principal: PrincipalId, newName: Text)
    returns (r: Result<seq<byte>, Error>)
    ensures r == TranscriptOf(PrincipalRename(nonce, principal, newName))
  {
    hide TagText;
    :- NonEmpty(Nonce, nonce);
    :- NonEmpty(NewName, newName);
    var e := new Enc(PrincipalRenameKind);
    :- e.Var(nonce);
    e.Key(principal.genesis);
    :- e.Var(newName);
    Finished(PrincipalRenameKind, PrincipalRenameItems(nonce, principal, newName).value);
    return Success(e.buf);
  }

  method KeyDelegationTranscript(d: KeyDelegation) returns (r: Result<seq<byte>, Error>)
    ensures r == TranscriptOf(Delegation(d))
  {
    hide TagText;
    var principal :- Req(d.principalGenesis, PrincipalGenesis);
    var root :- Req(d.signingRoot, SigningRoot);
    if d.purpose != PURPOSE_DEVICE && d.purpose != PURPOSE_APPROVAL {
      return Failure(InvalidField(Purpose));
    }
    var delegated :- Req(d.delegated, Delegated);
    if d.purpose == PURPOSE_DEVICE && d.delegatedEncryption.None? {
      return Failure(MissingField(DelegatedEncryption));
    }
    if d.purpose == PURPOSE_APPROVAL && d.delegatedEncryption.Some? {
      return Failure(InvalidField(DelegatedEncryption));
    }
    var encryption :- OptKey(d.delegatedEncryption);
    var clash := match encryption { case Some(k) => k == root || k == delegated case None => false };
    if root == delegated || clash {
      return Failure(NotDistinct);
    }
    var e := new Enc(KeyDelegationKind);
    e.Key(principal);
    e.Key(root);
    var written := e.U8(Purpose, d.purpose);
    assert written.Pass?;
    e.Key(delegated);
    e.OptKey(encryption);
    e.I64(d.issuedAt);
    e.I64(d.notAfter);
    Finished(KeyDelegationKind, KeyDelegationItems(d).value);
    return Success(e.buf);
  }

  method KeyRevocationTranscript(v: KeyRevocation) returns (r: Result<seq<byte>, Error>)
    ensures r == TranscriptOf(Revocation(v))
  {
    hide TagText;
    var principal :- Req(v.principalGenesis, PrincipalGenesis);
    var revoked :- Req(v.revoked, Revoked);
    var revokedBy :- Req(v.revokedBy, RevokedBy);
    var e := new Enc(KeyRevocationKind);
    e.Key(principal);
    e.Key(revoked);
    e.Key(revokedBy);
    e.I64(v.revokedAt);
    Finished(KeyRevocationKind, KeyRevocationItems(v).value);
    return Success(e.buf);
  }

  method RootRotationTranscript(v: RootRotation) returns (r: Result<seq<byte>, Error>)
    ensures r == TranscriptOf(Rotation(v))
  {
    hide TagText;
    var principal :- Req(v.principalGenesis, PrincipalGenesis);
    var oldRoot :- Req(v.oldRoot, OldRoot);
    var newRoot :- Req(v.newRoot, NewRoot);
    if oldRoot == newRoot {
      return Failure(NotDistinct);
    }
    var e := new Enc(RootRotationKind);
    e.Key(principal);
    e.Key(oldRoot);
    e.Key(newRoot);
    e.I64(v.issuedAt);
    Finished(RootRotationKind, RootRotationItems(v).value);
    return Success(e.buf);
  }

  method SessionDelegationTranscript(c: DelegationCert) returns (r: Result<seq<byte>, Error>)
    ensures r == TranscriptOf(SessionDelegation(c))
  {
    hide TagText;
    var e := new Enc(SessionDelegationKind);
    :- e.CertBody(c, Nil);
    Finished(SessionDelegationKind, CertItems(c, Nil).value);
    return Success(e.buf);
  }

  method SignedMessageTranscript(m: SignedMessage) returns (r: Result<seq<byte>, Error>)
    ensures r == TranscriptOf(Message(m))
  {
    hide TagText;
    var cert :- MessageCert(m);
    var principal :- Req(cert.principalGenesis, PrincipalGenesis);
    var session :- Req(cert.session, Session);
    :- NonEmpty(Audience, m.audience);
    :- NonEmpty(BodyType, m.bodyType);
    var e := new Enc(SignedMessageKind);
    e.Key(principal);
    e.Key(session);
    :- e.Var(m.audience);
    :- e.Fixed(Nonce, m.nonce, 16);
    e.I64(m.issuedAt);
    :- e.OptFixed(InReplyToNonce, m.inReplyToNonce, 16);
    :- e.Var(m.bodyType);
    :- e.Var(m.body);
    Finished(SignedMessageKind, SignedMessageItems(m).value);
    return Success(e.buf);
  }

  method SignedDocumentTranscript(d: SignedDocument) returns (r: Result<seq<byte>, Error>)
    ensures r == TranscriptOf(Document(d))
  {
    hide TagText;
    var signer :- Req(d.signerGenesis, SignerGenesis);
    var signing :- Req(d.signing, Signing);
    :- NonEmpty(DocumentType, d.documentType);
    var e := new Enc(SignedDocumentKind);
    e.Key(signer);
    e.Key(signing);
    :- e.Var(d.documentType);
    e.U64(d.version);
    e.I64(d.issuedAt);
    e.I64(d.expiresAt);
    :- e.Var(d.body);
    Finished(SignedDocumentKind, SignedDocumentItems(d).value);
    return Success(e.buf);
  }

  method ApprovalTranscript(a: Approval) returns (r: Result<seq<byte>, Error>)
    ensures r == TranscriptOf(ApprovalOf(a))
  {
    hide TagText;
    var principal :- Req(a.principalGenesis, PrincipalGenesis);
    var approvalKey :- Req(a.approvalKey, ApprovalKey);
    var device :- Req(a.device, Device);
    if approvalKey == device {
      return Failure(NotDistinct);
    }
    :- NonEmpty(Audience, a.audience);
    var e := new Enc(ApprovalKind);
    e.Key(principal);
    e.Key(approvalKey);
    e.Key(device);
    :- e.Var(a.audience);
    :- e.Var(a.requestId);
    :- e.Fixed(RequestDigest, a.requestDigest, 32);
    var written := e.U8(Accept, if a.accept then 1 else 0);
    assert written.Pass?;
    e.I64(a.issuedAt);
    Finished(ApprovalKind, ApprovalItems(a).value);
    return Success(e.buf);
  }

  method PeerRevocationTranscript(p: PeerRevocation) returns (r: Result<seq<byte>, Error>)
    ensures r == TranscriptOf(PeerRevocationOf(p))
  {
    hide TagText;
    var revoker :- Req(p.revokerGenesis, RevokerGenesis);
    var approvalKey :- Req(p.approvalKey, ApprovalKey);
    var target :- Req(p.targetGenesis, TargetGenesis);
    var revoked :- OptKey(p.revoked);
    var e := new Enc(PeerRevocationKind);
    e.Key(revoker);
    e.Key(approvalKey);
    e.Key(target);
    e.OptKey(revoked);
    e.I64(p.issuedAt);
    :- e.Fixed(DocumentId, p.documentId, 32);
    Finished(PeerRevocationKind, PeerRevocationItems(p).value);
    return Success(e.buf);
  }

  method RequestDigestTranscript(i: RequestDigestInput) returns (r: Result<seq<byte>, Error>)
    ensures r == TranscriptOf(RequestDigestOf(i))
  {
    hide TagText;
    if i.subject == Some([]) {
      return Failure(InvalidField(Subject));
    }
    :- NonEmpty(InstanceId, i.instanceId);
    :- NonEmpty(ActionId, i.actionId);
    :- NonEmpty(RequestId, i.requestId);
    var e := new Enc(RequestDigestKind);
    e.Key(i.requester.genesis);
    e.Key(i.host.genesis);
    :- e.OptVar(i.subject);
    :- e.Var(i.instanceId);
    :- e.Var(i.actionId);
    :- e.Var(i.parameters);
    :- e.Var(i.requestId);
    e.Key(i.target.genesis);
    Finished(RequestDigestKind, RequestDigestItems(i).value);
    return Success(e.buf);
  }

  method ClientRequestDigestTranscript(i: ClientRequestDigestInput) returns (r: Result<seq<byte>, Error>)
    ensures r == TranscriptOf(ClientRequestDigestOf(i))
  {
    hide TagText;
    if i.resource.Some? {
      :- NonEmpty(ResourceKind, i.resource.value.kind);
      :- NonEmpty(ResourceId, i.resource.value.id);
    }
    :- NonEmpty(MessageKind, i.messageKind);
    :- NonEmpty(RequestId, i.requestId);
    var e := new Enc(ClientRequestDigestKind);
    e.Key(i.requester.genesis);
    e.OptKey(OptGenesis(i.host));
    if i.resource.Some? {
      ghost var before := e.buf;
      e.Present();
      :- e.Var(i.resource.value.kind);
      :- e.Var(i.resource.value.id);
      PresentTwo(before, Var(i.resource.value.kind), Var(i.resource.value.id));
    } else {
      e.Absent();
    }
    :- e.Var(i.messageKind);
    :- e.Var(i.body);
    :- e.Var(i.requestId);
    e.Key(i.target.genesis);
    Finished(ClientRequestDigestKind, ClientRequestDigestItems(i).value);
    return Success(e.buf);
  }

  method DeliveryAttestationTranscript(a: DeliveryAttestation) returns (r: Result<seq<byte>, Error>)
    ensures r == TranscriptOf(Attestation(a))
  {
    hide TagText, DeviceRows, MessageRows, U32Bytes, U64Bytes, I64Bytes, I32Bytes, VarBytes, EncodeRows, ParseKey;
    var e := new Enc(DeliveryAttestationKind);
    :- e.U32(RecipientDevices, |a.recipientDevices|);
    var devices := Devices(e, a.recipientDevices);
    :- devices;
    :- e.Var(a.keyId);
    e.U64(a.batchSequence);
    var at :- OkOr(a.attestedAt, MissingField(AttestedAt));
    if !(0 <= at.nanos <= 999_999_999) {
      return Failure(InvalidField(Nanos));
    }
    e.I64(at.seconds);
    e.I32(at.nanos);
    ghost var before := e.buf;
    :- e.U32(Messages, |a.messages|);
    var messages := AttestedMessages(e, a.messages);
    :- messages;
    ghost var d, m := DeviceRows(a.recipientDevices).value, MessageRows(a.messages).value;
    Assoc(Tag(DeliveryAttestationKind), U32Bytes(|d|), EncodeRows(d));
    Assoc(before, U32Bytes(|m|), EncodeRows(m));
    Finished(DeliveryAttestationKind, DeliveryAttestationItems(a).value);
    return Success(e.buf);
  }

  method Devices(e: Enc, devices: seq<PbKey>) returns (o: Outcome<Error>)
    modifies e
    ensures DeviceRows(devices).Success? ==>
              o.Pass? && |DeviceRows(devices).value| == |devices|
              && e.buf == old(e.buf) + EncodeRows(DeviceRows(devices).value)
    ensures DeviceRows(devices).Failure? ==> o == Fail(DeviceRows(devices).error)
  {
    assert devices[..|devices|] == devices;
    for n := 0 to |devices|
      invariant DeviceRows(devices[..n]).Success?
      invariant |DeviceRows(devices[..n]).value| == n
      invariant e.buf == old(e.buf) + EncodeRows(DeviceRows(devices[..n]).value)
    {
      DeviceRowsStep(devices, n);
      var key := ParseKey(devices[n]);
      if key.Failure? {
        return Fail(key.error);
      }
      e.Key(key.value);
      RowAppended(old(e.buf), DeviceRows(devices[..n]).value, L1(Key(key.value)));
    }
    o := Pass;
  }

  method AttestedMessages(e: Enc, messages: seq<AttestedMessage>) returns (o: Outcome<Error>)
    modifies e
    ensures MessageRows(messages).Success? ==>
              o.Pass? && |MessageRows(messages).value| == |messages|
              && e.buf == old(e.buf) + EncodeRows(MessageRows(messages).value)
    ensures MessageRows(messages).Failure? ==> o == Fail(MessageRows(messages).error)
  {
    assert messages[..|messages|] == messages;
    for n := 0 to |messages|
      invariant MessageRows(messages[..n]).Success?
      invariant |MessageRows(messages[..n]).value| == n
      invariant e.buf == old(e.buf) + EncodeRows(MessageRows(messages[..n]).value)
    {
      MessageRowsStep(messages, n);
      o := MessageRow(e, messages[n]);
      if o.Fail? {
        return;
      }
      RowAppended(old(e.buf), MessageRows(messages[..n]).value, MessageItems(messages[n]).value);
    }
    o := Pass;
  }

  method MessageRow(e: Enc, m: AttestedMessage) returns (o: Outcome<Error>)
    modifies e
    ensures MessageItems(m).Success? ==> o.Pass? && e.buf == old(e.buf) + EncodeAll(MessageItems(m).value)
    ensures MessageItems(m).Failure? ==> o == Fail(MessageItems(m).error)
  {
    o := e.Var(m.messageId);
    if o.Fail? { return; }
    o := e.Var(m.roomId);
    if o.Fail? { return; }
    var author := Req(m.authorGenesis, AuthorGenesis);
    if author.Failure? { return Fail(author.error); }
    if m.delegationCert.None? { return Fail(MissingField(DelegationCertField)); }
    var cert := m.delegationCert.value;
    e.Key(author.value);
    o := e.Var(m.bodyText);
    if o.Fail? { return; }
    ghost var signature := L1(Var(cert.signature));
    o := e.CertBody(cert, signature);
    if o.Fail? { return; }
    o := e.Var(cert.signature);
    if o.Fail? { return; }
    OntoAppends(old(e.buf), MessageItems(m).value);
    UnfoldOnto();
  }

  lemma DeviceRowsMore(init: seq<PbKey>, k: PbKey)
    ensures DeviceRows(init).Failure? ==> DeviceRows(init + [k]) == Failure(DeviceRows(init).error)
    ensures DeviceRows(init).Success? && ParseKey(k).Failure? ==> DeviceRows(init + [k]) == Failure(ParseKey(k).error)
    ensures DeviceRows(init).Success? && ParseKey(k).Success? ==>
              DeviceRows(init + [k]) == Success(DeviceRows(init).value + [L1(Key(ParseKey(k).value))])
  {
    hide ParseKey;
    var all := init + [k];
    assert all[..|all| - 1] == init && all[|all| - 1] == k;
  }

  lemma DeviceRowsStep(devices: seq<PbKey>, n: nat)
    requires n < |devices| && DeviceRows(devices[..n]).Success?
    ensures ParseKey(devices[n]).Success? ==>
              DeviceRows(devices[..n + 1])
              == Success(DeviceRows(devices[..n]).value + [L1(Key(ParseKey(devices[n]).value))])
    ensures ParseKey(devices[n]).Failure? ==> DeviceRows(devices) == Failure(ParseKey(devices[n]).error)
  {
    hide ParseKey, DeviceRows;
    assert devices[..n + 1] == devices[..n] + [devices[n]];
    DeviceRowsMore(devices[..n], devices[n]);
    if ParseKey(devices[n]).Failure? {
      DeviceRowsFailure(devices, n + 1);
    }
  }

  lemma {:induction false} DeviceRowsFailure(devices: seq<PbKey>, n: nat)
    requires n <= |devices| && DeviceRows(devices[..n]).Failure?
    ensures DeviceRows(devices) == Failure(DeviceRows(devices[..n]).error)
  {
    hide ParseKey, DeviceRows;
    if n < |devices| {
      var m := |devices| - 1;
      assert devices[..m][..n] == devices[..n] && devices == devices[..m] + [devices[m]];
      DeviceRowsFailure(devices[..m], n);
      DeviceRowsMore(devices[..m], devices[m]);
    } else {
      assert devices[..n] == devices;
    }
  }

  lemma MessageRowsStep(messages: seq<AttestedMessage>, n: nat)
    requires n < |messages| && MessageRows(messages[..n]).Success?
    ensures MessageItems(messages[n]).Success? ==>
              MessageRows(messages[..n + 1])
              == Success(MessageRows(messages[..n]).value + [MessageItems(messages[n]).value])
    ensures MessageItems(messages[n]).Failure? ==> MessageRows(messages) == Failure(MessageItems(messages[n]).error)
  {
    hide MessageItems;
    assert messages[..n + 1][..n] == messages[..n];
    if MessageItems(messages[n]).Failure? {
      MessageRowsFailure(messages, n + 1);
    }
  }

  lemma {:induction false} MessageRowsFailure(messages: seq<AttestedMessage>, n: nat)
    requires n <= |messages| && MessageRows(messages[..n]).Failure?
    ensures MessageRows(messages) == Failure(MessageRows(messages[..n]).error)
  {
    hide MessageItems;
    if n < |messages| {
      assert messages[..|messages| - 1][..n] == messages[..n];
      MessageRowsFailure(messages[..|messages| - 1], n);
    } else {
      assert messages[..n] == messages;
    }
  }

  lemma RowAppended(buf: seq<byte>, rows: seq<Items>, row: Items)
    ensures (buf + EncodeRows(rows)) + EncodeAll(row) == buf + EncodeRows(rows + [row])
  {
    assert (rows + [row])[..|rows|] == rows;
    Assoc(buf, EncodeRows(rows), EncodeAll(row));
  }

  lemma PresentTwo(buf: seq<byte>, v: Item, w: Item)
    ensures ((buf + [1]) + Encode(v)) + Encode(w) == buf + Encode(Item.Present(L2(v, w)))
  {
    assert EncodeAll(L1(w)) == Encode(w) + EncodeAll(Nil) == Encode(w);
  }
}
