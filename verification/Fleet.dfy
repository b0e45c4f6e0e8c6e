/** The smallest fleet: an authority and one daemon. It shows that registries are accepted and messages verified, so
  * that what is proved of all of them is proved of some. */
module Fleet {
  import opened Wrappers
  import opened Bytes
  import opened Primitives
  import opened Errors
  import opened Wire
  import opened Transcripts
  import opened Authority
  import opened Principal
  import opened Registry
  import opened RegistryFacts
  import opened Resolvers
  import opened Verify
  import opened VerifyFacts
  import opened Signer
  import opened AcceptedHistory

  function IdOf(duo: KeyDuo): PrincipalId { PrincipalId(duo.signing) }

  /** An entry with a current root only. */
  function PlainEntry(duo: KeyDuo, kind: PrincipalKind): RegistryEntry {
    var wire := PbKeyDuo(Some(ToPb(duo.signing)), Some(ToPb(duo.encryption)));
    RegistryEntry(Display(IdOf(duo)), KindToPb(kind), None, false, Some(wire), [], [], [], [])
  }

  function PlainVerified(duo: KeyDuo, kind: PrincipalKind): VerifiedEntry {
    VerifiedEntry(IdOf(duo), kind, None, false, Some(duo), [duo.signing], [], [], [], [])
  }

  function FleetRegistry(owner: KeyDuo, daemon: KeyDuo): PrincipalRegistry {
    PrincipalRegistry([PlainEntry(owner, Human), PlainEntry(daemon, Daemon)], true)
  }

  function FleetEntries(owner: KeyDuo, daemon: KeyDuo): map<PrincipalId, VerifiedEntry> {
    map[IdOf(owner) := PlainVerified(owner, Human), IdOf(daemon) := PlainVerified(daemon, Daemon)]
  }

  /** Four different keys and two different short ids. */
  predicate FleetKeys(owner: KeyDuo, daemon: KeyDuo) {
    && Distinct([owner.signing, owner.encryption, daemon.signing, daemon.encryption])
    && ShortId(IdOf(owner)) != ShortId(IdOf(daemon))
  }

  lemma PlainParses(duo: KeyDuo, kind: PrincipalKind)
    ensures ParseEntry(PlainEntry(duo, kind)) == Success(Parsed(IdOf(duo), Some(kind)))
    ensures NameOk(PlainEntry(duo, kind))
  {
    hide ParseCanonical, Display;
    CanonicalIsDisplay(Display(IdOf(duo)), IdOf(duo));
  }

  lemma PlainVerifies(duo: KeyDuo, kind: PrincipalKind, c: Context)
    requires duo.signing != duo.encryption && (kind == Daemon || kind == Human)
    requires if kind == Human then c.chain == GenesisChain(duo.signing) else IdOf(duo) != c.chain.Principal()
    ensures VerifyEntry(PlainEntry(duo, kind), IdOf(duo), kind, c) == Success(PlainVerified(duo, kind))
  {
    hide VerifyBinding, VerifyRevocation, VerifyHost, RotationStep, ParseKey, Display;
    assert KeyOf(Some(ToPb(duo.signing))) == Some(duo.signing);
    assert KeyOf(Some(ToPb(duo.encryption))) == Some(duo.encryption);
    assert ParseDuo(PlainEntry(duo, kind).currentRoot.value) == Some(duo);
    assert RotationRoots(duo.signing, []) == Success([duo.signing]);
    assert EntryRoots(PlainEntry(duo, kind), IdOf(duo), kind, c.chain) == Success(([duo.signing], Some(duo)));
  }

  lemma {:induction false} BagOfTwo<T, U>(f: T -> seq<U>, a: T, b: T)
    ensures Bag(f, [a, b]) == multiset(f(a)) + multiset(f(b))
  {
    assert [a, b] == [a] + [b];
    BagConcat(f, [a], [b]);
    BagOne(f, a);
    BagOne(f, b);
  }

  lemma FleetNeverRepeats(owner: KeyDuo, daemon: KeyDuo, c: Context)
    requires FleetKeys(owner, daemon)
    requires c.chain == GenesisChain(owner.signing)
    ensures var entries := FleetRegistry(owner, daemon).entries;
            && NoRepeat(Bag(ShortIdsIn(), entries)) && NoRepeat(Bag(NamesIn(), entries))
            && NoRepeat(Bag(KeysIn(c), entries))
  {
    hide ParseEntry, VerifyEntry, PlainEntry, Bag;
    var e, f := PlainEntry(owner, Human), PlainEntry(daemon, Daemon);
    FourKeys(owner, daemon);
    PlainKeys(owner, Human, c);
    PlainKeys(daemon, Daemon, c);
    BagOfTwo(ShortIdsIn(), e, f);
    BagOfTwo(NamesIn(), e, f);
    BagOfTwo(KeysIn(c), e, f);
  }

  /** The registry of the fleet is accepted. */
  lemma FleetAccepted(owner: KeyDuo, daemon: KeyDuo)
    requires FleetKeys(owner, daemon)
    ensures Accepts(FleetRegistry(owner, daemon), GenesisChain(owner.signing), FleetEntries(owner, daemon))
  {
    hide ParseEntry, VerifyEntry, NameOk, PlainEntry, Bag, NoRepeat, PlainVerified;
    var reg, chain := FleetRegistry(owner, daemon), GenesisChain(owner.signing);
    var c := ContextOf(reg, chain);
    var e, f := PlainEntry(owner, Human), PlainEntry(daemon, Daemon);
    FourKeys(owner, daemon);
    PlainParses(owner, Human);
    PlainParses(daemon, Daemon);
    PlainVerifies(owner, Human, c);
    PlainVerifies(daemon, Daemon, c);
    FleetNeverRepeats(owner, daemon, c);
    assert e in reg.entries && f in reg.entries;
    assert forall x <- reg.entries :: x == e || x == f;
  }

  lemma FourKeys(owner: KeyDuo, daemon: KeyDuo)
    requires FleetKeys(owner, daemon)
    ensures owner.signing != owner.encryption && owner.signing != daemon.signing && owner.signing != daemon.encryption
    ensures owner.encryption != daemon.signing && owner.encryption != daemon.encryption
    ensures daemon.signing != daemon.encryption
  {
    var s := [owner.signing, owner.encryption, daemon.signing, daemon.encryption];
    assert s[0] != s[1] && s[0] != s[2] && s[0] != s[3] && s[1] != s[2] && s[1] != s[3] && s[2] != s[3];
  }

  lemma PlainKeys(duo: KeyDuo, kind: PrincipalKind, c: Context)
    requires duo.signing != duo.encryption && (kind == Daemon || kind == Human)
    requires if kind == Human then c.chain == GenesisChain(duo.signing) else IdOf(duo) != c.chain.Principal()
    ensures EntryKeys(PlainEntry(duo, kind), c) == [duo.signing, duo.encryption]
    ensures EntryShortIds(PlainEntry(duo, kind)) == [ShortId(IdOf(duo))]
    ensures EntryNames(PlainEntry(duo, kind)) == []
  {
    hide ParseEntry, VerifyEntry;
    PlainParses(duo, kind);
    PlainVerifies(duo, kind, c);
    assert BindingsKeys([]) == [];
  }

  /** In this fleet the daemon's message is accepted at a time inside its windows. */
  lemma FleetMessageAccepted(owner: KeyDuo, daemon: KeyDuo, device: KeyDuo, key: PublicKey, documentId: Bytes32,
                             audience: Text, nonce: Bytes16, bodyType: Text, now: i64)
    requires FleetKeys(owner, daemon)
    requires Distinct([daemon.signing, device.signing, device.encryption])
    requires device.signing != key && 0 < now < I64_MAX - 3600
    requires audience != [] && bodyType != [] && |audience| < U32_LIMIT && |bodyType| < U32_LIMIT
    ensures var r := Resolver(IdOf(owner), 1, documentId, true, FleetEntries(owner, daemon), []);
            var d := DelegateDevice(daemon, IdOf(daemon), device, now, now + 3600);
            var session := MintSession(device.signing, daemon.signing, now, now + 3600, key);
            && Built(r, FleetRegistry(owner, daemon), GenesisChain(owner.signing))
            && d.Success? && session.Success?
            && var m := SignMessage(session.value, Some(d.value), audience, nonce, now, None, bodyType, []);
               m.Success? && VerifySignedMessage(m.value, audience, r, Live(now)).Success?
  {
    hide Accepts, DelegateDevice, MintSession, SignMessage, VerifySignedMessage;
    var r := Resolver(IdOf(owner), 1, documentId, true, FleetEntries(owner, daemon), []);
    FleetAccepted(owner, daemon);
    FourKeys(owner, daemon);
    var s := [daemon.signing, device.signing, device.encryption];
    assert s[0] != s[1] && s[0] != s[2] && s[1] != s[2];
    DelegateSucceeds(daemon, IdOf(daemon), device, now, now + 3600);
    MintSucceeds(device.signing, daemon.signing, now, now + 3600, key);
    var d := DelegateDevice(daemon, IdOf(daemon), device, now, now + 3600).value;
    var session := MintSession(device.signing, daemon.signing, now, now + 3600, key).value;
    MintedCert(device.signing, daemon.signing, now, now + 3600, key);
    SignSucceeds(session, Some(d), audience, nonce, now, None, bodyType, []);
    SignerMeetsVerifier(r, IdOf(daemon), daemon, device, now, now + 3600, now, now + 3600, key, audience, nonce, now,
                        None, bodyType, [], Live(now));
  }

  lemma MintedCert(device: PublicKey, genesis: PublicKey, notBefore: i64, notAfter: i64, key: PublicKey)
    requires MintSession(device, genesis, notBefore, notAfter, key).Success?
    ensures var cert := MintSession(device, genesis, notBefore, notAfter, key).value.cert;
            cert.principalGenesis == Some(ToPb(genesis)) && cert.session == Some(ToPb(key))
  {
    hide TranscriptOf;
  }
}
