/** `check_registry` as it runs: loops that grow sets of short ids, names and keys. They are proved to decide
  * the order-free `RegistryOk` and to build the entries it describes. */
module RegistryChecker {
  import opened Wrappers
  import opened Bytes
  import opened Primitives
  import opened Errors
  import opened Wire
  import opened Transcripts
  import opened Authority
  import opened Principal
  import opened Registry
  import opened RegistryFacts

  /** `values` can all be added to `taken`, one after the other, without meeting a value already there. */
  predicate Fresh<T(==)>(values: seq<T>, taken: set<T>) {
    Distinct(values) && forall v <- values :: v !in taken
  }

  function SetOf<T>(s: seq<T>): set<T> { set v | v in s }

  lemma NothingFresh<T>(taken: set<T>)
    ensures Fresh([], taken) && taken + SetOf([]) == taken
  {}

  /** Adding `s` and then `t` is adding `s + t`. */
  lemma FreshConcat<T>(s: seq<T>, t: seq<T>, taken: set<T>)
    ensures Fresh(s + t, taken) <==> Fresh(s, taken) && Fresh(t, taken + SetOf(s))
    ensures SetOf(s + t) == SetOf(s) + SetOf(t)
  {
    if Fresh(s + t, taken) {
      assert forall i | 0 <= i < |s| :: (s + t)[i] == s[i];
      assert forall j | 0 <= j < |t| :: (s + t)[|s| + j] == t[j];
      assert forall v <- s :: v in s + t;
      assert forall v <- t :: v in s + t;
      forall i, j | 0 <= i < |s| && 0 <= j < |t|
        ensures s[i] != t[j]
      {
        assert (s + t)[i] != (s + t)[|s| + j];
      }
    } else if Fresh(s, taken) && Fresh(t, taken + SetOf(s)) {
      forall i, j | 0 <= i < j < |s + t|
        ensures (s + t)[i] != (s + t)[j]
      {
        assert i < |s| ==> (s + t)[i] in s;
        assert j >= |s| ==> (s + t)[j] in t;
        assert i >= |s| ==> (s + t)[i] == t[i - |s|] && (s + t)[j] == t[j - |s|];
      }
    }
  }

  class KeySet {
    var keys: set<PublicKey>

    constructor ()
      ensures keys == {}
    {
      keys := {};
    }

    method Add(k: PublicKey) returns (o: Outcome<Error>)
      modifies this
      ensures o.Pass? <==> Fresh([k], old(keys))
      ensures o.Pass? ==> keys == old(keys) + SetOf([k])
      ensures o.Fail? ==> keys == old(keys) && o.error == Bad(Entries)
    {
      if k in keys {
        return Fail(Bad(Entries));
      }
      keys := keys + {k};
      return Pass;
    }

    method AddRoots(roots: seq<PublicKey>) returns (o: Outcome<Error>)
      modifies this
      ensures o.Pass? <==> Fresh(roots, old(keys))
      ensures o.Pass? ==> keys == old(keys) + SetOf(roots)
      ensures o.Fail? ==> o.error == Bad(Entries)
    {
      hide Fresh, SetOf;
      NothingFresh(keys);
      for n := 0 to |roots|
        invariant Fresh(roots[..n], old(keys))
        invariant keys == old(keys) + SetOf(roots[..n])
      {
        FreshConcat(roots[..n], [roots[n]], old(keys));
        assert roots[..n + 1] == roots[..n] + [roots[n]];
        o := Add(roots[n]);
        if o.Fail? {
          FreshConcat(roots[..n + 1], roots[n + 1..], old(keys));
          assert roots[..n + 1] + roots[n + 1..] == roots;
          return;
        }
      }
      assert roots[..|roots|] == roots;
      o := Pass;
    }
  }

  /** How a check `v` that also adds keys fails: by a key met twice, or else as `v` does. */
  predicate FailsBy<T>(error: Error, v: Result<T, Error>, allNew: bool) {
    if allNew then v.Failure? && error == v.error else error == Bad(Entries)
  }

  /** One device binding: its delegations are checked and its keys added as they appear. */
  method CheckDevice(ks: KeySet, b: DeviceBinding, id: PrincipalId, root: PublicKey, daemons: set<PrincipalId>)
    returns (r: Result<VerifiedBinding, Error>)
    modifies ks
    ensures var v := VerifyBinding(b, id, Some(root), daemons);
            && (r.Success? ==> r == v && Fresh(BindingKeys(v.value), old(ks.keys)))
            && (r.Success? ==> ks.keys == old(ks.keys) + SetOf(BindingKeys(v.value)))
            && (r.Failure? ==> FailsBy(r.error, v, Fresh(DeviceKeysMet(b, id, Some(root)), old(ks.keys))))
  {
    hide CheckDelegation, KeyOf, Fresh, SetOf;
    ghost var taken := ks.keys;
    NothingFresh(taken);
    if b.device.None? {
      return Failure(Bad(EntryDevices));
    }
    var d := b.device.value;
    var device := CheckDelegation(d, id, root, PURPOSE_DEVICE, EntryDevices);
    if device.Failure? {
      return Failure(device.error);
    }
    DelegatedHalf(d, id, root);
    var encryption := KeyOf(d.delegatedEncryption);
    if encryption.None? {
      return Failure(Panic(DeviceEncryptionHalf));
    }
    var approval := VerifyApprovalSlot(b.approval, id, root);
    var host := VerifyHostSlot(b.hostDaemonId, daemons);
    ghost var own := [device.value] + [encryption.value];
    NothingFresh(taken + SetOf(own));
    FreshConcat([device.value], [encryption.value], taken);
    if approval.Success? {
      FreshConcat(own, OptSeq(Second(approval.value)), taken);
    }
    var o := ks.Add(device.value);
    if o.Fail? {
      return Failure(o.error);
    }
    o := ks.Add(encryption.value);
    if o.Fail? {
      return Failure(o.error);
    }
    if approval.Failure? {
      return Failure(approval.error);
    }
    assert ks.keys == taken + SetOf(own);
    if approval.value.Some? {
      o := ks.Add(approval.value.value.1);
      if o.Fail? {
        return Failure(o.error);
      }
    }
    if host.Failure? {
      return Failure(host.error);
    }
    r := Success(VerifiedBinding(d, device.value, approval.value, host.value));
    assert BindingKeys(r.value) == own + OptSeq(Second(approval.value));
    assert ks.keys == taken + SetOf(own) + SetOf(OptSeq(Second(approval.value)));
  }

  // A list is verified in order, up to its first bad element.

  lemma {:induction false} FirstBadBinding(bs: seq<DeviceBinding>, n: nat, id: PrincipalId, root: Option<PublicKey>,
                                           daemons: set<PrincipalId>)
    requires n <= |bs| && VerifyBindings(bs[..n], id, root, daemons).Failure?
    ensures VerifyBindings(bs, id, root, daemons) == VerifyBindings(bs[..n], id, root, daemons)
    ensures DevicesKeysMet(bs, id, root, daemons) == DevicesKeysMet(bs[..n], id, root, daemons)
  {
    hide VerifyBinding, DeviceKeysMet, BindingsKeys;
    if n < |bs| {
      assert bs[..|bs| - 1][..n] == bs[..n];
      FirstBadBinding(bs[..|bs| - 1], n, id, root, daemons);
    } else {
      assert bs[..n] == bs;
    }
  }

  lemma {:induction false} DevicesKeysGrow(bs: seq<DeviceBinding>, n: nat, id: PrincipalId, root: Option<PublicKey>,
                                           daemons: set<PrincipalId>)
    requires n <= |bs|
    ensures DevicesKeysMet(bs[..n], id, root, daemons) <= DevicesKeysMet(bs, id, root, daemons)
  {
    hide VerifyBinding, DeviceKeysMet, BindingsKeys;
    if n < |bs| {
      var m := |bs| - 1;
      assert bs[..m][..n] == bs[..n];
      DevicesKeysGrow(bs[..m], n, id, root, daemons);
      if VerifyBindings(bs[..m], id, root, daemons).Success? {
        DevicesKeysAllMet(bs[..m], id, root, daemons);
      }
    } else {
      assert bs[..n] == bs;
    }
  }

  lemma {:induction false} FirstBadRevocation(rs: seq<KeyRevocation>, n: nat, id: PrincipalId, kind: PrincipalKind,
                                              roots: seq<PublicKey>, own: seq<PublicKey>)
    requires n <= |rs| && VerifyRevocations(rs[..n], id, kind, roots, own).Failure?
    ensures VerifyRevocations(rs, id, kind, roots, own) == VerifyRevocations(rs[..n], id, kind, roots, own)
  {
    hide VerifyRevocation;
    if n < |rs| {
      assert rs[..|rs| - 1][..n] == rs[..n];
      FirstBadRevocation(rs[..|rs| - 1], n, id, kind, roots, own);
    } else {
      assert rs[..n] == rs;
    }
  }

  lemma {:induction false} FirstBadHost(hs: seq<Text>, n: nat)
    requires n <= |hs| && VerifyHosts(hs[..n]).Failure?
    ensures VerifyHosts(hs) == VerifyHosts(hs[..n])
  {
    hide VerifyHost;
    if n < |hs| {
      assert hs[..|hs| - 1][..n] == hs[..n];
      FirstBadHost(hs[..|hs| - 1], n);
    } else {
      assert hs[..n] == hs;
    }
  }

  lemma FreshPrefix<T>(prefix: seq<T>, s: seq<T>, taken: set<T>)
    requires prefix <= s && Fresh(s, taken)
    ensures Fresh(prefix, taken)
  {
    assert prefix + s[|prefix|..] == s;
    FreshConcat(prefix, s[|prefix|..], taken);
  }

  // The loops inside one entry.

  /** The device bindings of an entry, and the keys they add. */
  method CheckDevices(ks: KeySet, bs: seq<DeviceBinding>, id: PrincipalId, root: Option<PublicKey>,
                      daemons: set<PrincipalId>)
    returns (r: Result<(seq<VerifiedBinding>, seq<PublicKey>), Error>)
    requires bs != [] ==> root.Some?
    modifies ks
    ensures var v := VerifyBindings(bs, id, root, daemons);
            && (r.Success? ==> v.Success? && r.value == (v.value, BindingsKeys(v.value)))
            && (r.Success? ==> Fresh(r.value.1, old(ks.keys)) && ks.keys == old(ks.keys) + SetOf(r.value.1))
            && (r.Failure? ==> FailsBy(r.error, v, Fresh(DevicesKeysMet(bs, id, root, daemons), old(ks.keys))))
  {
    hide VerifyBinding, BindingKeys, DeviceKeysMet, Fresh, SetOf;
    ghost var taken := ks.keys;
    NothingFresh(taken);
    var bindings, own := [], [];
    for n := 0 to |bs|
      invariant VerifyBindings(bs[..n], id, root, daemons) == Success(bindings)
      invariant own == BindingsKeys(bindings) && Fresh(own, taken) && ks.keys == taken + SetOf(own)
    {
      assert bs[..n + 1][..n] == bs[..n];
      FreshConcat(own, DeviceKeysMet(bs[n], id, root), taken);
      var b := CheckDevice(ks, bs[n], id, root.value, daemons);
      if b.Failure? {
        DevicesKeysGrow(bs, n + 1, id, root, daemons);
        if Fresh(own + DeviceKeysMet(bs[n], id, root), taken) {
          FirstBadBinding(bs, n + 1, id, root, daemons);
        } else if Fresh(DevicesKeysMet(bs, id, root, daemons), taken) {
          FreshPrefix(DevicesKeysMet(bs[..n + 1], id, root, daemons), DevicesKeysMet(bs, id, root, daemons), taken);
        }
        return Failure(b.error);
      }
      assert (bindings + [b.value])[..|bindings|] == bindings;
      FreshConcat(own, BindingKeys(b.value), taken);
      bindings, own := bindings + [b.value], own + BindingKeys(b.value);
    }
    assert bs[..|bs|] == bs;
    return Success((bindings, own));
  }

  method CheckRevocations(rs: seq<KeyRevocation>, id: PrincipalId, kind: PrincipalKind, roots: seq<PublicKey>,
                          own: seq<PublicKey>) returns (r: Result<seq<(PublicKey, i64)>, Error>)
    ensures r == VerifyRevocations(rs, id, kind, roots, own)
  {
    hide VerifyRevocation;
    var revocations := [];
    assert rs[..|rs|] == rs;
    for n := 0 to |rs|
      invariant VerifyRevocations(rs[..n], id, kind, roots, own) == Success(revocations)
    {
      assert rs[..n + 1][..n] == rs[..n];
      var next := VerifyRevocation(rs[n], id, kind, roots, own);
      if next.Failure? {
        FirstBadRevocation(rs, n + 1, id, kind, roots, own);
        return Failure(next.error);
      }
      revocations := revocations + [next.value];
    }
    return Success(revocations);
  }

  method CheckHosts(hs: seq<Text>) returns (r: Result<seq<AllowedHost>, Error>)
    ensures r == VerifyHosts(hs)
  {
    hide VerifyHost;
    var hosts := [];
    assert hs[..|hs|] == hs;
    for n := 0 to |hs|
      invariant VerifyHosts(hs[..n]) == Success(hosts)
    {
      assert hs[..n + 1][..n] == hs[..n];
      var next := VerifyHost(hs[n]);
      if next.Failure? {
        FirstBadHost(hs, n + 1);
        return Failure(next.error);
      }
      hosts := hosts + [next.value];
    }
    return Success(hosts);
  }

  method AddHead(ks: KeySet, roots: seq<PublicKey>, currentRoot: Option<KeyDuo>, id: PrincipalId)
    returns (o: Outcome<Error>)
    modifies ks
    ensures o.Pass? <==> Fresh(HeadKeys(roots, currentRoot, id), old(ks.keys))
    ensures o.Pass? ==> ks.keys == old(ks.keys) + SetOf(HeadKeys(roots, currentRoot, id))
    ensures o.Fail? ==> o.error == Bad(Entries)
  {
    hide Fresh, SetOf;
    if currentRoot.Some? {
      FreshConcat(roots, [currentRoot.value.encryption], ks.keys);
      o := ks.AddRoots(roots);
      if o.Fail? {
        return;
      }
      o := ks.Add(currentRoot.value.encryption);
    } else {
      o := ks.Add(id.genesis);
    }
  }

  /** One entry of a known kind. */
  method CheckEntry(ks: KeySet, e: RegistryEntry, id: PrincipalId, kind: PrincipalKind, c: Context)
    returns (r: Result<VerifiedEntry, Error>)
    modifies ks
    ensures var v := VerifyEntry(e, id, kind, c);
            && (r.Success? ==> r == v && Fresh(VerifiedKeys(v.value), old(ks.keys)))
            && (r.Success? ==> ks.keys == old(ks.keys) + SetOf(VerifiedKeys(v.value)))
            && (r.Failure? ==> FailsBy(r.error, v, Fresh(KeysMet(e, id, kind, c), old(ks.keys))))
  {
    hide VerifyBindings, BindingsKeys, DevicesKeysMet, HeadKeys, VerifyRevocations, VerifyHosts, EntryRoots, Fresh,
         SetOf;
    ghost var taken := ks.keys;
    NothingFresh(taken);
    if id == c.chain.Principal() {
      if kind != Human {
        return Failure(Bad(Entries));
      }
      if e.frozen {
        return Failure(Bad(EntryFrozen));
      }
    }
    var rules := FieldRules(e, kind);
    if rules.Fail? {
      return Failure(rules.error);
    }
    var rooted := EntryRoots(e, id, kind, c.chain);
    if rooted.Failure? {
      return Failure(rooted.error);
    }
    var (roots, currentRoot) := rooted.value;
    RootsShape(e, id, kind, c.chain);
    ghost var head := HeadKeys(roots, currentRoot, id);
    FreshConcat(head, DevicesKeysMet(e.devices, id, Last(roots), c.daemons), taken);
    var o := AddHead(ks, roots, currentRoot, id);
    if o.Fail? {
      return Failure(o.error);
    }
    var bound := CheckDevices(ks, e.devices, id, Last(roots), c.daemons);
    if bound.Failure? {
      return Failure(bound.error);
    }
    var (bindings, own) := bound.value;
    DevicesKeysAllMet(e.devices, id, Last(roots), c.daemons);
    var revocations := CheckRevocations(e.revocations, id, kind, roots, roots + own);
    if revocations.Failure? {
      return Failure(revocations.error);
    }
    var allowedHosts := CheckHosts(e.allowedHosts);
    if allowedHosts.Failure? {
      return Failure(allowedHosts.error);
    }
    r := Success(VerifiedEntry(id, kind, e.name, e.frozen, currentRoot, roots, e.rotations, revocations.value,
                               bindings, allowedHosts.value));
  }

  /** A self-rooted entry has roots; any other entry is a host-vouched agent. */
  lemma RootsShape(e: RegistryEntry, id: PrincipalId, kind: PrincipalKind, chain: AuthorityChain)
    requires EntryRoots(e, id, kind, chain).Success? && FieldRules(e, kind).Pass?
    ensures var (roots, currentRoot) := EntryRoots(e, id, kind, chain).value;
            && (currentRoot.Some? ==> roots != [])
            && (currentRoot.None? ==> roots == [] && e.devices == [])
  {
    hide SelfRoots, ParseDuo;
  }

  // The whole list.

  /** `taken` holds the members of a bag without repeats. */
  ghost predicate Tracks<U(!new)>(taken: set<U>, m: multiset<U>) {
    NoRepeat(m) && forall u :: u in taken <==> u in m
  }

  lemma TracksNothing<T, U(!new)>(f: T -> seq<U>, s: seq<T>)
    ensures Tracks({}, Bag(f, s[..0]))
  {}

  /** Adding values succeeds exactly when the bag stays without repeats. */
  lemma BagStep<U(!new)>(m: multiset<U>, here: seq<U>, taken: set<U>)
    requires Tracks(taken, m)
    ensures Fresh(here, taken) <==> NoRepeat(m + multiset(here))
    ensures Fresh(here, taken) ==> Tracks(taken + SetOf(here), m + multiset(here))
  {
    if Fresh(here, taken) {
      DistinctOnce(here);
    } else if !Distinct(here) {
      var i, j :| 0 <= i < j < |here| && here[i] == here[j];
      TwicePlaced(here, i, j);
      assert (m + multiset(here))[here[i]] >= 2;
    } else {
      var v :| v in here && v in taken;
      assert (m + multiset(here))[v] >= 2;
    }
  }

  lemma {:induction false} DistinctOnce<U>(s: seq<U>)
    requires Distinct(s)
    ensures forall v <- s :: multiset(s)[v] == 1
  {
    if s != [] {
      var n := |s| - 1;
      assert s == s[..n] + [s[n]];
      DistinctOnce(s[..n]);
    }
  }

  /** A round that adds `values`, all that `f` yields for the next element: it goes through exactly when the bag
    * stays without repeats, and a value met twice is a repeat in the bag of the whole list. */
  lemma Round<T, U(!new)>(f: T -> seq<U>, s: seq<T>, n: nat, taken: set<U>, values: seq<U>)
    requires n < |s| && Tracks(taken, Bag(f, s[..n])) && values == f(s[n])
    ensures Fresh(values, taken) ==> Tracks(taken + SetOf(values), Bag(f, s[..n + 1]))
    ensures !Fresh(values, taken) ==> !NoRepeat(Bag(f, s))
  {
    hide Tracks, Fresh, NoRepeat, SetOf;
    assert s[..n + 1][..n] == s[..n];
    BagStep(Bag(f, s[..n]), values, taken);
    if NoRepeat(Bag(f, s)) {
      BagPrefixRepeats(f, s, n + 1);
    }
  }

  lemma Finished<T, U(!new)>(f: T -> seq<U>, s: seq<T>, taken: set<U>)
    requires Tracks(taken, Bag(f, s[..|s|]))
    ensures NoRepeat(Bag(f, s))
  {
    assert s[..|s|] == s;
  }

  lemma IdsSoFar(entries: seq<RegistryEntry>, parsed: seq<Parsed>, taken: set<seq<byte>>)
    requires ParsedOf(entries, parsed) && Tracks(taken, Bag(ShortIdsIn(), entries))
    ensures IdsOk(entries) && forall s :: s in taken <==> s in Bag(ShortIdsIn(), entries)
  {
    hide ParseEntry, NoRepeat, Bag;
  }

  lemma EntriesSoFar(entries: seq<RegistryEntry>, parsed: seq<Parsed>, c: Context, taken: set<PublicKey>)
    requires ParsedOf(entries, parsed) && Tracks(taken, Bag(KeysIn(c), entries))
    requires forall i | 0 <= i < |entries| :: EntryVerifies(entries[i], parsed[i], c)
    ensures EntriesOk(entries, c)
  {
    hide ParseEntry, VerifyEntry, NoRepeat, Bag;
  }

  /** The first loop: ids, kinds and short ids. */
  method ParseEntries(entries: seq<RegistryEntry>) returns (r: Result<seq<Parsed>, Error>)
    ensures r.Success? <==> IdsOk(entries)
    ensures r.Success? ==> ParsedOf(entries, r.value)
    ensures r.Failure? ==> exists n | 0 <= n < |entries| :: IdRefused(entries, n, r.error)
  {
    hide ParseCanonical, Fresh, NoRepeat, Bag, Tracks, SetOf;
    var shortIds: set<seq<byte>>, parsed := {}, [];
    TracksNothing(ShortIdsIn(), entries);
    for n := 0 to |entries|
      invariant ParsedOf(entries[..n], parsed) && Tracks(shortIds, Bag(ShortIdsIn(), entries[..n]))
    {
      var e := entries[n];
      Round(ShortIdsIn(), entries, n, shortIds, EntryShortIds(e));
      var id := ParseId(e);
      IdsSoFar(entries[..n], parsed, shortIds);
      if id.Failure? {
        IdRefusedMeans(entries, n, id.error);
        return Failure(id.error);
      }
      FreshOption(Some(ShortId(id.value)), shortIds);
      if ShortId(id.value) in shortIds {
        IdRefusedMeans(entries, n, Bad(EntryPrincipalId));
        return Failure(Bad(EntryPrincipalId));
      }
      var kind := ParseKind(e.kind);
      if kind.Failure? {
        IdRefusedMeans(entries, n, kind.error);
        return Failure(kind.error);
      }
      shortIds := shortIds + {ShortId(id.value)};
      parsed := parsed + [Parsed(id.value, kind.value)];
    }
    assert entries[..|entries|] == entries;
    IdsSoFar(entries, parsed, shortIds);
    return Success(parsed);
  }

  predicate ParsedOf(entries: seq<RegistryEntry>, parsed: seq<Parsed>) {
    |parsed| == |entries| && forall i | 0 <= i < |entries| :: ParseEntry(entries[i]) == Success(parsed[i])
  }

  /** The second loop: names, and the names of entries that are not frozen together. */
  method CheckNames(entries: seq<RegistryEntry>, parsed: seq<Parsed>) returns (o: Outcome<Error>)
    requires ParsedOf(entries, parsed)
    ensures o.Pass? <==> NamesOk(entries)
    ensures o.Fail? ==> o.error == Bad(EntryName)
  {
    hide ParseEntry, Is16Hex, Fresh, NoRepeat, SetOf, Bag, Tracks;
    var names: set<Text> := {};
    TracksNothing(NamesIn(), entries);
    for n := 0 to |entries|
      invariant forall e <- entries[..n] :: NameOk(e)
      invariant Tracks(names, Bag(NamesIn(), entries[..n]))
    {
      var e := entries[n];
      Round(NamesIn(), entries, n, names, EntryNames(e));
      FreshOption(if parsed[n].kind.Some? && !e.frozen then e.name else None, names);
      if e.name.Some? {
        if e.name.value == [] {
          assert !NameOk(entries[n]);
          return Fail(Bad(EntryName));
        }
        if Is16Hex(e.name.value) {
          assert !NameOk(entries[n]);
          return Fail(Bad(EntryName));
        }
        if parsed[n].kind.Some? && !e.frozen {
          if e.name.value in names {
            return Fail(Bad(EntryName));
          }
          names := names + {e.name.value};
        }
      }
    }
    Finished(NamesIn(), entries, names);
    return Pass;
  }

  lemma FreshOption<T>(o: Option<T>, taken: set<T>)
    ensures Fresh(OptSeq(o), taken) <==> o.None? || o.value !in taken
    ensures taken + SetOf(OptSeq(o)) == if o.Some? then taken + {o.value} else taken
  {}

  /** The entries loop. */
  method CheckEntries(entries: seq<RegistryEntry>, parsed: seq<Parsed>, c: Context)
    returns (r: Result<map<PrincipalId, VerifiedEntry>, Error>)
    requires ParsedOf(entries, parsed)
    requires forall i, j | 0 <= i < j < |parsed| :: parsed[i].id != parsed[j].id
    ensures r.Success? <==> EntriesOk(entries, c) && HasEntry(parsed, c.chain.Principal())
    ensures r.Success? ==> EntriesOf(entries, parsed, c, r.value)
    ensures r.Failure? && EntriesOk(entries, c) ==> r.error == Bad(Entries)
    ensures r.Failure? && !EntriesOk(entries, c) ==>
              exists n | 0 <= n < |entries| :: EntryRefused(entries, n, c, r.error)
  {
    hide ParseEntry, VerifyEntry, VerifiedKeys, KeysMet, NoRepeat, Fresh, SetOf, Bag, Tracks, EntriesOf, HasEntry;
    var ks := new KeySet();
    var verified: map<PrincipalId, VerifiedEntry>, authoritySeen := map[], false;
    TracksNothing(KeysIn(c), entries);
    NoEntries(entries, parsed, c);
    for n := 0 to |entries|
      invariant forall i | 0 <= i < n :: EntryVerifies(entries[i], parsed[i], c)
      invariant Tracks(ks.keys, Bag(KeysIn(c), entries[..n]))
      invariant EntriesOf(entries[..n], parsed[..n], c, verified)
      invariant authoritySeen <==> HasEntry(parsed[..n], c.chain.Principal())
    {
      var e, id := entries[n], parsed[n].id;
      Round(KeysIn(c), entries, n, ks.keys, EntryKeys(e, c));
      BagStep(Bag(KeysIn(c), entries[..n]), ParsedKeysMet(e, parsed[n], c), ks.keys);
      EntriesSoFar(entries[..n], parsed[..n], c, ks.keys);
      HasEntryMore(parsed, n, c.chain.Principal());
      match parsed[n].kind {
        case None =>
          var o := ks.Add(id.genesis);
          if o.Fail? {
            RefusedMeans(entries, n, c, o.error);
            return Failure(o.error);
          }
          MapWithoutEntry(entries, parsed, c, n, verified);
        case Some(kind) =>
          var v := CheckEntry(ks, e, id, kind, c);
          if v.Failure? {
            RefusedMeans(entries, n, c, v.error);
            return Failure(v.error);
          }
          MapWithEntry(entries, parsed, c, n, verified, v.value);
          authoritySeen := authoritySeen || id == c.chain.Principal();
          verified := verified[id := v.value];
      }
    }
    assert entries[..|entries|] == entries && parsed[..|parsed|] == parsed;
    EntriesSoFar(entries, parsed, c, ks.keys);
    if !authoritySeen {
      return Failure(Bad(Entries));
    }
    return Success(verified);
  }

  predicate HasEntry(parsed: seq<Parsed>, id: PrincipalId) {
    exists i | 0 <= i < |parsed| :: parsed[i].kind.Some? && parsed[i].id == id
  }

  lemma NoEntries(entries: seq<RegistryEntry>, parsed: seq<Parsed>, c: Context)
    requires ParsedOf(entries, parsed)
    ensures EntriesOf(entries[..0], parsed[..0], c, map[]) && !HasEntry(parsed[..0], c.chain.Principal())
  {
    hide ParseEntry, VerifyEntry;
  }

  lemma HasEntryMore(parsed: seq<Parsed>, n: nat, id: PrincipalId)
    requires n < |parsed|
    ensures HasEntry(parsed[..n + 1], id) <==> HasEntry(parsed[..n], id) || (parsed[n].kind.Some? && parsed[n].id == id)
  {
    var before, after := parsed[..n], parsed[..n + 1];
    assert after[n] == parsed[n];
    if i :| 0 <= i < |before| && before[i].kind.Some? && before[i].id == id {
      assert after[i] == before[i];
    }
  }

  /** An entry of an unknown kind leaves the map as it is. */
  lemma MapWithoutEntry(entries: seq<RegistryEntry>, parsed: seq<Parsed>, c: Context, n: nat,
                        verified: map<PrincipalId, VerifiedEntry>)
    requires n < |parsed| == |entries| && parsed[n].kind.None?
    requires EntriesOf(entries[..n], parsed[..n], c, verified)
    ensures EntriesOf(entries[..n + 1], parsed[..n + 1], c, verified)
  {
    hide VerifyEntry, HasEntry;
    forall id {
      HasEntryMore(parsed, n, id);
    }
  }

  /** An entry of a known kind adds its verified form. */
  lemma MapWithEntry(entries: seq<RegistryEntry>, parsed: seq<Parsed>, c: Context, n: nat,
                     verified: map<PrincipalId, VerifiedEntry>, v: VerifiedEntry)
    requires n < |parsed| == |entries| && parsed[n].kind.Some?
    requires EntriesOf(entries[..n], parsed[..n], c, verified)
    requires forall i | 0 <= i < n :: parsed[i].id != parsed[n].id
    requires VerifyEntry(entries[n], parsed[n].id, parsed[n].kind.value, c) == Success(v)
    ensures EntriesOf(entries[..n + 1], parsed[..n + 1], c, verified[parsed[n].id := v])
  {
    hide VerifyEntry, HasEntry;
    var es, ps, after := entries[..n + 1], parsed[..n + 1], verified[parsed[n].id := v];
    forall id | id in after
      ensures HasEntry(ps, id)
    {
      HasEntryMore(parsed, n, id);
      assert id != parsed[n].id ==> id in verified;
    }
    forall i | 0 <= i < |ps| && ps[i].kind.Some?
      ensures ps[i].id in after && Success(after[ps[i].id]) == VerifyEntry(es[i], ps[i].id, ps[i].kind.value, c)
    {
      assert i < n ==> parsed[..n][i] == parsed[i] && entries[..n][i] == entries[i];
    }
  }

  /** The map holds exactly the verified entries of a known kind. */
  predicate EntriesOf(entries: seq<RegistryEntry>, parsed: seq<Parsed>, c: Context,
                      verified: map<PrincipalId, VerifiedEntry>)
    requires |parsed| == |entries|
  {
    && (forall id <- verified :: HasEntry(parsed, id))
    && forall i | 0 <= i < |parsed| && parsed[i].kind.Some? ::
         parsed[i].id in verified
         && Success(verified[parsed[i].id]) == VerifyEntry(entries[i], parsed[i].id, parsed[i].kind.value, c)
  }

  /** `check_registry`: it succeeds exactly on the registries that meet the order-free conditions, with the entries
    * they describe. Every failure is a registry error: no `expect` is reached. */
  method CheckRegistry(reg: PrincipalRegistry, chain: AuthorityChain) returns (r: Result<CheckedRegistry, Error>)
    ensures r.Success? <==> RegistryOk(reg, chain)
    ensures r.Success? ==> Accepts(reg, chain, r.value.entries)
    ensures r.Success? ==> r.value.allowPeerRevocation == reg.allowPeerRevocation
    ensures r.Failure? ==> Reports(reg, chain, r.error) && r.error.InvalidRegistry?
  {
    hide ParseEntry, IdsOk, NamesOk, EntriesOk, IdRefused, EntryRefused, HasEntry, EntriesOf, RegistryOk, Accepts,
         Daemons;
    LoopsDecide(reg, chain);
    var parsed := ParseEntries(reg.entries);
    if parsed.Failure? {
      ReportsRegistryError(reg, chain, parsed.error);
      return Failure(parsed.error);
    }
    var named := CheckNames(reg.entries, parsed.value);
    if named.Fail? {
      return Failure(named.error);
    }
    var daemons := set i | 0 <= i < |parsed.value| && parsed.value[i].kind == Some(Daemon) :: parsed.value[i].id;
    DaemonsParsed(reg.entries, parsed.value);
    ParsedIdsDistinct(reg.entries, parsed.value);
    var verified := CheckEntries(reg.entries, parsed.value, Context(chain, daemons));
    AuthorityParsed(reg, chain, parsed.value);
    if verified.Failure? {
      ReportsRegistryError(reg, chain, verified.error);
      return Failure(verified.error);
    }
    EntriesMean(reg, chain, parsed.value, verified.value);
    return Success(CheckedRegistry(verified.value, reg.allowPeerRevocation));
  }

  lemma DaemonsParsed(entries: seq<RegistryEntry>, parsed: seq<Parsed>)
    requires ParsedOf(entries, parsed)
    ensures Daemons(entries) == set i | 0 <= i < |parsed| && parsed[i].kind == Some(Daemon) :: parsed[i].id
  {
    hide ParseEntry;
    var daemons := set i | 0 <= i < |parsed| && parsed[i].kind == Some(Daemon) :: parsed[i].id;
    forall id | id in daemons
      ensures id in Daemons(entries)
    {
      var i :| 0 <= i < |parsed| && parsed[i].kind == Some(Daemon) && parsed[i].id == id;
      assert IsDaemon(entries[i]);
    }
    forall id | id in Daemons(entries)
      ensures id in daemons
    {
      var e :| e in entries && IsDaemon(e) && ParseEntry(e).value.id == id;
      var i :| 0 <= i < |entries| && entries[i] == e;
      assert parsed[i].kind == Some(Daemon) && parsed[i].id == id;
    }
  }

  lemma ParsedIdsDistinct(entries: seq<RegistryEntry>, parsed: seq<Parsed>)
    requires ParsedOf(entries, parsed) && IdsOk(entries)
    ensures forall i, j | 0 <= i < j < |parsed| :: parsed[i].id != parsed[j].id
  {
    hide ParseEntry, Bag, NoRepeat;
    forall i, j | 0 <= i < j < |parsed|
      ensures parsed[i].id != parsed[j].id
    {
      if parsed[i].id == parsed[j].id {
        assert ShortIdsIn()(entries[i])[0] == ShortIdsIn()(entries[j])[0];
        NoRepeatPlaces(ShortIdsIn(), entries, i, 0, j, 0);
      }
    }
  }

  lemma AuthorityParsed(reg: PrincipalRegistry, chain: AuthorityChain, parsed: seq<Parsed>)
    requires ParsedOf(reg.entries, parsed)
    ensures HasEntry(parsed, chain.Principal()) <==>
              exists e <- reg.entries :: Known(e) && ParseEntry(e).value.id == chain.Principal()
  {
    hide ParseEntry;
    if i :| 0 <= i < |parsed| && parsed[i].kind.Some? && parsed[i].id == chain.Principal() {
      assert Known(reg.entries[i]) && reg.entries[i] in reg.entries;
    }
  }

  /** The conditions the three loops decide are those of the registry. */
  lemma LoopsDecide(reg: PrincipalRegistry, chain: AuthorityChain)
    ensures RegistryOk(reg, chain) <==>
              && IdsOk(reg.entries) && NamesOk(reg.entries) && EntriesOk(reg.entries, ContextOf(reg, chain))
              && exists e <- reg.entries :: Known(e) && ParseEntry(e).value.id == chain.Principal()
  {
    hide ParseEntry, NameOk, VerifyEntry, NoRepeat, Bag;
  }

  lemma EntriesMean(reg: PrincipalRegistry, chain: AuthorityChain, parsed: seq<Parsed>,
                    verified: map<PrincipalId, VerifiedEntry>)
    requires ParsedOf(reg.entries, parsed) && RegistryOk(reg, chain)
    requires EntriesOf(reg.entries, parsed, ContextOf(reg, chain), verified)
    ensures Accepts(reg, chain, verified)
  {
    hide ParseEntry, NameOk, VerifyEntry, NoRepeat, Bag;
    forall id | id in verified
      ensures exists e <- reg.entries :: Known(e) && ParseEntry(e).value.id == id
    {
      var i :| 0 <= i < |parsed| && parsed[i].kind.Some? && parsed[i].id == id;
      assert Known(reg.entries[i]);
    }
  }
}
