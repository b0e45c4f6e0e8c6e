/** A whole registry: it is accepted with a map of entries exactly when the wire form describes that map. */
module RegistryWhole {
  import opened Wrappers
  import opened Bytes
  import opened Primitives
  import opened Errors
  import opened Wire
  import opened Transcripts
  import opened Authority
  import opened Principal
  import opened Registry
  import opened RegistryFacts
  import opened RegistryMeaning
  import RegistryChecker

  // No repeat, place by place.

  /** No value occurs at two places. */
  ghost predicate Separate<T, U(!new)>(f: T -> seq<U>, s: seq<T>) {
    forall x: nat, i: nat, y: nat, j: nat ::
      x < |s| && y < |s| && i < |f(s[x])| && j < |f(s[y])| && f(s[x])[i] == f(s[y])[j] ==> x == y && i == j
  }

  lemma {:induction false} BagMember<T, U>(f: T -> seq<U>, s: seq<T>, u: U)
    ensures u in Bag(f, s) <==> exists e <- s :: u in f(e)
  {
    if s != [] {
      var n := |s| - 1;
      BagMember(f, s[..n], u);
      assert s == s[..n] + [s[n]];
    }
  }

  lemma {:induction false} SeparateIs<T, U(!new)>(f: T -> seq<U>, s: seq<T>)
    ensures NoRepeat(Bag(f, s)) <==> Separate(f, s)
  {
    if NoRepeat(Bag(f, s)) {
      forall x: nat, i: nat, y: nat, j: nat
        | x < |s| && y < |s| && i < |f(s[x])| && j < |f(s[y])| && f(s[x])[i] == f(s[y])[j]
        ensures x == y && i == j
      {
        NoRepeatPlaces(f, s, x, i, y, j);
      }
    }
    if Separate(f, s) && s != [] {
      var n := |s| - 1;
      SeparateIs(f, s[..n]);
      LastIsNew(f, s);
    }
  }

  lemma LastIsNew<T, U(!new)>(f: T -> seq<U>, s: seq<T>)
    requires s != [] && Separate(f, s) && NoRepeat(Bag(f, s[..|s| - 1]))
    ensures NoRepeat(Bag(f, s))
  {
    var n := |s| - 1;
    var here := f(s[n]);
    assert Distinct(here);
    RegistryChecker.DistinctOnce(here);
    forall u | u in here
      ensures u !in Bag(f, s[..n])
    {
      BagMember(f, s[..n], u);
    }
  }

  // The places at which an entry takes a key.

  datatype Place =
    | RootKey(n: nat)
    | RootHalf
    | GenesisKey
    | DeviceKey(n: nat)
    | DeviceHalf(n: nat)
    | ApprovalSlot(n: nat)

  function KeyAt(v: VerifiedEntry, p: Place): Option<PublicKey> {
    match p
    case RootKey(n) => if v.currentRoot.Some? && n < |v.roots| then Some(v.roots[n]) else None
    case RootHalf => if v.currentRoot.Some? then Some(v.currentRoot.value.encryption) else None
    case GenesisKey => if v.currentRoot.None? then Some(v.id.genesis) else None
    case DeviceKey(n) => if n < |v.bindings| then Some(v.bindings[n].deviceKey) else None
    case DeviceHalf(n) => if n < |v.bindings| then KeyOf(v.bindings[n].device.delegatedEncryption) else None
    case ApprovalSlot(n) => if n < |v.bindings| then v.bindings[n].ApprovalKey() else None
  }

  /** The position of a place among the keys of the entry. */
  function Position(v: VerifiedEntry, p: Place): nat
    requires KeyAt(v, p).Some?
  {
    var head := |HeadKeys(v.roots, v.currentRoot, v.id)|;
    match p
    case RootKey(n) => n
    case RootHalf => |v.roots|
    case GenesisKey => 0
    case DeviceKey(n) => head + |BindingsKeys(v.bindings[..n])|
    case DeviceHalf(n) => head + |BindingsKeys(v.bindings[..n])| + 1
    case ApprovalSlot(n) => head + |BindingsKeys(v.bindings[..n])| + 2
  }

  predicate HasHalves(bs: seq<VerifiedBinding>) { forall b <- bs :: KeyOf(b.device.delegatedEncryption).Some? }

  /** The keys of binding `n` stand together, after those of the bindings before it. */
  lemma BindingSpan(bs: seq<VerifiedBinding>, n: nat)
    requires n < |bs|
    ensures var start := |BindingsKeys(bs[..n])|;
            && start + |BindingKeys(bs[n])| <= |BindingsKeys(bs)|
            && BindingsKeys(bs)[start..start + |BindingKeys(bs[n])|] == BindingKeys(bs[n])
    ensures |BindingsKeys(bs[..n + 1])| == |BindingsKeys(bs[..n])| + |BindingKeys(bs[n])|
  {
    hide BindingKeys;
    assert bs[..n + 1][..n] == bs[..n];
    BindingsKeysGrow(bs, n + 1);
  }

  lemma SpansApart(bs: seq<VerifiedBinding>, m: nat, n: nat)
    requires m < n <= |bs|
    ensures |BindingsKeys(bs[..m])| + |BindingKeys(bs[m])| <= |BindingsKeys(bs[..n])|
  {
    hide BindingKeys;
    assert bs[..n][..m] == bs[..m];
    BindingSpan(bs[..n], m);
  }

  lemma PositionHolds(v: VerifiedEntry, p: Place)
    requires KeyAt(v, p).Some? && HasHalves(v.bindings)
    ensures Position(v, p) < |VerifiedKeys(v)| && VerifiedKeys(v)[Position(v, p)] == KeyAt(v, p).value
  {
    hide BindingsKeys, KeyOf;
    var head := HeadKeys(v.roots, v.currentRoot, v.id);
    if p.DeviceKey? || p.DeviceHalf? || p.ApprovalSlot? {
      BindingSpan(v.bindings, p.n);
      var start, own := |BindingsKeys(v.bindings[..p.n])|, BindingKeys(v.bindings[p.n]);
      assert KeyOf(v.bindings[p.n].device.delegatedEncryption).Some?;
      var at := if p.DeviceKey? then 0 else if p.DeviceHalf? then 1 else 2;
      assert own[at] == KeyAt(v, p).value;
      assert BindingsKeys(v.bindings)[start..start + |own|][at] == BindingsKeys(v.bindings)[start + at];
    }
  }

  function Offset(p: Place): nat { if p.DeviceHalf? then 1 else if p.ApprovalSlot? then 2 else 0 }

  predicate OfBinding(p: Place) { p.DeviceKey? || p.DeviceHalf? || p.ApprovalSlot? }

  lemma PositionOfBinding(v: VerifiedEntry, p: Place)
    requires KeyAt(v, p).Some? && HasHalves(v.bindings) && OfBinding(p)
    ensures p.n < |v.bindings| && Offset(p) < |BindingKeys(v.bindings[p.n])|
    ensures Position(v, p)
         == |HeadKeys(v.roots, v.currentRoot, v.id)| + |BindingsKeys(v.bindings[..p.n])| + Offset(p)
  {
    hide BindingsKeys, KeyOf, HeadKeys;
    assert KeyOf(v.bindings[p.n].device.delegatedEncryption).Some?;
  }

  lemma PositionOfHead(v: VerifiedEntry, p: Place)
    requires KeyAt(v, p).Some? && !OfBinding(p)
    ensures Position(v, p) < |HeadKeys(v.roots, v.currentRoot, v.id)|
  {}

  /** Different places have different positions. */
  lemma PositionsDiffer(v: VerifiedEntry, p: Place, q: Place)
    requires KeyAt(v, p).Some? && KeyAt(v, q).Some? && HasHalves(v.bindings) && Position(v, p) == Position(v, q)
    ensures p == q
  {
    hide BindingsKeys, BindingKeys, KeyOf;
    if OfBinding(p) {
      PositionOfBinding(v, p);
    } else {
      PositionOfHead(v, p);
    }
    if OfBinding(q) {
      PositionOfBinding(v, q);
    } else {
      PositionOfHead(v, q);
    }
    if OfBinding(p) && OfBinding(q) {
      if p.n < q.n {
        SpansApart(v.bindings, p.n, q.n);
      } else if q.n < p.n {
        SpansApart(v.bindings, q.n, p.n);
      }
    }
  }

  /** Every position among the keys of the bindings is in one binding. */
  lemma {:induction false} BindingAt(bs: seq<VerifiedBinding>, i: nat) returns (n: nat)
    requires i < |BindingsKeys(bs)|
    ensures n < |bs| && |BindingsKeys(bs[..n])| <= i < |BindingsKeys(bs[..n])| + |BindingKeys(bs[n])|
  {
    hide BindingKeys;
    var m := |bs| - 1;
    if i < |BindingsKeys(bs[..m])| {
      n := BindingAt(bs[..m], i);
      assert bs[..m][..n] == bs[..n];
    } else {
      n := m;
    }
  }

  /** Every position is that of a place. */
  lemma PlaceAt(v: VerifiedEntry, i: nat) returns (p: Place)
    requires i < |VerifiedKeys(v)| && HasHalves(v.bindings)
    ensures KeyAt(v, p).Some? && Position(v, p) == i
  {
    hide BindingsKeys, KeyOf;
    var head := |HeadKeys(v.roots, v.currentRoot, v.id)|;
    if i >= head {
      var n := BindingAt(v.bindings, i - head);
      var at := i - head - |BindingsKeys(v.bindings[..n])|;
      assert KeyOf(v.bindings[n].device.delegatedEncryption).Some?;
      p := if at == 0 then DeviceKey(n) else if at == 1 then DeviceHalf(n) else ApprovalSlot(n);
    } else if v.currentRoot.None? {
      p := GenesisKey;
    } else if i < |v.roots| {
      p := RootKey(i);
    } else {
      p := RootHalf;
    }
  }

  // The registry.

  predicate IsKnown(e: RegistryEntry) { 1 <= e.kind <= 4 }

  predicate IsHexDigit(b: byte) { 48 <= b <= 57 || 65 <= b <= 70 || 97 <= b <= 102 }

  predicate NameHolds(e: RegistryEntry) {
    e.name.Some? ==> e.name.value != [] && !(|e.name.value| == 16 && forall b <- e.name.value :: IsHexDigit(b))
  }

  /** The name of an entry of a known kind counts while the entry is not frozen. */
  predicate Shows(e: RegistryEntry) { IsKnown(e) && !e.frozen && e.name.Some? }

  function DaemonIds(es: seq<RegistryEntry>, ids: seq<PrincipalId>): set<PrincipalId>
    requires |ids| == |es|
  {
    set i | 0 <= i < |es| && es[i].kind == 3 :: ids[i]
  }

  /** The key that an entry takes at a place; one of an unknown kind takes its genesis key only. */
  function TakenAt(e: RegistryEntry, id: PrincipalId, entries: map<PrincipalId, VerifiedEntry>, p: Place)
    : Option<PublicKey>
  {
    if IsKnown(e) then if id in entries then KeyAt(entries[id], p) else None
    else if p.GenesisKey? then Some(id.genesis) else None
  }

  /** No key is taken at two places of the registry. */
  ghost predicate KeysApart(es: seq<RegistryEntry>, ids: seq<PrincipalId>, entries: map<PrincipalId, VerifiedEntry>)
    requires |ids| == |es|
  {
    forall x: nat, p: Place, y: nat, q: Place ::
      && x < |es| && y < |es|
      && TakenAt(es[x], ids[x], entries, p).Some?
      && TakenAt(es[x], ids[x], entries, p) == TakenAt(es[y], ids[y], entries, q)
      ==> x == y && p == q
  }

  predicate ShortIdsApart(ids: seq<PrincipalId>) {
    forall i, j | 0 <= i < j < |ids| :: Sha256(ids[i].genesis)[..8] != Sha256(ids[j].genesis)[..8]
  }

  predicate NamesApart(es: seq<RegistryEntry>) {
    forall i, j | 0 <= i < j < |es| && Shows(es[i]) && Shows(es[j]) :: es[i].name != es[j].name
  }

  predicate EntryOf(e: RegistryEntry, id: PrincipalId, v: VerifiedEntry, c: Context) {
    v.id == id && IsKind(e.kind, v.kind) && EntryHolds(e, v, c)
  }

  /** The entries have these ids, printed canonically, and `entries` is what they say, key by key. */
  ghost predicate Describes(reg: PrincipalRegistry, chain: AuthorityChain, ids: seq<PrincipalId>,
                            entries: map<PrincipalId, VerifiedEntry>)
  {
    var es := reg.entries;
    && |ids| == |es|
    && (forall i | 0 <= i < |es| :: es[i].principalId == Display(ids[i]) && es[i].kind != 0 && NameHolds(es[i]))
    && ShortIdsApart(ids) && NamesApart(es)
    && (forall id <- entries :: exists i | 0 <= i < |es| :: IsKnown(es[i]) && ids[i] == id)
    && (forall i | 0 <= i < |es| && IsKnown(es[i]) ::
          ids[i] in entries && EntryOf(es[i], ids[i], entries[ids[i]], Context(chain, DaemonIds(es, ids))))
    && KeysApart(es, ids, entries)
    && chain.Principal() in entries
  }

  /** The ids that the entries parse to. */
  predicate Listed(es: seq<RegistryEntry>, ids: seq<PrincipalId>) {
    |ids| == |es| && forall i | 0 <= i < |es| :: ParseEntry(es[i]).Success? && ParseEntry(es[i]).value.id == ids[i]
  }

  lemma ParseIs(e: RegistryEntry, id: PrincipalId)
    ensures ParseEntry(e).Success? && ParseEntry(e).value.id == id <==> e.principalId == Display(id) && e.kind != 0
    ensures ParseEntry(e).Success? ==> (ParseEntry(e).value.kind.Some? <==> IsKnown(e))
    ensures forall kind :: ParseEntry(e).Success? ==> (ParseEntry(e).value.kind == Some(kind) <==> IsKind(e.kind, kind))
  {
    hide ParseCanonical, Display;
    CanonicalIsDisplay(e.principalId, id);
  }

  lemma ListedIs(es: seq<RegistryEntry>, ids: seq<PrincipalId>)
    ensures Listed(es, ids) <==>
              |ids| == |es| && forall i | 0 <= i < |es| :: es[i].principalId == Display(ids[i]) && es[i].kind != 0
  {
    hide ParseEntry, Display;
    if |ids| == |es| {
      forall i | 0 <= i < |es|
        ensures ParseEntry(es[i]).Success? && ParseEntry(es[i]).value.id == ids[i]
           <==> es[i].principalId == Display(ids[i]) && es[i].kind != 0
      {
        ParseIs(es[i], ids[i]);
      }
    }
  }

  lemma NameIs(e: RegistryEntry)
    ensures NameOk(e) <==> NameHolds(e)
  {
    if e.name.Some? {
      assert forall b <- e.name.value :: HexValue(b).Some? <==> IsHexDigit(b);
    }
  }

  lemma ShortIdsAre(es: seq<RegistryEntry>, ids: seq<PrincipalId>)
    requires Listed(es, ids)
    ensures NoRepeat(Bag(ShortIdsIn(), es)) <==> ShortIdsApart(ids)
  {
    hide ParseEntry, Bag, NoRepeat;
    var f := ShortIdsIn();
    SeparateIs(f, es);
    assert forall i | 0 <= i < |es| :: f(es[i]) == [Sha256(ids[i].genesis)[..8]];
    if Separate(f, es) {
      forall i, j | 0 <= i < j < |ids|
        ensures Sha256(ids[i].genesis)[..8] != Sha256(ids[j].genesis)[..8]
      {
        assert f(es[i])[0] != f(es[j])[0];
      }
    }
  }

  lemma NamesAre(es: seq<RegistryEntry>, ids: seq<PrincipalId>)
    requires Listed(es, ids)
    ensures NoRepeat(Bag(NamesIn(), es)) <==> NamesApart(es)
  {
    hide ParseEntry, Bag, NoRepeat;
    var f := NamesIn();
    SeparateIs(f, es);
    forall i | 0 <= i < |es|
      ensures f(es[i]) == if Shows(es[i]) then [es[i].name.value] else []
    {
      ParseIs(es[i], ids[i]);
    }
    if Separate(f, es) {
      forall i, j | 0 <= i < j < |es| && Shows(es[i]) && Shows(es[j])
        ensures es[i].name != es[j].name
      {
        assert f(es[i])[0] != f(es[j])[0];
      }
    }
  }

  lemma DaemonsAre(es: seq<RegistryEntry>, ids: seq<PrincipalId>)
    requires Listed(es, ids)
    ensures Daemons(es) == DaemonIds(es, ids)
  {
    hide ParseEntry;
    forall i | 0 <= i < |es|
      ensures IsDaemon(es[i]) <==> es[i].kind == 3
    {
      ParseIs(es[i], ids[i]);
      assert IsKind(es[i].kind, Daemon) <==> es[i].kind == 3;
    }
    forall id | id in Daemons(es)
      ensures id in DaemonIds(es, ids)
    {
      var e :| e in es && IsDaemon(e) && ParseEntry(e).value.id == id;
      var i :| 0 <= i < |es| && es[i] == e;
      assert ids[i] == id;
    }
  }

  /** Every entry of a known kind verifies as the one of the map. */
  predicate AllVerified(es: seq<RegistryEntry>, ids: seq<PrincipalId>, entries: map<PrincipalId, VerifiedEntry>,
                        c: Context)
    requires Listed(es, ids)
  {
    forall i | 0 <= i < |es| && IsKnown(es[i]) ::
      ids[i] in entries && entries[ids[i]].id == ids[i] && IsKind(es[i].kind, entries[ids[i]].kind)
      && VerifyEntry(es[i], ids[i], entries[ids[i]].kind, c) == Success(entries[ids[i]])
  }

  lemma KeysOfKnown(es: seq<RegistryEntry>, ids: seq<PrincipalId>, entries: map<PrincipalId, VerifiedEntry>,
                    c: Context, x: nat)
    requires Listed(es, ids) && AllVerified(es, ids, entries, c) && x < |es|
    ensures IsKnown(es[x]) ==>
              EntryKeys(es[x], c) == VerifiedKeys(entries[ids[x]]) && HasHalves(entries[ids[x]].bindings)
    ensures !IsKnown(es[x]) ==> EntryKeys(es[x], c) == [ids[x].genesis]
  {
    hide ParseEntry, VerifyEntry, VerifiedKeys, KeyOf;
    ParseIs(es[x], ids[x]);
    if IsKnown(es[x]) {
      EntryVerified(es[x], ids[x], entries[ids[x]].kind, c);
    }
  }

  /** Where the place `p` of entry `x` stands among the keys of that entry. */
  lemma TakenPosition(es: seq<RegistryEntry>, ids: seq<PrincipalId>, entries: map<PrincipalId, VerifiedEntry>,
                      c: Context, x: nat, p: Place) returns (i: nat)
    requires Listed(es, ids) && AllVerified(es, ids, entries, c) && x < |es|
    requires TakenAt(es[x], ids[x], entries, p).Some?
    ensures i < |EntryKeys(es[x], c)| && Some(EntryKeys(es[x], c)[i]) == TakenAt(es[x], ids[x], entries, p)
    ensures IsKnown(es[x]) ==> i == Position(entries[ids[x]], p)
    ensures !IsKnown(es[x]) ==> p == GenesisKey && i == 0
  {
    hide ParseEntry, VerifyEntry, EntryKeys, VerifiedKeys, Position, KeyAt;
    KeysOfKnown(es, ids, entries, c, x);
    if IsKnown(es[x]) {
      PositionHolds(entries[ids[x]], p);
      i := Position(entries[ids[x]], p);
    } else {
      i := 0;
    }
  }

  lemma PositionTaken(es: seq<RegistryEntry>, ids: seq<PrincipalId>, entries: map<PrincipalId, VerifiedEntry>,
                      c: Context, x: nat, i: nat) returns (p: Place)
    requires Listed(es, ids) && AllVerified(es, ids, entries, c) && x < |es| && i < |EntryKeys(es[x], c)|
    ensures Some(EntryKeys(es[x], c)[i]) == TakenAt(es[x], ids[x], entries, p)
    ensures IsKnown(es[x]) ==> KeyAt(entries[ids[x]], p).Some? && i == Position(entries[ids[x]], p)
    ensures !IsKnown(es[x]) ==> i == 0
  {
    hide EntryKeys, VerifiedKeys, Position, KeyAt, ParseEntry, VerifyEntry, EntryHolds;
    KeysOfKnown(es, ids, entries, c, x);
    if IsKnown(es[x]) {
      p := PlaceAt(entries[ids[x]], i);
      PositionHolds(entries[ids[x]], p);
    } else {
      p := GenesisKey;
    }
  }

  lemma KeysAreApart(es: seq<RegistryEntry>, ids: seq<PrincipalId>, entries: map<PrincipalId, VerifiedEntry>,
                     c: Context)
    requires Listed(es, ids) && AllVerified(es, ids, entries, c)
    ensures NoRepeat(Bag(KeysIn(c), es)) <==> KeysApart(es, ids, entries)
  {
    hide Bag, NoRepeat;
    SeparateIs(KeysIn(c), es);
    if Separate(KeysIn(c), es) {
      PlacesSeparate(es, ids, entries, c);
    }
    if KeysApart(es, ids, entries) {
      PositionsSeparate(es, ids, entries, c);
    }
  }

  lemma PlacesSeparate(es: seq<RegistryEntry>, ids: seq<PrincipalId>, entries: map<PrincipalId, VerifiedEntry>,
                       c: Context)
    requires Listed(es, ids) && AllVerified(es, ids, entries, c) && Separate(KeysIn(c), es)
    ensures KeysApart(es, ids, entries)
  {
    hide ParseEntry, VerifyEntry, EntryKeys, KeyAt, Position;
    forall x: nat, p: Place, y: nat, q: Place
      | && x < |es| && y < |es|
        && TakenAt(es[x], ids[x], entries, p).Some?
        && TakenAt(es[x], ids[x], entries, p) == TakenAt(es[y], ids[y], entries, q)
      ensures x == y && p == q
    {
      var i := TakenPosition(es, ids, entries, c, x, p);
      var j := TakenPosition(es, ids, entries, c, y, q);
      assert KeysIn(c)(es[x])[i] == KeysIn(c)(es[y])[j];
      KeysOfKnown(es, ids, entries, c, x);
      if IsKnown(es[x]) {
        SamePlace(es[x], ids[x], entries, p, q);
      }
    }
  }

  lemma SamePlace(e: RegistryEntry, id: PrincipalId, entries: map<PrincipalId, VerifiedEntry>, p: Place, q: Place)
    requires IsKnown(e) && TakenAt(e, id, entries, p).Some? && TakenAt(e, id, entries, q).Some?
    requires id in entries && HasHalves(entries[id].bindings)
    requires KeyAt(entries[id], p).Some? && KeyAt(entries[id], q).Some?
    requires Position(entries[id], p) == Position(entries[id], q)
    ensures p == q
  {
    hide Position, KeyAt;
    PositionsDiffer(entries[id], p, q);
  }

  lemma PositionsSeparate(es: seq<RegistryEntry>, ids: seq<PrincipalId>, entries: map<PrincipalId, VerifiedEntry>,
                          c: Context)
    requires Listed(es, ids) && AllVerified(es, ids, entries, c) && KeysApart(es, ids, entries)
    ensures Separate(KeysIn(c), es)
  {
    hide ParseEntry, VerifyEntry, EntryKeys, KeyAt, Position;
    var f := KeysIn(c);
    forall x: nat, i: nat, y: nat, j: nat
      | x < |es| && y < |es| && i < |f(es[x])| && j < |f(es[y])| && f(es[x])[i] == f(es[y])[j]
      ensures x == y && i == j
    {
      var p := PositionTaken(es, ids, entries, c, x, i);
      var q := PositionTaken(es, ids, entries, c, y, j);
      assert TakenAt(es[x], ids[x], entries, p) == TakenAt(es[y], ids[y], entries, q);
    }
  }

  lemma EntriesAre(es: seq<RegistryEntry>, ids: seq<PrincipalId>, entries: map<PrincipalId, VerifiedEntry>, c: Context)
    requires Listed(es, ids)
    ensures AllVerified(es, ids, entries, c) <==>
              forall i | 0 <= i < |es| && IsKnown(es[i]) ::
                ids[i] in entries && EntryOf(es[i], ids[i], entries[ids[i]], c)
  {
    hide ParseEntry, VerifyEntry, EntryHolds, IsKind;
    forall i | 0 <= i < |es| && IsKnown(es[i]) && ids[i] in entries {
      EntryIs(es[i], entries[ids[i]], c);
    }
  }

  lemma NamesHold(es: seq<RegistryEntry>)
    ensures (forall e <- es :: NameOk(e)) <==> forall i | 0 <= i < |es| :: NameHolds(es[i])
  {
    hide NameOk, NameHolds;
    forall i | 0 <= i < |es|
      ensures NameOk(es[i]) <==> NameHolds(es[i])
    {
      NameIs(es[i]);
    }
  }

  /** The conditions on a registry, said of the ids that its entries parse to. */
  lemma OkIs(reg: PrincipalRegistry, chain: AuthorityChain, ids: seq<PrincipalId>,
             entries: map<PrincipalId, VerifiedEntry>)
    requires Listed(reg.entries, ids)
    requires AllVerified(reg.entries, ids, entries, ContextOf(reg, chain))
    ensures RegistryOk(reg, chain) <==>
              && (forall i | 0 <= i < |ids| :: NameHolds(reg.entries[i]))
              && ShortIdsApart(ids) && NamesApart(reg.entries) && KeysApart(reg.entries, ids, entries)
              && exists i | 0 <= i < |ids| :: IsKnown(reg.entries[i]) && ids[i] == chain.Principal()
  {
    hide ParseEntry, VerifyEntry, NameOk, NameHolds, Bag, NoRepeat, KeysApart, NamesApart, ShortIdsApart;
    var es, c := reg.entries, ContextOf(reg, chain);
    ShortIdsAre(es, ids);
    NamesAre(es, ids);
    KeysAreApart(es, ids, entries, c);
    NamesHold(es);
    forall i | 0 <= i < |es|
      ensures Known(es[i]) <==> IsKnown(es[i])
      ensures EntryOk(es[i], c) <==> NameOk(es[i])
    {
      ParseIs(es[i], ids[i]);
    }
    if i :| 0 <= i < |ids| && IsKnown(es[i]) && ids[i] == chain.Principal() {
      assert Known(es[i]) && es[i] in es;
    }
  }

  lemma KnownListed(es: seq<RegistryEntry>, ids: seq<PrincipalId>, id: PrincipalId)
    requires Listed(es, ids)
    ensures (exists e <- es :: Known(e) && ParseEntry(e).value.id == id)
       <==> exists i | 0 <= i < |ids| :: IsKnown(es[i]) && ids[i] == id
  {
    hide ParseEntry, IsKnown;
    forall i | 0 <= i < |es|
      ensures Known(es[i]) <==> IsKnown(es[i])
    {
      ParseIs(es[i], ids[i]);
    }
    if i :| 0 <= i < |ids| && IsKnown(es[i]) && ids[i] == id {
      assert Known(es[i]) && es[i] in es;
    }
  }

  lemma ValuesVerified(reg: PrincipalRegistry, chain: AuthorityChain, ids: seq<PrincipalId>,
                       entries: map<PrincipalId, VerifiedEntry>)
    requires Listed(reg.entries, ids) && RegistryOk(reg, chain)
    ensures (forall e <- reg.entries | Known(e) ::
               && ParseEntry(e).value.id in entries
               && entries[ParseEntry(e).value.id] == Verified(e, ContextOf(reg, chain)))
       <==> AllVerified(reg.entries, ids, entries, ContextOf(reg, chain))
  {
    hide ParseEntry, VerifyEntry, Verified, EntryOk, Bag, NoRepeat, IsKind, IsKnown;
    var es, c := reg.entries, ContextOf(reg, chain);
    forall i | 0 <= i < |es|
      ensures Known(es[i]) <==> IsKnown(es[i])
      ensures EntryOk(es[i], c)
      ensures Known(es[i]) && ids[i] in entries && entries[ids[i]] == Verified(es[i], c) <==>
                && IsKnown(es[i]) && ids[i] in entries && entries[ids[i]].id == ids[i]
                && IsKind(es[i].kind, entries[ids[i]].kind)
                && VerifyEntry(es[i], ids[i], entries[ids[i]].kind, c) == Success(entries[ids[i]])
    {
      OneEntry(es[i], ids[i], entries, c);
    }
  }

  /** The map holds exactly the verified entries. */
  lemma MapIs(reg: PrincipalRegistry, chain: AuthorityChain, ids: seq<PrincipalId>,
              entries: map<PrincipalId, VerifiedEntry>)
    requires Listed(reg.entries, ids) && RegistryOk(reg, chain)
    ensures Accepts(reg, chain, entries) <==>
              && (forall id <- entries :: exists i | 0 <= i < |ids| :: IsKnown(reg.entries[i]) && ids[i] == id)
              && AllVerified(reg.entries, ids, entries, ContextOf(reg, chain))
  {
    hide ParseEntry, VerifyEntry, Verified, EntryOk, RegistryOk, IsKnown;
    ValuesVerified(reg, chain, ids, entries);
    forall id | id in entries
      ensures (exists e <- reg.entries :: Known(e) && ParseEntry(e).value.id == id)
         <==> exists i | 0 <= i < |ids| :: IsKnown(reg.entries[i]) && ids[i] == id
    {
      KnownListed(reg.entries, ids, id);
    }
  }

  lemma OneEntry(e: RegistryEntry, id: PrincipalId, entries: map<PrincipalId, VerifiedEntry>, c: Context)
    requires ParseEntry(e).Success? && ParseEntry(e).value.id == id && EntryOk(e, c)
    ensures Known(e) <==> IsKnown(e)
    ensures Known(e) && id in entries && entries[id] == Verified(e, c) <==>
              && IsKnown(e) && id in entries && entries[id].id == id && IsKind(e.kind, entries[id].kind)
              && VerifyEntry(e, id, entries[id].kind, c) == Success(entries[id])
  {
    hide ParseEntry, VerifyEntry, NameOk, EntryInvariant, IsKind, IsKnown;
    ParseIs(e, id);
    if Known(e) {
      EntryVerified(e, id, ParseEntry(e).value.kind.value, c);
    }
  }

  /** A registry is accepted with a map of entries exactly when its wire form describes that map. */
  lemma RegistryIs(reg: PrincipalRegistry, chain: AuthorityChain, entries: map<PrincipalId, VerifiedEntry>)
    ensures Accepts(reg, chain, entries) <==> exists ids :: Describes(reg, chain, ids, entries)
  {
    hide Accepts, Describes;
    if Accepts(reg, chain, entries) {
      var ids := AcceptedMeans(reg, chain, entries);
    }
    if ids :| Describes(reg, chain, ids, entries) {
      DescribedIsAccepted(reg, chain, ids, entries);
    }
  }

  lemma AcceptedMeans(reg: PrincipalRegistry, chain: AuthorityChain, entries: map<PrincipalId, VerifiedEntry>)
    returns (ids: seq<PrincipalId>)
    requires Accepts(reg, chain, entries)
    ensures Describes(reg, chain, ids, entries)
  {
    hide ParseEntry, VerifyEntry, NameOk, NameHolds, Bag, NoRepeat, KeysApart, NamesApart, ShortIdsApart, EntryOf,
         IsKind, Display, IsKnown;
    var es, c := reg.entries, ContextOf(reg, chain);
    assert forall i | 0 <= i < |es| :: EntryOk(es[i], c);
    ids := seq(|es|, i requires 0 <= i < |es| => ParseEntry(es[i]).value.id);
    ListedIs(es, ids);
    MapIs(reg, chain, ids, entries);
    OkIs(reg, chain, ids, entries);
    DaemonsAre(es, ids);
    EntriesAre(es, ids, entries, c);
  }

  lemma DescribedIsAccepted(reg: PrincipalRegistry, chain: AuthorityChain, ids: seq<PrincipalId>,
                            entries: map<PrincipalId, VerifiedEntry>)
    requires Describes(reg, chain, ids, entries)
    ensures Accepts(reg, chain, entries)
  {
    hide ParseEntry, VerifyEntry, NameOk, NameHolds, Bag, NoRepeat, KeysApart, NamesApart, ShortIdsApart, EntryOf,
         IsKind, Display, IsKnown, RegistryOk, Accepts;
    var es, c := reg.entries, ContextOf(reg, chain);
    ListedIs(es, ids);
    DaemonsAre(es, ids);
    EntriesAre(es, ids, entries, c);
    OkIs(reg, chain, ids, entries);
    MapIs(reg, chain, ids, entries);
  }
}
