/** What acceptance of a registry means for its entries, keys and order. */
module RegistryFacts {
  import opened Wrappers
  import opened Bytes
  import opened Primitives
  import opened Errors
  import opened Wire
  import opened Transcripts
  import opened Authority
  import opened Principal
  import opened Registry

  // Bags.

  lemma {:induction false} BagConcat<T, U>(f: T -> seq<U>, a: seq<T>, b: seq<T>)
    ensures Bag(f, a + b) == Bag(f, a) + Bag(f, b)
  {
    if b == [] {
      assert a + b == a;
    } else {
      var n := |b| - 1;
      assert (a + b)[..|a + b| - 1] == a + b[..n];
      BagConcat(f, a, b[..n]);
    }
  }

  lemma BagOne<T, U>(f: T -> seq<U>, x: T)
    ensures Bag(f, [x]) == multiset(f(x))
  {
    assert [x][..0] == [];
  }

  lemma BagAt<T, U>(f: T -> seq<U>, s: seq<T>, i: nat)
    requires i < |s|
    ensures Bag(f, s) == Bag(f, s[..i]) + multiset(f(s[i])) + Bag(f, s[i + 1..])
  {
    assert s == s[..i] + [s[i]] + s[i + 1..];
    BagConcat(f, s[..i] + [s[i]], s[i + 1..]);
    BagConcat(f, s[..i], [s[i]]);
    BagOne(f, s[i]);
  }

  lemma BagPair<T, U>(f: T -> seq<U>, s: seq<T>, i: nat, j: nat)
    requires i < j < |s|
    ensures multiset(f(s[i])) + multiset(f(s[j])) <= Bag(f, s)
  {
    BagAt(f, s, i);
    BagAt(f, s[i + 1..], j - i - 1);
  }

  lemma MultisetWithout<T>(s: seq<T>, i: nat)
    requires i < |s|
    ensures multiset(s[..i] + s[i + 1..]) == multiset(s) - multiset{s[i]}
  {
    assert s == s[..i] + [s[i]] + s[i + 1..];
  }

  lemma BagWithout<T, U>(f: T -> seq<U>, s: seq<T>, i: nat)
    requires i < |s|
    ensures Bag(f, s) == Bag(f, s[..i] + s[i + 1..]) + multiset(f(s[i]))
  {
    BagConcat(f, s[..i], s[i + 1..]);
    BagAt(f, s, i);
  }

  lemma {:induction false} BagPermutes<T, U>(f: T -> seq<U>, a: seq<T>, b: seq<T>)
    requires multiset(a) == multiset(b)
    ensures Bag(f, a) == Bag(f, b)
  {
    if a == [] {
      assert |b| == |multiset(b)| == |multiset(a)| == 0;
    } else {
      var n := |a| - 1;
      assert a == a[..n] + [a[n]] && a[..n] == a[..n] + a[n + 1..];
      assert a[n] in multiset(b);
      var i :| 0 <= i < |b| && b[i] == a[n];
      assert b == b[..i] + [b[i]] + b[i + 1..];
      MultisetWithout(a, n);
      MultisetWithout(b, i);
      BagPermutes(f, a[..n], b[..i] + b[i + 1..]);
      BagWithout(f, b, i);
    }
  }

  /** In a list whose bag has no repeat, a value occurs at one place of one element only. */
  lemma NoRepeatPlaces<T, U>(f: T -> seq<U>, s: seq<T>, x: nat, i: nat, y: nat, j: nat)
    requires NoRepeat(Bag(f, s))
    requires x < |s| && i < |f(s[x])| && y < |s| && j < |f(s[y])| && f(s[x])[i] == f(s[y])[j]
    ensures x == y && i == j
  {
    var u := f(s[x])[i];
    BagAt(f, s, x);
    assert u in multiset(f(s[x])) && u in multiset(f(s[y]));
    assert u in Bag(f, s);
    if x < y {
      BagPair(f, s, x, y);
    } else if y < x {
      BagPair(f, s, y, x);
    } else if i != j {
      TwicePlaced(f(s[x]), i, j);
    }
  }

  lemma TwicePlaced<U>(s: seq<U>, i: nat, j: nat)
    requires i < |s| && j < |s| && i != j && s[i] == s[j]
    ensures multiset(s)[s[i]] >= 2
  {
    var a, b := if i < j then i else j, if i < j then j else i;
    assert s == s[..a] + [s[a]] + s[a + 1..b] + [s[b]] + s[b + 1..];
  }

  // Order.

  lemma SameMembers<T>(a: seq<T>, b: seq<T>)
    requires multiset(a) == multiset(b)
    ensures forall e :: e in a <==> e in b
  {
    assert forall e :: e in a <==> e in multiset(a);
    assert forall e :: e in b <==> e in multiset(b);
  }

  /** Acceptance and the resulting entries do not depend on the order in which a registry lists its entries. */
  lemma OrderDoesNotMatter(a: PrincipalRegistry, b: PrincipalRegistry, chain: AuthorityChain,
                           entries: map<PrincipalId, VerifiedEntry>)
    requires multiset(a.entries) == multiset(b.entries)
    ensures RegistryOk(a, chain) == RegistryOk(b, chain)
    ensures Accepts(a, chain, entries) == Accepts(b, chain, entries)
  {
    hide EntryOk, ParseEntry, Verified, EntryKeys, Bag, NoRepeat;
    SameMembers(a.entries, b.entries);
    assert Daemons(a.entries) == Daemons(b.entries);
    BagPermutes(ShortIdsIn(), a.entries, b.entries);
    BagPermutes(NamesIn(), a.entries, b.entries);
    BagPermutes(KeysIn(ContextOf(a, chain)), a.entries, b.entries);
  }

  /** A registry is accepted with one entry map only. */
  lemma AcceptedEntriesUnique(reg: PrincipalRegistry, chain: AuthorityChain,
                              m: map<PrincipalId, VerifiedEntry>, n: map<PrincipalId, VerifiedEntry>)
    requires Accepts(reg, chain, m) && Accepts(reg, chain, n)
    ensures m == n
  {
    hide EntryOk, ParseEntry, Verified, RegistryOk;
    assert m.Keys == n.Keys;
  }

  // Distinctness.

  /** Across the whole registry, no key is taken twice: not by two entries, not twice by one. */
  lemma RegistryKeysDistinct(reg: PrincipalRegistry, chain: AuthorityChain, x: nat, i: nat, y: nat, j: nat)
    requires RegistryOk(reg, chain) && x < |reg.entries| && y < |reg.entries|
    requires var c := ContextOf(reg, chain);
             && i < |EntryKeys(reg.entries[x], c)| && j < |EntryKeys(reg.entries[y], c)|
             && EntryKeys(reg.entries[x], c)[i] == EntryKeys(reg.entries[y], c)[j]
    ensures x == y && i == j
  {
    hide EntryKeys, EntryOk;
    NoRepeatPlaces(KeysIn(ContextOf(reg, chain)), reg.entries, x, i, y, j);
  }

  /** No two entries have the same id, so no insert into the entry map replaces another. */
  lemma EntryIdsDistinct(reg: PrincipalRegistry, chain: AuthorityChain, x: nat, y: nat)
    requires RegistryOk(reg, chain) && x < |reg.entries| && y < |reg.entries|
    requires ParseEntry(reg.entries[x]).Success? && ParseEntry(reg.entries[y]).Success?
    requires ParseEntry(reg.entries[x]).value.id == ParseEntry(reg.entries[y]).value.id
    ensures x == y
  {
    hide ParseEntry, EntryKeys, EntryOk;
    assert EntryShortIds(reg.entries[x])[0] == EntryShortIds(reg.entries[y])[0];
    NoRepeatPlaces(ShortIdsIn(), reg.entries, x, 0, y, 0);
  }

  /** The place of a verified entry in its registry. */
  lemma EntryPlace(reg: PrincipalRegistry, chain: AuthorityChain, entries: map<PrincipalId, VerifiedEntry>,
                   id: PrincipalId) returns (x: nat)
    requires Accepts(reg, chain, entries) && id in entries
    ensures x < |reg.entries| && Known(reg.entries[x]) && ParseEntry(reg.entries[x]).value.id == id
    ensures EntryOk(reg.entries[x], ContextOf(reg, chain))
    ensures entries[id] == Verified(reg.entries[x], ContextOf(reg, chain))
    ensures EntryKeys(reg.entries[x], ContextOf(reg, chain)) == VerifiedKeys(entries[id])
  {
    hide ParseEntry, VerifyEntry, VerifiedKeys;
    var e :| e in reg.entries && Known(e) && ParseEntry(e).value.id == id;
    x :| 0 <= x < |reg.entries| && reg.entries[x] == e;
  }

  /** Roots, encryption halves, device, device-encryption and approval keys of accepted entries are pairwise
    * distinct across the whole entry map. */
  lemma AcceptedKeysDistinct(reg: PrincipalRegistry, chain: AuthorityChain, entries: map<PrincipalId, VerifiedEntry>,
                             p: PrincipalId, i: nat, q: PrincipalId, j: nat)
    requires Accepts(reg, chain, entries) && p in entries && q in entries
    requires i < |VerifiedKeys(entries[p])| && j < |VerifiedKeys(entries[q])|
    requires VerifiedKeys(entries[p])[i] == VerifiedKeys(entries[q])[j]
    ensures p == q && i == j
  {
    hide EntryKeys, VerifiedKeys, ParseEntry, EntryOk;
    var x := EntryPlace(reg, chain, entries, p);
    var y := EntryPlace(reg, chain, entries, q);
    RegistryKeysDistinct(reg, chain, x, i, y, j);
  }

  lemma {:induction false} BindingPlace(bs: seq<VerifiedBinding>, n: nat, k: PublicKey) returns (i: nat)
    requires n < |bs| && k in BindingKeys(bs[n])
    ensures i < |BindingsKeys(bs)| && BindingsKeys(bs)[i] == k
    ensures |BindingsKeys(bs[..n])| <= i < |BindingsKeys(bs[..n + 1])|
  {
    hide BindingKeys;
    var m := |bs| - 1;
    var at :| 0 <= at < |BindingKeys(bs[n])| && BindingKeys(bs[n])[at] == k;
    i := |BindingsKeys(bs[..n])| + at;
    assert bs[..n + 1][..n] == bs[..n];
    BindingsKeysGrow(bs, n + 1);
  }

  lemma {:induction false} BindingsKeysGrow(bs: seq<VerifiedBinding>, n: nat)
    requires n <= |bs|
    ensures BindingsKeys(bs[..n]) <= BindingsKeys(bs)
  {
    hide BindingKeys;
    if n < |bs| {
      assert bs[..|bs| - 1][..n] == bs[..n];
      BindingsKeysGrow(bs[..|bs| - 1], n);
    } else {
      assert bs[..n] == bs;
    }
  }

  /** Binding keys come after the entry's own. */
  lemma OwnPlace(v: VerifiedEntry, i: nat) returns (x: nat)
    requires i < |BindingsKeys(v.bindings)|
    ensures x < |VerifiedKeys(v)| && VerifiedKeys(v)[x] == BindingsKeys(v.bindings)[i]
    ensures x == |VerifiedKeys(v)| - |BindingsKeys(v.bindings)| + i
  {
    hide BindingsKeys;
    x := |VerifiedKeys(v)| - |BindingsKeys(v.bindings)| + i;
  }

  /** A key bound anywhere (as device, its encryption half or approval key) is bound in one place: the first
    * match of a search by device or approval key is the only one. */
  lemma BoundOnce(reg: PrincipalRegistry, chain: AuthorityChain, entries: map<PrincipalId, VerifiedEntry>,
                  p: PrincipalId, m: nat, q: PrincipalId, n: nat, k: PublicKey)
    requires Accepts(reg, chain, entries) && p in entries && q in entries
    requires m < |entries[p].bindings| && k in BindingKeys(entries[p].bindings[m])
    requires n < |entries[q].bindings| && k in BindingKeys(entries[q].bindings[n])
    ensures p == q && m == n
  {
    hide Accepts, BindingKeys, VerifiedKeys, BindingsKeys;
    var bs, cs := entries[p].bindings, entries[q].bindings;
    var i := BindingPlace(bs, m, k);
    var j := BindingPlace(cs, n, k);
    var x := OwnPlace(entries[p], i);
    var y := OwnPlace(entries[q], j);
    AcceptedKeysDistinct(reg, chain, entries, p, x, q, y);
    if m < n {
      assert bs[..n][..m + 1] == bs[..m + 1];
      BindingsKeysGrow(bs[..n], m + 1);
    } else if n < m {
      assert bs[..m][..n + 1] == bs[..n + 1];
      BindingsKeysGrow(bs[..m], n + 1);
    }
  }

  // Single entries.

  /** What a verified entry keeps of its wire form. */
  predicate EntryInvariant(v: VerifiedEntry, c: Context) {
    && (v.currentRoot.Some? ==> Last(v.roots) == Some(v.currentRoot.value.signing))
    && (v.currentRoot.Some? && v.id != c.chain.Principal() ==>
          RotationRoots(v.id.genesis, v.rotations) == Success(v.roots))
    && (v.currentRoot.Some? && v.id == c.chain.Principal() ==> v.roots == c.chain.roots && v.rotations == [])
    && (v.currentRoot.None? ==> v.roots == [] && v.kind == Agent && v.rotations == [])
    && (v.bindings != [] ==> v.kind == Human)
    && (v.id == c.chain.Principal() ==> v.kind == Human && !v.frozen)
    && (forall r <- v.revocations :: Last(v.roots) != Some(r.0))
    && (forall b <- v.bindings :: BindingInvariant(b, v))
  }

  /** A binding is signed by the current root, for this principal, and keeps its delegated keys. */
  predicate BindingInvariant(b: VerifiedBinding, v: VerifiedEntry) {
    && v.currentRoot.Some?
    && Delegated(b.device, v, PURPOSE_DEVICE, b.deviceKey)
    && KeyOf(b.device.delegatedEncryption).Some?
    && (b.approval.Some? ==> Delegated(b.approval.value.0, v, PURPOSE_APPROVAL, b.approval.value.1))
  }

  predicate Delegated(d: KeyDelegation, v: VerifiedEntry, purpose: int, k: PublicKey) {
    && KeyOf(d.principalGenesis) == Some(v.id.genesis)
    && v.currentRoot.Some? && KeyOf(d.signingRoot) == Some(v.currentRoot.value.signing)
    && d.purpose == purpose
    && d.notAfter != 0
    && DelegationVerifies(d, v.currentRoot.value.signing)
    && KeyOf(d.delegated) == Some(k)
  }

  lemma DelegationIs(d: KeyDelegation, id: PrincipalId, root: PublicKey, purpose: int, field: Field, v: VerifiedEntry)
    requires v.currentRoot.Some? && v.currentRoot.value.signing == root && v.id == id
    requires CheckDelegation(d, id, root, purpose, field).Success?
    ensures Delegated(d, v, purpose, CheckDelegation(d, id, root, purpose, field).value)
  {
    hide DelegationVerifies, KeyOf;
  }

  /** A DEVICE transcript requires the encryption half. */
  lemma DeviceHasEncryption(d: KeyDelegation, root: PublicKey)
    requires DelegationVerifies(d, root) && d.purpose == PURPOSE_DEVICE
    ensures KeyOf(d.delegatedEncryption).Some?
  {
    hide TagText;
  }

  lemma BindingVerified(b: DeviceBinding, v: VerifiedEntry, daemons: set<PrincipalId>)
    requires v.currentRoot.Some?
    requires VerifyBinding(b, v.id, Some(v.currentRoot.value.signing), daemons).Success?
    ensures BindingInvariant(VerifyBinding(b, v.id, Some(v.currentRoot.value.signing), daemons).value, v)
  {
    hide CheckDelegation, Delegated, KeyOf, VerifyHostSlot;
    var root := v.currentRoot.value.signing;
    DelegationIs(b.device.value, v.id, root, PURPOSE_DEVICE, EntryDevices, v);
    if b.approval.Some? {
      DelegationIs(b.approval.value, v.id, root, PURPOSE_APPROVAL, DeviceApproval, v);
    }
  }

  lemma {:induction false} BindingsVerified(bs: seq<DeviceBinding>, v: VerifiedEntry, daemons: set<PrincipalId>)
    requires v.currentRoot.Some?
    requires VerifyBindings(bs, v.id, Some(v.currentRoot.value.signing), daemons).Success?
    ensures forall b <- VerifyBindings(bs, v.id, Some(v.currentRoot.value.signing), daemons).value ::
              BindingInvariant(b, v)
  {
    hide VerifyBinding, BindingInvariant;
    if bs != [] {
      BindingsVerified(bs[..|bs| - 1], v, daemons);
      BindingVerified(bs[|bs| - 1], v, daemons);
    }
  }

  lemma {:induction false} RevocationsVerified(rs: seq<KeyRevocation>, id: PrincipalId, kind: PrincipalKind,
                                               roots: seq<PublicKey>, own: seq<PublicKey>)
    requires VerifyRevocations(rs, id, kind, roots, own).Success?
    ensures forall r <- VerifyRevocations(rs, id, kind, roots, own).value :: Last(roots) != Some(r.0)
  {
    hide RevocationVerifies, KeyOf;
    if rs != [] {
      RevocationsVerified(rs[..|rs| - 1], id, kind, roots, own);
    }
  }

  lemma EntryVerified(e: RegistryEntry, id: PrincipalId, kind: PrincipalKind, c: Context)
    requires VerifyEntry(e, id, kind, c).Success?
    ensures var v := VerifyEntry(e, id, kind, c).value;
            EntryInvariant(v, c) && v.id == id && v.kind == kind && v.name == e.name && v.frozen == e.frozen
  {
    hide VerifyBindings, VerifyRevocations, VerifyHosts, BindingInvariant, BindingsKeys, RotationRoots, ParseDuo;
    var v := VerifyEntry(e, id, kind, c).value;
    RevocationsVerified(e.revocations, id, kind, v.roots, v.roots + BindingsKeys(v.bindings));
    if e.devices != [] {
      BindingsVerified(e.devices, v, c.daemons);
    } else {
      NoBindings(id, Last(v.roots), c.daemons);
    }
  }

  lemma NoBindings(id: PrincipalId, root: Option<PublicKey>, daemons: set<PrincipalId>)
    ensures VerifyBindings([], id, root, daemons) == Success([])
  {}

  lemma AcceptedEntryInvariant(reg: PrincipalRegistry, chain: AuthorityChain,
                               entries: map<PrincipalId, VerifiedEntry>, id: PrincipalId)
    requires Accepts(reg, chain, entries) && id in entries
    ensures EntryInvariant(entries[id], ContextOf(reg, chain)) && entries[id].id == id
  {
    hide ParseEntry, VerifyEntry, EntryInvariant, EntryKeys;
    var x := EntryPlace(reg, chain, entries, id);
    var e := reg.entries[x];
    EntryVerified(e, id, ParseEntry(e).value.kind.value, ContextOf(reg, chain));
  }

  /** The authority of an accepted registry has a self-rooted HUMAN entry that is not frozen. */
  lemma AuthorityHasEntry(reg: PrincipalRegistry, chain: AuthorityChain, entries: map<PrincipalId, VerifiedEntry>)
    requires Accepts(reg, chain, entries)
    ensures chain.Principal() in entries
    ensures var v := entries[chain.Principal()]; v.kind == Human && !v.frozen && v.IsSelfRooted()
  {
    hide ParseEntry, EntryOk, Verified, EntryKeys;
    AcceptedEntryInvariant(reg, chain, entries, chain.Principal());
  }

  // The `expect` calls of the checker.

  lemma BindingNeverPanics(b: DeviceBinding, id: PrincipalId, root: PublicKey, daemons: set<PrincipalId>)
    requires VerifyBinding(b, id, Some(root), daemons).Failure?
    ensures VerifyBinding(b, id, Some(root), daemons).error.InvalidRegistry?
  {
    hide DelegationVerifies, KeyOf;
    if b.device.Some? && CheckDelegation(b.device.value, id, root, PURPOSE_DEVICE, EntryDevices).Success? {
      DeviceHasEncryption(b.device.value, root);
    }
  }

  lemma {:induction false} BindingsNeverPanic(bs: seq<DeviceBinding>, id: PrincipalId, root: PublicKey,
                                              daemons: set<PrincipalId>)
    requires VerifyBindings(bs, id, Some(root), daemons).Failure?
    ensures VerifyBindings(bs, id, Some(root), daemons).error.InvalidRegistry?
  {
    hide VerifyBinding;
    if VerifyBindings(bs[..|bs| - 1], id, Some(root), daemons).Failure? {
      BindingsNeverPanic(bs[..|bs| - 1], id, root, daemons);
    } else {
      BindingNeverPanics(bs[|bs| - 1], id, root, daemons);
    }
  }

  lemma {:induction false} RevocationErrors(rs: seq<KeyRevocation>, id: PrincipalId, kind: PrincipalKind,
                                            roots: seq<PublicKey>, own: seq<PublicKey>)
    requires VerifyRevocations(rs, id, kind, roots, own).Failure?
    ensures VerifyRevocations(rs, id, kind, roots, own).error.InvalidRegistry?
  {
    hide RevocationVerifies, KeyOf;
    if VerifyRevocations(rs[..|rs| - 1], id, kind, roots, own).Failure? {
      RevocationErrors(rs[..|rs| - 1], id, kind, roots, own);
    }
  }

  lemma {:induction false} HostErrors(hs: seq<Text>)
    requires VerifyHosts(hs).Failure?
    ensures VerifyHosts(hs).error.InvalidRegistry?
  {
    hide ParseCanonical;
    if VerifyHosts(hs[..|hs| - 1]).Failure? {
      HostErrors(hs[..|hs| - 1]);
    }
  }

  /** Neither `expect` of the entry checks can fail: every failure is a registry error. */
  lemma CheckerNeverPanics(e: RegistryEntry, id: PrincipalId, kind: PrincipalKind, c: Context)
    requires VerifyEntry(e, id, kind, c).Failure?
    ensures VerifyEntry(e, id, kind, c).error.InvalidRegistry?
  {
    hide VerifyBindings, VerifyRevocations, VerifyHosts, BindingsKeys, RotationRoots, ParseDuo;
    var r := EntryRoots(e, id, kind, c.chain);
    if r.Success? {
      var roots := r.value.0;
      var bindings := VerifyBindings(e.devices, id, Last(roots), c.daemons);
      if bindings.Failure? {
        if e.devices == [] {
          NoBindings(id, Last(roots), c.daemons);
        } else if roots != [] {
          BindingsNeverPanic(e.devices, id, roots[|roots| - 1], c.daemons);
        }
      } else {
        var own := roots + BindingsKeys(bindings.value);
        if VerifyRevocations(e.revocations, id, kind, roots, own).Failure? {
          RevocationErrors(e.revocations, id, kind, roots, own);
        } else if VerifyHosts(e.allowedHosts).Failure? {
          HostErrors(e.allowedHosts);
        }
      }
    }
  }

  // The keys that come up before a check fails, and what a failure reports.

  lemma DelegatedHalf(d: KeyDelegation, id: PrincipalId, root: PublicKey)
    requires CheckDelegation(d, id, root, PURPOSE_DEVICE, EntryDevices).Success?
    ensures KeyOf(d.delegatedEncryption).Some?
  {
    hide DelegationVerifies, KeyOf;
    DeviceHasEncryption(d, root);
  }

  lemma DeviceKeysAllMet(b: DeviceBinding, id: PrincipalId, root: Option<PublicKey>, daemons: set<PrincipalId>)
    requires VerifyBinding(b, id, root, daemons).Success?
    ensures DeviceKeysMet(b, id, root) == BindingKeys(VerifyBinding(b, id, root, daemons).value)
  {
    hide CheckDelegation, KeyOf;
  }

  lemma {:induction false} DevicesKeysAllMet(bs: seq<DeviceBinding>, id: PrincipalId, root: Option<PublicKey>,
                                             daemons: set<PrincipalId>)
    requires VerifyBindings(bs, id, root, daemons).Success?
    ensures DevicesKeysMet(bs, id, root, daemons) == BindingsKeys(VerifyBindings(bs, id, root, daemons).value)
  {
    hide VerifyBinding, DeviceKeysMet, BindingKeys;
    if bs != [] {
      var m := |bs| - 1;
      var init := VerifyBindings(bs[..m], id, root, daemons).value;
      var last := VerifyBinding(bs[m], id, root, daemons).value;
      assert (init + [last])[..|init|] == init;
      DeviceKeysAllMet(bs[m], id, root, daemons);
    }
  }

  lemma BagPrefixRepeats<T, U>(f: T -> seq<U>, s: seq<T>, n: nat)
    requires n <= |s| && NoRepeat(Bag(f, s))
    ensures NoRepeat(Bag(f, s[..n]))
  {
    assert s == s[..n] + s[n..];
    BagConcat(f, s[..n], s[n..]);
    forall x | x in Bag(f, s[..n])
      ensures Bag(f, s[..n])[x] == 1
    {
      assert x in Bag(f, s);
    }
  }

  lemma KeysAllMet(e: RegistryEntry, id: PrincipalId, kind: PrincipalKind, c: Context)
    requires VerifyEntry(e, id, kind, c).Success?
    ensures KeysMet(e, id, kind, c) == VerifiedKeys(VerifyEntry(e, id, kind, c).value)
  {
    hide EntryRoots, FieldRules, VerifyBindings, DevicesKeysMet, BindingsKeys, HeadKeys, VerifyRevocations, VerifyHosts;
    var roots := EntryRoots(e, id, kind, c.chain).value.0;
    DevicesKeysAllMet(e.devices, id, Last(roots), c.daemons);
  }

  /** A list with a refused entry does not pass. */
  lemma RefusedMeans(es: seq<RegistryEntry>, n: nat, c: Context, error: Error)
    requires n < |es| && EntryRefused(es, n, c, error)
    ensures !EntriesOk(es, c)
  {
    hide ParseEntry, VerifyEntry, KeysMet, VerifiedKeys, NoRepeat;
    assert es[..n + 1][..n] == es[..n];
    if EntriesOk(es, c) {
      var p := ParseEntry(es[n]).value;
      assert EntryVerifies(es[n], p, c);
      if p.kind.Some? {
        KeysAllMet(es[n], p.id, p.kind.value, c);
      }
      BagPrefixRepeats(KeysIn(c), es, n + 1);
    }
  }

  lemma IdRefusedMeans(es: seq<RegistryEntry>, n: nat, error: Error)
    requires n < |es| && IdRefused(es, n, error)
    ensures !IdsOk(es)
  {
    hide ParseCanonical;
    var here := EntryShortIds(es[n]);
    assert es[..n + 1][..n] == es[..n];
    if here != [] && here[0] in Bag(ShortIdsIn(), es[..n]) {
      assert Bag(ShortIdsIn(), es[..n + 1])[here[0]] >= 2;
    }
    if IdsOk(es) {
      BagPrefixRepeats(ShortIdsIn(), es, n + 1);
    }
  }

  // At most one entry is the first that a loop refuses, with one error.

  lemma IdRefusedWithin(es: seq<RegistryEntry>, m: nat, n: nat, error: Error)
    requires m < n <= |es| && IdRefused(es, m, error)
    ensures !IdsOk(es[..n])
  {
    hide IdsOk, ParseId, ShortId, Bag;
    assert es[..n][..m] == es[..m];
    IdRefusedMeans(es[..n], m, error);
  }

  lemma IdRefusedFirst(es: seq<RegistryEntry>, n: nat, error: Error)
    requires n < |es| && IdRefused(es, n, error)
    ensures IdsOk(es[..n]) && forall other :: IdRefused(es, n, other) ==> other == error
  {
    hide IdsOk, ParseId, ShortId, Bag;
  }

  lemma IdRefusedOnce(es: seq<RegistryEntry>, m: nat, n: nat, error: Error, other: Error)
    requires m < |es| && n < |es| && IdRefused(es, m, error) && IdRefused(es, n, other)
    ensures error == other
  {
    hide IdsOk, IdRefused;
    IdRefusedFirst(es, m, error);
    IdRefusedFirst(es, n, other);
    if m < n {
      IdRefusedWithin(es, m, n, error);
    } else if n < m {
      IdRefusedWithin(es, n, m, other);
    }
  }

  lemma EntryRefusedWithin(es: seq<RegistryEntry>, m: nat, n: nat, c: Context, error: Error)
    requires m < n <= |es| && EntryRefused(es, m, c, error)
    ensures !EntriesOk(es[..n], c)
  {
    hide EntriesOk, ParseEntry, VerifyEntry, ParsedKeysMet, Bag, NoRepeat;
    assert es[..n][..m] == es[..m];
    RefusedMeans(es[..n], m, c, error);
  }

  lemma EntryRefusedFirst(es: seq<RegistryEntry>, n: nat, c: Context, error: Error)
    requires n < |es| && EntryRefused(es, n, c, error)
    ensures EntriesOk(es[..n], c) && forall other :: EntryRefused(es, n, c, other) ==> other == error
  {
    hide EntriesOk, ParseEntry, VerifyEntry, ParsedKeysMet, Bag, NoRepeat;
  }

  lemma EntryRefusedOnce(es: seq<RegistryEntry>, m: nat, n: nat, c: Context, error: Error, other: Error)
    requires m < |es| && n < |es| && EntryRefused(es, m, c, error) && EntryRefused(es, n, c, other)
    ensures error == other
  {
    hide EntriesOk, EntryRefused;
    EntryRefusedFirst(es, m, c, error);
    EntryRefusedFirst(es, n, c, other);
    if m < n {
      EntryRefusedWithin(es, m, n, c, error);
    } else if n < m {
      EntryRefusedWithin(es, n, m, c, other);
    }
  }

  /** A registry is refused for one reason only: at most one error fits it. */
  lemma ReportIsUnique(reg: PrincipalRegistry, chain: AuthorityChain, error: Error, other: Error)
    requires Reports(reg, chain, error) && Reports(reg, chain, other)
    ensures error == other
  {
    hide IdsOk, NamesOk, EntriesOk, IdRefused, EntryRefused, ContextOf;
    var es, c := reg.entries, ContextOf(reg, chain);
    if !IdsOk(es) {
      var m :| 0 <= m < |es| && IdRefused(es, m, error);
      var n :| 0 <= n < |es| && IdRefused(es, n, other);
      IdRefusedOnce(es, m, n, error, other);
    } else if NamesOk(es) && !EntriesOk(es, c) {
      var m :| 0 <= m < |es| && EntryRefused(es, m, c, error);
      var n :| 0 <= n < |es| && EntryRefused(es, n, c, other);
      EntryRefusedOnce(es, m, n, c, error, other);
    }
  }

  lemma ReportsRegistryError(reg: PrincipalRegistry, chain: AuthorityChain, error: Error)
    requires Reports(reg, chain, error)
    ensures error.InvalidRegistry?
  {
    hide IdsOk, NamesOk, EntriesOk, ParseEntry, ParseId, VerifyEntry, ParsedKeysMet, Bag, NoRepeat;
    var es, c := reg.entries, ContextOf(reg, chain);
    if n :| 0 <= n < |es| && EntryRefused(es, n, c, error) && error != Bad(Entries) {
      var p := ParseEntry(es[n]).value;
      CheckerNeverPanics(es[n], p.id, p.kind.value, c);
    }
  }
}
