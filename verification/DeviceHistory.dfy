/** Which device keys of an agent count at a given time. */
module DeviceHistory {
  import opened Wrappers
  import opened Bytes
  import opened Primitives
  import opened Wire
  import opened Authority
  import opened Registry
  import opened KeyfileFacts
  import KeyfileRuns

  /** The key that a history entry adds to `keys` at `at`; an entry without a valid key adds none. */
  function Added(keys: seq<PublicKey>, current: PublicKey, e: RetiredDevice, at: i64): seq<PublicKey> {
    var key := KeyOf(e.signing);
    if e.retiredAt < at || key.None? || key.value == current || key.value in keys then keys else keys + [key.value]
  }

  function KeysAt(current: PublicKey, retired: seq<RetiredDevice>, at: i64): seq<PublicKey> {
    if retired == [] then [current]
    else Added(KeysAt(current, retired[..|retired| - 1], at), current, retired[|retired| - 1], at)
  }

  /** `device_keys_at` as it runs. */
  method DeviceKeysAt(current: PublicKey, retired: seq<RetiredDevice>, at: i64) returns (keys: seq<PublicKey>)
    ensures keys == KeysAt(current, retired, at)
  {
    keys := [current];
    for n := 0 to |retired|
      invariant keys == KeysAt(current, retired[..n], at)
    {
      assert retired[..n + 1][..n] == retired[..n];
      var e := retired[n];
      if e.retiredAt < at {
        continue;
      }
      if e.signing.None? {
        continue;
      }
      var key := ParseKey(e.signing.value);
      if key.Failure? {
        continue;
      }
      if key.value == current || key.value in keys {
        continue;
      }
      keys := keys + [key.value];
    }
    assert retired[..|retired|] == retired;
  }

  /** The list starts with the current key, has no duplicates, and holds, besides, exactly the keys retired at or
    * after `at`. */
  lemma {:induction false} KeysAtAre(current: PublicKey, retired: seq<RetiredDevice>, at: i64)
    ensures KeysAt(current, retired, at) != [] && KeysAt(current, retired, at)[0] == current
    ensures Distinct(KeysAt(current, retired, at))
    ensures forall k :: k in KeysAt(current, retired, at)
              <==> k == current || exists e <- retired :: e.signing == Some(ToPb(k)) && at <= e.retiredAt
  {
    if retired != [] {
      var n := |retired| - 1;
      KeysAtAre(current, retired[..n], at);
      assert retired == retired[..n] + [retired[n]];
    }
  }

  /** Later times accept fewer keys. */
  lemma LaterAcceptsFewer(current: PublicKey, retired: seq<RetiredDevice>, at: i64, later: i64)
    requires at <= later
    ensures forall k <- KeysAt(current, retired, later) :: k in KeysAt(current, retired, at)
  {
    hide KeysAt;
    KeysAtAre(current, retired, at);
    KeysAtAre(current, retired, later);
  }

  predicate IsSubsequence<T(==)>(a: seq<T>, b: seq<T>) {
    if a == [] then true
    else if b == [] then false
    else if a[|a| - 1] == b[|b| - 1] then IsSubsequence(a[..|a| - 1], b[..|b| - 1])
    else IsSubsequence(a, b[..|b| - 1])
  }

  // When the order of the list survives.

  /** The entry counts at `at`: its key is valid, not the current one, and not retired before. */
  predicate Live(e: RetiredDevice, current: PublicKey, at: i64) {
    KeyOf(e.signing).Some? && KeyOf(e.signing).value != current && at <= e.retiredAt
  }

  /** Entry `i` is the one that lists its key at `at`: it is live, and no earlier live entry has the key. */
  predicate Stands(retired: seq<RetiredDevice>, current: PublicKey, at: i64, i: nat) {
    && i < |retired| && Live(retired[i], current, at)
    && forall h | 0 <= h < i && Live(retired[h], current, at) :: retired[h].signing != retired[i].signing
  }

  /** The key that entry `i` lists at `at` has lapsed there by `later` and is then listed by entry `l`, behind the key
    * of entry `j`, of which nothing before `i` counted at `at`. */
  predicate Overtakes(retired: seq<RetiredDevice>, current: PublicKey, at: i64, later: i64, i: nat, j: nat, l: nat) {
    && i < j < l < |retired|
    && Stands(retired, current, at, i) && retired[i].retiredAt < later
    && Stands(retired, current, later, j)
    && Stands(retired, current, later, l) && retired[l].signing == retired[i].signing
    && forall h | 0 <= h < i && Live(retired[h], current, at) :: retired[h].signing != retired[j].signing
  }

  ghost predicate KeepsOrder(retired: seq<RetiredDevice>, current: PublicKey, at: i64, later: i64) {
    forall i: nat, j: nat, l: nat :: !Overtakes(retired, current, at, later, i, j, l)
  }

  /** After `retired`, entry `e` lists its key again at `later`, while a key listed at `later` already does not stand
    * before it at `at`. */
  ghost predicate Blocked(retired: seq<RetiredDevice>, current: PublicKey, e: RetiredDevice, at: i64, later: i64) {
    && Live(e, current, later) && KeyOf(e.signing).value !in KeysAt(current, retired, later)
    && exists i: nat, x :: Stands(retired, current, at, i) && retired[i].signing == e.signing
                           && x in KeysAt(current, retired, later) && x !in KeysAt(current, retired[..i], at)
  }

  lemma {:induction false} KeysGrow(current: PublicKey, retired: seq<RetiredDevice>, at: i64, n: nat)
    requires n <= |retired|
    ensures KeysAt(current, retired[..n], at) <= KeysAt(current, retired, at)
  {
    if n == |retired| {
      assert retired[..n] == retired;
    } else {
      var m := |retired| - 1;
      assert retired[..m][..n] == retired[..n];
      KeysGrow(current, retired[..m], at, n);
    }
  }

  /** The list up to the entry that lists a key, then this key, starts the whole list. */
  lemma StandingPlace(current: PublicKey, retired: seq<RetiredDevice>, at: i64, i: nat)
    requires Stands(retired, current, at, i)
    ensures KeysAt(current, retired[..i], at) + [KeyOf(retired[i].signing).value] <= KeysAt(current, retired, at)
  {
    hide KeyOf;
    KeysAtAre(current, retired[..i], at);
    assert retired[..i + 1][..i] == retired[..i];
    assert KeysAt(current, retired[..i + 1], at)
        == KeysAt(current, retired[..i], at) + [KeyOf(retired[i].signing).value];
    KeysGrow(current, retired, at, i + 1);
  }

  /** Every key in the list but the current one is listed by some entry. */
  lemma {:induction false} WhereItStands(current: PublicKey, retired: seq<RetiredDevice>, at: i64, k: PublicKey)
    returns (i: nat)
    requires k in KeysAt(current, retired, at) && k != current
    ensures Stands(retired, current, at, i) && retired[i].signing == Some(ToPb(k))
  {
    hide KeyOf;
    var n := |retired| - 1;
    if k in KeysAt(current, retired[..n], at) {
      i := WhereItStands(current, retired[..n], at, k);
      assert forall h | 0 <= h < n :: retired[..n][h] == retired[h];
    } else {
      i := n;
      KeysAtAre(current, retired[..n], at);
      assert forall h | 0 <= h < n :: retired[..n][h] == retired[h];
    }
  }

  // Subsequences of lists without duplicates.

  lemma {:induction false} SubsequenceSkips<T>(a: seq<T>, b: seq<T>, x: T)
    requires x !in a
    ensures IsSubsequence(a, b + [x]) == IsSubsequence(a, b)
  {
    assert (b + [x])[..|b|] == b;
    assert a != [] ==> a[|a| - 1] in a;
  }

  lemma SubsequenceBoth<T>(a: seq<T>, b: seq<T>, x: T)
    ensures IsSubsequence(a + [x], b + [x]) == IsSubsequence(a, b)
  {
    assert (a + [x])[..|a|] == a && (b + [x])[..|b|] == b;
  }

  lemma {:induction false} SubsequenceMembers<T>(a: seq<T>, b: seq<T>)
    requires IsSubsequence(a, b)
    ensures forall x <- a :: x in b
  {
    if a != [] {
      var m, n := |a| - 1, |b| - 1;
      assert b == b[..n] + [b[n]] && a == a[..m] + [a[m]];
      if a[m] == b[n] {
        SubsequenceMembers(a[..m], b[..n]);
      } else {
        SubsequenceMembers(a, b[..n]);
      }
    }
  }

  /** A list that ends with the key at place `p` of `b` is a subsequence of `b` exactly when the rest is one and lies
    * before `p`. */
  lemma {:induction false} SubsequenceEnding<T>(a: seq<T>, b: seq<T>, p: nat)
    requires p < |b| && Distinct(b) && b[p] !in a
    ensures IsSubsequence(a + [b[p]], b) <==> IsSubsequence(a, b) && forall x <- a :: x in b[..p]
    decreases |b|
  {
    var n := |b| - 1;
    var init, k := b[..n], b[p];
    assert b == init + [b[n]];
    if p == n {
      SubsequenceBoth(a, init, k);
      SubsequenceSkips(a, init, k);
      if IsSubsequence(a, init) {
        SubsequenceMembers(a, init);
      }
    } else {
      assert Distinct(init) && init[..p] == b[..p] && init[p] == k;
      SubsequenceEnding(a, init, p);
      assert (a + [k])[..|a|] == a && (a + [k])[|a|] == k;
      if b[n] in a {
        assert b[n] !in b[..p];
        assert b[n] in a + [k];
        if IsSubsequence(a + [k], init) {
          SubsequenceMembers(a + [k], init);
          assert false;
        }
      } else {
        SubsequenceSkips(a, init, b[n]);
      }
    }
  }

  /** What one more entry does to the two lists. */
  lemma OneMoreEntry(current: PublicKey, retired: seq<RetiredDevice>, at: i64, later: i64)
    requires at <= later && retired != []
    ensures var n := |retired| - 1;
            IsSubsequence(KeysAt(current, retired, later), KeysAt(current, retired, at))
            <==> && IsSubsequence(KeysAt(current, retired[..n], later), KeysAt(current, retired[..n], at))
                 && !Blocked(retired[..n], current, retired[n], at, later)
  {
    hide KeyOf, IsSubsequence;
    var n := |retired| - 1;
    var before, e := retired[..n], retired[n];
    var fewer, more := KeysAt(current, before, later), KeysAt(current, before, at);
    LaterAcceptsFewer(current, before, at, later);
    KeysAtAre(current, before, at);
    if Live(e, current, at) {
      var k := KeyOf(e.signing).value;
      if k !in more {
        SubsequenceSkips(fewer, more, k);
        SubsequenceBoth(fewer, more, k);
        NotBlockedUnlessListed(before, current, e, at, later);
      } else if Live(e, current, later) && k !in fewer {
        var i := WhereItStands(current, before, at, k);
        StandingPlace(current, before, at, i);
        var head := KeysAt(current, before[..i], at);
        SubsequenceEnding(fewer, more, |head|);
        assert more[..|head|] == head;
        OnlyStand(before, current, e, at, later, i);
      }
    }
  }

  lemma NotBlockedUnlessListed(retired: seq<RetiredDevice>, current: PublicKey, e: RetiredDevice, at: i64, later: i64)
    requires KeyOf(e.signing).Some? && KeyOf(e.signing).value !in KeysAt(current, retired, at)
    ensures !Blocked(retired, current, e, at, later)
  {
    hide KeyOf;
    KeysAtAre(current, retired, at);
  }

  lemma OnlyStand(retired: seq<RetiredDevice>, current: PublicKey, e: RetiredDevice, at: i64, later: i64, i: nat)
    requires Stands(retired, current, at, i) && retired[i].signing == e.signing
    requires Live(e, current, later) && KeyOf(e.signing).value !in KeysAt(current, retired, later)
    ensures Blocked(retired, current, e, at, later)
       <==> exists x :: x in KeysAt(current, retired, later) && x !in KeysAt(current, retired[..i], at)
  {
    hide KeyOf, KeysAt;
    if Blocked(retired, current, e, at, later) {
      var h: nat, x :| Stands(retired, current, at, h) && retired[h].signing == e.signing
                       && x in KeysAt(current, retired, later) && x !in KeysAt(current, retired[..h], at);
      assert h == i;
    }
  }

  /** What one more entry does to the order of keys. */
  lemma OneMoreOvertaking(current: PublicKey, retired: seq<RetiredDevice>, at: i64, later: i64)
    requires at <= later && retired != []
    ensures var n := |retired| - 1;
            KeepsOrder(retired, current, at, later)
            <==> KeepsOrder(retired[..n], current, at, later) && !Blocked(retired[..n], current, retired[n], at, later)
  {
    hide Overtakes, KeyOf, Stands;
    var n := |retired| - 1;
    var before := retired[..n];
    if Blocked(before, current, retired[n], at, later) {
      var i, j := BlockedOvertakes(current, retired, at, later);
    }
    if i: nat, j: nat, l: nat :| Overtakes(before, current, at, later, i, j, l) {
      OvertakesInPrefix(current, retired, at, later, i, j, l);
    }
    if i: nat, j: nat, l: nat :| Overtakes(retired, current, at, later, i, j, l) {
      OvertakesInPrefix(current, retired, at, later, i, j, l);
      if l == n {
        OvertakesBlocks(current, retired, at, later, i, j);
      }
    }
  }

  lemma OvertakesInPrefix(current: PublicKey, retired: seq<RetiredDevice>, at: i64, later: i64, i: nat, j: nat, l: nat)
    requires retired != []
    ensures var n := |retired| - 1;
            && (Overtakes(retired[..n], current, at, later, i, j, l)
                <==> l < n && Overtakes(retired, current, at, later, i, j, l))
            && (Overtakes(retired, current, at, later, i, j, l) ==> l <= n)
  {
    hide Live;
    assert forall h | 0 <= h < |retired| - 1 :: retired[..|retired| - 1][h] == retired[h];
  }

  lemma OvertakesBlocks(current: PublicKey, retired: seq<RetiredDevice>, at: i64, later: i64, i: nat, j: nat)
    requires at <= later && retired != [] && Overtakes(retired, current, at, later, i, j, |retired| - 1)
    ensures Blocked(retired[..|retired| - 1], current, retired[|retired| - 1], at, later)
  {
    hide KeyOf, KeysAt;
    var n := |retired| - 1;
    var before := retired[..n];
    assert forall h | 0 <= h < n :: before[h] == retired[h];
    KeysAtAre(current, before, later);
    KeysAtAre(current, before[..i], at);
    assert forall h | 0 <= h < i :: before[..i][h] == retired[h];
    assert Stands(before, current, at, i);
    var x := KeyOf(retired[j].signing).value;
    assert before[j].signing == Some(ToPb(x));
  }

  lemma BlockedOvertakes(current: PublicKey, retired: seq<RetiredDevice>, at: i64, later: i64) returns (i: nat, j: nat)
    requires at <= later && retired != []
    requires Blocked(retired[..|retired| - 1], current, retired[|retired| - 1], at, later)
    ensures Overtakes(retired, current, at, later, i, j, |retired| - 1)
  {
    hide KeyOf, KeysAt;
    var n := |retired| - 1;
    var before := retired[..n];
    var x;
    i, x :| Stands(before, current, at, i) && before[i].signing == retired[n].signing
            && x in KeysAt(current, before, later) && x !in KeysAt(current, before[..i], at);
    KeysAtAre(current, before[..i], at);
    KeysAtAre(current, before, later);
    j := WhereItStands(current, before, later, x);
    assert forall h | 0 <= h < n :: before[h] == retired[h];
    assert forall h | 0 <= h < i :: before[..i][h] == retired[h] && before[..i][h] in before[..i];
  }

  /** On any history, a later list is an earlier one with keys left out exactly when no key lapses and reappears behind
    * another. */
  lemma {:induction false} LaterIsSubsequence(current: PublicKey, retired: seq<RetiredDevice>, at: i64, later: i64)
    requires at <= later
    ensures IsSubsequence(KeysAt(current, retired, later), KeysAt(current, retired, at))
       <==> KeepsOrder(retired, current, at, later)
  {
    hide Blocked, KeyOf, Live, Stands;
    if retired != [] {
      LaterIsSubsequence(current, retired[..|retired| - 1], at, later);
      OneMoreEntry(current, retired, at, later);
      OneMoreOvertaking(current, retired, at, later);
    }
  }

  /** A history with distinct keys keeps the order at all times. */
  lemma DistinctKeepsOrder(current: PublicKey, retired: seq<RetiredDevice>, at: i64, later: i64)
    requires DistinctRetired(retired)
    ensures KeepsOrder(retired, current, at, later)
  {
    hide Stands;
  }

  /** So a later list is a subsequence for every directory that a run can reach. */
  lemma RunListsShrink(states: seq<State>, ops: seq<Op>, i: nat, at: i64, later: i64)
    requires Run(states, ops) && i < |states| && states[i].files.agentId.Some? && at <= later
    ensures states[i].files.device.Some? && states[i].files.history.Some?
    ensures var current, retired := states[i].files.device.value.signing, states[i].files.history.value;
            IsSubsequence(KeysAt(current, retired, later), KeysAt(current, retired, at))
  {
    hide Run, ChainReady, DelegationReady, InUse, WellIssued, KeysAt, KeepsOrder;
    KeyfileRuns.RunHolds(states, ops, i);
    ReadyFiles(states[i]);
    var current, retired := states[i].files.device.value.signing, states[i].files.history.value;
    DistinctKeepsOrder(current, retired, at, later);
    LaterIsSubsequence(current, retired, at, later);
  }

  /** With a repeated key the order can change: the first entry of the key lapses, a later one does not. */
  lemma OrderNeedsDistinctKeys(current: PublicKey, k: PublicKey, m: PublicKey)
    requires current != k && k != m && m != current
    ensures var retired := [RetiredDevice(Some(ToPb(k)), None, 5), RetiredDevice(Some(ToPb(m)), None, 10),
                            RetiredDevice(Some(ToPb(k)), None, 20)];
            && KeysAt(current, retired, 0) == [current, k, m]
            && KeysAt(current, retired, 10) == [current, m, k]
            && !IsSubsequence(KeysAt(current, retired, 10), KeysAt(current, retired, 0))
  {
    var a, b, c := RetiredDevice(Some(ToPb(k)), None, 5), RetiredDevice(Some(ToPb(m)), None, 10),
                   RetiredDevice(Some(ToPb(k)), None, 20);
    assert [a, b, c][..2] == [a, b] && [a, b][..1] == [a] && [a][..0] == [];
    assert KeysAt(current, [], 0) == [current] == KeysAt(current, [], 10);
    assert KeysAt(current, [a], 0) == [current, k] && KeysAt(current, [a], 10) == [current];
    assert KeysAt(current, [a, b], 0) == [current, k, m] && KeysAt(current, [a, b], 10) == [current, m];
    assert KeysAt(current, [a, b, c], 0) == [current, k, m] && KeysAt(current, [a, b, c], 10) == [current, m, k];
    assert [current, m, k][..2] == [current, m] && [current, k, m][..2] == [current, k];
    assert [current, k][..1] == [current] == [current, m][..1] && [current][..0] == [];
    assert !IsSubsequence([current, m], []) && !IsSubsequence([current, m], [current]);
    assert !IsSubsequence([current, m, k], [current, k]);
  }
}
