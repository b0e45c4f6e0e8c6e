/** Every principal a receiver has accepted, across versions and restarts. */
module AcceptedHistory {
  import opened Wrappers
  import opened Bytes
  import opened Primitives
  import opened Errors
  import opened Wire
  import opened Authority
  import opened Principal
  import opened Registry
  import opened RegistryFacts
  import opened Resolvers
  import opened VerifyFacts

  datatype Accepted = Accepted(kind: PrincipalKind, roots: seq<PublicKey>, rotations: seq<RootRotation>)

  type AcceptedChains = map<PrincipalId, Accepted>

  /** What an entry is recorded as. Without a root of its own, an agent counts as never rotated. */
  function RecordOf(e: VerifiedEntry): Accepted {
    if e.IsSelfRooted() then Accepted(e.kind, e.roots, e.rotations) else Accepted(e.kind, [e.id.genesis], [])
  }

  function Lookup(chains: AcceptedChains, id: PrincipalId): Option<Accepted> {
    if id in chains then Some(chains[id]) else None
  }

  /** The record of an entry after this version, or why the version is rejected. */
  function NextRecord(previous: Option<Accepted>, e: VerifiedEntry): Result<Accepted, Error> {
    match previous
    case None => Success(RecordOf(e))
    case Some(p) =>
      if p.kind != e.kind then Failure(KindChanged(e.id))
      else if !e.IsSelfRooted() then Success(p)
      else if !(p.roots <= e.roots) then Failure(RootFork(e.id))
      else Success(RecordOf(e))
  }

  /** The ids a version records: all but the authority's. */
  function Recorded(r: Resolver): set<PrincipalId> { r.entries.Keys - {r.authority} }

  predicate Compatible(r: Resolver, chains: AcceptedChains) {
    forall id <- Recorded(r) :: NextRecord(Lookup(chains, id), r.entries[id]).Success?
  }

  /** The set after an accepted version: recorded ids move on, every other record stays. */
  function Updated(r: Resolver, chains: AcceptedChains): AcceptedChains
    requires Compatible(r, chains)
  {
    map id | id in chains.Keys + Recorded(r) ::
      if id in Recorded(r) then NextRecord(Lookup(chains, id), r.entries[id]).value else chains[id]
  }

  // The same, said of the recorded set and the entries alone.

  /** The entry contradicts what is recorded: another kind, or a root of its own whose chain does not start with the
    * recorded one. */
  predicate Conflicts(r: Resolver, chains: AcceptedChains, id: PrincipalId) {
    && id in r.entries && id != r.authority && id in chains
    && (|| chains[id].kind != r.entries[id].kind
        || (r.entries[id].currentRoot.Some? && !(chains[id].roots <= r.entries[id].roots)))
  }

  /** The record of `id` afterwards: the entry's chain if it has one; for a keyless agent the old record, or else its
    * genesis key alone; an id that is not listed, and the authority's, stay as they were. */
  predicate RecordedAs(r: Resolver, chains: AcceptedChains, id: PrincipalId, after: Option<Accepted>) {
    if id !in r.entries || id == r.authority then after == Lookup(chains, id)
    else
      var e := r.entries[id];
      if e.currentRoot.Some? then after == Some(Accepted(e.kind, e.roots, e.rotations))
      else if id in chains then after == Some(chains[id])
      else after == Some(Accepted(e.kind, [id.genesis], []))
  }

  /** A version is accepted exactly when no entry conflicts with what is recorded, and every record afterwards is the
    * one it should be. */
  lemma SuccessorIs(r: Resolver, chains: AcceptedChains)
    requires Keyed(r)
    ensures Compatible(r, chains) <==> forall id <- r.entries :: !Conflicts(r, chains, id)
    ensures Compatible(r, chains) ==> forall id :: RecordedAs(r, chains, id, Lookup(Updated(r, chains), id))
  {
    forall id | id in Recorded(r) {
      NextRecordIs(r, chains, id);
    }
    if Compatible(r, chains) {
      forall id
        ensures RecordedAs(r, chains, id, Lookup(Updated(r, chains), id))
      {
        if id in Recorded(r) {
          assert NextRecord(Lookup(chains, id), r.entries[id]).Success?;
        }
      }
    }
  }

  lemma NextRecordIs(r: Resolver, chains: AcceptedChains, id: PrincipalId)
    requires Keyed(r) && id in Recorded(r)
    ensures var next := NextRecord(Lookup(chains, id), r.entries[id]);
            && (next.Failure? <==> Conflicts(r, chains, id))
            && (next.Failure? ==>
                  next.error == if chains[id].kind != r.entries[id].kind then KindChanged(id) else RootFork(id))
  {}

  // Maps are walked in the order of their keys, which is that of the genesis keys' bytes.

  /** `a` comes before `b` in lexicographic order. */
  predicate Below(a: seq<byte>, b: seq<byte>) {
    b != [] && (a == [] || a[0] < b[0] || (a[0] == b[0] && Below(a[1..], b[1..])))
  }

  predicate Before(a: PrincipalId, b: PrincipalId) { Below(a.genesis, b.genesis) }

  predicate IsLeast(id: PrincipalId, ids: set<PrincipalId>) {
    id in ids && forall other <- ids :: other == id || Before(id, other)
  }

  lemma {:induction false} BelowIsTotal(a: seq<byte>, b: seq<byte>)
    ensures a == b || Below(a, b) || Below(b, a)
    ensures !(Below(a, b) && Below(b, a)) && !Below(a, a)
  {
    if a != [] && b != [] {
      assert a == [a[0]] + a[1..] && b == [b[0]] + b[1..];
      BelowIsTotal(a[1..], b[1..]);
    }
    if a != [] {
      BelowIsTotal(a[1..], a[1..]);
    }
  }

  lemma {:induction false} BelowIsTransitive(a: seq<byte>, b: seq<byte>, c: seq<byte>)
    requires Below(a, b) && Below(b, c)
    ensures Below(a, c)
  {
    if a != [] && a[0] == b[0] && b[0] == c[0] {
      BelowIsTransitive(a[1..], b[1..], c[1..]);
    }
  }

  lemma {:induction false} LeastExists(ids: set<PrincipalId>) returns (least: PrincipalId)
    requires ids != {}
    ensures IsLeast(least, ids)
  {
    hide Below;
    var id :| id in ids;
    least := id;
    var others := ids - {id};
    assert forall other <- ids :: other == id || other in others;
    if others != {} {
      var least' := LeastExists(others);
      BelowIsTotal(id.genesis, least'.genesis);
      if Before(least', id) {
        least := least';
      } else {
        forall other | other in others && other != least'
          ensures Before(id, other)
        {
          BelowIsTransitive(id.genesis, least'.genesis, other.genesis);
        }
      }
    }
  }

  /** Taking the least id that is left keeps the ids taken before those that are left. */
  lemma FirstLeft(all: set<PrincipalId>, left: set<PrincipalId>, id: PrincipalId)
    requires left <= all && IsLeast(id, left) && forall done <- all - left, other <- left :: Before(done, other)
    ensures forall done <- all - (left - {id}), other <- left - {id} :: Before(done, other)
    ensures forall other <- all :: Before(other, id) <==> other !in left
  {
    hide Before;
    forall other | other in all
      ensures Before(other, id) <==> other !in left
    {
      Asymmetric(other, id);
    }
  }

  lemma Asymmetric(a: PrincipalId, b: PrincipalId)
    ensures !(Before(a, b) && Before(b, a)) && !Before(a, a)
  {
    BelowIsTotal(a.genesis, b.genesis);
    BelowIsTotal(a.genesis, a.genesis);
  }

  /** `id` is the first entry with a conflict, and `error` is that conflict. */
  predicate FirstConflict(r: Resolver, chains: AcceptedChains, id: PrincipalId, error: Error) {
    && Conflicts(r, chains, id)
    && error == (if chains[id].kind != r.entries[id].kind then KindChanged(id) else RootFork(id))
    && forall other <- r.entries | Before(other, id) :: !Conflicts(r, chains, other)
  }

  /** The ids before the first conflict were compatible. */
  lemma FirstOfAll(r: Resolver, chains: AcceptedChains, id: PrincipalId, error: Error)
    requires Keyed(r) && id in Recorded(r) && NextRecord(Lookup(chains, id), r.entries[id]) == Failure(error)
    requires forall other <- Recorded(r) | Before(other, id) ::
               NextRecord(Lookup(chains, other), r.entries[other]).Success?
    ensures FirstConflict(r, chains, id, error) && !Compatible(r, chains)
  {
    hide Before, NextRecord, Conflicts;
    NextRecordIs(r, chains, id);
    forall other | other in r.entries && Before(other, id)
      ensures !Conflicts(r, chains, other)
    {
      if other in Recorded(r) {
        NextRecordIs(r, chains, other);
      } else {
        NoConflict(r, chains, other);
      }
    }
  }

  lemma NoConflict(r: Resolver, chains: AcceptedChains, id: PrincipalId)
    requires id !in Recorded(r)
    ensures !Conflicts(r, chains, id)
  {}

  lemma WholeUpdate(r: Resolver, chains: AcceptedChains, updated: AcceptedChains)
    requires forall id <- Recorded(r) ::
               id in updated && NextRecord(Lookup(chains, id), r.entries[id]) == Success(updated[id])
    requires forall id | id !in Recorded(r) :: Lookup(updated, id) == Lookup(chains, id)
    ensures Compatible(r, chains) && updated == Updated(r, chains)
  {
    hide NextRecord;
    forall id
      ensures id in updated <==> id in chains.Keys + Recorded(r)
    {
      assert id !in Recorded(r) ==> Lookup(updated, id) == Lookup(chains, id);
    }
  }

  /** `check_successor`. */
  method CheckSuccessor(r: Resolver, chains: AcceptedChains) returns (result: Result<AcceptedChains, Error>)
    requires Keyed(r)
    ensures result.Success? <==> Compatible(r, chains)
    ensures result.Success? ==> result.value == Updated(r, chains)
    ensures result.Success? <==> forall id <- r.entries :: !Conflicts(r, chains, id)
    ensures result.Success? ==> forall id :: RecordedAs(r, chains, id, Lookup(result.value, id))
    ensures result.Failure? ==> exists id <- r.entries :: FirstConflict(r, chains, id, result.error)
  {
    hide Before, Conflicts, FirstConflict, RecordedAs, Compatible, Updated;
    SuccessorIs(r, chains);
    var updated := chains;
    var left := r.entries.Keys;
    while left != {}
      invariant left <= r.entries.Keys
      invariant forall done <- r.entries.Keys - left, id <- left :: Before(done, id)
      invariant forall id <- Recorded(r) - left ::
                  id in updated && NextRecord(Lookup(chains, id), r.entries[id]) == Success(updated[id])
      invariant forall id | id !in Recorded(r) - left :: Lookup(updated, id) == Lookup(chains, id)
      decreases left
    {
      ghost var least := LeastExists(left);
      var id :| IsLeast(id, left);
      FirstLeft(r.entries.Keys, left, id);
      left := left - {id};
      var entry := r.entries[id];
      if id == r.authority {
        continue;
      }
      assert Lookup(updated, id) == Lookup(chains, id);
      var (roots, rotations) :=
        if entry.IsSelfRooted() then (entry.roots, entry.rotations) else ([entry.id.genesis], []);
      if id in updated {
        var previous := updated[id];
        if previous.kind != entry.kind {
          FirstOfAll(r, chains, id, KindChanged(id));
          return Failure(KindChanged(id));
        }
        if entry.IsSelfRooted() {
          if !(previous.roots <= roots) {
            FirstOfAll(r, chains, id, RootFork(id));
            return Failure(RootFork(id));
          }
          updated := updated[id := Accepted(entry.kind, roots, rotations)];
        }
      } else {
        updated := updated[id := Accepted(entry.kind, roots, rotations)];
      }
    }
    WholeUpdate(r, chains, updated);
    return Success(updated);
  }

  // A run: versions arrive, and one that is rejected leaves the set as it is.

  function History(versions: seq<Resolver>): AcceptedChains {
    if versions == [] then map[]
    else
      var held, r := History(versions[..|versions| - 1]), versions[|versions| - 1];
      if Compatible(r, held) then Updated(r, held) else held
  }

  /** `b` keeps every record of `a`, with its kind, its roots extended at most. */
  predicate Extends(b: AcceptedChains, a: AcceptedChains) {
    forall id <- a :: id in b && b[id].kind == a[id].kind && a[id].roots <= b[id].roots
  }

  lemma UpdateExtends(r: Resolver, chains: AcceptedChains)
    requires Compatible(r, chains)
    ensures Extends(Updated(r, chains), chains)
  {
    forall id | id in chains
      ensures id in Updated(r, chains) && Updated(r, chains)[id].kind == chains[id].kind
              && chains[id].roots <= Updated(r, chains)[id].roots
    {
      assert id in Recorded(r) ==> NextRecord(Lookup(chains, id), r.entries[id]).Success?;
    }
  }

  /** Over any run of versions no record disappears, no kind changes, and root lists only grow by extension. */
  lemma {:induction false} HistoryOnlyGrows(versions: seq<Resolver>, n: nat)
    requires n <= |versions|
    ensures Extends(History(versions), History(versions[..n]))
  {
    hide Compatible, Updated;
    if n == |versions| {
      assert versions[..n] == versions;
    } else {
      var m := |versions| - 1;
      assert versions[..m][..n] == versions[..n];
      HistoryOnlyGrows(versions[..m], n);
      var held := History(versions[..m]);
      if Compatible(versions[m], held) {
        UpdateExtends(versions[m], held);
      }
    }
  }

  /** Along a run, an accepted entry never returns to a root that an earlier accepted version had
    * retired, and never changes its kind, whatever happened to the entry in between. */
  lemma NoReturnToRetiredRoot(versions: seq<Resolver>, m: nat, n: nat, id: PrincipalId,
                              reg: PrincipalRegistry, chain: AuthorityChain)
    requires m < n < |versions|
    requires Compatible(versions[m], History(versions[..m])) && Compatible(versions[n], History(versions[..n]))
    requires id in Recorded(versions[m]) && id in Recorded(versions[n])
    requires Built(versions[n], reg, chain)
    ensures var before, after := versions[m].entries[id], versions[n].entries[id];
            && before.kind == after.kind
            && (before.IsSelfRooted() && after.IsSelfRooted() ==>
                  && before.roots <= after.roots
                  && (before.roots != [] ==> after.currentRoot.value.signing !in before.roots[..|before.roots| - 1]))
  {
    hide Compatible, Updated, Built, Extends, History, NextRecord, RotationRoots;
    RecordedRoots(versions, m, n, id);
    RecordedEntry(versions[n], reg, chain, id);
  }

  /** What version `m` recorded for an id, version `n` still extends. */
  lemma RecordedRoots(versions: seq<Resolver>, m: nat, n: nat, id: PrincipalId)
    requires m < n < |versions|
    requires Compatible(versions[m], History(versions[..m])) && Compatible(versions[n], History(versions[..n]))
    requires id in Recorded(versions[m]) && id in Recorded(versions[n])
    ensures var before, after := versions[m].entries[id], versions[n].entries[id];
            && before.kind == after.kind
            && (before.IsSelfRooted() && after.IsSelfRooted() ==> before.roots <= after.roots)
  {
    hide Compatible;
    assert versions[..n][..m + 1] == versions[..m + 1] && versions[..m + 1][..m] == versions[..m];
    HistoryOnlyGrows(versions[..n], m + 1);
    var before, held := History(versions[..m]), History(versions[..n]);
    RecordedNow(versions[m], before, id);
    assert History(versions[..m + 1]) == Updated(versions[m], before);
    RecordedNow(versions[n], held, id);
  }

  lemma RecordedNow(r: Resolver, held: AcceptedChains, id: PrincipalId)
    requires Compatible(r, held) && id in Recorded(r)
    ensures id in Updated(r, held) && Success(Updated(r, held)[id]) == NextRecord(Lookup(held, id), r.entries[id])
  {}

  /** A recorded entry's roots are the verified chain of its rotations. */
  lemma RecordedEntry(r: Resolver, reg: PrincipalRegistry, chain: AuthorityChain, id: PrincipalId)
    requires Built(r, reg, chain) && id in Recorded(r)
    ensures r.entries[id].id == id
    ensures RotationRoots(id.genesis, RecordOf(r.entries[id]).rotations) == Success(RecordOf(r.entries[id]).roots)
    ensures r.entries[id].currentRoot.Some? ==>
              && Distinct(r.entries[id].roots)
              && Last(r.entries[id].roots) == Some(r.entries[id].currentRoot.value.signing)
  {
    hide Accepts, BindingInvariant, Link;
    AcceptedEntryInvariant(reg, chain, r.entries, id);
    var e := r.entries[id];
    RootsAreChain(id.genesis, e.rotations, e.roots);
  }

  // Persistence.

  function KindToPb(kind: PrincipalKind): int {
    match kind
    case Human => 1
    case Agent => 2
    case Daemon => 3
    case Service => 4
  }

  function ToPbRecord(id: PrincipalId, a: Accepted): AcceptedPrincipal {
    AcceptedPrincipal(Display(id), KindToPb(a.kind), a.rotations)
  }

  predicate Ascending(ids: seq<PrincipalId>) {
    forall i, j | 0 <= i < j < |ids| :: Before(ids[i], ids[j])
  }

  /** `ps` lists the records of `chains`, each once, in some order. */
  ghost predicate Lists(ps: seq<AcceptedPrincipal>, chains: AcceptedChains) {
    exists ids: seq<PrincipalId> :: ListsAs(ps, chains, ids)
  }

  ghost predicate ListsAs(ps: seq<AcceptedPrincipal>, chains: AcceptedChains, ids: seq<PrincipalId>) {
    && |ids| == |ps|
    && Distinct(ids)
    && (forall id :: id in ids <==> id in chains)
    && forall i | 0 <= i < |ps| :: ps[i] == ToPbRecord(ids[i], chains[ids[i]])
  }

  /** `to_proto`: the records in the order of their ids. */
  method ToProto(chains: AcceptedChains) returns (ps: seq<AcceptedPrincipal>)
    ensures Lists(ps, chains)
    ensures exists ids :: ListsAs(ps, chains, ids) && Ascending(ids)
  {
    hide ToPbRecord, Before;
    ps := [];
    ghost var ids := [];
    var left := chains.Keys;
    while left != {}
      invariant left <= chains.Keys
      invariant |ids| == |ps| && Distinct(ids) && Ascending(ids)
      invariant forall done <- chains.Keys - left, id <- left :: Before(done, id)
      invariant forall id :: id in ids <==> id in chains && id !in left
      invariant forall i | 0 <= i < |ps| :: ps[i] == ToPbRecord(ids[i], chains[ids[i]])
      decreases left
    {
      ghost var least := LeastExists(left);
      var id :| IsLeast(id, left);
      FirstLeft(chains.Keys, left, id);
      assert id !in ids;
      left := left - {id};
      ps := ps + [ToPbRecord(id, chains[id])];
      ids := ids + [id];
    }
    assert ListsAs(ps, chains, ids);
  }

  function LoadRecord(p: AcceptedPrincipal): Result<(PrincipalId, Accepted), Error> {
    var id :- ParseCanonical(p.principalId);
    var kind :- match ParseKind(p.kind)
      case Success(Some(k)) => Success(k)
      case _ => Failure(InvalidField(AcceptedKind));
    var roots :- RotationRoots(id.genesis, p.rotations);
    Success((id, Accepted(kind, roots, p.rotations)))
  }

  function Load(ps: seq<AcceptedPrincipal>): Result<AcceptedChains, Error> {
    if ps == [] then Success(map[])
    else
      var init :- Load(ps[..|ps| - 1]);
      var (id, record) :- LoadRecord(ps[|ps| - 1]);
      :- Need(id !in init, InvalidField(AcceptedId));
      Success(init[id := record])
  }

  /** `from_proto` as it runs. */
  method FromProto(ps: seq<AcceptedPrincipal>) returns (r: Result<AcceptedChains, Error>)
    ensures r == Load(ps)
  {
    hide LoadRecord;
    var accepted: AcceptedChains := map[];
    assert ps[..|ps|] == ps;
    for n := 0 to |ps|
      invariant Load(ps[..n]) == Success(accepted)
    {
      assert ps[..n + 1][..n] == ps[..n];
      var record := LoadRecord(ps[n]);
      if record.Failure? {
        FirstBadRecord(ps, n + 1);
        return Failure(record.error);
      }
      if record.value.0 in accepted {
        FirstBadRecord(ps, n + 1);
        return Failure(InvalidField(AcceptedId));
      }
      accepted := accepted[record.value.0 := record.value.1];
    }
    return Success(accepted);
  }

  lemma {:induction false} FirstBadRecord(ps: seq<AcceptedPrincipal>, n: nat)
    requires n <= |ps| && Load(ps[..n]).Failure?
    ensures Load(ps) == Load(ps[..n])
  {
    hide LoadRecord;
    if n < |ps| {
      assert ps[..|ps| - 1][..n] == ps[..n];
      FirstBadRecord(ps[..|ps| - 1], n);
    } else {
      assert ps[..n] == ps;
    }
  }

  /** Every record's roots are those of its rotations, from the principal's genesis key. */
  predicate Persistable(chains: AcceptedChains) {
    forall id <- chains :: RotationRoots(id.genesis, chains[id].rotations) == Success(chains[id].roots)
  }

  lemma LoadsBack(id: PrincipalId, a: Accepted)
    ensures LoadRecord(ToPbRecord(id, a)) == Success((id, a))
       <==> RotationRoots(id.genesis, a.rotations) == Success(a.roots)
    ensures LoadRecord(ToPbRecord(id, a)).Success? ==> LoadRecord(ToPbRecord(id, a)).value.0 == id
  {
    hide RotationRoots, ParseCanonical, Display;
    CanonicalIsDisplay(Display(id), id);
  }

  lemma RecordIsListed(p: AcceptedPrincipal)
    requires LoadRecord(p).Success?
    ensures var (id, a) := LoadRecord(p).value;
            p == ToPbRecord(id, a) && RotationRoots(id.genesis, a.rotations) == Success(a.roots)
  {
    hide RotationRoots, ParseCanonical, Display;
    CanonicalIsDisplay(p.principalId, LoadRecord(p).value.0);
  }

  /** A list loads as `chains` exactly when it lists `chains` and the records are persistable: what is written is read
    * back, and only what could have been written is read. */
  lemma {:induction false} LoadIsInverse(ps: seq<AcceptedPrincipal>, chains: AcceptedChains)
    ensures Load(ps) == Success(chains) <==> Lists(ps, chains) && Persistable(chains)
  {
    hide LoadRecord, ToPbRecord, RotationRoots;
    if Load(ps) == Success(chains) {
      LoadedIsListed(ps, chains);
    }
    if Lists(ps, chains) && Persistable(chains) {
      var ids :| ListsAs(ps, chains, ids);
      ListedLoads(ps, chains, ids);
    }
  }

  lemma {:induction false} LoadedIsListed(ps: seq<AcceptedPrincipal>, chains: AcceptedChains)
    requires Load(ps) == Success(chains)
    ensures Lists(ps, chains) && Persistable(chains)
  {
    hide LoadRecord, ToPbRecord, RotationRoots;
    if ps == [] {
      assert ListsAs(ps, chains, []);
    } else {
      var n := |ps| - 1;
      var init := Load(ps[..n]).value;
      LoadedIsListed(ps[..n], init);
      RecordIsListed(ps[n]);
      var (id, record) := LoadRecord(ps[n]).value;
      var ids :| ListsAs(ps[..n], init, ids);
      OneMoreListed(ps, init, ids, id, record);
      forall other | other in chains
        ensures RotationRoots(other.genesis, chains[other].rotations) == Success(chains[other].roots)
      {
        assert other != id ==> chains[other] == init[other];
      }
    }
  }

  lemma OneMoreListed(ps: seq<AcceptedPrincipal>, init: AcceptedChains, ids: seq<PrincipalId>, id: PrincipalId,
                      record: Accepted)
    requires ps != [] && ListsAs(ps[..|ps| - 1], init, ids) && id !in init
    requires ps[|ps| - 1] == ToPbRecord(id, record)
    ensures Lists(ps, init[id := record])
  {
    hide ToPbRecord;
    var more := ids + [id];
    assert forall x :: x in more <==> x in ids || x == id;
    assert ListsAs(ps, init[id := record], more);
  }

  lemma OneLessListed(ps: seq<AcceptedPrincipal>, chains: AcceptedChains, ids: seq<PrincipalId>)
    requires ps != [] && ListsAs(ps, chains, ids)
    ensures var n := |ps| - 1;
            && ids[n] in chains && ps[n] == ToPbRecord(ids[n], chains[ids[n]])
            && ListsAs(ps[..n], chains - {ids[n]}, ids[..n])
  {
    hide ToPbRecord;
    var n := |ps| - 1;
    assert ids == ids[..n] + [ids[n]];
    assert forall i | 0 <= i < n :: ids[i] in ids[..n];
  }

  lemma {:induction false} ListedLoads(ps: seq<AcceptedPrincipal>, chains: AcceptedChains, ids: seq<PrincipalId>)
    requires ListsAs(ps, chains, ids) && Persistable(chains)
    ensures Load(ps) == Success(chains)
  {
    hide LoadRecord, ToPbRecord, RotationRoots;
    if ps == [] {
      assert chains == map[];
    } else {
      hide ListsAs;
      var n := |ps| - 1;
      OneLessListed(ps, chains, ids);
      ListedLoads(ps[..n], chains - {ids[n]}, ids[..n]);
      LoadsBack(ids[n], chains[ids[n]]);
      assert chains == (chains - {ids[n]})[ids[n] := chains[ids[n]]];
    }
  }

  /** Every version of a run is built from a registry accepted under some chain. */
  ghost predicate AllBuilt(versions: seq<Resolver>) {
    forall i | 0 <= i < |versions| :: IsBuilt(versions[i])
  }

  ghost predicate IsBuilt(r: Resolver) { exists reg, chain :: Built(r, reg, chain) }

  lemma {:induction false} HistoryIsPersistable(versions: seq<Resolver>)
    requires AllBuilt(versions)
    ensures Persistable(History(versions))
  {
    hide Built, RotationRoots;
    if versions != [] {
      var n := |versions| - 1;
      var held, r := History(versions[..n]), versions[n];
      HistoryIsPersistable(versions[..n]);
      assert IsBuilt(versions[n]);
      if Compatible(r, held) {
        var reg, chain :| Built(r, reg, chain);
        forall id | id in Updated(r, held)
          ensures RotationRoots(id.genesis, Updated(r, held)[id].rotations) == Success(Updated(r, held)[id].roots)
        {
          if id in Recorded(r) {
            RecordedEntry(r, reg, chain, id);
            assert NextRecord(Lookup(held, id), r.entries[id]).Success?;
          }
        }
      }
    }
  }

  /** Every set that a run can reach survives a save and a load: whatever list it is written as loads as that set. */
  lemma HistoryPersists(versions: seq<Resolver>, ps: seq<AcceptedPrincipal>)
    requires AllBuilt(versions) && Lists(ps, History(versions))
    ensures Load(ps) == Success(History(versions))
  {
    hide Load, Lists, History, Persistable;
    HistoryIsPersistable(versions);
    LoadIsInverse(ps, History(versions));
  }

  /** Why the authority's entry must stay out: once the authority has rotated, a set that records its entry no longer
    * loads. Before that it would. */
  lemma AuthorityMustStayOut(r: Resolver, reg: PrincipalRegistry, chain: AuthorityChain, chains: AcceptedChains)
    requires Built(r, reg, chain) && Persistable(chains) && chain.Valid()
    ensures r.authority in r.entries
    ensures Persistable(chains[r.authority := RecordOf(r.entries[r.authority])]) <==> |chain.roots| == 1
  {
    hide Accepts, BindingInvariant, Link;
    AuthorityHasEntry(reg, chain, r.entries);
    AcceptedEntryInvariant(reg, chain, r.entries, r.authority);
    var e := r.entries[r.authority];
    var more := chains[r.authority := RecordOf(e)];
    assert e.roots == chain.roots && e.rotations == [] && e.id.genesis == chain.roots[0];
    assert Success(chain.roots) == RotationRoots(e.id.genesis, []) <==> |chain.roots| == 1 by {
      assert |chain.roots| == 1 ==> chain.roots == [chain.roots[0]];
    }
    assert more[r.authority] == RecordOf(e);
    assert forall id <- more | id != r.authority :: id in chains && more[id] == chains[id];
  }
}
