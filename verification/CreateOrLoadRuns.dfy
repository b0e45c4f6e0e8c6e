/** What every interleaving of `create_or_load` calls guarantees, and when a call can fail. */
module CreateOrLoadRuns {
  import opened Wrappers
  import opened Bytes
  import opened Primitives
  import opened Keyfile
  import opened CreateOrLoad

  lemma InitialHolds(s: System)
    requires Initial(s)
    ensures Inv(s)
  {
    hide Identity;
    NoFilesIsNoIdentity();
  }

  lemma {:induction false} RunHolds(states: seq<System>, i: nat)
    requires Run(states) && i < |states|
    ensures Inv(states[i])
  {
    hide Step, Inv, Initial;
    if i == 0 {
      InitialHolds(states[0]);
    } else {
      RunHolds(states, i - 1);
      StepKeeps(states[i - 1], states[i]);
    }
  }

  /** The directory is always absent, empty, lock-only or a complete identity, and at most one rename ever succeeds. */
  lemma DirectoryAlwaysWhole(states: seq<System>, i: nat)
    requires Run(states) && i < |states|
    ensures var target := states[i].target;
            target == None || target == Some(EMPTY) || target == Some(LOCK_ONLY) || Complete(target)
    ensures states[i].renames <= 1 && (states[i].renames == 1 <==> Complete(states[i].target))
  {
    hide Run, CallOk, Complete;
    RunHolds(states, i);
  }

  /** The steps a directory can take: `.lock` comes or goes, an empty directory is removed, and a complete identity
    * takes the place of an absent or empty one, never of one that holds anything. */
  predicate Moves(a: Option<Content>, b: Option<Content>) {
    || (a.Some? && b.Some? && b.value.files == a.value.files)
    || (a.None? && b.None?)
    || (a == Some(EMPTY) && b.None?)
    || ((a.None? || a == Some(EMPTY)) && Complete(b))
  }

  lemma DirectoryMoves(states: seq<System>, i: nat)
    requires Run(states) && i + 1 < |states|
    ensures Moves(states[i].target, states[i + 1].target)
  {
    hide Inv, Decide, Complete, Initial;
    RunHolds(states, i);
    var s, t := states[i], states[i + 1];
    var c, a :| Do(s, c, a) == Some(t);
    StepTargetEffect(s, c, a);
    if c in s.calls && s.calls[c].Filled? {
      CallsOk(s, c);
      FilledIsComplete(s, c);
    }
  }

  /** Once there is an identity, its files stay as they are. */
  lemma {:induction false} IdentityForEver(states: seq<System>, i: nat, j: nat)
    requires Run(states) && i <= j < |states| && Complete(states[i].target)
    ensures states[j].target.Some? && states[j].target.value.files == states[i].target.value.files
    decreases j - i
  {
    hide Step, Inv, Identity, Initial;
    if i < j {
      RunHolds(states, i);
      StepKeeps(states[i], states[i + 1]);
      IdentityForEver(states, i + 1, j);
    }
  }

  /** A directory with agent files, whether complete or stuck without `agent_id`, is left untouched by any number of
    * calls, however they interleave. */
  lemma {:induction false} FilesForEver(states: seq<System>, i: nat, j: nat)
    requires forall n | 0 <= n < |states| - 1 :: Step(states[n], states[n + 1])
    requires i <= j < |states| && HasFiles(states[i].target)
    ensures states[j].target.Some? && states[j].target.value.files == states[i].target.value.files
    decreases j - i
  {
    hide Do;
    if i < j {
      var c, a :| Do(states[i], c, a) == Some(states[i + 1]);
      FilesStay(states[i], c, a, states[i + 1]);
      FilesForEver(states, i + 1, j);
    }
  }

  /** All calls that return successfully, at any points of the run, return the same principal. */
  lemma AllCallsAgree(states: seq<System>, i: nat, c: CallId, j: nat, d: CallId)
    requires Run(states) && i <= j < |states|
    requires c in states[i].calls && states[i].calls[c].Returned?
    requires d in states[j].calls && states[j].calls[d].Returned?
    ensures states[i].calls[c].result == states[j].calls[d].result
    ensures Complete(states[j].target) && Identity(states[j].target.value.files) == Some(states[j].calls[d].result)
  {
    hide Run, Identity, IsInit, ApplyAll;
    RunHolds(states, i);
    RunHolds(states, j);
    assert CallOk(states[i], c) && CallOk(states[j], d);
    IdentityForEver(states, i, j);
  }

  /** A call that has returned, successfully or not, has left no temporary directory behind. */
  lemma NothingLeftBehind(states: seq<System>, i: nat, c: CallId)
    requires Run(states) && i < |states|
    requires c in states[i].calls && (states[i].calls[c].Returned? || states[i].calls[c].Failed?)
    ensures forall x <- states[i].temps :: x.owner != c
  {
    hide Run, CallOk, Complete;
    RunHolds(states, i);
  }

  // When a call fails although no I/O call does.

  predicate BeforeUnlink(p: Phase) {
    || p.Entered? || p.Statted? || p.Unmarked? || p.Found? || p.Passed? || p.Cleaned? || p.Made? || p.Listing?
    || p.Doomed? || p.Failed? || p.Dead?
  }

  /** Without I/O failures: a lock-only directory has not been seen as anything else, an identity is loaded only where
    * there is one, and nothing fails but by the two other reasons. */
  ghost predicate Quiet(s: System) {
    !s.faults ==>
      && (s.target == Some(LOCK_ONLY) ==> forall c <- s.calls :: BeforeUnlink(s.calls[c]))
      && forall c <- s.calls :: QuietPhase(s, s.calls[c])
  }

  predicate QuietPhase(s: System, p: Phase) {
    && (Loads(p) ==> Complete(s.target))
    && (p.Failed? ==> p.reason.Vanished? || p.reason.Refused?)
  }

  /** The same when the directory did not start lock-only: it never becomes so, and none is removed. */
  ghost predicate Calm(s: System) {
    !s.faults ==>
      && s.target != Some(LOCK_ONLY)
      && forall c <- s.calls :: CalmPhase(s, s.calls[c])
  }

  predicate CalmPhase(s: System, p: Phase) {
    && !p.Doomed? && !p.Unlinked?
    && (p.Found? ==> s.target.Some?)
    && (p.Failed? ==> p.reason.Refused?)
  }

  /** An identity has its four files. */
  lemma CompleteFiles(target: Option<Content>)
    requires Complete(target)
    ensures HasFiles(target)
    ensures var f := target.value.files; f.root.Some? && f.device.Some? && f.delegation.Some? && f.agentId.Some?
  {
    hide VerifyIdentity;
  }

  lemma WholeTarget(s: System)
    requires Inv(s)
    ensures HasIdentity(s.target) ==> Complete(s.target)
    ensures s.target.Some? ==> s.target == Some(EMPTY) || s.target == Some(LOCK_ONLY) || Complete(s.target)
  {
    hide Identity, CallOk, NoStrays;
  }

  lemma FaultsStay(s: System, c: CallId, a: Action, t: System)
    requires Do(s, c, a) == Some(t)
    ensures s.faults ==> t.faults
  {
    hide Decide;
  }

  /** What the two conditions come to for the effect of one step. */
  predicate QuietEffect(s: System, e: Effect) {
    && (Loads(e.phase) ==> Complete(e.target))
    && (e.phase.Failed? ==> e.phase.reason.Vanished? || e.phase.reason.Refused?)
    && (e.target == Some(LOCK_ONLY) ==> s.target == Some(LOCK_ONLY) && BeforeUnlink(e.phase))
  }

  lemma QuietCreate(s: System, c: CallId, p: Phase, a: Action)
    requires c in s.calls && p == s.calls[c] && CallOk(s, c) && !Loads(p) && DecideCreate(s, c, p, a).Some?
    requires !DecideCreate(s, c, p, a).value.fault
    requires QuietPhase(s, p) && (s.target == Some(LOCK_ONLY) ==> BeforeUnlink(p))
    requires s.target.Some? ==> s.target == Some(EMPTY) || s.target == Some(LOCK_ONLY) || Complete(s.target)
    requires HasIdentity(s.target) ==> Complete(s.target)
    ensures QuietEffect(s, DecideCreate(s, c, p, a).value)
  {
    hide Identity, IsInit, ApplyAll, InitPlan, Apply, HasIdentity, FirstFiles, Own;
    NoFilesIsNoIdentity();
  }

  lemma QuietLoad(s: System, c: CallId, p: Phase, a: Action)
    requires c in s.calls && p == s.calls[c] && CallOk(s, c) && Loads(p) && Complete(s.target)
    requires DecideLoad(s, p, a).Some? && !DecideLoad(s, p, a).value.fault
    ensures QuietEffect(s, DecideLoad(s, p, a).value)
  {
    hide Identity, IsInit, ApplyAll, Own;
    NoFilesIsNoIdentity();
    CompleteFiles(s.target);
    AllFiles(s.target.value.files);
  }

  lemma StepperQuiet(s: System, c: CallId, a: Action, t: System)
    requires Inv(s) && Quiet(s) && Do(s, c, a) == Some(t) && !t.faults
    ensures c in t.calls && QuietPhase(t, t.calls[c])
    ensures t.target == Some(LOCK_ONLY) ==> s.target == Some(LOCK_ONLY) && BeforeUnlink(t.calls[c])
    ensures !s.faults
  {
    hide Inv, Complete, HasIdentity, DecideCreate, DecideLoad, CallOk, Become;
    WholeTarget(s);
    CallsOk(s, c);
    FaultsStay(s, c, a, t);
    StepIs(s, c, a, t);
    if c in s.calls {
      var p := s.calls[c];
      if Loads(p) && DecideLoad(s, p, a).Some? && !DecideLoad(s, p, a).value.fault {
        QuietLoad(s, c, p, a);
      }
      if !Loads(p) && DecideCreate(s, c, p, a).Some? && !DecideCreate(s, c, p, a).value.fault {
        QuietCreate(s, c, p, a);
      }
    }
  }

  lemma StepIs(s: System, c: CallId, a: Action, t: System)
    requires Do(s, c, a) == Some(t)
    ensures Decide(s, c, a).Some? && c in t.calls
    ensures var e := Decide(s, c, a).value;
            t.calls[c] == e.phase && t.target == e.target && t.faults == (s.faults || e.fault)
  {
    hide Decide;
  }

  lemma StepQuiet(s: System, t: System)
    requires Inv(s) && Quiet(s) && Step(s, t)
    ensures Quiet(t)
  {
    hide Do, Inv, Complete, BeforeUnlink;
    var c, a :| Do(s, c, a) == Some(t);
    OwnPhaseOnly(s, c, a, t);
    if !t.faults {
      StepperQuiet(s, c, a, t);
      if Complete(s.target) {
        StepKeeps(s, t);
        CompleteStays(s, t);
      }
    }
  }

  lemma CompleteStays(s: System, t: System)
    requires Complete(s.target) && t.target.Some? && t.target.value.files == s.target.value.files
    ensures Complete(t.target)
  {
    hide Identity;
  }

  lemma StepperCalm(s: System, c: CallId, a: Action, t: System)
    requires Inv(s) && Quiet(s) && Calm(s) && Do(s, c, a) == Some(t) && !t.faults
    ensures c in t.calls && CalmPhase(t, t.calls[c])
    ensures s.target.Some? ==> t.target.Some?
  {
    hide Do, Inv, Complete, QuietPhase, BeforeUnlink, CalmPhase;
    StepperQuiet(s, c, a, t);
    CalmStep(s, c, a, t);
  }

  lemma CalmStep(s: System, c: CallId, a: Action, t: System)
    requires Do(s, c, a) == Some(t) && !t.faults && s.target != Some(LOCK_ONLY)
    requires c in s.calls ==> CalmPhase(s, s.calls[c]) && QuietPhase(s, s.calls[c])
    requires c in t.calls ==> QuietPhase(t, t.calls[c])
    ensures c in t.calls && CalmPhase(t, t.calls[c])
    ensures s.target.Some? ==> t.target.Some?
  {
    hide Identity, InitPlan, Apply, HasIdentity, Become, ReadNext, Own;
    StepIs(s, c, a, t);
  }

  lemma StepCalm(s: System, t: System)
    requires Inv(s) && Quiet(s) && Calm(s) && Step(s, t)
    ensures Calm(t)
  {
    hide Do, Inv, Complete, BeforeUnlink, QuietPhase;
    var c, a :| Do(s, c, a) == Some(t);
    OwnPhaseOnly(s, c, a, t);
    if !t.faults {
      StepperQuiet(s, c, a, t);
      StepperCalm(s, c, a, t);
    }
  }

  lemma {:induction false} RunQuiet(states: seq<System>, i: nat)
    requires Run(states) && i < |states|
    ensures Quiet(states[i])
    ensures states[0].target != Some(LOCK_ONLY) ==> Calm(states[i])
  {
    hide Step, Inv, Complete;
    if i > 0 {
      RunQuiet(states, i - 1);
      RunHolds(states, i - 1);
      StepQuiet(states[i - 1], states[i]);
      if states[0].target != Some(LOCK_ONLY) {
        StepCalm(states[i - 1], states[i]);
      }
    }
  }

  /** While no I/O call fails, a call whose window and keys `init` accepts fails in one way only: the lock-only
    * directory that it found was removed by another call before it looked again. A loser of the race always finds
    * a complete identity to load. If the directory did not start lock-only, no such call fails. */
  lemma CallsFailOnlyByVanishing(states: seq<System>, i: nat, c: CallId)
    requires Run(states) && i < |states| && !states[i].faults
    requires c in states[i].calls && states[i].calls[c].Failed? && !states[i].calls[c].reason.Refused?
    ensures states[i].calls[c].reason.Vanished?
    ensures states[0].target == Some(LOCK_ONLY)
  {
    hide Run, Complete;
    RunQuiet(states, i);
  }

  lemma LoadersFindIdentity(states: seq<System>, i: nat, c: CallId)
    requires Run(states) && i < |states| && !states[i].faults
    requires c in states[i].calls && Loads(states[i].calls[c])
    ensures Complete(states[i].target)
  {
    hide Run, Complete;
    RunQuiet(states, i);
  }

  // A run in which a call fails although nothing else does.

  predicate FaultlessFailure(s: System, c: CallId) {
    && !s.faults && c in s.calls && s.calls[c].Failed? && !s.calls[c].reason.Refused?
  }

  /** What is true after an effect, field by field. */
  ghost predicate Follows(s: System, c: CallId, e: Effect, t: System) {
    && t.target == e.target && t.faults == (s.faults || e.fault)
    && t.renames == (if e.renamed then s.renames + 1 else s.renames)
    && c in t.calls && t.calls[c] == e.phase
    && (forall d | d != c :: d in t.calls <==> d in s.calls)
    && (forall d <- s.calls | d != c :: t.calls[d] == s.calls[d])
    && (e.temps.Keep? || e.temps == Remove({}) ==> t.temps == s.temps)
    && (e.temps.Put? ==> e.temps.temp in t.temps && t.temps[e.temps.temp] == e.temps.content)
  }

  /** `more` is the run `states` with one more step of call `c`, whose effect is `e`. */
  lemma Extend(states: seq<System>, c: CallId, a: Action, e: Effect) returns (more: seq<System>)
    requires Run(states) && Decide(states[|states| - 1], c, a) == Some(e)
    ensures Run(more) && more != [] && more[0] == states[0]
    ensures Follows(states[|states| - 1], c, e, more[|more| - 1])
  {
    hide Decide;
    var s := states[|states| - 1];
    more := states + [Become(s, c, e)];
    assert Do(s, c, a) == Some(Become(s, c, e));
    assert Step(more[|states| - 1], more[|states|]);
    forall i | 0 <= i < |more| - 1
      ensures Step(more[i], more[i + 1])
    {
      assert i < |states| - 1 ==> Step(states[i], states[i + 1]);
    }
    assert s.temps - {} == s.temps;
  }

  /** The same for a step up to the rename, from phase `p`. */
  lemma Advance(states: seq<System>, c: CallId, p: Phase, a: Action, e: Effect) returns (more: seq<System>)
    requires Run(states) && c in states[|states| - 1].calls && states[|states| - 1].calls[c] == p
    requires Live(p) && !Loads(p) && !a.Begin? && !a.Fail? && !a.Crash?
    requires DecideCreate(states[|states| - 1], c, p, a) == Some(e)
    ensures Run(more) && more != [] && more[0] == states[0]
    ensures Follows(states[|states| - 1], c, e, more[|more| - 1])
  {
    hide Run, DecideCreate;
    more := Extend(states, c, a, e);
  }

  /** The effect of a step that leads to a phase and leaves the target as given. */
  function Leads(p: Phase, target: Option<Content>, temps: TempChange): Effect {
    Effect(p, target, temps, false, false)
  }

  /** Call 0 has found the lock-only directory; call 1 is at phase `p`. */
  predicate BothAt(s: System, p: Phase) {
    && s.target == Some(LOCK_ONLY) && !s.faults
    && 0 in s.calls && s.calls[0] == Found && 1 in s.calls && s.calls[1] == p
  }

  /** Call 0 is the only one, at phase `p`; the target is as at the start. */
  predicate AloneAt(s: System, target: Option<Content>, p: Phase) {
    && s.target == target && s.temps == map[] && !s.faults && s.renames == 0
    && 1 !in s.calls && 0 in s.calls && s.calls[0] == p
  }

  lemma OneEnters(target: Option<Content>) returns (states: seq<System>)
    requires target == None || target == Some(LOCK_ONLY)
    ensures Run(states) && states != [] && states[0].target == target
    ensures AloneAt(states[|states| - 1], target, if target.Some? then Statted else Unmarked)
  {
    hide Identity, DecideLoad, InitPlan, Apply, Step, Own;
    states := [System(target, map[], map[], 0, false)];
    states := Extend(states, 0, Begin, Leads(Entered, target, Keep));
    states := Advance(states, 0, Entered, StatDir, Leads(if target.Some? then Statted else Unmarked, target, Keep));
  }

  lemma OneFinds() returns (states: seq<System>)
    ensures Run(states) && states != [] && states[0].target == Some(LOCK_ONLY)
    ensures AloneAt(states[|states| - 1], Some(LOCK_ONLY), Found)
  {
    hide Identity, Decide, InitPlan, Apply, Run, Own;
    states := OneEnters(Some(LOCK_ONLY));
    states := Advance(states, 0, Statted, StatAgentId, Leads(Unmarked, Some(LOCK_ONLY), Keep));
    states := Advance(states, 0, Unmarked, StatAgain, Leads(Found, Some(LOCK_ONLY), Keep));
  }

  lemma BothFind() returns (states: seq<System>)
    ensures Run(states) && states != [] && states[0].target == Some(LOCK_ONLY)
    ensures BothAt(states[|states| - 1], Found) && states[|states| - 1].temps == map[]
  {
    hide Identity, DecideLoad, InitPlan, Apply, Run, Own;
    states := OneFinds();
    states := Extend(states, 1, Begin, Leads(Entered, Some(LOCK_ONLY), Keep));
    states := Advance(states, 1, Entered, StatDir, Leads(Statted, Some(LOCK_ONLY), Keep));
    states := Advance(states, 1, Statted, StatAgentId, Leads(Unmarked, Some(LOCK_ONLY), Keep));
    states := Advance(states, 1, Unmarked, StatAgain, Leads(Found, Some(LOCK_ONLY), Keep));
  }

  lemma CallOneCleans() returns (states: seq<System>)
    ensures Run(states) && states != [] && states[0].target == Some(LOCK_ONLY)
    ensures BothAt(states[|states| - 1], Cleaned) && states[|states| - 1].temps == map[]
  {
    hide Identity, Decide, InitPlan, Apply, Run, Own;
    states := BothFind();
    states := Advance(states, 1, Found, CheckDir, Leads(Passed, Some(LOCK_ONLY), Keep));
    states := Advance(states, 1, Passed, CleanDeadTemps({}), Leads(Cleaned, Some(LOCK_ONLY), Remove({})));
  }

  lemma CallOneLists() returns (states: seq<System>)
    ensures Run(states) && states != [] && states[0].target == Some(LOCK_ONLY)
    ensures BothAt(states[|states| - 1], Listing(TempName(1, 0)))
  {
    hide Identity, Decide, InitPlan, Apply, Run, Own;
    var t := TempName(1, 0);
    states := CallOneCleans();
    states := Advance(states, 1, Cleaned, MakeTemp(0), Leads(Made(t), Some(LOCK_ONLY), Put(t, EMPTY)));
    states := Advance(states, 1, Made(t), IsDir, Leads(Listing(t), Some(LOCK_ONLY), Keep));
  }

  lemma CallOneDooms() returns (states: seq<System>)
    ensures Run(states) && states != [] && states[0].target == Some(LOCK_ONLY)
    ensures BothAt(states[|states| - 1], Doomed(TempName(1, 0)))
  {
    hide Identity, Decide, InitPlan, Apply, Run, Own;
    var t := TempName(1, 0);
    states := CallOneLists();
    states := Advance(states, 1, Listing(t), ReadDir, Leads(Doomed(t), Some(LOCK_ONLY), Keep));
  }

  lemma CallOneRemoves() returns (states: seq<System>)
    ensures Run(states) && states != [] && states[0].target == Some(LOCK_ONLY)
    ensures var s := states[|states| - 1]; s.target == None && !s.faults && 0 in s.calls && s.calls[0] == Found
  {
    hide Identity, Decide, InitPlan, Apply, Run, Own;
    var t := TempName(1, 0);
    states := CallOneDooms();
    states := Advance(states, 1, Doomed(t), UnlinkLock, Leads(Unlinked(t), Some(EMPTY), Keep));
    states := Advance(states, 1, Unlinked(t), RemoveDir, Leads(Prepared(t), None, Keep));
  }

  /** Call 0 finds the lock-only directory; before it looks again, call 1 has removed it. */
  lemma VanishingHappens() returns (states: seq<System>)
    ensures Run(states) && states != [] && states[0].target == Some(LOCK_ONLY)
    ensures FaultlessFailure(states[|states| - 1], 0)
  {
    hide Identity, Decide, InitPlan, Apply, Run;
    states := CallOneRemoves();
    states := Advance(states, 0, Found, CheckDir, Leads(Failed(Vanished), None, Keep));
  }

  ghost predicate CanFail(s: System) {
    exists states, i, c :: Run(states) && states[0] == s && 0 <= i < |states| && FaultlessFailure(states[i], c)
  }

  /** Without I/O failures and refused arguments, a call can fail exactly if the directory starts lock-only. */
  lemma CanFailExactlyFromLockOnly(s: System)
    requires Initial(s)
    ensures CanFail(s) <==> s.target == Some(LOCK_ONLY)
  {
    hide Step, Complete;
    if CanFail(s) {
      var states, i, c :| Run(states) && states[0] == s && 0 <= i < |states| && FaultlessFailure(states[i], c);
      CallsFailOnlyByVanishing(states, i, c);
    }
    if s.target == Some(LOCK_ONLY) {
      var states := VanishingHappens();
      assert states[0] == s;
      assert FaultlessFailure(states[|states| - 1], 0);
    }
  }

  // Runs in which calls succeed.

  /** A call that has a fresh temporary directory beside an absent target, ready to be filled. */
  predicate ReadyToFill(s: System) {
    && s.target == None && !s.faults && s.renames == 0
    && 0 in s.calls && s.calls[0] == Prepared(TempName(0, 0))
    && TempName(0, 0) in s.temps && s.temps[TempName(0, 0)] == EMPTY
  }

  lemma CallCleans() returns (states: seq<System>)
    ensures Run(states) && states != [] && states[0].target == None && AloneAt(states[|states| - 1], None, Cleaned)
  {
    hide Identity, Decide, InitPlan, Apply, Run, Own;
    states := OneEnters(None);
    states := Advance(states, 0, Unmarked, StatAgain, Leads(Passed, None, Keep));
    states := Advance(states, 0, Passed, CleanDeadTemps({}), Leads(Cleaned, None, Remove({})));
  }

  lemma CallPrepares() returns (states: seq<System>)
    ensures Run(states) && states != [] && states[0].target == None && ReadyToFill(states[|states| - 1])
  {
    hide Identity, Decide, InitPlan, Apply, Run, Own;
    states := CallCleans();
    states := Advance(states, 0, Cleaned, MakeTemp(0), Leads(Made(TempName(0, 0)), None, Put(TempName(0, 0), EMPTY)));
    states := Advance(states, 0, Made(TempName(0, 0)), IsDir, Leads(Prepared(TempName(0, 0)), None, Keep));
  }

  /** The call has done `n` of the writes of `init`. */
  predicate FillingAt(s: System, ws: seq<Write>, n: nat) {
    && s.target == None && !s.faults && s.renames == 0
    && 0 in s.calls && s.calls[0] == Filling(TempName(0, 0), ws, n) && TempName(0, 0) in s.temps
  }

  lemma CallStarts(root: KeyDuo, device: KeyDuo, now: i64, ttl: i64, ws: seq<Write>) returns (states: seq<System>)
    requires InitPlan(NO_FILES, root, device, now, ttl) == Success(ws)
    ensures Run(states) && states != [] && states[0].target == None && FillingAt(states[|states| - 1], ws, 0)
  {
    hide Identity, Decide, InitPlan, Apply, Run, Own;
    var t := TempName(0, 0);
    states := CallPrepares();
    states := Advance(states, 0, Prepared(t), StartInit(root, device, now, ttl),
                      Leads(Filling(t, ws, 0), None, Put(t, LOCK_ONLY)));
  }

  lemma CallWrites(states: seq<System>, ws: seq<Write>, n: nat) returns (more: seq<System>)
    requires Run(states) && states != [] && n < |ws| && FillingAt(states[|states| - 1], ws, n)
    ensures Run(more) && more != [] && more[0] == states[0] && FillingAt(more[|more| - 1], ws, n + 1)
  {
    hide Identity, Decide, InitPlan, Apply, Run, Own;
    var t := TempName(0, 0);
    var content := states[|states| - 1].temps[t];
    var written := content.(files := Apply(content.files, ws[n]));
    more := Advance(states, 0, Filling(t, ws, n), WriteFile, Leads(Filling(t, ws, n + 1), None, Put(t, written)));
  }

  lemma CallFills(root: KeyDuo, device: KeyDuo, now: i64, ttl: i64, ws: seq<Write>) returns (states: seq<System>)
    requires InitPlan(NO_FILES, root, device, now, ttl) == Success(ws)
    ensures Run(states) && states != [] && states[0].target == None && FillingAt(states[|states| - 1], ws, |ws|)
  {
    hide InitPlan, Run, FillingAt;
    states := CallStarts(root, device, now, ttl, ws);
    for n := 0 to |ws|
      invariant Run(states) && states != [] && states[0].target == None && FillingAt(states[|states| - 1], ws, n)
    {
      states := CallWrites(states, ws, n);
    }
  }

  /** From an absent directory, one call alone creates the identity of the root that it generates. */
  lemma CreationHappens(root: KeyDuo, device: KeyDuo, now: i64, ttl: i64) returns (states: seq<System>)
    requires InitPlan(NO_FILES, root, device, now, ttl).Success?
    ensures Run(states) && states[0].target == None
    ensures var s := states[|states| - 1];
            && !s.faults && s.renames == 1 && Complete(s.target)
            && 0 in s.calls && s.calls[0] == Returned(PrincipalId(root.signing))
  {
    hide Identity, Decide, InitPlan, Apply, ApplyAll, Run, Own, Inv, Complete;
    var ws := InitPlan(NO_FILES, root, device, now, ttl).value;
    var t, id := TempName(0, 0), PrincipalId(root.signing);
    states := CallFills(root, device, now, ttl, ws);
    RunHolds(states, |states| - 1);
    FilledFiles(states[|states| - 1], root, device, now, ttl);
    var content := states[|states| - 1].temps[t];
    states := Advance(states, 0, Filling(t, ws, |ws|), FinishInit, Leads(Filled(t, id), None, Keep));
    states := Advance(states, 0, Filled(t, id), Rename, Effect(Returned(id), Some(content), Remove({t}), true, false));
    RunHolds(states, |states| - 1);
    RenamedIsComplete(states[|states| - 1]);
  }

  lemma FilledFiles(s: System, root: KeyDuo, device: KeyDuo, now: i64, ttl: i64)
    requires InitPlan(NO_FILES, root, device, now, ttl).Success? && Inv(s)
    requires var ws := InitPlan(NO_FILES, root, device, now, ttl).value; FillingAt(s, ws, |ws|)
    ensures s.temps[TempName(0, 0)].files.agentId == Some(PrincipalId(root.signing))
  {
    hide Identity, FirstFiles, Delegate, NoStrays;
    var ws := InitPlan(NO_FILES, root, device, now, ttl).value;
    assert CallOk(s, 0);
    assert ws[..|ws|] == ws && ws[|ws| - 1] == PutAgentId(PrincipalId(root.signing));
  }

  lemma RenamedIsComplete(s: System)
    requires Inv(s) && s.renames == 1
    ensures Complete(s.target)
  {
    hide CallOk, NoStrays, Identity;
  }
}
