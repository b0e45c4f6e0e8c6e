/** The key directory over whole runs: what is always true of it, when it loads, and how it recovers. */
module KeyfileRuns {
  import opened Wrappers
  import opened Bytes
  import opened Primitives
  import opened Errors
  import opened Wire
  import opened Transcripts
  import opened Authority
  import opened Registry
  import opened Signer
  import opened Verify
  import opened Keyfile
  import opened KeyfileFacts

  predicate GoodWindow(now: i64, ttl: i64) {
    0 < ttl <= MAX_UNLISTED_DELEGATION_SECONDS && now + ttl <= I64_MAX
  }

  lemma StartHolds()
    ensures Inv(START)
  {}

  lemma {:induction false} RunHolds(states: seq<State>, ops: seq<Op>, i: nat)
    requires Run(states, ops) && i < |states|
    ensures Inv(states[i])
  {
    hide Step, Inv;
    if i == 0 {
      StartHolds();
    } else {
      RunHolds(states, ops, i - 1);
      StepKeeps(states[i - 1], ops[i - 1], states[i]);
    }
  }

  lemma GrowsOn(f: Files, g: Files, h: Files)
    requires Grows(f, g) && Grows(g, h)
    ensures Grows(f, h)
  {
    hide HasChain, Committed;
  }

  /** Over any run with stops after any write, the principal never changes, no committed root is ever undone, and no
    * history entry disappears or gets a later time. */
  lemma {:induction false} RunsOnlyGrow(states: seq<State>, ops: seq<Op>, i: nat, j: nat)
    requires Run(states, ops) && i <= j < |states|
    ensures Grows(states[i].files, states[j].files)
    decreases j - i
  {
    hide Step, Inv, Grows;
    RunHolds(states, ops, i);
    if i == j {
      StillGrown(states[i], states[i]);
    } else {
      StepKeeps(states[i], ops[i], states[i + 1]);
      RunsOnlyGrow(states, ops, i + 1, j);
      GrowsOn(states[i].files, states[i + 1].files, states[j].files);
    }
  }

  /** In every reachable directory with an `agent_id`, the stored rotations verify from its genesis key with all roots
    * distinct, and the root on disk is the head of the chain or, while a rotation is pending, the root that the last
    * entry replaces. */
  lemma RotationsAlwaysVerify(states: seq<State>, ops: seq<Op>, i: nat)
    requires Run(states, ops) && i < |states| && states[i].files.agentId.Some?
    ensures var f := states[i].files;
            && f.root.Some? && f.rotations.Some?
            && var chain := RotationRoots(f.agentId.value.genesis, f.rotations.value);
               && chain.Success? && Distinct(chain.value)
               && var n := |f.rotations.value|;
                  if Pending(f.rotations.value, f.root.value)
                  then n > 0 && chain.value[n - 1] == f.root.value.signing && chain.value[n] != f.root.value.signing
                  else chain.value[n] == f.root.value.signing
  {
    hide Run, RotationRoots, DelegationReady, HistoryReady, InUse, Link;
    RunHolds(states, ops, i);
    var f := states[i].files;
    RootsAreChain(f.agentId.value.genesis, f.rotations.value,
                  RotationRoots(f.agentId.value.genesis, f.rotations.value).value);
  }

  /** In every reachable directory, a root rotation that stops after `n` writes drops exactly a pending entry left by
    * an earlier attempt, and the rotations it keeps verify to the committed roots: none of them is ever dropped. */
  lemma RetryReplacesOnlyPending(states: seq<State>, ops: seq<Op>, i: nat, now: i64, newRoot: KeyDuo, n: nat)
    requires Run(states, ops) && i < |states|
    requires WellIssued(states[i].issued + {newRoot}) && newRoot !in states[i].issued
    requires RotatePlan(states[i].files, now, newRoot).Success?
    requires n <= |RotatePlan(states[i].files, now, newRoot).value|
    ensures var f := states[i].files;
            && RotatesTo(f, newRoot, n, ApplyAll(f, RotatePlan(f, now, newRoot).value[..n]))
            && RotationRoots(f.agentId.value.genesis, Settled(f.rotations.value, f.root.value)) == Success(Committed(f))
  {
    hide Run, RotatePlan, WellIssued, RotationRoots, DelegationReady, HistoryReady, InUse, Pending;
    RunHolds(states, ops, i);
    RotateKeeps(states[i], Op.RotateRoot(now, newRoot), n);
    SettledRoots(states[i].files, states[i].issued);
  }

  lemma {:induction false} DevicesOnlyGrow(states: seq<State>, ops: seq<Op>, i: nat, j: nat)
    requires Run(states, ops) && i <= j < |states|
    ensures states[i].devices <= states[j].devices
    decreases j - i
  {
    hide Plan, ApplyAll, WellIssued;
    if i < j {
      DevicesOnlyGrow(states, ops, i + 1, j);
    }
  }

  /** No device key is ever lost: once written, it is current or in the history, whose keys are distinct. */
  lemma DevicesNeverLost(states: seq<State>, ops: seq<Op>, i: nat, j: nat, k: PublicKey)
    requires Run(states, ops) && i <= j < |states| && k in states[i].devices
    ensures var f := states[j].files;
            && f.device.Some?
            && (k == f.device.value.signing || (f.history.Some? && Lists(f.history.value, k)))
            && (f.agentId.Some? ==> f.history.Some? && DistinctRetired(f.history.value))
  {
    hide Run, ChainReady, DelegationReady, InUse, WellIssued, Lists;
    RunHolds(states, ops, j);
    if states[j].files.agentId.Some? {
      ReadyFiles(states[j]);
    }
    DevicesOnlyGrow(states, ops, i, j);
  }

  // Loading.

  lemma FromRotationsIs(genesis: PublicKey, rotations: seq<RootRotation>, roots: seq<PublicKey>)
    requires RotationRoots(genesis, rotations) == Success(roots)
    ensures FromRotations(genesis, rotations).Success? && FromRotations(genesis, rotations).value.roots == roots
    ensures roots[0] == genesis
  {
    hide Link, RotationRoots;
    RootsAreChain(genesis, rotations, roots);
  }

  /** A directory with an `agent_id` passes the full load exactly when no rotation is pending and the delegation is the
    * current root's of the current device; otherwise the error says which of the three is wrong. */
  lemma LoadsExactly(s: State)
    requires Inv(s) && s.files.agentId.Some?
    ensures LoadFiles(s.files).Success? && s.files.rotations.Some? && s.files.root.Some? && s.files.delegation.Some?
    ensures LoadVerified(s.files).Success?
       <==> !Pending(s.files.rotations.value, s.files.root.value) && DelegationIsCurrent(LoadFiles(s.files).value)
    ensures LoadVerified(s.files).Success? ==> LoadVerified(s.files).value.principalId == s.files.agentId.value
    ensures LoadVerified(s.files).Failure? ==>
              LoadVerified(s.files).error
              == VerifyFailed(if Pending(s.files.rotations.value, s.files.root.value) then CheckPrincipalGenesis
                              else if s.files.delegation.value.signingRoot != Some(ToPb(s.files.root.value.signing))
                              then CheckSigningRoot else CheckDelegated)
  {
    hide RotationRoots, FromRotations, HistoryReady, InUse, TranscriptOf, VerifyP256;
    var f := s.files;
    ChainHead(s);
    var x :| x in s.issued && NamesPair(f.delegation.value, x);
    assert x != f.device.value ==> !Shares(x, f.device.value);
  }

  /** The head of the stored chain is the root on disk exactly when nothing is pending. */
  lemma ChainHead(s: State)
    requires Inv(s) && s.files.agentId.Some?
    ensures HasChain(s.files)
    ensures var chain := FromRotations(s.files.agentId.value.genesis, s.files.rotations.value);
            && chain.Success? && chain.value.Principal() == s.files.agentId.value
            && (chain.value.Head() == s.files.root.value.signing
                <==> !Pending(s.files.rotations.value, s.files.root.value))
            && (chain.value.Head() in Committed(s.files) <==> !Pending(s.files.rotations.value, s.files.root.value))
  {
    hide RotationRoots, FromRotations, DelegationReady, HistoryReady, InUse, Link;
    var f := s.files;
    var roots := RotationRoots(f.agentId.value.genesis, f.rotations.value).value;
    FromRotationsIs(f.agentId.value.genesis, f.rotations.value, roots);
    RootsAreChain(f.agentId.value.genesis, f.rotations.value, roots);
  }

  /** While a rotation is pending, reading the principal fails, with `SigningRoot`. */
  lemma PendingHides(s: State)
    requires Inv(s) && s.files.agentId.Some? && Pending(s.files.rotations.value, s.files.root.value)
    ensures ReadPrincipal(s.files) == Failure(VerifyFailed(CheckSigningRoot))
  {
    hide RotationRoots, FromRotations, HistoryReady, InUse, TranscriptOf, VerifyP256, Pending, Committed;
    ChainHead(s);
  }

  /** Both facts, for every directory that a run can reach. */
  lemma LoadsExactlyWhenCurrent(states: seq<State>, ops: seq<Op>, i: nat)
    requires Run(states, ops) && i < |states| && states[i].files.agentId.Some?
    ensures var f := states[i].files;
            && f.rotations.Some? && f.root.Some? && f.delegation.Some? && LoadFiles(f).Success?
            && var pending := Pending(f.rotations.value, f.root.value);
               && (LoadVerified(f).Success? <==> !pending && DelegationIsCurrent(LoadFiles(f).value))
               && (LoadVerified(f).Success? ==> LoadVerified(f).value.principalId == f.agentId.value)
               && (LoadVerified(f).Failure? ==>
                     LoadVerified(f).error
                     == VerifyFailed(if pending then CheckPrincipalGenesis
                                     else if f.delegation.value.signingRoot != Some(ToPb(f.root.value.signing))
                                     then CheckSigningRoot else CheckDelegated))
  {
    hide Run, Inv, LoadFiles, LoadVerified, DelegationIsCurrent;
    RunHolds(states, ops, i);
    LoadsExactly(states[i]);
  }

  lemma PendingHidesPrincipal(states: seq<State>, ops: seq<Op>, i: nat)
    requires Run(states, ops) && i < |states| && states[i].files.agentId.Some?
    ensures var f := states[i].files;
            && f.rotations.Some? && f.root.Some?
            && (Pending(f.rotations.value, f.root.value) ==>
                  ReadPrincipal(f) == Failure(VerifyFailed(CheckSigningRoot)))
  {
    hide Run, Inv, Pending, ReadPrincipal;
    RunHolds(states, ops, i);
    ReadyFiles(states[i]);
    if Pending(states[i].files.rotations.value, states[i].files.root.value) {
      PendingHides(states[i]);
    }
  }

  // Recovery.

  function RenewAll(f: Files, now: i64, ttl: i64): Result<Files, KeyfileError> {
    var ws :- RenewPlan(f, now, ttl, None);
    Success(ApplyAll(f, ws))
  }

  /** What a caller does after a crash: renew; if a rotation is pending, rotate and renew again. Each call has its own
    * clock reading and each renewal its own window. */
  function Recover(f: Files, now1: i64, ttl1: i64, now2: i64, newRoot: KeyDuo, now3: i64, ttl3: i64)
    : Result<Files, KeyfileError>
  {
    var renewed :- RenewAll(f, now1, ttl1);
    var keys :- LoadFiles(renewed);
    if !Pending(keys.rotations, keys.root) then Success(renewed)
    else
      var ws :- RotatePlan(renewed, now2, newRoot);
      RenewAll(ApplyAll(renewed, ws), now3, ttl3)
  }

  /** An uninterrupted renewal succeeds in every state and leaves a current delegation. */
  lemma RenewSucceeds(s: State, now: i64, ttl: i64)
    requires Inv(s) && s.files.agentId.Some? && GoodWindow(now, ttl)
    ensures RenewAll(s.files, now, ttl).Success?
    ensures var g := RenewAll(s.files, now, ttl).value;
            && Inv(s.(files := g)) && KeepsRoots(s.files, g)
            && LoadFiles(g).Success? && DelegationIsCurrent(LoadFiles(g).value)
  {
    hide DelegateDevice, RotationRoots, DelegationReady, HistoryReady, InUse, DelegationVerifies;
    ReadyFiles(s);
    var f := s.files;
    var root, device, id := f.root.value, f.device.value, f.agentId.value;
    assert root.signing in RotationRoots(id.genesis, f.rotations.value).value;
    DelegateSucceeds(root, id, device, now, SaturatingAdd(now, ttl));
    DelegationHolds(root, id, device, now, SaturatingAdd(now, ttl));
    var d := Delegate(root, id, device, now, ttl).value;
    DelegationWritten(s, device, now, ttl, d);
    var ws := [PutDelegation(d)];
    assert RenewPlan(f, now, ttl, None) == Success(ws);
    ApplyNext(f, ws, 0);
    assert ws[..0] == [] && ws[..1] == ws;
    assert RenewAll(f, now, ttl) == Success(Apply(f, PutDelegation(d)));
  }

  lemma RotateSucceedsNow(s: State, now: i64, newRoot: KeyDuo)
    requires Inv(s) && s.files.agentId.Some? && WellIssued(s.issued + {newRoot}) && newRoot !in s.issued
    requires DelegationIsCurrent(LoadFiles(s.files).value)
    ensures RotatePlan(s.files, now, newRoot).Success?
    ensures var ws := RotatePlan(s.files, now, newRoot).value;
            var g := ApplyAll(s.files, ws);
            && Inv(State(g, s.issued + {newRoot}, s.devices))
            && g.agentId == s.files.agentId && g.root == Some(newRoot)
            && g.rotations.Some? && !Pending(g.rotations.value, newRoot)
  {
    hide Rotate, RotationRoots, DelegationReady, HistoryReady, InUse, WellIssued;
    ReadyFiles(s);
    var root, id := s.files.root.value, s.files.agentId.value;
    FreshIsNoRoot(s, newRoot);
    assert root.signing in RotationRoots(id.genesis, s.files.rotations.value).value;
    RotateSucceeds(root, id, newRoot, now);
    IssuedGrows(s, {newRoot});
    var signed := Rotate(root, id, newRoot, now).value;
    RotationWritten(s.(issued := s.issued + {newRoot}), newRoot, now, signed);
    var ws := RotatePlan(s.files, now, newRoot).value;
    assert ws[..1][..0] == [] && ws[..2] == ws;
    ApplyNext(s.files, ws, 0);
    ApplyNext(s.files, ws, 1);
    assert ApplyAll(s.files, ws) == WithInstalled(s.files, signed, newRoot);
  }

  /** From any state that a run can leave behind, the recovery reaches a directory that loads fully verified, with the
    * original principal. */
  lemma RecoveryLoads(s: State, now1: i64, ttl1: i64, now2: i64, newRoot: KeyDuo, now3: i64, ttl3: i64)
    requires Inv(s) && s.files.agentId.Some? && GoodWindow(now1, ttl1) && GoodWindow(now3, ttl3)
    requires WellIssued(s.issued + {newRoot}) && newRoot !in s.issued
    ensures Recover(s.files, now1, ttl1, now2, newRoot, now3, ttl3).Success?
    ensures var g := Recover(s.files, now1, ttl1, now2, newRoot, now3, ttl3).value;
            && LoadVerified(g).Success?
            && LoadVerified(g).value.principalId == s.files.agentId.value
  {
    hide RenewAll, RotatePlan, ApplyAll, Inv, WellIssued, GoodWindow, LoadVerified;
    RenewSucceeds(s, now1, ttl1);
    var renewed := RenewAll(s.files, now1, ttl1).value;
    var t := s.(files := renewed);
    LoadsExactly(t);
    ReadyFiles(t);
    if Pending(renewed.rotations.value, renewed.root.value) {
      RotateSucceedsNow(t, now2, newRoot);
      var rotated := ApplyAll(renewed, RotatePlan(renewed, now2, newRoot).value);
      var u := State(rotated, s.issued + {newRoot}, s.devices);
      RenewSucceeds(u, now3, ttl3);
      LoadsExactly(u.(files := RenewAll(rotated, now3, ttl3).value));
    }
  }

  /** The same, for every state of any run. */
  lemma RecoveryAfterAnyRun(states: seq<State>, ops: seq<Op>, i: nat, now1: i64, ttl1: i64, now2: i64,
                            newRoot: KeyDuo, now3: i64, ttl3: i64)
    requires Run(states, ops) && i < |states| && states[i].files.agentId.Some?
    requires GoodWindow(now1, ttl1) && GoodWindow(now3, ttl3)
    requires WellIssued(states[i].issued + {newRoot}) && newRoot !in states[i].issued
    ensures Recover(states[i].files, now1, ttl1, now2, newRoot, now3, ttl3).Success?
    ensures var loaded := LoadVerified(Recover(states[i].files, now1, ttl1, now2, newRoot, now3, ttl3).value);
            loaded.Success? && loaded.value.principalId == states[i].files.agentId.value
  {
    hide Run, Recover, LoadVerified, Inv, WellIssued, GoodWindow;
    RunHolds(states, ops, i);
    RecoveryLoads(states[i], now1, ttl1, now2, newRoot, now3, ttl3);
  }

  // Runs that exist.

  /** An uninterrupted `init` in a good window leaves a directory with an `agent_id` and a current delegation. */
  lemma InitRuns(root: KeyDuo, device: KeyDuo, now: i64, ttl: i64) returns (t: State)
    requires WellIssued({root, device}) && root != device && GoodWindow(now, ttl)
    ensures Run([START, t], [Op.Init(root, device, now, ttl)]) && t.issued == {root, device}
    ensures t.files.agentId == Some(PrincipalId(root.signing))
    ensures LoadFiles(t.files).Success? && DelegationIsCurrent(LoadFiles(t.files).value)
  {
    hide DelegateDevice, After, ApplyAll, DelegationVerifies;
    assert !Shares(root, device);
    var id := PrincipalId(root.signing);
    DelegateSucceeds(root, id, device, now, SaturatingAdd(now, ttl));
    DelegationHolds(root, id, device, now, SaturatingAdd(now, ttl));
    var op := Op.Init(root, device, now, ttl);
    var ws := Plan(NO_FILES, op).value;
    t := After(START, ws, 6, {root, device});
    assert START.issued + {root, device} == {root, device};
    Unrolled(START, ws, {root, device});
  }

  lemma PairsWellIssued(issued: set<KeyDuo>, x: KeyDuo)
    requires WellIssued(issued + {x})
    ensures WellIssued(issued)
  {
    assert forall y <- issued :: y in issued + {x};
  }

  /** A root rotation stopped between its two writes leaves a pending entry. */
  lemma PendingRuns(root: KeyDuo, device: KeyDuo, now: i64, ttl: i64, newRoot: KeyDuo, later: i64)
    returns (states: seq<State>, ops: seq<Op>)
    requires WellIssued({root, device} + {newRoot}) && root != device && newRoot !in {root, device}
    requires GoodWindow(now, ttl)
    ensures Run(states, ops) && |states| == 3 && states[2].files.agentId.Some?
    ensures var f := states[2].files; f.rotations.Some? && f.root.Some? && Pending(f.rotations.value, f.root.value)
  {
    hide Step, Inv, LoadFiles, DelegationIsCurrent, GoodWindow, WellIssued;
    PairsWellIssued({root, device}, newRoot);
    var t := InitRuns(root, device, now, ttl);
    RunHolds([START, t], [Op.Init(root, device, now, ttl)], 1);
    var u := RotateStops(t, later, newRoot);
    states, ops := [START, t, u], [Op.Init(root, device, now, ttl), Op.RotateRoot(later, newRoot)];
    assert Step([START, t][0], [Op.Init(root, device, now, ttl)][0], [START, t][1]);
  }

  lemma RotateStops(t: State, now: i64, newRoot: KeyDuo) returns (u: State)
    requires Inv(t) && t.files.agentId.Some? && WellIssued(t.issued + {newRoot}) && newRoot !in t.issued
    requires DelegationIsCurrent(LoadFiles(t.files).value)
    ensures Step(t, Op.RotateRoot(now, newRoot), u) && u.files.agentId.Some?
    ensures u.files.rotations.Some? && u.files.root.Some? && Pending(u.files.rotations.value, u.files.root.value)
  {
    hide Inv, RotatePlan, LoadFiles, DelegationIsCurrent, WellIssued, RotationRoots, Pending;
    RotateSucceedsNow(t, now, newRoot);
    var op := Op.RotateRoot(now, newRoot);
    assert t.issued !! {newRoot};
    RotateKeeps(t, op, 0);
    RotateKeeps(t, op, 1);
    u := After(t, RotatePlan(t.files, now, newRoot).value, 1, {newRoot});
  }
}
