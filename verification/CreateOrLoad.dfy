/** `create_or_load` between processes that share nothing but the file system. Every look at the target and every change
  * of it is a step of its own; calls interleave freely, may crash at any point and may meet I/O failures. */
module CreateOrLoad {
  import opened Wrappers
  import opened Bytes
  import opened Primitives
  import opened Errors
  import opened Wire
  import opened Transcripts
  import opened Authority
  import opened Signer
  import opened Keyfile
  import opened KeyfileFacts

  type CallId = nat

  /** A private directory beside the target, named after the call that made it. */
  datatype TempName = TempName(owner: CallId, n: nat)

  /** A directory: whether it holds `.lock`, and its agent files. */
  datatype Content = Content(lock: bool, files: Files)

  const EMPTY := Content(false, NO_FILES)
  const LOCK_ONLY := Content(true, NO_FILES)

  /** Why a call returns an error: an I/O failure, the directory removed between two looks at it, a window or keys
    * that `init` refuses, or no complete identity where one is loaded. */
  datatype Reason = IoFault | Vanished | Refused | NotLoaded

  /** How far a call has come. A call that lost the race loads with its temporary directory still its own. */
  datatype Phase =
    | Entered
    | Statted
    | Unmarked
    | Found
    | Passed
    | Cleaned
    | Made(temp: TempName)
    | Listing(temp: TempName)
    | Doomed(temp: TempName)
    | Unlinked(temp: TempName)
    | Prepared(temp: TempName)
    | Filling(temp: TempName, writes: seq<Write>, done: nat)
    | Filled(temp: TempName, principal: PrincipalId)
    | Loading(own: Option<TempName>)
    | Checked(own: Option<TempName>)
    | Reading(own: Option<TempName>, got: Files, done: nat)
    | Returned(result: PrincipalId)
    | Failed(reason: Reason)
    | Dead

  datatype System = System(
    target: Option<Content>,
    temps: map<TempName, Content>,
    calls: map<CallId, Phase>,
    renames: nat,
    faults: bool)

  datatype Action =
    | Begin
    | StatDir
    | StatAgentId
    | StatAgain
    | CheckDir
    | CleanDeadTemps(removed: set<TempName>)
    | MakeTemp(n: nat)
    | IsDir
    | ReadDir
    | UnlinkLock
    | UnlinkFails
    | RemoveDir
    | StartInit(root: KeyDuo, device: KeyDuo, now: i64, ttl: i64)
    | WriteFile
    | FinishInit
    | Rename
    | RenameThenFail
    | CheckLoadDir
    | OpenLock(creates: bool)
    | ReadFile
    | VerifyFiles
    | Fail
    | Crash

  predicate Live(p: Phase) { !p.Returned? && !p.Failed? && !p.Dead? }

  /** The temporary directory that a call holds. */
  function Own(p: Phase): Option<TempName> {
    if p.Made? || p.Listing? || p.Doomed? || p.Unlinked? || p.Prepared? || p.Filling? || p.Filled? then Some(p.temp)
    else if p.Loading? || p.Checked? || p.Reading? then p.own
    else None
  }

  predicate HasIdentity(target: Option<Content>) { target.Some? && target.value.files.agentId.Some? }

  /** What one step does to the temporary directories. */
  datatype TempChange = Keep | Put(temp: TempName, content: Content) | Remove(removed: set<TempName>)

  /** What one step does: the new phase of its call, the new target, the temporary directories, whether it is a
    * successful rename, and whether an I/O call failed. */
  datatype Effect = Effect(phase: Phase, target: Option<Content>, temps: TempChange, renamed: bool, fault: bool)

  function Become(s: System, c: CallId, e: Effect): System {
    var temps := match e.temps
      case Keep => s.temps
      case Put(t, content) => s.temps[t := content]
      case Remove(removed) => s.temps - removed;
    System(e.target, temps, s.calls[c := e.phase], if e.renamed then s.renames + 1 else s.renames, s.faults || e.fault)
  }

  /** A step that changes nothing but the phase of its call. */
  function Go(s: System, p: Phase): Option<Effect> { Some(Effect(p, s.target, Keep, false, false)) }

  /** The guard of a temporary directory removes it when its call returns. */
  function Dropped(p: Phase): TempChange {
    if Own(p).Some? then Remove({Own(p).value}) else Keep
  }

  function Stop(s: System, p: Phase, reason: Reason): Option<Effect> {
    Some(Effect(Failed(reason), s.target, Dropped(p), false, reason.IoFault?))
  }

  /** The system after one step of a call; `None` where the step is not possible. */
  function Do(s: System, c: CallId, a: Action): Option<System> {
    var e :- Decide(s, c, a);
    Some(Become(s, c, e))
  }

  function Decide(s: System, c: CallId, a: Action): Option<Effect> {
    if a.Begin? then
      if c in s.calls then None else Go(s, Entered)
    else if c !in s.calls || !Live(s.calls[c]) then None
    else if a.Fail? then Stop(s, s.calls[c], IoFault)
    else if a.Crash? then Go(s, Dead)
    else if Loads(s.calls[c]) then DecideLoad(s, s.calls[c], a)
    else DecideCreate(s, c, s.calls[c], a)
  }

  predicate Loads(p: Phase) { p.Loading? || p.Checked? || p.Reading? }

  /** The steps up to the rename. */
  function DecideCreate(s: System, c: CallId, p: Phase, a: Action): Option<Effect> {
    match a
    case StatDir => if !p.Entered? then None else Go(s, if s.target.Some? then Statted else Unmarked)
    case StatAgentId => if !p.Statted? then None else Go(s, if HasIdentity(s.target) then Loading(None) else Unmarked)
    case StatAgain => if !p.Unmarked? then None else Go(s, if s.target.Some? then Found else Passed)
    case CheckDir => if !p.Found? then None else if s.target.None? then Stop(s, p, Vanished) else Go(s, Passed)
    case CleanDeadTemps(removed) =>
      if !p.Passed? || exists t <- removed :: !(t.owner in s.calls && s.calls[t.owner].Dead?) then None
      else Some(Effect(Cleaned, s.target, Remove(removed), false, false))
    case MakeTemp(n) =>
      if !p.Cleaned? || TempName(c, n) in s.temps then None
      else Some(Effect(Made(TempName(c, n)), s.target, Put(TempName(c, n), EMPTY), false, false))
    case IsDir => if !p.Made? then None else Go(s, if s.target.Some? then Listing(p.temp) else Prepared(p.temp))
    case ReadDir =>
      if !p.Listing? then None else Go(s, if s.target == Some(LOCK_ONLY) then Doomed(p.temp) else Prepared(p.temp))
    case UnlinkLock =>
      if !p.Doomed? then None
      else Some(Effect(Unlinked(p.temp), if s.target.Some? then Some(s.target.value.(lock := false)) else None, Keep,
                       false, false))
    case UnlinkFails => if !p.Doomed? then None else Some(Effect(Unlinked(p.temp), s.target, Keep, false, true))
    case RemoveDir =>
      if !p.Unlinked? then None
      else Some(Effect(Prepared(p.temp), if s.target == Some(EMPTY) then None else s.target, Keep, false, false))
    case StartInit(root, device, now, ttl) =>
      if !p.Prepared? || p.temp !in s.temps then None
      else
        (match InitPlan(s.temps[p.temp].files, root, device, now, ttl)
         case Failure(_) => Stop(s, p, Refused)
         case Success(ws) =>
           Some(Effect(Filling(p.temp, ws, 0), s.target, Put(p.temp, s.temps[p.temp].(lock := true)), false, false)))
    case WriteFile =>
      if !p.Filling? || p.temp !in s.temps || p.done >= |p.writes| then None
      else
        var content := s.temps[p.temp].(files := Apply(s.temps[p.temp].files, p.writes[p.done]));
        Some(Effect(Filling(p.temp, p.writes, p.done + 1), s.target, Put(p.temp, content), false, false))
    case FinishInit =>
      if !p.Filling? || p.temp !in s.temps || p.done != |p.writes| || s.temps[p.temp].files.agentId.None? then None
      else Go(s, Filled(p.temp, s.temps[p.temp].files.agentId.value))
    case Rename =>
      if !p.Filled? || p.temp !in s.temps then None
      else if !CanRename(s.target) then Go(s, Loading(Some(p.temp)))
      else Some(Effect(Returned(p.principal), Some(s.temps[p.temp]), Remove({p.temp}), true, false))
    case RenameThenFail =>
      if !p.Filled? || p.temp !in s.temps || !CanRename(s.target) then None
      else Some(Effect(Failed(IoFault), Some(s.temps[p.temp]), Remove({p.temp}), true, true))
    case _ => None
  }

  /** The steps of the verified load. */
  function DecideLoad(s: System, p: Phase, a: Action): Option<Effect> {
    match a
    case CheckLoadDir =>
      if !p.Loading? then None else if s.target.None? then Stop(s, p, NotLoaded) else Go(s, Checked(p.own))
    case OpenLock(creates) =>
      if !p.Checked? then None
      else if s.target.None? then Stop(s, p, NotLoaded)
      else
        var content := s.target.value.(lock := s.target.value.lock || creates);
        Some(Effect(Reading(p.own, NO_FILES, 0), Some(content), Keep, false, false))
    case ReadFile =>
      if !p.Reading? || p.done >= 6 then None
      else
        var next := ReadNext(p.got, if s.target.Some? then s.target.value.files else NO_FILES, p.done);
        if next.None? then Stop(s, p, NotLoaded) else Go(s, Reading(p.own, next.value, p.done + 1))
    case VerifyFiles =>
      if !p.Reading? || p.done != 6 then None
      else if Identity(p.got).None? then Stop(s, p, NotLoaded)
      else Some(Effect(Returned(Identity(p.got).value), s.target, Dropped(p), false, false))
    case _ => None
  }

  /** The files of a directory are read one by one; the first four must be there. */
  function ReadNext(got: Files, f: Files, n: nat): Option<Files> {
    if n == 0 then (if f.root.None? then None else Some(got.(root := f.root)))
    else if n == 1 then (if f.device.None? then None else Some(got.(device := f.device)))
    else if n == 2 then (if f.delegation.None? then None else Some(got.(delegation := f.delegation)))
    else if n == 3 then (if f.agentId.None? then None else Some(got.(agentId := f.agentId)))
    else if n == 4 then Some(got.(history := f.history))
    else Some(got.(rotations := f.rotations))
  }

  /** The first `n` files of `f`. */
  function FirstFiles(f: Files, n: nat): Files {
    Files(if n > 0 then f.root else None, if n > 1 then f.device else None, if n > 2 then f.delegation else None,
          if n > 3 then f.agentId else None, if n > 4 then f.history else None, if n > 5 then f.rotations else None)
  }

  /** A directory is renamed onto an absent or empty one only. */
  predicate CanRename(target: Option<Content>) { target.None? || target == Some(EMPTY) }

  /** The identity a directory holds, if its files load fully verified. */
  function Identity(f: Files): Option<PrincipalId> {
    match LoadVerified(f)
    case Success(keys) => Some(keys.principalId)
    case Failure(_) => None
  }

  ghost predicate Step(s: System, t: System) { exists c, a :: Do(s, c, a) == Some(t) }

  predicate Initial(s: System) {
    && (s.target == None || s.target == Some(EMPTY) || s.target == Some(LOCK_ONLY))
    && s == System(s.target, map[], map[], 0, false)
  }

  ghost predicate Run(states: seq<System>) {
    && states != [] && Initial(states[0])
    && forall i | 0 <= i < |states| - 1 :: Step(states[i], states[i + 1])
  }

  // The invariant.

  predicate Complete(target: Option<Content>) { target.Some? && Identity(target.value.files).Some? }

  ghost predicate IsInit(ws: seq<Write>) {
    exists root, device, now, ttl :: InitPlan(NO_FILES, root, device, now, ttl) == Success(ws)
  }

  ghost predicate CallOk(s: System, c: CallId) { c in s.calls ==> PhaseOk(s, c, s.calls[c]) }

  predicate HasFiles(target: Option<Content>) { target.Some? && target.value.files != NO_FILES }

  ghost predicate PhaseOk(s: System, c: CallId, p: Phase) {
    && (Own(p).Some? ==> Own(p).value.owner == c && Own(p).value in s.temps)
    && (p.Made? || p.Listing? || p.Doomed? || p.Unlinked? || p.Prepared? ==> s.temps[p.temp] == EMPTY)
    && (p.Filling? ==>
          && p.done <= |p.writes| && IsInit(p.writes)
          && s.temps[p.temp] == Content(true, ApplyAll(NO_FILES, p.writes[..p.done])))
    && (p.Filled? ==> Identity(s.temps[p.temp].files) == Some(p.principal))
    && (p.Reading? ==>
          if p.done == 0 then p.got == NO_FILES
          else p.done <= 6 && HasFiles(s.target) && p.got == FirstFiles(s.target.value.files, p.done))
    && (p.Returned? ==> s.target.Some? && Identity(s.target.value.files) == Some(p.result))
  }

  /** Every temporary directory belongs to a call that holds it or is dead. */
  predicate NoStrays(s: System) {
    forall x <- s.temps :: x.owner in s.calls && (s.calls[x.owner].Dead? || Own(s.calls[x.owner]) == Some(x))
  }

  /** The target is absent, empty, lock-only or a complete identity, and complete exactly once one rename has
    * succeeded; every call holds its own temporary directory, filled as far as the call has come, and has read of the
    * target what is there. */
  ghost predicate Inv(s: System) {
    && (s.target.Some? ==> s.target.value.files == NO_FILES || Complete(s.target))
    && s.renames == (if Complete(s.target) then 1 else 0)
    && NoStrays(s)
    && forall c <- s.calls :: CallOk(s, c)
  }

  lemma NoFilesIsNoIdentity()
    ensures Identity(NO_FILES).None?
  {}

  /** What `init` writes loads fully verified, with the principal of its root. */
  lemma InitLoads(ws: seq<Write>)
    requires IsInit(ws)
    ensures ApplyAll(NO_FILES, ws).agentId.Some?
    ensures Identity(ApplyAll(NO_FILES, ws)) == ApplyAll(NO_FILES, ws).agentId
  {
    hide LoadVerified, Delegate;
    var root, device, now, ttl :| InitPlan(NO_FILES, root, device, now, ttl) == Success(ws);
    var id := PrincipalId(root.signing);
    var d := Delegate(root, id, device, now, ttl).value;
    assert ws[..6] == ws;
    ApplyNext(NO_FILES, ws, 0);
    ApplyNext(NO_FILES, ws, 1);
    ApplyNext(NO_FILES, ws, 2);
    ApplyNext(NO_FILES, ws, 3);
    ApplyNext(NO_FILES, ws, 4);
    ApplyNext(NO_FILES, ws, 5);
    assert ApplyAll(NO_FILES, ws) == Files(Some(root), Some(device), Some(d), Some(id), Some([]), Some([]));
    FirstFilesLoad(root, device, now, ttl, d);
  }

  lemma FirstFilesLoad(root: KeyDuo, device: KeyDuo, now: i64, ttl: i64, d: KeyDelegation)
    requires Delegate(root, PrincipalId(root.signing), device, now, ttl) == Success(d)
    ensures var f := Files(Some(root), Some(device), Some(d), Some(PrincipalId(root.signing)), Some([]), Some([]));
            LoadVerified(f).Success? && LoadVerified(f).value.principalId == PrincipalId(root.signing)
  {
    hide DelegateDevice, TranscriptOf, VerifyP256, RotationStep;
    DelegationHolds(root, PrincipalId(root.signing), device, now, SaturatingAdd(now, ttl));
    assert RotationRoots(root.signing, []) == Success([root.signing]);
  }

  // Every step keeps the invariant.

  /** What the other calls rely on is left alone: their phases, the temporary directories of live calls, and the
    * files of the target once it has any. */
  ghost predicate Undisturbed(s: System, c: CallId, t: System) {
    && (forall d <- t.calls | d != c :: d in s.calls && t.calls[d] == s.calls[d])
    && (forall d <- s.calls | d != c :: d in t.calls)
    && (forall d <- s.calls | d != c && Own(s.calls[d]).Some? ::
          var x := Own(s.calls[d]).value;
          x.owner == d && x in s.temps ==> x in t.temps && t.temps[x] == s.temps[x])
    && (HasFiles(s.target) ==> t.target.Some? && t.target.value.files == s.target.value.files)
  }

  lemma OthersStayOk(s: System, c: CallId, t: System)
    requires Inv(s) && Undisturbed(s, c, t)
    ensures forall d <- t.calls | d != c :: CallOk(t, d)
  {
    hide Identity, IsInit, ApplyAll, NoStrays;
    NoFilesIsNoIdentity();
    forall d | d in t.calls && d != c
      ensures CallOk(t, d)
    {
      assert CallOk(s, d);
    }
  }

  lemma CallsOk(s: System, c: CallId)
    requires Inv(s)
    ensures CallOk(s, c)
  {}

  /** A call makes and removes no temporary directory but its own and those of dead calls. */
  predicate OwnChange(s: System, c: CallId, change: TempChange) {
    && (change.Put? ==> change.temp.owner == c)
    && (change.Remove? ==>
          forall x <- change.removed :: x.owner == c || (x.owner in s.calls && s.calls[x.owner].Dead?))
  }

  /** A call goes on holding what it held, takes what it makes, or has it removed. */
  predicate KeepsOwn(own: Option<TempName>, e: Effect) {
    || e.phase.Dead?
    || (e.temps.Put? && Own(e.phase) == Some(e.temps.temp) && (own.None? || own == Own(e.phase)))
    || (!e.temps.Put? && Own(e.phase) == own)
    || (e.temps.Remove? && own.Some? && own.value in e.temps.removed)
  }

  lemma CreateKeepsOwn(s: System, c: CallId, p: Phase, a: Action)
    requires c in s.calls && p == s.calls[c] && CallOk(s, c) && !Loads(p) && DecideCreate(s, c, p, a).Some?
    ensures OwnChange(s, c, DecideCreate(s, c, p, a).value.temps) && KeepsOwn(Own(p), DecideCreate(s, c, p, a).value)
  {
    hide Identity, IsInit, ApplyAll, InitPlan, Apply, HasIdentity, CanRename, FirstFiles;
  }

  lemma LoadKeepsOwn(s: System, c: CallId, p: Phase, a: Action)
    requires c in s.calls && p == s.calls[c] && CallOk(s, c) && Loads(p) && DecideLoad(s, p, a).Some?
    ensures OwnChange(s, c, DecideLoad(s, p, a).value.temps) && KeepsOwn(Own(p), DecideLoad(s, p, a).value)
  {
    hide Identity, IsInit, ApplyAll, ReadNext, FirstFiles;
  }

  lemma StepKeepsOwn(s: System, c: CallId, a: Action)
    requires CallOk(s, c) && Decide(s, c, a).Some?
    ensures c in s.calls ==> Live(s.calls[c])
    ensures OwnChange(s, c, Decide(s, c, a).value.temps)
    ensures KeepsOwn(if c in s.calls then Own(s.calls[c]) else None, Decide(s, c, a).value)
  {
    hide DecideCreate, DecideLoad, Loads, Identity, IsInit, ApplyAll, FirstFiles;
    if c in s.calls {
      var p := s.calls[c];
      if Loads(p) && DecideLoad(s, p, a).Some? {
        LoadKeepsOwn(s, c, p, a);
      }
      if !Loads(p) && DecideCreate(s, c, p, a).Some? {
        CreateKeepsOwn(s, c, p, a);
      }
    }
  }

  /** A step touches no temporary directory but its own call's and those of dead calls. */
  lemma OwnTempsOnly(s: System, c: CallId, a: Action, t: System)
    requires CallOk(s, c) && Do(s, c, a) == Some(t)
    ensures forall x <- s.temps | x.owner != c && !(x.owner in s.calls && s.calls[x.owner].Dead?) ::
              x in t.temps && t.temps[x] == s.temps[x]
  {
    hide Decide, KeepsOwn;
    StepKeepsOwn(s, c, a);
  }

  lemma StraysStayAway(s: System, c: CallId, a: Action, t: System)
    requires NoStrays(s) && CallOk(s, c) && Do(s, c, a) == Some(t)
    ensures NoStrays(t)
  {
    hide Decide, PhaseOk, Own;
    StepKeepsOwn(s, c, a);
  }

  lemma OwnPhaseOnly(s: System, c: CallId, a: Action, t: System)
    requires Do(s, c, a) == Some(t)
    ensures t.calls.Keys == s.calls.Keys + {c} && forall d <- s.calls | d != c :: t.calls[d] == s.calls[d]
  {
    hide Decide;
  }

  /** Only a filled temporary directory is renamed, onto an absent or empty target; every other step leaves the target's
    * files as they are, and removes it only when it is empty. */
  predicate TargetEffect(s: System, c: CallId, e: Effect) {
    if e.renamed
    then && c in s.calls && s.calls[c].Filled? && s.calls[c].temp in s.temps
         && e.target == Some(s.temps[s.calls[c].temp]) && (s.target.None? || s.target == Some(EMPTY))
    else && (e.target.Some? ==> s.target.Some? && e.target.value.files == s.target.value.files)
         && (s.target.Some? && s.target != Some(EMPTY) ==> e.target.Some?)
  }

  lemma CreateTargetEffect(s: System, c: CallId, p: Phase, a: Action)
    requires c in s.calls && p == s.calls[c] && DecideCreate(s, c, p, a).Some?
    ensures TargetEffect(s, c, DecideCreate(s, c, p, a).value)
  {
    hide Identity, InitPlan, Apply, HasIdentity, Own;
  }

  lemma StepTargetEffect(s: System, c: CallId, a: Action)
    requires Decide(s, c, a).Some?
    ensures TargetEffect(s, c, Decide(s, c, a).value)
  {
    hide DecideCreate, Identity, ReadNext, Own, Loads;
    if c in s.calls && DecideCreate(s, c, s.calls[c], a).Some? {
      CreateTargetEffect(s, c, s.calls[c], a);
    }
  }

  /** Agent files in the target, complete or not, stay as they are: only `.lock` comes and goes. */
  lemma FilesStay(s: System, c: CallId, a: Action, t: System)
    requires Do(s, c, a) == Some(t) && HasFiles(s.target)
    ensures t.target.Some? && t.target.value.files == s.target.value.files && t.renames == s.renames
  {
    hide Decide;
    StepTargetEffect(s, c, a);
  }

  lemma StepsUndisturbed(s: System, c: CallId, a: Action, t: System)
    requires Inv(s) && Do(s, c, a) == Some(t)
    ensures Undisturbed(s, c, t)
  {
    hide Do, Identity, CallOk, NoStrays, HasFiles;
    CallsOk(s, c);
    OwnTempsOnly(s, c, a, t);
    OwnPhaseOnly(s, c, a, t);
    if HasFiles(s.target) {
      FilesStay(s, c, a, t);
    }
  }

  /** A target without files stays without, unless a filled temporary directory is renamed onto it. */
  lemma EmptyTargetSteps(s: System, c: CallId, a: Action, t: System)
    requires CallOk(s, c) && Do(s, c, a) == Some(t) && (s.target.Some? ==> s.target.value.files == NO_FILES)
    ensures t.renames == s.renames ==> t.target.Some? ==> t.target.value.files == NO_FILES
    ensures t.renames != s.renames ==> t.renames == s.renames + 1 && Complete(t.target)
  {
    hide Decide, PhaseOk, Identity;
    StepTargetEffect(s, c, a);
    if c in s.calls && s.calls[c].Filled? {
      FilledIsComplete(s, c);
    }
  }

  /** A filled temporary directory holds an identity. */
  lemma FilledIsComplete(s: System, c: CallId)
    requires CallOk(s, c) && c in s.calls && s.calls[c].Filled?
    ensures s.calls[c].temp in s.temps && Complete(Some(s.temps[s.calls[c].temp]))
  {
    hide Identity, IsInit, ApplyAll, FirstFiles;
  }

  lemma TargetStaysWhole(s: System, c: CallId, a: Action, t: System)
    requires Inv(s) && Do(s, c, a) == Some(t)
    ensures t.target.Some? ==> t.target.value.files == NO_FILES || Complete(t.target)
    ensures t.renames == (if Complete(t.target) then 1 else 0)
  {
    hide Do, Identity, CallOk, NoStrays;
    CallsOk(s, c);
    NoFilesIsNoIdentity();
    if Complete(s.target) {
      FilesStay(s, c, a, t);
    } else {
      EmptyTargetSteps(s, c, a, t);
    }
  }

  lemma PreparingStaysOk(s: System, c: CallId, a: Action, t: System)
    requires CallOk(s, c) && Do(s, c, a) == Some(t)
    requires c in s.calls ==> !Loads(s.calls[c]) && !s.calls[c].Prepared? && !s.calls[c].Filling? && !s.calls[c].Filled?
    ensures CallOk(t, c)
  {
    hide Identity, IsInit, ApplyAll, InitPlan, Apply, HasIdentity, CanRename, FirstFiles, DecideLoad;
  }

  lemma FillingStaysOk(s: System, c: CallId, a: Action, t: System)
    requires CallOk(s, c) && Do(s, c, a) == Some(t)
    requires c in s.calls && (s.calls[c].Prepared? || s.calls[c].Filling?)
    ensures CallOk(t, c)
  {
    hide Identity, IsInit, ApplyAll, InitPlan, Apply, HasIdentity, CanRename, FirstFiles, DecideLoad;
    var p := s.calls[c];
    if p.Prepared? && a.StartInit? {
      InitStarts(a.root, a.device, a.now, a.ttl);
    } else if p.Filling? && p.done < |p.writes| {
      ApplyNext(NO_FILES, p.writes, p.done);
    } else if p.Filling? {
      assert p.writes[..p.done] == p.writes;
      InitLoads(p.writes);
    }
  }

  lemma RenamingStaysOk(s: System, c: CallId, a: Action, t: System)
    requires CallOk(s, c) && Do(s, c, a) == Some(t) && c in s.calls && s.calls[c].Filled?
    ensures CallOk(t, c)
  {
    hide Identity, IsInit, ApplyAll, InitPlan, Apply, HasIdentity, ReadNext, FirstFiles, DecideLoad;
  }

  lemma LoadingStaysOk(s: System, c: CallId, a: Action, t: System)
    requires CallOk(s, c) && Do(s, c, a) == Some(t) && c in s.calls && Loads(s.calls[c])
    ensures CallOk(t, c)
  {
    hide Identity, IsInit, ApplyAll, DecideCreate;
    AllFiles(if s.target.Some? then s.target.value.files else NO_FILES);
  }

  lemma AllFiles(f: Files)
    ensures FirstFiles(f, 6) == f && FirstFiles(f, 0) == NO_FILES
  {}

  /** The call that steps keeps its own part of the invariant. */
  lemma StepperStaysOk(s: System, c: CallId, a: Action, t: System)
    requires Inv(s) && Do(s, c, a) == Some(t)
    ensures CallOk(t, c)
  {
    hide Do, CallOk;
    CallsOk(s, c);
    var p := if c in s.calls then s.calls[c] else Entered;
    if p.Prepared? || p.Filling? {
      FillingStaysOk(s, c, a, t);
    } else if p.Filled? {
      RenamingStaysOk(s, c, a, t);
    } else if Loads(p) {
      LoadingStaysOk(s, c, a, t);
    } else {
      PreparingStaysOk(s, c, a, t);
    }
  }

  lemma InitStarts(root: KeyDuo, device: KeyDuo, now: i64, ttl: i64)
    ensures var plan := InitPlan(NO_FILES, root, device, now, ttl);
            plan.Success? ==> IsInit(plan.value) && ApplyAll(NO_FILES, plan.value[..0]) == NO_FILES
  {
    hide InitPlan;
  }

  lemma StepKeeps(s: System, t: System)
    requires Inv(s) && Step(s, t)
    ensures Inv(t)
    ensures Complete(s.target) ==> t.target.Some? && t.target.value.files == s.target.value.files
  {
    hide Do, CallOk, Identity, NoStrays;
    NoFilesIsNoIdentity();
    var c, a :| Do(s, c, a) == Some(t);
    OwnPhaseOnly(s, c, a, t);
    StepsUndisturbed(s, c, a, t);
    OthersStayOk(s, c, t);
    StepperStaysOk(s, c, a, t);
    CallsOk(s, c);
    StraysStayAway(s, c, a, t);
    TargetStaysWhole(s, c, a, t);
  }
}
