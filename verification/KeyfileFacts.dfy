/** What every run of a key directory keeps, with a stop possible after any write. */
module KeyfileFacts {
  import opened Wrappers
  import opened Bytes
  import opened Primitives
  import opened Errors
  import opened Wire
  import opened Transcripts
  import opened Authority
  import opened Registry
  import opened Signer
  import opened Verify
  import opened Keyfile

  // Runs.

  datatype Op =
    | Init(root: KeyDuo, device: KeyDuo, now: i64, ttl: i64)
    | Renew(now: i64, ttl: i64, replacement: Option<KeyDuo>)
    | RotateRoot(now: i64, newRoot: KeyDuo)
    | RenewIfDue(keys: IdentityKeys, now: i64, ttl: i64, margin: i64)

  /** The writes an operation would do. */
  function Plan(f: Files, op: Op): Result<seq<Write>, KeyfileError> {
    match op
    case Init(root, device, now, ttl) => InitPlan(f, root, device, now, ttl)
    case Renew(now, ttl, replacement) => RenewPlan(f, now, ttl, replacement)
    case RotateRoot(now, newRoot) => RotatePlan(f, now, newRoot)
    case RenewIfDue(keys, now, ttl, margin) =>
      if RenewalDue(keys.delegation, now, margin) then RenewHeldPlan(keys, f, now, ttl) else Success([])
  }

  function Generated(op: Op): set<KeyDuo> {
    match op
    case Init(root, device, _, _) => {root, device}
    case Renew(_, _, Some(d)) => {d}
    case Renew(_, _, None) => {}
    case RotateRoot(_, newRoot) => {newRoot}
    case RenewIfDue(_, _, _, _) => {}
  }

  /** The directory, every key pair generated so far, and every device key written to it so far. */
  datatype State = State(files: Files, issued: set<KeyDuo>, devices: set<PublicKey>)

  const START := State(NO_FILES, {}, {})

  predicate Shares(x: KeyDuo, y: KeyDuo) {
    x.signing == y.signing || x.signing == y.encryption || x.encryption == y.signing || x.encryption == y.encryption
  }

  /** Key pairs never share a key, and a pair has two. */
  predicate WellIssued(issued: set<KeyDuo>) {
    && (forall x <- issued :: x.signing != x.encryption)
    && forall x <- issued, y <- issued | x != y :: !Shares(x, y)
  }

  function DevicesIn(ws: seq<Write>): set<PublicKey> {
    set w | w in ws && w.PutDevice? :: w.device.signing
  }

  function After(s: State, ws: seq<Write>, n: nat, made: set<KeyDuo>): State
    requires n <= |ws|
  {
    State(ApplyAll(s.files, ws[..n]), s.issued + made, s.devices + DevicesIn(ws[..n]))
  }

  /** One operation, stopped after any of its writes. Generated pairs are new, and keys in memory were loaded from
    * this directory. */
  ghost predicate Step(s: State, op: Op, t: State) {
    && WellIssued(s.issued + Generated(op)) && s.issued !! Generated(op)
    && (op.Init? ==> op.root != op.device)
    && (op.RenewIfDue? ==> s.files.agentId == Some(op.keys.principalId))
    && match Plan(s.files, op)
       case Failure(_) => t == s.(issued := s.issued + Generated(op))
       case Success(ws) => exists n | 0 <= n <= |ws| :: t == After(s, ws, n, Generated(op))
  }

  ghost predicate Run(states: seq<State>, ops: seq<Op>) {
    && |states| == |ops| + 1
    && states[0] == START
    && forall i | 0 <= i < |ops| :: Step(states[i], ops[i], states[i + 1])
  }

  // The invariant.

  predicate InUse(k: PublicKey, issued: set<KeyDuo>) {
    exists x <- issued :: k == x.signing || k == x.encryption
  }

  predicate HasChain(f: Files) {
    && f.agentId.Some? && f.root.Some? && f.rotations.Some?
    && RotationRoots(f.agentId.value.genesis, f.rotations.value).Success?
  }

  /** The roots that took effect: all but the one of a pending rotation. */
  function Committed(f: Files): seq<PublicKey>
    requires HasChain(f)
  {
    var roots := RotationRoots(f.agentId.value.genesis, f.rotations.value).value;
    if Pending(f.rotations.value, f.root.value) then roots[..|roots| - 1] else roots
  }

  /** The stored rotations verify, and the committed roots end with the root on disk. The device's keys are no roots. */
  predicate ChainReady(f: Files, issued: set<KeyDuo>) {
    && HasChain(f) && f.device.Some?
    && Last(Committed(f)) == Some(f.root.value.signing)
    && f.root.value in issued && f.device.value in issued
    && forall k <- RotationRoots(f.agentId.value.genesis, f.rotations.value).value ::
         InUse(k, issued) && k != f.device.value.signing && k != f.device.value.encryption
  }

  predicate NamesPair(d: KeyDelegation, x: KeyDuo) {
    d.delegated == Some(ToPb(x.signing)) && d.delegatedEncryption == Some(ToPb(x.encryption))
  }

  /** The stored delegation is a good one of some pair under some committed root. */
  predicate DelegationReady(f: Files, issued: set<KeyDuo>)
    requires ChainReady(f, issued)
  {
    && f.delegation.Some?
    && var d := f.delegation.value;
       && d.principalGenesis == Some(ToPb(f.agentId.value.genesis))
       && d.purpose == PURPOSE_DEVICE
       && 0 < d.notAfter - d.issuedAt <= MAX_UNLISTED_DELEGATION_SECONDS
       && KeyOf(d.signingRoot).Some? && KeyOf(d.signingRoot).value in Committed(f)
       && DelegationVerifies(d, KeyOf(d.signingRoot).value)
       && exists x <- issued :: NamesPair(d, x)
  }

  predicate DistinctRetired(h: seq<RetiredDevice>) {
    forall i, j | 0 <= i < j < |h| :: h[i].signing != h[j].signing
  }

  predicate Lists(h: seq<RetiredDevice>, k: PublicKey) { exists e <- h :: e.signing == Some(ToPb(k)) }

  /** Every device key ever written is the current one or in the history, whose keys are distinct. */
  predicate HistoryReady(f: Files, devices: set<PublicKey>)
    requires f.device.Some?
  {
    && f.history.Some?
    && DistinctRetired(f.history.value)
    && f.device.value.signing in devices
    && (forall k <- devices :: k == f.device.value.signing || Lists(f.history.value, k))
    && forall e <- f.history.value :: KeyOf(e.signing).Some? && KeyOf(e.signing).value in devices
  }

  predicate Ready(s: State) {
    && ChainReady(s.files, s.issued)
    && DelegationReady(s.files, s.issued)
    && HistoryReady(s.files, s.devices)
  }

  /** Before `agent_id` is written, nothing but one `init` has written. */
  predicate Unfinished(s: State) {
    && s.files.agentId.None?
    && (s.files == NO_FILES ==> s.devices == {})
    && forall k <- s.devices :: s.files.device.Some? && k == s.files.device.value.signing
  }

  predicate Inv(s: State) {
    && WellIssued(s.issued)
    && (forall k <- s.devices :: InUse(k, s.issued))
    && (if s.files.agentId.Some? then Ready(s) else Unfinished(s))
  }

  // One write at a time.

  lemma ApplyNext(f: Files, ws: seq<Write>, n: nat)
    requires n < |ws|
    ensures ApplyAll(f, ws[..n + 1]) == Apply(ApplyAll(f, ws[..n]), ws[n])
    ensures DevicesIn(ws[..n + 1]) == DevicesIn(ws[..n]) + DevicesIn([ws[n]])
  {
    assert ws[..n + 1][..n] == ws[..n];
    assert ws[..n + 1] == ws[..n] + [ws[n]];
  }

  lemma InUseGrows(issued: set<KeyDuo>, more: set<KeyDuo>)
    ensures forall k :: InUse(k, issued) ==> InUse(k, issued + more)
  {
    forall k | InUse(k, issued)
      ensures InUse(k, issued + more)
    {
      var x :| x in issued && (k == x.signing || k == x.encryption);
      assert x in issued + more;
    }
  }

  /** More generated pairs change nothing. */
  lemma IssuedGrows(s: State, more: set<KeyDuo>)
    requires Inv(s) && WellIssued(s.issued + more)
    ensures Inv(s.(issued := s.issued + more))
  {
    hide RotationRoots, DelegationVerifies, KeyOf, InUse, NamesPair;
    InUseGrows(s.issued, more);
    if s.files.agentId.Some? {
      var x :| x in s.issued && NamesPair(s.files.delegation.value, x);
      assert x in s.issued + more;
    }
  }

  /** A fresh pair shares no key with the known ones. */
  lemma FreshNotInUse(issued: set<KeyDuo>, x: KeyDuo, k: PublicKey)
    requires WellIssued(issued + {x}) && x !in issued && InUse(k, issued)
    ensures k != x.signing && k != x.encryption
  {
    var y :| y in issued && (k == y.signing || k == y.encryption);
    assert !Shares(y, x);
  }

  lemma DelegationWritten(s: State, x: KeyDuo, now: i64, ttl: i64, d: KeyDelegation)
    requires Inv(s) && s.files.agentId.Some? && x in s.issued
    requires Delegate(s.files.root.value, s.files.agentId.value, x, now, ttl) == Success(d)
    ensures Inv(s.(files := Apply(s.files, PutDelegation(d))))
  {
    hide RotationRoots, DelegationVerifies, DelegateDevice;
    DelegationHolds(s.files.root.value, s.files.agentId.value, x, now, SaturatingAdd(now, ttl));
    assert NamesPair(d, x);
    assert Committed(Apply(s.files, PutDelegation(d))) == Committed(s.files);
  }

  lemma HistoryWritten(s: State, now: i64)
    requires Inv(s) && s.files.agentId.Some?
    ensures var later := AfterRetiring(s.files.history.value, s.files.device.value, now);
            Inv(s.(files := Apply(s.files, PutHistory(later))))
    ensures Lists(AfterRetiring(s.files.history.value, s.files.device.value, now), s.files.device.value.signing)
  {
    hide RotationRoots, DelegationVerifies, FindRetired;
    var h, device := s.files.history.value, s.files.device.value;
    var later := AfterRetiring(h, device, now);
    RetiringKeeps(h, device, now);
    assert Committed(Apply(s.files, PutHistory(later))) == Committed(s.files);
    forall e | e in later
      ensures KeyOf(e.signing).Some? && KeyOf(e.signing).value in s.devices
    {
      var i :| 0 <= i < |later| && later[i] == e;
      assert i < |h| ==> h[i] in h;
    }
  }

  /** Retiring keeps every entry and its place, never moves a time later, and lists the device. */
  lemma RetiringKeeps(h: seq<RetiredDevice>, device: KeyDuo, now: i64)
    ensures HistoryGrows(h, AfterRetiring(h, device, now))
    ensures DistinctRetired(h) ==> DistinctRetired(AfterRetiring(h, device, now))
    ensures Lists(AfterRetiring(h, device, now), device.signing)
    ensures forall k :: Lists(h, k) ==> Lists(AfterRetiring(h, device, now), k)
    ensures forall i | |h| <= i < |AfterRetiring(h, device, now)| ::
              AfterRetiring(h, device, now)[i].signing == Some(ToPb(device.signing))
  {
    hide FindRetired;
    var later := AfterRetiring(h, device, now);
    var at := FindRetired(h, ToPb(device.signing));
    assert later[if at.Some? then at.value else |h|].signing == Some(ToPb(device.signing));
    forall k | Lists(h, k)
      ensures Lists(later, k)
    {
      var i :| 0 <= i < |h| && h[i].signing == Some(ToPb(k));
      assert later[i].signing == Some(ToPb(k));
    }
  }

  predicate HistoryGrows(h: seq<RetiredDevice>, later: seq<RetiredDevice>) {
    && |h| <= |later|
    && forall i | 0 <= i < |h| ::
         && later[i].signing == h[i].signing && later[i].encryption == h[i].encryption
         && later[i].retiredAt <= h[i].retiredAt
  }

  lemma DeviceWritten(s: State, x: KeyDuo)
    requires Inv(s) && s.files.agentId.Some? && x in s.issued
    requires Lists(s.files.history.value, s.files.device.value.signing)
    requires forall k <- RotationRoots(s.files.agentId.value.genesis, s.files.rotations.value).value ::
               k != x.signing && k != x.encryption
    ensures Inv(s.(files := Apply(s.files, PutDevice(x)), devices := s.devices + {x.signing}))
  {
    hide RotationRoots, DelegationVerifies;
    assert Committed(Apply(s.files, PutDevice(x))) == Committed(s.files);
    assert InUse(x.signing, s.issued);
  }

  /** The rotations kept by a new attempt verify to the committed roots: only a pending entry is dropped. */
  lemma SettledRoots(f: Files, issued: set<KeyDuo>)
    requires ChainReady(f, issued)
    ensures RotationRoots(f.agentId.value.genesis, Settled(f.rotations.value, f.root.value)) == Success(Committed(f))
    ensures Distinct(Committed(f)) && Committed(f) != []
  {
    hide Link, InUse, RotationRoots;
    var genesis, rotations := f.agentId.value.genesis, f.rotations.value;
    var roots := RotationRoots(genesis, rotations).value;
    if Pending(rotations, f.root.value) {
      ChainPrefix(genesis, rotations, roots, |rotations| - 1);
    }
    RootsAreChain(genesis, Settled(rotations, f.root.value), Committed(f));
  }

  /** A verified list goes on with a signed rotation to a new root. */
  lemma RootsGoOn(genesis: PublicKey, rotations: seq<RootRotation>, roots: seq<PublicKey>, r: RootRotation,
                  next: PublicKey)
    requires RotationRoots(genesis, rotations) == Success(roots) && roots != []
    requires Link(genesis, roots[|roots| - 1], r, next) && next !in roots
    ensures RotationRoots(genesis, rotations + [r]) == Success(roots + [next])
  {
    hide Link, RotationStep;
    assert (rotations + [r])[..|rotations|] == rotations;
    StepIsLink(genesis, roots, r, next);
  }

  /** A directory with its rotations extended by a pending one, and with its root installed. */
  function WithPending(f: Files, signed: RootRotation): Files
    requires f.rotations.Some? && f.root.Some?
  {
    f.(rotations := Some(Settled(f.rotations.value, f.root.value) + [signed]))
  }

  function WithInstalled(f: Files, signed: RootRotation, newRoot: KeyDuo): Files
    requires f.rotations.Some? && f.root.Some?
  {
    WithPending(f, signed).(root := Some(newRoot))
  }

  lemma RotationChain(f: Files, issued: set<KeyDuo>, newRoot: KeyDuo, signed: RootRotation)
    requires ChainReady(f, issued) && newRoot in issued && !Shares(newRoot, f.device.value)
    requires signed.oldRoot == Some(ToPb(f.root.value.signing)) && newRoot.signing !in Committed(f)
    requires RotationRoots(f.agentId.value.genesis, WithPending(f, signed).rotations.value)
             == Success(Committed(f) + [newRoot.signing])
    ensures ChainReady(WithPending(f, signed), issued) && Committed(WithPending(f, signed)) == Committed(f)
    ensures ChainReady(WithInstalled(f, signed, newRoot), issued)
    ensures Committed(WithInstalled(f, signed, newRoot)) == Committed(f) + [newRoot.signing]
    ensures Pending(WithPending(f, signed).rotations.value, f.root.value)
    ensures !Pending(WithPending(f, signed).rotations.value, newRoot)
  {
    hide RotationRoots;
    var roots := Committed(f);
    assert InUse(newRoot.signing, issued);
    assert (roots + [newRoot.signing])[..|roots|] == roots;
    assert forall k <- roots :: k in RotationRoots(f.agentId.value.genesis, f.rotations.value).value;
    assert f.root.value.signing == roots[|roots| - 1];
  }

  lemma DelegationKept(f: Files, g: Files, issued: set<KeyDuo>)
    requires ChainReady(f, issued) && ChainReady(g, issued) && DelegationReady(f, issued)
    requires g.delegation == f.delegation && g.agentId == f.agentId && Committed(f) <= Committed(g)
    ensures DelegationReady(g, issued)
  {
    hide ChainReady, DelegationVerifies, Committed;
  }

  lemma RotationWritten(s: State, newRoot: KeyDuo, now: i64, signed: RootRotation)
    requires Inv(s) && s.files.agentId.Some? && newRoot in s.issued && !Shares(newRoot, s.files.device.value)
    requires forall k <- RotationRoots(s.files.agentId.value.genesis, s.files.rotations.value).value ::
               k != newRoot.signing
    requires Rotate(s.files.root.value, s.files.agentId.value, newRoot, now) == Success(signed)
    ensures Inv(s.(files := WithPending(s.files, signed))) && Inv(s.(files := WithInstalled(s.files, signed, newRoot)))
    ensures HasChain(s.files) && HasChain(WithPending(s.files, signed))
    ensures HasChain(WithInstalled(s.files, signed, newRoot))
    ensures Committed(WithPending(s.files, signed)) == Committed(s.files)
    ensures Committed(WithInstalled(s.files, signed, newRoot)) == Committed(s.files) + [newRoot.signing]
    ensures Pending(WithPending(s.files, signed).rotations.value, s.files.root.value)
    ensures !Pending(WithPending(s.files, signed).rotations.value, newRoot)
  {
    hide RotationRoots, DelegationReady, Rotate, Link, InUse, WellIssued;
    var f := s.files;
    SettledRoots(f, s.issued);
    LinkOf(f, newRoot, now, signed);
    assert forall k <- Committed(f) :: k in RotationRoots(f.agentId.value.genesis, f.rotations.value).value;
    RootsGoOn(f.agentId.value.genesis, Settled(f.rotations.value, f.root.value), Committed(f), signed, newRoot.signing);
    RotationChain(f, s.issued, newRoot, signed);
    DelegationKept(f, WithPending(f, signed), s.issued);
    DelegationKept(f, WithInstalled(f, signed, newRoot), s.issued);
  }

  lemma LinkOf(f: Files, newRoot: KeyDuo, now: i64, signed: RootRotation)
    requires f.root.Some? && f.agentId.Some?
    requires Rotate(f.root.value, f.agentId.value, newRoot, now) == Success(signed)
    ensures Link(f.agentId.value.genesis, f.root.value.signing, signed, newRoot.signing)
    ensures signed.oldRoot == Some(ToPb(f.root.value.signing))
  {
    hide TranscriptOf, VerifyP256;
    RotationLinks(f.root.value, f.agentId.value, newRoot, now);
  }

  // Whole operations.

  /** The state after one more write. */
  function Do(t: State, w: Write): State {
    State(Apply(t.files, w), t.issued, if w.PutDevice? then t.devices + {w.device.signing} else t.devices)
  }

  lemma Unrolled(s: State, ws: seq<Write>, made: set<KeyDuo>)
    ensures After(s, ws, 0, made) == s.(issued := s.issued + made)
    ensures forall n {:trigger After(s, ws, n, made)} | 0 < n <= |ws| ::
              After(s, ws, n, made) == Do(After(s, ws, n - 1, made), ws[n - 1])
  {
    forall n | 0 < n <= |ws|
      ensures After(s, ws, n, made) == Do(After(s, ws, n - 1, made), ws[n - 1])
    {
      ApplyNext(s.files, ws, n - 1);
      assert DevicesIn([ws[n - 1]]) == if ws[n - 1].PutDevice? then {ws[n - 1].device.signing} else {};
    }
  }

  lemma InitReady(t: State, root: KeyDuo, device: KeyDuo, now: i64, ttl: i64, d: KeyDelegation)
    requires WellIssued(t.issued) && root in t.issued && device in t.issued && root != device
    requires Delegate(root, PrincipalId(root.signing), device, now, ttl) == Success(d)
    requires t.files == Files(Some(root), Some(device), Some(d), Some(PrincipalId(root.signing)), Some([]), Some([]))
    requires t.devices == {device.signing}
    ensures Inv(t) && Committed(t.files) == [root.signing]
  {
    hide DelegateDevice, DelegationVerifies, RotationStep;
    DelegationHolds(root, PrincipalId(root.signing), device, now, SaturatingAdd(now, ttl));
    assert !Shares(root, device);
    assert NamesPair(d, device) && InUse(root.signing, t.issued) && InUse(device.signing, t.issued);
  }

  lemma PairInUse(x: KeyDuo, issued: set<KeyDuo>)
    requires x in issued
    ensures InUse(x.signing, issued)
  {}

  lemma InitKeeps(s: State, op: Op, n: nat)
    requires Inv(s) && op.Init? && op.root != op.device && WellIssued(s.issued + Generated(op))
    requires Plan(s.files, op).Success? && n <= |Plan(s.files, op).value|
    ensures Inv(After(s, Plan(s.files, op).value, n, Generated(op)))
  {
    hide Delegate, After, Ready, InUse, WellIssued;
    var ws, made := Plan(s.files, op).value, Generated(op);
    Unrolled(s, ws, made);
    IssuedGrows(s, made);
    PairInUse(op.device, s.issued + made);
    if n == 6 {
      InitReady(After(s, ws, 6, made), op.root, op.device, op.now, op.ttl, ws[2].delegation);
    }
  }

  /** A fresh pair is no root yet. */
  lemma FreshIsNoRoot(s: State, x: KeyDuo)
    requires Inv(s) && s.files.agentId.Some? && x !in s.issued && WellIssued(s.issued + {x})
    ensures forall k <- RotationRoots(s.files.agentId.value.genesis, s.files.rotations.value).value ::
              k != x.signing && k != x.encryption
    ensures !Shares(x, s.files.device.value)
  {
    hide RotationRoots, DelegationReady, HistoryReady, InUse;
    forall k | k in RotationRoots(s.files.agentId.value.genesis, s.files.rotations.value).value
      ensures k != x.signing && k != x.encryption
    {
      FreshNotInUse(s.issued, x, k);
    }
  }

  lemma RenewKeeps(s: State, op: Op, n: nat)
    requires Inv(s) && op.Renew? && WellIssued(s.issued + Generated(op)) && s.issued !! Generated(op)
    requires Plan(s.files, op).Success? && n <= |Plan(s.files, op).value|
    ensures Inv(After(s, Plan(s.files, op).value, n, Generated(op)))
    ensures s.files.agentId.Some? && KeepsRoots(s.files, After(s, Plan(s.files, op).value, n, Generated(op)).files)
  {
    hide Delegate, After, RotationRoots, Ready, AfterRetiring, WellIssued;
    var ws, made := Plan(s.files, op).value, Generated(op);
    Unrolled(s, ws, made);
    IssuedGrows(s, made);
    var t := s.(issued := s.issued + made);
    ReadyFiles(s);
    if op.replacement.Some? {
      FreshIsNoRoot(s, op.replacement.value);
      HistoryWritten(t, op.now);
      var h := After(s, ws, 1, made);
      DeviceWritten(h, op.replacement.value);
      if n == 3 {
        DelegationWritten(After(s, ws, 2, made), op.replacement.value, op.now, op.ttl, ws[2].delegation);
      }
    } else {
      DelegationWritten(t, s.files.device.value, op.now, op.ttl, ws[0].delegation);
    }
  }

  /** Root, rotations and principal are as before. */
  predicate KeepsRoots(f: Files, g: Files) {
    g.agentId == f.agentId && g.root == f.root && g.rotations == f.rotations
  }

  lemma ReadyFiles(s: State)
    requires Inv(s) && s.files.agentId.Some?
    ensures s.files.root.Some? && s.files.device.Some? && s.files.delegation.Some?
    ensures s.files.history.Some? && s.files.rotations.Some?
    ensures s.files.root.value in s.issued && s.files.device.value in s.issued
  {}

  /** The files after the first `n` writes of a root rotation: nothing yet, a pending entry that replaces one left
    * pending before and commits nothing, the new root installed and committed. */
  predicate RotatesTo(f: Files, newRoot: KeyDuo, n: nat, g: Files) {
    && HasChain(f) && HasChain(g)
    && g == f.(root := g.root, rotations := g.rotations)
    && (n == 0 ==> g == f)
    && (n >= 1 ==> g.rotations.value != []
                   && g.rotations.value[..|g.rotations.value| - 1] == Settled(f.rotations.value, f.root.value))
    && (n == 1 ==> g.root == f.root && Committed(g) == Committed(f) && Pending(g.rotations.value, g.root.value))
    && (n == 2 ==> g.root == Some(newRoot) && Committed(g) == Committed(f) + [newRoot.signing]
                   && !Pending(g.rotations.value, newRoot))
  }

  lemma RotateKeeps(s: State, op: Op, n: nat)
    requires Inv(s) && op.RotateRoot? && WellIssued(s.issued + Generated(op)) && s.issued !! Generated(op)
    requires Plan(s.files, op).Success? && n <= |Plan(s.files, op).value|
    ensures |Plan(s.files, op).value| == 2
    ensures Inv(After(s, Plan(s.files, op).value, n, Generated(op)))
    ensures RotatesTo(s.files, op.newRoot, n, After(s, Plan(s.files, op).value, n, Generated(op)).files)
  {
    hide Rotate, After, RotationRoots, Ready, WellIssued, Committed, Pending, InUse;
    var ws, made := Plan(s.files, op).value, Generated(op);
    Unrolled(s, ws, made);
    IssuedGrows(s, made);
    ReadyFiles(s);
    FreshIsNoRoot(s, op.newRoot);
    var signed := Rotate(s.files.root.value, s.files.agentId.value, op.newRoot, op.now).value;
    RotationWritten(s.(issued := s.issued + made), op.newRoot, op.now, signed);
    var settled := Settled(s.files.rotations.value, s.files.root.value);
    assert (settled + [signed])[..|settled + [signed]| - 1] == settled;
  }

  lemma RenewIfDueKeeps(s: State, op: Op, n: nat)
    requires Inv(s) && op.RenewIfDue? && s.files.agentId == Some(op.keys.principalId)
    requires Plan(s.files, op).Success? && n <= |Plan(s.files, op).value|
    ensures Inv(After(s, Plan(s.files, op).value, n, {}))
    ensures KeepsRoots(s.files, After(s, Plan(s.files, op).value, n, {}).files)
  {
    hide Delegate, After, RotationRoots, Ready, WellIssued, RenewalDue;
    var ws := Plan(s.files, op).value;
    Unrolled(s, ws, {});
    assert s.(issued := s.issued + {}) == s;
    ReadyFiles(s);
    if n == 1 {
      DelegationWritten(s, op.keys.device, op.now, op.ttl, ws[0].delegation);
    }
  }

  /** What one step keeps: the principal, the committed roots, and every history entry with a time no later. */
  predicate Grows(f: Files, g: Files) {
    f.agentId.Some? ==>
      && g.agentId == f.agentId
      && HasChain(f) && HasChain(g) && Committed(f) <= Committed(g)
      && f.history.Some? && g.history.Some? && HistoryGrows(f.history.value, g.history.value)
  }

  /** A step that leaves roots and rotations alone, or extends the committed roots, grows if its history does. */
  lemma Grown(s: State, t: State)
    requires Inv(s) && Inv(t) && s.files.agentId.Some? && t.files.agentId == s.files.agentId
    requires s.files.history.Some? && t.files.history.Some?
    requires HistoryGrows(s.files.history.value, t.files.history.value)
    requires || KeepsRoots(s.files, t.files)
             || (ChainReady(s.files, s.issued) && ChainReady(t.files, t.issued)
                 && Committed(s.files) <= Committed(t.files))
    ensures Grows(s.files, t.files)
  {
    hide RotationRoots, DelegationReady, HistoryReady, HistoryGrows, InUse, WellIssued, Pending;
    if KeepsRoots(s.files, t.files) {
      assert Committed(s.files) == Committed(t.files);
    }
  }

  lemma HistorySame(h: seq<RetiredDevice>)
    ensures HistoryGrows(h, h)
  {}

  lemma RenewGrows(s: State, op: Op, n: nat)
    requires Inv(s) && op.Renew? && s.files.agentId.Some?
    requires Plan(s.files, op).Success? && n <= |Plan(s.files, op).value|
    ensures var g := After(s, Plan(s.files, op).value, n, Generated(op)).files;
            g.history.Some? && s.files.history.Some? && HistoryGrows(s.files.history.value, g.history.value)
  {
    hide Delegate, After, RotationRoots, DelegationReady, ChainReady, WellIssued, AfterRetiring, InUse;
    Unrolled(s, Plan(s.files, op).value, Generated(op));
    ReadyFiles(s);
    RetiringKeeps(s.files.history.value, s.files.device.value, op.now);
  }

  lemma RenewIfDueHistory(s: State, op: Op, n: nat)
    requires op.RenewIfDue? && Plan(s.files, op).Success? && n <= |Plan(s.files, op).value|
    ensures After(s, Plan(s.files, op).value, n, {}).files.history == s.files.history
  {
    hide Delegate, After, RenewalDue;
    Unrolled(s, Plan(s.files, op).value, {});
  }

  lemma InitOnlyOnce(f: Files, op: Op)
    requires op.Init? && Plan(f, op).Success?
    ensures f.agentId.None?
  {
    hide Delegate;
  }

  /** Every step, wherever it stops, keeps the invariant and only lets the chain and the history grow. */
  lemma StepKeeps(s: State, op: Op, t: State)
    requires Inv(s) && Step(s, op, t)
    ensures Inv(t) && Grows(s.files, t.files)
  {
    hide Plan, After, Inv, WellIssued, Committed, HistoryGrows, ChainReady, Grows, RotationRoots;
    IssuedGrows(s, Generated(op));
    if s.files.agentId.Some? {
      ReadyFiles(s);
      HistorySame(s.files.history.value);
    }
    if Plan(s.files, op).Failure? {
      StillGrown(s, t);
    } else {
      var n :| 0 <= n <= |Plan(s.files, op).value| && t == After(s, Plan(s.files, op).value, n, Generated(op));
      match op {
        case Init(_, _, _, _) =>
          InitKeeps(s, op, n);
          InitOnlyOnce(s.files, op);
          NothingToGrow(s.files, t.files);
        case Renew(_, _, _) =>
          RenewKeeps(s, op, n);
          RenewGrows(s, op, n);
          Grown(s, t);
        case RotateRoot(_, _) =>
          RotateKeeps(s, op, n);
          RotateGrows(s, op, n, t);
        case RenewIfDue(_, _, _, _) =>
          RenewIfDueKeeps(s, op, n);
          RenewIfDueHistory(s, op, n);
          Grown(s, t);
      }
    }
  }

  lemma StillGrown(s: State, t: State)
    requires Inv(s) && Inv(t) && t.files == s.files
    ensures Grows(s.files, t.files)
  {
    hide Inv, WellIssued, Committed, HistoryGrows, ChainReady, RotationRoots, Grows;
    if s.files.agentId.Some? {
      ReadyFiles(s);
      HistorySame(s.files.history.value);
      Grown(s, t);
    } else {
      NothingToGrow(s.files, t.files);
    }
  }

  lemma NothingToGrow(f: Files, g: Files)
    requires f.agentId.None?
    ensures Grows(f, g)
  {}

  lemma RotateGrows(s: State, op: Op, n: nat, t: State)
    requires Inv(s) && Inv(t) && s.files.agentId.Some? && n <= 2 && op.RotateRoot?
    requires RotatesTo(s.files, op.newRoot, n, t.files)
    ensures Grows(s.files, t.files)
  {
    hide WellIssued, HistoryGrows, RotationRoots, DelegationReady, HistoryReady, InUse, Pending, Grows;
    ReadyFiles(s);
    HistorySame(s.files.history.value);
    assert n == 0 ==> Committed(t.files) == Committed(s.files);
    Grown(s, t);
  }
}
