/** The key directory of one agent: its files, the order in which each operation replaces them, and the checks that
  * load them. Clock readings and generated keys are parameters. */
module Keyfile {
  import opened Wrappers
  import opened Bytes
  import opened Primitives
  import opened Errors
  import opened Wire
  import opened Transcripts
  import opened Authority
  import opened Signer

  datatype VerifyCheck =
    | CheckAgentId | CheckPrincipalGenesis | CheckSigningRoot | CheckDelegated | CheckDelegatedEncryption
    | CheckPurpose | CheckSignature

  datatype FileName = RootFile | DeviceFile | DelegationFile | AgentIdFile

  datatype KeyfileError =
    | Io
    | Missing(file: FileName)
    | AlreadyInitialised
    | DelegationMismatch
    | VerifyFailed(check: VerifyCheck)
    | Crypto(error: Error)

  /** The files of an agent directory, each absent or holding a value. */
  datatype Files = Files(
    root: Option<KeyDuo>,
    device: Option<KeyDuo>,
    delegation: Option<KeyDelegation>,
    agentId: Option<PrincipalId>,
    history: Option<seq<RetiredDevice>>,
    rotations: Option<seq<RootRotation>>)

  const NO_FILES := Files(None, None, None, None, None, None)

  datatype IdentityKeys = IdentityKeys(
    root: KeyDuo,
    device: KeyDuo,
    delegation: KeyDelegation,
    principalId: PrincipalId,
    retired: seq<RetiredDevice>,
    rotations: seq<RootRotation>)

  /** One atomic replacement of a file. */
  datatype Write =
    | PutRoot(root: KeyDuo)
    | PutDevice(device: KeyDuo)
    | PutDelegation(delegation: KeyDelegation)
    | PutAgentId(agentId: PrincipalId)
    | PutHistory(history: seq<RetiredDevice>)
    | PutRotations(rotations: seq<RootRotation>)

  function Apply(f: Files, w: Write): Files {
    match w
    case PutRoot(x) => f.(root := Some(x))
    case PutDevice(x) => f.(device := Some(x))
    case PutDelegation(x) => f.(delegation := Some(x))
    case PutAgentId(x) => f.(agentId := Some(x))
    case PutHistory(x) => f.(history := Some(x))
    case PutRotations(x) => f.(rotations := Some(x))
  }

  function ApplyAll(f: Files, ws: seq<Write>): Files {
    if ws == [] then f else Apply(ApplyAll(f, ws[..|ws| - 1]), ws[|ws| - 1])
  }

  lemma NothingApplied(f: Files, ws: seq<Write>)
    ensures ApplyAll(f, ws[..0]) == f
  {}

  /** `after` is `before` with the writes done up to some point: a stop, or a failed write that may or may not have
    * taken effect. */
  ghost predicate Stopped(before: Files, ws: seq<Write>, after: Files) {
    exists n | 0 <= n <= |ws| :: after == ApplyAll(before, ws[..n])
  }

  // Reading.

  function FileOr<T>(o: Option<T>, file: FileName): Result<T, KeyfileError> {
    if o.Some? then Success(o.value) else Failure(Missing(file))
  }

  /** A missing history or rotation file is an empty list. */
  function ListOr<T>(o: Option<seq<T>>): seq<T> {
    match o
    case None => []
    case Some(s) => s
  }

  function LoadFiles(f: Files): Result<IdentityKeys, KeyfileError> {
    var root :- FileOr(f.root, RootFile);
    var device :- FileOr(f.device, DeviceFile);
    var delegation :- FileOr(f.delegation, DelegationFile);
    var principalId :- FileOr(f.agentId, AgentIdFile);
    Success(IdentityKeys(root, device, delegation, principalId, ListOr(f.history), ListOr(f.rotations)))
  }

  function CheckDelegation(device: KeyDuo, d: KeyDelegation): Outcome<KeyfileError> {
    Need(d.delegated == Some(ToPb(device.signing)), DelegationMismatch)
  }

  /** `load`. */
  function LoadLocked(f: Files): Result<IdentityKeys, KeyfileError> {
    var keys :- LoadFiles(f);
    :- CheckDelegation(keys.device, keys.delegation);
    Success(keys)
  }

  function Check<T>(r: Result<T, Error>, check: VerifyCheck): Result<T, KeyfileError> {
    match r
    case Success(v) => Success(v)
    case Failure(_) => Failure(VerifyFailed(check))
  }

  function CheckOutcome(o: Outcome<Error>, check: VerifyCheck): Outcome<KeyfileError> {
    if o.Pass? then Pass else Fail(VerifyFailed(check))
  }

  function VerifyIdentity(keys: IdentityKeys): Result<(), KeyfileError> {
    var d := keys.delegation;
    var genesis :- Check(Req(d.principalGenesis, PrincipalGenesis), CheckPrincipalGenesis);
    var chain :- Check(FromRotations(genesis, keys.rotations), CheckPrincipalGenesis);
    :- Need(keys.root.signing == chain.Head(), VerifyFailed(CheckPrincipalGenesis));
    :- Need(keys.principalId == chain.Principal(), VerifyFailed(CheckAgentId));
    :- Need(d.signingRoot == Some(ToPb(chain.Head())), VerifyFailed(CheckSigningRoot));
    :- Need(d.delegated == Some(ToPb(keys.device.signing)), VerifyFailed(CheckDelegated));
    :- Need(d.delegatedEncryption == Some(ToPb(keys.device.encryption)), VerifyFailed(CheckDelegatedEncryption));
    :- Need(d.purpose == PURPOSE_DEVICE, VerifyFailed(CheckPurpose));
    var transcript :- Check(TranscriptOf(Delegation(d)), CheckSignature);
    :- CheckOutcome(VerifyP256(chain.Head(), transcript, d.signature), CheckSignature);
    Success(())
  }

  function LoadVerified(f: Files): Result<IdentityKeys, KeyfileError> {
    var keys :- LoadFiles(f);
    var _ :- VerifyIdentity(keys);
    Success(keys)
  }

  predicate DelegationIsCurrent(keys: IdentityKeys) {
    && keys.delegation.signingRoot == Some(ToPb(keys.root.signing))
    && keys.delegation.delegated == Some(ToPb(keys.device.signing))
  }

  /** `read_principal`, for a directory that exists: the private files are not read. */
  function ReadPrincipal(f: Files): Result<Option<PrincipalId>, KeyfileError> {
    if f.agentId.None? then Success(None)
    else
      var d :- FileOr(f.delegation, DelegationFile);
      var genesis :- Check(Req(d.principalGenesis, PrincipalGenesis), CheckPrincipalGenesis);
      var chain :- Check(FromRotations(genesis, ListOr(f.rotations)), CheckPrincipalGenesis);
      :- Need(f.agentId.value == chain.Principal(), VerifyFailed(CheckAgentId));
      var signingRoot :- Check(Req(d.signingRoot, SigningRoot), CheckSigningRoot);
      :- Need(signingRoot == chain.Head(), VerifyFailed(CheckSigningRoot));
      :- Need(d.purpose == PURPOSE_DEVICE, VerifyFailed(CheckPurpose));
      var transcript :- Check(TranscriptOf(Delegation(d)), CheckSignature);
      :- CheckOutcome(VerifyP256(chain.Head(), transcript, d.signature), CheckSignature);
      Success(f.agentId)
  }

  // The retired devices.

  /** The first entry of a signing key. */
  function FindRetired(retired: seq<RetiredDevice>, signing: PbKey): (r: Option<nat>)
    ensures r.Some? ==> r.value < |retired| && retired[r.value].signing == Some(signing)
    ensures r.Some? ==> forall i | 0 <= i < r.value :: retired[i].signing != Some(signing)
    ensures r.None? ==> forall e <- retired :: e.signing != Some(signing)
  {
    if retired == [] then None
    else if retired[0].signing == Some(signing) then Some(0)
    else
      var rest := FindRetired(retired[1..], signing);
      if rest.Some? then
        assert forall i | 0 < i < |retired| :: retired[i] == retired[1..][i - 1];
        Some(rest.value + 1)
      else None
  }

  function MinTime(a: i64, b: i64): i64 { if a < b then a else b }

  /** The history after `device` is retired at `now`; a device listed already keeps the earlier time. */
  function AfterRetiring(retired: seq<RetiredDevice>, device: KeyDuo, now: i64): seq<RetiredDevice> {
    match FindRetired(retired, ToPb(device.signing))
    case Some(i) => retired[i := retired[i].(retiredAt := MinTime(retired[i].retiredAt, now))]
    case None => retired + [RetiredDevice(Some(ToPb(device.signing)), Some(ToPb(device.encryption)), now)]
  }

  /** `retire`: the list is searched and updated in place. */
  method Retire(list: seq<RetiredDevice>, device: KeyDuo, now: i64) returns (retired: seq<RetiredDevice>)
    ensures retired == AfterRetiring(list, device, now)
  {
    retired := list;
    var signing := ToPb(device.signing);
    for i := 0 to |retired|
      invariant retired == list && forall j | 0 <= j < i :: retired[j].signing != Some(signing)
    {
      if retired[i].signing == Some(signing) {
        retired := retired[i := retired[i].(retiredAt := MinTime(retired[i].retiredAt, now))];
        return;
      }
    }
    retired := retired + [RetiredDevice(Some(signing), Some(ToPb(device.encryption)), now)];
  }

  // The writes of each operation, in order, or the error that stops it before any.

  function Delegate(root: KeyDuo, id: PrincipalId, device: KeyDuo, now: i64, ttl: i64)
    : Result<KeyDelegation, KeyfileError>
  {
    match DelegateDevice(root, id, device, now, SaturatingAdd(now, ttl))
    case Success(d) => Success(d)
    case Failure(e) => Failure(Crypto(e))
  }

  function InitPlan(f: Files, root: KeyDuo, device: KeyDuo, now: i64, ttl: i64): Result<seq<Write>, KeyfileError> {
    var id := PrincipalId(root.signing);
    var d :- Delegate(root, id, device, now, ttl);
    :- Need(f == NO_FILES, AlreadyInitialised);
    Success([PutRoot(root), PutDevice(device), PutDelegation(d), PutHistory([]), PutRotations([]), PutAgentId(id)])
  }

  /** `renew`; a replacement is the freshly generated device of `renew(.., true)`. */
  function RenewPlan(f: Files, now: i64, ttl: i64, replacement: Option<KeyDuo>): Result<seq<Write>, KeyfileError> {
    var keys :- LoadFiles(f);
    var device := if replacement.Some? then replacement.value else keys.device;
    var d :- Delegate(keys.root, keys.principalId, device, now, ttl);
    if replacement.Some? then
      Success([PutHistory(AfterRetiring(keys.retired, keys.device, now)), PutDevice(device), PutDelegation(d)])
    else
      Success([PutDelegation(d)])
  }

  /** The last rotation installs a root that is not on disk yet. */
  predicate Pending(rotations: seq<RootRotation>, root: KeyDuo) {
    rotations != [] && rotations[|rotations| - 1].oldRoot == Some(ToPb(root.signing))
  }

  /** The rotations that a new attempt extends: all but a pending one. */
  function Settled(rotations: seq<RootRotation>, root: KeyDuo): seq<RootRotation> {
    if Pending(rotations, root) then rotations[..|rotations| - 1] else rotations
  }

  function RotatePlan(f: Files, now: i64, newRoot: KeyDuo): Result<seq<Write>, KeyfileError> {
    var keys :- LoadLocked(f);
    match Rotate(keys.root, keys.principalId, newRoot, now)
    case Failure(e) => Failure(Crypto(e))
    case Success(signed) =>
      Success([PutRotations(Settled(keys.rotations, keys.root) + [signed]), PutRoot(newRoot)])
  }

  /** `renew_if_due` with a directory, once the renewal is due. */
  function RenewHeldPlan(keys: IdentityKeys, f: Files, now: i64, ttl: i64): Result<seq<Write>, KeyfileError> {
    var d :- Delegate(keys.root, keys.principalId, keys.device, now, ttl);
    var root :- FileOr(f.root, RootFile);
    var device :- FileOr(f.device, DeviceFile);
    :- Need(root == keys.root && device == keys.device, DelegationMismatch);
    Success([PutDelegation(d)])
  }

  // The operations as they run.

  /** A directory: its files, the temporary names in it, and the counter that makes fresh ones. */
  class Directory {
    var files: Files
    var temporaries: set<nat>
    var counter: nat

    constructor ()
      ensures files == NO_FILES && temporaries == {}
    {
      files, temporaries, counter := NO_FILES, {}, 0;
    }

    /** `write_private_at`: a temporary file is made, filled and renamed over the target. A failure before the rename
      * leaves the old file; a failure to sync the directory after it is reported although the new file is in place.
      * A temporary name that exists already is never touched, and one made here is never left behind. */
    method WritePrivateAt(w: Write, temporary: nat) returns (o: Outcome<KeyfileError>)
      modifies this
      ensures files == old(files) || files == Apply(old(files), w)
      ensures o.Pass? ==> files == Apply(old(files), w)
      ensures temporary in old(temporaries) ==> o.Fail? && files == old(files)
      ensures temporaries == old(temporaries) && counter == old(counter)
    {
      if temporary in temporaries {
        return Fail(Io);
      }
      temporaries := temporaries + {temporary};
      if * {
        temporaries := temporaries - {temporary};
        return Fail(Io);
      }
      files := Apply(files, w);
      temporaries := temporaries - {temporary};
      if * {
        return Fail(Io);
      }
      return Pass;
    }

    /** `write_private`, as the write number `n` of the writes `ws` that an operation does from `before`. */
    method Put(w: Write, ghost before: Files, ghost ws: seq<Write>, ghost n: nat) returns (o: Outcome<KeyfileError>)
      requires n < |ws| && w == ws[n] && files == ApplyAll(before, ws[..n])
      modifies this
      ensures Stopped(before, ws, files)
      ensures o.Pass? ==> files == Apply(old(files), w) == ApplyAll(before, ws[..n + 1])
      ensures temporaries == old(temporaries)
    {
      assert ws[..n + 1][..n] == ws[..n];
      var temporary := counter;
      counter := counter + 1;
      o := WritePrivateAt(w, temporary);
    }

    /** `init`, with the root and device it generates. */
    method Init(root: KeyDuo, device: KeyDuo, now: i64, ttl: i64) returns (r: Result<IdentityKeys, KeyfileError>)
      modifies this
      ensures var plan := InitPlan(old(files), root, device, now, ttl);
              && (plan.Failure? ==> r == Failure(plan.error) && files == old(files))
              && (plan.Success? ==> Stopped(old(files), plan.value, files))
              && (r.Success? ==> plan.Success? && files == ApplyAll(old(files), plan.value) && r == LoadFiles(files))
      ensures temporaries == old(temporaries)
    {
      hide Delegate, ApplyAll, Stopped;
      var before := files;
      var id := PrincipalId(root.signing);
      var d := Delegate(root, id, device, now, ttl);
      if d.Failure? {
        return Failure(d.error);
      }
      if files != NO_FILES {
        return Failure(AlreadyInitialised);
      }
      ghost var ws := InitPlan(before, root, device, now, ttl).value;
      NothingApplied(before, ws);
      var o := Put(PutRoot(root), before, ws, 0);
      if o.Fail? { return Failure(o.error); }
      o := Put(PutDevice(device), before, ws, 1);
      if o.Fail? { return Failure(o.error); }
      o := Put(PutDelegation(d.value), before, ws, 2);
      if o.Fail? { return Failure(o.error); }
      o := Put(PutHistory([]), before, ws, 3);
      if o.Fail? { return Failure(o.error); }
      o := Put(PutRotations([]), before, ws, 4);
      if o.Fail? { return Failure(o.error); }
      o := Put(PutAgentId(id), before, ws, 5);
      if o.Fail? { return Failure(o.error); }
      assert ws[..6] == ws;
      return Success(IdentityKeys(root, device, d.value, id, [], []));
    }

    /** `renew`, with the device it generates when it replaces the device. */
    method Renew(now: i64, ttl: i64, replacement: Option<KeyDuo>) returns (r: Result<IdentityKeys, KeyfileError>)
      modifies this
      ensures var plan := RenewPlan(old(files), now, ttl, replacement);
              && (plan.Failure? ==> r == Failure(plan.error) && files == old(files))
              && (plan.Success? ==> Stopped(old(files), plan.value, files))
              && (r.Success? ==> plan.Success? && files == ApplyAll(old(files), plan.value) && r == LoadFiles(files))
      ensures temporaries == old(temporaries)
    {
      hide Delegate, AfterRetiring;
      var before := files;
      var loaded := LoadFiles(files);
      if loaded.Failure? {
        return Failure(loaded.error);
      }
      var keys := loaded.value;
      var device := if replacement.Some? then replacement.value else keys.device;
      var d := Delegate(keys.root, keys.principalId, device, now, ttl);
      if d.Failure? {
        return Failure(d.error);
      }
      ghost var ws := RenewPlan(before, now, ttl, replacement).value;
      ghost var n := 0;
      if replacement.Some? {
        var retired := Retire(keys.retired, keys.device, now);
        var o := Put(PutHistory(retired), before, ws, 0);
        if o.Fail? { return Failure(o.error); }
        o := Put(PutDevice(device), before, ws, 1);
        if o.Fail? { return Failure(o.error); }
        keys := keys.(retired := retired, device := device);
        n := 2;
      }
      var o := Put(PutDelegation(d.value), before, ws, n);
      if o.Fail? { return Failure(o.error); }
      assert ws[..n + 1] == ws;
      return Success(keys.(delegation := d.value));
    }

    /** `rotate_root`, with the root it generates. */
    method RotateRoot(now: i64, newRoot: KeyDuo) returns (r: Result<RootRotation, KeyfileError>)
      modifies this
      ensures var plan := RotatePlan(old(files), now, newRoot);
              && (plan.Failure? ==> r == Failure(plan.error) && files == old(files))
              && (plan.Success? ==> Stopped(old(files), plan.value, files))
              && (r.Success? ==> plan.Success? && files == ApplyAll(old(files), plan.value)
                                 && files.rotations.Some? && files.rotations.value != []
                                 && r.value == files.rotations.value[|files.rotations.value| - 1])
      ensures temporaries == old(temporaries)
    {
      hide Rotate;
      var before := files;
      var loaded := LoadLocked(files);
      if loaded.Failure? {
        return Failure(loaded.error);
      }
      var keys := loaded.value;
      var rotations := keys.rotations;
      if Pending(rotations, keys.root) {
        rotations := rotations[..|rotations| - 1];
      }
      var signed := Rotate(keys.root, keys.principalId, newRoot, now);
      if signed.Failure? {
        return Failure(Crypto(signed.error));
      }
      rotations := rotations + [signed.value];
      ghost var ws := RotatePlan(before, now, newRoot).value;
      var o := Put(PutRotations(rotations), before, ws, 0);
      if o.Fail? { return Failure(o.error); }
      o := Put(PutRoot(newRoot), before, ws, 1);
      if o.Fail? { return Failure(o.error); }
      assert ws[..2] == ws;
      return Success(signed.value);
    }
  }

  /** The keys a process holds in memory. */
  class HeldKeys {
    var keys: IdentityKeys

    constructor (keys: IdentityKeys)
      ensures this.keys == keys
    {
      this.keys := keys;
    }

    /** `renew_if_due`: nothing happens before the delegation is due; then it is signed again, written if a directory
      * is given that still holds this root and device, and only then taken over in memory. */
    method RenewIfDue(dir: Directory?, now: i64, ttl: i64, margin: i64) returns (r: Result<bool, KeyfileError>)
      modifies this, dir
      ensures !RenewalDue(old(keys.delegation), now, margin) ==>
                r == Success(false) && keys == old(keys) && (dir != null ==> dir.files == old(dir.files))
      ensures RenewalDue(old(keys.delegation), now, margin) && dir == null ==>
                var d := Delegate(old(keys.root), old(keys.principalId), old(keys.device), now, ttl);
                && (d.Failure? ==> r == Failure(d.error) && keys == old(keys))
                && (d.Success? ==> r == Success(true) && keys == old(keys).(delegation := d.value))
      ensures RenewalDue(old(keys.delegation), now, margin) && dir != null ==>
                var plan := RenewHeldPlan(old(keys), old(dir.files), now, ttl);
                && (plan.Failure? ==> r == Failure(plan.error) && dir.files == old(dir.files) && keys == old(keys))
                && (plan.Success? ==> Stopped(old(dir.files), plan.value, dir.files))
                && (r.Failure? ==> keys == old(keys))
                && (r.Success? ==> r.value && plan.Success? && dir.files == ApplyAll(old(dir.files), plan.value)
                                   && dir.files.delegation.Some?
                                   && keys == old(keys).(delegation := dir.files.delegation.value))
    {
      hide Delegate, RenewalDue;
      if !RenewalDue(keys.delegation, now, margin) {
        return Success(false);
      }
      var d := Delegate(keys.root, keys.principalId, keys.device, now, ttl);
      if d.Failure? {
        return Failure(d.error);
      }
      if dir != null {
        var before := dir.files;
        var root, device := FileOr(dir.files.root, RootFile), FileOr(dir.files.device, DeviceFile);
        if root.Failure? {
          return Failure(root.error);
        }
        if device.Failure? {
          return Failure(device.error);
        }
        if root.value != keys.root || device.value != keys.device {
          return Failure(DelegationMismatch);
        }
        ghost var ws := [PutDelegation(d.value)];
        var o := dir.Put(PutDelegation(d.value), before, ws, 0);
        if o.Fail? { return Failure(o.error); }
        assert ws[..1] == ws;
      }
      keys := keys.(delegation := d.value);
      return Success(true);
    }
  }
}
