/** What the operations on a key directory read, require and write, said of the files, the keys and the signatures
  * alone. */
module KeyfileMeaning {
  import opened Wrappers
  import opened Bytes
  import opened Primitives
  import opened Errors
  import opened Wire
  import opened Transcripts
  import opened Authority
  import opened Signer
  import opened Keyfile

  // Loading.

  /** The directory holds these keys; an absent history or rotation file counts as an empty list. */
  predicate Holds(f: Files, keys: IdentityKeys) {
    && f.root == Some(keys.root) && f.device == Some(keys.device) && f.delegation == Some(keys.delegation)
    && f.agentId == Some(keys.principalId)
    && keys.retired == (if f.history.Some? then f.history.value else [])
    && keys.rotations == (if f.rotations.Some? then f.rotations.value else [])
  }

  /** The rotations are a signed chain from the genesis key to `head`. */
  ghost predicate LeadsTo(genesis: PublicKey, rotations: seq<RootRotation>, head: PublicKey) {
    exists roots :: IsChain(genesis, rotations, roots) && roots[|roots| - 1] == head
  }

  /** The delegation of a device for the principal, signed by the root. */
  predicate DeviceDelegation(d: KeyDelegation, id: PrincipalId, root: PublicKey) {
    && d.principalGenesis == Some(ToPb(id.genesis)) && d.signingRoot == Some(ToPb(root)) && d.purpose == 2
    && SignedBy(root, Delegation(d), d.signature)
  }

  predicate NamesDevice(d: KeyDelegation, device: KeyDuo) {
    d.delegated == Some(ToPb(device.signing)) && d.delegatedEncryption == Some(ToPb(device.encryption))
  }

  lemma LoadFilesIs(f: Files, keys: IdentityKeys)
    ensures LoadFiles(f) == Success(keys) <==> Holds(f, keys)
  {}

  /** `load` returns the keys of the directory exactly when its delegation names the device. */
  lemma LoadIs(f: Files, keys: IdentityKeys)
    ensures LoadLocked(f) == Success(keys) <==>
              Holds(f, keys) && keys.delegation.delegated == Some(ToPb(keys.device.signing))
  {}

  lemma ChainLeadsTo(genesis: PublicKey, rotations: seq<RootRotation>)
    ensures FromRotations(genesis, rotations).Success? <==> exists roots :: IsChain(genesis, rotations, roots)
    ensures FromRotations(genesis, rotations).Success? ==>
              var chain := FromRotations(genesis, rotations).value;
              && chain.Principal() == PrincipalId(genesis)
              && forall head :: LeadsTo(genesis, rotations, head) <==> head == chain.Head()
  {
    hide RotationRoots, Link;
    if roots :| IsChain(genesis, rotations, roots) {
      RootsAreChain(genesis, rotations, roots);
    }
    if RotationRoots(genesis, rotations).Success? {
      var roots := RotationRoots(genesis, rotations).value;
      RootsAreChain(genesis, rotations, roots);
      forall other | IsChain(genesis, rotations, other)
        ensures other == roots
      {
        RootsAreChain(genesis, rotations, other);
      }
    }
  }

  /** `load_verified` returns the keys of the directory exactly when its rotations lead from the principal's genesis key
    * to the root and that root signs the delegation of the device. */
  lemma LoadVerifiedIs(f: Files, keys: IdentityKeys)
    ensures LoadVerified(f) == Success(keys) <==>
              && Holds(f, keys)
              && LeadsTo(keys.principalId.genesis, keys.rotations, keys.root.signing)
              && DeviceDelegation(keys.delegation, keys.principalId, keys.root.signing)
              && NamesDevice(keys.delegation, keys.device)
  {
    hide FromRotations, LeadsTo, TranscriptOf, VerifyP256, LoadFiles, Holds;
    LoadFilesIs(f, keys);
    KeysParse();
    ChainLeadsTo(keys.principalId.genesis, keys.rotations);
    NoOtherGenesis(keys);
  }

  /** The id, the delegation and the chain must name one genesis key. */
  lemma NoOtherGenesis(keys: IdentityKeys)
    ensures VerifyIdentity(keys).Success? ==>
              keys.delegation.principalGenesis == Some(ToPb(keys.principalId.genesis))
    ensures LeadsTo(keys.principalId.genesis, keys.rotations, keys.root.signing) ==>
              FromRotations(keys.principalId.genesis, keys.rotations).Success?
  {
    hide RotationRoots, TranscriptOf, VerifyP256, IsChain;
    ChainLeadsTo(keys.principalId.genesis, keys.rotations);
    var genesis := Req(keys.delegation.principalGenesis, PrincipalGenesis);
    if genesis.Success? {
      ChainLeadsTo(genesis.value, keys.rotations);
    }
  }

  /** `read_principal` reports a principal exactly when the public files agree on it: the id, a delegation of some
    * device, and rotations that lead to the root that signs it. */
  lemma ReadPrincipalIs(f: Files, id: PrincipalId)
    ensures ReadPrincipal(f) == Success(Some(id)) <==>
              && f.agentId == Some(id) && f.delegation.Some?
              && exists root :: LeadsTo(id.genesis, if f.rotations.Some? then f.rotations.value else [], root)
                                && DeviceDelegation(f.delegation.value, id, root)
    ensures ReadPrincipal(f) == Success(None) <==> f.agentId.None?
  {
    hide FromRotations, LeadsTo, TranscriptOf, VerifyP256, IsChain;
    KeysParse();
    var rotations := ListOr(f.rotations);
    ChainLeadsTo(id.genesis, rotations);
    LeadsFrom(id.genesis, rotations);
    if f.delegation.Some? {
      var genesis := Req(f.delegation.value.principalGenesis, PrincipalGenesis);
      if genesis.Success? {
        ChainLeadsTo(genesis.value, rotations);
      }
      if ReadPrincipal(f) == Success(Some(id)) {
        var root := FromRotations(id.genesis, rotations).value.Head();
        assert LeadsTo(id.genesis, rotations, root) && DeviceDelegation(f.delegation.value, id, root);
      }
    }
  }

  lemma LeadsFrom(genesis: PublicKey, rotations: seq<RootRotation>)
    ensures forall head :: LeadsTo(genesis, rotations, head) ==> exists roots :: IsChain(genesis, rotations, roots)
  {}

  // Retiring a device.

  /** The first entry of a signing key, or the end of the list. */
  ghost predicate FirstListed(h: seq<RetiredDevice>, signing: PublicKey, i: nat) {
    && i <= |h|
    && (forall j | 0 <= j < i :: h[j].signing != Some(ToPb(signing)))
    && (i < |h| ==> h[i].signing == Some(ToPb(signing)))
  }

  /** Retiring appends the device with both its keys and this time; if its signing key is listed, only the time of the
    * first such entry changes, to the earlier one. */
  lemma RetiredIs(h: seq<RetiredDevice>, device: KeyDuo, now: i64, i: nat)
    requires FirstListed(h, device.signing, i)
    ensures var later := AfterRetiring(h, device, now);
            && (i == |h| ==>
                  later == h + [RetiredDevice(Some(ToPb(device.signing)), Some(ToPb(device.encryption)), now)])
            && (i < |h| ==>
                  && |later| == |h| && (forall j | 0 <= j < |h| && j != i :: later[j] == h[j])
                  && later[i].signing == h[i].signing && later[i].encryption == h[i].encryption
                  && later[i].retiredAt == if h[i].retiredAt <= now then h[i].retiredAt else now)
  {
    var found := FindRetired(h, ToPb(device.signing));
    assert i < |h| ==> h[i] in h;
  }

  // Writing.

  /** `ttl` seconds from `now`, at most the last time there is. */
  predicate EndsAt(notAfter: i64, now: i64, ttl: i64) {
    if now + ttl > 0x7fff_ffff_ffff_ffff then notAfter == 0x7fff_ffff_ffff_ffff
    else if now + ttl < -0x8000_0000_0000_0000 then notAfter == -0x8000_0000_0000_0000
    else notAfter == now + ttl
  }

  /** A delegation of the device by the root over this window, as the operations sign it. */
  predicate Fresh(d: KeyDelegation, root: KeyDuo, id: PrincipalId, device: KeyDuo, now: i64, ttl: i64) {
    && DeviceDelegation(d, id, root.signing) && NamesDevice(d, device)
    && d.issuedAt == now && EndsAt(d.notAfter, now, ttl)
  }

  /** The window is positive and at most 31 days, and the keys differ. */
  predicate CanDelegate(root: KeyDuo, device: KeyDuo, now: i64, ttl: i64) {
    && 0 < ttl && now < 0x7fff_ffff_ffff_ffff
    && (ttl <= 2_678_400 || 0x7fff_ffff_ffff_ffff - now <= 2_678_400)
    && root.signing != device.signing && root.signing != device.encryption && device.signing != device.encryption
  }

  lemma DelegateIs(root: KeyDuo, id: PrincipalId, device: KeyDuo, now: i64, ttl: i64)
    ensures Delegate(root, id, device, now, ttl).Success? <==> CanDelegate(root, device, now, ttl)
    ensures Delegate(root, id, device, now, ttl).Success? ==>
              Fresh(Delegate(root, id, device, now, ttl).value, root, id, device, now, ttl)
  {
    hide DelegateDevice, TranscriptOf;
    DelegateSucceeds(root, id, device, now, SaturatingAdd(now, ttl));
    if DelegateDevice(root, id, device, now, SaturatingAdd(now, ttl)).Success? {
      DelegationSays(root, id, device, now, SaturatingAdd(now, ttl));
    }
  }

  function Written(f: Files, ws: Result<seq<Write>, KeyfileError>): Files {
    if ws.Success? then ApplyAll(f, ws.value) else f
  }

  lemma OneWrite(f: Files, a: Write)
    ensures ApplyAll(f, [a]) == Apply(f, a)
  {
    assert [a][..0] == [];
  }

  lemma OneMoreWrite(f: Files, ws: seq<Write>, a: Write)
    ensures ApplyAll(f, ws + [a]) == Apply(ApplyAll(f, ws), a)
  {
    assert (ws + [a])[..|ws|] == ws;
  }

  /** `init` goes through exactly in a directory without agent files, and then leaves these six. */
  lemma InitIs(f: Files, root: KeyDuo, device: KeyDuo, now: i64, ttl: i64)
    ensures InitPlan(f, root, device, now, ttl).Success? <==> f == NO_FILES && CanDelegate(root, device, now, ttl)
    ensures InitPlan(f, root, device, now, ttl).Success? ==>
              var g := Written(f, InitPlan(f, root, device, now, ttl));
              && g.root == Some(root) && g.device == Some(device) && g.agentId == Some(PrincipalId(root.signing))
              && g.history == Some([]) && g.rotations == Some([])
              && g.delegation.Some? && Fresh(g.delegation.value, root, PrincipalId(root.signing), device, now, ttl)
  {
    hide Delegate, Fresh, CanDelegate, ApplyAll;
    var id := PrincipalId(root.signing);
    DelegateIs(root, id, device, now, ttl);
    if InitPlan(f, root, device, now, ttl).Success? {
      var d := Delegate(root, id, device, now, ttl).value;
      var ws := [PutRoot(root), PutDevice(device), PutDelegation(d)];
      OneWrite(f, PutRoot(root));
      OneMoreWrite(f, [PutRoot(root)], PutDevice(device));
      OneMoreWrite(f, [PutRoot(root), PutDevice(device)], PutDelegation(d));
      assert [PutRoot(root)] + [PutDevice(device)] == [PutRoot(root), PutDevice(device)];
      assert [PutRoot(root), PutDevice(device)] + [PutDelegation(d)] == ws;
      OneMoreWrite(f, ws, PutHistory([]));
      OneMoreWrite(f, ws + [PutHistory([])], PutRotations([]));
      OneMoreWrite(f, ws + [PutHistory([])] + [PutRotations([])], PutAgentId(id));
      assert InitPlan(f, root, device, now, ttl).value
          == ws + [PutHistory([])] + [PutRotations([])] + [PutAgentId(id)];
    }
  }

  /** `renew` goes through exactly where the four key files are present and the window is good. It leaves a fresh
    * delegation of the device on disk, or of its replacement, and then the old one is retired. */
  lemma RenewIs(f: Files, now: i64, ttl: i64, replacement: Option<KeyDuo>)
    ensures var device := if replacement.Some? then replacement else f.device;
            && (RenewPlan(f, now, ttl, replacement).Success? <==>
                  && f.root.Some? && f.device.Some? && f.delegation.Some? && f.agentId.Some?
                  && CanDelegate(f.root.value, device.value, now, ttl))
            && (RenewPlan(f, now, ttl, replacement).Success? ==>
                  var g := Written(f, RenewPlan(f, now, ttl, replacement));
                  && g == f.(device := device, delegation := g.delegation, history := g.history)
                  && g.delegation.Some?
                  && Fresh(g.delegation.value, f.root.value, f.agentId.value, device.value, now, ttl)
                  && g.history == if replacement.None? then f.history
                                  else Some(AfterRetiring(if f.history.Some? then f.history.value else [],
                                                          f.device.value, now)))
  {
    hide Delegate, Fresh, CanDelegate, ApplyAll, AfterRetiring;
    if f.root.Some? && f.device.Some? && f.delegation.Some? && f.agentId.Some? {
      var device := if replacement.Some? then replacement.value else f.device.value;
      DelegateIs(f.root.value, f.agentId.value, device, now, ttl);
      if RenewPlan(f, now, ttl, replacement).Success? {
        var d := Delegate(f.root.value, f.agentId.value, device, now, ttl).value;
        var history := AfterRetiring(ListOr(f.history), f.device.value, now);
        OneWrite(f, PutDelegation(d));
        OneWrite(f, PutHistory(history));
        OneMoreWrite(f, [PutHistory(history)], PutDevice(device));
        OneMoreWrite(f, [PutHistory(history)] + [PutDevice(device)], PutDelegation(d));
        assert [PutHistory(history)] + [PutDevice(device)] + [PutDelegation(d)]
            == [PutHistory(history), PutDevice(device), PutDelegation(d)];
      }
    }
  }

  /** `rotate_root` goes through exactly where `load` does and the new root is another key. It appends a rotation signed
    * by the root on disk to the new one, in place of a pending one, and installs the new root. */
  lemma RotateIs(f: Files, now: i64, newRoot: KeyDuo)
    ensures RotatePlan(f, now, newRoot).Success? <==>
              && f.root.Some? && f.device.Some? && f.delegation.Some? && f.agentId.Some?
              && f.delegation.value.delegated == Some(ToPb(f.device.value.signing))
              && f.root.value.signing != newRoot.signing
    ensures RotatePlan(f, now, newRoot).Success? ==>
              var g := Written(f, RotatePlan(f, now, newRoot));
              var old' := if f.rotations.Some? then f.rotations.value else [];
              && g == f.(root := Some(newRoot), rotations := g.rotations)
              && g.rotations.Some? && g.rotations.value != []
              && var last := |g.rotations.value| - 1;
                 && Link(f.agentId.value.genesis, f.root.value.signing, g.rotations.value[last], newRoot.signing)
                 && g.rotations.value[last].issuedAt == now
                 && g.rotations.value[..last]
                    == if old' != [] && old'[|old'| - 1].oldRoot == Some(ToPb(f.root.value.signing))
                       then old'[..|old'| - 1] else old'
  {
    hide Rotate, ApplyAll, Link;
    if LoadLocked(f).Success? {
      var root, id := f.root.value, f.agentId.value;
      RotateSucceeds(root, id, newRoot, now);
      if RotatePlan(f, now, newRoot).Success? {
        RotationLinks(root, id, newRoot, now);
        var rotations := Settled(ListOr(f.rotations), root) + [Rotate(root, id, newRoot, now).value];
        OneWrite(f, PutRotations(rotations));
        OneMoreWrite(f, [PutRotations(rotations)], PutRoot(newRoot));
        assert [PutRotations(rotations)] + [PutRoot(newRoot)] == [PutRotations(rotations), PutRoot(newRoot)];
      }
    }
  }

  /** `renew_if_due` with a directory, once due, goes through exactly while the directory holds this root and device and
    * the window is good, and replaces its delegation by a fresh one. */
  lemma RenewHeldIs(keys: IdentityKeys, f: Files, now: i64, ttl: i64)
    ensures RenewHeldPlan(keys, f, now, ttl).Success? <==>
              && f.root == Some(keys.root) && f.device == Some(keys.device)
              && CanDelegate(keys.root, keys.device, now, ttl)
    ensures RenewHeldPlan(keys, f, now, ttl).Success? ==>
              var g := Written(f, RenewHeldPlan(keys, f, now, ttl));
              && g == f.(delegation := g.delegation) && g.delegation.Some?
              && Fresh(g.delegation.value, keys.root, keys.principalId, keys.device, now, ttl)
  {
    hide Delegate, Fresh, CanDelegate, ApplyAll;
    DelegateIs(keys.root, keys.principalId, keys.device, now, ttl);
    if RenewHeldPlan(keys, f, now, ttl).Success? {
      OneWrite(f, PutDelegation(Delegate(keys.root, keys.principalId, keys.device, now, ttl).value));
    }
  }
}
