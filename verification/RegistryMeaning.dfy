/** What an accepted registry says, stated of the wire fields, the signatures and the resulting entries alone. */
module RegistryMeaning {
  import opened Wrappers
  import opened Bytes
  import opened Primitives
  import opened Errors
  import opened Wire
  import opened Transcripts
  import opened Authority
  import opened Principal
  import opened Registry
  import opened RegistryFacts

  // One entry.

  /** The root delegates `key` for the principal, for a purpose: 2 for devices, 3 for approvals. */
  predicate RootDelegates(d: KeyDelegation, id: PrincipalId, root: PublicKey, purpose: int, key: PublicKey) {
    && d.principalGenesis == Some(ToPb(id.genesis)) && d.signingRoot == Some(ToPb(root)) && d.purpose == purpose
    && d.delegated == Some(ToPb(key)) && d.notAfter != 0
    && SignedBy(root, Delegation(d), d.signature)
  }

  predicate BindingHolds(b: DeviceBinding, id: PrincipalId, root: PublicKey, daemons: set<PrincipalId>,
                         v: VerifiedBinding)
  {
    && b.device == Some(v.device) && RootDelegates(v.device, id, root, 2, v.deviceKey)
    && (match v.approval
        case None => b.approval.None?
        case Some((d, key)) => b.approval == Some(d) && RootDelegates(d, id, root, 3, key))
    && (match v.host
        case None => b.hostDaemonId.None?
        case Some(host) => b.hostDaemonId == Some(Display(host)) && host in daemons)
  }

  /** A revocation of `v.0` from `v.1` on, for this principal: by a root of the entry or by the key itself, never of the
    * current root, and for a human only of a root or a bound key. */
  predicate RevocationHolds(r: KeyRevocation, id: PrincipalId, kind: PrincipalKind, roots: seq<PublicKey>,
                            bindings: seq<VerifiedBinding>, v: (PublicKey, i64))
  {
    && r.principalGenesis == Some(ToPb(id.genesis)) && r.revoked == Some(ToPb(v.0)) && r.revokedAt == v.1
    && (v.0 in roots ==> v.0 != roots[|roots| - 1])
    && (kind == Human ==> v.0 in roots || exists b <- bindings :: IsBound(b, v.0))
    && (RevokedByKey(r, v.0) || exists signer <- roots :: RevokedByKey(r, signer))
  }

  predicate RevokedByKey(r: KeyRevocation, signer: PublicKey) {
    r.revokedBy == Some(ToPb(signer)) && SignedBy(signer, Revocation(r), r.signature)
  }

  predicate IsBound(b: VerifiedBinding, key: PublicKey) {
    || key == b.deviceKey
    || b.device.delegatedEncryption == Some(ToPb(key))
    || (b.approval.Some? && key == b.approval.value.1)
  }

  predicate HostHolds(h: Text, v: AllowedHost) {
    match v
    case Any => h == [42]
    case Host(id) => h == Display(id)
  }

  predicate IsKind(wire: int, kind: PrincipalKind) {
    match kind
    case Human => wire == 1
    case Agent => wire == 2
    case Daemon => wire == 3
    case Service => wire == 4
  }

  /** The roots of an entry: for the authority those of its document, for others a signed chain from the genesis key,
    * which ends with the current root. A host-vouched agent has none. */
  predicate RootsHold(e: RegistryEntry, v: VerifiedEntry, chain: AuthorityChain) {
    match v.currentRoot
    case None => v.kind == Agent && e.currentRoot.None? && v.roots == [] && e.rotations == [] && e.revocations == []
    case Some(duo) =>
      && e.currentRoot == Some(PbKeyDuo(Some(ToPb(duo.signing)), Some(ToPb(duo.encryption))))
      && duo.signing != duo.encryption
      && v.roots != [] && v.roots[|v.roots| - 1] == duo.signing
      && if v.id == chain.Principal() then e.rotations == [] && v.roots == chain.roots
         else IsChain(v.id.genesis, e.rotations, v.roots)
  }

  /** `v` is what the entry of a known kind says. */
  predicate EntryHolds(e: RegistryEntry, v: VerifiedEntry, c: Context) {
    && e.name == v.name && e.frozen == v.frozen && e.rotations == v.rotations
    && (v.id == c.chain.Principal() ==> v.kind == Human && !v.frozen)
    && (v.kind != Human ==> e.devices == [])
    && (e.allowedHosts != [] <==> v.currentRoot.None?)
    && RootsHold(e, v, c.chain)
    && |v.bindings| == |e.devices|
    && (forall i | 0 <= i < |e.devices| ::
          && v.currentRoot.Some?
          && BindingHolds(e.devices[i], v.id, v.currentRoot.value.signing, c.daemons, v.bindings[i]))
    && |v.revocations| == |e.revocations|
    && (forall i | 0 <= i < |e.revocations| ::
          RevocationHolds(e.revocations[i], v.id, v.kind, v.roots, v.bindings, v.revocations[i]))
    && |v.allowedHosts| == |e.allowedHosts|
    && forall i | 0 <= i < |e.allowedHosts| :: HostHolds(e.allowedHosts[i], v.allowedHosts[i])
  }

  lemma CheckDelegationIs(d: KeyDelegation, id: PrincipalId, root: PublicKey, purpose: int, field: Field,
                          key: PublicKey)
    ensures CheckDelegation(d, id, root, purpose, field) == Success(key) <==> RootDelegates(d, id, root, purpose, key)
  {
    hide TranscriptOf, VerifyP256;
  }

  lemma BindingIs(b: DeviceBinding, id: PrincipalId, root: PublicKey, daemons: set<PrincipalId>, v: VerifiedBinding)
    ensures VerifyBinding(b, id, Some(root), daemons) == Success(v) <==> BindingHolds(b, id, root, daemons, v)
  {
    hide CheckDelegation, RootDelegates, KeyOf, ParseCanonical, Display;
    CheckDelegationIs(v.device, id, root, PURPOSE_DEVICE, EntryDevices, v.deviceKey);
    if v.approval.Some? {
      CheckDelegationIs(v.approval.value.0, id, root, PURPOSE_APPROVAL, DeviceApproval, v.approval.value.1);
    }
    if v.host.Some? && b.hostDaemonId.Some? {
      CanonicalIsDisplay(b.hostDaemonId.value, v.host.value);
    }
    if CheckDelegation(v.device, id, root, PURPOSE_DEVICE, EntryDevices).Success? {
      DelegatedHalf(v.device, id, root);
    }
  }

  lemma {:induction false} BindingsAre(bs: seq<DeviceBinding>, id: PrincipalId, root: PublicKey,
                                       daemons: set<PrincipalId>, vs: seq<VerifiedBinding>)
    ensures VerifyBindings(bs, id, Some(root), daemons) == Success(vs) <==>
              |vs| == |bs| && forall i | 0 <= i < |bs| :: BindingHolds(bs[i], id, root, daemons, vs[i])
  {
    hide VerifyBinding, BindingHolds;
    if bs != [] && vs != [] {
      var m, n := |bs| - 1, |vs| - 1;
      BindingsAre(bs[..m], id, root, daemons, vs[..n]);
      BindingIs(bs[m], id, root, daemons, vs[n]);
      assert vs == vs[..n] + [vs[n]];
    }
  }

  /** The keys of an entry that a human may revoke. */
  lemma {:induction false} BoundKeys(bs: seq<VerifiedBinding>, key: PublicKey)
    ensures key in BindingsKeys(bs) <==> exists b <- bs :: IsBound(b, key)
  {
    hide IsBound, BindingKeys;
    if bs != [] {
      var n := |bs| - 1;
      BoundKeys(bs[..n], key);
      BoundKey(bs[n], key);
      assert bs == bs[..n] + [bs[n]];
    }
  }

  lemma BoundKey(b: VerifiedBinding, key: PublicKey)
    ensures key in BindingKeys(b) <==> IsBound(b, key)
  {
    assert b.device.delegatedEncryption == Some(ToPb(key)) <==> KeyOf(b.device.delegatedEncryption) == Some(key);
  }

  lemma RevocationIs(r: KeyRevocation, id: PrincipalId, kind: PrincipalKind, roots: seq<PublicKey>,
                     bindings: seq<VerifiedBinding>, v: (PublicKey, i64))
    ensures var verified := VerifyRevocation(r, id, kind, roots, roots + BindingsKeys(bindings));
            (verified.Success? && verified.value.0 == v.0 && verified.value.1 == v.1
             <==> RevocationHolds(r, id, kind, roots, bindings, v))
  {
    hide TranscriptOf, VerifyP256, BindingsKeys, IsBound;
    BoundKeys(bindings, v.0);
    assert v.0 in roots + BindingsKeys(bindings) <==> v.0 in roots || v.0 in BindingsKeys(bindings);
  }

  lemma {:induction false} RevocationsAre(rs: seq<KeyRevocation>, id: PrincipalId, kind: PrincipalKind,
                                          roots: seq<PublicKey>, bindings: seq<VerifiedBinding>,
                                          vs: seq<(PublicKey, i64)>)
    ensures VerifyRevocations(rs, id, kind, roots, roots + BindingsKeys(bindings)) == Success(vs) <==>
              |vs| == |rs| && forall i | 0 <= i < |rs| :: RevocationHolds(rs[i], id, kind, roots, bindings, vs[i])
  {
    hide VerifyRevocation, RevocationHolds, BindingsKeys;
    if rs != [] && vs != [] {
      var m, n := |rs| - 1, |vs| - 1;
      RevocationsAre(rs[..m], id, kind, roots, bindings, vs[..n]);
      RevocationIs(rs[m], id, kind, roots, bindings, vs[n]);
      assert vs == vs[..n] + [vs[n]];
      assert vs[n] == (vs[n].0, vs[n].1);
    }
  }

  lemma HostIs(h: Text, v: AllowedHost)
    ensures VerifyHost(h) == Success(v) <==> HostHolds(h, v)
  {
    hide ParseCanonical;
    if v.Host? {
      CanonicalIsDisplay(h, v.id);
    }
  }

  lemma {:induction false} HostsAre(hs: seq<Text>, vs: seq<AllowedHost>)
    ensures VerifyHosts(hs) == Success(vs) <==>
              |vs| == |hs| && forall i | 0 <= i < |hs| :: HostHolds(hs[i], vs[i])
  {
    hide VerifyHost, HostHolds;
    if hs != [] && vs != [] {
      var m, n := |hs| - 1, |vs| - 1;
      HostsAre(hs[..m], vs[..n]);
      HostIs(hs[m], vs[n]);
      assert vs == vs[..n] + [vs[n]];
    }
  }

  lemma DuoIs(d: PbKeyDuo, duo: KeyDuo)
    ensures ParseDuo(d) == Some(duo)
       <==> d == PbKeyDuo(Some(ToPb(duo.signing)), Some(ToPb(duo.encryption))) && duo.signing != duo.encryption
  {}

  lemma RootsAre(e: RegistryEntry, v: VerifiedEntry, chain: AuthorityChain)
    requires FieldRules(e, v.kind).Pass?
    ensures EntryRoots(e, v.id, v.kind, chain).Success? && EntryRoots(e, v.id, v.kind, chain).value.0 == v.roots
            && EntryRoots(e, v.id, v.kind, chain).value.1 == v.currentRoot
       <==> RootsHold(e, v, chain)
  {
    hide IsChain, RotationRoots, ParseDuo;
    RootsAreChain(v.id.genesis, e.rotations, v.roots);
    if e.currentRoot.Some? && v.currentRoot.Some? {
      DuoIs(e.currentRoot.value, v.currentRoot.value);
    }
  }

  lemma RootsEnd(e: RegistryEntry, v: VerifiedEntry, chain: AuthorityChain)
    requires RootsHold(e, v, chain)
    ensures v.currentRoot.Some? ==> e.currentRoot.Some? && Last(v.roots) == Some(v.currentRoot.value.signing)
    ensures v.currentRoot.None? ==> e.currentRoot.None? && v.kind == Agent && v.roots == []
  {}

  lemma EntryMeans(e: RegistryEntry, v: VerifiedEntry, c: Context)
    requires VerifyEntry(e, v.id, v.kind, c) == Success(v)
    ensures EntryHolds(e, v, c)
  {
    hide EntryRoots, RootsHold, VerifyBindings, BindingHolds, VerifyRevocations, RevocationHolds, VerifyHosts,
         HostHolds, BindingsKeys;
    RevocationsAre(e.revocations, v.id, v.kind, v.roots, v.bindings, v.revocations);
    HostsAre(e.allowedHosts, v.allowedHosts);
    RootsAre(e, v, c.chain);
    RootsEnd(e, v, c.chain);
    if v.currentRoot.Some? {
      BindingsAre(e.devices, v.id, v.currentRoot.value.signing, c.daemons, v.bindings);
    }
    NoBindings(v.id, Last(v.roots), c.daemons);
  }

  lemma MeantEntry(e: RegistryEntry, v: VerifiedEntry, c: Context)
    requires EntryHolds(e, v, c)
    ensures VerifyEntry(e, v.id, v.kind, c) == Success(v)
  {
    hide EntryRoots, RootsHold, VerifyBindings, BindingHolds, VerifyRevocations, RevocationHolds, VerifyHosts,
         HostHolds, BindingsKeys;
    RevocationsAre(e.revocations, v.id, v.kind, v.roots, v.bindings, v.revocations);
    HostsAre(e.allowedHosts, v.allowedHosts);
    RootsEnd(e, v, c.chain);
    RootsAre(e, v, c.chain);
    if v.currentRoot.Some? {
      BindingsAre(e.devices, v.id, v.currentRoot.value.signing, c.daemons, v.bindings);
    }
    NoBindings(v.id, Last(v.roots), c.daemons);
  }

  /** An entry of a known kind is accepted as `v` exactly when `v` is what it says. */
  lemma EntryIs(e: RegistryEntry, v: VerifiedEntry, c: Context)
    ensures VerifyEntry(e, v.id, v.kind, c) == Success(v) <==> EntryHolds(e, v, c)
  {
    hide VerifyEntry, EntryHolds;
    if VerifyEntry(e, v.id, v.kind, c) == Success(v) {
      EntryMeans(e, v, c);
    }
    if EntryHolds(e, v, c) {
      MeantEntry(e, v, c);
    }
  }
}
