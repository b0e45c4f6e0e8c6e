/** From a key directory to a registry: the entry of an agent whose keys load, and the delegation it presents. */
module AgentEntry {
  import opened Wrappers
  import opened Bytes
  import opened Primitives
  import opened Errors
  import opened Wire
  import opened Transcripts
  import opened Authority
  import opened Principal
  import opened Registry
  import opened Resolvers
  import opened Verify
  import opened Keyfile
  import opened KeyfileFacts
  import KeyfileRuns
  import AcceptedHistory

  /** The entry that lists the keys: current root and rotations. */
  function EntryFor(keys: IdentityKeys, kind: PrincipalKind): RegistryEntry {
    var wire := PbKeyDuo(Some(ToPb(keys.root.signing)), Some(ToPb(keys.root.encryption)));
    RegistryEntry(Display(keys.principalId), AcceptedHistory.KindToPb(kind), None, false, Some(wire), keys.rotations,
                  [], [], [])
  }

  function VerifiedFor(keys: IdentityKeys, kind: PrincipalKind, roots: seq<PublicKey>): VerifiedEntry {
    VerifiedEntry(keys.principalId, kind, None, false, Some(keys.root), roots, keys.rotations, [], [], [])
  }

  /** The roots of the stored rotations; the last one is the root on disk. */
  lemma LoadedRoots(s: State)
    requires Inv(s) && LoadVerified(s.files).Success?
    ensures var keys := LoadVerified(s.files).value;
            && s.files.agentId == Some(keys.principalId)
            && RotationRoots(keys.principalId.genesis, keys.rotations).Success?
            && Last(RotationRoots(keys.principalId.genesis, keys.rotations).value) == Some(keys.root.signing)
            && keys.root.signing != keys.root.encryption
            && DelegationIsCurrent(keys)
            && keys.delegation == s.files.delegation.value && keys.device == s.files.device.value
  {
    hide RotationRoots, VerifyIdentity, DelegationReady, HistoryReady, InUse, DelegationIsCurrent;
    KeyfileRuns.LoadsExactly(s);
  }

  /** The root chain of the keys passes the registry's checks of the entry. */
  lemma EntryVerifies(keys: IdentityKeys, kind: PrincipalKind, roots: seq<PublicKey>, c: Context)
    requires RotationRoots(keys.principalId.genesis, keys.rotations) == Success(roots)
    requires Last(roots) == Some(keys.root.signing) && keys.root.signing != keys.root.encryption
    requires kind != Human && keys.principalId != c.chain.Principal()
    ensures EntryOk(EntryFor(keys, kind), c)
    ensures ParseEntry(EntryFor(keys, kind)) == Success(Parsed(keys.principalId, Some(kind)))
    ensures VerifyEntry(EntryFor(keys, kind), keys.principalId, kind, c) == Success(VerifiedFor(keys, kind, roots))
  {
    hide VerifyBinding, VerifyRevocation, VerifyHost, RotationRoots, ParseKey, ParseCanonical, Display;
    CanonicalIsDisplay(Display(keys.principalId), keys.principalId);
    assert KeyOf(Some(ToPb(keys.root.signing))) == Some(keys.root.signing);
    assert KeyOf(Some(ToPb(keys.root.encryption))) == Some(keys.root.encryption);
    assert ParseDuo(EntryFor(keys, kind).currentRoot.value) == Some(keys.root);
    assert EntryRoots(EntryFor(keys, kind), keys.principalId, kind, c.chain) == Success((roots, Some(keys.root)));
  }

  /** The stored delegation passes the verifier's checks against the entry exactly inside its window, unless frozen
    * keys or an end of 0 stand against it. */
  lemma DelegationVerifiesAt(s: State, kind: PrincipalKind, roots: seq<PublicKey>, r: Resolver, at: i64)
    requires Inv(s) && LoadVerified(s.files).Success? && kind != Human
    ensures var keys := LoadVerified(s.files).value;
            var d, entry := keys.delegation, VerifiedFor(keys, kind, roots);
            && (DeviceCurrent(d, entry, r, at).Success? <==>
                  && d.notAfter != 0
                  && d.issuedAt - SKEW_SECONDS <= at <= d.notAfter
                  && !r.IsRevoked(keys.principalId, keys.root.signing, at)
                  && !r.IsRevoked(keys.principalId, keys.device.signing, at))
            && (DeviceCurrent(d, entry, r, at).Success? ==> DeviceCurrent(d, entry, r, at).value == keys.device.signing)
  {
    hide LoadVerified, TranscriptOf, VerifyP256, RotationRoots, HistoryReady, InUse, Resolver.IsRevoked;
    LoadedRoots(s);
    KeysParse();
  }

  /** In every reachable directory that loads fully verified, an agent, daemon or service is ready to be registered and
    * to sign: the entry of its keys passes the registry's checks with its root chain, and against that entry its
    * delegation is accepted, for its device, exactly inside its window while neither root nor device is revoked,
    * provided that it does not end at 0. */
  lemma LoadedAgentIsAccepted(states: seq<State>, ops: seq<Op>, i: nat, kind: PrincipalKind, c: Context, r: Resolver,
                              at: i64)
    requires Run(states, ops) && i < |states| && LoadVerified(states[i].files).Success?
    requires kind != Human && LoadVerified(states[i].files).value.principalId != c.chain.Principal()
    ensures var keys := LoadVerified(states[i].files).value;
            var d, e := keys.delegation, EntryFor(keys, kind);
            && EntryOk(e, c) && VerifyEntry(e, keys.principalId, kind, c).Success?
            && var entry := VerifyEntry(e, keys.principalId, kind, c).value;
               && RotationRoots(keys.principalId.genesis, keys.rotations) == Success(entry.roots)
               && entry.currentRoot == Some(keys.root)
               && (DeviceCurrent(d, entry, r, at).Success? ==>
                     DeviceCurrent(d, entry, r, at).value == keys.device.signing)
               && (DeviceCurrent(d, entry, r, at).Success? <==>
                     && d.notAfter != 0
                     && d.issuedAt - SKEW_SECONDS <= at <= d.notAfter
                     && !r.IsRevoked(keys.principalId, keys.root.signing, at)
                     && !r.IsRevoked(keys.principalId, keys.device.signing, at))
  {
    hide Run, Inv, LoadVerified, RotationRoots, EntryFor, EntryOk, VerifyEntry, DeviceCurrent, Resolver.IsRevoked;
    KeyfileRuns.RunHolds(states, ops, i);
    var keys := LoadVerified(states[i].files).value;
    LoadedRoots(states[i]);
    var roots := RotationRoots(keys.principalId.genesis, keys.rotations).value;
    EntryVerifies(keys, kind, roots, c);
    DelegationVerifiesAt(states[i], kind, roots, r, at);
  }
}
