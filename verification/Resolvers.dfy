/** A verified registry with the peer revocations accepted since. */
module Resolvers {
  import opened Wrappers
  import opened Bytes
  import opened Primitives
  import opened Errors
  import opened Wire
  import opened Authority
  import opened Registry
  import opened RegistryFacts
  import RegistryChecker

  /** The registry that a document body carries, if it decodes: protobuf decoding is not part of this model. */
  const DecodeCarrier: seq<byte> -> Option<PrincipalRegistry>

  /** `revoked == None` freezes the whole target. */
  datatype VerifiedPeerRevocation = VerifiedPeerRevocation(
    target: PrincipalId,
    revoked: Option<PublicKey>,
    acceptedAt: i64,
    documentId: Bytes32)

  datatype Resolver = Resolver(
    authority: PrincipalId,
    documentVersion: u64,
    documentId: Bytes32,
    allowPeerRevocation: bool,
    entries: map<PrincipalId, VerifiedEntry>,
    peer: seq<VerifiedPeerRevocation>)
  {
    function Entry(id: PrincipalId): Option<VerifiedEntry> {
      if id in entries then Some(entries[id]) else None
    }

    function Binding(principal: PrincipalId, device: PublicKey): Option<VerifiedBinding> {
      var e :- Entry(principal);
      FindDevice(e.bindings, device)
    }

    /** False for a principal without an entry. */
    predicate IsFrozen(principal: PrincipalId, at: i64) {
      && principal in entries
      && var e := entries[principal];
         e.frozen || exists p <- peer :: Freezes(p, e) && p.target == principal && p.acceptedAt <= at
    }

    predicate IsRevoked(principal: PrincipalId, key: PublicKey, at: i64) {
      && principal in entries
      && (|| (exists k <- entries[principal].revocations :: k.0 == key && k.1 <= at)
          || (exists p <- peer :: p.target == principal && p.revoked == Some(key) && p.acceptedAt <= at))
    }

    function WithPeerRevocation(rev: VerifiedPeerRevocation): Result<Resolver, Error> {
      if rev.documentId != documentId then Failure(StalePeerRevocation) else Success(this.(peer := peer + [rev]))
    }
  }

  /** The revocation freezes the entry it targets: it names no key, or the entry's current root. */
  predicate Freezes(p: VerifiedPeerRevocation, e: VerifiedEntry) {
    p.revoked.None? || (e.currentRoot.Some? && p.revoked == Some(e.currentRoot.value.signing))
  }

  /** The first binding of a device. */
  function FindDevice(bs: seq<VerifiedBinding>, device: PublicKey): (r: Option<VerifiedBinding>)
    ensures r.Some? ==> r.value in bs && r.value.deviceKey == device
    ensures r.None? ==> forall b <- bs :: b.deviceKey != device
  {
    if bs == [] then None
    else if bs[0].deviceKey == device then Some(bs[0])
    else FindDevice(bs[1..], device)
  }

  /** The first binding with an approval key. */
  function FindApproval(bs: seq<VerifiedBinding>, key: PublicKey): (r: Option<VerifiedBinding>)
    ensures r.Some? ==> r.value in bs && r.value.ApprovalKey() == Some(key)
    ensures r.None? ==> forall b <- bs :: b.ApprovalKey() != Some(key)
  {
    if bs == [] then None
    else if bs[0].ApprovalKey() == Some(key) then Some(bs[0])
    else FindApproval(bs[1..], key)
  }

  /** `Resolver::from_document`. */
  method FromDocument(doc: VerifiedDocument, registryType: Text) returns (r: Result<Resolver, Error>)
    ensures r.Success? <==>
              && doc.documentType == registryType
              && DecodeCarrier(doc.body).Some?
              && RegistryOk(DecodeCarrier(doc.body).value, doc.chain)
    ensures r.Success? ==>
              && Built(r.value, DecodeCarrier(doc.body).value, doc.chain)
              && r.value.documentVersion == doc.version && r.value.documentId == doc.id && r.value.peer == []
    ensures r == Failure(WrongDocumentType) <==> doc.documentType != registryType
    ensures doc.documentType == registryType && DecodeCarrier(doc.body).None? ==> r == Failure(InvalidRegistry(Body))
    ensures r.Failure? && doc.documentType == registryType && DecodeCarrier(doc.body).Some? ==>
              Reports(DecodeCarrier(doc.body).value, doc.chain, r.error)
  {
    hide RegistryOk, Reports;
    if doc.documentType != registryType {
      return Failure(WrongDocumentType);
    }
    var carried := DecodeCarrier(doc.body);
    if carried.None? {
      return Failure(InvalidRegistry(Body));
    }
    var checked := RegistryChecker.CheckRegistry(carried.value, doc.chain);
    if checked.Failure? {
      return Failure(checked.error);
    }
    return Success(Resolver(doc.chain.Principal(), doc.version, doc.id, checked.value.allowPeerRevocation,
                            checked.value.entries, []));
  }

  /** `r` comes from an accepted registry, with any peer revocations added since. */
  predicate Built(r: Resolver, reg: PrincipalRegistry, chain: AuthorityChain) {
    && Accepts(reg, chain, r.entries)
    && r.authority == chain.Principal()
    && r.allowPeerRevocation == reg.allowPeerRevocation
  }

  /** A peer revocation is added only for the document it was signed against, and stays built. */
  lemma PeerRevocationKeepsBuilt(r: Resolver, rev: VerifiedPeerRevocation, reg: PrincipalRegistry,
                                 chain: AuthorityChain)
    requires Built(r, reg, chain) && r.WithPeerRevocation(rev).Success?
    ensures Built(r.WithPeerRevocation(rev).value, reg, chain) && rev.documentId == r.documentId
  {
    hide Accepts;
  }

  /** The binding found for a device is the only one of the whole resolver that binds this key in any role. */
  lemma BindingIsUnique(r: Resolver, reg: PrincipalRegistry, chain: AuthorityChain, p: PrincipalId, device: PublicKey,
                        q: PrincipalId, b: VerifiedBinding)
    requires Built(r, reg, chain) && r.Binding(p, device).Some?
    requires q in r.entries && b in r.entries[q].bindings && device in BindingKeys(b)
    ensures q == p && r.Binding(p, device) == Some(b)
  {
    hide Accepts;
    var found := r.Binding(p, device).value;
    var m :| 0 <= m < |r.entries[p].bindings| && r.entries[p].bindings[m] == found;
    var n :| 0 <= n < |r.entries[q].bindings| && r.entries[q].bindings[n] == b;
    assert BindingKeys(found)[0] == device;
    BoundOnce(reg, chain, r.entries, p, m, q, n, device);
  }

  /** The same for a search by approval key among the authority's bindings. */
  lemma ApprovalIsUnique(r: Resolver, reg: PrincipalRegistry, chain: AuthorityChain, p: PrincipalId, key: PublicKey,
                         q: PrincipalId, b: VerifiedBinding)
    requires Built(r, reg, chain) && p in r.entries && FindApproval(r.entries[p].bindings, key).Some?
    requires q in r.entries && b in r.entries[q].bindings && key in BindingKeys(b)
    ensures q == p && FindApproval(r.entries[p].bindings, key) == Some(b)
  {
    hide Accepts;
    var found := FindApproval(r.entries[p].bindings, key).value;
    var m :| 0 <= m < |r.entries[p].bindings| && r.entries[p].bindings[m] == found;
    var n :| 0 <= n < |r.entries[q].bindings| && r.entries[q].bindings[n] == b;
    assert key in OptSeq(found.ApprovalKey()) && key in BindingKeys(found);
    BoundOnce(reg, chain, r.entries, p, m, q, n, key);
  }

  /** A revoked current root freezes its principal: the registry never revokes it, and a peer revocation that names
    * it freezes. */
  lemma RevokedRootFreezes(r: Resolver, reg: PrincipalRegistry, chain: AuthorityChain, id: PrincipalId, at: i64)
    requires Built(r, reg, chain) && id in r.entries && r.entries[id].currentRoot.Some?
    requires r.IsRevoked(id, r.entries[id].currentRoot.value.signing, at)
    ensures r.IsFrozen(id, at)
  {
    hide Accepts, RotationRoots, BindingInvariant;
    AcceptedEntryInvariant(reg, chain, r.entries, id);
    var e := r.entries[id];
    var root := e.currentRoot.value.signing;
    assert forall k <- e.revocations :: k.0 != root;
    var p :| p in r.peer && p.target == id && p.revoked == Some(root) && p.acceptedAt <= at;
    assert Freezes(p, e);
  }

  // Freezes and revocations as moments.

  /** Later than every time. */
  const NEVER: int := I64_MAX + 1

  /** The first time at which a principal is frozen. */
  function FrozenFrom(r: Resolver, principal: PrincipalId): int {
    if principal !in r.entries then NEVER
    else if r.entries[principal].frozen then I64_MIN
    else FirstFreeze(r.peer, r.entries[principal], principal)
  }

  function FirstFreeze(peers: seq<VerifiedPeerRevocation>, e: VerifiedEntry, principal: PrincipalId): int {
    if peers == [] then NEVER
    else
      var p := peers[|peers| - 1];
      Min(FirstFreeze(peers[..|peers| - 1], e, principal),
          if Freezes(p, e) && p.target == principal then p.acceptedAt else NEVER)
  }

  /** The first time at which a key is revoked for a principal. */
  function RevokedFrom(r: Resolver, principal: PrincipalId, key: PublicKey): int {
    if principal !in r.entries then NEVER
    else Min(FirstOwn(r.entries[principal].revocations, key), FirstPeer(r.peer, principal, key))
  }

  function FirstOwn(revocations: seq<(PublicKey, i64)>, key: PublicKey): int {
    if revocations == [] then NEVER
    else
      var k := revocations[|revocations| - 1];
      Min(FirstOwn(revocations[..|revocations| - 1], key), if k.0 == key then k.1 else NEVER)
  }

  function FirstPeer(peers: seq<VerifiedPeerRevocation>, principal: PrincipalId, key: PublicKey): int {
    if peers == [] then NEVER
    else
      var p := peers[|peers| - 1];
      Min(FirstPeer(peers[..|peers| - 1], principal, key),
          if p.target == principal && p.revoked == Some(key) then p.acceptedAt else NEVER)
  }

  lemma {:induction false} FirstFreezeIs(peers: seq<VerifiedPeerRevocation>, e: VerifiedEntry, principal: PrincipalId,
                                         at: i64)
    ensures FirstFreeze(peers, e, principal) <= at
       <==> exists p <- peers :: Freezes(p, e) && p.target == principal && p.acceptedAt <= at
  {
    hide Freezes;
    if peers != [] {
      FirstFreezeIs(peers[..|peers| - 1], e, principal, at);
      assert peers == peers[..|peers| - 1] + [peers[|peers| - 1]];
    }
  }

  lemma {:induction false} FirstOwnIs(revocations: seq<(PublicKey, i64)>, key: PublicKey, at: i64)
    ensures FirstOwn(revocations, key) <= at <==> exists k <- revocations :: k.0 == key && k.1 <= at
  {
    if revocations != [] {
      FirstOwnIs(revocations[..|revocations| - 1], key, at);
      assert revocations == revocations[..|revocations| - 1] + [revocations[|revocations| - 1]];
    }
  }

  lemma {:induction false} FirstPeerIs(peers: seq<VerifiedPeerRevocation>, principal: PrincipalId, key: PublicKey,
                                       at: i64)
    ensures FirstPeer(peers, principal, key) <= at
       <==> exists p <- peers :: p.target == principal && p.revoked == Some(key) && p.acceptedAt <= at
  {
    if peers != [] {
      FirstPeerIs(peers[..|peers| - 1], principal, key, at);
      assert peers == peers[..|peers| - 1] + [peers[|peers| - 1]];
    }
  }

  /** Once frozen or revoked, for ever: each is a moment. */
  lemma FrozenIsAMoment(r: Resolver, principal: PrincipalId, at: i64)
    ensures r.IsFrozen(principal, at) <==> FrozenFrom(r, principal) <= at
  {
    hide Freezes;
    if principal in r.entries {
      FirstFreezeIs(r.peer, r.entries[principal], principal, at);
    }
  }

  lemma RevokedIsAMoment(r: Resolver, principal: PrincipalId, key: PublicKey, at: i64)
    ensures r.IsRevoked(principal, key, at) <==> RevokedFrom(r, principal, key) <= at
  {
    if principal in r.entries {
      FirstOwnIs(r.entries[principal].revocations, key, at);
      FirstPeerIs(r.peer, principal, key, at);
    }
  }

  // Names.

  /** Entries with this name that are not frozen at `at`. */
  function ResolveName(r: Resolver, name: Text, at: i64): set<PrincipalId> {
    set id | id in r.entries && r.entries[id].name == Some(name) && !r.IsFrozen(id, at)
  }

  /** A name resolves to the one principal that carries it and is not frozen, whatever peer revocations were added, or
    * to none if there is no such principal. */
  lemma NameResolvesToOne(r: Resolver, reg: PrincipalRegistry, chain: AuthorityChain, name: Text, at: i64,
                          p: PrincipalId)
    requires Built(r, reg, chain)
    ensures p in r.entries && r.entries[p].name == Some(name) && !r.IsFrozen(p, at) <==> ResolveName(r, name, at) == {p}
  {
    hide Freezes, Accepts;
    if p in ResolveName(r, name, at) {
      forall q | q in ResolveName(r, name, at)
        ensures q == p
      {
        OneOfName(r, reg, chain, name, p, q);
      }
    }
  }

  lemma OneOfName(r: Resolver, reg: PrincipalRegistry, chain: AuthorityChain, name: Text, p: PrincipalId,
                  q: PrincipalId)
    requires Built(r, reg, chain) && p in r.entries && q in r.entries
    requires r.entries[p].name == Some(name) && !r.entries[p].frozen
    requires r.entries[q].name == Some(name) && !r.entries[q].frozen
    ensures p == q
  {
    hide Freezes, ParseEntry, EntryOk, Verified, EntryKeys, NoRepeat, Bag;
    var x := NamePlace(r, reg, chain, p);
    var y := NamePlace(r, reg, chain, q);
    assert NamesIn()(reg.entries[x])[0] == NamesIn()(reg.entries[y])[0] == name;
    NoRepeatPlaces(NamesIn(), reg.entries, x, 0, y, 0);
  }

  lemma NamePlace(r: Resolver, reg: PrincipalRegistry, chain: AuthorityChain, p: PrincipalId) returns (x: nat)
    requires Built(r, reg, chain) && p in r.entries && !r.entries[p].frozen
    ensures x < |reg.entries| && Known(reg.entries[x]) && ParseEntry(reg.entries[x]).value.id == p
    ensures EntryNames(reg.entries[x]) == OptSeq(r.entries[p].name)
  {
    hide ParseEntry, VerifyEntry, Accepts, EntryInvariant, EntryKeys;
    x := EntryPlace(reg, chain, r.entries, p);
    EntryVerified(reg.entries[x], p, ParseEntry(reg.entries[x]).value.kind.value, ContextOf(reg, chain));
  }
}
