/** Root chains and the documents an authority signs. */
module Authority {
  import opened Wrappers
  import opened Bytes
  import opened Primitives
  import opened Errors
  import opened Wire
  import opened Transcripts

  predicate Distinct<T(==)>(s: seq<T>) {
    forall i, j | 0 <= i < j < |s| :: s[i] != s[j]
  }

  /** One round of the `rotation_roots` loop: the root that `r` appends to `roots`. */
  function RotationStep(genesis: PublicKey, roots: seq<PublicKey>, r: RootRotation): Result<PublicKey, Error>
    requires roots != []
  {
    var principal :- Req(r.principalGenesis, PrincipalGenesis);
    :- Need(principal == genesis, ChainMismatch(RotationPrincipal));
    var oldRoot :- Req(r.oldRoot, OldRoot);
    var newRoot :- Req(r.newRoot, NewRoot);
    :- Need(oldRoot == roots[|roots| - 1], ChainMismatch(RotationOldRoot));
    :- Need(newRoot !in roots, RotationCycle);
    var transcript :- TranscriptOf(Rotation(r));
    :- VerifyP256(oldRoot, transcript, r.signature);
    Success(newRoot)
  }

  function RotationRoots(genesis: PublicKey, rotations: seq<RootRotation>): (r: Result<seq<PublicKey>, Error>)
    ensures r.Success? ==> |r.value| == |rotations| + 1
  {
    if rotations == [] then Success([genesis])
    else
      var roots :- RotationRoots(genesis, rotations[..|rotations| - 1]);
      var next :- RotationStep(genesis, roots, rotations[|rotations| - 1]);
      Success(roots + [next])
  }

  /** `rotation_roots` as it runs. */
  method CollectRoots(genesis: PublicKey, rotations: seq<RootRotation>) returns (r: Result<seq<PublicKey>, Error>)
    ensures r == RotationRoots(genesis, rotations)
  {
    hide TagText;
    var roots := [genesis];
    assert rotations[..|rotations|] == rotations;
    for n := 0 to |rotations|
      invariant RotationRoots(genesis, rotations[..n]) == Success(roots)
    {
      assert rotations[..n + 1][..n] == rotations[..n];
      var next := RotationStep(genesis, roots, rotations[n]);
      if next.Failure? {
        FirstBadRotation(genesis, rotations, n + 1);
        return Failure(next.error);
      }
      roots := roots + [next.value];
    }
    return Success(roots);
  }

  lemma {:induction false} FirstBadRotation(genesis: PublicKey, rotations: seq<RootRotation>, n: nat)
    requires n <= |rotations| && RotationRoots(genesis, rotations[..n]).Failure?
    ensures RotationRoots(genesis, rotations) == RotationRoots(genesis, rotations[..n])
  {
    hide RotationStep;
    if n < |rotations| {
      assert rotations[..|rotations| - 1][..n] == rotations[..n];
      FirstBadRotation(genesis, rotations[..|rotations| - 1], n);
    } else {
      assert rotations[..n] == rotations;
    }
  }

  // What a verified chain is, without the loop.

  /** `r` is signed by `oldRoot` for this principal and installs `newRoot`. */
  predicate Link(genesis: PublicKey, oldRoot: PublicKey, r: RootRotation, newRoot: PublicKey) {
    && r.principalGenesis == Some(ToPb(genesis))
    && r.oldRoot == Some(ToPb(oldRoot))
    && r.newRoot == Some(ToPb(newRoot))
    && TranscriptOf(Rotation(r)).Success?
    && VerifyP256(oldRoot, TranscriptOf(Rotation(r)).value, r.signature).Pass?
  }

  predicate IsChain(genesis: PublicKey, rotations: seq<RootRotation>, roots: seq<PublicKey>) {
    && |roots| == |rotations| + 1
    && roots[0] == genesis
    && Distinct(roots)
    && forall i | 0 <= i < |rotations| :: Link(genesis, roots[i], rotations[i], roots[i + 1])
  }

  lemma StepIsLink(genesis: PublicKey, roots: seq<PublicKey>, r: RootRotation, next: PublicKey)
    requires roots != []
    ensures RotationStep(genesis, roots, r) == Success(next)
       <==> Link(genesis, roots[|roots| - 1], r, next) && next !in roots
  {
    hide TranscriptOf, VerifyP256;
  }

  /** The loop accepts a list exactly when it is a signed chain without a repeated root, and returns its roots. */
  lemma {:induction false} RootsAreChain(genesis: PublicKey, rotations: seq<RootRotation>, roots: seq<PublicKey>)
    ensures RotationRoots(genesis, rotations) == Success(roots) <==> IsChain(genesis, rotations, roots)
  {
    hide Link, RotationStep;
    var n := |rotations| - 1;
    if rotations == [] {
      assert IsChain(genesis, rotations, roots) ==> roots == [genesis];
    } else {
      if IsChain(genesis, rotations, roots) {
        var init := roots[..n + 1];
        assert IsChain(genesis, rotations[..n], init);
        RootsAreChain(genesis, rotations[..n], init);
        StepIsLink(genesis, init, rotations[n], roots[n + 1]);
        assert roots == init + [roots[n + 1]];
      }
      if RotationRoots(genesis, rotations) == Success(roots) {
        var init := RotationRoots(genesis, rotations[..n]).value;
        RootsAreChain(genesis, rotations[..n], init);
        StepIsLink(genesis, init, rotations[n], roots[n + 1]);
        assert roots == init + [roots[n + 1]];
      }
    }
  }

  /** A verified list stays verified when later rotations are dropped, with the roots that remain. */
  lemma ChainPrefix(genesis: PublicKey, rotations: seq<RootRotation>, roots: seq<PublicKey>, n: nat)
    requires RotationRoots(genesis, rotations) == Success(roots) && n <= |rotations|
    ensures RotationRoots(genesis, rotations[..n]) == Success(roots[..n + 1])
  {
    RootsAreChain(genesis, rotations, roots);
    RootsAreChain(genesis, rotations[..n], roots[..n + 1]);
  }

  type Roots = s: seq<PublicKey> | s != [] witness [BASE_POINT]

  datatype AuthorityChain = AuthorityChain(roots: Roots, rotations: seq<RootRotation>) {
    function Principal(): PrincipalId { PrincipalId(roots[0]) }
    function Head(): PublicKey { roots[|roots| - 1] }
    /** The roots that were replaced. */
    function Retired(): seq<PublicKey> { roots[..|roots| - 1] }
    predicate Valid() { IsChain(roots[0], rotations, roots) }
    predicate IsPrefixOf(other: AuthorityChain) {
      |roots| <= |other.roots| && roots == other.roots[..|roots|]
    }
  }

  function GenesisChain(genesis: PublicKey): (c: AuthorityChain)
    ensures c.Valid()
  {
    AuthorityChain([genesis], [])
  }

  function FromRotations(genesis: PublicKey, rotations: seq<RootRotation>): (r: Result<AuthorityChain, Error>)
    ensures r.Success? ==> r.value.Valid() && r.value.roots[0] == genesis
  {
    var roots :- RotationRoots(genesis, rotations);
    RootsAreChain(genesis, rotations, roots);
    Success(AuthorityChain(roots, rotations))
  }

  datatype VerifiedDocument = VerifiedDocument(
    id: Bytes32,
    chain: AuthorityChain,
    documentType: Text,
    version: u64,
    issuedAt: i64,
    expiresAt: i64,
    body: seq<byte>)

  function Min(a: int, b: int): int { if a < b then a else b }

  function VerifySignedDocument(doc: SignedDocument, expectedType: Text, accepted: AuthorityChain)
    : Result<VerifiedDocument, Error>
  {
    var signed := Need(doc.signature != [], EmptySignature);
    :- signed;
    :- Need(doc.expiresAt != 0, InvalidField(ExpiresAt));
    :- Need(doc.documentType == expectedType, WrongDocumentType);
    var signer :- Req(doc.signerGenesis, SignerGenesis);
    :- Need(signer == accepted.roots[0], NotAuthority);
    var chain :- FromRotations(signer, doc.signerRotations);
    var n := Min(|accepted.roots|, |chain.roots|);
    :- Need(chain.roots[..n] == accepted.roots[..n], RootFork(accepted.Principal()));
    :- Need(|chain.roots| >= |accepted.roots|, StaleRoot);
    var signing :- Req(doc.signing, Signing);
    :- Need(signing == chain.Head(), NotCurrentRoot);
    var transcript :- TranscriptOf(Document(doc));
    :- VerifyP256(signing, transcript, doc.signature);
    Success(VerifiedDocument(Sha256(transcript), chain, doc.documentType, doc.version, doc.issuedAt, doc.expiresAt,
                             doc.body))
  }

  /** An accepted document extends the accepted chain and is signed by the end of its own chain. */
  lemma AcceptedDocument(doc: SignedDocument, expectedType: Text, accepted: AuthorityChain)
    requires VerifySignedDocument(doc, expectedType, accepted).Success?
    ensures var v := VerifySignedDocument(doc, expectedType, accepted).value;
            && v.chain.Valid()
            && accepted.IsPrefixOf(v.chain)
            && v.chain.rotations == doc.signerRotations
            && doc.signing == Some(ToPb(v.chain.Head()))
            && TranscriptOf(Document(doc)).Success?
            && VerifyP256(v.chain.Head(), TranscriptOf(Document(doc)).value, doc.signature).Pass?
  {
    hide TranscriptOf, VerifyP256;
  }

  /** A document is accepted as `v` exactly when it has an end and the expected type, carries a signed chain from the
    * accepted genesis key that starts with the accepted roots, and is signed by the end of that chain; the result
    * holds its fields and the hash of what was signed. */
  lemma DocumentIsSigned(doc: SignedDocument, expectedType: Text, accepted: AuthorityChain, v: VerifiedDocument)
    ensures VerifySignedDocument(doc, expectedType, accepted) == Success(v) <==>
              && doc.expiresAt != 0 && doc.documentType == expectedType
              && doc.signerGenesis == Some(ToPb(accepted.roots[0]))
              && v.chain.rotations == doc.signerRotations
              && IsChain(accepted.roots[0], doc.signerRotations, v.chain.roots)
              && accepted.roots <= v.chain.roots
              && doc.signing == Some(ToPb(v.chain.roots[|v.chain.roots| - 1]))
              && SignedBy(v.chain.roots[|v.chain.roots| - 1], Document(doc), doc.signature)
              && v.id == Sha256(TranscriptOf(Document(doc)).value)
              && v.documentType == doc.documentType && v.version == doc.version && v.issuedAt == doc.issuedAt
              && v.expiresAt == doc.expiresAt && v.body == doc.body
  {
    hide TranscriptOf, VerifyP256, RotationRoots, IsChain;
    KeysParse();
    RootsAreChain(accepted.roots[0], doc.signerRotations, v.chain.roots);
    assert accepted.roots[..|accepted.roots|] == accepted.roots;
  }

  /** Once the document carries a valid chain from the accepted genesis, the chain comparison decides:
    * a strict prefix of the accepted chain is stale, a chain that neither extends nor precedes it is a fork,
    * and an extension of it goes on to the signature checks. */
  lemma StaleOrFork(doc: SignedDocument, expectedType: Text, accepted: AuthorityChain, chain: AuthorityChain)
    requires doc.signature != [] && doc.expiresAt != 0 && doc.documentType == expectedType
    requires doc.signerGenesis == Some(ToPb(accepted.roots[0]))
    requires FromRotations(accepted.roots[0], doc.signerRotations) == Success(chain)
    ensures var r := VerifySignedDocument(doc, expectedType, accepted);
            && (r == Failure(StaleRoot) <==> chain.IsPrefixOf(accepted) && chain.roots != accepted.roots)
            && (r == Failure(RootFork(accepted.Principal()))
                <==> !chain.IsPrefixOf(accepted) && !accepted.IsPrefixOf(chain))
  {
    hide TagText, FromRotations, VerifyP256;
    var n := Min(|accepted.roots|, |chain.roots|);
    assert chain.roots[..|chain.roots|] == chain.roots && accepted.roots[..|accepted.roots|] == accepted.roots;
    TranscriptErrors(doc);
  }

  /** A transcript never fails with a chain error. */
  lemma TranscriptErrors(doc: SignedDocument)
    ensures TranscriptOf(Document(doc)).Failure? ==>
              var e := TranscriptOf(Document(doc)).error; !e.StaleRoot? && !e.RootFork?
    ensures Req(doc.signing, Signing).Failure? ==>
              var e := Req(doc.signing, Signing).error; !e.StaleRoot? && !e.RootFork?
    ensures forall k, m, s :: VerifyP256(k, m, s).Fail? ==>
              !VerifyP256(k, m, s).error.StaleRoot? && !VerifyP256(k, m, s).error.RootFork?
  {
    hide TagText;
  }

  // A run: every document is checked against the chain of the last one accepted.

  datatype Offer = Offer(doc: SignedDocument, expectedType: Text)

  function Follow(start: AuthorityChain, offers: seq<Offer>): AuthorityChain {
    if offers == [] then start
    else
      var held := Follow(start, offers[..|offers| - 1]);
      var last := offers[|offers| - 1];
      match VerifySignedDocument(last.doc, last.expectedType, held)
      case Success(v) => v.chain
      case Failure(_) => held
  }

  /** The chains held along a run are prefix-ordered. */
  lemma {:induction false} HeldChainsGrow(start: AuthorityChain, offers: seq<Offer>, n: nat)
    requires n <= |offers|
    ensures Follow(start, offers[..n]).IsPrefixOf(Follow(start, offers))
  {
    hide VerifySignedDocument, TranscriptOf, VerifyP256, IsChain;
    if n == |offers| {
      assert offers[..n] == offers;
      var held := Follow(start, offers);
      assert held.roots[..|held.roots|] == held.roots;
    } else {
      var m := |offers| - 1;
      assert offers[..m][..n] == offers[..n];
      HeldChainsGrow(start, offers[..m], n);
      var held, last := Follow(start, offers[..m]), offers[m];
      if VerifySignedDocument(last.doc, last.expectedType, held).Success? {
        AcceptedDocument(last.doc, last.expectedType, held);
      }
    }
  }

  /** No accepted document is signed by a root that a chain held earlier in the run had retired. */
  lemma NeverSignedByRetiredRoot(start: AuthorityChain, offers: seq<Offer>, n: nat, next: Offer)
    requires n <= |offers|
    requires VerifySignedDocument(next.doc, next.expectedType, Follow(start, offers)).Success?
    ensures forall r <- Follow(start, offers[..n]).Retired() :: next.doc.signing != Some(ToPb(r))
  {
    hide VerifySignedDocument, Follow, TranscriptOf, VerifyP256, Link;
    var earlier, held := Follow(start, offers[..n]), Follow(start, offers);
    HeldChainsGrow(start, offers, n);
    AcceptedDocument(next.doc, next.expectedType, held);
    var chain := VerifySignedDocument(next.doc, next.expectedType, held).value.chain;
    forall r | r in earlier.Retired()
      ensures r != chain.Head()
    {
      var i :| 0 <= i < |earlier.roots| - 1 && earlier.roots[i] == r;
      assert held.roots[i] == r && chain.roots[i] == r;
    }
  }
}
