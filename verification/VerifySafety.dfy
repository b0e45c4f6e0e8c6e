/** The verifiers against resolvers built from accepted registries: branches that cannot be reached, and the interim
  * verifier as a refinement of the full one. */
module VerifySafety {
  import opened Wrappers
  import opened Bytes
  import opened Primitives
  import opened Errors
  import opened Wire
  import opened Transcripts
  import opened Encoding
  import opened Authority
  import opened Registry
  import opened RegistryFacts
  import opened Resolvers
  import opened Verify
  import opened VerifyFacts

  /** The errors of keys, transcripts and signatures. */
  predicate WireError(e: Error) {
    || e.UnsupportedScheme? || e.InvalidKey? || e.BadLength? || e.ScalarOutOfRange? || e.MissingField?
    || e.InvalidField? || e.NotDistinct? || e.EmptySignature? || e.BadSignature?
  }

  lemma DelegationErrors(d: KeyDelegation)
    ensures TranscriptOf(Delegation(d)).Failure? ==> WireError(TranscriptOf(Delegation(d)).error)
  {
    hide Transcript;
  }

  lemma CertErrors(c: DelegationCert)
    ensures TranscriptOf(SessionDelegation(c)).Failure? ==> WireError(TranscriptOf(SessionDelegation(c)).error)
  {
    hide Transcript;
  }

  lemma MessageErrors(m: SignedMessage)
    ensures TranscriptOf(Message(m)).Failure? ==> WireError(TranscriptOf(Message(m)).error)
  {
    hide Transcript;
  }

  lemma ApprovalErrors(a: Approval)
    ensures TranscriptOf(ApprovalOf(a)).Failure? ==> WireError(TranscriptOf(ApprovalOf(a)).error)
  {
    hide Transcript;
  }

  lemma PeerRevocationErrors(p: PeerRevocation)
    ensures TranscriptOf(PeerRevocationOf(p)).Failure? ==> WireError(TranscriptOf(PeerRevocationOf(p)).error)
  {
    hide Transcript;
  }

  /** A failed delegation check: no panic, and `KeyRevoked` only for the root or the device. */
  lemma DeviceErrors(d: KeyDelegation, entry: VerifiedEntry, r: Resolver, at: i64)
    requires DeviceCurrent(d, entry, r, at).Failure?
    ensures !DeviceCurrent(d, entry, r, at).error.Panic?
    ensures DeviceCurrent(d, entry, r, at).error.KeyRevoked? ==>
              && entry.currentRoot.Some? && KeyOf(d.signingRoot) == Some(entry.currentRoot.value.signing)
              && (|| r.IsRevoked(entry.id, entry.currentRoot.value.signing, at)
                  || (KeyOf(d.delegated).Some? && r.IsRevoked(entry.id, KeyOf(d.delegated).value, at)))
  {
    hide TranscriptOf, VerifyP256, Resolver.IsRevoked, Resolver.IsFrozen, Resolver.Binding;
    DelegationErrors(d);
    SignatureErrors();
  }

  lemma SignatureErrors()
    ensures forall k, m, s :: VerifyP256(k, m, s).Fail? ==> WireError(VerifyP256(k, m, s).error)
  {}

  lemma CertCheckErrors(c: DelegationCert, device: PublicKey, at: i64)
    requires CheckCert(c, device, at).Failure?
    ensures !CheckCert(c, device, at).error.Panic? && !CheckCert(c, device, at).error.KeyRevoked?
  {
    hide TranscriptOf, VerifyP256;
    CertErrors(c);
    SignatureErrors();
  }

  /** The root's `KeyRevoked` branch is never taken: a revoked current root has frozen its principal before. So when
    * a chain is refused as revoked, it is its device key that is revoked. */
  lemma RootBranchUnreachable(signer: SignerChain, r: Resolver, reg: PrincipalRegistry, chain: AuthorityChain,
                              when: When)
    requires Built(r, reg, chain) && VerifyChain(signer, r, when) == Failure(KeyRevoked)
    ensures PartsOf(signer).Some?
    ensures var p := PartsOf(signer).value;
            && KeyOf(p.delegation.delegated).Some?
            && r.IsRevoked(p.delegator, KeyOf(p.delegation.delegated).value, when.At())
            && !r.IsRevoked(p.delegator, p.root, when.At())
  {
    hide Accepts, DeviceCurrent, CheckCert, HostingOf, Resolver.IsRevoked, Resolver.IsFrozen, Resolver.Binding, Allows,
      SubjectPrefix;
    BuiltIsKeyed(r, reg, chain);
    match signer.chain {
      case Some(SelfRooted(device, session)) =>
        RootNotRevoked(device.value, session.value, session.value.principalGenesis, r, reg, chain, when.At());
      case Some(HostVouched(hostDevice, session)) =>
        RootNotRevoked(hostDevice.value, session.value, hostDevice.value.principalGenesis, r, reg, chain, when.At());
    }
  }

  lemma RootNotRevoked(d: KeyDelegation, c: DelegationCert, genesis: Option<PbKey>, r: Resolver,
                       reg: PrincipalRegistry, chain: AuthorityChain, at: i64)
    requires Built(r, reg, chain) && Keyed(r)
    requires KeyOf(genesis).Some? && PrincipalId(KeyOf(genesis).value) in r.entries
    requires var id := PrincipalId(KeyOf(genesis).value);
             && !r.IsFrozen(id, at)
             && var device := DeviceCurrent(d, r.entries[id], r, at);
                device == Failure(KeyRevoked)
                || (device.Success? && CheckCert(c, device.value, at) == Failure(KeyRevoked))
    ensures MakeParts(d, c, genesis).Some?
    ensures var p := MakeParts(d, c, genesis).value;
            && KeyOf(d.delegated).Some?
            && r.IsRevoked(p.delegator, KeyOf(d.delegated).value, at)
            && !r.IsRevoked(p.delegator, p.root, at)
  {
    hide Accepts, DeviceCurrent, CheckCert, Resolver.IsRevoked, Resolver.IsFrozen;
    var id := PrincipalId(KeyOf(genesis).value);
    var entry := r.entries[id];
    var device := DeviceCurrent(d, entry, r, at);
    if device.Success? {
      CertCheckErrors(c, device.value, at);
    } else {
      DeviceErrors(d, entry, r, at);
      if r.IsRevoked(id, entry.currentRoot.value.signing, at) {
        RevokedRootFreezes(r, reg, chain, id, at);
      }
    }
  }

  lemma ChainNeverPanics(signer: SignerChain, r: Resolver, when: When)
    requires VerifyChain(signer, r, when).Failure?
    ensures !VerifyChain(signer, r, when).error.Panic?
  {
    hide DeviceCurrent, CheckCert, HostingOf, Resolver.IsRevoked, Resolver.IsFrozen,
      Resolver.Binding, Allows, SubjectPrefix;
    forall d, e, at | DeviceCurrent(d, e, r, at).Failure?
      ensures !DeviceCurrent(d, e, r, at).error.Panic?
    {
      DeviceErrors(d, e, r, at);
    }
    forall c, device, at | CheckCert(c, device, at).Failure?
      ensures !CheckCert(c, device, at).error.Panic?
    {
      CertCheckErrors(c, device, at);
    }
  }

  lemma MessageNeverPanics(msg: SignedMessage, audience: Text, r: Resolver, when: When)
    requires VerifySignedMessage(msg, audience, r, when).Failure?
    ensures !VerifySignedMessage(msg, audience, r, when).error.Panic?
  {
    hide VerifyChain, TranscriptOf, VerifyP256;
    MessageErrors(msg);
    SignatureErrors();
    if msg.signer.Some? && VerifyChain(msg.signer.value, r, when).Failure? {
      ChainNeverPanics(msg.signer.value, r, when);
    }
  }

  lemma ApprovalNeverPanics(a: Approval, audience: Text, requestId: Text, session: VerifiedChain, digest: Bytes32,
                            r: Resolver, when: When)
    requires VerifyApproval(a, audience, requestId, session, digest, r, when).Failure?
    ensures !VerifyApproval(a, audience, requestId, session, digest, r, when).error.Panic?
  {
    hide TranscriptOf, VerifyP256, Resolver.IsRevoked, Resolver.IsFrozen, Resolver.Binding;
    ApprovalErrors(a);
    SignatureErrors();
  }

  lemma PeerRevocationNeverPanics(rev: PeerRevocation, r: Resolver, reg: PrincipalRegistry, chain: AuthorityChain,
                                  when: When)
    requires Built(r, reg, chain) && VerifyPeerRevocation(rev, r, when).Failure?
    ensures !VerifyPeerRevocation(rev, r, when).error.Panic?
  {
    hide Accepts, TranscriptOf, VerifyP256, Resolver.IsRevoked, Resolver.IsFrozen, FindApproval;
    PeerRevocationErrors(rev);
    SignatureErrors();
    AuthorityHasEntry(reg, chain, r.entries);
  }

  /** No `expect` of a verifier can fail against a resolver built from an accepted registry. */
  lemma VerifiersNeverPanic(c: Call, r: Resolver, reg: PrincipalRegistry, chain: AuthorityChain, when: When)
    requires Built(r, reg, chain) && Answer(c, r, when).Failure?
    ensures !Answer(c, r, when).error.Panic?
  {
    hide Built, VerifyChain, VerifySignedMessage, VerifyApproval, VerifyPeerRevocation;
    match c {
      case CallChain(signer) => ChainNeverPanics(signer, r, when);
      case CallMessage(msg, audience) => MessageNeverPanics(msg, audience, r, when);
      case CallApproval(a, audience, requestId, session, digest) =>
        ApprovalNeverPanics(a, audience, requestId, session, digest, r, when);
      case CallPeerRevocation(rev) => PeerRevocationNeverPanics(rev, r, reg, chain, when);
    }
  }

  /** The interim verifier refines the full one: a self-rooted message that the full verifier accepts, it accepts
    * with the same values, given the principal's genesis and a list that holds the verified device. */
  lemma TrustedDevicesRefine(msg: SignedMessage, audience: Text, r: Resolver, when: When, devices: seq<PublicKey>)
    requires VerifySignedMessage(msg, audience, r, when).Success?
    requires msg.signer.value.chain.value.SelfRooted?
    requires VerifySignedMessage(msg, audience, r, when).value.chain.device in devices
    ensures var v := VerifySignedMessage(msg, audience, r, when).value;
            VerifySignedMessageTrustedDevices(msg, audience, v.chain.principal.genesis, devices, when)
            == Success(VerifiedTrustedMessage(v.chain.principal.genesis, v.chain.device, v.chain.sessionKey,
                                              v.chain.sessionNotAfter, v.nonce, v.issuedAt, v.inReplyToNonce,
                                              v.bodyType, v.body))
  {
    hide DeviceCurrent, CheckMessageUnderSession, Resolver.IsFrozen, Resolver.Binding, HostingOf, TranscriptOf,
      VerifyP256;
  }
}
