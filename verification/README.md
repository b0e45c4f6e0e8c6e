# A model of the identity crates

This project models the core of an identity system whose principals are named by a genesis key. It has four parts.

- **Transcripts.** `Wire`, `Encoding`, `Transcripts`, `Encoder`, `PrefixCode` and `AttestationDecoder` model the bytes
  that signatures cover: an append-only buffer driven by thirteen functions. Together they form a prefix code that
  determines every covered field, and a decoder recovers a delivery attestation from its bytes. `Layouts` spells out the
  bytes of all thirteen, and which inputs have them.
- **Chains and history.** `Principal`, `Authority` and `AcceptedHistory` model principal ids, root chains, signed
  documents, and what a receiver accepts over a run of versions and across restarts.
- **Registry and verifiers.** `Registry`, `RegistryFacts`, `RegistryChecker`, `Resolvers`, `Verify`, `VerifyFacts`,
  `VerifySafety` and `Signer` model the registry checker, the per-message verifiers against the resolver it yields, and
  the signing side. `RegistryMeaning`, `RegistryWhole` and `Acceptance` say what is accepted, exactly, of the wire
  fields and signatures alone. `Fleet` is the smallest example: an authority and one daemon.
- **Key directory.** `Keyfile`, `KeyfileFacts`, `KeyfileRuns` and `DeviceHistory` model the files of one agent and the
  operations that replace them, with a stop possible after any write; `KeyfileMeaning` says what each operation requires
  and leaves. `CreateOrLoad` and `CreateOrLoadRuns` model
  concurrent creation of that directory by any number of calls. `AgentEntry` joins the crates: what a directory holds is
  what the registry checker and the verifiers accept.

`Base` holds results, integer widths, keys and errors. Loops and objects of the program are methods and classes here,
each proved against a function or predicate on values; the results are lemmas about those. A key pair is named by its
public half. `SignBytes` and the other signatures a key accepts, `AlsoAccepts`, are unknown functions, as are the curve
check and SHA-256: every result holds whatever they are. A signature made by `SignBytes` verifies by definition.

Where the code and its documentation differ, the model follows the code. `identity-keyfile/README.md:116-117` says that
`read_principal` fails with `PrincipalGenesis` while a rotation is pending; the code returns `SigningRoot`
(`KeyfileRuns.PendingHidesPrincipal`). The documentation of `create_or_load` does not mention one failure that needs no
I/O fault: a directory that held only `.lock` is removed by another call between two looks at it.
`CreateOrLoadRuns.CanFailExactlyFromLockOnly` says exactly when it is possible. Without I/O faults a call that loses the
rename race does find the winner's identity to load (`CreateOrLoadRuns.LoadersFindIdentity`).

Check the whole project with `dafny verify dfyconfig.toml`.

## Model

| member | source | states |
|---|---|---|
| Encoder.Enc.Var | src/transcripts.rs:53-58 | appends the big-endian u32 length and the bytes, and fails only at 2^32 bytes or more |
| Encoder.Enc.Key | src/transcripts.rs:59-62 | appends the scheme byte and the length-prefixed 65 bytes; it cannot fail |
| Encoder.Enc.CertBody | src/transcripts.rs:201-224 | makes the certificate checks in order and appends exactly the certificate's values, in mode 0 and mode 1 |
| Encoder.KeyDelegationTranscript | src/transcripts.rs:130-161 | the buffer-driven encoder returns the specified bytes, or the error of the first failing check |
| Encoder.KeyRevocationTranscript | src/transcripts.rs:165-174 | the encoder returns a revocation's bytes, or the error of its first failing check |
| Encoder.RootRotationTranscript | src/transcripts.rs:178-191 | the encoder returns the specified bytes for root rotations, or the error of the first failing check |
| Encoder.SessionDelegationTranscript | src/transcripts.rs:195-199 | the encoder returns the specified bytes for session certificates, or the error of the first failing check |
| Encoder.SignedMessageTranscript | src/transcripts.rs:226-244 | the encoder returns the specified bytes for signed messages of either kind of chain, or the error of the first failing check |
| Encoder.SignedDocumentTranscript | src/transcripts.rs:256-264 | the encoder returns the specified bytes for signed documents, or the error of the first failing check |
| Encoder.ApprovalTranscript | src/transcripts.rs:268-280 | the encoder returns the specified bytes for approvals, or the error of the first failing check |
| Encoder.PeerRevocationTranscript | src/transcripts.rs:284-294 | the encoder returns the specified bytes for peer revocations, or the error of the first failing check |
| Encoder.KeyChallengeTranscript | src/transcripts.rs:107-115 | the encoder returns the specified bytes for key challenges, or the error of the first failing check |
| Encoder.PrincipalRenameTranscript | src/transcripts.rs:118-126 | the encoder returns the specified bytes for renames, or the error of the first failing check |
| Encoder.RequestDigestTranscript | src/transcripts.rs:348-363 | the encoder returns the specified bytes for request digests, or the error of the first failing check |
| Encoder.ClientRequestDigestTranscript | src/transcripts.rs:395-417 | the encoder returns the specified bytes for client request digests, or the error of the first failing check |
| Encoder.DeliveryAttestationTranscript | src/transcripts.rs:305-332 | the encoder's two loops return the specified bytes for lists of any length, or the error of the first bad device, message or certificate |
| PrefixCode.TranscriptsArePrefixFree | src/transcripts.rs:44-417 | over all thirteen functions and all inputs: a transcript that equals or starts another is that transcript, from the same function, with the same covered fields |
| PrefixCode.CoveredFieldsDetermineTranscript | src/transcripts.rs:44-417 | conversely inputs that agree on the covered fields give the same result, error included; for messages only the certificate's principal and session count, not the chain |
| PrefixCode.TagsSplit | src/transcripts.rs:14-42 | one NUL-terminated tag is never a prefix of another tag with its content |
| Wire.ParseKeyIs | src/public_key.rs:16-65 | a wire key parses exactly if it is of scheme 3 with 65 bytes on the curve, and parses to those bytes |
| Layouts.BigEndianIs | src/transcripts.rs:77-83 | numbers are written most significant byte first, in four or eight bytes, spelled out byte by byte |
| Layouts.TwosComplement | src/transcripts.rs:77-79 | signed numbers are written as the low eight bytes of their two's complement |
| Layouts.TagBytes | src/transcripts.rs:47-51 | a tag is written as its ASCII codes and a NUL |
| Layouts.KeyChallengeLayout | src/transcripts.rs:107-115 | a key challenge has a transcript exactly if audience and nonce are non-empty and short, and it is tag, audience, nonce, new key |
| Layouts.PrincipalRenameLayout | src/transcripts.rs:118-126 | a rename has a transcript exactly if nonce and name are non-empty and short, and it is tag, nonce, principal, name |
| Layouts.KeyDelegationLayout | src/transcripts.rs:128-161 | a delegation has a transcript exactly if its keys are valid and distinct and its purpose fits its encryption half, and it is tag, principal, root, purpose, delegated, optional half, issued_at, not_after |
| Layouts.KeyRevocationLayout | src/transcripts.rs:163-174 | a revocation has a transcript exactly if its three keys are valid, and it is tag, principal, revoked, revoked_by, revoked_at |
| Layouts.RootRotationLayout | src/transcripts.rs:177-191 | a rotation has a transcript exactly if its keys are valid and its roots differ, and it is tag, principal, old root, new root, issued_at |
| Layouts.SessionDelegationLayout | src/transcripts.rs:193-224 | a certificate has a transcript exactly if mode 0 names neither host nor subject or mode 1 both and its keys are valid and distinct; it is tag, mode, principal, optional host and subject, device, session, not_before, not_after |
| Layouts.SignedMessageLayout | src/transcripts.rs:226-244 | a message has a transcript exactly if its certificate names principal and session, its nonces have 16 bytes and its texts are non-empty and short; it is tag, principal, session, audience, nonce, issued_at, optional reply nonce, body type, body |
| Layouts.SignedDocumentLayout | src/transcripts.rs:256-264 | a document's transcript is tag, signer, signing key, type, version, issued_at, expires_at, body, and exists exactly if the keys are valid and the type is not empty |
| Layouts.ApprovalLayout | src/transcripts.rs:266-280 | an approval's transcript is tag, principal, approval key, device, audience, request id, digest, answer, issued_at, and exists exactly if the keys are valid and distinct, the digest has 32 bytes and the audience is not empty |
| Layouts.PeerRevocationLayout | src/transcripts.rs:282-294 | a peer revocation's transcript is tag, revoker, approval key, target, optional key, issued_at, document id, and exists exactly if the keys are valid and the id has 32 bytes |
| Layouts.RequestDigestLayout | src/transcripts.rs:346-363 | a request digest's transcript is tag, requester, host, optional subject, instance, action, parameters, request id, target, and exists exactly if the texts are non-empty and short |
| Layouts.ClientRequestDigestLayout | src/transcripts.rs:392-417 | a client request digest's transcript is tag, requester, optional host and resource, message kind, body, request id, target, and exists exactly if the texts are non-empty and short |
| Layouts.DeliveryAttestationLayout | src/transcripts.rs:296-332 | an attestation's transcript is tag, counted device keys, key id, batch, seconds, nanos and counted messages with their certificates, for lists of any length, and exists exactly if every part is well formed |
| Encoding.DecodeEncodeAll | src/transcripts.rs:5-8 | values written in sequence are read back from their bytes, whatever follows them |
| Encoding.EncodeDecodeAll | src/transcripts.rs:5-8 | conversely whatever a decoder reads encodes to exactly the bytes it consumed |
| AttestationDecoder.AttestationRoundTrip | src/transcripts.rs:305-332 | decoding an attestation's transcript recovers every device, the timestamp and every message; only the signature is not in it |
| AttestationDecoder.EmbeddedCertBytes | src/transcripts.rs:195-224 | each embedded certificate is its own session-delegation.v1 transcript without the tag, followed by its length-prefixed signature |
| Principal.CanonicalIsDisplay | src/principal.rs:36-40 | a text parses as canonical to an id exactly when it is that id's printed form |
| Principal.ParseIgnoresCase | src/principal.rs:22-34 | a text parses to an id exactly when its lower-case form is the printed form |
| Principal.DisplayInjective | src/principal.rs:50-54 | different ids print differently |
| Principal.DisplayDigits | src/principal.rs:50-54 | an id prints as p256: and two lower-case hex digits for each byte of its key, high half first |
| Authority.CollectRoots | src/authority.rs:12-33 | the loop returns the roots, or the error of the first bad rotation |
| Authority.RootsAreChain | src/authority.rs:12-33 | a list is accepted with given roots exactly when every entry links two successive roots for the genesis with a valid signature and no root repeats |
| Authority.ChainPrefix | src/authority.rs:12-33 | dropping later rotations leaves a list that verifies to the remaining roots |
| Authority.AcceptedDocument | src/authority.rs:128-176 | an accepted document extends the accepted chain and is signed by the head of its own chain |
| Authority.DocumentIsSigned | src/authority.rs:128-176 | a document is accepted with a result exactly if it has an end and the expected type, its rotations are a signed chain from the accepted genesis key that starts with the accepted roots, and the end of that chain signs it; the result is its fields and the hash of its transcript |
| Authority.StaleOrFork | src/authority.rs:146-155 | among valid chains from one genesis, StaleRoot arises exactly for a strict prefix and RootFork exactly when neither is a prefix of the other |
| Authority.HeldChainsGrow | src/authority.rs:128-176 | along any run in which each document is checked against the last accepted chain, chains only grow by extension |
| Authority.NeverSignedByRetiredRoot | src/authority.rs:128-176 | no accepted document names as signer a root that an earlier chain of the run had retired |
| RegistryChecker.KeySet.Add | src/registry.rs:86-91 | a key is added exactly when it is not in the set yet |
| RegistryChecker.CheckDevice | src/registry.rs:226-255 | one binding passes exactly when it verifies by itself and its keys are new; it adds just those keys; its error is that of its first failing check, or a repeated key where one comes before that |
| RegistryChecker.CheckDevices | src/registry.rs:222-256 | the binding loop does the same for the whole list, error included |
| RegistryChecker.CheckRevocations | src/registry.rs:258-282 | the loop verifies every revocation, or returns the first failure |
| RegistryChecker.CheckHosts | src/registry.rs:284-290 | the allowed hosts parse in order, or the first bad one is reported |
| RegistryChecker.CheckEntry | src/registry.rs:163-296 | an entry passes exactly when it verifies by itself and every key it takes is new; it adds just those keys; its error is a repeated key if one comes before the first failing check, else that check's |
| RegistryChecker.ParseEntries | src/registry.rs:119-137 | the first loop passes exactly when ids and kinds parse and no short id repeats; its error is that of the first entry it refuses |
| RegistryChecker.CheckNames | src/registry.rs:139-152 | the second loop passes exactly when names are well formed and no two non-frozen entries of known kinds share one; its one error names the name |
| RegistryChecker.CheckEntries | src/registry.rs:158-301 | the third loop passes exactly when every entry verifies, no key occurs twice anywhere and the authority is present; its error is that of the first entry it refuses, in the order of its checks |
| RegistryChecker.CheckRegistry | src/registry.rs:116-301 | the set-threading loops decide one order-free predicate and build exactly the entries it describes; a refused registry gets the error of its first failing check |
| RegistryFacts.OrderDoesNotMatter | src/registry.rs:116-301 | permuting the entries changes neither acceptance nor the resulting map |
| RegistryFacts.AcceptedEntriesUnique | src/registry.rs:293-296 | a registry is accepted with one entry map only |
| RegistryFacts.RegistryKeysDistinct | src/registry.rs:81-92 | across the whole registry no key is taken twice: roots, encryption halves, device, device-encryption and approval keys, keyless and unknown-kind genesis keys |
| RegistryFacts.AcceptedKeysDistinct | src/registry.rs:81-92 | the same for the keys of the accepted entries |
| RegistryFacts.EntryIdsDistinct | src/registry.rs:121-126 | no two entries have one id, so no insert into the map replaces another |
| RegistryFacts.BoundOnce | src/registry.rs:222-256 | a key bound in any role is bound in one binding of one entry |
| RegistryFacts.AcceptedEntryInvariant | src/registry.rs:199-296 | accepted entries keep their root chain, never revoke their current root, and have bindings only for HUMAN, signed by the current root |
| RegistryFacts.AuthorityHasEntry | src/registry.rs:168-176 | the authority of an accepted registry has a self-rooted HUMAN entry that is not frozen |
| RegistryFacts.CheckerNeverPanics | src/registry.rs:226-230 | neither expect of the checker can fail |
| RegistryFacts.ReportIsUnique | src/registry.rs:116-301 | at most one error fits a registry, so the checker's error is determined by the registry |
| RegistryMeaning.BindingIs | src/registry.rs:226-255 | a device binding is accepted exactly if the root signed its device delegation and its approval delegation, if any, for this principal and these purposes, and its host, if any, is a listed daemon |
| RegistryMeaning.RevocationIs | src/registry.rs:258-282 | a revocation is accepted exactly if it names this principal, is signed by a root of the entry or the revoked key, does not revoke the current root and, for a human, revokes a root or bound key; the result is its key and time |
| RegistryMeaning.EntryIs | src/registry.rs:158-296 | an entry of a known kind is accepted with a verified form exactly if that form is what its wire fields say: kind rules, root chain, bindings, revocations and hosts, one by one and signed |
| RegistryWhole.RegistryIs | src/registry.rs:116-301 | a registry is accepted with a map of entries exactly if its wire form describes that map: canonical ids, names, short ids apart, every known entry as it says, no key at two places of the registry, the authority present |
| Resolvers.FromDocument | src/resolver.rs:59-68 | a resolver is built exactly from a document of the right type whose registry decodes and passes; otherwise the error tells type, body or the registry's first failure |
| Resolvers.PeerRevocationKeepsBuilt | src/resolver.rs:70-77 | a peer revocation is added only for its own document, and the result is as good as before |
| Resolvers.BindingIsUnique | src/resolver.rs:93-95 | the first binding found for a device is the only one of the resolver that uses the key in any role |
| Resolvers.ApprovalIsUnique | src/verify.rs:503-507 | the same for the search by approval key |
| Resolvers.RevokedRootFreezes | src/resolver.rs:98-111 | a revoked current root implies a frozen principal |
| Resolvers.FrozenIsAMoment | src/resolver.rs:98-104 | being frozen is the same as being at or after one moment |
| Resolvers.RevokedIsAMoment | src/resolver.rs:107-111 | a key is revoked exactly from one moment on |
| Resolvers.NameResolvesToOne | src/resolver.rs:86-91 | a name resolves to the one principal that carries it and is not frozen, or to none |
| Acceptance.DeviceCurrentIs | src/verify.rs:87-135 | a delegation is current exactly if the entry's current root signed it for this device, neither key is revoked, and it is a human's bound one on a host not frozen or else a window of at most 31 days that is open |
| Acceptance.CheckCertIs | src/verify.rs:162-175 | a certificate holds exactly if the device signed it for this session key and its window of at most a day is open |
| Acceptance.ChainIs | src/verify.rs:178-253 | a chain is accepted with a result exactly if, self-rooted or vouched for by an allowed daemon under its subject prefix, delegation and certificate hold, nothing is frozen, and the result names principal, kind, host, subject, device and session key of the wire |
| Acceptance.MessageIsSigned | src/verify.rs:278-301 | a message is accepted with a result exactly if its chain holds, it is for the audience, the chain's session key signed it and it is within the live skew; the result is the signed fields |
| Acceptance.TrustedMessageIsSigned | src/verify.rs:358-402 | the interim verifier accepts exactly self-rooted mode-0 messages of the author under a listed device that signed the certificate, signed by its session key |
| Acceptance.ApprovalIsSigned | src/verify.rs:422-476 | an approval is accepted with a result exactly if it is the session's human's, by the approval key bound to the session's device, in force, not revoked, for this request and audience, and signed by that key; the answer is the signed one |
| Acceptance.PeerRevocationIsSigned | src/verify.rs:479-531 | a peer revocation is accepted with a result exactly if it names this document, an unrevoked approval key of the authority signed it, and the target has an entry; the result is the wire target and key, and the receiver's time |
| Acceptance.PeerRevocationEffect | src/resolver.rs:70-111 | adding it freezes the wire target, or revokes the wire key there, from its acceptance on, and changes nothing else |
| Acceptance.StandingIsSigned | src/resolver.rs:97-111 | after any run of notices a principal is frozen, or a key revoked, exactly if the entry says so or a notice that verified does, by then |
| VerifyFacts.AcceptanceIsAnInterval | src/verify.rs:87-253 | a chain that is accepted at all is accepted, with one constant result, exactly between a closed-form first time (cert start and, unless human, issue time, less the skew) and last time (cert and delegation end, just before the earliest freeze of principal or daemon and the earliest revocation of root or device), for all i64 bounds |
| VerifyFacts.AcceptanceIsShort | src/verify.rs:141-176 | two times at which one chain is accepted are at most 86,430 seconds apart |
| VerifyFacts.MessageTimes | src/verify.rs:278-301 | a message accepted once is accepted, as the same message, at its chain's times, in live mode within the skew only |
| VerifyFacts.RevocationsOnlyRemoveAccess | src/resolver.rs:70-111 | whatever any verifier accepts with more peer revocations it accepts, with the same value, with fewer |
| VerifyFacts.OnlyRevocationsSoFarCount | src/resolver.rs:98-111 | order, repetition and revocations accepted later change no answer of any verifier, errors included |
| VerifyFacts.OneMoreRevocation | src/resolver.rs:70-77 | adding one revocation changes nothing before its acceptance time and afterwards only removes access |
| VerifySafety.RootBranchUnreachable | src/verify.rs:96-98 | a chain refused as revoked is refused for its device key: the root's branch is never taken |
| VerifySafety.VerifiersNeverPanic | src/verify.rs:422-531 | no expect of a verifier can fail against a resolver built from an accepted registry |
| VerifySafety.TrustedDevicesRefine | src/verify.rs:358-402 | whatever the full verifier accepts self-rooted, the interim one accepts with the same fields, for that genesis and any list holding the device |
| AcceptedHistory.CheckSuccessor | src/accepted.rs:98-151 | a version is accepted exactly when every recorded entry is compatible; records move on as specified, all others stay; a failure is the conflict of the first conflicting entry in key order |
| AcceptedHistory.SuccessorIs | src/accepted.rs:98-151 | a version is accepted exactly if every listed id but the authority's that is recorded keeps its kind and, if self-rooted, extends the recorded roots; afterwards a self-rooted id has the entry's chain, a keyless one its old record or its genesis key, every other id what it had |
| AcceptedHistory.HistoryOnlyGrows | src/accepted.rs:98-151 | over any run of versions no record disappears, no kind changes and root lists only grow by extension |
| AcceptedHistory.NoReturnToRetiredRoot | src/accepted.rs:98-151 | for any two accepted versions of a run: the later entry has the same kind and never as current root one that the earlier had retired, even after removal, re-adding or a keyless interlude |
| AcceptedHistory.ToProto | src/accepted.rs:80-91 | every record is written once, in the order of the ids |
| AcceptedHistory.FromProto | src/accepted.rs:42-78 | the loop loads the list, or returns the first error |
| AcceptedHistory.LoadIsInverse | src/accepted.rs:42-91 | a list loads as a set exactly when it lists that set and every record's roots are those of its rotations |
| AcceptedHistory.HistoryPersists | src/accepted.rs:42-151 | whatever list a set that a run can reach is written as loads as that set |
| AcceptedHistory.AuthorityMustStayOut | src/accepted.rs:101-103 | a set that records the authority's entry would load again exactly while the authority has never rotated |
| Signer.DelegateSucceeds | src/keys.rs:69-87 | a device is delegated exactly when the window is positive, at most 31 days, and root, device and encryption keys differ |
| Signer.MintSucceeds | src/session.rs:33-54 | a session is minted exactly when its window is positive, at most 24 hours, and its key is not the device's |
| Signer.SignSucceeds | src/session.rs:82-109 | a message is signed exactly when audience and body type are not empty and every variable-length field is below 4 GiB |
| Signer.RotationLinks | src/keys.rs:109-119 | a produced rotation is a verified link of the two roots for its principal |
| Signer.DelegationHolds | src/keys.rs:36-87 | a produced delegation says what it was made for and verifies under its root |
| Signer.DelegationSays | src/keys.rs:36-87 | field by field: a produced delegation names principal, root, purpose 2, both device keys and the window, and the root signed it |
| Signer.CertHolds | src/session.rs:33-54 | a minted certificate names principal, device, the new key and the window in mode 0, and the device signed it |
| Signer.MessageHolds | src/session.rs:82-109 | a signed message carries its arguments and the session's chain, and the session key signed it |
| Signer.RenewalDueIs | src/keys.rs:89-93 | a renewal is due exactly when the delegation ends within the margin, or the margin is the largest there is |
| Signer.SignerMeetsVerifier | src/session.rs:33-109 | a message made by delegating, minting and signing for a self-rooted daemon, service or agent is accepted exactly while both windows are open, nothing is frozen or revoked and the skew holds, with exactly the signed fields |
| Fleet.FleetAccepted | src/registry.rs:116-301 | registries are accepted: that of an authority and a daemon with four different keys is |
| Fleet.FleetMessageAccepted | src/verify.rs:291-301 | messages are accepted: in that fleet one signed by the daemon's device is, live |
| AgentEntry.LoadedAgentIsAccepted | identity-keyfile/src/keys.rs:189-235 | across the two crates: in every reachable directory that loads verified, the entry of its keys passes the registry's checks with its root chain, and its delegation is accepted against that entry, for its device, exactly inside its window while neither key is revoked and its end is not 0 |
| Keyfile.Directory.WritePrivateAt | identity-keyfile/src/files.rs:102-129 | one atomic replacement: on success the file is new; on failure it is old or new; foreign temporary files are never touched and own ones never left |
| Keyfile.Directory.Init | identity-keyfile/src/keys.rs:328-368 | writes the six files in order with agent_id last; a stop leaves a prefix; success returns what is on disk; refuses a used directory without writing |
| Keyfile.Directory.Renew | identity-keyfile/src/keys.rs:385-419 | writes history, device and delegation in that order, or only the delegation; a stop leaves a prefix |
| Keyfile.Directory.RotateRoot | identity-keyfile/src/keys.rs:604-625 | writes the rotations, then the root; a pending entry is replaced |
| Keyfile.HeldKeys.RenewIfDue | identity-keyfile/src/keys.rs:551-584 | nothing before the margin; then the directory, if it still holds these keys, is written before memory changes |
| Keyfile.Retire | identity-keyfile/src/keys.rs:92-107 | a listed device keeps the earlier time, any other is appended |
| KeyfileMeaning.LoadIs | identity-keyfile/src/keys.rs:281-316 | load returns the files' keys exactly if the delegation names the device |
| KeyfileMeaning.LoadVerifiedIs | identity-keyfile/src/keys.rs:189-235 | for any files: the verified load returns them exactly if the rotations are a signed chain from the principal's genesis key to the root and that root signed the delegation of the device |
| KeyfileMeaning.ReadPrincipalIs | identity-keyfile/src/keys.rs:638-682 | for any files: read_principal returns the id exactly if it, the delegation and the rotations agree and the end of the chain signed the delegation |
| KeyfileMeaning.RetiredIs | identity-keyfile/src/keys.rs:92-107 | retiring appends the device with both keys and the time, or lowers the time of its first entry and changes nothing else |
| KeyfileMeaning.InitIs | identity-keyfile/src/keys.rs:328-368 | init goes through exactly without agent files and with a window of at most 31 days, and leaves these six files with a signed delegation over that window |
| KeyfileMeaning.RenewIs | identity-keyfile/src/keys.rs:385-419 | renew goes through exactly with the four key files and a good window; it leaves a fresh delegation of the device or its replacement, the old one retired, all else as before |
| KeyfileMeaning.RotateIs | identity-keyfile/src/keys.rs:604-625 | rotate_root goes through exactly where load does; it appends a rotation signed by the root on disk, in place of a pending one, and installs the new root |
| KeyfileMeaning.RenewHeldIs | identity-keyfile/src/keys.rs:551-584 | a due renewal of held keys goes through exactly while the directory has this root and device, and replaces only the delegation |
| KeyfileFacts.StepKeeps | identity-keyfile/src/keys.rs:328-625 | every operation stopped after any write keeps the directory invariant, the principal, the committed roots and the history |
| KeyfileFacts.SettledRoots | identity-keyfile/src/keys.rs:604-619 | dropping a pending entry leaves rotations that verify to exactly the committed roots |
| KeyfileRuns.InitRuns | identity-keyfile/src/keys.rs:328-368 | an uninterrupted init in a good window is a run, and leaves a complete directory |
| KeyfileRuns.PendingRuns | identity-keyfile/src/keys.rs:604-625 | a directory with a pending rotation is reachable: init, then a rotation stopped between its two writes |
| KeyfileRuns.RotationsAlwaysVerify | identity-keyfile/src/keys.rs:604-625 | in every reachable directory with an agent_id the rotations verify from its genesis with distinct roots, and the root on disk is the head or, while pending, the root the last entry replaces |
| KeyfileRuns.RunsOnlyGrow | identity-keyfile/src/keys.rs:328-625 | over any run the principal never changes, no committed root is undone and no retired_at increases |
| KeyfileRuns.RetryReplacesOnlyPending | identity-keyfile/src/keys.rs:609-624 | a retried rotation drops exactly the pending entry, wherever it stops, and never a committed one |
| KeyfileRuns.DevicesNeverLost | identity-keyfile/src/keys.rs:385-419 | every device key ever written is current or in the history, whose keys are distinct |
| KeyfileRuns.LoadsExactlyWhenCurrent | identity-keyfile/src/keys.rs:189-235 | in every reachable directory with an agent_id the verified load succeeds exactly when no rotation is pending and the delegation is current; otherwise the error tells which check fails |
| KeyfileRuns.RecoveryAfterAnyRun | identity-keyfile/src/keys.rs:385-625 | from any crash state, renew and, if a rotation is pending, rotate and renew again reach a directory that loads verified with the original principal; each call has its own clock reading and each renewal its own good window |
| KeyfileRuns.PendingHidesPrincipal | identity-keyfile/src/keys.rs:638-682 | while a rotation is pending read_principal fails, with SigningRoot |
| DeviceHistory.DeviceKeysAt | identity-keyfile/src/keys.rs:751-773 | the loop computes the specified list |
| DeviceHistory.KeysAtAre | identity-keyfile/src/keys.rs:737-773 | the list starts with the current key, has no duplicates and otherwise holds exactly the keys retired at or after the time |
| DeviceHistory.LaterAcceptsFewer | identity-keyfile/src/keys.rs:737-773 | a later time accepts no further key |
| DeviceHistory.LaterIsSubsequence | identity-keyfile/src/keys.rs:737-773 | for any history, a later list is a subsequence of the earlier one exactly when no key overtakes: none lapses and comes back behind a key that stays |
| DeviceHistory.DistinctKeepsOrder | identity-keyfile/src/keys.rs:737-773 | a history whose keys are distinct keeps the order at all times |
| DeviceHistory.RunListsShrink | identity-keyfile/src/keys.rs:737-773 | so a later list is a subsequence in every reachable directory |
| DeviceHistory.OrderNeedsDistinctKeys | identity-keyfile/src/keys.rs:751-773 | a concrete history that repeats a key and does not |
| CreateOrLoad.StepKeeps | identity-keyfile/src/keys.rs:423-514 | every file-system step of every call keeps the protocol invariant, and a complete identity keeps its files |
| CreateOrLoad.InitLoads | identity-keyfile/src/keys.rs:328-368 | what init writes loads fully verified, as the principal of its root |
| CreateOrLoad.OwnTempsOnly | identity-keyfile/src/keys.rs:155-187 | a call touches no temporary directory but its own and those of dead calls |
| CreateOrLoadRuns.DirectoryAlwaysWhole | identity-keyfile/src/keys.rs:423-514 | in every interleaving the directory is absent, empty, lock-only or a complete identity, and at most one rename succeeds |
| CreateOrLoadRuns.DirectoryMoves | identity-keyfile/src/keys.rs:464-512 | step by step: .lock comes or goes, an empty directory is removed, a complete identity takes the place of an absent or empty one and of nothing else |
| CreateOrLoadRuns.IdentityForEver | identity-keyfile/src/keys.rs:423-514 | once complete, the identity's files never change |
| CreateOrLoadRuns.FilesForEver | identity-keyfile/src/keys.rs:464-493 | a directory with agent files, even one stuck without agent_id, is left untouched by any number of calls |
| CreateOrLoadRuns.AllCallsAgree | identity-keyfile/src/keys.rs:423-514 | all calls that return Ok return the same principal, the one in the directory |
| CreateOrLoadRuns.NothingLeftBehind | identity-keyfile/src/keys.rs:129-153 | a call that has returned or failed leaves no temporary directory |
| CreateOrLoadRuns.CreationHappens | identity-keyfile/src/keys.rs:423-514 | a run in which a call from an absent directory creates the identity and returns it |
| CreateOrLoadRuns.LoadersFindIdentity | identity-keyfile/src/keys.rs:508-511 | while no I/O call fails, a call that loads always finds a complete identity |
| CreateOrLoadRuns.CallsFailOnlyByVanishing | identity-keyfile/src/keys.rs:428-432 | while no I/O call fails, the only failure is a lock-only directory removed between two looks at it |
| CreateOrLoadRuns.CanFailExactlyFromLockOnly | identity-keyfile/src/keys.rs:428-432 | such a failure is possible exactly when the directory starts lock-only |
| CreateOrLoadRuns.VanishingHappens | identity-keyfile/src/keys.rs:428-486 | a concrete run of two calls in which it happens |

## Left out

- Encoder.SignedMessageTranscript: in errors about the certificate, its principal or its session key, the field path does not tell the two kinds of chain apart; message texts of errors are not modelled anywhere.
- Acceptance.MessageIsSigned: the verifiers' results are characterised on their own; which error a refused input gets is only what the functions of `Verify` compute, in the program's order. The same holds for the error of a transcript.
- Keyfile.Directory.Init: files hold values, so JSON, JWK and the text form of `agent_id` are not written out; the text form's round trip is `Principal.CanonicalIsDisplay`.
- Keyfile.Directory.Renew: the advisory lock makes each operation on a directory exclusive; the lock itself is not modelled.
- KeyfileFacts.StepKeeps: `save`, the public `write_*` functions and callers that change public fields overwrite without checks and are not steps of a run; keys held in memory are those loaded from the directory.
- CreateOrLoad.StepKeeps: only `create_or_load` calls run concurrently; other operations on the finished directory belong to the runs of `KeyfileFacts`. Reading a directory listing is one step, removing a temporary directory is one step that succeeds, and each call counts as a process of its own.
- Signer.DelegateSucceeds: every key pair is taken to have its private half; without it the program returns `InvalidKey`.
- Signer.MintSucceeds: every key pair is taken to have its private half; without it the program returns `InvalidKey`.
- P-256, ECDSA with both S forms, key generation and SHA-256 stay abstract; generated keys are only assumed new.
- Protobuf decoding of a document's carrier is an unknown function from bytes to a registry; generated code, serde and JSON are not modelled.
- File permissions, symbolic links, fsync and the probing of process ids are not modelled, beyond a directory sync that may fail after its rename.
- Thumbprints, message nonces, short-id parsing, the revocation, challenge and rename builders, accessors and the test kit would add only easy members.
