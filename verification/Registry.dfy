/** The registry checker: what one entry must satisfy alone, what the whole list must satisfy whatever its
  * order, and the loops that decide it. */
module Registry {
  import opened Wrappers
  import opened Bytes
  import opened Primitives
  import opened Errors
  import opened Wire
  import opened Transcripts
  import opened Authority
  import opened Principal

  datatype PrincipalKind = Human | Agent | Daemon | Service

  datatype AllowedHost = Any | Host(id: PrincipalId)

  datatype VerifiedBinding = VerifiedBinding(
    device: KeyDelegation,
    deviceKey: PublicKey,
    approval: Option<(KeyDelegation, PublicKey)>,
    host: Option<PrincipalId>)
  {
    function ApprovalKey(): Option<PublicKey> {
      match approval
      case None => None
      case Some(a) => Some(a.1)
    }
  }

  datatype VerifiedEntry = VerifiedEntry(
    id: PrincipalId,
    kind: PrincipalKind,
    name: Option<Text>,
    frozen: bool,
    currentRoot: Option<KeyDuo>,
    roots: seq<PublicKey>,
    rotations: seq<RootRotation>,
    revocations: seq<(PublicKey, i64)>,
    bindings: seq<VerifiedBinding>,
    allowedHosts: seq<AllowedHost>)
  {
    predicate IsSelfRooted() { currentRoot.Some? }
  }

  datatype CheckedRegistry = CheckedRegistry(entries: map<PrincipalId, VerifiedEntry>, allowPeerRevocation: bool)

  /** What an entry is checked against: the authority's chain and the DAEMON ids of the registry. */
  datatype Context = Context(chain: AuthorityChain, daemons: set<PrincipalId>)

  const WILDCARD: Text := [42]

  function Bad(field: Field): Error { InvalidRegistry(field) }

  /** A key field that is present and valid. */
  function KeyOf(k: Option<PbKey>): (r: Option<PublicKey>)
    ensures r.Some? ==> k == Some(ToPb(r.value))
    ensures forall p: PublicKey {:trigger ToPb(p)} :: k == Some(ToPb(p)) ==> r == Some(p)
  {
    match k
    case None => None
    case Some(p) => (match ParseKey(p) case Success(key) => Some(key) case Failure(_) => None)
  }

  function Last(roots: seq<PublicKey>): Option<PublicKey> {
    if roots == [] then None else Some(roots[|roots| - 1])
  }

  function ShortId(id: PrincipalId): seq<byte> { Sha256(id.genesis)[..8] }

  predicate Is16Hex(s: Text) { |s| == 16 && forall b <- s :: HexValue(b).Some? }

  // One entry by itself.

  /** The id of an entry and its kind; `None` is a kind this version does not know. */
  datatype Parsed = Parsed(id: PrincipalId, kind: Option<PrincipalKind>)

  function ParseKind(kind: int): Result<Option<PrincipalKind>, Error> {
    if kind == 0 then Failure(Bad(EntryKind))
    else if kind == 1 then Success(Some(Human))
    else if kind == 2 then Success(Some(Agent))
    else if kind == 3 then Success(Some(Daemon))
    else if kind == 4 then Success(Some(Service))
    else Success(None)
  }

  function ParseId(e: RegistryEntry): Result<PrincipalId, Error> {
    match ParseCanonical(e.principalId)
    case Success(id) => Success(id)
    case Failure(_) => Failure(Bad(EntryPrincipalId))
  }

  function ParseEntry(e: RegistryEntry): Result<Parsed, Error> {
    var id :- ParseId(e);
    var kind :- ParseKind(e.kind);
    Success(Parsed(id, kind))
  }

  predicate NameOk(e: RegistryEntry) {
    e.name.Some? ==> e.name.value != [] && !Is16Hex(e.name.value)
  }

  function CheckDelegation(d: KeyDelegation, id: PrincipalId, root: PublicKey, purpose: int, field: Field)
    : Result<PublicKey, Error>
  {
    var named := Need(KeyOf(d.principalGenesis) == Some(id.genesis), Bad(field));
    :- named;
    :- Need(KeyOf(d.signingRoot) == Some(root), Bad(field));
    :- Need(d.purpose == purpose, Bad(field));
    :- Need(d.notAfter != 0, Bad(field));
    :- Need(DelegationVerifies(d, root), Bad(field));
    OkOr(KeyOf(d.delegated), Bad(field))
  }

  predicate DelegationVerifies(d: KeyDelegation, root: PublicKey) {
    && TranscriptOf(Delegation(d)).Success?
    && VerifyP256(root, TranscriptOf(Delegation(d)).value, d.signature).Pass?
  }

  predicate RevocationVerifies(r: KeyRevocation, signer: PublicKey) {
    && TranscriptOf(Revocation(r)).Success?
    && VerifyP256(signer, TranscriptOf(Revocation(r)).value, r.signature).Pass?
  }

  function SelfRootedEntry(e: RegistryEntry, kind: PrincipalKind): bool {
    kind == Agent ==> e.currentRoot.Some?
  }

  /** The kind-specific field rules. */
  function FieldRules(e: RegistryEntry, kind: PrincipalKind): Outcome<Error> {
    match kind
    case Human => Need(e.allowedHosts == [], Bad(EntryAllowedHosts))
    case Daemon =>
      if e.devices != [] then Fail(Bad(EntryDevices)) else Need(e.allowedHosts == [], Bad(EntryAllowedHosts))
    case Service =>
      if e.devices != [] then Fail(Bad(EntryDevices)) else Need(e.allowedHosts == [], Bad(EntryAllowedHosts))
    case Agent =>
      if e.devices != [] then Fail(Bad(EntryDevices))
      else Need((e.allowedHosts == []) == SelfRootedEntry(e, kind), Bad(EntryAllowedHosts))
  }

  /** `PublicKeyDuo::try_from`. */
  function ParseDuo(d: PbKeyDuo): Option<KeyDuo> {
    var signing :- KeyOf(d.signing);
    var encryption :- KeyOf(d.encryption);
    if signing == encryption then None else Some(KeyDuo(signing, encryption))
  }

  /** The root chain of an entry and its current duo; no roots for a host-vouched agent. */
  function EntryRoots(e: RegistryEntry, id: PrincipalId, kind: PrincipalKind, chain: AuthorityChain)
    : Result<(seq<PublicKey>, Option<KeyDuo>), Error>
  {
    if SelfRootedEntry(e, kind) then
      var wire :- OkOr(e.currentRoot, Bad(EntryCurrentRoot));
      var duo :- OkOr(ParseDuo(wire), Bad(EntryCurrentRoot));
      var roots :- SelfRoots(e, id, chain);
      :- Need(Last(roots) == Some(duo.signing), Bad(EntryCurrentRoot));
      Success((roots, Some(duo)))
    else
      :- Need(e.rotations == [] && e.revocations == [], Bad(EntryRotations));
      Success(([], None))
  }

  function SelfRoots(e: RegistryEntry, id: PrincipalId, chain: AuthorityChain): Result<seq<PublicKey>, Error> {
    if id == chain.Principal() then
      if e.rotations != [] then Failure(Bad(EntryRotations)) else Success(chain.roots)
    else
      match RotationRoots(id.genesis, e.rotations)
      case Success(roots) => Success(roots)
      case Failure(_) => Failure(Bad(EntryRotations))
  }

  function VerifyBinding(b: DeviceBinding, id: PrincipalId, root: Option<PublicKey>, daemons: set<PrincipalId>)
    : Result<VerifiedBinding, Error>
  {
    var current :- OkOr(root, Panic(HumanSelfRooted));
    var d :- OkOr(b.device, Bad(EntryDevices));
    var deviceKey :- CheckDelegation(d, id, current, PURPOSE_DEVICE, EntryDevices);
    var _ :- OkOr(KeyOf(d.delegatedEncryption), Panic(DeviceEncryptionHalf));
    var approval :- VerifyApprovalSlot(b.approval, id, current);
    var host :- VerifyHostSlot(b.hostDaemonId, daemons);
    Success(VerifiedBinding(d, deviceKey, approval, host))
  }

  function VerifyApprovalSlot(a: Option<KeyDelegation>, id: PrincipalId, root: PublicKey)
    : Result<Option<(KeyDelegation, PublicKey)>, Error>
  {
    match a
    case None => Success(None)
    case Some(d) =>
      var k :- CheckDelegation(d, id, root, PURPOSE_APPROVAL, DeviceApproval);
      Success(Some((d, k)))
  }

  function VerifyHostSlot(h: Option<Text>, daemons: set<PrincipalId>): Result<Option<PrincipalId>, Error> {
    match h
    case None => Success(None)
    case Some(text) =>
      match ParseCanonical(text)
      case Failure(_) => Failure(Bad(HostDaemonId))
      case Success(host) => if host in daemons then Success(Some(host)) else Failure(Bad(HostDaemonId))
  }

  function VerifyBindings(bs: seq<DeviceBinding>, id: PrincipalId, root: Option<PublicKey>, daemons: set<PrincipalId>)
    : Result<seq<VerifiedBinding>, Error>
  {
    if bs == [] then Success([])
    else
      var init :- VerifyBindings(bs[..|bs| - 1], id, root, daemons);
      var last :- VerifyBinding(bs[|bs| - 1], id, root, daemons);
      Success(init + [last])
  }

  /** A revocation of an entry with these roots; `own` are the keys a HUMAN may revoke. */
  function VerifyRevocation(r: KeyRevocation, id: PrincipalId, kind: PrincipalKind, roots: seq<PublicKey>,
                            own: seq<PublicKey>): Result<(PublicKey, i64), Error>
  {
    var named := Need(KeyOf(r.principalGenesis) == Some(id.genesis), Bad(Revocations));
    :- named;
    var revoked :- OkOr(KeyOf(r.revoked), Bad(Revocations));
    var signer :- OkOr(KeyOf(r.revokedBy), Bad(Revocations));
    :- Need(Last(roots) != Some(revoked), Bad(Revocations));
    :- Need(signer in roots || signer == revoked, Bad(Revocations));
    :- Need(kind == Human ==> revoked in own, Bad(Revocations));
    :- Need(RevocationVerifies(r, signer), Bad(Revocations));
    Success((revoked, r.revokedAt))
  }

  function VerifyRevocations(rs: seq<KeyRevocation>, id: PrincipalId, kind: PrincipalKind, roots: seq<PublicKey>,
                             own: seq<PublicKey>): Result<seq<(PublicKey, i64)>, Error>
  {
    if rs == [] then Success([])
    else
      var init :- VerifyRevocations(rs[..|rs| - 1], id, kind, roots, own);
      var last :- VerifyRevocation(rs[|rs| - 1], id, kind, roots, own);
      Success(init + [last])
  }

  function VerifyHost(h: Text): Result<AllowedHost, Error> {
    if h == WILDCARD then Success(Any)
    else
      match ParseCanonical(h)
      case Success(id) => Success(Host(id))
      case Failure(_) => Failure(Bad(EntryAllowedHosts))
  }

  function VerifyHosts(hs: seq<Text>): Result<seq<AllowedHost>, Error> {
    if hs == [] then Success([])
    else
      var init :- VerifyHosts(hs[..|hs| - 1]);
      var last :- VerifyHost(hs[|hs| - 1]);
      Success(init + [last])
  }

  /** Every check of an entry of a known kind that does not look at the other entries' keys. */
  function VerifyEntry(e: RegistryEntry, id: PrincipalId, kind: PrincipalKind, c: Context)
    : Result<VerifiedEntry, Error>
  {
    var isAuthority := id == c.chain.Principal();
    :- Need(isAuthority ==> kind == Human, Bad(Entries));
    :- Need(isAuthority ==> !e.frozen, Bad(EntryFrozen));
    :- FieldRules(e, kind);
    var (roots, currentRoot) :- EntryRoots(e, id, kind, c.chain);
    var bindings :- VerifyBindings(e.devices, id, Last(roots), c.daemons);
    var revocations :- VerifyRevocations(e.revocations, id, kind, roots, roots + BindingsKeys(bindings));
    var allowedHosts :- VerifyHosts(e.allowedHosts);
    Success(VerifiedEntry(id, kind, e.name, e.frozen, currentRoot, roots, e.rotations, revocations, bindings,
                          allowedHosts))
  }

  // The keys, ids and names an entry takes.

  function BindingKeys(b: VerifiedBinding): seq<PublicKey> {
    [b.deviceKey] + OptSeq(KeyOf(b.device.delegatedEncryption)) + OptSeq(b.ApprovalKey())
  }

  function OptSeq<T>(o: Option<T>): seq<T> {
    match o
    case None => []
    case Some(v) => [v]
  }

  function BindingsKeys(bs: seq<VerifiedBinding>): seq<PublicKey> {
    if bs == [] then [] else BindingsKeys(bs[..|bs| - 1]) + BindingKeys(bs[|bs| - 1])
  }

  /** The keys an entry takes before those of its bindings: roots and encryption half, or the bare genesis key. */
  function HeadKeys(roots: seq<PublicKey>, currentRoot: Option<KeyDuo>, id: PrincipalId): seq<PublicKey> {
    if currentRoot.Some? then roots + [currentRoot.value.encryption] else [id.genesis]
  }

  function VerifiedKeys(v: VerifiedEntry): seq<PublicKey> {
    HeadKeys(v.roots, v.currentRoot, v.id) + BindingsKeys(v.bindings)
  }

  function EntryKeys(e: RegistryEntry, c: Context): seq<PublicKey> {
    match ParseEntry(e)
    case Failure(_) => []
    case Success(p) =>
      match p.kind
      case None => [p.id.genesis]
      case Some(kind) =>
        match VerifyEntry(e, p.id, kind, c)
        case Failure(_) => []
        case Success(v) => VerifiedKeys(v)
  }

  function EntryShortIds(e: RegistryEntry): seq<seq<byte>> {
    match ParseEntry(e)
    case Failure(_) => []
    case Success(p) => [ShortId(p.id)]
  }

  /** A name counts while its entry has a known kind and is not frozen. */
  function EntryNames(e: RegistryEntry): seq<Text> {
    match ParseEntry(e)
    case Failure(_) => []
    case Success(p) => if p.kind.Some? && !e.frozen then OptSeq(e.name) else []
  }

  // The whole registry, whatever the order of its entries.

  /** Everything `f` yields over a list, with multiplicity. */
  function Bag<T, U>(f: T -> seq<U>, s: seq<T>): multiset<U> {
    if s == [] then multiset{} else Bag(f, s[..|s| - 1]) + multiset(f(s[|s| - 1]))
  }

  predicate NoRepeat<U(==)>(m: multiset<U>) { forall x <- m :: m[x] == 1 }

  function KeysIn(c: Context): RegistryEntry -> seq<PublicKey> { e => EntryKeys(e, c) }

  function ShortIdsIn(): RegistryEntry -> seq<seq<byte>> { e => EntryShortIds(e) }

  function NamesIn(): RegistryEntry -> seq<Text> { e => EntryNames(e) }

  predicate IsDaemon(e: RegistryEntry) {
    ParseEntry(e).Success? && ParseEntry(e).value.kind == Some(Daemon)
  }

  function Daemons(entries: seq<RegistryEntry>): set<PrincipalId> {
    set e | e in entries && IsDaemon(e) :: ParseEntry(e).value.id
  }

  /** The entry is well formed by itself. */
  predicate EntryOk(e: RegistryEntry, c: Context) {
    && ParseEntry(e).Success?
    && NameOk(e)
    && var p := ParseEntry(e).value; p.kind.Some? ==> VerifyEntry(e, p.id, p.kind.value, c).Success?
  }

  predicate Known(e: RegistryEntry) { ParseEntry(e).Success? && ParseEntry(e).value.kind.Some? }

  function Verified(e: RegistryEntry, c: Context): VerifiedEntry
    requires Known(e) && EntryOk(e, c)
  {
    VerifyEntry(e, ParseEntry(e).value.id, ParseEntry(e).value.kind.value, c).value
  }

  function ContextOf(reg: PrincipalRegistry, chain: AuthorityChain): Context {
    Context(chain, Daemons(reg.entries))
  }

  predicate RegistryOk(reg: PrincipalRegistry, chain: AuthorityChain) {
    var c := ContextOf(reg, chain);
    && (forall e <- reg.entries :: EntryOk(e, c))
    && NoRepeat(Bag(ShortIdsIn(), reg.entries))
    && NoRepeat(Bag(NamesIn(), reg.entries))
    && NoRepeat(Bag(KeysIn(c), reg.entries))
    && exists e <- reg.entries :: Known(e) && ParseEntry(e).value.id == chain.Principal()
  }

  /** `entries` holds exactly the verified entries of a registry that passes. */
  predicate Accepts(reg: PrincipalRegistry, chain: AuthorityChain, entries: map<PrincipalId, VerifiedEntry>) {
    && RegistryOk(reg, chain)
    && (forall id <- entries :: exists e <- reg.entries :: Known(e) && ParseEntry(e).value.id == id)
    && forall e <- reg.entries | Known(e) ::
         ParseEntry(e).value.id in entries && entries[ParseEntry(e).value.id] == Verified(e, ContextOf(reg, chain))
  }

  // The keys that come up before the first failing check, and the failure that is reported.

  function Second<S, T>(o: Option<(S, T)>): Option<T> {
    if o.Some? then Some(o.value.1) else None
  }

  function DeviceKeysMet(b: DeviceBinding, id: PrincipalId, root: Option<PublicKey>): seq<PublicKey> {
    if b.device.None? || root.None? then []
    else
      var d := b.device.value;
      match CheckDelegation(d, id, root.value, PURPOSE_DEVICE, EntryDevices)
      case Failure(_) => []
      case Success(device) =>
        var own := [device] + OptSeq(KeyOf(d.delegatedEncryption));
        match VerifyApprovalSlot(b.approval, id, root.value)
        case Failure(_) => own
        case Success(approval) => own + OptSeq(Second(approval))
  }

  function DevicesKeysMet(bs: seq<DeviceBinding>, id: PrincipalId, root: Option<PublicKey>, daemons: set<PrincipalId>)
    : seq<PublicKey>
  {
    if bs == [] then []
    else
      var m := |bs| - 1;
      match VerifyBindings(bs[..m], id, root, daemons)
      case Failure(_) => DevicesKeysMet(bs[..m], id, root, daemons)
      case Success(init) => BindingsKeys(init) + DeviceKeysMet(bs[m], id, root)
  }

  function KeysMet(e: RegistryEntry, id: PrincipalId, kind: PrincipalKind, c: Context): seq<PublicKey> {
    if id == c.chain.Principal() && (kind != Human || e.frozen) then []
    else if FieldRules(e, kind).Fail? then []
    else
      match EntryRoots(e, id, kind, c.chain)
      case Failure(_) => []
      case Success(r) => HeadKeys(r.0, r.1, id) + DevicesKeysMet(e.devices, id, Last(r.0), c.daemons)
  }

  function ParsedKeysMet(e: RegistryEntry, p: Parsed, c: Context): seq<PublicKey> {
    match p.kind
    case None => [p.id.genesis]
    case Some(kind) => KeysMet(e, p.id, kind, c)
  }

  predicate EntryVerifies(e: RegistryEntry, p: Parsed, c: Context) {
    p.kind.Some? ==> VerifyEntry(e, p.id, p.kind.value, c).Success?
  }

  predicate IdsOk(es: seq<RegistryEntry>) {
    (forall e <- es :: ParseEntry(e).Success?) && NoRepeat(Bag(ShortIdsIn(), es))
  }

  predicate NamesOk(es: seq<RegistryEntry>) {
    (forall e <- es :: NameOk(e)) && NoRepeat(Bag(NamesIn(), es))
  }

  predicate EntriesOk(es: seq<RegistryEntry>, c: Context) {
    && (forall e <- es :: ParseEntry(e).Success? && EntryVerifies(e, ParseEntry(e).value, c))
    && NoRepeat(Bag(KeysIn(c), es))
  }

  /** Entry `n` is the first that the loop over ids refuses: its id is not canonical or repeats a short id, or else
    * its kind is unspecified. */
  predicate IdRefused(es: seq<RegistryEntry>, n: nat, error: Error)
    requires n < |es|
  {
    && IdsOk(es[..n])
    && var id := ParseId(es[n]);
       if id.Failure? || ShortId(id.value) in Bag(ShortIdsIn(), es[..n]) then error == Bad(EntryPrincipalId)
       else es[n].kind == 0 && error == Bad(EntryKind)
  }

  /** Entry `n` is the first that the loop over entries refuses: a key that it shows before its first failing check
    * repeats an earlier one, or else `error` is the failure of that check. */
  predicate EntryRefused(es: seq<RegistryEntry>, n: nat, c: Context, error: Error)
    requires n < |es|
  {
    && EntriesOk(es[..n], c) && ParseEntry(es[n]).Success?
    && var p := ParseEntry(es[n]).value;
       if NoRepeat(Bag(KeysIn(c), es[..n]) + multiset(ParsedKeysMet(es[n], p, c))) then
         p.kind.Some? && VerifyEntry(es[n], p.id, p.kind.value, c) == Failure(error)
       else
         error == Bad(Entries)
  }

  /** What a refused registry is refused for. */
  predicate Reports(reg: PrincipalRegistry, chain: AuthorityChain, error: Error) {
    var es, c := reg.entries, ContextOf(reg, chain);
    if !IdsOk(es) then exists n | 0 <= n < |es| :: IdRefused(es, n, error)
    else if !NamesOk(es) then error == Bad(EntryName)
    else if !EntriesOk(es, c) then exists n | 0 <= n < |es| :: EntryRefused(es, n, c, error)
    else error == Bad(Entries)
  }
}
