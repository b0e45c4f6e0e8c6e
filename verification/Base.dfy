/** Option and Result, as the Rust code uses them. */
module Wrappers {
  datatype Option<+T> = None | Some(value: T) {
    predicate IsFailure() { None? }
    function PropagateFailure<U>(): Option<U>
      requires None?
    { None }
    function Extract(): T
      requires Some?
    { value }
  }

  datatype Result<+T, +E> = Success(value: T) | Failure(error: E) {
    predicate IsFailure() { Failure? }
    function PropagateFailure<U>(): Result<U, E>
      requires Failure?
    { Failure(error) }
    function Extract(): T
      requires Success?
    { value }
  }

  /** The result of a check: `:- Need(c, e)` returns `Failure(e)` unless `c`. */
  datatype Outcome<+E> = Pass | Fail(error: E) {
    predicate IsFailure() { Fail? }
    function PropagateFailure<U>(): Result<U, E>
      requires Fail?
    { Failure(error) }
  }

  function Need<E>(condition: bool, error: E): Outcome<E> {
    if condition then Pass else Fail(error)
  }

  function OkOr<T, E>(o: Option<T>, error: E): Result<T, E> {
    match o
    case Some(v) => Success(v)
    case None => Failure(error)
  }
}

/** Bytes and the integer widths of the wire format. A Rust `str` is modelled as its UTF-8 bytes. */
module Bytes {
  type byte = i: int | 0 <= i < 256
  type Text = seq<byte>

  const U32_LIMIT: int := 0x1_0000_0000
  const U64_LIMIT: int := 0x1_0000_0000_0000_0000
  const I64_MIN: int := -0x8000_0000_0000_0000
  const I64_MAX: int := 0x7fff_ffff_ffff_ffff

  type i32 = i: int | -0x8000_0000 <= i <= 0x7fff_ffff
  type i64 = i: int | I64_MIN <= i <= I64_MAX
  type u64 = i: int | 0 <= i < U64_LIMIT

  /** `i64::saturating_add` and `i64::saturating_sub`. */
  function SaturatingAdd(a: i64, b: i64): i64 { Clamp(a + b) }

  function SaturatingSub(a: i64, b: i64): i64 { Clamp(a - b) }

  function Clamp(x: int): i64 {
    if x < I64_MIN then I64_MIN else if x > I64_MAX then I64_MAX else x
  }

  function Pow256(width: nat): (p: nat)
    ensures p > 0
  {
    if width == 0 then 1 else 256 * Pow256(width - 1)
  }

  /** `n` as `width` big-endian bytes. */
  function BigEndian(n: nat, width: nat): (bs: seq<byte>)
    ensures |bs| == width
  {
    if width == 0 then [] else BigEndian(n / 256, width - 1) + [n % 256]
  }

  function FromBigEndian(bs: seq<byte>): (n: nat)
    ensures n < Pow256(|bs|)
  {
    if bs == [] then 0 else 256 * FromBigEndian(bs[..|bs| - 1]) + bs[|bs| - 1]
  }

  lemma {:induction false} BigEndianRoundTrip(n: nat, width: nat)
    requires n < Pow256(width)
    ensures FromBigEndian(BigEndian(n, width)) == n
  {
    if width > 0 {
      BigEndianRoundTrip(n / 256, width - 1);
      assert BigEndian(n, width)[..width - 1] == BigEndian(n / 256, width - 1);
    }
  }

  lemma {:induction false} FromBigEndianRoundTrip(bs: seq<byte>)
    ensures BigEndian(FromBigEndian(bs), |bs|) == bs
  {
    if bs != [] {
      FromBigEndianRoundTrip(bs[..|bs| - 1]);
    }
  }

  lemma Widths()
    ensures Pow256(1) == 256 && Pow256(4) == U32_LIMIT && Pow256(8) == U64_LIMIT
  {
    assert Pow256(3) == 0x100_0000;
    assert Pow256(6) == 0x1_0000_0000_0000;
  }

  /** Two's complement over `width` bytes: `i` modulo `Pow256(width)`. */
  function Unsigned(i: int, width: nat): (n: nat)
    requires 0 <= 2 * i + Pow256(width) < 2 * Pow256(width)
    ensures n < Pow256(width)
  {
    if i < 0 then i + Pow256(width) else i
  }

  function Signed(n: nat, width: nat): (i: int)
    requires n < Pow256(width)
    ensures 0 <= 2 * i + Pow256(width) < 2 * Pow256(width)
    ensures Unsigned(i, width) == n
  {
    if 2 * n < Pow256(width) then n else n - Pow256(width)
  }
}

/** Public keys and the primitives that `rust_jwk_duo` and `sha2` provide. Their values are unknown
  * here: every result of this project holds for whatever functions they are. */
module Primitives {
  import opened Bytes

  type Bytes32 = b: seq<byte> | |b| == 32 witness seq(32, _ => 0)
  type Bytes64 = b: seq<byte> | |b| == 64 witness seq(64, _ => 0)
  type Bytes65 = b: seq<byte> | |b| == 65 witness seq(65, _ => 0)

  /** The SEC1 encoding of the P-256 base point, and the curve check on other encodings. */
  const BASE_POINT: Bytes65
  const CurveCheck: seq<byte> -> bool

  predicate OnCurve(b: seq<byte>) { b == BASE_POINT || CurveCheck(b) }

  /** A validated P-256 key: the 65 bytes of a SEC1 uncompressed point. */
  type PublicKey = b: seq<byte> | |b| == 65 && OnCurve(b) witness BASE_POINT

  const Sha256: seq<byte> -> Bytes32

  /** Signing by the holder of a key, named by its public half. */
  const SignBytes: (PublicKey, seq<byte>) -> Bytes64

  /** Any other signature the scheme accepts for a key and a message. */
  const AlsoAccepts: (PublicKey, seq<byte>, seq<byte>) -> bool

  predicate VerifyBytes(key: PublicKey, message: seq<byte>, signature: seq<byte>) {
    signature == SignBytes(key, message) || AlsoAccepts(key, message, signature)
  }

  /** A principal is named by its genesis key. */
  datatype PrincipalId = PrincipalId(genesis: PublicKey)

  /** A key pair for signing and one for encryption, named by their public halves. */
  datatype KeyDuo = KeyDuo(signing: PublicKey, encryption: PublicKey)
}

/** The crate's error type, without its message texts. */
module Errors {
  import opened Bytes
  import opened Primitives

  datatype Field =
    | Audience | Nonce | InReplyToNonce | NewName | BodyType | DocumentType | Subject | Length
    | PrincipalGenesis | SigningRoot | Purpose | Delegated | DelegatedEncryption | Signature | KeyField
    | Revoked | RevokedBy | OldRoot | NewRoot | Mode | HostGenesis | Device | Session
    | Signer | SignerChain | SignerSession | SignerGenesis | Signing | ApprovalKey | RequestDigest | Accept
    | RevokerGenesis | TargetGenesis | DocumentId | RecipientDevices | AttestedAt | Nanos | Messages
    | AuthorGenesis | DelegationCertField | InstanceId | ActionId | RequestId | ResourceKind | ResourceId
    | MessageKind | ExpiresAt
    | RotationPrincipal | RotationOldRoot | ApprovalDelegation | DeviceDelegation | SessionCert
    | Body | Entries | EntryPrincipalId | EntryKind | EntryName | EntryFrozen | EntryDevices | EntryAllowedHosts
    | EntryCurrentRoot | EntryRotations | DeviceApproval | HostDaemonId | Revocations | AcceptedKind | AcceptedId
    | BoundDelegation | ChainField | SelfRootedDevice | SelfRootedSession | SessionPrincipalGenesis | SessionMode
    | DevicePrincipalGenesis | DeviceSigningRoot | DevicePurpose | DeviceDelegated | DeviceNotAfter | SessionDevice
    | SessionSession | SessionNotAfter | HostVouchedDevice | HostVouchedSession | HostDevicePrincipalGenesis
    | SessionHostGenesis | SessionSubject | SignerHostVouched | ApprovalPrincipalGenesis | ApprovalDevice

  /** The `expect` calls of the code: reaching one is a panic. */
  datatype Site = HumanSelfRooted | DeviceEncryptionHalf | AuthorityEntry | ApprovalImpliesDelegation

  datatype Error =
    | UnsupportedScheme(scheme: int)
    | InvalidKey
    | NonCanonicalPrincipal
    | MalformedPrincipal
    | BadLength(field: Field, expected: nat, actual: nat)
    | ScalarOutOfRange(field: Field, scalar: int)
    | MissingField(field: Field)
    | InvalidField(field: Field)
    | NotDistinct
    | EmptySignature
    | BadSignature
    | WrongDocumentType
    | NotAuthority
    | StaleRoot
    | RootFork(principal: PrincipalId)
    | KindChanged(principal: PrincipalId)
    | RotationCycle
    | NotCurrentRoot
    | InvalidRegistry(field: Field)
    | UnknownPrincipal
    | WrongKind
    | Frozen
    | HostFrozen
    | ChainMismatch(field: Field)
    | KeyRevoked
    | Expired(field: Field)
    | NotYetValid(field: Field)
    | NotBound
    | NotVouched
    | WrongAudience
    | Skew
    | DigestMismatch
    | PeerRevocationDisabled
    | StalePeerRevocation
    | Panic(site: Site)
}
