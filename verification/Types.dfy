/** Machine widths, identifiers and result types shared by every module of the chain. */
module Types {

  const U128_MAX: nat := 0xFFFF_FFFF_FFFF_FFFF_FFFF_FFFF_FFFF_FFFF
  const U64_MAX: nat := 0xFFFF_FFFF_FFFF_FFFF
  const U32_MAX: nat := 0xFFFF_FFFF

  type u8 = x: int | 0 <= x <= 0xFF
  type u16 = x: int | 0 <= x <= 0xFFFF
  type u32 = x: int | 0 <= x <= U32_MAX
  type u64 = x: int | 0 <= x <= U64_MAX
  type u128 = x: int | 0 <= x <= U128_MAX

  type Bytes = seq<u8>
  type Bytes32 = b: Bytes | |b| == 32 witness seq(32, _ => 0)

  datatype Option<+T> = None | Some(value: T)

  datatype Result<+T, +E> = Success(value: T) | Failure(error: E)

  datatype Outcome<+E> = Pass | Fail(error: E)

  /** A chain account address; `bytes` is what the source reads through `AsRef<[u8]>`. */
  datatype Address = Address(bytes: Bytes)

  // The typed 32-byte identifiers.
  datatype SchemaId = SchemaId(hash: Bytes32)
  datatype AttestorSetId = AttestorSetId(hash: Bytes32)
  datatype PayloadHash = PayloadHash(hash: Bytes32)
  datatype PubKey = PubKey(key: Bytes32)
  datatype AttestationId = AttestationId(hash: Bytes32)
  datatype BountyId = BountyId(hash: Bytes32)
  datatype ContractId = ContractId(hash: Bytes32)
  datatype TokenId = TokenId(hash: Bytes32)

  /** SHA-256 and Ed25519 (section 5.1.7 of RFC 8032), as arbitrary functions. */
  datatype Crypto = Crypto(
    sha256: Bytes -> Bytes32,
    isPoint: PubKey -> bool,
    verify: (PubKey, Bytes32, Bytes) -> bool)

  /**
   * How identifiers and digests are derived. The state machines are proved for any derivation;
   * `Ids.Sha256Scheme` is the chain's own.
   */
  datatype Scheme = Scheme(
    setId: (seq<PubKey>, u8) -> AttestorSetId,
    schemaId: (Address, Bytes, u32) -> SchemaId,
    attestationId: (SchemaId, PayloadHash) -> AttestationId,
    bountyId: (Address, SchemaId, u64) -> BountyId,
    contractId: (Address, Bytes32, u64) -> ContractId,
    digest: (SchemaId, PayloadHash, Address, u64) -> Bytes32,
    isPoint: PubKey -> bool,
    verify: (PubKey, Bytes32, Bytes) -> bool)

  /** What `chain_state` reports: the DA height at genesis, if set, and the rollup height. */
  datatype Clock = Clock(genesisDa: Option<u64>, rollup: u64) {
    function DaHeight(): u64 {
      SaturatingAdd64(if genesisDa.Some? then genesisDa.value else 0, rollup)
    }
  }

  /** The DA height is the genesis DA height, 0 if unset, plus the rollup height, stopping at the top of the range. */
  lemma DaHeightLaw(clock: Clock)
    ensures clock.genesisDa.None? ==> clock.DaHeight() == clock.rollup
    ensures clock.genesisDa.Some? ==>
              var sum := clock.genesisDa.value + clock.rollup;
              clock.DaHeight() == if sum <= 0xFFFF_FFFF_FFFF_FFFF then sum else 0xFFFF_FFFF_FFFF_FFFF
  {}

  /** It never falls while the rollup height rises. */
  lemma DaHeightMonotone(clock: Clock, later: u64)
    requires clock.rollup <= later
    ensures clock.DaHeight() <= clock.(rollup := later).DaHeight()
  {}

  function Min(a: nat, b: nat): nat {
    if a <= b then a else b
  }

  function SaturatingAdd64(a: nat, b: nat): u64 {
    Min(U64_MAX, a + b)
  }

  function SaturatingAdd32(a: nat, b: nat): u32 {
    Min(U32_MAX, a + b)
  }

  function SaturatingAdd128(a: nat, b: nat): u128 {
    Min(U128_MAX, a + b)
  }

  function SaturatingMul128(a: nat, b: nat): u128 {
    Min(U128_MAX, a * b)
  }

  /** What unchecked u128 arithmetic keeps of a result. */
  function Wrap128(n: nat): u128 {
    n % (U128_MAX + 1)
  }

  function SaturatingSub(a: nat, b: nat): nat {
    if b <= a then a - b else 0
  }

  /** `get(key)?.unwrap_or(default)` on a state map. */
  function Get<K, V>(m: map<K, V>, k: K, default: V): V {
    if k in m then m[k] else default
  }
}
