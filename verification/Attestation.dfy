/** The attestation module's records, rules and call effects, as functions of its state. */
module Attestation {
  import opened Types
  import opened Ids
  import opened Ledger

  const DEFAULT_MAX_BUILDER_BPS: u16 := 5000
  const DEFAULT_ATTESTATION_FEE: u128 := 1_000_000
  const DEFAULT_SCHEMA_REGISTRATION_FEE: u128 := 100_000_000_000
  const DEFAULT_ATTESTOR_SET_FEE: u128 := 10_000_000_000

  const MAX_ATTESTOR_SET_MEMBERS: nat := 64
  const MAX_ATTESTATION_SIGNATURES: nat := 64

  /** The chain clips these lists when it decodes a message; genesis lists are not clipped. */
  type MemberList = s: seq<PubKey> | |s| <= MAX_ATTESTOR_SET_MEMBERS
  type SignatureList = s: seq<Signature> | |s| <= MAX_ATTESTATION_SIGNATURES

  datatype AttestorSet = AttestorSet(members: seq<PubKey>, threshold: u8)

  datatype Signature = Signature(pubkey: PubKey, sig: Bytes)

  datatype Schema = Schema(
    owner: Address, name: Bytes, version: u32, attestorSet: AttestorSetId,
    bps: u16, routeTo: Option<Address>, shape: Bytes32)

  datatype Record = Record(
    schema: SchemaId, payload: PayloadHash, submitter: Address, timestamp: u64, signatures: seq<Signature>)

  datatype Config = Config(
    treasury: Address, avow: TokenId,
    attestationFee: u128, schemaFee: u128, setFee: u128,
    sets: seq<AttestorSet>, schemas: seq<Schema>, maxBuilderBps: u16)

  datatype Error =
    | EmptyAttestorSet
    | ZeroThreshold
    | ThresholdExceedsMembers(threshold: u8, count: nat)
    | DuplicateAttestorSet
    | DuplicateSchema
    | UnknownAttestorSet
    | FeeRoutingExceedsCap(bps: u16, cap: u16)
    | OrphanFeeRouting
    | UnknownSchema
    | DuplicateAttestation
    | DuplicateSignaturePubkey
    | UnknownAttestorPubkey
    | InvalidAttestorPubkey
    | BadSignatureLength(actual: nat)
    | InvalidSignature(pubkey: PubKey, digest: Bytes32, submitter: Address, timestamp: u64)
    | BelowThreshold(provided: u8, required: u8)
    | MissingAttestorSet
    | ChainNotConfigured
    | InsufficientFunds  // the bank's own refusal, passed through

  datatype Event =
    | AttestorSetRegistered(setId: AttestorSetId, members: seq<PubKey>, threshold: u8, registeredBy: Address)
    | SchemaRegistered(schemaId: SchemaId, schema: Schema)
    | AttestationSubmitted(board: SchemaId, payload: PayloadHash, submitter: Address, signatureCount: nat)

  datatype State = State(
    schemas: map<SchemaId, Schema>,
    sets: map<AttestorSetId, AttestorSet>,
    attestations: map<AttestationId, Record>,
    treasury: Option<Address>,
    avow: Option<TokenId>,
    attestationFee: Option<u128>,
    schemaFee: Option<u128>,
    setFee: Option<u128>,
    treasuryCollected: u128,
    builderCollected: map<Address, u128>,
    maxBuilderBps: Option<u16>,
    log: seq<Event>)

  const EMPTY: State := State(map[], map[], map[], None, None, None, None, None, 0, map[], None, [])

  function Or<T>(o: Option<T>, default: T): T {
    if o.Some? then o.value else default
  }

  // ----- Fees -----

  /** `(builder share, treasury share)` of an attestation fee, in the wrapping u128 arithmetic of a release build. */
  function SplitFee(total: u128, bps: u16): (u128, u128) {
    var builder := Wrap128(Wrap128(total / 10_000 * bps) + Wrap128((total % 10_000) * bps) / 10_000);
    (builder, SaturatingSub(total, builder))
  }

  /** What a call comes to: the new state and balances, or the first error. */
  datatype Verdict = Done(state: State, funds: Balances) | Refused(error: Error)

  function Reply(v: Verdict): Outcome<Error> {
    if v.Done? then Pass else Fail(v.error)
  }

  function ChargeToTreasury(s: State, l: Balances, payer: Address, amount: nat): Verdict {
    if amount == 0 then Done(s, l)
    else if s.avow.None? || s.treasury.None? then Refused(ChainNotConfigured)
    else
      match Pay(l, Transfer(User(payer), User(s.treasury.value), amount))
      case None => Refused(InsufficientFunds)
      case Some(l1) => Done(s.(treasuryCollected := SaturatingAdd128(s.treasuryCollected, amount)), l1)
  }

  function ChargeToBuilder(s: State, l: Balances, payer: Address, builder: Address, amount: nat): Verdict {
    if amount == 0 then Done(s, l)
    else if s.avow.None? then Refused(ChainNotConfigured)
    else
      match Pay(l, Transfer(User(payer), User(builder), amount))
      case None => Refused(InsufficientFunds)
      case Some(l1) =>
        var total := SaturatingAdd128(Get(s.builderCollected, builder, 0), amount);
        Done(s.(builderCollected := s.builderCollected[builder := total]), l1)
  }

  // ----- Signatures -----

  /** What is wrong with the i-th signature of a submission, if anything. */
  function Fault(c: Scheme, set_: AttestorSet, digest: Bytes32, submitter: Address, timestamp: u64,
                 sigs: seq<Signature>, i: nat): Option<Error>
    requires i < |sigs|
  {
    var s := sigs[i];
    if exists j :: 0 <= j < i && sigs[j].pubkey == s.pubkey then Some(DuplicateSignaturePubkey)
    else if s.pubkey !in set_.members then Some(UnknownAttestorPubkey)
    else if !c.isPoint(s.pubkey) then Some(InvalidAttestorPubkey)
    else if |s.sig| != 64 then Some(BadSignatureLength(|s.sig|))
    else if !c.verify(s.pubkey, digest, s.sig) then Some(InvalidSignature(s.pubkey, digest, submitter, timestamp))
    else None
  }

  /** An M-of-N quorum: distinct members of the set, each verifying over the digest, at least `threshold` of them. */
  ghost predicate Quorum(c: Scheme, set_: AttestorSet, digest: Bytes32, sigs: seq<Signature>) {
    && (forall i, j :: 0 <= i < j < |sigs| ==> sigs[i].pubkey != sigs[j].pubkey)
    && (forall s :: s in sigs ==>
          s.pubkey in set_.members && c.isPoint(s.pubkey) && |s.sig| == 64 && c.verify(s.pubkey, digest, s.sig))
    && set_.threshold <= |sigs|
  }

  /** The verdict of `validate_signatures`: the first faulty signature's error, then the count. */
  function Validate(c: Scheme, set_: AttestorSet, digest: Bytes32, submitter: Address, timestamp: u64,
                    sigs: seq<Signature>, i: nat): Outcome<Error>
    requires i <= |sigs|
    decreases |sigs| - i
  {
    if i == |sigs| then
      var valid: u8 := Min(|sigs|, 255);
      if set_.threshold <= valid then Pass else Fail(BelowThreshold(valid, set_.threshold))
    else
      match Fault(c, set_, digest, submitter, timestamp, sigs, i)
      case Some(e) => Fail(e)
      case None => Validate(c, set_, digest, submitter, timestamp, sigs, i + 1)
  }

  // ----- Calls -----

  function RegisterSet(c: Scheme, s: State, l: Balances, sender: Address, members: seq<PubKey>, threshold: u8): Verdict {
    if members == [] then Refused(EmptyAttestorSet)
    else if threshold == 0 then Refused(ZeroThreshold)
    else if threshold > |members| then Refused(ThresholdExceedsMembers(threshold, |members|))
    else
      var sorted := Sort(members);
      var id := c.setId(sorted, threshold);
      if id in s.sets then Refused(DuplicateAttestorSet)
      else
        match ChargeToTreasury(s, l, sender, Or(s.setFee, DEFAULT_ATTESTOR_SET_FEE))
        case Refused(e) => Refused(e)
        case Done(s1, l1) =>
          Done(s1.(sets := s.sets[id := AttestorSet(sorted, threshold)],
                   log := s.log + [AttestorSetRegistered(id, sorted, threshold, sender)]), l1)
  }

  function RegisterSchema(c: Scheme, s: State, l: Balances, schema: Schema): Verdict {
    var cap := Or(s.maxBuilderBps, DEFAULT_MAX_BUILDER_BPS);
    var id := c.schemaId(schema.owner, schema.name, schema.version);
    if schema.bps > cap then Refused(FeeRoutingExceedsCap(schema.bps, cap))
    else if (schema.bps > 0) != schema.routeTo.Some? then Refused(OrphanFeeRouting)
    else if schema.attestorSet !in s.sets then Refused(UnknownAttestorSet)
    else if id in s.schemas then Refused(DuplicateSchema)
    else
      match ChargeToTreasury(s, l, schema.owner, Or(s.schemaFee, DEFAULT_SCHEMA_REGISTRATION_FEE))
      case Refused(e) => Refused(e)
      case Done(s1, l1) =>
        Done(s1.(schemas := s.schemas[id := schema], log := s.log + [SchemaRegistered(id, schema)]), l1)
  }

  /** Attestations are stamped 0 until handlers can see the block header. */
  const TIMESTAMP: u64 := 0

  /** The fee part of a submission: the treasury's share first, then the builder's. */
  function ChargeSubmission(s: State, l: Balances, sender: Address, schema: Schema): Verdict {
    var (builder, treasury) := SplitFee(Or(s.attestationFee, DEFAULT_ATTESTATION_FEE), schema.bps);
    match ChargeToTreasury(s, l, sender, treasury)
    case Refused(e) => Refused(e)
    case Done(s1, l1) =>
      if schema.routeTo.Some? then ChargeToBuilder(s1, l1, sender, schema.routeTo.value, builder) else Done(s1, l1)
  }

  function Submit(c: Scheme, s: State, l: Balances, sender: Address, board: SchemaId, payload: PayloadHash,
                  sigs: seq<Signature>): Verdict
  {
    if board !in s.schemas then Refused(UnknownSchema)
    else
      var schema := s.schemas[board];
      var id := c.attestationId(board, payload);
      if id in s.attestations then Refused(DuplicateAttestation)
      else if schema.attestorSet !in s.sets then Refused(MissingAttestorSet)
      else
        var digest := c.digest(board, payload, sender, TIMESTAMP);
        match Validate(c, s.sets[schema.attestorSet], digest, sender, TIMESTAMP, sigs, 0)
        case Fail(e) => Refused(e)
        case Pass =>
          match ChargeSubmission(s, l, sender, schema)
          case Refused(e) => Refused(e)
          case Done(s1, l1) =>
            Done(s1.(attestations := s.attestations[id := Record(board, payload, sender, TIMESTAMP, sigs)],
                     log := s.log + [AttestationSubmitted(board, payload, sender, |sigs|)]), l1)
  }

  datatype Message =
    | RegisterAttestorSet(members: MemberList, threshold: u8)
    | RegisterSchemaCall(name: Bytes, version: u32, attestorSet: AttestorSetId, bps: u16,
                         routeTo: Option<Address>, shape: Bytes32)
    | SubmitAttestation(board: SchemaId, payload: PayloadHash, signatures: SignatureList)

  /** One call of the module: its new state and balances, or the first error. */
  function Step(c: Scheme, s: State, l: Balances, sender: Address, m: Message): Verdict {
    match m
    case RegisterAttestorSet(members, threshold) => RegisterSet(c, s, l, sender, members, threshold)
    case RegisterSchemaCall(name, version, set_, bps, routeTo, shape) =>
      RegisterSchema(c, s, l, Schema(sender, name, version, set_, bps, routeTo, shape))
    case SubmitAttestation(board, payload, sigs) => Submit(c, s, l, sender, board, payload, sigs)
  }

  // ----- Genesis -----

  function SeedParameters(s: State, config: Config): State {
    s.(treasury := Some(config.treasury), avow := Some(config.avow),
       attestationFee := Some(config.attestationFee), schemaFee := Some(config.schemaFee),
       setFee := Some(config.setFee), maxBuilderBps := Some(config.maxBuilderBps))
  }

  function SeedSet(c: Scheme, s: State, initial: AttestorSet): Result<State, Error> {
    var id := c.setId(Sort(initial.members), initial.threshold);
    if initial.members == [] then Failure(EmptyAttestorSet)
    else if initial.threshold == 0 then Failure(ZeroThreshold)
    else if initial.threshold > |initial.members| then
      Failure(ThresholdExceedsMembers(initial.threshold, |initial.members|))
    else if id in s.sets then Failure(DuplicateAttestorSet)
    else Success(s.(sets := s.sets[id := AttestorSet(Sort(initial.members), initial.threshold)]))
  }

  function SeedSets(c: Scheme, s: State, sets: seq<AttestorSet>): Result<State, Error> {
    if sets == [] then Success(s)
    else
      match SeedSets(c, s, sets[..|sets| - 1])
      case Failure(e) => Failure(e)
      case Success(s1) => SeedSet(c, s1, sets[|sets| - 1])
  }

  function SeedSchema(c: Scheme, s: State, cap: u16, schema: Schema): Result<State, Error> {
    var id := c.schemaId(schema.owner, schema.name, schema.version);
    if schema.bps > cap then Failure(FeeRoutingExceedsCap(schema.bps, cap))
    else if (schema.bps > 0) != schema.routeTo.Some? then Failure(OrphanFeeRouting)
    else if schema.attestorSet !in s.sets then Failure(UnknownAttestorSet)
    else if id in s.schemas then Failure(DuplicateSchema)
    else Success(s.(schemas := s.schemas[id := schema]))
  }

  function SeedSchemas(c: Scheme, s: State, cap: u16, schemas: seq<Schema>): Result<State, Error> {
    if schemas == [] then Success(s)
    else
      match SeedSchemas(c, s, cap, schemas[..|schemas| - 1])
      case Failure(e) => Failure(e)
      case Success(s1) => SeedSchema(c, s1, cap, schemas[|schemas| - 1])
  }

  /** `seed_from_config`: parameters, then the sets in order, then the schemas in order. */
  function Seed(c: Scheme, s: State, config: Config): Result<State, Error> {
    match SeedSets(c, SeedParameters(s, config), config.sets)
    case Failure(e) => Failure(e)
    case Success(s1) => SeedSchemas(c, s1, config.maxBuilderBps, config.schemas)
  }

  /** An entry that stops the seeding of a prefix stops the whole list with the same error. */
  lemma {:induction false} SeedSetsStop(c: Scheme, s: State, sets: seq<AttestorSet>, i: nat)
    requires i <= |sets| && SeedSets(c, s, sets[..i]).Failure?
    ensures SeedSets(c, s, sets) == SeedSets(c, s, sets[..i])
    decreases |sets|
  {
    if i < |sets| {
      assert sets[..|sets| - 1][..i] == sets[..i];
      SeedSetsStop(c, s, sets[..|sets| - 1], i);
    } else {
      assert sets[..i] == sets;
    }
  }

  lemma {:induction false} SeedSchemasStop(c: Scheme, s: State, cap: u16, schemas: seq<Schema>, i: nat)
    requires i <= |schemas| && SeedSchemas(c, s, cap, schemas[..i]).Failure?
    ensures SeedSchemas(c, s, cap, schemas) == SeedSchemas(c, s, cap, schemas[..i])
    decreases |schemas|
  {
    if i < |schemas| {
      assert schemas[..|schemas| - 1][..i] == schemas[..i];
      SeedSchemasStop(c, s, cap, schemas[..|schemas| - 1], i);
    } else {
      assert schemas[..i] == schemas;
    }
  }
}
