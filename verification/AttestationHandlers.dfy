/** The attestation module as the chain runs it: state updated in place, loops and early returns. */
module AttestationHandlers {
  import opened Types
  import opened Ids
  import opened Ledger
  import opened Attestation

  /** Check a submission's signatures one by one, counting the valid ones. */
  method ValidateSignatures(c: Scheme, set_: AttestorSet, digest: Bytes32, submitter: Address, timestamp: u64,
                            sigs: seq<Signature>) returns (r: Outcome<Error>)
    ensures r == Validate(c, set_, digest, submitter, timestamp, sigs, 0)
  {
    var members := set k | k in set_.members;
    var seen: set<PubKey> := {};
    var valid: u16 := 0;
    for i := 0 to |sigs|
      invariant seen == set j | 0 <= j < i :: sigs[j].pubkey
      invariant valid == Min(i, 0xFFFF)
      invariant Validate(c, set_, digest, submitter, timestamp, sigs, 0)
             == Validate(c, set_, digest, submitter, timestamp, sigs, i)
    {
      var attested := sigs[i];
      if attested.pubkey in seen {
        return Fail(DuplicateSignaturePubkey);
      }
      seen := seen + {attested.pubkey};
      if attested.pubkey !in members {
        return Fail(UnknownAttestorPubkey);
      }
      if !c.isPoint(attested.pubkey) {
        return Fail(InvalidAttestorPubkey);
      }
      if |attested.sig| != 64 {
        return Fail(BadSignatureLength(|attested.sig|));
      }
      if !c.verify(attested.pubkey, digest, attested.sig) {
        return Fail(InvalidSignature(attested.pubkey, digest, submitter, timestamp));
      }
      valid := Min(0xFFFF, valid + 1);
    }
    var valid8: u8 := Min(valid, 255);
    if valid8 < set_.threshold {
      return Fail(BelowThreshold(valid8, set_.threshold));
    }
    return Pass;
  }

  class AttestationModule {
    const scheme: Scheme
    const bank: Bank

    var schemas: map<SchemaId, Schema>
    var attestorSets: map<AttestorSetId, AttestorSet>
    var attestations: map<AttestationId, Record>
    var treasury: Option<Address>
    var avowTokenId: Option<TokenId>
    var attestationFee: Option<u128>
    var schemaRegistrationFee: Option<u128>
    var attestorSetFee: Option<u128>
    var totalTreasuryCollected: u128
    var builderFeesCollected: map<Address, u128>
    var maxBuilderBps: Option<u16>
    var events: seq<Event>

    constructor (scheme: Scheme, bank: Bank)
      ensures this.scheme == scheme && this.bank == bank && Now() == EMPTY
    {
      this.scheme, this.bank := scheme, bank;
      schemas, attestorSets, attestations := map[], map[], map[];
      treasury, avowTokenId := None, None;
      attestationFee, schemaRegistrationFee, attestorSetFee := None, None, None;
      totalTreasuryCollected, builderFeesCollected, maxBuilderBps := 0, map[], None;
      events := [];
    }

    /** The stored state, as a value. */
    function Now(): State
      reads this
    {
      State(schemas, attestorSets, attestations, treasury, avowTokenId, attestationFee, schemaRegistrationFee,
            attestorSetFee, totalTreasuryCollected, builderFeesCollected, maxBuilderBps, events)
    }

    /** Put every stored field back: the unwinding of a failed transaction. */
    method Restore(s: State)
      modifies this
      ensures Now() == s
    {
      schemas, attestorSets, attestations := s.schemas, s.sets, s.attestations;
      treasury, avowTokenId := s.treasury, s.avow;
      attestationFee, schemaRegistrationFee, attestorSetFee := s.attestationFee, s.schemaFee, s.setFee;
      totalTreasuryCollected, builderFeesCollected := s.treasuryCollected, s.builderCollected;
      maxBuilderBps, events := s.maxBuilderBps, s.log;
    }

    method AddToTreasury(amount: nat)
      modifies this`totalTreasuryCollected
      ensures totalTreasuryCollected == SaturatingAdd128(old(totalTreasuryCollected), amount)
    {
      totalTreasuryCollected := SaturatingAdd128(totalTreasuryCollected, amount);
    }

    method AddToBuilder(addr: Address, amount: nat)
      modifies this`builderFeesCollected
      ensures builderFeesCollected
           == old(builderFeesCollected)[addr := SaturatingAdd128(Get(old(builderFeesCollected), addr, 0), amount)]
    {
      var current := Get(builderFeesCollected, addr, 0);
      builderFeesCollected := builderFeesCollected[addr := SaturatingAdd128(current, amount)];
    }

    method ChargeTreasury(submitter: Address, amount: nat) returns (r: Outcome<Error>)
      modifies this`totalTreasuryCollected, bank
      ensures r == Reply(ChargeToTreasury(old(Now()), old(bank.balances), submitter, amount))
      ensures r.Pass? ==> Done(Now(), bank.balances) == ChargeToTreasury(old(Now()), old(bank.balances), submitter, amount)
    {
      if amount == 0 {
        return Pass;
      }
      if avowTokenId.None? || treasury.None? {
        return Fail(ChainNotConfigured);
      }
      var ok := bank.TransferFrom(User(submitter), User(treasury.value), amount);
      if !ok {
        return Fail(InsufficientFunds);
      }
      AddToTreasury(amount);
      return Pass;
    }

    method ChargeBuilder(submitter: Address, builder: Address, amount: nat) returns (r: Outcome<Error>)
      modifies this`builderFeesCollected, bank
      ensures r == Reply(ChargeToBuilder(old(Now()), old(bank.balances), submitter, builder, amount))
      ensures r.Pass? ==> Done(Now(), bank.balances) == ChargeToBuilder(old(Now()), old(bank.balances), submitter,
                  builder, amount)
    {
      if amount == 0 {
        return Pass;
      }
      if avowTokenId.None? {
        return Fail(ChainNotConfigured);
      }
      var ok := bank.TransferFrom(User(submitter), User(builder), amount);
      if !ok {
        return Fail(InsufficientFunds);
      }
      AddToBuilder(builder, amount);
      return Pass;
    }

    /** First loop of `seed_from_config`. */
    method SeedInitialSets(sets: seq<AttestorSet>) returns (r: Outcome<Error>)
      modifies this`attestorSets
      ensures match SeedSets(scheme, old(Now()), sets)
              case Success(s) => r == Pass && Now() == s
              case Failure(e) => r == Fail(e)
    {
      ghost var s0 := Now();
      for i := 0 to |sets|
        invariant SeedSets(scheme, s0, sets[..i]) == Success(Now())
      {
        var initial := sets[i];
        assert sets[..i + 1][..i] == sets[..i];
        if SeedSets(scheme, s0, sets[..i + 1]).Failure? { SeedSetsStop(scheme, s0, sets, i + 1); }
        if initial.members == [] {
          return Fail(EmptyAttestorSet);
        }
        if initial.threshold == 0 {
          return Fail(ZeroThreshold);
        }
        if initial.threshold > |initial.members| {
          return Fail(ThresholdExceedsMembers(initial.threshold, |initial.members|));
        }
        var sorted := Sort(initial.members);
        var id := scheme.setId(sorted, initial.threshold);
        if id in attestorSets {
          return Fail(DuplicateAttestorSet);
        }
        attestorSets := attestorSets[id := AttestorSet(sorted, initial.threshold)];
      }
      assert sets[..|sets|] == sets;
      return Pass;
    }

    /** Second loop of `seed_from_config`. */
    method SeedInitialSchemas(cap: u16, initial: seq<Schema>) returns (r: Outcome<Error>)
      modifies this`schemas
      ensures match SeedSchemas(scheme, old(Now()), cap, initial)
              case Success(s) => r == Pass && Now() == s
              case Failure(e) => r == Fail(e)
    {
      ghost var s0 := Now();
      for i := 0 to |initial|
        invariant SeedSchemas(scheme, s0, cap, initial[..i]) == Success(Now())
      {
        var schema := initial[i];
        assert initial[..i + 1][..i] == initial[..i];
        if SeedSchemas(scheme, s0, cap, initial[..i + 1]).Failure? { SeedSchemasStop(scheme, s0, cap, initial, i + 1); }
        if schema.bps > cap {
          return Fail(FeeRoutingExceedsCap(schema.bps, cap));
        }
        if (schema.bps > 0) != schema.routeTo.Some? {
          return Fail(OrphanFeeRouting);
        }
        if schema.attestorSet !in attestorSets {
          return Fail(UnknownAttestorSet);
        }
        var id := scheme.schemaId(schema.owner, schema.name, schema.version);
        if id in schemas {
          return Fail(DuplicateSchema);
        }
        schemas := schemas[id := schema];
      }
      assert initial[..|initial|] == initial;
      return Pass;
    }

    /** Genesis: store the parameters, then register each configured set and schema in order. */
    method SeedFromConfig(config: Config) returns (r: Outcome<Error>)
      modifies this
      ensures match Seed(scheme, old(Now()), config)
              case Success(s) => r == Pass && Now() == s
              case Failure(e) => r == Fail(e)
    {
      treasury := Some(config.treasury);
      avowTokenId := Some(config.avow);
      attestationFee := Some(config.attestationFee);
      schemaRegistrationFee := Some(config.schemaFee);
      attestorSetFee := Some(config.setFee);
      maxBuilderBps := Some(config.maxBuilderBps);
      r := SeedInitialSets(config.sets);
      if r.Fail? {
        return;
      }
      r := SeedInitialSchemas(config.maxBuilderBps, config.schemas);
    }

    method HandleRegisterAttestorSet(sender: Address, members: seq<PubKey>, threshold: u8)
      returns (r: Outcome<Error>)
      modifies this, bank
      ensures r == Reply(RegisterSet(scheme, old(Now()), old(bank.balances), sender, members, threshold))
      ensures r.Pass? ==> Done(Now(), bank.balances) == RegisterSet(scheme, old(Now()), old(bank.balances), sender,
                  members, threshold)
    {
      if members == [] {
        return Fail(EmptyAttestorSet);
      }
      if threshold == 0 {
        return Fail(ZeroThreshold);
      }
      if threshold > |members| {
        return Fail(ThresholdExceedsMembers(threshold, |members|));
      }
      var sorted := Sort(members);
      var id := scheme.setId(sorted, threshold);
      if id in attestorSets {
        return Fail(DuplicateAttestorSet);
      }
      var charged := ChargeTreasury(sender, Or(attestorSetFee, DEFAULT_ATTESTOR_SET_FEE));
      if charged.Fail? {
        return charged;
      }
      attestorSets := attestorSets[id := AttestorSet(sorted, threshold)];
      events := events + [AttestorSetRegistered(id, sorted, threshold, sender)];
      return Pass;
    }

    method HandleRegisterSchema(sender: Address, name: Bytes, version: u32, attestorSet: AttestorSetId, bps: u16,
                                routeTo: Option<Address>, shape: Bytes32) returns (r: Outcome<Error>)
      modifies this, bank
      ensures r == Reply(RegisterSchema(scheme, old(Now()), old(bank.balances), Schema(sender, name, version,
                  attestorSet, bps, routeTo, shape)))
      ensures r.Pass? ==> Done(Now(), bank.balances) == RegisterSchema(scheme, old(Now()), old(bank.balances),
                  Schema(sender, name, version, attestorSet, bps, routeTo, shape))
    {
      var cap := Or(maxBuilderBps, DEFAULT_MAX_BUILDER_BPS);
      if bps > cap {
        return Fail(FeeRoutingExceedsCap(bps, cap));
      }
      if (bps > 0) != routeTo.Some? {
        return Fail(OrphanFeeRouting);
      }
      if attestorSet !in attestorSets {
        return Fail(UnknownAttestorSet);
      }
      var id := scheme.schemaId(sender, name, version);
      if id in schemas {
        return Fail(DuplicateSchema);
      }
      var charged := ChargeTreasury(sender, Or(schemaRegistrationFee, DEFAULT_SCHEMA_REGISTRATION_FEE));
      if charged.Fail? {
        return charged;
      }
      var schema := Schema(sender, name, version, attestorSet, bps, routeTo, shape);
      schemas := schemas[id := schema];
      events := events + [SchemaRegistered(id, schema)];
      return Pass;
    }

    method HandleSubmitAttestation(sender: Address, board: SchemaId, payload: PayloadHash, sigs: seq<Signature>)
      returns (r: Outcome<Error>)
      modifies this, bank
      ensures r == Reply(Submit(scheme, old(Now()), old(bank.balances), sender, board, payload, sigs))
      ensures r.Pass? ==> Done(Now(), bank.balances) == Submit(scheme, old(Now()), old(bank.balances), sender, board,
                  payload, sigs)
    {
      if board !in schemas {
        return Fail(UnknownSchema);
      }
      var schema := schemas[board];
      var id := scheme.attestationId(board, payload);
      if id in attestations {
        return Fail(DuplicateAttestation);
      }
      if schema.attestorSet !in attestorSets {
        return Fail(MissingAttestorSet);
      }
      var digest := scheme.digest(board, payload, sender, TIMESTAMP);
      var checked := ValidateSignatures(scheme, attestorSets[schema.attestorSet], digest, sender, TIMESTAMP, sigs);
      if checked.Fail? {
        return checked;
      }
      var (builderShare, treasuryShare) := SplitFee(Or(attestationFee, DEFAULT_ATTESTATION_FEE), schema.bps);
      var charged := ChargeTreasury(sender, treasuryShare);
      if charged.Fail? {
        return charged;
      }
      if schema.routeTo.Some? && builderShare != 0 {
        charged := ChargeBuilder(sender, schema.routeTo.value, builderShare);
        if charged.Fail? {
          return charged;
        }
      }
      attestations := attestations[id := Record(board, payload, sender, TIMESTAMP, sigs)];
      events := events + [AttestationSubmitted(board, payload, sender, |sigs|)];
      return Pass;
    }

    /** Dispatch one message; a failed call leaves the module and the bank as they were. */
    method Call(sender: Address, m: Message) returns (r: Outcome<Error>)
      modifies this, bank
      ensures r == Reply(Step(scheme, old(Now()), old(bank.balances), sender, m))
      ensures r.Pass? ==> Done(Now(), bank.balances) ==
                            Step(scheme, old(Now()), old(bank.balances), sender, m)
      ensures r.Fail? ==> Now() == old(Now()) && bank.balances == old(bank.balances)
    {
      var before, funds := Now(), bank.balances;
      match m {
        case RegisterAttestorSet(members, threshold) =>
          r := HandleRegisterAttestorSet(sender, members, threshold);
        case RegisterSchemaCall(name, version, set_, bps, routeTo, shape) =>
          r := HandleRegisterSchema(sender, name, version, set_, bps, routeTo, shape);
        case SubmitAttestation(board, payload, sigs) =>
          r := HandleSubmitAttestation(sender, board, payload, sigs);
      }
      if r.Fail? {
        Restore(before);
        bank.balances := funds;
      }
    }
  }
}
