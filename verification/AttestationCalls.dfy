/** Each attestation call: exactly when it succeeds, what it stores and announces, and what its refusals say. */
module AttestationCalls {
  import opened Types
  import opened Ids
  import opened Ledger
  import opened Attestation
  import opened AttestationProofs
  import G = Genesis

  // ----- Submitting -----

  lemma TreasuryChargeIff(s: State, l: Balances, payer: Address, d: Due)
    requires Configured(s)
    ensures var v := ChargeToTreasury(s, l, payer, d.treasury);
            && (v.Done? <==> PayAll(l, ToTreasury(s, payer, d)).Some?)
            && (v.Done? ==> PayAll(l, ToTreasury(s, payer, d)) == Some(v.funds) && v.state.avow == s.avow)
  {
    PaySingle(l, Transfer(User(payer), User(s.treasury.value), d.treasury));
  }

  lemma BuilderChargeIff(s: State, l: Balances, payer: Address, d: Due)
    requires s.avow.Some? && d.builderAddr.Some? && d.builder > 0
    ensures ChargeToBuilder(s, l, payer, d.builderAddr.value, d.builder).Done? <==> PayAll(l, ToBuilder(payer, d)).Some?
  {
    PaySingle(l, Transfer(User(payer), User(d.builderAddr.value), d.builder));
  }

  /** Both shares of the fee go through exactly when the listed transfers do. */
  lemma SubmissionChargeIff(s: State, l: Balances, sender: Address, schema: Schema)
    requires Configured(s)
    ensures ChargeSubmission(s, l, sender, schema).Done? <==>
              PayAll(l, DueTransfers(s, sender, SubmissionDue(s, schema))).Some?
  {
    var d := SubmissionDue(s, schema);
    TreasuryChargeIff(s, l, sender, d);
    PayAllConcat(l, ToTreasury(s, sender, d), ToBuilder(sender, d));
    var v := ChargeToTreasury(s, l, sender, d.treasury);
    if v.Done? && d.builderAddr.Some? { BuilderChargeIff(v.state, v.funds, sender, d); }
  }

  /**
   * A submission is accepted exactly for a known schema, a payload not attested under it before, a quorum of the
   * schema's set over this very submission at timestamp 0, and a sender who can pay the fee.
   */
  lemma SubmitIff(c: Scheme, s: State, l: Balances, sender: Address, board: SchemaId, payload: PayloadHash,
                  sigs: seq<Signature>)
    requires Sound(c, s)
    ensures Submit(c, s, l, sender, board, payload, sigs).Done? <==>
              board in s.schemas && s.schemas[board].attestorSet in s.sets
              && c.attestationId(board, payload) !in s.attestations
              && Quorum(c, s.sets[s.schemas[board].attestorSet], c.digest(board, payload, sender, 0), sigs)
              && PayAll(l, DueTransfers(s, sender, SubmissionDue(s, s.schemas[board]))).Some?
  {
    if board in s.schemas {
      var schema := s.schemas[board];
      assert SchemaSound(c, s.sets, s.maxBuilderBps.value, board, schema);
      ValidateIsQuorum(c, s.sets[schema.attestorSet], c.digest(board, payload, sender, 0), sender, 0, sigs);
      SubmissionChargeIff(s, l, sender, schema);
    }
  }

  /** It stores the submission as sent, at timestamp 0, and announces it with its signature count. */
  lemma SubmitStores(c: Scheme, s: State, l: Balances, sender: Address, board: SchemaId, payload: PayloadHash,
                     sigs: seq<Signature>)
    requires Submit(c, s, l, sender, board, payload, sigs).Done?
    ensures var t := Submit(c, s, l, sender, board, payload, sigs).state;
            t == s.(attestations := s.attestations[c.attestationId(board, payload) := Record(board, payload, sender, 0, sigs)],
                    treasuryCollected := t.treasuryCollected, builderCollected := t.builderCollected,
                    log := s.log + [AttestationSubmitted(board, payload, sender, |sigs|)])
  {
    SubmitShape(c, s, l, sender, board, payload, sigs);
  }

  // ----- Registering -----

  /** A registered set is stored with its members sorted, under the id of those members, and announced with its sender. */
  lemma RegisterSetStores(c: Scheme, s: State, l: Balances, sender: Address, members: seq<PubKey>, threshold: u8)
    requires RegisterSet(c, s, l, sender, members, threshold).Done?
    ensures Sorted(Sort(members)) && multiset(Sort(members)) == multiset(members)
    ensures var t, id := RegisterSet(c, s, l, sender, members, threshold).state, c.setId(Sort(members), threshold);
            t == s.(sets := s.sets[id := AttestorSet(Sort(members), threshold)],
                    treasuryCollected := t.treasuryCollected, builderCollected := t.builderCollected,
                    log := s.log + [AttestorSetRegistered(id, Sort(members), threshold, sender)])
  {
    RegisterSetShape(c, s, l, sender, members, threshold);
  }

  lemma RegisterSchemaStores(c: Scheme, s: State, l: Balances, a: Schema)
    requires RegisterSchema(c, s, l, a).Done?
    ensures var t, id := RegisterSchema(c, s, l, a).state, c.schemaId(a.owner, a.name, a.version);
            t == s.(schemas := s.schemas[id := a],
                    treasuryCollected := t.treasuryCollected, builderCollected := t.builderCollected,
                    log := s.log + [SchemaRegistered(id, a)])
  {
    RegisterSchemaShape(c, s, l, a);
  }

  // ----- Seeding -----

  /** Seeding stores each configured parameter in its own place, starts both counters at zero and announces nothing. */
  lemma SeedStores(c: Scheme, config: Config)
    requires Seed(c, EMPTY, config).Success?
    ensures var t := Seed(c, EMPTY, config).value;
            && t.treasury == Some(config.treasury) && t.avow == Some(config.avow)
            && t.attestationFee == Some(config.attestationFee) && t.schemaFee == Some(config.schemaFee)
            && t.setFee == Some(config.setFee) && t.maxBuilderBps == Some(config.maxBuilderBps)
            && t.treasuryCollected == 0 && t.builderCollected == map[] && t.attestations == map[] && t.log == []
  {
    G.SeedSound(c, config);
  }

  // ----- What refusals say -----

  /** Each fault names something really wrong with that signature. */
  lemma FaultTruthful(c: Scheme, set_: AttestorSet, digest: Bytes32, submitter: Address, timestamp: u64,
                      sigs: seq<Signature>, k: nat)
    requires k < |sigs| && Fault(c, set_, digest, submitter, timestamp, sigs, k).Some?
    ensures match Fault(c, set_, digest, submitter, timestamp, sigs, k).value
            case DuplicateSignaturePubkey => exists j :: 0 <= j < k && sigs[j].pubkey == sigs[k].pubkey
            case UnknownAttestorPubkey => sigs[k].pubkey !in set_.members
            case InvalidAttestorPubkey => !c.isPoint(sigs[k].pubkey)
            case BadSignatureLength(n) => n == |sigs[k].sig| != 64
            case InvalidSignature(key, d, a, t) =>
              key == sigs[k].pubkey && d == digest && a == submitter && t == timestamp
              && !c.verify(key, digest, sigs[k].sig)
            case _ => false
  {}

  lemma TreasuryRefusal(s: State, l: Balances, payer: Address, amount: nat)
    requires Configured(s)
    ensures var v := ChargeToTreasury(s, l, payer, amount);
            v.Refused? ==> v.error == InsufficientFunds && amount > Balance(l, User(payer))
  {}

  lemma RegisterSetRefusals(c: Scheme, s: State, l: Balances, sender: Address, members: seq<PubKey>, threshold: u8)
    requires Configured(s) && RegisterSet(c, s, l, sender, members, threshold).Refused?
    ensures match RegisterSet(c, s, l, sender, members, threshold).error
            case EmptyAttestorSet => members == []
            case ZeroThreshold => threshold == 0
            case ThresholdExceedsMembers(t, n) => t == threshold && n == |members| && t > n
            case DuplicateAttestorSet => c.setId(Sort(members), threshold) in s.sets
            case InsufficientFunds => s.setFee.value > Balance(l, User(sender))
            case _ => false
  {
    if members != [] && 1 <= threshold <= |members| {
      var id := c.setId(Sort(members), threshold);
      TreasuryRefusal(s, l, sender, s.setFee.value);
    }
  }

  lemma RegisterSchemaRefusals(c: Scheme, s: State, l: Balances, a: Schema)
    requires Configured(s) && RegisterSchema(c, s, l, a).Refused?
    ensures match RegisterSchema(c, s, l, a).error
            case FeeRoutingExceedsCap(bps, cap) => bps == a.bps && cap == s.maxBuilderBps.value && bps > cap
            case OrphanFeeRouting => (a.bps > 0) != a.routeTo.Some?
            case UnknownAttestorSet => a.attestorSet !in s.sets
            case DuplicateSchema => c.schemaId(a.owner, a.name, a.version) in s.schemas
            case InsufficientFunds => s.schemaFee.value > Balance(l, User(a.owner))
            case _ => false
  {
    TreasuryRefusal(s, l, a.owner, s.schemaFee.value);
  }

  lemma SubmitRefusalsTruthful(c: Scheme, s: State, l: Balances, sender: Address, board: SchemaId, payload: PayloadHash,
                               sigs: seq<Signature>)
    requires Sound(c, s) && Submit(c, s, l, sender, board, payload, sigs).Refused?
    ensures match Submit(c, s, l, sender, board, payload, sigs).error
            case UnknownSchema => board !in s.schemas
            case DuplicateAttestation => c.attestationId(board, payload) in s.attestations
            case BelowThreshold(n, t) =>
              board in s.schemas && s.schemas[board].attestorSet in s.sets && n == |sigs|
              && t == s.sets[s.schemas[board].attestorSet].threshold && n < t
            case InsufficientFunds =>
              board in s.schemas && PayAll(l, DueTransfers(s, sender, SubmissionDue(s, s.schemas[board]))).None?
            case e =>
              board in s.schemas && s.schemas[board].attestorSet in s.sets
              && exists k: nat :: k < |sigs| && Fault(c, s.sets[s.schemas[board].attestorSet],
                                                      c.digest(board, payload, sender, 0), sender, 0, sigs, k) == Some(e)
  {
    if board in s.schemas {
      var schema := s.schemas[board];
      assert SchemaSound(c, s.sets, s.maxBuilderBps.value, board, schema);
      ValidateIsQuorum(c, s.sets[schema.attestorSet], c.digest(board, payload, sender, 0), sender, 0, sigs);
      ChargeRefusals(s, l, sender, schema, 0);
      SubmissionChargeIff(s, l, sender, schema);
    }
  }
}
