/** What every call of the attestation module keeps, and what its fees and events add up to. */
module AttestationProofs {
  import opened Types
  import opened Ids
  import opened Ledger
  import opened Attestation

  // ----- Quorum -----

  /** Signature k is the first faulty one from i on. */
  ghost predicate FirstFault(c: Scheme, set_: AttestorSet, digest: Bytes32, submitter: Address, timestamp: u64,
                             sigs: seq<Signature>, i: nat, k: nat)
  {
    i <= k < |sigs| && Fault(c, set_, digest, submitter, timestamp, sigs, k).Some?
    && forall j :: i <= j < k ==> Fault(c, set_, digest, submitter, timestamp, sigs, j).None?
  }

  lemma {:induction false} ValidateFaulty(c: Scheme, set_: AttestorSet, digest: Bytes32, submitter: Address,
                                          timestamp: u64, sigs: seq<Signature>, i: nat, k: nat)
    requires FirstFault(c, set_, digest, submitter, timestamp, sigs, i, k)
    ensures Validate(c, set_, digest, submitter, timestamp, sigs, i)
         == Fail(Fault(c, set_, digest, submitter, timestamp, sigs, k).value)
    decreases k - i
  {
    if i < k { ValidateFaulty(c, set_, digest, submitter, timestamp, sigs, i + 1, k); }
  }

  /** Either some signature is the first faulty one, or only the count is left to decide. */
  lemma {:induction false} ValidateFrom(c: Scheme, set_: AttestorSet, digest: Bytes32, submitter: Address,
                                        timestamp: u64, sigs: seq<Signature>, i: nat)
    requires i <= |sigs|
    ensures (exists k :: FirstFault(c, set_, digest, submitter, timestamp, sigs, i, k))
         || ((forall k :: i <= k < |sigs| ==> Fault(c, set_, digest, submitter, timestamp, sigs, k).None?)
             && Validate(c, set_, digest, submitter, timestamp, sigs, i)
                == if set_.threshold <= |sigs| then Pass else Fail(BelowThreshold(|sigs|, set_.threshold)))
    decreases |sigs| - i
  {
    if i < |sigs| {
      if Fault(c, set_, digest, submitter, timestamp, sigs, i).Some? {
        assert FirstFault(c, set_, digest, submitter, timestamp, sigs, i, i);
      } else {
        var next := i + 1;
        ValidateFrom(c, set_, digest, submitter, timestamp, sigs, next);
        if k :| FirstFault(c, set_, digest, submitter, timestamp, sigs, next, k) {
          assert FirstFault(c, set_, digest, submitter, timestamp, sigs, i, k);
        }
      }
    }
  }

  lemma NoFaults(c: Scheme, set_: AttestorSet, digest: Bytes32, submitter: Address, timestamp: u64, sigs: seq<Signature>)
    ensures (forall k :: 0 <= k < |sigs| ==> Fault(c, set_, digest, submitter, timestamp, sigs, k).None?)
       <==> Quorum(c, set_.(threshold := 0), digest, sigs)
  {
    if forall k :: 0 <= k < |sigs| ==> Fault(c, set_, digest, submitter, timestamp, sigs, k).None? {
      forall i, j | 0 <= i < j < |sigs| ensures sigs[i].pubkey != sigs[j].pubkey {
        assert Fault(c, set_, digest, submitter, timestamp, sigs, j).None?;
      }
      forall s | s in sigs
        ensures s.pubkey in set_.members && c.isPoint(s.pubkey) && |s.sig| == 64 && c.verify(s.pubkey, digest, s.sig)
      {
        var k :| 0 <= k < |sigs| && sigs[k] == s;
        assert Fault(c, set_, digest, submitter, timestamp, sigs, k).None?;
      }
    }
  }

  /** A fault is never the count's error. */
  lemma FaultKind(c: Scheme, set_: AttestorSet, digest: Bytes32, submitter: Address, timestamp: u64,
                  sigs: seq<Signature>, k: nat)
    requires k < |sigs|
    ensures var f := Fault(c, set_, digest, submitter, timestamp, sigs, k); f.Some? ==> !f.value.BelowThreshold?
  {}

  /** A submission passes exactly when it carries a quorum; else its first faulty signature, or its count, is reported. */
  lemma ValidateIsQuorum(c: Scheme, set_: AttestorSet, digest: Bytes32, submitter: Address, timestamp: u64,
                         sigs: seq<Signature>)
    ensures var v := Validate(c, set_, digest, submitter, timestamp, sigs, 0);
            && (v.Pass? <==> Quorum(c, set_, digest, sigs))
            && (v.Fail? && v.error.BelowThreshold? ==>
                  |sigs| < set_.threshold && v.error == BelowThreshold(|sigs|, set_.threshold))
            && (v.Fail? && !v.error.BelowThreshold? ==>
                  exists k :: FirstFault(c, set_, digest, submitter, timestamp, sigs, 0, k)
                              && v.error == Fault(c, set_, digest, submitter, timestamp, sigs, k).value)
  {
    ValidateFrom(c, set_, digest, submitter, timestamp, sigs, 0);
    NoFaults(c, set_, digest, submitter, timestamp, sigs);
    if k :| FirstFault(c, set_, digest, submitter, timestamp, sigs, 0, k) {
      ValidateFaulty(c, set_, digest, submitter, timestamp, sigs, 0, k);
      FaultKind(c, set_, digest, submitter, timestamp, sigs, k);
    }
  }

  // ----- Fee arithmetic -----

  /** The exact floor of a rate in basis points. */
  function FloorShare(total: nat, bps: nat): nat {
    total * bps / 10_000
  }

  lemma DivideByTenThousand(a: nat, b: nat)
    ensures (10_000 * a + b) / 10_000 == a + b / 10_000
  {}

  /** The two-step product is the plain one: no digit is lost by dividing first. */
  lemma TwoStepFloor(total: nat, bps: nat)
    ensures total / 10_000 * bps + (total % 10_000) * bps / 10_000 == FloorShare(total, bps)
  {
    var q, r := total / 10_000, total % 10_000;
    calc {
      total * bps;
      (10_000 * q + r) * bps;
      10_000 * (q * bps) + r * bps;
    }
    DivideByTenThousand(q * bps, r * bps);
  }

  lemma MultiplyMonotone(a: nat, b: nat, c: nat)
    requires a <= b
    ensures a * c <= b * c
  {}

  lemma RemainderProductFits(total: nat, bps: u16)
    ensures (total % 10_000) * bps <= 10_000 * 0xFFFF
  {
    MultiplyMonotone(total % 10_000, 10_000, bps);
  }

  /** No operation of the split leaves u128. */
  predicate SplitFits(total: u128, bps: u16) {
    && total / 10_000 * bps <= U128_MAX
    && (total % 10_000) * bps <= U128_MAX
    && total / 10_000 * bps + (total % 10_000) * bps / 10_000 <= U128_MAX
  }

  /** That is so exactly when the share itself fits u128; a debug build panics in all other cases. */
  lemma SplitFitsIff(total: u128, bps: u16)
    ensures SplitFits(total, bps) <==> FloorShare(total, bps) <= U128_MAX
  {
    TwoStepFloor(total, bps);
    RemainderProductFits(total, bps);
  }

  lemma WrapSum(a: nat, b: nat)
    ensures Wrap128(Wrap128(a) + b) == Wrap128(a + b)
  {
    var m := U128_MAX + 1;
    assert a == a / m * m + a % m;
    WrapMultiple(a / m, a % m + b);
    assert a / m * m + (a % m + b) == a + b;
  }

  lemma WrapMultiple(k: nat, b: nat)
    ensures Wrap128(k * (U128_MAX + 1) + b) == Wrap128(b)
  {}

  /** For every fee and rate the builder share is floor(total * bps / 10000) modulo 2^128. */
  lemma SplitIsWrappedFloor(total: u128, bps: u16)
    ensures SplitFee(total, bps).0 == Wrap128(FloorShare(total, bps))
  {
    var a, b := total / 10_000 * bps, (total % 10_000) * bps;
    RemainderProductFits(total, bps);
    assert Wrap128(b) == b;
    WrapSum(a, b / 10_000);
    TwoStepFloor(total, bps);
  }

  lemma WrapExact(n: nat)
    ensures Wrap128(n) == n <==> n <= U128_MAX
  {}

  /** So it is the exact floor exactly when that floor fits u128. */
  lemma SplitIsFloorIff(total: u128, bps: u16)
    ensures SplitFee(total, bps).0 == FloorShare(total, bps) <==> FloorShare(total, bps) <= U128_MAX
  {
    SplitIsWrappedFloor(total, bps);
    WrapExact(FloorShare(total, bps));
  }

  lemma DivideAtMost(p: nat, t: nat)
    requires p <= t * 10_000
    ensures p / 10_000 <= t
  {}

  lemma ScaleAtMost(total: nat, bps: nat)
    requires bps <= 10_000
    ensures total * bps <= total * 10_000
  {}

  /** Up to 10000 basis points it always fits, and within the fee. */
  lemma FloorWithinTotal(total: u128, bps: u16)
    requires bps <= 10_000
    ensures Wrap128(FloorShare(total, bps)) == FloorShare(total, bps) <= total
  {
    var p := total * bps;
    ScaleAtMost(total, bps);
    DivideAtMost(p, total);
    WrapExact(FloorShare(total, bps));
  }

  /** So up to 10000 basis points nothing overflows and the share is within the fee. */
  lemma SplitNeverOverflows(total: u128, bps: u16)
    requires bps <= 10_000
    ensures SplitFits(total, bps) && SplitFee(total, bps).0 == FloorShare(total, bps) <= total
  {
    FloorWithinTotal(total, bps);
    SplitFitsIff(total, bps);
    SplitIsWrappedFloor(total, bps);
  }

  lemma SharesAddUp(total: nat, share: nat)
    ensures share + SaturatingSub(total, share) == total <==> share <= total
  {}

  /** Shares add up to the fee exactly when the wrapped floor does not exceed it. */
  lemma SplitConserves(total: u128, bps: u16)
    ensures SplitFee(total, bps).0 + SplitFee(total, bps).1 == total <==> Wrap128(FloorShare(total, bps)) <= total
  {
    SplitIsWrappedFloor(total, bps);
    SharesAddUp(total, SplitFee(total, bps).0);
  }

  /** A rate of 200% on the largest fee wraps to shares that still add up. */
  lemma SplitWrapsAtTheTop()
    ensures SplitFee(U128_MAX, 20_000) == (U128_MAX - 1, 1) && !SplitFits(U128_MAX, 20_000)
  {
    assert FloorShare(U128_MAX, 20_000) == 2 * U128_MAX;
    SplitIsWrappedFloor(U128_MAX, 20_000);
    SplitFitsIff(U128_MAX, 20_000);
  }

  /** The same rate on half of it stays in range and charges double. */
  lemma SplitDoublesTheHalf()
    ensures SplitFee(U128_MAX / 2, 20_000) == (U128_MAX - 1, 0) && SplitFits(U128_MAX / 2, 20_000)
  {
    var half: u128 := U128_MAX / 2;
    assert FloorShare(half, 20_000) == U128_MAX - 1;
    SplitIsWrappedFloor(half, 20_000);
    SplitFitsIff(half, 20_000);
  }

  // ----- What one call charges -----

  datatype Due = Due(treasury: nat, builder: nat, builderAddr: Option<Address>)

  function SubmissionDue(s: State, schema: Schema): Due {
    var (b, t) := SplitFee(Or(s.attestationFee, DEFAULT_ATTESTATION_FEE), schema.bps);
    if schema.routeTo.Some? && b > 0 then Due(t, b, schema.routeTo) else Due(t, 0, None)
  }

  /** The fees a message owes: registration fees to the treasury, an attestation fee split with the builder. */
  function Dues(s: State, m: Message): Due {
    match m
    case RegisterAttestorSet(_, _) => Due(Or(s.setFee, DEFAULT_ATTESTOR_SET_FEE), 0, None)
    case RegisterSchemaCall(_, _, _, _, _, _) => Due(Or(s.schemaFee, DEFAULT_SCHEMA_REGISTRATION_FEE), 0, None)
    case SubmitAttestation(board, _, _) =>
      if board in s.schemas then SubmissionDue(s, s.schemas[board]) else Due(0, 0, None)
  }

  function ToTreasury(s: State, sender: Address, d: Due): seq<Transfer> {
    if d.treasury > 0 && s.treasury.Some? then [Transfer(User(sender), User(s.treasury.value), d.treasury)] else []
  }

  function ToBuilder(sender: Address, d: Due): seq<Transfer> {
    if d.builderAddr.Some? then [Transfer(User(sender), User(d.builderAddr.value), d.builder)] else []
  }

  function DueTransfers(s: State, sender: Address, d: Due): seq<Transfer> {
    ToTreasury(s, sender, d) + ToBuilder(sender, d)
  }

  function Booked(books: map<Address, u128>, d: Due): map<Address, u128> {
    if d.builderAddr.None? then books
    else books[d.builderAddr.value := SaturatingAdd128(Get(books, d.builderAddr.value, 0), d.builder)]
  }

  /** `t` is `s` after paying and booking `d`, and nothing else about money changed. */
  ghost predicate Charged(s: State, l: Balances, sender: Address, d: Due, t: State, l1: Balances) {
    && t.treasuryCollected == SaturatingAdd128(s.treasuryCollected, d.treasury)
    && t.builderCollected == Booked(s.builderCollected, d)
    && PayAll(l, DueTransfers(s, sender, d)) == Some(l1)
  }

  lemma TreasuryCharged(s: State, l: Balances, payer: Address, amount: nat)
    requires ChargeToTreasury(s, l, payer, amount).Done?
    ensures var Done(t, l1) := ChargeToTreasury(s, l, payer, amount);
            && t == s.(treasuryCollected := SaturatingAdd128(s.treasuryCollected, amount))
            && PayAll(l, ToTreasury(s, payer, Due(amount, 0, None))) == Some(l1)
            && Charged(s, l, payer, Due(amount, 0, None), t, l1)
  {
    var ts := ToTreasury(s, payer, Due(amount, 0, None));
    assert ts != [] ==> ts[1..] == [];
    assert DueTransfers(s, payer, Due(amount, 0, None)) == ts;
  }

  lemma SubmissionCharged(s: State, l: Balances, sender: Address, schema: Schema)
    requires ChargeSubmission(s, l, sender, schema).Done?
    ensures var Done(t, l1) := ChargeSubmission(s, l, sender, schema);
            && t == s.(treasuryCollected := t.treasuryCollected, builderCollected := t.builderCollected)
            && Charged(s, l, sender, SubmissionDue(s, schema), t, l1)
  {
    var d := SubmissionDue(s, schema);
    TreasuryCharged(s, l, sender, d.treasury);
    assert ToTreasury(s, sender, d) == ToTreasury(s, sender, Due(d.treasury, 0, None));
    PayAllConcat(l, ToTreasury(s, sender, d), ToBuilder(sender, d));
    var us := ToBuilder(sender, d);
    assert us != [] ==> us[1..] == [];
  }

  /** A completed call charges exactly its dues, books them to the right counters and moves nothing else. */
  lemma StepCharges(c: Scheme, s: State, l: Balances, sender: Address, m: Message)
    requires Step(c, s, l, sender, m).Done?
    ensures var Done(t, l1) := Step(c, s, l, sender, m); Charged(s, l, sender, Dues(s, m), t, l1)
  {
    match m
    case RegisterAttestorSet(_, _) => TreasuryCharged(s, l, sender, Or(s.setFee, DEFAULT_ATTESTOR_SET_FEE));
    case RegisterSchemaCall(_, _, _, _, _, _) =>
      TreasuryCharged(s, l, sender, Or(s.schemaFee, DEFAULT_SCHEMA_REGISTRATION_FEE));
    case SubmitAttestation(board, _, _) => SubmissionCharged(s, l, sender, s.schemas[board]);
  }

  lemma SingleDebit(t: Transfer)
    ensures Debits([t], t.from) == t.amount
  {
    assert [t][1..] == [];
  }

  lemma DueDebits(s: State, sender: Address, d: Due)
    requires s.treasury.Some? && (d.builderAddr.None? ==> d.builder == 0)
    ensures Debits(DueTransfers(s, sender, d), User(sender)) == d.treasury + d.builder
  {
    FlowsConcat(ToTreasury(s, sender, d), ToBuilder(sender, d), User(sender));
    SingleDebit(Transfer(User(sender), User(s.treasury.value), d.treasury));
    if d.builderAddr.Some? { SingleDebit(Transfer(User(sender), User(d.builderAddr.value), d.builder)); }
  }

  lemma ZeroRate(total: u128)
    ensures SplitFee(total, 0).0 == 0
  {
    SplitIsWrappedFloor(total, 0);
  }

  /** What a submission takes from its sender: both shares of the split. */
  lemma SubmissionDebits(s: State, sender: Address, schema: Schema)
    requires Configured(s) && (schema.bps > 0 ==> schema.routeTo.Some?)
    ensures var shares := SplitFee(s.attestationFee.value, schema.bps);
            Debits(DueTransfers(s, sender, SubmissionDue(s, schema)), User(sender)) == shares.0 + shares.1
  {
    if schema.bps == 0 { ZeroRate(s.attestationFee.value); }
    DueDebits(s, sender, SubmissionDue(s, schema));
  }

  // ----- What every call keeps -----

  ghost predicate SetSound(c: Scheme, id: AttestorSetId, a: AttestorSet) {
    1 <= a.threshold <= |a.members| && Sorted(a.members) && id == c.setId(a.members, a.threshold)
  }

  ghost predicate SchemaSound(c: Scheme, sets: map<AttestorSetId, AttestorSet>, cap: u16, id: SchemaId, a: Schema) {
    && id == c.schemaId(a.owner, a.name, a.version)
    && a.attestorSet in sets
    && (a.bps > 0 <==> a.routeTo.Some?)
    && a.bps <= cap
  }

  /** A stored attestation can be re-verified from the registries alone. */
  ghost predicate Verifiable(c: Scheme, sets: map<AttestorSetId, AttestorSet>, schemas: map<SchemaId, Schema>,
                             id: AttestationId, a: Record) {
    && id == c.attestationId(a.schema, a.payload)
    && a.schema in schemas
    && schemas[a.schema].attestorSet in sets
    && Quorum(c, sets[schemas[a.schema].attestorSet],
              c.digest(a.schema, a.payload, a.submitter, a.timestamp), a.signatures)
  }

  ghost predicate Configured(s: State) {
    s.treasury.Some? && s.avow.Some? && s.attestationFee.Some? && s.schemaFee.Some? && s.setFee.Some?
    && s.maxBuilderBps.Some?
  }

  ghost predicate SetsSound(c: Scheme, s: State) {
    forall id :: id in s.sets ==> SetSound(c, id, s.sets[id])
  }

  ghost predicate SchemasSound(c: Scheme, s: State) {
    s.maxBuilderBps.Some? &&
    forall id :: id in s.schemas ==> SchemaSound(c, s.sets, s.maxBuilderBps.value, id, s.schemas[id])
  }

  ghost predicate RecordsSound(c: Scheme, s: State) {
    forall id :: id in s.attestations ==> Verifiable(c, s.sets, s.schemas, id, s.attestations[id])
  }

  ghost predicate Sound(c: Scheme, s: State) {
    Configured(s) && SetsSound(c, s) && SchemasSound(c, s) && RecordsSound(c, s)
  }

  /** Registered records stay registered, unchanged; parameters never move after genesis. */
  ghost predicate Grows(s: State, t: State) {
    && (forall id :: id in s.sets ==> id in t.sets && t.sets[id] == s.sets[id])
    && (forall id :: id in s.schemas ==> id in t.schemas && t.schemas[id] == s.schemas[id])
    && (forall id :: id in s.attestations ==> id in t.attestations && t.attestations[id] == s.attestations[id])
    && (t.treasury, t.avow, t.attestationFee, t.schemaFee, t.setFee, t.maxBuilderBps)
       == (s.treasury, s.avow, s.attestationFee, s.schemaFee, s.setFee, s.maxBuilderBps)
  }

  lemma GrowsTransitive(s: State, t: State, u: State)
    requires Grows(s, t) && Grows(t, u)
    ensures Grows(s, u)
  {}

  /** What was sound stays sound as the registries grow; only the new entry is left to check. */
  lemma GrowthKeepsSound(c: Scheme, s: State, t: State)
    requires Sound(c, s) && Grows(s, t)
    requires forall id :: id in t.sets && id !in s.sets ==> SetSound(c, id, t.sets[id])
    requires forall id :: id in t.schemas && id !in s.schemas ==>
               SchemaSound(c, t.sets, s.maxBuilderBps.value, id, t.schemas[id])
    requires forall id :: id in t.attestations && id !in s.attestations ==>
               Verifiable(c, t.sets, t.schemas, id, t.attestations[id])
    ensures Sound(c, t)
  {
    forall id | id in t.schemas ensures SchemaSound(c, t.sets, t.maxBuilderBps.value, id, t.schemas[id]) {
      if id in s.schemas { assert SchemaSound(c, s.sets, s.maxBuilderBps.value, id, s.schemas[id]); }
    }
    forall id | id in t.attestations ensures Verifiable(c, t.sets, t.schemas, id, t.attestations[id]) {
      if id in s.attestations { assert Verifiable(c, s.sets, s.schemas, id, s.attestations[id]); }
    }
  }

  // The three ways a completed call can change the state, fee counters aside.

  ghost predicate AddsSet(c: Scheme, s: State, t: State, a: AttestorSet, sender: Address) {
    var id := c.setId(a.members, a.threshold);
    && 1 <= a.threshold <= |a.members| && Sorted(a.members) && id !in s.sets
    && t == s.(sets := s.sets[id := a], treasuryCollected := t.treasuryCollected, builderCollected := t.builderCollected,
               log := s.log + [AttestorSetRegistered(id, a.members, a.threshold, sender)])
  }

  ghost predicate AddsSchema(c: Scheme, s: State, t: State, a: Schema) {
    var id := c.schemaId(a.owner, a.name, a.version);
    && a.attestorSet in s.sets && (a.bps > 0) == a.routeTo.Some? && id !in s.schemas
    && a.bps <= Or(s.maxBuilderBps, DEFAULT_MAX_BUILDER_BPS)
    && t == s.(schemas := s.schemas[id := a], treasuryCollected := t.treasuryCollected,
               builderCollected := t.builderCollected, log := s.log + [SchemaRegistered(id, a)])
  }

  ghost predicate AddsRecord(c: Scheme, s: State, t: State, a: Record) {
    var id := c.attestationId(a.schema, a.payload);
    && id !in s.attestations && Verifiable(c, s.sets, s.schemas, id, a)
    && t == s.(attestations := s.attestations[id := a], treasuryCollected := t.treasuryCollected,
               builderCollected := t.builderCollected,
               log := s.log + [AttestationSubmitted(a.schema, a.payload, a.submitter, |a.signatures|)])
  }

  lemma RegisterSetShape(c: Scheme, s: State, l: Balances, sender: Address, members: seq<PubKey>, threshold: u8)
    requires RegisterSet(c, s, l, sender, members, threshold).Done?
    ensures AddsSet(c, s, RegisterSet(c, s, l, sender, members, threshold).state, AttestorSet(Sort(members), threshold),
                    sender)
  {
    SortSorts(members);
    TreasuryCharged(s, l, sender, Or(s.setFee, DEFAULT_ATTESTOR_SET_FEE));
  }

  lemma RegisterSchemaShape(c: Scheme, s: State, l: Balances, a: Schema)
    requires RegisterSchema(c, s, l, a).Done?
    ensures AddsSchema(c, s, RegisterSchema(c, s, l, a).state, a)
  {
    TreasuryCharged(s, l, a.owner, Or(s.schemaFee, DEFAULT_SCHEMA_REGISTRATION_FEE));
  }

  lemma SubmitShape(c: Scheme, s: State, l: Balances, sender: Address, board: SchemaId, payload: PayloadHash,
                    sigs: seq<Signature>)
    requires Submit(c, s, l, sender, board, payload, sigs).Done?
    ensures AddsRecord(c, s, Submit(c, s, l, sender, board, payload, sigs).state,
                       Record(board, payload, sender, TIMESTAMP, sigs))
  {
    var schema := s.schemas[board];
    SubmissionCharged(s, l, sender, schema);
    ValidateIsQuorum(c, s.sets[schema.attestorSet], c.digest(board, payload, sender, TIMESTAMP), sender, TIMESTAMP, sigs);
  }

  lemma AddedSetSound(c: Scheme, s: State, t: State, a: AttestorSet, sender: Address)
    requires Sound(c, s) && AddsSet(c, s, t, a, sender)
    ensures Sound(c, t) && Grows(s, t)
  {
    GrowthKeepsSound(c, s, t);
  }

  lemma AddedSchemaSound(c: Scheme, s: State, t: State, a: Schema)
    requires Sound(c, s) && AddsSchema(c, s, t, a)
    ensures Sound(c, t) && Grows(s, t)
  {
    GrowthKeepsSound(c, s, t);
  }

  lemma AddedRecordSound(c: Scheme, s: State, t: State, a: Record)
    requires Sound(c, s) && AddsRecord(c, s, t, a)
    ensures Sound(c, t) && Grows(s, t)
  {
    GrowthKeepsSound(c, s, t);
  }

  /** Every call keeps the registries sound and only ever adds to them. */
  lemma StepSound(c: Scheme, s: State, l: Balances, sender: Address, m: Message)
    requires Sound(c, s) && Step(c, s, l, sender, m).Done?
    ensures Sound(c, Step(c, s, l, sender, m).state) && Grows(s, Step(c, s, l, sender, m).state)
  {
    var t := Step(c, s, l, sender, m).state;
    match m
    case RegisterAttestorSet(members, threshold) =>
      RegisterSetShape(c, s, l, sender, members, threshold);
      AddedSetSound(c, s, t, AttestorSet(Sort(members), threshold), sender);
    case RegisterSchemaCall(name, version, set_, bps, routeTo, shape) =>
      var a := Schema(sender, name, version, set_, bps, routeTo, shape);
      RegisterSchemaShape(c, s, l, a);
      AddedSchemaSound(c, s, t, a);
    case SubmitAttestation(board, payload, sigs) =>
      SubmitShape(c, s, l, sender, board, payload, sigs);
      AddedRecordSound(c, s, t, Record(board, payload, sender, TIMESTAMP, sigs));
  }

  /** A charge on a configured chain can only be refused for lack of funds. */
  lemma ChargeRefusals(s: State, l: Balances, sender: Address, schema: Schema, amount: nat)
    requires Configured(s)
    ensures var v := ChargeToTreasury(s, l, sender, amount); v.Refused? ==> v.error == InsufficientFunds
    ensures var v := ChargeSubmission(s, l, sender, schema); v.Refused? ==> v.error == InsufficientFunds
  {}

  lemma SubmitRefusals(c: Scheme, s: State, l: Balances, sender: Address, board: SchemaId, payload: PayloadHash,
                       sigs: seq<Signature>)
    requires Sound(c, s) && Submit(c, s, l, sender, board, payload, sigs).Refused?
    ensures Submit(c, s, l, sender, board, payload, sigs).error !in {MissingAttestorSet, ChainNotConfigured}
  {
    if board in s.schemas {
      var schema := s.schemas[board];
      assert SchemaSound(c, s.sets, s.maxBuilderBps.value, board, schema);
      var digest := c.digest(board, payload, sender, TIMESTAMP);
      ValidateIsQuorum(c, s.sets[schema.attestorSet], digest, sender, TIMESTAMP, sigs);
      ChargeRefusals(s, l, sender, schema, 0);
    }
  }

  /** The two defensive errors cannot occur on a sound state. */
  lemma DefensiveErrorsUnreachable(c: Scheme, s: State, l: Balances, sender: Address, m: Message)
    requires Sound(c, s) && Step(c, s, l, sender, m).Refused?
    ensures Step(c, s, l, sender, m).error !in {MissingAttestorSet, ChainNotConfigured}
  {
    match m
    case SubmitAttestation(board, payload, sigs) => SubmitRefusals(c, s, l, sender, board, payload, sigs);
    case _ =>
  }

  // ----- When registering succeeds -----

  lemma ChargeIff(s: State, l: Balances, payer: Address, amount: nat)
    requires Configured(s)
    ensures ChargeToTreasury(s, l, payer, amount).Done? <==> amount <= Balance(l, User(payer))
  {}

  /** Registering a set succeeds exactly on these terms; repeated members are none of its concern. */
  lemma RegisterSetIff(c: Scheme, s: State, l: Balances, sender: Address, members: seq<PubKey>, threshold: u8)
    requires Configured(s)
    ensures RegisterSet(c, s, l, sender, members, threshold).Done? <==>
              1 <= threshold <= |members| && c.setId(Sort(members), threshold) !in s.sets
              && s.setFee.value <= Balance(l, User(sender))
  {
    ChargeIff(s, l, sender, s.setFee.value);
  }

  /** Registering a schema succeeds exactly on these terms; the routing cap is the stored one, whatever it is. */
  lemma RegisterSchemaIff(c: Scheme, s: State, l: Balances, schema: Schema)
    requires Configured(s)
    ensures RegisterSchema(c, s, l, schema).Done? <==>
              schema.bps <= s.maxBuilderBps.value && (schema.bps > 0 <==> schema.routeTo.Some?)
              && schema.attestorSet in s.sets && c.schemaId(schema.owner, schema.name, schema.version) !in s.schemas
              && s.schemaFee.value <= Balance(l, User(schema.owner))
  {
    ChargeIff(s, l, schema.owner, s.schemaFee.value);
  }

  function Distinct(members: seq<PubKey>): set<PubKey> {
    set k | k in members
  }

  function Signers(sigs: seq<Signature>): set<PubKey> {
    set s | s in sigs :: s.pubkey
  }

  lemma {:induction false} SignersCount(sigs: seq<Signature>)
    requires forall i, j :: 0 <= i < j < |sigs| ==> sigs[i].pubkey != sigs[j].pubkey
    ensures |Signers(sigs)| == |sigs|
    decreases |sigs|
  {
    if sigs != [] {
      var front, last := sigs[..|sigs| - 1], sigs[|sigs| - 1];
      SignersCount(front);
      assert sigs == front + [last];
      assert Signers(sigs) == Signers(front) + {last.pubkey};
    }
  }

  lemma SubsetCount<T>(a: set<T>, b: set<T>)
    requires a <= b
    ensures |a| <= |b|
  {
    assert b == a + (b - a);
  }

  /** A quorum has at least `threshold` distinct members to draw on. */
  lemma QuorumNeedsDistinct(c: Scheme, a: AttestorSet, digest: Bytes32, sigs: seq<Signature>)
    requires Quorum(c, a, digest, sigs)
    ensures a.threshold <= |Distinct(a.members)|
  {
    SignersCount(sigs);
    assert Signers(sigs) <= Distinct(a.members);
    SubsetCount(Signers(sigs), Distinct(a.members));
  }

  /** A set whose threshold exceeds its distinct members registers and is paid for, but no submission under it passes. */
  lemma RepeatedMembersNeverAttest(c: Scheme, s: State, l: Balances, sender: Address, board: SchemaId,
                                   payload: PayloadHash, sigs: seq<Signature>)
    requires board in s.schemas && s.schemas[board].attestorSet in s.sets
    requires |Distinct(s.sets[s.schemas[board].attestorSet].members)| < s.sets[s.schemas[board].attestorSet].threshold
    ensures Submit(c, s, l, sender, board, payload, sigs).Refused?
  {
    var a, digest := s.sets[s.schemas[board].attestorSet], c.digest(board, payload, sender, TIMESTAMP);
    ValidateIsQuorum(c, a, digest, sender, TIMESTAMP, sigs);
    if Quorum(c, a, digest, sigs) { QuorumNeedsDistinct(c, a, digest, sigs); }
  }

  /** Such a set: one key twice with threshold two is accepted whenever its fee is paid and its id is new. */
  lemma RepeatedMemberRegisters(c: Scheme, s: State, l: Balances, sender: Address, k: PubKey)
    requires Configured(s) && c.setId(Sort([k, k]), 2) !in s.sets && s.setFee.value <= Balance(l, User(sender))
    ensures RegisterSet(c, s, l, sender, [k, k], 2).Done? && |Distinct([k, k])| == 1
  {
    RegisterSetIff(c, s, l, sender, [k, k], 2);
    assert Distinct([k, k]) == {k};
  }

  // ----- Events -----

  datatype Registry = Registry(
    sets: map<AttestorSetId, AttestorSet>,
    schemas: map<SchemaId, Schema>,
    submissions: map<AttestationId, (SchemaId, PayloadHash, Address, nat)>)

  function Indexed(s: State): Registry {
    Registry(s.sets, s.schemas,
             map id | id in s.attestations ::
               (s.attestations[id].schema, s.attestations[id].payload, s.attestations[id].submitter,
                |s.attestations[id].signatures|))
  }

  function Ingest(c: Scheme, r: Registry, e: Event): Registry {
    match e
    case AttestorSetRegistered(id, members, threshold, _) => r.(sets := r.sets[id := AttestorSet(members, threshold)])
    case SchemaRegistered(id, schema) => r.(schemas := r.schemas[id := schema])
    case AttestationSubmitted(board, payload, submitter, count) =>
      r.(submissions := r.submissions[c.attestationId(board, payload) := (board, payload, submitter, count)])
  }

  /** What an indexer that sees only events knows, starting from a genesis snapshot. */
  function IngestAll(c: Scheme, base: Registry, log: seq<Event>): Registry {
    if log == [] then base else Ingest(c, IngestAll(c, base, log[..|log| - 1]), log[|log| - 1])
  }

  lemma IngestLast(c: Scheme, base: Registry, s: State, t: State, e: Event)
    requires t.log == s.log + [e]
    ensures IngestAll(c, base, t.log) == Ingest(c, IngestAll(c, base, s.log), e)
  {
    assert t.log[..|t.log| - 1] == s.log;
  }

  lemma AddedSetIngested(c: Scheme, s: State, t: State, a: AttestorSet, sender: Address)
    requires AddsSet(c, s, t, a, sender)
    ensures Ingest(c, Indexed(s), t.log[|s.log|]) == Indexed(t)
  {
    assert a == AttestorSet(a.members, a.threshold);
  }

  lemma AddedRecordIngested(c: Scheme, s: State, t: State, a: Record)
    requires AddsRecord(c, s, t, a)
    ensures Ingest(c, Indexed(s), t.log[|s.log|]) == Indexed(t)
  {
    assert Ingest(c, Indexed(s), t.log[|s.log|]).submissions == Indexed(t).submissions;
  }

  /** The event stream alone carries the registries from one state to the next. */
  lemma StepEvents(c: Scheme, base: Registry, s: State, l: Balances, sender: Address, m: Message)
    requires Step(c, s, l, sender, m).Done? && IngestAll(c, base, s.log) == Indexed(s)
    ensures IngestAll(c, base, Step(c, s, l, sender, m).state.log) == Indexed(Step(c, s, l, sender, m).state)
  {
    var t := Step(c, s, l, sender, m).state;
    match m
    case RegisterAttestorSet(members, threshold) =>
      RegisterSetShape(c, s, l, sender, members, threshold);
      AddedSetIngested(c, s, t, AttestorSet(Sort(members), threshold), sender);
    case RegisterSchemaCall(name, version, set_, bps, routeTo, shape) =>
      RegisterSchemaShape(c, s, l, Schema(sender, name, version, set_, bps, routeTo, shape));
    case SubmitAttestation(board, payload, sigs) =>
      SubmitShape(c, s, l, sender, board, payload, sigs);
      AddedRecordIngested(c, s, t, Record(board, payload, sender, TIMESTAMP, sigs));
    IngestLast(c, base, s, t, t.log[|s.log|]);
  }

  /** The fee, the rate and the debit of a submission under `schema`: exact if and only if the share is within the fee. */
  lemma SubmissionCostIff(c: Scheme, s: State, sender: Address, id: SchemaId, schema: Schema)
    requires Configured(s) && SchemaSound(c, s.sets, s.maxBuilderBps.value, id, schema)
    ensures var fee, bps := s.attestationFee.value, schema.bps;
            Debits(DueTransfers(s, sender, SubmissionDue(s, schema)), User(sender)) == fee
            <==> Wrap128(FloorShare(fee, bps)) <= fee
    ensures s.maxBuilderBps.value <= 10_000 ==>
              Debits(DueTransfers(s, sender, SubmissionDue(s, schema)), User(sender)) == s.attestationFee.value
  {
    SubmissionDebits(s, sender, schema);
    SplitConserves(s.attestationFee.value, schema.bps);
    if schema.bps <= 10_000 { FloorWithinTotal(s.attestationFee.value, schema.bps); }
  }

  /**
   * An accepted submission costs its sender exactly the attestation fee if and only if the wrapped builder share does
   * not exceed that fee, and so on every chain whose cap is at most 100%.
   */
  lemma SubmissionsCostTheFee(c: Scheme, s: State, l: Balances, sender: Address, board: SchemaId,
                              payload: PayloadHash, sigs: seq<Signature>)
    requires Sound(c, s) && Submit(c, s, l, sender, board, payload, sigs).Done?
    ensures board in s.schemas
    ensures var due := SubmissionDue(s, s.schemas[board]);
            var fee, bps := s.attestationFee.value, s.schemas[board].bps;
            && PayAll(l, DueTransfers(s, sender, due)) == Some(Submit(c, s, l, sender, board, payload, sigs).funds)
            && (Debits(DueTransfers(s, sender, due), User(sender)) == fee <==> Wrap128(FloorShare(fee, bps)) <= fee)
            && (s.maxBuilderBps.value <= 10_000 ==> Debits(DueTransfers(s, sender, due), User(sender)) == fee)
  {
    SubmissionCharged(s, l, sender, s.schemas[board]);
    SubmissionCostIff(c, s, sender, board, s.schemas[board]);
  }
}
