/** Genesis: seeding equals replaying the register calls, and the loader's own validator agrees with seeding. */
module Genesis {
  import opened Types
  import opened Ids
  import opened Ledger
  import opened Attestation
  import opened AttestationProofs

  // ----- Seeding equals replay -----

  function ReplaySets(c: Scheme, s: State, l: Balances, registrar: Address, sets: seq<AttestorSet>): Verdict {
    if sets == [] then Done(s, l)
    else
      match ReplaySets(c, s, l, registrar, sets[..|sets| - 1])
      case Refused(e) => Refused(e)
      case Done(s1, l1) =>
        var a := sets[|sets| - 1];
        RegisterSet(c, s1, l1, registrar, a.members, a.threshold)
  }

  function ReplaySchemas(c: Scheme, s: State, l: Balances, schemas: seq<Schema>): Verdict {
    if schemas == [] then Done(s, l)
    else
      match ReplaySchemas(c, s, l, schemas[..|schemas| - 1])
      case Refused(e) => Refused(e)
      case Done(s1, l1) =>
        var a := schemas[|schemas| - 1];
        RegisterSchema(c, s1, l1, a)
  }

  /** The register handlers run in order on a config's entries, each schema sent by its owner. */
  function Replay(c: Scheme, s: State, l: Balances, registrar: Address, config: Config): Verdict {
    match ReplaySets(c, s, l, registrar, config.sets)
    case Refused(e) => Refused(e)
    case Done(s1, l1) => ReplaySchemas(c, s1, l1, config.schemas)
  }

  /** The seeded parameters with both registration fees waived. */
  function FeesWaived(s: State, config: Config): State {
    SeedParameters(s, config).(setFee := Some(0), schemaFee := Some(0))
  }

  ghost predicate SameRegistries(s: State, t: State) {
    s.sets == t.sets && s.schemas == t.schemas && s.maxBuilderBps == t.maxBuilderBps
    && t.setFee == Some(0) && t.schemaFee == Some(0)
  }

  /** A seeding result and a replay verdict tell the same story and the replay moved no money. */
  ghost predicate Agree(seeded: Result<State, Error>, replayed: Verdict, l: Balances) {
    match seeded
    case Failure(e) => replayed == Refused(e)
    case Success(t) => replayed.Done? && SameRegistries(t, replayed.state) && replayed.funds == l
  }

  lemma ReplayOneSet(c: Scheme, s: State, t: State, l: Balances, registrar: Address, a: AttestorSet)
    requires SameRegistries(s, t)
    ensures Agree(SeedSet(c, s, a), RegisterSet(c, t, l, registrar, a.members, a.threshold), l)
  {}

  lemma ReplayOneSchema(c: Scheme, s: State, t: State, l: Balances, a: Schema)
    requires SameRegistries(s, t) && s.maxBuilderBps.Some?
    ensures Agree(SeedSchema(c, s, s.maxBuilderBps.value, a), RegisterSchema(c, t, l, a), l)
  {}

  lemma {:induction false} ReplaySetsAgrees(c: Scheme, s: State, t: State, l: Balances, registrar: Address,
                                            sets: seq<AttestorSet>)
    requires SameRegistries(s, t)
    ensures Agree(SeedSets(c, s, sets), ReplaySets(c, t, l, registrar, sets), l)
    ensures SeedSets(c, s, sets).Success? ==> SeedSets(c, s, sets).value.maxBuilderBps == s.maxBuilderBps
    decreases |sets|
  {
    if sets != [] {
      var front := sets[..|sets| - 1];
      ReplaySetsAgrees(c, s, t, l, registrar, front);
      if SeedSets(c, s, front).Success? {
        ReplayOneSet(c, SeedSets(c, s, front).value, ReplaySets(c, t, l, registrar, front).state, l, registrar,
                     sets[|sets| - 1]);
      }
    }
  }

  lemma {:induction false} ReplaySchemasAgrees(c: Scheme, s: State, t: State, l: Balances, schemas: seq<Schema>)
    requires SameRegistries(s, t) && s.maxBuilderBps.Some?
    ensures Agree(SeedSchemas(c, s, s.maxBuilderBps.value, schemas), ReplaySchemas(c, t, l, schemas), l)
    ensures var r := SeedSchemas(c, s, s.maxBuilderBps.value, schemas);
            r.Success? ==> r.value.maxBuilderBps == s.maxBuilderBps
    decreases |schemas|
  {
    if schemas != [] {
      var front, cap := schemas[..|schemas| - 1], s.maxBuilderBps.value;
      ReplaySchemasAgrees(c, s, t, l, front);
      if SeedSchemas(c, s, cap, front).Success? {
        ReplayOneSchema(c, SeedSchemas(c, s, cap, front).value, ReplaySchemas(c, t, l, front).state, l,
                        schemas[|schemas| - 1]);
      }
    }
  }

  /** On every config: same success, same first error, same registries, no balance touched. */
  lemma GenesisEqualsReplay(c: Scheme, s: State, config: Config, registrar: Address, l: Balances)
    ensures Agree(Seed(c, s, config), Replay(c, FeesWaived(s, config), l, registrar, config), l)
  {
    var p, q := SeedParameters(s, config), FeesWaived(s, config);
    ReplaySetsAgrees(c, p, q, l, registrar, config.sets);
    if SeedSets(c, p, config.sets).Success? {
      var s1 := SeedSets(c, p, config.sets).value;
      ReplaySchemasAgrees(c, s1, ReplaySets(c, q, l, registrar, config.sets).state, l, config.schemas);
    }
  }

  // ----- Genesis produces a sound state -----

  lemma {:induction false} SeedSetsSound(c: Scheme, s: State, sets: seq<AttestorSet>)
    requires Sound(c, s) && SeedSets(c, s, sets).Success?
    ensures Sound(c, SeedSets(c, s, sets).value)
    ensures SeedSets(c, s, sets).value == s.(sets := SeedSets(c, s, sets).value.sets)
    decreases |sets|
  {
    if sets != [] {
      var front := sets[..|sets| - 1];
      SeedSetsSound(c, s, front);
      SortSorts(sets[|sets| - 1].members);
      GrowthKeepsSound(c, SeedSets(c, s, front).value, SeedSets(c, s, sets).value);
    }
  }

  lemma {:induction false} SeedSchemasSound(c: Scheme, s: State, schemas: seq<Schema>)
    requires Sound(c, s) && SeedSchemas(c, s, s.maxBuilderBps.value, schemas).Success?
    ensures Sound(c, SeedSchemas(c, s, s.maxBuilderBps.value, schemas).value)
    ensures var t := SeedSchemas(c, s, s.maxBuilderBps.value, schemas).value; t == s.(schemas := t.schemas)
    decreases |schemas|
  {
    if schemas != [] {
      var front := schemas[..|schemas| - 1];
      SeedSchemasSound(c, s, front);
      GrowthKeepsSound(c, SeedSchemas(c, s, s.maxBuilderBps.value, front).value,
                       SeedSchemas(c, s, s.maxBuilderBps.value, schemas).value);
    }
  }

  lemma SeedSound(c: Scheme, config: Config)
    requires Seed(c, EMPTY, config).Success?
    ensures Sound(c, Seed(c, EMPTY, config).value)
    ensures var t := Seed(c, EMPTY, config).value;
            t == SeedParameters(EMPTY, config).(sets := t.sets, schemas := t.schemas)
  {
    var p := SeedParameters(EMPTY, config);
    SeedSetsSound(c, p, config.sets);
    SeedSchemasSound(c, SeedSets(c, p, config.sets).value, config.schemas);
  }

  // ----- The genesis loader's validator -----

  datatype GenesisError =
    | MissingGasToken
    | AvowTokenIdMismatch(attestation: TokenId, bank: TokenId)
    | InitialAttestorSetEmpty(index: nat)
    | InitialAttestorSetInvalidThreshold(index: nat, threshold: u8, count: nat)
    | InitialAttestorSetDuplicate(first: nat, index: nat)
    | InitialSchemaUnknownAttestorSet(index: nat, name: Bytes, attestorSet: AttestorSetId)
    | InitialSchemaDuplicate(first: nat, index: nat)
    | InitialSchemaOrphanRouting(index: nat, name: Bytes, bps: u16, hasAddr: bool)
    | InitialSchemaFeeRoutingExceedsCap(index: nat, name: Bytes, bps: u16, cap: u16)

  function SetIdAt(c: Scheme, sets: seq<AttestorSet>, i: nat): AttestorSetId
    requires i < |sets|
  {
    c.setId(Sort(sets[i].members), sets[i].threshold)
  }

  function SchemaIdAt(c: Scheme, schemas: seq<Schema>, i: nat): SchemaId
    requires i < |schemas|
  {
    c.schemaId(schemas[i].owner, schemas[i].name, schemas[i].version)
  }

  /** Seeding gets through the first i sets and stops at the next one with `e`. */
  ghost predicate StopsAtSet(c: Scheme, cfg: Config, i: nat, e: Error) {
    i < |cfg.sets|
    && SeedSets(c, SeedParameters(EMPTY, cfg), cfg.sets[..i]).Success?
    && SeedSets(c, SeedParameters(EMPTY, cfg), cfg.sets[..i + 1]) == Failure(e)
  }

  /** The state the second pass starts from. */
  ghost function AfterSets(c: Scheme, cfg: Config): State
    requires SeedSets(c, SeedParameters(EMPTY, cfg), cfg.sets).Success?
  {
    SeedSets(c, SeedParameters(EMPTY, cfg), cfg.sets).value
  }

  /** Seeding gets through all sets and the first i schemas and stops at the next one with `e`. */
  ghost predicate StopsAtSchema(c: Scheme, cfg: Config, i: nat, e: Error) {
    i < |cfg.schemas|
    && SeedSets(c, SeedParameters(EMPTY, cfg), cfg.sets).Success?
    && SeedSchemas(c, AfterSets(c, cfg), cfg.maxBuilderBps, cfg.schemas[..i]).Success?
    && SeedSchemas(c, AfterSets(c, cfg), cfg.maxBuilderBps, cfg.schemas[..i + 1]) == Failure(e)
  }

  /** `first` is the earliest entry with the id of entry `index`. */
  ghost predicate EarliestSet(c: Scheme, sets: seq<AttestorSet>, first: nat, index: nat) {
    first < index < |sets| && SetIdAt(c, sets, first) == SetIdAt(c, sets, index)
    && forall k :: 0 <= k < first ==> SetIdAt(c, sets, k) != SetIdAt(c, sets, index)
  }

  ghost predicate EarliestSchema(c: Scheme, schemas: seq<Schema>, first: nat, index: nat) {
    first < index < |schemas| && SchemaIdAt(c, schemas, first) == SchemaIdAt(c, schemas, index)
    && forall k :: 0 <= k < first ==> SchemaIdAt(c, schemas, k) != SchemaIdAt(c, schemas, index)
  }

  predicate AboutSet(e: GenesisError) {
    e.InitialAttestorSetEmpty? || e.InitialAttestorSetInvalidThreshold? || e.InitialAttestorSetDuplicate?
  }

  predicate AboutSchema(e: GenesisError) {
    e.InitialSchemaUnknownAttestorSet? || e.InitialSchemaDuplicate? || e.InitialSchemaOrphanRouting?
    || e.InitialSchemaFeeRoutingExceedsCap?
  }

  /** The seeding error a validator error stands for; the validator merges the two threshold errors. */
  function Reason(e: GenesisError): Error
    requires AboutSet(e) || AboutSchema(e)
  {
    match e
    case InitialAttestorSetEmpty(_) => EmptyAttestorSet
    case InitialAttestorSetInvalidThreshold(_, t, n) => if t == 0 then ZeroThreshold else ThresholdExceedsMembers(t, n)
    case InitialAttestorSetDuplicate(_, _) => DuplicateAttestorSet
    case InitialSchemaUnknownAttestorSet(_, _, _) => UnknownAttestorSet
    case InitialSchemaDuplicate(_, _) => DuplicateSchema
    case InitialSchemaOrphanRouting(_, _, _, _) => OrphanFeeRouting
    case InitialSchemaFeeRoutingExceedsCap(_, _, bps, cap) => FeeRoutingExceedsCap(bps, cap)
  }

  ghost predicate SetDetails(c: Scheme, sets: seq<AttestorSet>, e: GenesisError)
    requires AboutSet(e) && e.index < |sets|
  {
    match e
    case InitialAttestorSetInvalidThreshold(i, t, n) => t == sets[i].threshold && n == |sets[i].members|
    case InitialAttestorSetDuplicate(first, i) => EarliestSet(c, sets, first, i)
    case _ => true
  }

  ghost predicate SchemaDetails(c: Scheme, schemas: seq<Schema>, cap: u16, e: GenesisError)
    requires AboutSchema(e) && e.index < |schemas|
  {
    match e
    case InitialSchemaFeeRoutingExceedsCap(i, name, bps, c) => name == schemas[i].name && bps == schemas[i].bps && c == cap
    case InitialSchemaOrphanRouting(i, name, bps, hasAddr) =>
      name == schemas[i].name && bps == schemas[i].bps && hasAddr == schemas[i].routeTo.Some?
    case InitialSchemaUnknownAttestorSet(i, name, id) => name == schemas[i].name && id == schemas[i].attestorSet
    case InitialSchemaDuplicate(first, i) => EarliestSchema(c, schemas, first, i)
    case _ => true
  }

  ghost predicate ExplainsSet(c: Scheme, cfg: Config, e: GenesisError) {
    AboutSet(e) && StopsAtSet(c, cfg, e.index, Reason(e)) && SetDetails(c, cfg.sets, e)
  }

  ghost predicate ExplainsSchema(c: Scheme, cfg: Config, e: GenesisError) {
    AboutSchema(e) && StopsAtSchema(c, cfg, e.index, Reason(e)) && SchemaDetails(c, cfg.schemas, cfg.maxBuilderBps, e)
  }

  /** The entry and reason a validator error reports are where and why seeding stops. */
  ghost predicate Explains(c: Scheme, cfg: Config, e: GenesisError) {
    ExplainsSet(c, cfg, e) || ExplainsSchema(c, cfg, e)
  }

  /** An explained error means the whole seeding fails, with the error of that entry. */
  lemma StopFailsSeed(c: Scheme, cfg: Config, i: nat, e: Error)
    requires StopsAtSet(c, cfg, i, e) || StopsAtSchema(c, cfg, i, e)
    ensures Seed(c, EMPTY, cfg) == Failure(e)
  {
    var p := SeedParameters(EMPTY, cfg);
    if StopsAtSet(c, cfg, i, e) {
      SeedSetsStop(c, p, cfg.sets, i + 1);
    } else {
      SeedSchemasStop(c, SeedSets(c, p, cfg.sets).value, cfg.maxBuilderBps, cfg.schemas, i + 1);
    }
  }

  lemma ExplainedSeedFails(c: Scheme, cfg: Config, e: GenesisError)
    requires Explains(c, cfg, e)
    ensures Seed(c, EMPTY, cfg) == Failure(Reason(e))
  {
    StopFailsSeed(c, cfg, e.index, Reason(e));
  }

  lemma NextSet(c: Scheme, cfg: Config, i: nat)
    requires i < |cfg.sets| && SeedSets(c, SeedParameters(EMPTY, cfg), cfg.sets[..i]).Success?
    ensures var p := SeedParameters(EMPTY, cfg);
            SeedSets(c, p, cfg.sets[..i + 1]) == SeedSet(c, SeedSets(c, p, cfg.sets[..i]).value, cfg.sets[i])
  {
    assert cfg.sets[..i + 1][..i] == cfg.sets[..i];
  }

  lemma NextSchema(c: Scheme, s: State, cap: u16, schemas: seq<Schema>, i: nat)
    requires i < |schemas| && SeedSchemas(c, s, cap, schemas[..i]).Success?
    ensures SeedSchemas(c, s, cap, schemas[..i + 1])
         == SeedSchema(c, SeedSchemas(c, s, cap, schemas[..i]).value, cap, schemas[i])
  {
    assert schemas[..i + 1][..i] == schemas[..i];
  }

  /** `seen` maps each of the first n ids to its index. */
  ghost predicate Tracks<T(!new)>(ids: seq<T>, n: nat, seen: map<T, nat>) {
    n <= |ids|
    && (forall k :: 0 <= k < n ==> ids[k] in seen && seen[ids[k]] == k)
    && (forall id :: id in seen ==> seen[id] < n && ids[seen[id]] == id)
  }

  lemma TracksNext<T(!new)>(ids: seq<T>, n: nat, seen: map<T, nat>)
    requires Tracks(ids, n, seen) && n < |ids| && ids[n] !in seen
    ensures Tracks(ids, n + 1, seen[ids[n] := n])
  {
    var now := seen[ids[n] := n];
    forall id | id in now ensures now[id] < n + 1 && ids[now[id]] == id {
      if id != ids[n] { assert id in seen; }
    }
  }

  ghost function SetIds(c: Scheme, sets: seq<AttestorSet>): (ids: seq<AttestorSetId>)
    ensures |ids| == |sets| && forall i :: 0 <= i < |sets| ==> ids[i] == SetIdAt(c, sets, i)
  {
    seq(|sets|, i requires 0 <= i < |sets| => SetIdAt(c, sets, i))
  }

  ghost function SchemaIds(c: Scheme, schemas: seq<Schema>): (ids: seq<SchemaId>)
    ensures |ids| == |schemas| && forall i :: 0 <= i < |schemas| ==> ids[i] == SchemaIdAt(c, schemas, i)
  {
    seq(|schemas|, i requires 0 <= i < |schemas| => SchemaIdAt(c, schemas, i))
  }

  lemma SeenSetIsEarliest(c: Scheme, sets: seq<AttestorSet>, n: nat, seen: map<AttestorSetId, nat>)
    requires Tracks(SetIds(c, sets), n, seen) && n < |sets| && SetIdAt(c, sets, n) in seen
    ensures EarliestSet(c, sets, seen[SetIdAt(c, sets, n)], n)
  {
    var ids := SetIds(c, sets);
    assert ids[n] == SetIdAt(c, sets, n);
    forall k | 0 <= k < seen[ids[n]] ensures SetIdAt(c, sets, k) != SetIdAt(c, sets, n) {
      assert ids[k] == SetIdAt(c, sets, k) && seen[ids[k]] == k;
    }
  }

  lemma SeenSchemaIsEarliest(c: Scheme, schemas: seq<Schema>, n: nat, seen: map<SchemaId, nat>)
    requires Tracks(SchemaIds(c, schemas), n, seen) && n < |schemas| && SchemaIdAt(c, schemas, n) in seen
    ensures EarliestSchema(c, schemas, seen[SchemaIdAt(c, schemas, n)], n)
  {
    var ids := SchemaIds(c, schemas);
    assert ids[n] == SchemaIdAt(c, schemas, n);
    forall k | 0 <= k < seen[ids[n]] ensures SchemaIdAt(c, schemas, k) != SchemaIdAt(c, schemas, n) {
      assert ids[k] == SchemaIdAt(c, schemas, k) && seen[ids[k]] == k;
    }
  }

  /** The validator's rule for entry i, given the ids seen before it. */
  function SetRule(c: Scheme, i: nat, a: AttestorSet, seen: map<AttestorSetId, nat>): Outcome<GenesisError> {
    var id := c.setId(Sort(a.members), a.threshold);
    if a.members == [] then Fail(InitialAttestorSetEmpty(i))
    else if a.threshold == 0 || a.threshold > |a.members| then
      Fail(InitialAttestorSetInvalidThreshold(i, a.threshold, |a.members|))
    else if id in seen then Fail(InitialAttestorSetDuplicate(seen[id], i))
    else Pass
  }

  function SchemaRule(c: Scheme, i: nat, a: Schema, cap: u16, sets: map<AttestorSetId, nat>, seen: map<SchemaId, nat>)
    : Outcome<GenesisError>
  {
    var id := c.schemaId(a.owner, a.name, a.version);
    if a.bps > cap then Fail(InitialSchemaFeeRoutingExceedsCap(i, a.name, a.bps, cap))
    else if (a.bps > 0) != a.routeTo.Some? then Fail(InitialSchemaOrphanRouting(i, a.name, a.bps, a.routeTo.Some?))
    else if a.attestorSet !in sets then Fail(InitialSchemaUnknownAttestorSet(i, a.name, a.attestorSet))
    else if id in seen then Fail(InitialSchemaDuplicate(seen[id], i))
    else Pass
  }

  /** Where the first pass stands before entry i: seeding got this far and `seen` holds its ids. */
  ghost predicate SetsSeen(c: Scheme, cfg: Config, i: nat, seen: map<AttestorSetId, nat>) {
    i <= |cfg.sets|
    && SeedSets(c, SeedParameters(EMPTY, cfg), cfg.sets[..i]).Success?
    && SeedSets(c, SeedParameters(EMPTY, cfg), cfg.sets[..i]).value.sets.Keys == seen.Keys
    && Tracks(SetIds(c, cfg.sets), i, seen)
  }

  /** On one entry the validator and the seeding agree, as long as they have seen the same ids. */
  lemma SetRuleMatches(c: Scheme, s: State, i: nat, a: AttestorSet, seen: map<AttestorSetId, nat>)
    requires s.sets.Keys == seen.Keys
    ensures var r := SetRule(c, i, a, seen);
            if r.Pass? then SeedSet(c, s, a).Success?
            else AboutSet(r.error) && r.error.index == i && SeedSet(c, s, a) == Failure(Reason(r.error))
  {}

  lemma SetRuleRefuses(c: Scheme, cfg: Config, i: nat, seen: map<AttestorSetId, nat>)
    requires SetsSeen(c, cfg, i, seen) && i < |cfg.sets| && SetRule(c, i, cfg.sets[i], seen).Fail?
    ensures ExplainsSet(c, cfg, SetRule(c, i, cfg.sets[i], seen).error)
  {
    NextSet(c, cfg, i);
    SetRuleMatches(c, SeedSets(c, SeedParameters(EMPTY, cfg), cfg.sets[..i]).value, i, cfg.sets[i], seen);
    if SetIdAt(c, cfg.sets, i) in seen { SeenSetIsEarliest(c, cfg.sets, i, seen); }
  }

  lemma SetRulePasses(c: Scheme, cfg: Config, i: nat, seen: map<AttestorSetId, nat>)
    requires SetsSeen(c, cfg, i, seen) && i < |cfg.sets| && SetRule(c, i, cfg.sets[i], seen).Pass?
    ensures SetsSeen(c, cfg, i + 1, seen[SetIdAt(c, cfg.sets, i) := i])
  {
    NextSet(c, cfg, i);
    assert SetIds(c, cfg.sets)[i] == SetIdAt(c, cfg.sets, i);
    TracksNext(SetIds(c, cfg.sets), i, seen);
  }

  ghost predicate SchemasSeen(c: Scheme, cfg: Config, i: nat, sets: map<AttestorSetId, nat>, seen: map<SchemaId, nat>) {
    i <= |cfg.schemas|
    && SeedSets(c, SeedParameters(EMPTY, cfg), cfg.sets).Success?
    && (var r := SeedSchemas(c, AfterSets(c, cfg), cfg.maxBuilderBps, cfg.schemas[..i]);
        r.Success? && r.value.sets.Keys == sets.Keys && r.value.schemas.Keys == seen.Keys)
    && Tracks(SchemaIds(c, cfg.schemas), i, seen)
  }

  lemma SchemaRuleMatches(c: Scheme, s: State, i: nat, a: Schema, cap: u16, sets: map<AttestorSetId, nat>,
                          seen: map<SchemaId, nat>)
    requires s.sets.Keys == sets.Keys && s.schemas.Keys == seen.Keys
    ensures var r := SchemaRule(c, i, a, cap, sets, seen);
            if r.Pass? then SeedSchema(c, s, cap, a).Success?
            else AboutSchema(r.error) && r.error.index == i && SeedSchema(c, s, cap, a) == Failure(Reason(r.error))
  {}

  lemma SchemaRuleDetails(c: Scheme, schemas: seq<Schema>, i: nat, cap: u16, sets: map<AttestorSetId, nat>,
                          seen: map<SchemaId, nat>)
    requires i < |schemas| && SchemaRule(c, i, schemas[i], cap, sets, seen).Fail?
    requires SchemaIdAt(c, schemas, i) in seen ==> EarliestSchema(c, schemas, seen[SchemaIdAt(c, schemas, i)], i)
    ensures var e := SchemaRule(c, i, schemas[i], cap, sets, seen).error;
            AboutSchema(e) && e.index == i && SchemaDetails(c, schemas, cap, e)
  {}

  lemma SchemaRuleRefuses(c: Scheme, cfg: Config, i: nat, sets: map<AttestorSetId, nat>, seen: map<SchemaId, nat>)
    requires SchemasSeen(c, cfg, i, sets, seen) && i < |cfg.schemas|
    requires SchemaRule(c, i, cfg.schemas[i], cfg.maxBuilderBps, sets, seen).Fail?
    ensures ExplainsSchema(c, cfg, SchemaRule(c, i, cfg.schemas[i], cfg.maxBuilderBps, sets, seen).error)
  {
    var cap := cfg.maxBuilderBps;
    NextSchema(c, AfterSets(c, cfg), cap, cfg.schemas, i);
    SchemaRuleMatches(c, SeedSchemas(c, AfterSets(c, cfg), cap, cfg.schemas[..i]).value, i, cfg.schemas[i], cap, sets, seen);
    if SchemaIdAt(c, cfg.schemas, i) in seen { SeenSchemaIsEarliest(c, cfg.schemas, i, seen); }
    SchemaRuleDetails(c, cfg.schemas, i, cap, sets, seen);
  }

  lemma SchemaRulePasses(c: Scheme, cfg: Config, i: nat, sets: map<AttestorSetId, nat>, seen: map<SchemaId, nat>)
    requires SchemasSeen(c, cfg, i, sets, seen) && i < |cfg.schemas|
    requires SchemaRule(c, i, cfg.schemas[i], cfg.maxBuilderBps, sets, seen).Pass?
    ensures SchemasSeen(c, cfg, i + 1, sets, seen[SchemaIdAt(c, cfg.schemas, i) := i])
  {
    NextSchema(c, AfterSets(c, cfg), cfg.maxBuilderBps, cfg.schemas, i);
    assert SchemaIds(c, cfg.schemas)[i] == SchemaIdAt(c, cfg.schemas, i);
    TracksNext(SchemaIds(c, cfg.schemas), i, seen);
  }

  /** First pass: every initial set, with the index each id was first seen at. */
  method ValidateSets(c: Scheme, cfg: Config) returns (r: Outcome<GenesisError>, seen: map<AttestorSetId, nat>)
    ensures r.Fail? ==> ExplainsSet(c, cfg, r.error)
    ensures r.Pass? ==> SetsSeen(c, cfg, |cfg.sets|, seen)
  {
    seen := map[];
    for i := 0 to |cfg.sets|
      invariant SetsSeen(c, cfg, i, seen)
    {
      if SetRule(c, i, cfg.sets[i], seen).Pass? { SetRulePasses(c, cfg, i, seen); } else { SetRuleRefuses(c, cfg, i, seen); }
      var set_ := cfg.sets[i];
      if set_.members == [] {
        return Fail(InitialAttestorSetEmpty(i)), seen;
      }
      var count := |set_.members|;
      if set_.threshold == 0 || set_.threshold > count {
        return Fail(InitialAttestorSetInvalidThreshold(i, set_.threshold, count)), seen;
      }
      var id := c.setId(Sort(set_.members), set_.threshold);
      if id in seen {
        return Fail(InitialAttestorSetDuplicate(seen[id], i)), seen;
      }
      seen := seen[id := i];
    }
    r := Pass;
  }

  /** Second pass: every initial schema, with the index each id was first seen at. */
  method ValidateSchemas(c: Scheme, cfg: Config, sets: map<AttestorSetId, nat>) returns (r: Outcome<GenesisError>)
    requires SchemasSeen(c, cfg, 0, sets, map[])
    ensures r.Fail? ==> ExplainsSchema(c, cfg, r.error)
    ensures r.Pass? ==> exists seen :: SchemasSeen(c, cfg, |cfg.schemas|, sets, seen)
  {
    var cap := cfg.maxBuilderBps;
    var seen: map<SchemaId, nat> := map[];
    for i := 0 to |cfg.schemas|
      invariant SchemasSeen(c, cfg, i, sets, seen)
    {
      var schema := cfg.schemas[i];
      if SchemaRule(c, i, schema, cap, sets, seen).Pass? {
        SchemaRulePasses(c, cfg, i, sets, seen);
      } else {
        SchemaRuleRefuses(c, cfg, i, sets, seen);
      }
      if schema.bps > cap {
        return Fail(InitialSchemaFeeRoutingExceedsCap(i, schema.name, schema.bps, cap));
      }
      var hasAddr := schema.routeTo.Some?;
      if (schema.bps > 0) != hasAddr {
        return Fail(InitialSchemaOrphanRouting(i, schema.name, schema.bps, hasAddr));
      }
      if schema.attestorSet !in sets {
        return Fail(InitialSchemaUnknownAttestorSet(i, schema.name, schema.attestorSet));
      }
      var id := c.schemaId(schema.owner, schema.name, schema.version);
      if id in seen {
        return Fail(InitialSchemaDuplicate(seen[id], i));
      }
      seen := seen[id := i];
    }
    return Pass;
  }

  lemma SeedSetKeepsSchemas(c: Scheme, s: State, a: AttestorSet)
    requires SeedSet(c, s, a).Success?
    ensures SeedSet(c, s, a).value.schemas == s.schemas
  {}

  lemma {:induction false} SeedSetsKeepsSchemas(c: Scheme, s: State, sets: seq<AttestorSet>)
    requires SeedSets(c, s, sets).Success?
    ensures SeedSets(c, s, sets).value.schemas == s.schemas
    decreases |sets|
  {
    if sets != [] {
      SeedSetsKeepsSchemas(c, s, sets[..|sets| - 1]);
      SeedSetKeepsSchemas(c, SeedSets(c, s, sets[..|sets| - 1]).value, sets[|sets| - 1]);
    }
  }

  /** The validator accepts exactly what seeding from the empty state accepts; else both stop at one entry for one reason. */
  method ValidateAttestationConfig(c: Scheme, cfg: Config) returns (r: Outcome<GenesisError>)
    ensures r.Pass? <==> Seed(c, EMPTY, cfg).Success?
    ensures r.Fail? ==> Explains(c, cfg, r.error) && Seed(c, EMPTY, cfg) == Failure(Reason(r.error))
  {
    var seen;
    r, seen := ValidateSets(c, cfg);
    if r.Pass? {
      assert cfg.sets[..|cfg.sets|] == cfg.sets && cfg.schemas[..|cfg.schemas|] == cfg.schemas;
      SeedSetsKeepsSchemas(c, SeedParameters(EMPTY, cfg), cfg.sets);
      r := ValidateSchemas(c, cfg, seen);
    }
    if r.Fail? { ExplainedSeedFails(c, cfg, r.error); }
  }

  /** Cross-module checks first, then the attestation config. */
  method ValidateConfig(c: Scheme, hasGasToken: bool, bankToken: TokenId, cfg: Config) returns (r: Outcome<GenesisError>)
    ensures r.Pass? <==> hasGasToken && cfg.avow == bankToken && Seed(c, EMPTY, cfg).Success?
    ensures r == Fail(MissingGasToken) <==> !hasGasToken
    ensures r == Fail(AvowTokenIdMismatch(cfg.avow, bankToken)) <==> hasGasToken && cfg.avow != bankToken
    ensures r.Fail? && hasGasToken && cfg.avow == bankToken ==> Explains(c, cfg, r.error)
  {
    if !hasGasToken {
      return Fail(MissingGasToken);
    }
    if cfg.avow != bankToken {
      return Fail(AvowTokenIdMismatch(cfg.avow, bankToken));
    }
    r := ValidateAttestationConfig(c, cfg);
  }
}
