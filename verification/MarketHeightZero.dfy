/** A run from genesis in which a bounty finalised at height 0 is disputed afterwards. */
module MarketHeightZero {
  import opened Types
  import opened Ids
  import opened Ledger
  import opened Market
  import A = Attestation
  import AP = AttestationProofs
  import B = Bounty
  import BB = BountyBooks
  import BS = BountySafety
  import BM = BountyMoves
  import BE = BountyExit
  import C = Contract

  /** A chain with one attestor, one schema, one user, no fees, and a signature the attestor can make. */
  datatype Scenario = Scenario(user: Address, key: PubKey, sig: Bytes, payload: PayloadHash, avow: TokenId, shape: Bytes32)

  function SetOf(st: Scenario): A.AttestorSet {
    A.AttestorSet([st.key], 1)
  }

  function SchemaOf(c: Scheme, st: Scenario): A.Schema {
    A.Schema(st.user, [], 0, c.setId([st.key], 1), 0, None, st.shape)
  }

  function BoardOf(c: Scheme, st: Scenario): SchemaId {
    c.schemaId(st.user, [], 0)
  }

  function ConfigOf(c: Scheme, st: Scenario): A.Config {
    A.Config(st.user, st.avow, 0, 0, 0, [SetOf(st)], [SchemaOf(c, st)], 0)
  }

  /** The attestor's signature verifies over the submission's digest. */
  predicate Signed(c: Scheme, st: Scenario) {
    |st.sig| == 64 && c.isPoint(st.key)
    && c.verify(st.key, c.digest(BoardOf(c, st), st.payload, st.user, A.TIMESTAMP), st.sig)
  }

  function Seeded(c: Scheme, st: Scenario): A.State {
    A.SeedParameters(A.EMPTY, ConfigOf(c, st)).(sets := map[c.setId([st.key], 1) := SetOf(st)],
                                                schemas := map[BoardOf(c, st) := SchemaOf(c, st)])
  }

  lemma SeedsOneSet(c: Scheme, s: A.State, st: Scenario)
    requires s.sets == map[]
    ensures A.SeedSets(c, s, [SetOf(st)]) == Success(s.(sets := map[c.setId([st.key], 1) := SetOf(st)]))
  {
    var sets := [SetOf(st)];
    assert sets[..0] == [];
    assert Sort([st.key]) == [st.key];
    assert A.SeedSets(c, s, sets) == A.SeedSet(c, s, sets[0]);
  }

  lemma SeedsOneSchema(c: Scheme, s: A.State, st: Scenario)
    requires s.schemas == map[] && c.setId([st.key], 1) in s.sets
    ensures A.SeedSchemas(c, s, 0, [SchemaOf(c, st)]) == Success(s.(schemas := map[BoardOf(c, st) := SchemaOf(c, st)]))
  {
    var schemas := [SchemaOf(c, st)];
    assert schemas[..0] == [];
    assert A.SeedSchemas(c, s, 0, schemas) == A.SeedSchema(c, s, 0, schemas[0]);
  }

  lemma Seeds(c: Scheme, st: Scenario)
    ensures A.Seed(c, A.EMPTY, ConfigOf(c, st)) == Success(Seeded(c, st))
  {
    var p := A.SeedParameters(A.EMPTY, ConfigOf(c, st));
    SeedsOneSet(c, p, st);
    SeedsOneSchema(c, p.(sets := map[c.setId([st.key], 1) := SetOf(st)]), st);
  }

  /** The genesis world: the user holds two units, the rollup is at height 0. */
  function Start(c: Scheme, st: Scenario): World {
    World(map[User(st.user) := 2], Seeded(c, st), B.EMPTY, C.EMPTY, Clock(None, 0))
  }

  lemma StartIsGenesis(c: Scheme, st: Scenario)
    ensures Genesis(c, ConfigOf(c, st), Start(c, st))
  {
    Seeds(c, st);
    TotalAfterSet(map[], User(st.user), 2);
  }

  // ----- The five transactions -----

  function Submission(c: Scheme, st: Scenario): Action {
    Attest(st.user, A.SubmitAttestation(BoardOf(c, st), st.payload, [A.Signature(st.key, st.sig)]))
  }

  function Posting(c: Scheme, st: Scenario): Action {
    CallBounty(st.user, B.PostBounty(BoardOf(c, st), 1, 1, B.Any, 1, 0))
  }

  function BountyOf(c: Scheme, st: Scenario): BountyId {
    c.bountyId(st.user, BoardOf(c, st), 0)
  }

  function AttestationOf(c: Scheme, st: Scenario): AttestationId {
    c.attestationId(BoardOf(c, st), st.payload)
  }

  function RecordOf(c: Scheme, st: Scenario): B.Record {
    B.Record(st.user, BoardOf(c, st), 1, 1, B.Any, 1, 0, B.Open)
  }

  function Attested(c: Scheme, st: Scenario): A.State {
    Seeded(c, st).(
      attestations := map[AttestationOf(c, st) :=
        A.Record(BoardOf(c, st), st.payload, st.user, A.TIMESTAMP, [A.Signature(st.key, st.sig)])],
      log := [A.AttestationSubmitted(BoardOf(c, st), st.payload, st.user, 1)])
  }

  lemma FreeSubmission(s: A.State, l: Balances, sender: Address, schema: A.Schema)
    requires s.attestationFee == Some(0) && schema.bps == 0
    ensures A.ChargeSubmission(s, l, sender, schema) == A.Done(s, l)
  {}

  lemma SubmissionQuorum(c: Scheme, st: Scenario)
    requires Signed(c, st)
    ensures A.Validate(c, SetOf(st), c.digest(BoardOf(c, st), st.payload, st.user, A.TIMESTAMP), st.user, A.TIMESTAMP,
                       [A.Signature(st.key, st.sig)], 0) == Pass
  {
    AP.ValidateIsQuorum(c, SetOf(st), c.digest(BoardOf(c, st), st.payload, st.user, A.TIMESTAMP), st.user, A.TIMESTAMP,
                        [A.Signature(st.key, st.sig)]);
  }

  lemma Submits(c: Scheme, st: Scenario, l: Balances)
    requires Signed(c, st)
    ensures A.Submit(c, Seeded(c, st), l, st.user, BoardOf(c, st), st.payload, [A.Signature(st.key, st.sig)])
         == A.Done(Attested(c, st), l)
  {
    SubmissionQuorum(c, st);
    FreeSubmission(Seeded(c, st), l, st.user, SchemaOf(c, st));
  }

  lemma Posts(c: Scheme, st: Scenario)
    ensures B.Post(c, B.EMPTY, map[User(st.user) := 2], Attested(c, st), Clock(None, 0), st.user, BoardOf(c, st), 1, 1,
                   B.Any, 1, 0)
         == B.Done(B.Posted(B.EMPTY, BountyOf(c, st), RecordOf(c, st), 0), map[User(st.user) := 1, B.ESCROW := 1])
  {}

  /** The world after the submission and the post: one open single-payout bounty and an attestation that fills it. */
  function Ready(c: Scheme, st: Scenario): World {
    World(map[User(st.user) := 1, B.ESCROW := 1], Attested(c, st),
          B.Posted(B.EMPTY, BountyOf(c, st), RecordOf(c, st), 0), C.EMPTY, Clock(None, 0))
  }

  lemma RunPair(c: Scheme, w: World, x: Action, y: Action)
    ensures Run(c, w, [x, y]) == Apply(c, Apply(c, w, x), y)
  {
    assert [x, y] == [x] + [y];
    RunFirst(c, w, x, [y]);
    RunOne(c, Apply(c, w, x), y);
  }

  lemma AfterSubmission(c: Scheme, st: Scenario)
    requires Signed(c, st)
    ensures Apply(c, Start(c, st), Submission(c, st)) == Start(c, st).(att := Attested(c, st))
  {
    Submits(c, st, map[User(st.user) := 2]);
  }

  lemma AfterPosting(c: Scheme, st: Scenario)
    ensures Apply(c, Start(c, st).(att := Attested(c, st)), Posting(c, st)) == Ready(c, st)
  {
    Posts(c, st);
  }

  lemma RunsToReady(c: Scheme, st: Scenario)
    requires Signed(c, st)
    ensures Run(c, Start(c, st), [Submission(c, st), Posting(c, st)]) == Ready(c, st) && Invariant(c, Ready(c, st))
  {
    AfterSubmission(c, st);
    AfterPosting(c, st);
    RunPair(c, Start(c, st), Submission(c, st), Posting(c, st));
    StartIsGenesis(c, st);
    GenesisInvariant(c, ConfigOf(c, st), Start(c, st));
    RunKeeps(c, Start(c, st), [Submission(c, st), Posting(c, st)]);
  }

  lemma ReadyForOne(c: Scheme, st: Scenario)
    ensures var w := Ready(c, st);
            BE.SinglePayout(w.bounty, w.att, w.clock, BountyOf(c, st), AttestationOf(c, st))
            && Balance(w.funds, User(st.user)) == 1
  {}

  /** Claim, finalise, dispute. */
  function Reopening(c: Scheme, st: Scenario): seq<Action> {
    var b, a := BountyOf(c, st), AttestationOf(c, st);
    [CallBounty(st.user, B.ClaimBounty(b, [a])), CallBounty(st.user, B.FinaliseBounty(b)),
     CallBounty(st.user, B.DisputeAttestation(b, a, B.Other))]
  }

  lemma RunTriple(c: Scheme, w: World, x: Action, y: Action, z: Action)
    ensures Run(c, w, [x, y, z]) == Apply(c, Apply(c, Apply(c, w, x), y), z)
  {
    assert [x, y, z][..2] == [x, y];
    RunPair(c, w, x, y);
  }

  lemma Claims(c: Scheme, w: World, u: Address, b: BountyId, claims: B.ClaimBatch)
    requires B.Claim(w.bounty, w.funds, w.att, w.clock, b, claims).Done?
    ensures var v := B.Claim(w.bounty, w.funds, w.att, w.clock, b, claims);
            Apply(c, w, CallBounty(u, B.ClaimBounty(b, claims))) == w.(bounty := v.state, funds := v.funds)
  {}

  lemma Finalises(c: Scheme, w: World, u: Address, b: BountyId)
    requires B.Finalise(w.bounty, w.funds, w.att, w.clock, b).Done?
    ensures var v := B.Finalise(w.bounty, w.funds, w.att, w.clock, b);
            Apply(c, w, CallBounty(u, B.FinaliseBounty(b))) == w.(bounty := v.state, funds := v.funds)
  {}

  lemma Disputes(c: Scheme, w: World, u: Address, b: BountyId, a: AttestationId)
    requires B.DisputeClaim(w.bounty, w.funds, w.att, w.clock, u, b, a, B.Other).Done?
    ensures var v := B.DisputeClaim(w.bounty, w.funds, w.att, w.clock, u, b, a, B.Other);
            Apply(c, w, CallBounty(u, B.DisputeAttestation(b, a, B.Other))) == w.(bounty := v.state, funds := v.funds)
  {}

  /** A finalised bounty with an open dispute. */
  ghost predicate BountyReopened(s: B.State, b: BountyId, a: AttestationId) {
    b in s.bounties && s.bounties[b].status == B.Finalised && B.DisputeKey(b, a) in s.disputes
  }

  lemma Reopens(c: Scheme, w: World, u: Address, b: BountyId, a: AttestationId)
    requires BS.Holds(w.bounty, w.funds, w.att, 0) && w.clock.rollup == 0 && w.att.avow.Some?
    requires BE.SinglePayout(w.bounty, w.att, w.clock, b, a) && w.bounty.bounties[b].per <= Balance(w.funds, User(u))
    ensures var claimed := Apply(c, w, CallBounty(u, B.ClaimBounty(b, [a])));
            var closed := Apply(c, claimed, CallBounty(u, B.FinaliseBounty(b)));
            var z := Apply(c, closed, CallBounty(u, B.DisputeAttestation(b, a, B.Other)));
            BountyReopened(z.bounty, b, a)
  {
    BE.FinalisedAtZeroReopens(w.bounty, w.funds, w.att, w.clock, b, a, u, B.Other);
    Claims(c, w, u, b, [a]);
    var claimed := Apply(c, w, CallBounty(u, B.ClaimBounty(b, [a])));
    Finalises(c, claimed, u, b);
    Disputes(c, Apply(c, claimed, CallBounty(u, B.FinaliseBounty(b))), u, b, a);
  }

  /** From genesis at height 0, whenever the attestor can sign: a Finalised bounty with an open dispute is reachable. */
  lemma ReachesReopened(c: Scheme, st: Scenario)
    requires Signed(c, st)
    ensures Genesis(c, ConfigOf(c, st), Start(c, st))
    ensures var z := Run(c, Start(c, st), [Submission(c, st), Posting(c, st)] + Reopening(c, st));
            BountyReopened(z.bounty, BountyOf(c, st), AttestationOf(c, st))
  {
    StartIsGenesis(c, st);
    RunsToReady(c, st);
    ReadyForOne(c, st);
    var w, b, a := Ready(c, st), BountyOf(c, st), AttestationOf(c, st);
    Reopens(c, w, st.user, b, a);
    RunConcat(c, Start(c, st), [Submission(c, st), Posting(c, st)], Reopening(c, st));
    var acts := Reopening(c, st);
    RunTriple(c, w, acts[0], acts[1], acts[2]);
    assert acts == [acts[0], acts[1], acts[2]];
  }

  /** With a hash and a signature scheme written out, nothing is left to assume. */
  lemma ReopenedRunExists()
    ensures exists c: Scheme, cfg, w, actions, b, a ::
              Genesis(c, cfg, w) && BountyReopened(Run(c, w, actions).bounty, b, a)
  {
    var zero: Bytes32 := seq(32, _ => 0);
    var c := Sha256Scheme(Crypto(_ => zero, _ => true, (_, _, _) => true));
    var st := Scenario(Address(seq(28, _ => 0)), PubKey(zero), seq(64, _ => 0), PayloadHash(zero), TokenId(zero), zero);
    ReachesReopened(c, st);
    var actions := [Submission(c, st), Posting(c, st)] + Reopening(c, st);
    assert BountyReopened(Run(c, Start(c, st), actions).bounty, BountyOf(c, st), AttestationOf(c, st));
  }
}
