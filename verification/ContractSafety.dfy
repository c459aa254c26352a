/** What holds of the contract module after every call, in every run. */
module ContractSafety {
  import opened Types
  import opened Sums
  import opened Ledger
  import opened Contract
  import opened ContractBooks
  import opened ContractProofs
  import A = Attestation

  /** The module's invariant over the ledger it runs on. */
  ghost predicate Holds(s: State, l: Balances, h: nat) {
    Sound(s, Fold(s.log), Balance(l, ESCROW), h)
  }

  lemma EmptyHolds(l: Balances, h: nat)
    requires Balance(l, ESCROW) == 0
    ensures Holds(EMPTY, l, h)
  {}

  /** Time passing and other modules' calls keep it. */
  lemma FrameKeeps(s: State, l: Balances, h: nat, l1: Balances, h1: nat)
    requires Holds(s, l, h) && h <= h1 && Balance(l1, ESCROW) == Balance(l, ESCROW)
    ensures Holds(s, l1, h1)
  {
    forall id ensures Good(ViewOf(s, id), id, h1) { assert Good(ViewOf(s, id), id, h); }
  }

  // ----- Post -----

  lemma PostStep(c: Scheme, s: State, l: Balances, att: A.State, clock: Clock, r: Record)
    requires r.status == Open
    requires Post(c, s, l, att, clock, r.poster, r.arbiter, r.criteria, r.pool, r.expiry, r.window, r.bps).Done?
    ensures var Done(t, l1) := Post(c, s, l, att, clock, r.poster, r.arbiter, r.criteria, r.pool, r.expiry, r.window, r.bps);
            var nonce := Get(s.nextNonce, r.poster, 0);
            var id := c.contractId(r.poster, r.criteria, nonce);
            && id !in s.contracts && r.pool > 0 && r.bps <= MAX_ARBITER_FEE_BPS
            && t == Posted(s, id, r, nonce)
            && Balance(l1, ESCROW) == Balance(l, ESCROW) + r.pool && Total(l1) == Total(l)
  {
    PaySingle(l, Transfer(User(r.poster), ESCROW, r.pool));
    PayAllConserves(l, [Transfer(User(r.poster), ESCROW, r.pool)]);
  }

  lemma PostedViews(s: State, id: ContractId, r: Record, nonce: u64, h: nat, x: ContractId)
    requires id !in s.contracts && Good(ViewOf(s, id), id, h)
    ensures ViewOf(Posted(s, id, r, nonce), x)
         == if x == id then View(Some(r), r.pool, map[], None, None, [ContractPosted(id, r.poster, r.arbiter, r.pool)])
            else ViewOf(s, x)
  {
    HistoryLast(s.log, ContractPosted(id, r.poster, r.arbiter, r.pool), x);
  }

  lemma PostedGood(s: State, id: ContractId, r: Record, nonce: u64, h: nat)
    requires AllGood(s, h) && id !in s.contracts && r.status == Open && r.pool > 0 && r.bps <= MAX_ARBITER_FEE_BPS
    ensures AllGood(Posted(s, id, r, nonce), h)
  {
    forall x ensures Good(ViewOf(Posted(s, id, r, nonce), x), x, h) {
      assert Good(ViewOf(s, x), x, h) && Good(ViewOf(s, id), id, h);
      PostedViews(s, id, r, nonce, h, x);
      TraceLast([], ContractPosted(id, r.poster, r.arbiter, r.pool));
    }
  }

  lemma PostKeeps(c: Scheme, s: State, l: Balances, att: A.State, clock: Clock, r: Record)
    requires Holds(s, l, clock.rollup) && r.status == Open
    requires Post(c, s, l, att, clock, r.poster, r.arbiter, r.criteria, r.pool, r.expiry, r.window, r.bps).Done?
    ensures var Done(t, l1) := Post(c, s, l, att, clock, r.poster, r.arbiter, r.criteria, r.pool, r.expiry, r.window, r.bps);
            Holds(t, l1, clock.rollup) && Total(l1) == Total(l)
  {
    PostStep(c, s, l, att, clock, r);
    var nonce := Get(s.nextNonce, r.poster, 0);
    var id := c.contractId(r.poster, r.criteria, nonce);
    PostedGood(s, id, r, nonce, clock.rollup);
    FoldLast(s.log, ContractPosted(id, r.poster, r.arbiter, r.pool));
    SumInsert<ContractId, nat>(s.escrow, Same, id, r.pool);
  }

  // ----- Every other call -----

  lemma EnactGood(s: State, id: ContractId, e: Effect, h: nat)
    requires AllGood(s, h) && id in s.contracts && e.event.id == id && Good(After(ViewOf(s, id), id, e), id, h)
    ensures AllGood(Enact(s, id, e), h)
  {
    forall x ensures Good(ViewOf(Enact(s, id, e), x), x, h) {
      EnactViews(s, id, e, x);
      assert Good(ViewOf(s, x), x, h);
    }
  }

  /** What a completed call on a posted contract did. */
  lemma CallStep(s: State, l: Balances, att: A.State, clock: Clock, sender: Address, m: Message)
    requires !m.PostContract? && Settle(s, l, m.id, Decide(s, att, clock, sender, m)).Done?
    ensures Decide(s, att, clock, sender, m).Success? && m.id in s.contracts
    ensures var e := Decide(s, att, clock, sender, m).value;
            var Done(t, l1) := Settle(s, l, m.id, Decide(s, att, clock, sender, m));
            && e.event.id == m.id && t == Enact(s, m.id, e) && PayAll(l, e.transfers) == Some(l1)
            && Balance(l1, ESCROW) == Balance(l, ESCROW) + Net(e.transfers) && Total(l1) == Total(l)
  {
    DecideTargets(s, att, clock, sender, m);
    PayAllConserves(l, Decide(s, att, clock, sender, m).value.transfers);
  }

  lemma CallKeeps(s: State, l: Balances, att: A.State, clock: Clock, sender: Address, m: Message)
    requires Holds(s, l, clock.rollup) && !m.PostContract?
    requires Settle(s, l, m.id, Decide(s, att, clock, sender, m)).Done?
    ensures var Done(t, l1) := Settle(s, l, m.id, Decide(s, att, clock, sender, m));
            Holds(t, l1, clock.rollup) && Total(l1) == Total(l)
  {
    CallStep(s, l, att, clock, sender, m);
    var e := Decide(s, att, clock, sender, m).value;
    assert Good(ViewOf(s, m.id), m.id, clock.rollup);
    DecideGood(s, att, clock, sender, m, e);
    EnactGood(s, m.id, e, clock.rollup);
    DecideBalanced(s, att, clock, sender, m, e);
    DecideLocksFresh(s, att, clock, sender, m, e);
    EnactSolvent(s, m.id, e, Balance(l, ESCROW));
    DecideMatched(s, Fold(s.log), att, clock, sender, m, e);
    FoldLast(s.log, e.event);
    EnactKeys(s, m.id, e);
  }

  lemma EnactKeys(s: State, id: ContractId, e: Effect)
    requires s.escrow.Keys == s.contracts.Keys && id in s.contracts
    ensures Enact(s, id, e).escrow.Keys == Enact(s, id, e).contracts.Keys
  {}

  /** Every completed call keeps the invariant. */
  lemma StepKeeps(c: Scheme, s: State, l: Balances, att: A.State, clock: Clock, sender: Address, m: Message)
    requires Holds(s, l, clock.rollup) && Step(c, s, l, att, clock, sender, m).Done?
    ensures var Done(t, l1) := Step(c, s, l, att, clock, sender, m); Holds(t, l1, clock.rollup) && Total(l1) == Total(l)
  {
    match m
    case PostContract(arbiter, criteria, pool, expiry, window, bps) =>
      PostKeeps(c, s, l, att, clock, Record(sender, arbiter, criteria, pool, expiry, window, bps, Open));
    case _ => CallKeeps(s, l, att, clock, sender, m);
  }

  // ----- Finality -----

  lemma TerminalRefuses(s: State, att: A.State, clock: Clock, sender: Address, m: Message)
    requires !m.PostContract? && m.id in s.contracts && Terminal(s.contracts[m.id].status)
    ensures Decide(s, att, clock, sender, m).Failure?
  {}

  /** No completed call changes anything of a terminal contract: record, escrow, commits, delivery or dispute. */
  lemma StepKeepsTerminal(c: Scheme, s: State, l: Balances, att: A.State, clock: Clock, sender: Address, m: Message,
                          x: ContractId)
    requires AllGood(s, clock.rollup) && Step(c, s, l, att, clock, sender, m).Done?
    requires x in s.contracts && Terminal(s.contracts[x].status)
    ensures ViewOf(Step(c, s, l, att, clock, sender, m).state, x) == ViewOf(s, x)
  {
    match m
    case PostContract(arbiter, criteria, pool, expiry, window, bps) =>
      var r := Record(sender, arbiter, criteria, pool, expiry, window, bps, Open);
      var nonce := Get(s.nextNonce, sender, 0);
      PostStep(c, s, l, att, clock, r);
      assert Good(ViewOf(s, c.contractId(sender, criteria, nonce)), c.contractId(sender, criteria, nonce), clock.rollup);
      PostedViews(s, c.contractId(sender, criteria, nonce), r, nonce, clock.rollup, x);
    case _ =>
      CallStep(s, l, att, clock, sender, m);
      if m.id == x { TerminalRefuses(s, att, clock, sender, m); }
      EnactViews(s, m.id, Decide(s, att, clock, sender, m).value, x);
  }
}
