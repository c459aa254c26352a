/** Ways out: emptying a bounty and settling a contract from every reachable world. */
module MarketExit {
  import opened Types
  import opened Ledger
  import opened Market
  import A = Attestation
  import AP = AttestationProofs
  import B = Bounty
  import BB = BountyBooks
  import BS = BountySafety
  import BE = BountyExit
  import C = Contract
  import CB = ContractBooks
  import CS = ContractSafety
  import CE = ContractExit

  // ----- Leaving a bounty -----

  /** The owner's rulings as transactions. */
  function RulingActions(owner: Address, b: BountyId, rulings: seq<BE.Ruling>): seq<Action> {
    if rulings == [] then []
    else [CallBounty(owner, B.ResolveDispute(b, rulings[0].attestation, rulings[0].decision))]
         + RulingActions(owner, b, rulings[1..])
  }

  lemma {:induction false} RulingsRun(c: Scheme, w: World, owner: Address, b: BountyId, rulings: seq<BE.Ruling>)
    requires BE.ResolveEach(w.bounty, w.funds, w.att, owner, b, rulings).Done?
    ensures var v := BE.ResolveEach(w.bounty, w.funds, w.att, owner, b, rulings);
            Run(c, w, RulingActions(owner, b, rulings)) == w.(bounty := v.state, funds := v.funds)
    decreases |rulings|
  {
    if rulings != [] {
      var first := CallBounty(owner, B.ResolveDispute(b, rulings[0].attestation, rulings[0].decision));
      RunFirst(c, w, first, RulingActions(owner, b, rulings[1..]));
      RulingsRun(c, Apply(c, w, first), owner, b, rulings[1..]);
    }
  }

  /** The transactions that wind up bounty b: rulings, time, and a last call that closes it. */
  function ExitActions(owner: Address, b: BountyId, rulings: seq<BE.Ruling>, height: u64, who: Address, m: B.Message)
    : seq<Action>
  {
    RulingActions(owner, b, rulings) + [Advance(height), CallBounty(who, m)]
  }

  lemma ExitRuns(c: Scheme, w: World, owner: Address, b: BountyId, rulings: seq<BE.Ruling>, height: u64, who: Address,
                 m: B.Message)
    requires BE.ResolveEach(w.bounty, w.funds, w.att, owner, b, rulings).Done? && w.clock.rollup <= height
    ensures var v := BE.ResolveEach(w.bounty, w.funds, w.att, owner, b, rulings);
            Run(c, w, ExitActions(owner, b, rulings, height, who, m))
            == Apply(c, w.(bounty := v.state, funds := v.funds, clock := w.clock.(rollup := height)), CallBounty(who, m))
  {
    var v := BE.ResolveEach(w.bounty, w.funds, w.att, owner, b, rulings);
    RulingsRun(c, w, owner, b, rulings);
    var wait, last := Advance(height), CallBounty(who, m);
    RunConcat(c, w, RulingActions(owner, b, rulings), [wait, last]);
    var u := w.(bounty := v.state, funds := v.funds);
    assert [wait, last] == [wait] + [last] && [last] == [last] + [];
    RunFirst(c, u, wait, [last]);
    RunFirst(c, u.(clock := w.clock.(rollup := height)), last, []);
  }

  lemma FinaliseApplied(c: Scheme, w: World, who: Address, b: BountyId)
    ensures Apply(c, w, CallBounty(who, B.FinaliseBounty(b))).bounty == BE.TryFinalise(w.bounty, w.funds, w.att, w.clock, b)
  {}

  lemma CancelApplied(c: Scheme, w: World, who: Address, b: BountyId)
    ensures Apply(c, w, CallBounty(who, B.CancelBounty(b))).bounty
         == BE.TryCancel(w.bounty, w.funds, w.att, w.clock, who, b)
  {}

  /** What the lemmas below need of a reachable world. */
  lemma Reachable(c: Scheme, cfg: A.Config, w: World, xs: seq<Action>)
    requires Genesis(c, cfg, w)
    ensures var y := Run(c, w, xs);
            && BS.Holds(y.bounty, y.funds, y.att, y.clock.rollup) && CS.Holds(y.contract, y.funds, y.clock.rollup)
            && y.att.avow.Some?
            && forall b :: b in y.bounty.bounties ==> y.bounty.bounties[b].board in y.att.schemas
  {
    GenesisInvariant(c, cfg, w);
    RunKeeps(c, w, xs);
  }

  /**
   * Nothing is stranded, as a run: from every reachable world, after the board owner's rulings on b's open disputes
   * (any order, any decisions), time passing to a ripe height and a finalise call by anyone, b holds no AVOW.
   */
  lemma NothingStrandedRun(c: Scheme, cfg: A.Config, w: World, xs: seq<Action>, b: BountyId, rulings: seq<BE.Ruling>,
                           height: u64, anyone: Address)
    requires Genesis(c, cfg, w) && b in Run(c, w, xs).bounty.bounties
    requires BE.Covers(rulings, b, BS.ViewAt(Run(c, w, xs).bounty, b).bonds)
    requires Run(c, w, xs).clock.rollup <= height
    requires BE.Ripe(BS.ViewAt(Run(c, w, xs).bounty, b), Run(c, w, xs).clock.(rollup := height))
    ensures Run(c, w, xs).bounty.bounties[b].board in Run(c, w, xs).att.schemas
    ensures var owner := Run(c, w, xs).att.schemas[Run(c, w, xs).bounty.bounties[b].board].owner;
            var exit := ExitActions(owner, b, rulings, height, anyone, B.FinaliseBounty(b));
            BE.Emptied(Run(c, w, xs + exit).bounty, b)
  {
    Reachable(c, cfg, w, xs);
    var y := Run(c, w, xs);
    BE.NothingLeftBehind(y.bounty, y.funds, y.att, y.clock.rollup, b, rulings, y.clock.(rollup := height));
    var owner := y.att.schemas[y.bounty.bounties[b].board].owner;
    var v := BE.ResolveEach(y.bounty, y.funds, y.att, owner, b, rulings);
    ExitRuns(c, y, owner, b, rulings, height, anyone, B.FinaliseBounty(b));
    FinaliseApplied(c, y.(bounty := v.state, funds := v.funds, clock := y.clock.(rollup := height)), anyone, b);
    RunConcat(c, w, xs, ExitActions(owner, b, rulings, height, anyone, B.FinaliseBounty(b)));
  }

  lemma BondsOfOne(s: B.State, b: BountyId)
    ensures forall x :: x in BS.ViewAt(s, b).bonds ==> x.bounty == b
  {}

  /**
   * Such an exit exists from every reachable world, and is open to anyone, if a ripe height comes at all: no claim is
   * dated, or the last dispute window ends before the height range does.
   */
  lemma AnyoneCanExit(c: Scheme, cfg: A.Config, w: World, xs: seq<Action>, b: BountyId, d: B.Decision, anyone: Address)
    requires Genesis(c, cfg, w) && b in Run(c, w, xs).bounty.bounties
    requires var v := BS.ViewAt(Run(c, w, xs).bounty, b);
             v.latest == 0 || v.latest + Run(c, w, xs).bounty.bounties[b].window < U64_MAX
    ensures Run(c, w, xs).bounty.bounties[b].board in Run(c, w, xs).att.schemas
    ensures var owner := Run(c, w, xs).att.schemas[Run(c, w, xs).bounty.bounties[b].board].owner;
            exists rulings, height :: BE.Emptied(
              Run(c, w, xs + ExitActions(owner, b, rulings, height, anyone, B.FinaliseBounty(b))).bounty, b)
  {
    Reachable(c, cfg, w, xs);
    var y := Run(c, w, xs);
    var v := BS.ViewAt(y.bounty, b);
    assert BB.Good(v, y.clock.rollup);
    BondsOfOne(y.bounty, b);
    BE.SomeRulingsCover(b, v.bonds, d);
    var rulings :| BE.Covers(rulings, b, v.bonds);
    BE.RipensIff(v, y.clock.rollup, y.clock.genesisDa);
    var height: u64 :| height >= y.clock.rollup && BE.Ripe(v, Clock(y.clock.genesisDa, height));
    assert y.clock.(rollup := height) == Clock(y.clock.genesisDa, height);
    NothingStrandedRun(c, cfg, w, xs, b, rulings, height, anyone);
  }

  lemma PosterExits(c: Scheme, y: World, b: BountyId, rulings: seq<BE.Ruling>, height: u64)
    requires BS.Holds(y.bounty, y.funds, y.att, y.clock.rollup) && y.att.avow.Some? && b in y.bounty.bounties
    requires BE.Covers(rulings, b, BS.ViewAt(y.bounty, b).bonds)
    requires y.clock.rollup <= height && y.clock.(rollup := height).DaHeight() >= y.bounty.bounties[b].expiry
    ensures y.bounty.bounties[b].board in y.att.schemas
    ensures var r := y.bounty.bounties[b];
            var exit := ExitActions(y.att.schemas[r.board].owner, b, rulings, height, r.poster, B.CancelBounty(b));
            BE.Emptied(Run(c, y, exit).bounty, b)
  {
    var clock := y.clock.(rollup := height);
    BE.PosterEmpties(y.bounty, y.funds, y.att, y.clock.rollup, b, rulings, clock);
    var r := y.bounty.bounties[b];
    var owner := y.att.schemas[r.board].owner;
    var v := BE.ResolveEach(y.bounty, y.funds, y.att, owner, b, rulings);
    ExitRuns(c, y, owner, b, rulings, height, r.poster, B.CancelBounty(b));
    CancelApplied(c, y.(bounty := v.state, funds := v.funds, clock := clock), r.poster, b);
  }

  /** The poster's last call: after any rulings, at the last height there is. */
  function PosterExit(y: World, b: BountyId, rulings: seq<BE.Ruling>): seq<Action>
    requires b in y.bounty.bounties && y.bounty.bounties[b].board in y.att.schemas
  {
    var r := y.bounty.bounties[b];
    ExitActions(y.att.schemas[r.board].owner, b, rulings, U64_MAX, r.poster, B.CancelBounty(b))
  }

  lemma PosterExitExists(c: Scheme, y: World, b: BountyId, d: B.Decision)
    requires BS.Holds(y.bounty, y.funds, y.att, y.clock.rollup) && y.att.avow.Some? && b in y.bounty.bounties
    ensures y.bounty.bounties[b].board in y.att.schemas
    ensures exists rulings :: BE.Emptied(Run(c, y, PosterExit(y, b, rulings)).bounty, b)
  {
    BondsOfOne(y.bounty, b);
    BE.SomeRulingsCover(b, BS.ViewAt(y.bounty, b).bonds, d);
    var rulings :| BE.Covers(rulings, b, BS.ViewAt(y.bounty, b).bonds);
    PosterExits(c, y, b, rulings, U64_MAX);
    assert BE.Emptied(Run(c, y, PosterExit(y, b, rulings)).bounty, b);
  }

  /** The poster's exit needs no condition at all: from every reachable world some rulings, time and a cancel empty b. */
  lemma PosterCanAlwaysExit(c: Scheme, cfg: A.Config, w: World, xs: seq<Action>, b: BountyId, d: B.Decision)
    requires Genesis(c, cfg, w) && b in Run(c, w, xs).bounty.bounties
    ensures Run(c, w, xs).bounty.bounties[b].board in Run(c, w, xs).att.schemas
    ensures exists rulings :: BE.Emptied(Run(c, w, xs + PosterExit(Run(c, w, xs), b, rulings)).bounty, b)
  {
    Reachable(c, cfg, w, xs);
    var y := Run(c, w, xs);
    PosterExitExists(c, y, b, d);
    var rulings :| BE.Emptied(Run(c, y, PosterExit(y, b, rulings)).bounty, b);
    RunConcat(c, w, xs, PosterExit(y, b, rulings));
  }

  // ----- Settling a contract -----

  /** In every reachable world a contract past its window, in dispute or expired can be settled, whatever else happened. */
  lemma SettlementsNeverRevert(c: Scheme, cfg: A.Config, w: World, xs: seq<Action>, id: ContractId, anyone: Address,
                               d: C.Decision)
    requires Genesis(c, cfg, w) && id in Run(c, w, xs).contract.contracts
    ensures var y := Run(c, w, xs);
            var r := y.contract.contracts[id];
            && (r.status == C.Delivered ==> id in y.contract.deliveries)
            && (r.status == C.Delivered
                && CE.WindowClosed(y.contract.deliveries[id].deliveredAt, r.window, y.clock.rollup) ==>
                  C.Step(c, y.contract, y.funds, y.att, y.clock, anyone, C.FinalizeDelivery(id)).Done?)
            && (r.status == C.Delivered ==>
                  C.Step(c, y.contract, y.funds, y.att, y.clock, r.poster, C.AcceptDelivery(id)).Done?)
            && (r.status == C.Disputed ==>
                  C.Step(c, y.contract, y.funds, y.att, y.clock, r.arbiter, C.ResolveContractDispute(id, d)).Done?)
            && (!CB.Terminal(r.status) && y.clock.DaHeight() >= r.expiry ==>
                  C.Step(c, y.contract, y.funds, y.att, y.clock, r.poster, C.CancelContract(id)).Done?)
  {
    Reachable(c, cfg, w, xs);
    var y := Run(c, w, xs);
    var r := y.contract.contracts[id];
    CE.FinalizeIff(c, y.contract, y.funds, y.att, y.clock, anyone, id);
    CE.AcceptIff(c, y.contract, y.funds, y.att, y.clock, r.poster, id);
    CE.ResolveIff(c, y.contract, y.funds, y.att, y.clock, r.arbiter, id, d);
    CE.CancelIff(c, y.contract, y.funds, y.att, y.clock, r.poster, id);
  }

  /** Contract calls come from standard 28-byte addresses only. */
  predicate StandardSenders(actions: seq<Action>) {
    forall a :: a in actions && a.CallContract? ==> |a.sender.bytes| == 28
  }

  lemma ApplyKeepsStandard(c: Scheme, w: World, action: Action)
    requires CE.StandardWorkers(w.contract) && (action.CallContract? ==> |action.sender.bytes| == 28)
    ensures CE.StandardWorkers(Apply(c, w, action).contract)
  {
    match action
    case CallContract(sender, m) =>
      if !m.PostContract? && C.Step(c, w.contract, w.funds, w.att, w.clock, sender, m).Done? {
        CS.CallStep(w.contract, w.funds, w.att, w.clock, sender, m);
        CE.CallKeepsStandard(w.contract, w.att, w.clock, sender, m);
      }
    case _ =>
  }

  lemma {:induction false} RunKeepsStandard(c: Scheme, w: World, actions: seq<Action>)
    requires CE.StandardWorkers(w.contract) && StandardSenders(actions)
    ensures CE.StandardWorkers(Run(c, w, actions).contract)
    decreases |actions|
  {
    if actions != [] {
      var front, last := actions[..|actions| - 1], actions[|actions| - 1];
      RunKeepsStandard(c, w, front);
      ApplyKeepsStandard(c, Run(c, w, front), last);
    }
  }

  /** In every run whose contract calls come from standard addresses, the bond behind a delivery is the deliverer's own. */
  lemma DeliverersOwnTheirBonds(c: Scheme, cfg: A.Config, w: World, xs: seq<Action>, id: ContractId)
    requires Genesis(c, cfg, w) && StandardSenders(xs)
    requires id in Run(c, w, xs).contract.contracts
    requires Run(c, w, xs).contract.contracts[id].status in {C.Delivered, C.Disputed}
    ensures var s := Run(c, w, xs).contract;
            && id in s.deliveries && C.KeyOf(id, s.deliveries[id].worker) in s.commits
            && s.commits[C.KeyOf(id, s.deliveries[id].worker)].worker == s.deliveries[id].worker
            && s.commits[C.KeyOf(id, s.deliveries[id].worker)].bond > 0
  {
    Reachable(c, cfg, w, xs);
    RunKeepsStandard(c, w, xs);
    CE.DelivererOwnsBond(Run(c, w, xs).contract, Run(c, w, xs).clock.rollup, id);
  }
}
