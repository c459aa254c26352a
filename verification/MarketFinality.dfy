/** What never changes again, over whole runs of the chain. */
module MarketFinality {
  import opened Types
  import opened Ledger
  import opened Market
  import A = Attestation
  import AP = AttestationProofs
  import B = Bounty
  import BB = BountyBooks
  import BS = BountySafety
  import BM = BountyMoves
  import BE = BountyExit
  import C = Contract
  import CB = ContractBooks
  import CS = ContractSafety
  import CE = ContractExit

  // ----- Contracts -----

  /** What the contract lemmas below need of the invariant. */
  lemma ContractFacts(c: Scheme, w: World)
    requires Invariant(c, w)
    ensures CB.AllGood(w.contract, w.clock.rollup)
  {}

  lemma ApplyKeepsTerminal(c: Scheme, w: World, action: Action, id: ContractId)
    requires CB.AllGood(w.contract, w.clock.rollup)
    requires id in w.contract.contracts && CB.Terminal(w.contract.contracts[id].status)
    ensures CB.ViewOf(Apply(c, w, action).contract, id) == CB.ViewOf(w.contract, id)
  {
    match action
    case CallContract(sender, m) =>
      if C.Step(c, w.contract, w.funds, w.att, w.clock, sender, m).Done? {
        CS.StepKeepsTerminal(c, w.contract, w.funds, w.att, w.clock, sender, m, id);
      }
    case _ =>
  }

  /** A terminal contract never changes again: record, escrow, commits, delivery, dispute or history. */
  lemma {:induction false} TerminalForever(c: Scheme, w: World, actions: seq<Action>, id: ContractId)
    requires Invariant(c, w) && id in w.contract.contracts && CB.Terminal(w.contract.contracts[id].status)
    ensures CB.ViewOf(Run(c, w, actions).contract, id) == CB.ViewOf(w.contract, id)
    decreases |actions|
  {
    if actions != [] {
      var front := actions[..|actions| - 1];
      RunKeeps(c, w, front);
      TerminalForever(c, w, front, id);
      var y := Run(c, w, front);
      assert CB.ViewOf(y.contract, id).record == CB.ViewOf(w.contract, id).record;
      ContractFacts(c, y);
      ApplyKeepsTerminal(c, y, actions[|actions| - 1], id);
    }
  }

  lemma ViewCommits(s: C.State, id: ContractId, key: C.CommitKey)
    requires key.contract == id
    ensures key in s.commits <==> key in CB.ViewOf(s, id).commits
    ensures key in s.commits ==> s.commits[key] == CB.ViewOf(s, id).commits[key]
  {}

  /** A terminal contract keeps every bond that is live on it, for good. */
  lemma TerminalLocksBonds(c: Scheme, w: World, id: ContractId, key: C.CommitKey, actions: seq<Action>)
    requires Invariant(c, w) && id in w.contract.contracts && CB.Terminal(w.contract.contracts[id].status)
    requires key in w.contract.commits && key.contract == id
    ensures var z := Run(c, w, actions); key in z.contract.commits && z.contract.commits[key] == w.contract.commits[key]
  {
    TerminalForever(c, w, actions, id);
    ViewCommits(w.contract, id, key);
    ViewCommits(Run(c, w, actions).contract, id, key);
  }

  lemma CancelApplied(c: Scheme, w: World, sender: Address, id: ContractId)
    requires C.Step(c, w.contract, w.funds, w.att, w.clock, sender, C.CancelContract(id)).Done?
    ensures var y := Apply(c, w, CallContract(sender, C.CancelContract(id)));
            y.contract.commits == w.contract.commits
            && id in y.contract.contracts && CB.Terminal(y.contract.contracts[id].status)
  {
    CE.CancelKeepsCommits(w.contract, w.funds, w.att, w.clock, sender, id);
  }

  /**
   * Cancelling, before or after expiry, locks every bond that is live on the contract: no call of any later run
   * returns or forfeits one, although the documentation promises a refund on expiry.
   */
  lemma CancelLocksBonds(c: Scheme, w: World, sender: Address, id: ContractId, key: C.CommitKey, actions: seq<Action>)
    requires Invariant(c, w) && key in w.contract.commits && key.contract == id
    requires C.Step(c, w.contract, w.funds, w.att, w.clock, sender, C.CancelContract(id)).Done?
    ensures var z := Run(c, Apply(c, w, CallContract(sender, C.CancelContract(id))), actions);
            key in z.contract.commits && z.contract.commits[key] == w.contract.commits[key]
  {
    ApplyKeeps(c, w, CallContract(sender, C.CancelContract(id)));
    CancelApplied(c, w, sender, id);
    TerminalLocksBonds(c, Apply(c, w, CallContract(sender, C.CancelContract(id))), id, key, actions);
  }

  // ----- Bounties -----

  /** What the bounty lemmas below need of the invariant. */
  lemma BountyFacts(c: Scheme, w: World, b: BountyId)
    requires Invariant(c, w)
    ensures BB.Good(BS.ViewAt(w.bounty, b), w.clock.rollup) && Total(w.funds) <= U128_MAX
  {}

  lemma ApplyKeepsSettled(c: Scheme, w: World, action: Action, b: BountyId)
    requires BB.Good(BS.ViewAt(w.bounty, b), w.clock.rollup) && Total(w.funds) <= U128_MAX
    requires BM.Settled(BS.ViewAt(w.bounty, b), w.clock.rollup)
    ensures BS.ViewAt(Apply(c, w, action).bounty, b) == BS.ViewAt(w.bounty, b)
  {
    match action
    case CallBounty(sender, m) =>
      if B.Step(c, w.bounty, w.funds, w.att, w.clock, sender, m).Done? {
        BM.StepKeepsSettled(c, w.bounty, w.funds, w.att, w.clock, sender, m, b);
      }
    case _ =>
  }

  /** A settled bounty never changes again: record, escrow, claims, disputes or counters. */
  lemma {:induction false} SettledForever(c: Scheme, w: World, actions: seq<Action>, b: BountyId)
    requires Invariant(c, w) && BM.Settled(BS.ViewAt(w.bounty, b), w.clock.rollup)
    ensures BS.ViewAt(Run(c, w, actions).bounty, b) == BS.ViewAt(w.bounty, b)
    decreases |actions|
  {
    if actions != [] {
      var front := actions[..|actions| - 1];
      RunKeeps(c, w, front);
      SettledForever(c, w, front, b);
      BountyFacts(c, Run(c, w, front), b);
      ApplyKeepsSettled(c, Run(c, w, front), actions[|actions| - 1], b);
    }
  }

  /** At no point of the run does b have 2^32 or more open disputes. */
  ghost predicate CountFits(c: Scheme, w: World, actions: seq<Action>, b: BountyId) {
    forall i :: 0 <= i <= |actions| ==> |BS.ViewAt(Run(c, w, actions[..i]).bounty, b).bonds| <= U32_MAX
  }

  lemma CountFitsPrefix(c: Scheme, w: World, actions: seq<Action>, b: BountyId)
    requires CountFits(c, w, actions, b) && actions != []
    ensures CountFits(c, w, actions[..|actions| - 1], b)
  {
    var front := actions[..|actions| - 1];
    forall i | 0 <= i <= |front| ensures |BS.ViewAt(Run(c, w, front[..i]).bounty, b).bonds| <= U32_MAX {
      assert front[..i] == actions[..i];
    }
  }

  lemma CountFitsNow(c: Scheme, w: World, actions: seq<Action>, b: BountyId)
    requires CountFits(c, w, actions, b)
    ensures |BS.ViewAt(Run(c, w, actions).bounty, b).bonds| <= U32_MAX
  {
    var n := |actions|;
    assert |BS.ViewAt(Run(c, w, actions[..n]).bounty, b).bonds| <= U32_MAX;
    assert actions[..n] == actions;
  }

  lemma ApplyExact(c: Scheme, w: World, action: Action, b: BountyId)
    requires BB.Good(BS.ViewAt(w.bounty, b), w.clock.rollup) && Total(w.funds) <= U128_MAX
    requires BB.Exact(BS.ViewAt(w.bounty, b)) && |BS.ViewAt(Apply(c, w, action).bounty, b).bonds| <= U32_MAX
    ensures BB.Exact(BS.ViewAt(Apply(c, w, action).bounty, b))
  {
    match action
    case CallBounty(sender, m) =>
      if B.Step(c, w.bounty, w.funds, w.att, w.clock, sender, m).Done? {
        BM.StepKeepsExact(c, w.bounty, w.funds, w.att, w.clock, sender, m, b);
      }
    case _ =>
  }

  /** A bounty's dispute counter is exact throughout every run in which that bounty's own disputes fit it. */
  lemma {:induction false} CountersExact(c: Scheme, w: World, actions: seq<Action>, b: BountyId)
    requires Invariant(c, w) && BB.Exact(BS.ViewAt(w.bounty, b)) && CountFits(c, w, actions, b)
    ensures BB.Exact(BS.ViewAt(Run(c, w, actions).bounty, b))
    decreases |actions|
  {
    if actions != [] {
      var front := actions[..|actions| - 1];
      CountFitsPrefix(c, w, actions, b);
      CountFitsNow(c, w, actions, b);
      CountersExact(c, w, front, b);
      RunKeeps(c, w, front);
      BountyFacts(c, Run(c, w, front), b);
      ApplyExact(c, Run(c, w, front), actions[|actions| - 1], b);
    }
  }

  /** Every claim on b in the run is made above height 0. */
  ghost predicate ClaimsAboveZero(c: Scheme, w: World, actions: seq<Action>, b: BountyId) {
    forall i :: 0 <= i < |actions| && actions[i].CallBounty? && BM.ClaimsOn(actions[i].b, b) ==>
      Run(c, w, actions[..i]).clock.rollup > 0
  }

  lemma ClaimsAboveZeroPrefix(c: Scheme, w: World, actions: seq<Action>, b: BountyId)
    requires ClaimsAboveZero(c, w, actions, b) && actions != []
    ensures ClaimsAboveZero(c, w, actions[..|actions| - 1], b)
  {
    var front := actions[..|actions| - 1];
    forall i | 0 <= i < |front| && front[i].CallBounty? && BM.ClaimsOn(front[i].b, b)
      ensures Run(c, w, front[..i]).clock.rollup > 0
    {
      assert front[..i] == actions[..i] && front[i] == actions[i];
    }
  }

  lemma ApplyDated(c: Scheme, w: World, action: Action, b: BountyId)
    requires BB.Good(BS.ViewAt(w.bounty, b), w.clock.rollup) && Total(w.funds) <= U128_MAX
    requires BB.Dated(BS.ViewAt(w.bounty, b))
    requires action.CallBounty? && BM.ClaimsOn(action.b, b) ==> w.clock.rollup > 0
    ensures BB.Dated(BS.ViewAt(Apply(c, w, action).bounty, b))
  {
    match action
    case CallBounty(sender, m) =>
      if B.Step(c, w.bounty, w.funds, w.att, w.clock, sender, m).Done? {
        BM.StepKeepsDated(c, w.bounty, w.funds, w.att, w.clock, sender, m, b);
      }
    case _ =>
  }

  /** The finalise sentinel is truthful for b throughout every run whose claims on b are above height 0. */
  lemma {:induction false} SentinelTruthful(c: Scheme, w: World, actions: seq<Action>, b: BountyId)
    requires Invariant(c, w) && BB.Dated(BS.ViewAt(w.bounty, b)) && ClaimsAboveZero(c, w, actions, b)
    ensures BB.Dated(BS.ViewAt(Run(c, w, actions).bounty, b))
    decreases |actions|
  {
    if actions != [] {
      var front := actions[..|actions| - 1];
      ClaimsAboveZeroPrefix(c, w, actions, b);
      SentinelTruthful(c, w, front, b);
      RunKeeps(c, w, front);
      BountyFacts(c, Run(c, w, front), b);
      assert Run(c, w, actions[..|actions| - 1]) == Run(c, w, front);
      ApplyDated(c, Run(c, w, front), actions[|actions| - 1], b);
    }
  }

  /**
   * Finality of bounties over every run from genesis. A Cancelled bounty never changes again. Nor does a Finalised one
   * whose own disputes always fit the counter and whose sentinel is truthful when it is closed.
   */
  lemma ClosedForever(c: Scheme, cfg: A.Config, w: World, xs: seq<Action>, ys: seq<Action>, b: BountyId)
    requires Genesis(c, cfg, w) && b in Run(c, w, xs).bounty.bounties
    requires var status := Run(c, w, xs).bounty.bounties[b].status;
             status == B.Cancelled
             || (status == B.Finalised && CountFits(c, w, xs, b) && BB.Dated(BS.ViewAt(Run(c, w, xs).bounty, b)))
    ensures BS.ViewAt(Run(c, w, xs + ys).bounty, b) == BS.ViewAt(Run(c, w, xs).bounty, b)
  {
    GenesisInvariant(c, cfg, w);
    RunKeeps(c, w, xs);
    var y := Run(c, w, xs);
    BountyFacts(c, y, b);
    if y.bounty.bounties[b].status == B.Cancelled {
      BM.CancelledIsSettled(BS.ViewAt(y.bounty, b), y.clock.rollup);
    } else {
      CountersExact(c, w, xs, b);
      BM.ClosedIsSettled(BS.ViewAt(y.bounty, b), y.clock.rollup);
    }
    SettledForever(c, y, ys, b);
    RunConcat(c, w, xs, ys);
  }

  /** So claims above height 0 and a counter that fits make every closed bounty final. */
  lemma ClosedForeverAboveZero(c: Scheme, cfg: A.Config, w: World, xs: seq<Action>, ys: seq<Action>, b: BountyId)
    requires Genesis(c, cfg, w) && ClaimsAboveZero(c, w, xs, b) && CountFits(c, w, xs, b)
    requires b in Run(c, w, xs).bounty.bounties && Run(c, w, xs).bounty.bounties[b].status in {B.Cancelled, B.Finalised}
    ensures BS.ViewAt(Run(c, w, xs + ys).bounty, b) == BS.ViewAt(Run(c, w, xs).bounty, b)
  {
    GenesisInvariant(c, cfg, w);
    SentinelTruthful(c, w, xs, b);
    ClosedForever(c, cfg, w, xs, ys, b);
  }

  // ----- Exactly which closed bounties are final -----

  lemma ResolveApplied(c: Scheme, w: World, sender: Address, b: BountyId, a: AttestationId, d: B.Decision)
    requires B.Resolve(w.bounty, w.funds, w.att, sender, b, a, d).Done?
    ensures Apply(c, w, CallBounty(sender, B.ResolveDispute(b, a, d))).bounty
         == B.Resolve(w.bounty, w.funds, w.att, sender, b, a, d).state
  {}

  lemma DisputeApplied(c: Scheme, w: World, sender: Address, b: BountyId, a: AttestationId, ground: B.Ground)
    requires B.DisputeClaim(w.bounty, w.funds, w.att, w.clock, sender, b, a, ground).Done?
    ensures Apply(c, w, CallBounty(sender, B.DisputeAttestation(b, a, ground))).bounty
         == B.DisputeClaim(w.bounty, w.funds, w.att, w.clock, sender, b, a, ground).state
  {}

  lemma RulingChanges(c: Scheme, w: World, b: BountyId, x: B.DisputeKey)
    requires BS.Holds(w.bounty, w.funds, w.att, w.clock.rollup) && w.att.avow.Some? && b in w.bounty.bounties
    requires x in BS.ViewAt(w.bounty, b).bonds
    ensures exists action :: BS.ViewAt(Apply(c, w, action).bounty, b) != BS.ViewAt(w.bounty, b)
  {
    BE.RulingReopens(w.bounty, w.funds, w.att, w.clock.rollup, b, x, B.Reject);
    var owner := w.att.schemas[w.bounty.bounties[b].board].owner;
    ResolveApplied(c, w, owner, b, x.attestation, B.Reject);
    var action := CallBounty(owner, B.ResolveDispute(b, x.attestation, B.Reject));
    assert BS.ViewAt(Apply(c, w, action).bounty, b) != BS.ViewAt(w.bounty, b);
  }

  lemma DisputeChanges(c: Scheme, w: World, b: BountyId, x: B.DisputeKey, u: Address)
    requires w.att.avow.Some? && b in w.bounty.bounties && w.bounty.bounties[b].per <= Balance(w.funds, User(u))
    requires x in BS.ViewAt(w.bounty, b).claims && x !in BS.ViewAt(w.bounty, b).bonds
    requires w.clock.rollup <= BS.ViewAt(w.bounty, b).claims[x] + w.bounty.bounties[b].window
    ensures exists action :: BS.ViewAt(Apply(c, w, action).bounty, b) != BS.ViewAt(w.bounty, b)
  {
    BE.OpenWindowReopens(w.bounty, w.funds, w.att, w.clock, u, b, x, B.Other);
    DisputeApplied(c, w, u, b, x.attestation, B.Other);
    var action := CallBounty(u, B.DisputeAttestation(b, x.attestation, B.Other));
    assert BS.ViewAt(Apply(c, w, action).bounty, b) != BS.ViewAt(w.bounty, b);
  }

  /** A closed bounty that is not settled changes with one more call, if it has a dispute or someone can afford one. */
  lemma UnsettledChanges(c: Scheme, w: World, b: BountyId, u: Address)
    requires BS.Holds(w.bounty, w.funds, w.att, w.clock.rollup) && w.att.avow.Some? && b in w.bounty.bounties
    requires w.bounty.bounties[b].status in {B.Cancelled, B.Finalised}
    requires w.bounty.bounties[b].per <= Balance(w.funds, User(u))
    requires !BM.Settled(BS.ViewAt(w.bounty, b), w.clock.rollup)
    ensures exists action :: BS.ViewAt(Apply(c, w, action).bounty, b) != BS.ViewAt(w.bounty, b)
  {
    var v := BS.ViewAt(w.bounty, b);
    if x :| x in v.bonds {
      RulingChanges(c, w, b, x);
    } else {
      assert v.bonds == map[];
      var x :| x in v.claims && v.claims[x] + w.bounty.bounties[b].window >= w.clock.rollup;
      DisputeChanges(c, w, b, x, u);
    }
  }

  lemma ConfiguredBounties(c: Scheme, w: World)
    requires Invariant(c, w)
    ensures BS.Holds(w.bounty, w.funds, w.att, w.clock.rollup) && w.att.avow.Some?
  {}

  /** Nothing about b ever changes again. */
  ghost predicate Final(c: Scheme, w: World, b: BountyId) {
    forall actions :: BS.ViewAt(Run(c, w, actions).bounty, b) == BS.ViewAt(w.bounty, b)
  }

  lemma ChangeIsNotFinal(c: Scheme, w: World, b: BountyId, action: Action)
    requires BS.ViewAt(Apply(c, w, action).bounty, b) != BS.ViewAt(w.bounty, b)
    ensures !Final(c, w, b)
  {
    RunOne(c, w, action);
  }

  /** While someone holds one payout, a closed bounty is final if and only if it is settled. */
  lemma FinalIffSettled(c: Scheme, w: World, b: BountyId, u: Address)
    requires Invariant(c, w) && b in w.bounty.bounties && w.bounty.bounties[b].status in {B.Cancelled, B.Finalised}
    requires w.bounty.bounties[b].per <= Balance(w.funds, User(u))
    ensures BM.Settled(BS.ViewAt(w.bounty, b), w.clock.rollup) <==> Final(c, w, b)
  {
    if BM.Settled(BS.ViewAt(w.bounty, b), w.clock.rollup) {
      forall actions { SettledForever(c, w, actions, b); }
    } else {
      ConfiguredBounties(c, w);
      UnsettledChanges(c, w, b, u);
      var action :| BS.ViewAt(Apply(c, w, action).bounty, b) != BS.ViewAt(w.bounty, b);
      ChangeIsNotFinal(c, w, b, action);
    }
  }
}
