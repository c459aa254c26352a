/** Who may do what, and when, over whole runs of the chain. */
module MarketRules {
  import opened Types
  import opened Ledger
  import opened Market
  import A = Attestation
  import AP = AttestationProofs
  import B = Bounty
  import BB = BountyBooks
  import BS = BountySafety
  import BC = BountyCalls
  import C = Contract
  import CB = ContractBooks
  import CS = ContractSafety
  import CE = ContractExit
  import CC = ContractCalls
  import Naming

  // ----- Terms and deliveries of a contract -----

  /** The contract is still there on the terms it was posted with, and a delivery once made is still the one made. */
  ghost predicate ContractKept(s: C.State, t: C.State, id: ContractId) {
    && (id in s.contracts ==> id in t.contracts && t.contracts[id] == s.contracts[id].(status := t.contracts[id].status))
    && (id in s.deliveries ==> id in t.deliveries && t.deliveries[id] == s.deliveries[id])
  }

  lemma StepKeepsContract(c: Scheme, s: C.State, l: Balances, att: A.State, clock: Clock, sender: Address,
                          m: C.Message, id: ContractId)
    requires C.Step(c, s, l, att, clock, sender, m).Done?
    ensures ContractKept(s, C.Step(c, s, l, att, clock, sender, m).state, id)
  {
    if !m.PostContract? {
      CS.CallStep(s, l, att, clock, sender, m);
      OnlyFirstDelivery(s, att, clock, sender, m);
    }
  }

  lemma OnlyFirstDelivery(s: C.State, att: A.State, clock: Clock, sender: Address, m: C.Message)
    requires !m.PostContract? && C.Decide(s, att, clock, sender, m).Success?
    ensures C.Decide(s, att, clock, sender, m).value.delivery.Some? ==> m.id !in s.deliveries
  {}

  lemma ApplyKeepsContract(c: Scheme, w: World, action: Action, id: ContractId)
    ensures ContractKept(w.contract, Apply(c, w, action).contract, id)
  {
    match action
    case CallContract(sender, m) =>
      if C.Step(c, w.contract, w.funds, w.att, w.clock, sender, m).Done? {
        StepKeepsContract(c, w.contract, w.funds, w.att, w.clock, sender, m, id);
      }
    case _ =>
  }

  /** Terms and deliveries never change, over any run. */
  lemma {:induction false} ContractTermsForever(c: Scheme, w: World, actions: seq<Action>, id: ContractId)
    ensures ContractKept(w.contract, Run(c, w, actions).contract, id)
    decreases |actions|
  {
    if actions != [] {
      var front := actions[..|actions| - 1];
      ContractTermsForever(c, w, front, id);
      ApplyKeepsContract(c, Run(c, w, front), actions[|actions| - 1], id);
    }
  }

  // ----- The acceptance window -----

  lemma DeliverApplied(c: Scheme, w: World, sender: Address, id: ContractId, a: AttestationId)
    requires C.Step(c, w.contract, w.funds, w.att, w.clock, sender, C.DeliverContract(id, a)).Done?
    ensures id in w.contract.contracts
    ensures var y := Apply(c, w, CallContract(sender, C.DeliverContract(id, a)));
            && id in y.contract.deliveries && y.contract.deliveries[id] == C.Delivery(sender, a, w.clock.rollup)
            && id in y.contract.contracts
            && y.contract.contracts[id] == w.contract.contracts[id].(status := C.Delivered)
  {
    CC.DeliverStores(c, w.contract, w.funds, w.att, w.clock, sender, id, a);
  }

  lemma WindowFrom(h: u64, window: u32, now: u64)
    ensures CE.WindowClosed(h, window, now) <==> now > h + window
  {}

  /**
   * The poster has the whole window: in every run, a contract delivered at height h can be finalized, by anyone,
   * exactly while it is still Delivered and the height is above h + window.
   */
  lemma WindowRespected(c: Scheme, w: World, sender: Address, id: ContractId, a: AttestationId, actions: seq<Action>,
                        anyone: Address)
    requires Invariant(c, w)
    requires C.Step(c, w.contract, w.funds, w.att, w.clock, sender, C.DeliverContract(id, a)).Done?
    ensures id in w.contract.contracts
    ensures var z := Run(c, Apply(c, w, CallContract(sender, C.DeliverContract(id, a))), actions);
            && id in z.contract.contracts
            && (C.Step(c, z.contract, z.funds, z.att, z.clock, anyone, C.FinalizeDelivery(id)).Done? <==>
                  z.contract.contracts[id].status == C.Delivered
                  && z.clock.rollup > w.clock.rollup + w.contract.contracts[id].window)
  {
    var y := Apply(c, w, CallContract(sender, C.DeliverContract(id, a)));
    DeliverApplied(c, w, sender, id, a);
    ApplyKeeps(c, w, CallContract(sender, C.DeliverContract(id, a)));
    RunKeeps(c, y, actions);
    ContractTermsForever(c, y, actions, id);
    FinalizeAt(c, Run(c, y, actions), anyone, id);
  }

  lemma FinalizeAt(c: Scheme, z: World, anyone: Address, id: ContractId)
    requires Invariant(c, z) && id in z.contract.contracts && id in z.contract.deliveries
    ensures C.Step(c, z.contract, z.funds, z.att, z.clock, anyone, C.FinalizeDelivery(id)).Done? <==>
              z.contract.contracts[id].status == C.Delivered
              && z.clock.rollup > z.contract.deliveries[id].deliveredAt + z.contract.contracts[id].window
  {
    CE.FinalizeIff(c, z.contract, z.funds, z.att, z.clock, anyone, id);
    WindowFrom(z.contract.deliveries[id].deliveredAt, z.contract.contracts[id].window, z.clock.rollup);
  }

  // ----- Terms of a bounty -----

  ghost predicate BountyKept(s: B.State, t: B.State, b: BountyId) {
    b in s.bounties ==> b in t.bounties && t.bounties[b] == s.bounties[b].(status := t.bounties[b].status)
  }

  lemma StepKeepsBounty(c: Scheme, s: B.State, l: Balances, att: A.State, clock: Clock, sender: Address, m: B.Message,
                        b: BountyId)
    requires B.Step(c, s, l, att, clock, sender, m).Done?
    ensures BountyKept(s, B.Step(c, s, l, att, clock, sender, m).state, b)
  {
    if m.PostBounty? {
      BC.PostStores(c, s, l, att, clock, sender, m.board, m.pool, m.per, m.acceptance, m.expiry, m.window);
    } else {
      Naming.OtherCallsRename(c, s, l, att, clock, sender, m);
    }
  }

  lemma ApplyKeepsBounty(c: Scheme, w: World, action: Action, b: BountyId)
    ensures BountyKept(w.bounty, Apply(c, w, action).bounty, b)
  {
    match action
    case CallBounty(sender, m) =>
      if B.Step(c, w.bounty, w.funds, w.att, w.clock, sender, m).Done? {
        StepKeepsBounty(c, w.bounty, w.funds, w.att, w.clock, sender, m, b);
      }
    case _ =>
  }

  /** A bounty's terms never change, over any run. */
  lemma {:induction false} BountyTermsForever(c: Scheme, w: World, actions: seq<Action>, b: BountyId)
    ensures BountyKept(w.bounty, Run(c, w, actions).bounty, b)
    decreases |actions|
  {
    if actions != [] {
      var front := actions[..|actions| - 1];
      BountyTermsForever(c, w, front, b);
      ApplyKeepsBounty(c, Run(c, w, front), actions[|actions| - 1], b);
    }
  }

  // ----- Who rules on a dispute -----

  /** A call that makes a dispute disappear is a ruling on it by the owner of the bounty's board. */
  lemma OnlyRulingsRemove(c: Scheme, s: B.State, l: Balances, att: A.State, clock: Clock, sender: Address, m: B.Message,
                          key: B.DisputeKey)
    requires B.Step(c, s, l, att, clock, sender, m).Done? && key in s.disputes
    requires key !in B.Step(c, s, l, att, clock, sender, m).state.disputes
    ensures m.ResolveDispute? && m.bounty == key.bounty && m.attestation == key.attestation
    ensures key.bounty in s.bounties && s.bounties[key.bounty].board in att.schemas
    ensures sender == att.schemas[s.bounties[key.bounty].board].owner
  {}

  lemma ApplyRemoves(c: Scheme, w: World, action: Action, key: B.DisputeKey)
    requires key in w.bounty.disputes && key !in Apply(c, w, action).bounty.disputes
    ensures action.CallBounty? && action.b.ResolveDispute?
    ensures action.b.bounty == key.bounty && action.b.attestation == key.attestation
    ensures key.bounty in w.bounty.bounties && w.bounty.bounties[key.bounty].board in w.att.schemas
    ensures action.sender == w.att.schemas[w.bounty.bounties[key.bounty].board].owner
  {
    match action
    case CallBounty(sender, m) => OnlyRulingsRemove(c, w.bounty, w.funds, w.att, w.clock, sender, m, key);
    case _ =>
  }

  /** The board of a disputed bounty is known, so its owner is. */
  lemma DisputedBoardKnown(c: Scheme, w: World, key: B.DisputeKey)
    requires Invariant(c, w) && key in w.bounty.disputes
    ensures key.bounty in w.bounty.bounties && w.bounty.bounties[key.bounty].board in w.att.schemas
  {
    assert BB.Good(BS.ViewAt(w.bounty, key.bounty), w.clock.rollup);
    assert key in BS.ViewAt(w.bounty, key.bounty).bonds;
  }

  /** The owner of the board a bounty was posted on, if both are known. */
  function BoardOwner(w: World, b: BountyId): Option<Address> {
    if b in w.bounty.bounties && w.bounty.bounties[b].board in w.att.schemas
    then Some(w.att.schemas[w.bounty.bounties[b].board].owner) else None
  }

  /** Boards keep their owners: a bounty's referee never changes. */
  lemma OwnerForever(c: Scheme, w: World, actions: seq<Action>, b: BountyId)
    requires Invariant(c, w) && BoardOwner(w, b).Some?
    ensures BoardOwner(Run(c, w, actions), b) == BoardOwner(w, b)
  {
    BountyTermsForever(c, w, actions, b);
    RunKeeps(c, w, actions);
  }

  /** An action is a ruling by `owner` on the dispute. */
  predicate Rules(action: Action, owner: Address, key: B.DisputeKey) {
    action.CallBounty? && action.sender == owner && action.b.ResolveDispute?
    && action.b.bounty == key.bounty && action.b.attestation == key.attestation
  }

  /** Action i of the run removes the dispute. */
  ghost predicate RemovedAt(c: Scheme, w: World, actions: seq<Action>, i: nat, key: B.DisputeKey) {
    i < |actions| && key in Run(c, w, actions[..i]).bounty.disputes
    && key !in Apply(c, Run(c, w, actions[..i]), actions[i]).bounty.disputes
  }

  lemma {:induction false} RemovedSomewhere(c: Scheme, w: World, actions: seq<Action>, key: B.DisputeKey)
    requires key in w.bounty.disputes && key !in Run(c, w, actions).bounty.disputes
    ensures exists i: nat :: RemovedAt(c, w, actions, i, key)
    decreases |actions|
  {
    var n: nat := |actions| - 1;
    var front := actions[..n];
    if key in Run(c, w, front).bounty.disputes {
      assert RemovedAt(c, w, actions, n, key);
    } else {
      RemovedSomewhere(c, w, front, key);
      var i: nat :| RemovedAt(c, w, front, i, key);
      assert front[..i] == actions[..i] && front[i] == actions[i];
      assert RemovedAt(c, w, actions, i, key);
    }
  }

  lemma RemoverRules(c: Scheme, w: World, actions: seq<Action>, i: nat, key: B.DisputeKey)
    requires RemovedAt(c, w, actions, i, key) && Invariant(c, w) && BoardOwner(w, key.bounty).Some?
    ensures Rules(actions[i], BoardOwner(w, key.bounty).value, key)
  {
    var y := Run(c, w, actions[..i]);
    ApplyRemoves(c, y, actions[i], key);
    OwnerForever(c, w, actions[..i], key.bounty);
  }

  /** Over any run a dispute disappears only by a ruling that its board's owner sends. */
  lemma OnlyOwnersRule(c: Scheme, w: World, actions: seq<Action>, key: B.DisputeKey)
    requires Invariant(c, w) && key in w.bounty.disputes && key !in Run(c, w, actions).bounty.disputes
    ensures BoardOwner(w, key.bounty).Some?
    ensures exists i: nat :: RemovedAt(c, w, actions, i, key) && Rules(actions[i], BoardOwner(w, key.bounty).value, key)
  {
    DisputedBoardKnown(c, w, key);
    RemovedSomewhere(c, w, actions, key);
    var i: nat :| RemovedAt(c, w, actions, i, key);
    RemoverRules(c, w, actions, i, key);
  }

  // ----- What was claimed -----

  /** Every paid claim is on a stored attestation that the bounty's own terms accept. */
  ghost predicate ClaimsEligible(s: B.State, att: A.State) {
    forall x :: x in s.claimHeight ==>
      x.bounty in s.bounties && x.attestation in att.attestations
      && BC.Eligible(att.attestations[x.attestation], s.bounties[x.bounty])
  }

  lemma EligibleStays(s: B.State, t: B.State, att: A.State, x: B.DisputeKey)
    requires x.bounty in s.bounties && BountyKept(s, t, x.bounty) && x.attestation in att.attestations
    requires BC.Eligible(att.attestations[x.attestation], s.bounties[x.bounty])
    ensures x.bounty in t.bounties && BC.Eligible(att.attestations[x.attestation], t.bounties[x.bounty])
  {}

  lemma OnlyClaimsStamp(c: Scheme, s: B.State, l: Balances, att: A.State, clock: Clock, sender: Address, m: B.Message)
    requires B.Step(c, s, l, att, clock, sender, m).Done? && !m.ClaimBounty?
    ensures B.Step(c, s, l, att, clock, sender, m).state.claimHeight == s.claimHeight
  {}

  lemma StepKeepsEligible(c: Scheme, s: B.State, l: Balances, att: A.State, clock: Clock, sender: Address, m: B.Message)
    requires ClaimsEligible(s, att) && B.Step(c, s, l, att, clock, sender, m).Done?
    ensures ClaimsEligible(B.Step(c, s, l, att, clock, sender, m).state, att)
  {
    var t := B.Step(c, s, l, att, clock, sender, m).state;
    forall x | x in t.claimHeight
      ensures x.bounty in t.bounties && x.attestation in att.attestations
              && BC.Eligible(att.attestations[x.attestation], t.bounties[x.bounty])
    {
      ClaimedOrKept(c, s, l, att, clock, sender, m, x);
      StepKeepsBounty(c, s, l, att, clock, sender, m, x.bounty);
      EligibleStays(s, t, att, x);
    }
  }

  /** A stamped claim was there before, or this call is the batch that pays it. */
  lemma ClaimedOrKept(c: Scheme, s: B.State, l: Balances, att: A.State, clock: Clock, sender: Address, m: B.Message,
                      x: B.DisputeKey)
    requires ClaimsEligible(s, att) && B.Step(c, s, l, att, clock, sender, m).Done?
    requires x in B.Step(c, s, l, att, clock, sender, m).state.claimHeight
    ensures x.bounty in s.bounties && x.attestation in att.attestations
    ensures BC.Eligible(att.attestations[x.attestation], s.bounties[x.bounty])
  {
    match m
    case ClaimBounty(b, claims) =>
      BC.ClaimStamps(s, l, att, clock, b, claims, x);
      BC.ClaimAnnounces(s, l, att, clock, b, claims);
    case _ => OnlyClaimsStamp(c, s, l, att, clock, sender, m);
  }

  lemma GrowthKeepsEligible(s: B.State, att: A.State, att1: A.State)
    requires ClaimsEligible(s, att) && AP.Grows(att, att1)
    ensures ClaimsEligible(s, att1)
  {}

  lemma ApplyKeepsEligible(c: Scheme, w: World, action: Action)
    requires ClaimsEligible(w.bounty, w.att) && AP.Sound(c, w.att)
    ensures ClaimsEligible(Apply(c, w, action).bounty, Apply(c, w, action).att)
  {
    match action
    case Attest(sender, m) =>
      if A.Step(c, w.att, w.funds, sender, m).Done? {
        AP.StepSound(c, w.att, w.funds, sender, m);
        GrowthKeepsEligible(w.bounty, w.att, A.Step(c, w.att, w.funds, sender, m).state);
      }
    case CallBounty(sender, m) =>
      if B.Step(c, w.bounty, w.funds, w.att, w.clock, sender, m).Done? {
        StepKeepsEligible(c, w.bounty, w.funds, w.att, w.clock, sender, m);
      }
    case _ =>
  }

  /** So it is in every world of every run from genesis. */
  lemma {:induction false} OnlyEligibleClaimsPaid(c: Scheme, cfg: A.Config, w: World, actions: seq<Action>)
    requires Genesis(c, cfg, w)
    ensures ClaimsEligible(Run(c, w, actions).bounty, Run(c, w, actions).att)
    decreases |actions|
  {
    if actions != [] {
      var front := actions[..|actions| - 1];
      OnlyEligibleClaimsPaid(c, cfg, w, front);
      GenesisInvariant(c, cfg, w);
      RunKeeps(c, w, front);
      ApplyKeepsEligible(c, Run(c, w, front), actions[|actions| - 1]);
    }
  }
}
