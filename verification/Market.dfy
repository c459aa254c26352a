/** The three modules over one ledger, and what every run of the chain keeps. */
module Market {
  import opened Types
  import opened Ledger
  import A = Attestation
  import AP = AttestationProofs
  import B = Bounty
  import BB = BountyBooks
  import BS = BountySafety
  import C = Contract
  import CP = ContractProofs
  import CS = ContractSafety
  import G = Genesis
  import Naming

  datatype World = World(funds: Balances, att: A.State, bounty: B.State, contract: C.State, clock: Clock)

  /** One transaction, or one block of time passing. */
  datatype Action =
    | Attest(sender: Address, a: A.Message)
    | CallBounty(sender: Address, b: B.Message)
    | CallContract(sender: Address, c: C.Message)
    | Send(from: Address, to: Address, amount: nat)
    | Advance(height: u64)

  /** A call that fails leaves the world as it was; heights never go back. */
  function Apply(c: Scheme, w: World, action: Action): World {
    match action
    case Attest(sender, m) =>
      (match A.Step(c, w.att, w.funds, sender, m)
       case Refused(_) => w
       case Done(t, l) => w.(att := t, funds := l))
    case CallBounty(sender, m) =>
      (match B.Step(c, w.bounty, w.funds, w.att, w.clock, sender, m)
       case Refused(_) => w
       case Done(t, l) => w.(bounty := t, funds := l))
    case CallContract(sender, m) =>
      (match C.Step(c, w.contract, w.funds, w.att, w.clock, sender, m)
       case Refused(_) => w
       case Done(t, l) => w.(contract := t, funds := l))
    case Send(from, to, amount) =>
      (match Pay(w.funds, Transfer(User(from), User(to), amount))
       case None => w
       case Some(l) => w.(funds := l))
    case Advance(height) => if height < w.clock.rollup then w else w.(clock := w.clock.(rollup := height))
  }

  function Run(c: Scheme, w: World, actions: seq<Action>): World {
    if actions == [] then w else Apply(c, Run(c, w, actions[..|actions| - 1]), actions[|actions| - 1])
  }

  lemma {:induction false} RunConcat(c: Scheme, w: World, xs: seq<Action>, ys: seq<Action>)
    ensures Run(c, w, xs + ys) == Run(c, Run(c, w, xs), ys)
    decreases |ys|
  {
    if ys == [] {
      assert xs + ys == xs;
    } else {
      assert (xs + ys)[..|xs + ys| - 1] == xs + ys[..|ys| - 1];
      RunConcat(c, w, xs, ys[..|ys| - 1]);
    }
  }

  lemma RunOne(c: Scheme, w: World, action: Action)
    ensures Run(c, w, [action]) == Apply(c, w, action)
  {
    assert [action][..0] == [];
    assert Run(c, w, []) == w;
  }

  lemma RunFirst(c: Scheme, w: World, action: Action, rest: seq<Action>)
    ensures Run(c, w, [action] + rest) == Run(c, Apply(c, w, action), rest)
  {
    RunConcat(c, w, [action], rest);
    RunOne(c, w, action);
  }

  /** A freshly seeded chain: no module holds anything yet. */
  ghost predicate Genesis(c: Scheme, cfg: A.Config, w: World) {
    && A.Seed(c, A.EMPTY, cfg) == Success(w.att)
    && w.bounty == B.EMPTY && w.contract == C.EMPTY
    && Balance(w.funds, B.ESCROW) == 0 && Balance(w.funds, C.ESCROW) == 0
    && Total(w.funds) <= U128_MAX
  }

  /** What holds of every reachable world. */
  ghost predicate Invariant(c: Scheme, w: World) {
    && AP.Sound(c, w.att)
    && BS.Holds(w.bounty, w.funds, w.att, w.clock.rollup)
    && CS.Holds(w.contract, w.funds, w.clock.rollup)
    && Naming.BountiesNamed(c, w.bounty) && Naming.ContractsNamed(c, w.contract)
  }

  // ----- Which accounts a call touches -----

  lemma BetweenUsers(l: Balances, ts: seq<Transfer>)
    requires forall t :: t in ts ==> t.from.User? && t.to.User?
    ensures PayAll(l, ts).Some? ==>
              var l1 := PayAll(l, ts).value;
              Balance(l1, B.ESCROW) == Balance(l, B.ESCROW) && Balance(l1, C.ESCROW) == Balance(l, C.ESCROW)
              && Total(l1) == Total(l)
  {
    AvoidedAccount(l, ts, B.ESCROW);
    AvoidedAccount(l, ts, C.ESCROW);
    if PayAll(l, ts).Some? { PayAllConserves(l, ts); }
  }

  /** The payments a completed bounty call makes. */
  function BountyPayments(s: B.State, att: A.State, sender: Address, m: B.Message): seq<Transfer> {
    match m
    case PostBounty(_, pool, _, _, _, _) => [Transfer(User(sender), B.ESCROW, pool)]
    case ClaimBounty(b, claims) =>
      if b in s.bounties && B.Payouts(att, s.bounties[b], claims).Success?
      then B.PayoutTransfers(B.Payouts(att, s.bounties[b], claims).value, s.bounties[b].per) else []
    case DisputeAttestation(b, _, _) =>
      if b in s.bounties then [Transfer(User(sender), B.ESCROW, s.bounties[b].per)] else []
    case ResolveDispute(b, a, d) =>
      var key := B.DisputeKey(b, a);
      if b in s.bounties && key in s.disputes then
        [Transfer(B.ESCROW, User(if d == B.Accept then s.disputes[key].disputer else s.bounties[b].poster),
                  s.disputes[key].bond)]
      else []
    case CancelBounty(b) => if b in s.bounties then B.Refund(s, b) else []
    case FinaliseBounty(b) => if b in s.bounties then B.Refund(s, b) else []
  }

  lemma {:induction false} PayoutsAvoidContracts(ps: seq<B.Payout>, per: nat)
    ensures Avoids(B.PayoutTransfers(ps, per), C.ESCROW)
  {
    if ps != [] { PayoutsAvoidContracts(ps[..|ps| - 1], per); }
  }

  lemma BountyAvoidsContracts(s: B.State, att: A.State, sender: Address, m: B.Message)
    ensures Avoids(BountyPayments(s, att, sender, m), C.ESCROW)
  {
    if m.ClaimBounty? && m.bounty in s.bounties && B.Payouts(att, s.bounties[m.bounty], m.claims).Success? {
      PayoutsAvoidContracts(B.Payouts(att, s.bounties[m.bounty], m.claims).value, s.bounties[m.bounty].per);
    }
  }

  lemma BountyPays(c: Scheme, s: B.State, l: Balances, att: A.State, clock: Clock, sender: Address, m: B.Message)
    requires B.Step(c, s, l, att, clock, sender, m).Done?
    ensures PayAll(l, BountyPayments(s, att, sender, m)) == Some(B.Step(c, s, l, att, clock, sender, m).funds)
  {
    if m.PostBounty? { PaySingle(l, Transfer(User(sender), B.ESCROW, m.pool)); }
  }

  /** A bounty call moves no AVOW of the contract module and mints none. */
  lemma BountyFrame(c: Scheme, s: B.State, l: Balances, att: A.State, clock: Clock, sender: Address, m: B.Message)
    requires B.Step(c, s, l, att, clock, sender, m).Done?
    ensures var l1 := B.Step(c, s, l, att, clock, sender, m).funds;
            Balance(l1, C.ESCROW) == Balance(l, C.ESCROW) && Total(l1) == Total(l)
  {
    var ts := BountyPayments(s, att, sender, m);
    BountyPays(c, s, l, att, clock, sender, m);
    BountyAvoidsContracts(s, att, sender, m);
    AvoidedAccount(l, ts, C.ESCROW);
    PayAllConserves(l, ts);
  }

  lemma DecideAvoidsBounties(s: C.State, att: A.State, clock: Clock, sender: Address, m: C.Message)
    requires !m.PostContract? && C.Decide(s, att, clock, sender, m).Success?
    ensures Avoids(C.Decide(s, att, clock, sender, m).value.transfers, B.ESCROW)
  {}

  /** A contract call moves no AVOW of the bounty module. */
  lemma ContractFrame(c: Scheme, s: C.State, l: Balances, att: A.State, clock: Clock, sender: Address, m: C.Message)
    requires C.Step(c, s, l, att, clock, sender, m).Done?
    ensures var l1 := C.Step(c, s, l, att, clock, sender, m).funds; Balance(l1, B.ESCROW) == Balance(l, B.ESCROW)
  {
    if m.PostContract? {
      PaySingle(l, Transfer(User(sender), C.ESCROW, m.pool));
      AvoidedAccount(l, [Transfer(User(sender), C.ESCROW, m.pool)], B.ESCROW);
    } else {
      CS.CallStep(s, l, att, clock, sender, m);
      DecideAvoidsBounties(s, att, clock, sender, m);
      AvoidedAccount(l, C.Decide(s, att, clock, sender, m).value.transfers, B.ESCROW);
    }
  }

  /** An attestation call moves AVOW between users only. */
  lemma AttestFrame(c: Scheme, s: A.State, l: Balances, sender: Address, m: A.Message)
    requires A.Step(c, s, l, sender, m).Done?
    ensures var l1 := A.Step(c, s, l, sender, m).funds;
            Balance(l1, B.ESCROW) == Balance(l, B.ESCROW) && Balance(l1, C.ESCROW) == Balance(l, C.ESCROW)
            && Total(l1) == Total(l)
  {
    AP.StepCharges(c, s, l, sender, m);
    BetweenUsers(l, AP.DueTransfers(s, sender, AP.Dues(s, m)));
  }

  // ----- The invariant of every run -----

  lemma GenesisInvariant(c: Scheme, cfg: A.Config, w: World)
    requires Genesis(c, cfg, w)
    ensures Invariant(c, w)
  {
    G.SeedSound(c, cfg);
    BS.EmptyHolds(w.funds, w.att, w.clock.rollup);
    CS.EmptyHolds(w.funds, w.clock.rollup);
  }

  lemma AttestKeeps(c: Scheme, w: World, sender: Address, m: A.Message, t: A.State, l: Balances)
    requires Invariant(c, w) && A.Step(c, w.att, w.funds, sender, m) == A.Done(t, l)
    ensures Invariant(c, w.(att := t, funds := l)) && Total(l) == Total(w.funds)
  {
    AP.StepSound(c, w.att, w.funds, sender, m);
    AttestFrame(c, w.att, w.funds, sender, m);
    BS.FrameKeeps(w.bounty, w.funds, w.att, w.clock.rollup, l, t, w.clock.rollup);
    CS.FrameKeeps(w.contract, w.funds, w.clock.rollup, l, w.clock.rollup);
  }

  lemma BountyKeeps(c: Scheme, w: World, sender: Address, m: B.Message, t: B.State, l: Balances)
    requires Invariant(c, w) && B.Step(c, w.bounty, w.funds, w.att, w.clock, sender, m) == B.Done(t, l)
    ensures Invariant(c, w.(bounty := t, funds := l)) && Total(l) == Total(w.funds)
  {
    BS.StepKeeps(c, w.bounty, w.funds, w.att, w.clock, sender, m);
    BountyFrame(c, w.bounty, w.funds, w.att, w.clock, sender, m);
    CS.FrameKeeps(w.contract, w.funds, w.clock.rollup, l, w.clock.rollup);
    Naming.BountyStepNamed(c, w.bounty, w.funds, w.att, w.clock, sender, m);
  }

  lemma ContractKeeps(c: Scheme, w: World, sender: Address, m: C.Message, t: C.State, l: Balances)
    requires Invariant(c, w) && C.Step(c, w.contract, w.funds, w.att, w.clock, sender, m) == C.Done(t, l)
    ensures Invariant(c, w.(contract := t, funds := l)) && Total(l) == Total(w.funds)
  {
    CS.StepKeeps(c, w.contract, w.funds, w.att, w.clock, sender, m);
    ContractFrame(c, w.contract, w.funds, w.att, w.clock, sender, m);
    BS.FrameKeeps(w.bounty, w.funds, w.att, w.clock.rollup, l, w.att, w.clock.rollup);
    Naming.ContractStepNamed(c, w.contract, w.funds, w.att, w.clock, sender, m);
  }

  lemma SendKeeps(c: Scheme, w: World, from: Address, to: Address, amount: nat, l: Balances)
    requires Invariant(c, w) && Pay(w.funds, Transfer(User(from), User(to), amount)) == Some(l)
    ensures Invariant(c, w.(funds := l)) && Total(l) == Total(w.funds)
  {
    PaySingle(w.funds, Transfer(User(from), User(to), amount));
    BetweenUsers(w.funds, [Transfer(User(from), User(to), amount)]);
    BS.FrameKeeps(w.bounty, w.funds, w.att, w.clock.rollup, l, w.att, w.clock.rollup);
    CS.FrameKeeps(w.contract, w.funds, w.clock.rollup, l, w.clock.rollup);
  }

  lemma AdvanceKeeps(c: Scheme, w: World, height: u64)
    requires Invariant(c, w) && w.clock.rollup <= height
    ensures Invariant(c, w.(clock := w.clock.(rollup := height)))
  {
    BS.FrameKeeps(w.bounty, w.funds, w.att, w.clock.rollup, w.funds, w.att, height);
    CS.FrameKeeps(w.contract, w.funds, w.clock.rollup, w.funds, height);
  }

  lemma ApplyKeeps(c: Scheme, w: World, action: Action)
    requires Invariant(c, w)
    ensures Invariant(c, Apply(c, w, action)) && Total(Apply(c, w, action).funds) == Total(w.funds)
  {
    match action
    case Attest(sender, m) =>
      if A.Step(c, w.att, w.funds, sender, m).Done? {
        var v := A.Step(c, w.att, w.funds, sender, m);
        AttestKeeps(c, w, sender, m, v.state, v.funds);
      }
    case CallBounty(sender, m) =>
      if B.Step(c, w.bounty, w.funds, w.att, w.clock, sender, m).Done? {
        var v := B.Step(c, w.bounty, w.funds, w.att, w.clock, sender, m);
        BountyKeeps(c, w, sender, m, v.state, v.funds);
      }
    case CallContract(sender, m) =>
      if C.Step(c, w.contract, w.funds, w.att, w.clock, sender, m).Done? {
        var v := C.Step(c, w.contract, w.funds, w.att, w.clock, sender, m);
        ContractKeeps(c, w, sender, m, v.state, v.funds);
      }
    case Send(from, to, amount) =>
      if Pay(w.funds, Transfer(User(from), User(to), amount)).Some? {
        SendKeeps(c, w, from, to, amount, Pay(w.funds, Transfer(User(from), User(to), amount)).value);
      }
    case Advance(height) => if height >= w.clock.rollup { AdvanceKeeps(c, w, height); }
  }

  lemma ApplyAttestation(c: Scheme, w: World, action: Action)
    ensures var t := Apply(c, w, action).att;
            t == w.att || (action.Attest? && A.Step(c, w.att, w.funds, action.sender, action.a).Done?
                           && t == A.Step(c, w.att, w.funds, action.sender, action.a).state)
    ensures w.clock.rollup <= Apply(c, w, action).clock.rollup
  {}

  lemma ApplyGrows(c: Scheme, w: World, action: Action)
    requires AP.Sound(c, w.att)
    ensures AP.Grows(w.att, Apply(c, w, action).att)
  {
    ApplyAttestation(c, w, action);
    if Apply(c, w, action).att != w.att { AP.StepSound(c, w.att, w.funds, action.sender, action.a); }
  }

  /** Every world of every run keeps the invariant; AVOW is conserved, registries only grow, time only advances. */
  lemma {:induction false} RunKeeps(c: Scheme, w: World, actions: seq<Action>)
    requires Invariant(c, w)
    ensures var z := Run(c, w, actions);
            Invariant(c, z) && Total(z.funds) == Total(w.funds) && AP.Grows(w.att, z.att)
            && w.clock.rollup <= z.clock.rollup
    decreases |actions|
  {
    if actions != [] {
      var y := Run(c, w, actions[..|actions| - 1]);
      RunKeeps(c, w, actions[..|actions| - 1]);
      ApplyKeeps(c, y, actions[|actions| - 1]);
      ApplyGrows(c, y, actions[|actions| - 1]);
      ApplyAttestation(c, y, actions[|actions| - 1]);
      AP.GrowsTransitive(w.att, y.att, Run(c, w, actions).att);
    }
  }
}
