/** Settling a contract never fails, and pays exactly whom it should. */
module ContractExit {
  import opened Types
  import opened Sums
  import opened Ledger
  import opened Contract
  import opened ContractBooks
  import opened ContractProofs
  import opened ContractSafety
  import A = Attestation

  /** What a user gains from a list of payments. */
  function Gain(ts: seq<Transfer>, a: Address): nat {
    Credits(ts, User(a))
  }

  lemma GainConcat(ts: seq<Transfer>, us: seq<Transfer>, a: Address)
    ensures Gain(ts + us, a) == Gain(ts, a) + Gain(us, a)
  {
    FlowsConcat(ts, us, User(a));
  }

  lemma GainSingle(to: Address, amount: nat, a: Address)
    ensures Gain([PayUser(to, amount)], a) == if a == to then amount else 0
  {
    var ts := [PayUser(to, amount)];
    assert ts[1..] == [];
    assert Credits(ts, User(a)) == (if ts[0].to == User(a) then ts[0].amount else 0) + Credits([], User(a));
  }

  lemma GainIfAny(to: Address, amount: nat, a: Address)
    ensures Gain(PayIfAny(to, amount), a) == if a == to then amount else 0
  {
    GainSingle(to, amount, a);
  }

  lemma GainBond(s: State, id: ContractId, worker: Address, to: Address, a: Address)
    requires KeyOf(id, worker) in s.commits
    ensures Gain(PayBond(s, id, worker, to), a) == if a == to then s.commits[KeyOf(id, worker)].bond else 0
  {
    GainSingle(to, s.commits[KeyOf(id, worker)].bond, a);
  }

  /** The module's balance covers any one contract's escrow and any one live bond at once. */
  lemma Covered(s: State, l: Balances, h: nat, id: ContractId, key: CommitKey)
    requires Holds(s, l, h) && id in s.contracts
    ensures Get(s.escrow, id, 0) + (if key in s.commits then s.commits[key].bond else 0) <= Balance(l, ESCROW)
  {
    SumBounds<ContractId, nat>(s.escrow, Same, id);
    if key in s.commits { SumBounds<CommitKey, Commit>(s.commits, BondOf, key); }
  }

  /** Payments out of escrow that the balance covers go through and give each user exactly its gain. */
  lemma PaysOut(l: Balances, ts: seq<Transfer>)
    requires OutOf(ts, ContractModule) && 0 - Net(ts) <= Balance(l, ESCROW)
    ensures PayAll(l, ts).Some?
    ensures forall a :: Balance(PayAll(l, ts).value, User(a)) == Balance(l, User(a)) + Gain(ts, a)
  {
    PayAllFromOne(l, ts, ESCROW);
    OutOfGains(l, ts, ContractModule);
  }

  // ----- Paying the worker: accept and finalize -----

  /** The balances after a settlement in which each user gained what `gain` says, and nobody else anything. */
  ghost predicate Gained(l: Balances, l1: Balances, gain: Address -> nat) {
    forall a :: Balance(l1, User(a)) == Balance(l, User(a)) + gain(a)
  }

  lemma WorkerPaid(s: State, l: Balances, att: A.State, h: nat, id: ContractId)
    requires Holds(s, l, h) && att.avow.Some? && id in s.contracts && s.contracts[id].status == Delivered
    ensures id in s.deliveries && KeyOf(id, s.deliveries[id].worker) in s.commits
    ensures var worker := s.deliveries[id].worker;
            var v := Settle(s, l, id, PayWorker(s, att, id, worker));
            && v.Done? && v.state.contracts[id].status == Accepted
            && var due := s.contracts[id].pool + s.commits[KeyOf(id, worker)].bond;
               Gained(l, v.funds, a => if a == worker then due else 0)
  {
    assert Good(ViewOf(s, id), id, h);
    var worker, pool := s.deliveries[id].worker, s.contracts[id].pool;
    var first, bonds := [PayUser(worker, pool)], PayBond(s, id, worker, worker);
    PayWorkerNet(s, att, id, worker);
    Covered(s, l, h, id, KeyOf(id, worker));
    PaysOut(l, first + bonds);
    forall a ensures Gain(first + bonds, a) == if a == worker then pool + s.commits[KeyOf(id, worker)].bond else 0 {
      GainConcat(first, bonds, a);
      GainIfAny(worker, pool, a);
      GainBond(s, id, worker, worker, a);
    }
  }

  /** Finalize succeeds, for any sender, exactly on a delivered contract whose acceptance window has closed. */
  lemma FinalizeIff(c: Scheme, s: State, l: Balances, att: A.State, clock: Clock, sender: Address, id: ContractId)
    requires Holds(s, l, clock.rollup) && att.avow.Some?
    ensures Step(c, s, l, att, clock, sender, FinalizeDelivery(id)).Done? <==>
              id in s.contracts && s.contracts[id].status == Delivered && id in s.deliveries
              && WindowClosed(s.deliveries[id].deliveredAt, s.contracts[id].window, clock.rollup)
  {
    if id in s.contracts && s.contracts[id].status == Delivered { WorkerPaid(s, l, att, clock.rollup, id); }
  }

  /** It then raises the worker's balance by exactly pool plus bond, and no other user's. */
  lemma FinalizePays(c: Scheme, s: State, l: Balances, att: A.State, clock: Clock, sender: Address, id: ContractId)
    requires Holds(s, l, clock.rollup) && att.avow.Some?
    requires Step(c, s, l, att, clock, sender, FinalizeDelivery(id)).Done?
    ensures id in s.deliveries && KeyOf(id, s.deliveries[id].worker) in s.commits && id in s.contracts
    ensures var worker := s.deliveries[id].worker;
            var due := s.contracts[id].pool + s.commits[KeyOf(id, worker)].bond;
            Gained(l, Step(c, s, l, att, clock, sender, FinalizeDelivery(id)).funds, a => if a == worker then due else 0)
  {
    FinalizeIff(c, s, l, att, clock, sender, id);
    WorkerPaid(s, l, att, clock.rollup, id);
  }

  predicate WindowClosed(deliveredAt: u64, window: u32, h: u64) {
    h > SaturatingAdd64(deliveredAt, window)
  }

  /** A delivered contract can be finalized at some later height exactly when its window ends within the height range. */
  lemma FinalizableIff(deliveredAt: u64, window: u32, h: u64)
    ensures (exists n: u64 :: n >= h && WindowClosed(deliveredAt, window, n)) <==> deliveredAt + window < U64_MAX
  {
    var end: u64 := U64_MAX;
    assert WindowClosed(deliveredAt, window, end) <==> deliveredAt + window < U64_MAX;
  }

  /** Accept succeeds exactly for the poster of a delivered contract, with the same payments. */
  lemma AcceptIff(c: Scheme, s: State, l: Balances, att: A.State, clock: Clock, sender: Address, id: ContractId)
    requires Holds(s, l, clock.rollup) && att.avow.Some?
    ensures Step(c, s, l, att, clock, sender, AcceptDelivery(id)).Done? <==>
              id in s.contracts && sender == s.contracts[id].poster && s.contracts[id].status == Delivered
    ensures Step(c, s, l, att, clock, sender, AcceptDelivery(id)).Done? ==>
              && id in s.deliveries
              && Step(c, s, l, att, clock, sender, AcceptDelivery(id))
                 == Settle(s, l, id, PayWorker(s, att, id, s.deliveries[id].worker))
  {
    if id in s.contracts && s.contracts[id].status == Delivered { WorkerPaid(s, l, att, clock.rollup, id); }
  }

  // ----- Resolving -----

  /** What a ruling gives each user: the arbiter its cut, the winner the rest and the bond, even if they coincide. */
  function Ruled(r: Record, worker: Address, bond: nat, d: Decision, a: Address): nat {
    var cut := ArbiterCut(r.pool, r.bps);
    (if a == r.arbiter then cut else 0)
    + (if a == (if d == ForWorker then worker else r.poster) then SaturatingSub(r.pool, cut) + bond else 0)
  }

  lemma AwardGains(s: State, id: ContractId, d: Decision, a: Address)
    requires id in s.contracts && id in s.disputes && KeyOf(id, s.disputes[id].worker) in s.commits
    ensures Gain(Award(s, id, d).transfers, a)
         == Ruled(s.contracts[id], s.disputes[id].worker, s.commits[KeyOf(id, s.disputes[id].worker)].bond, d, a)
  {
    var r, worker := s.contracts[id], s.disputes[id].worker;
    var cut, winner := ArbiterCut(r.pool, r.bps), if d == ForWorker then worker else r.poster;
    var x, y, z := PayIfAny(r.arbiter, cut), PayIfAny(winner, SaturatingSub(r.pool, cut)), PayBond(s, id, worker, winner);
    GainConcat(x + y, z, a);
    GainConcat(x, y, a);
    GainIfAny(r.arbiter, cut, a);
    GainIfAny(winner, SaturatingSub(r.pool, cut), a);
    GainBond(s, id, worker, winner, a);
  }

  lemma RulingPaid(s: State, l: Balances, h: nat, id: ContractId, d: Decision)
    requires Holds(s, l, h) && id in s.contracts && s.contracts[id].status == Disputed
    ensures id in s.disputes && KeyOf(id, s.disputes[id].worker) in s.commits
    ensures var v := Settle(s, l, id, Success(Award(s, id, d)));
            && v.Done? && v.state.contracts[id].status == (if d == ForWorker then Accepted else Rejected)
            && var r, worker := s.contracts[id], s.disputes[id].worker;
               Gained(l, v.funds, a => Ruled(r, worker, s.commits[KeyOf(id, worker)].bond, d, a))
  {
    assert Good(ViewOf(s, id), id, h);
    AwardNet(s, id, d);
    Covered(s, l, h, id, KeyOf(id, s.disputes[id].worker));
    PaysOut(l, Award(s, id, d).transfers);
    forall a { AwardGains(s, id, d, a); }
  }

  /** The named arbiter's ruling on a disputed contract always succeeds, either way; nobody else's does. */
  lemma ResolveIff(c: Scheme, s: State, l: Balances, att: A.State, clock: Clock, sender: Address, id: ContractId,
                   d: Decision)
    requires Holds(s, l, clock.rollup) && att.avow.Some?
    ensures Step(c, s, l, att, clock, sender, ResolveContractDispute(id, d)).Done? <==>
              id in s.contracts && sender == s.contracts[id].arbiter && s.contracts[id].status == Disputed
    ensures Step(c, s, l, att, clock, sender, ResolveContractDispute(id, d)).Done? ==>
              && id in s.disputes
              && Step(c, s, l, att, clock, sender, ResolveContractDispute(id, d))
                 == Settle(s, l, id, Success(Award(s, id, d)))
  {
    if id in s.contracts && s.contracts[id].status == Disputed { RulingPaid(s, l, clock.rollup, id, d); }
  }

  // ----- Cancelling -----

  /** The poster can cancel exactly an open contract, or any unfinished one past its expiry; the pool comes back whole. */
  lemma CancelIff(c: Scheme, s: State, l: Balances, att: A.State, clock: Clock, sender: Address, id: ContractId)
    requires Holds(s, l, clock.rollup) && att.avow.Some?
    ensures Step(c, s, l, att, clock, sender, CancelContract(id)).Done? <==>
              id in s.contracts && sender == s.contracts[id].poster && !Terminal(s.contracts[id].status)
              && (s.contracts[id].status == Open || clock.DaHeight() >= s.contracts[id].expiry)
    ensures Step(c, s, l, att, clock, sender, CancelContract(id)).Done? ==>
              var pool := s.contracts[id].pool;
              Gained(l, Step(c, s, l, att, clock, sender, CancelContract(id)).funds, a => if a == sender then pool else 0)
  {
    assert Good(ViewOf(s, id), id, clock.rollup);
    if id in s.contracts {
      var poster, left := s.contracts[id].poster, Get(s.escrow, id, 0);
      Covered(s, l, clock.rollup, id, KeyOf(id, poster));
      PayIfAnyNet(poster, left);
      PaysOut(l, PayIfAny(poster, left));
      forall a { GainIfAny(poster, left, a); }
    }
  }

  // ----- When a bond leaves -----

  /** Cancelling touches no commit, so every bond that is live stays locked. */
  lemma CancelKeepsCommits(s: State, l: Balances, att: A.State, clock: Clock, sender: Address, id: ContractId)
    requires Cancels(s, att, clock, sender, id).Success?
    ensures id in s.contracts
    ensures var t := Enact(s, id, Cancels(s, att, clock, sender, id).value);
            t.commits == s.commits && Terminal(t.contracts[id].status)
  {}

  /** Calls that settle a delivery. */
  predicate Settles(m: Message) {
    m.AcceptDelivery? || m.FinalizeDelivery? || m.ResolveContractDispute?
  }

  lemma SettlesReleases(s: State, att: A.State, clock: Clock, sender: Address, m: Message)
    requires !m.PostContract? && Decide(s, att, clock, sender, m).Success?
    requires Good(ViewOf(s, m.id), m.id, clock.rollup)
    ensures var e := Decide(s, att, clock, sender, m).value;
            if Settles(m) then m.id in s.deliveries && e.commit == Release(s.deliveries[m.id].worker)
            else !e.commit.Release?
  {}

  /** A call releases a bond exactly when it settles a delivery, and then exactly the deliverer's. */
  lemma BondLeavesIff(s: State, att: A.State, clock: Clock, sender: Address, m: Message, key: CommitKey)
    requires !m.PostContract? && Decide(s, att, clock, sender, m).Success?
    requires AllGood(s, clock.rollup) && key in s.commits
    ensures key !in CommitsAfter(s.commits, m.id, Decide(s, att, clock, sender, m).value.commit) <==>
              Settles(m) && m.id in s.deliveries && key == KeyOf(m.id, s.deliveries[m.id].worker)
  {
    assert Good(ViewOf(s, m.id), m.id, clock.rollup);
    SettlesReleases(s, att, clock, sender, m);
  }

  // ----- Whose bond it is -----

  /** Every stored worker has a standard 28-byte address. */
  ghost predicate StandardWorkers(s: State) {
    && (forall x :: x in s.commits ==> |s.commits[x].worker.bytes| == 28)
    && (forall x :: x in s.deliveries ==> |s.deliveries[x].worker.bytes| == 28)
  }

  /** Workers are senders: calls from standard addresses keep them standard. */
  lemma CallKeepsStandard(s: State, att: A.State, clock: Clock, sender: Address, m: Message)
    requires !m.PostContract? && Decide(s, att, clock, sender, m).Success? && m.id in s.contracts
    requires StandardWorkers(s) && |sender.bytes| == 28
    ensures StandardWorkers(Enact(s, m.id, Decide(s, att, clock, sender, m).value))
  {
    SendersLock(s, att, clock, sender, m);
  }

  lemma SendersLock(s: State, att: A.State, clock: Clock, sender: Address, m: Message)
    requires !m.PostContract? && Decide(s, att, clock, sender, m).Success?
    ensures var e := Decide(s, att, clock, sender, m).value;
            && (e.commit.Lock? ==> e.commit.commit.worker == sender)
            && (e.delivery.Some? ==> e.delivery.value.worker == sender)
  {}

  /** With standard addresses the bond a settlement releases is the deliverer's own, and positive. */
  lemma DelivererOwnsBond(s: State, h: nat, id: ContractId)
    requires AllGood(s, h) && StandardWorkers(s)
    requires id in s.contracts && s.contracts[id].status in {Delivered, Disputed}
    ensures id in s.deliveries && KeyOf(id, s.deliveries[id].worker) in s.commits
    ensures s.commits[KeyOf(id, s.deliveries[id].worker)].worker == s.deliveries[id].worker
    ensures s.commits[KeyOf(id, s.deliveries[id].worker)].bond > 0
  {
    assert Good(ViewOf(s, id), id, h);
    var key := KeyOf(id, s.deliveries[id].worker);
    assert key in ViewOf(s, id).commits;
    CommitKeyInjective(id, s.commits[key].worker, id, s.deliveries[id].worker);
  }
}
