/** Every contract call keeps the module's invariants. */
module ContractProofs {
  import opened Types
  import opened Sums
  import opened Ledger
  import opened Contract
  import opened ContractBooks
  import A = Attestation

  // ----- Which contract a call changes -----

  function DisputeAfter(dispute: Option<Dispute>, change: DisputeChange): Option<Dispute> {
    match change
    case SameDispute => dispute
    case Raise(d) => Some(d)
    case Drop => None
  }

  /** One contract after an effect of its own. */
  function After(v: View, id: ContractId, e: Effect): View
    requires v.record.Some?
  {
    View(Some(v.record.value.(status := e.status)), if e.escrow.Some? then e.escrow.value else v.escrow,
         CommitsAfter(v.commits, id, e.commit), if e.delivery.Some? then e.delivery else v.delivery,
         DisputeAfter(v.dispute, e.dispute), v.history + [e.event])
  }

  lemma SliceAfter(commits: map<CommitKey, Commit>, id: ContractId, change: CommitChange, x: ContractId)
    ensures SliceOf(CommitsAfter(commits, id, change), x)
         == if x == id then CommitsAfter(SliceOf(commits, id), id, change) else SliceOf(commits, x)
  {}

  /** An effect changes its own contract as said, and no other. */
  lemma EnactViews(s: State, id: ContractId, e: Effect, x: ContractId)
    requires id in s.contracts && e.event.id == id
    ensures ViewOf(Enact(s, id, e), x) == if x == id then After(ViewOf(s, id), id, e) else ViewOf(s, x)
  {
    SliceAfter(s.commits, id, e.commit, x);
    HistoryLast(s.log, e.event, x);
  }

  // ----- One contract through each kind of call -----

  lemma CommitGood(s: State, att: A.State, sender: Address, id: ContractId, hash: Bytes32, bond: u128, h: nat)
    requires Good(ViewOf(s, id), id, h) && Commits(s, att, sender, id, hash, bond).Success?
    ensures Good(After(ViewOf(s, id), id, Commits(s, att, sender, id, hash, bond).value), id, h)
  {
    TraceLast(History(s.log, id), WorkerCommitted(id, sender, hash, bond));
    assert KeyOf(id, sender) in After(ViewOf(s, id), id, Commits(s, att, sender, id, hash, bond).value).commits;
  }

  lemma DeliverGood(s: State, att: A.State, clock: Clock, sender: Address, id: ContractId, a: AttestationId)
    requires Good(ViewOf(s, id), id, clock.rollup) && Delivers(s, att, clock, sender, id, a).Success?
    ensures Good(After(ViewOf(s, id), id, Delivers(s, att, clock, sender, id, a).value), id, clock.rollup)
  {
    TraceLast(History(s.log, id), ContractDelivered(id, sender, a));
  }

  lemma AcceptGood(s: State, att: A.State, id: ContractId, h: nat)
    requires Good(ViewOf(s, id), id, h) && id in s.contracts && id in s.deliveries
    requires s.contracts[id].status == Delivered && PayWorker(s, att, id, s.deliveries[id].worker).Success?
    ensures Good(After(ViewOf(s, id), id, PayWorker(s, att, id, s.deliveries[id].worker).value), id, h)
  {
    TraceLast(History(s.log, id), DeliveryAccepted(id, s.deliveries[id].worker, s.contracts[id].pool));
  }

  lemma RejectGood(s: State, sender: Address, id: ContractId, ground: Ground, h: nat)
    requires Good(ViewOf(s, id), id, h) && Rejects(s, sender, id, ground).Success?
    ensures Good(After(ViewOf(s, id), id, Rejects(s, sender, id, ground).value), id, h)
  {
    TraceLast(History(s.log, id), DeliveryRejected(id, s.deliveries[id].worker, ground));
  }

  lemma ResolveGood(s: State, id: ContractId, d: Decision, h: nat)
    requires Good(ViewOf(s, id), id, h) && id in s.contracts && id in s.disputes && s.contracts[id].status == Disputed
    ensures Good(After(ViewOf(s, id), id, Award(s, id, d)), id, h)
  {
    TraceLast(History(s.log, id), Award(s, id, d).event);
  }

  lemma CancelGood(s: State, att: A.State, clock: Clock, sender: Address, id: ContractId, h: nat)
    requires Good(ViewOf(s, id), id, h) && Cancels(s, att, clock, sender, id).Success?
    ensures Good(After(ViewOf(s, id), id, Cancels(s, att, clock, sender, id).value), id, h)
  {
    TraceLast(History(s.log, id), Cancels(s, att, clock, sender, id).value.event);
  }

  lemma DecideTargets(s: State, att: A.State, clock: Clock, sender: Address, m: Message)
    requires !m.PostContract? && Decide(s, att, clock, sender, m).Success?
    ensures m.id in s.contracts && Decide(s, att, clock, sender, m).value.event.id == m.id
  {}

  lemma DecideGood(s: State, att: A.State, clock: Clock, sender: Address, m: Message, e: Effect)
    requires !m.PostContract? && Decide(s, att, clock, sender, m) == Success(e) && m.id in s.contracts
    requires Good(ViewOf(s, m.id), m.id, clock.rollup)
    ensures Good(After(ViewOf(s, m.id), m.id, e), m.id, clock.rollup)
  {
    match m
    case CommitToContract(id, hash, bond) => CommitGood(s, att, sender, id, hash, bond, clock.rollup);
    case DeliverContract(id, a) => DeliverGood(s, att, clock, sender, id, a);
    case AcceptDelivery(id) => AcceptGood(s, att, id, clock.rollup);
    case RejectDelivery(id, ground) => RejectGood(s, sender, id, ground, clock.rollup);
    case ResolveContractDispute(id, d) => ResolveGood(s, id, d, clock.rollup);
    case CancelContract(id) => CancelGood(s, att, clock, sender, id, clock.rollup);
    case FinalizeDelivery(id) => AcceptGood(s, att, id, clock.rollup);
  }

  // ----- The arbiter's cut -----

  /** Saturating arithmetic never makes the cut exceed the pool, for any u128 pool and any rate up to 100%. */
  lemma CutWithinPool(pool: u128, bps: u16)
    requires bps <= 10_000
    ensures ArbiterCut(pool, bps) <= pool
  {
    assert pool * bps <= pool * 10_000;
  }

  /** The cut is the exact floor of `pool * bps / 10000` exactly when that floor survives the u128 cap. */
  lemma CutIsFloorIff(pool: u128, bps: u16)
    ensures ArbiterCut(pool, bps) == pool * bps / 10_000 <==> pool * bps / 10_000 <= U128_MAX / 10_000
  {}

  // ----- Money -----

  function BondChange(commits: map<CommitKey, Commit>, id: ContractId, change: CommitChange): int {
    if change.Lock? then change.commit.bond
    else if change.Release? && KeyOf(id, change.worker) in commits then 0 - commits[KeyOf(id, change.worker)].bond
    else 0
  }

  /** How an effect changes what the module owes: escrow plus live bonds. */
  function Owed(s: State, id: ContractId, e: Effect): int {
    (if e.escrow.Some? then e.escrow.value - Get(s.escrow, id, 0) else 0) + BondChange(s.commits, id, e.commit)
  }

  /** What an effect's payments add to the module's balance. */
  function Net(ts: seq<Transfer>): int {
    Credits(ts, ESCROW) - Debits(ts, ESCROW)
  }

  lemma NetConcat(ts: seq<Transfer>, us: seq<Transfer>)
    ensures Net(ts + us) == Net(ts) + Net(us)
  {
    FlowsConcat(ts, us, ESCROW);
  }

  lemma NetSingle(t: Transfer)
    ensures t.to == ESCROW && t.from != ESCROW ==> Net([t]) == t.amount
    ensures t.from == ESCROW && t.to != ESCROW ==> Net([t]) == 0 - t.amount
  {
    assert [t][1..] == [];
    assert Credits([t], ESCROW) == (if t.to == ESCROW then t.amount else 0) + Credits([], ESCROW);
    assert Debits([t], ESCROW) == (if t.from == ESCROW then t.amount else 0) + Debits([], ESCROW);
  }

  lemma BondsAfter(commits: map<CommitKey, Commit>, id: ContractId, change: CommitChange)
    requires change.Lock? ==> KeyOf(id, change.commit.worker) !in commits
    ensures Sum<CommitKey, Commit>(CommitsAfter(commits, id, change), BondOf)
         == Sum<CommitKey, Commit>(commits, BondOf) + BondChange(commits, id, change)
  {
    match change
    case SameCommits =>
    case Lock(c) => SumInsert<CommitKey, Commit>(commits, BondOf, KeyOf(id, c.worker), c);
    case Release(w) =>
      if KeyOf(id, w) in commits {
        SumRemove<CommitKey, Commit>(commits, BondOf, KeyOf(id, w));
      } else {
        assert commits - {KeyOf(id, w)} == commits;
      }
  }

  lemma EnactSolvent(s: State, id: ContractId, e: Effect, funds: nat)
    requires Solvent(s, funds) && id in s.contracts && id in s.escrow
    requires e.commit.Lock? ==> KeyOf(id, e.commit.commit.worker) !in s.commits
    ensures funds + Owed(s, id, e) >= 0 && Solvent(Enact(s, id, e), funds + Owed(s, id, e))
  {
    BondsAfter(s.commits, id, e.commit);
    if e.escrow.Some? { SumReplace<ContractId, nat>(s.escrow, Same, id, e.escrow.value); }
  }

  lemma PayBondNet(s: State, id: ContractId, worker: Address, to: Address)
    ensures Net(PayBond(s, id, worker, to))
         == if KeyOf(id, worker) in s.commits then 0 - s.commits[KeyOf(id, worker)].bond else 0
  {
    if KeyOf(id, worker) in s.commits { NetSingle(PayUser(to, s.commits[KeyOf(id, worker)].bond)); }
  }

  lemma PayIfAnyNet(to: Address, amount: nat)
    ensures Net(PayIfAny(to, amount)) == 0 - amount
  {
    if amount > 0 { NetSingle(PayUser(to, amount)); }
  }

  lemma PayWorkerNet(s: State, att: A.State, id: ContractId, worker: Address)
    requires id in s.contracts && Get(s.escrow, id, 0) == s.contracts[id].pool && PayWorker(s, att, id, worker).Success?
    ensures var e := PayWorker(s, att, id, worker).value; Net(e.transfers) == Owed(s, id, e)
  {
    NetSingle(PayUser(worker, s.contracts[id].pool));
    PayBondNet(s, id, worker, worker);
    NetConcat([PayUser(worker, s.contracts[id].pool)], PayBond(s, id, worker, worker));
  }

  lemma AwardNet(s: State, id: ContractId, d: Decision)
    requires id in s.contracts && id in s.disputes && Get(s.escrow, id, 0) == s.contracts[id].pool
    requires s.contracts[id].bps <= 10_000
    ensures var e := Award(s, id, d); Net(e.transfers) == Owed(s, id, e)
  {
    var r, worker := s.contracts[id], s.disputes[id].worker;
    var cut, winner := ArbiterCut(r.pool, r.bps), if d == ForWorker then worker else r.poster;
    CutWithinPool(r.pool, r.bps);
    PayIfAnyNet(r.arbiter, cut);
    PayIfAnyNet(winner, r.pool - cut);
    PayBondNet(s, id, worker, winner);
    NetConcat(PayIfAny(r.arbiter, cut), PayIfAny(winner, r.pool - cut));
    NetConcat(PayIfAny(r.arbiter, cut) + PayIfAny(winner, r.pool - cut), PayBond(s, id, worker, winner));
  }

  lemma CancelNet(s: State, att: A.State, clock: Clock, sender: Address, id: ContractId)
    requires Cancels(s, att, clock, sender, id).Success?
    ensures var e := Cancels(s, att, clock, sender, id).value; Net(e.transfers) == Owed(s, id, e)
  {
    PayIfAnyNet(s.contracts[id].poster, Get(s.escrow, id, 0));
  }

  /** Every call pays out exactly what it stops owing, and takes in exactly what it starts owing. */
  lemma DecideBalanced(s: State, att: A.State, clock: Clock, sender: Address, m: Message, e: Effect)
    requires !m.PostContract? && Decide(s, att, clock, sender, m) == Success(e) && m.id in s.contracts
    requires Good(ViewOf(s, m.id), m.id, clock.rollup)
    ensures Net(e.transfers) == Owed(s, m.id, e)
  {
    match m
    case CommitToContract(id, hash, bond) => NetSingle(Transfer(User(sender), ESCROW, bond));
    case DeliverContract(id, a) =>
    case AcceptDelivery(id) => PayWorkerNet(s, att, id, s.deliveries[id].worker);
    case RejectDelivery(id, ground) =>
    case ResolveContractDispute(id, d) => AwardNet(s, id, d);
    case CancelContract(id) => CancelNet(s, att, clock, sender, id);
    case FinalizeDelivery(id) => PayWorkerNet(s, att, id, s.deliveries[id].worker);
  }

  lemma DecideLocksFresh(s: State, att: A.State, clock: Clock, sender: Address, m: Message, e: Effect)
    requires !m.PostContract? && Decide(s, att, clock, sender, m) == Success(e)
    ensures e.commit.Lock? ==> KeyOf(m.id, e.commit.commit.worker) !in s.commits
  {}

  // ----- Events -----

  lemma BondsOfAfter(commits: map<CommitKey, Commit>, id: ContractId, change: CommitChange)
    ensures BondsOf(CommitsAfter(commits, id, change)) ==
              if change.Lock? then BondsOf(commits)[KeyOf(id, change.commit.worker) := change.commit.bond]
              else if change.Release? then BondsOf(commits) - {KeyOf(id, change.worker)}
              else BondsOf(commits)
  {}

  lemma WorkersOfAfter(deliveries: map<ContractId, Delivery>, id: ContractId, d: Delivery)
    ensures WorkersOf(deliveries[id := d]) == WorkersOf(deliveries)[id := d.worker]
  {}

  lemma CommitMatched(s: State, k: Books, att: A.State, sender: Address, id: ContractId, hash: Bytes32, bond: u128)
    requires Matched(s, k) && Commits(s, att, sender, id, hash, bond).Success? && id in s.contracts
    ensures var e := Commits(s, att, sender, id, hash, bond).value; Matched(Enact(s, id, e), Ingest(k, e.event))
  {
    BondsOfAfter(s.commits, id, Lock(Commit(sender, hash, bond)));
  }

  lemma DeliverMatched(s: State, k: Books, att: A.State, clock: Clock, sender: Address, id: ContractId, a: AttestationId)
    requires Matched(s, k) && Delivers(s, att, clock, sender, id, a).Success? && id in s.contracts
    ensures var e := Delivers(s, att, clock, sender, id, a).value; Matched(Enact(s, id, e), Ingest(k, e.event))
  {
    WorkersOfAfter(s.deliveries, id, Delivery(sender, a, clock.rollup));
  }

  lemma PayWorkerMatched(s: State, k: Books, att: A.State, id: ContractId, worker: Address)
    requires Matched(s, k) && id in s.contracts && PayWorker(s, att, id, worker).Success?
    requires Get(s.escrow, id, 0) == s.contracts[id].pool
    ensures var e := PayWorker(s, att, id, worker).value; Matched(Enact(s, id, e), Ingest(k, e.event))
  {
    BondsOfAfter(s.commits, id, Release(worker));
  }

  lemma AwardMatched(s: State, k: Books, id: ContractId, d: Decision)
    requires Matched(s, k) && id in s.contracts && id in s.disputes && id in s.deliveries
    requires s.deliveries[id].worker == s.disputes[id].worker
    ensures var e := Award(s, id, d); Matched(Enact(s, id, e), Ingest(k, e.event))
  {
    BondsOfAfter(s.commits, id, Release(s.disputes[id].worker));
    assert Get(k.deliverer, id, Address([])) == s.disputes[id].worker;
  }

  lemma CancelMatched(s: State, k: Books, att: A.State, clock: Clock, sender: Address, id: ContractId)
    requires Matched(s, k) && Cancels(s, att, clock, sender, id).Success? && id in s.contracts && id in s.escrow
    ensures var e := Cancels(s, att, clock, sender, id).value; Matched(Enact(s, id, e), Ingest(k, e.event))
  {}

  lemma RejectMatched(s: State, k: Books, sender: Address, id: ContractId, ground: Ground)
    requires Matched(s, k) && Rejects(s, sender, id, ground).Success? && id in s.contracts
    ensures var e := Rejects(s, sender, id, ground).value; Matched(Enact(s, id, e), Ingest(k, e.event))
  {}

  lemma DecideMatched(s: State, k: Books, att: A.State, clock: Clock, sender: Address, m: Message, e: Effect)
    requires !m.PostContract? && Decide(s, att, clock, sender, m) == Success(e) && m.id in s.contracts
    requires Good(ViewOf(s, m.id), m.id, clock.rollup) && Matched(s, k) && m.id in s.escrow
    ensures Matched(Enact(s, m.id, e), Ingest(k, e.event))
  {
    match m
    case CommitToContract(id, hash, bond) => CommitMatched(s, k, att, sender, id, hash, bond);
    case DeliverContract(id, a) => DeliverMatched(s, k, att, clock, sender, id, a);
    case AcceptDelivery(id) => PayWorkerMatched(s, k, att, id, s.deliveries[id].worker);
    case RejectDelivery(id, ground) => RejectMatched(s, k, sender, id, ground);
    case ResolveContractDispute(id, d) => AwardMatched(s, k, id, d);
    case CancelContract(id) => CancelMatched(s, k, att, clock, sender, id);
    case FinalizeDelivery(id) => PayWorkerMatched(s, k, att, id, s.deliveries[id].worker);
  }
}
