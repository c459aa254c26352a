/** What the contract module's events alone say, and the invariants its state keeps with them. */
module ContractBooks {
  import opened Types
  import opened Sums
  import opened Ledger
  import opened Contract

  // ----- The books an event reader keeps -----

  datatype Books = Books(
    escrow: map<ContractId, int>,
    bonds: map<CommitKey, nat>,           // live commit bonds
    deliverer: map<ContractId, Address>)

  function Ingest(k: Books, e: Event): Books {
    match e
    case ContractPosted(id, _, _, pool) => k.(escrow := k.escrow[id := pool])
    case WorkerCommitted(id, worker, _, bond) => k.(bonds := k.bonds[KeyOf(id, worker) := bond])
    case ContractDelivered(id, worker, _) => k.(deliverer := k.deliverer[id := worker])
    case DeliveryAccepted(id, worker, payout) => FreeBond(Spend(k, id, payout), id, worker)
    case DeliveryRejected(_, _, _) => k
    case ContractDisputeResolved(id, _, _) =>
      FreeBond(Spend(k, id, Get(k.escrow, id, 0)), id, Get(k.deliverer, id, Address([])))
    case ContractCancelled(id, refunded) => Spend(k, id, refunded)
    case ContractExpired(id, refunded) => Spend(k, id, refunded)
  }

  function Spend(k: Books, id: ContractId, amount: int): Books {
    k.(escrow := k.escrow[id := Get(k.escrow, id, 0) - amount])
  }

  function FreeBond(k: Books, id: ContractId, worker: Address): Books {
    k.(bonds := k.bonds - {KeyOf(id, worker)})
  }

  function Fold(log: seq<Event>): Books {
    if log == [] then Books(map[], map[], map[]) else Ingest(Fold(log[..|log| - 1]), log[|log| - 1])
  }

  lemma FoldLast(log: seq<Event>, e: Event)
    ensures Fold(log + [e]) == Ingest(Fold(log), e)
  {
    assert (log + [e])[..|log|] == log;
  }

  // ----- One contract's history -----

  /** The events about one contract, in order. */
  function History(log: seq<Event>, id: ContractId): seq<Event> {
    if log == [] then []
    else
      var front, e := History(log[..|log| - 1], id), log[|log| - 1];
      if e.id == id then front + [e] else front
  }

  lemma HistoryLast(log: seq<Event>, e: Event, id: ContractId)
    ensures History(log + [e], id) == if e.id == id then History(log, id) + [e] else History(log, id)
  {
    assert (log + [e])[..|log|] == log;
  }

  datatype Phase = Unposted | At(status: Status) | Broken

  predicate Terminal(status: Status) {
    status in {Accepted, Rejected, Cancelled, Expired}
  }

  /** The lifecycle automaton. */
  function Advance(p: Phase, e: Event): Phase {
    if p == Unposted then (if e.ContractPosted? then At(Open) else Broken)
    else if p == Broken || Terminal(p.status) then Broken
    else
      match e
      case WorkerCommitted(_, _, _, _) => if p.status in {Open, Committed} then At(Committed) else Broken
      case ContractDelivered(_, _, _) => if p.status == Committed then At(Delivered) else Broken
      case DeliveryAccepted(_, _, _) => if p.status == Delivered then At(Accepted) else Broken
      case DeliveryRejected(_, _, _) => if p.status == Delivered then At(Disputed) else Broken
      case ContractDisputeResolved(_, d, _) =>
        if p.status == Disputed then At(if d == ForWorker then Accepted else Rejected) else Broken
      case ContractCancelled(_, _) => if p.status == Open then At(Cancelled) else Broken
      case ContractExpired(_, _) => At(Expired)
      case ContractPosted(_, _, _, _) => Broken
  }

  function Trace(history: seq<Event>): Phase {
    if history == [] then Unposted else Advance(Trace(history[..|history| - 1]), history[|history| - 1])
  }

  lemma TraceLast(history: seq<Event>, e: Event)
    ensures Trace(history + [e]) == Advance(Trace(history), e)
  {
    assert (history + [e])[..|history|] == history;
  }

  // ----- One contract -----

  function SliceOf(commits: map<CommitKey, Commit>, id: ContractId): map<CommitKey, Commit> {
    map x | x in commits && x.contract == id :: commits[x]
  }

  /** Everything the module and its event log say about one contract. */
  datatype View = View(
    record: Option<Record>, escrow: nat, commits: map<CommitKey, Commit>, delivery: Option<Delivery>,
    dispute: Option<Dispute>, history: seq<Event>)

  function Find<K, V>(m: map<K, V>, k: K): Option<V> {
    if k in m then Some(m[k]) else None
  }

  function ViewOf(s: State, id: ContractId): View {
    View(Find(s.contracts, id), Get(s.escrow, id, 0), SliceOf(s.commits, id), Find(s.deliveries, id),
         Find(s.disputes, id), History(s.log, id))
  }

  ghost predicate CommitsGood(v: View, id: ContractId) {
    forall x :: x in v.commits ==> x == KeyOf(id, v.commits[x].worker) && v.commits[x].bond > 0
  }

  /** Commits, delivery and dispute are there exactly when the status says so. */
  ghost predicate Staged(r: Record, v: View, id: ContractId) {
    && (r.status == Open ==> v.commits == map[])
    && (r.status == Committed ==> v.commits != map[])
    && (r.status in {Open, Committed} ==> v.delivery.None?)
    && (r.status in {Delivered, Disputed} ==>
          v.delivery.Some? && KeyOf(id, v.delivery.value.worker) in v.commits)
    && (r.status == Disputed ==> v.dispute.Some?)
    && (v.dispute.Some? ==> r.status in {Disputed, Expired} && v.delivery.Some?
                            && v.dispute.value.worker == v.delivery.value.worker)
  }

  /** What holds of every contract id at rollup height h. */
  ghost predicate Good(v: View, id: ContractId, h: nat) {
    match v.record
    case None => v == View(None, 0, map[], None, None, [])
    case Some(r) =>
      && r.pool > 0 && r.bps <= MAX_ARBITER_FEE_BPS
      && v.escrow == (if Terminal(r.status) then 0 else r.pool)
      && CommitsGood(v, id)
      && Staged(r, v, id)
      && (v.delivery.Some? ==> v.delivery.value.deliveredAt <= h)
      && Trace(v.history) == At(r.status)
  }

  // ----- The module -----

  function BondOf(c: Commit): nat {
    c.bond
  }

  function BondsOf(commits: map<CommitKey, Commit>): map<CommitKey, nat> {
    map x | x in commits :: BondOf(commits[x])
  }

  function WorkersOf(deliveries: map<ContractId, Delivery>): map<ContractId, Address> {
    map x | x in deliveries :: deliveries[x].worker
  }

  /** Every AVOW the module holds is some contract's escrow or some live commit's bond. */
  ghost predicate Solvent(s: State, funds: nat) {
    funds == Sum<ContractId, nat>(s.escrow, Same) + Sum<CommitKey, Commit>(s.commits, BondOf)
  }

  /** The events alone give the escrows, the live bonds and who delivered. */
  ghost predicate Matched(s: State, k: Books) {
    k.escrow == s.escrow && k.bonds == BondsOf(s.commits) && k.deliverer == WorkersOf(s.deliveries)
  }

  ghost predicate AllGood(s: State, h: nat) {
    forall id :: Good(ViewOf(s, id), id, h)
  }

  /** The module's invariant: books k, balance `funds`, rollup height h. */
  ghost predicate Sound(s: State, k: Books, funds: nat, h: nat) {
    s.escrow.Keys == s.contracts.Keys && Matched(s, k) && Solvent(s, funds) && AllGood(s, h)
  }
}
