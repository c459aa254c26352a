/** The contract module's records and call effects, as functions of its state. */
module Contract {
  import opened Types
  import opened Ledger
  import A = Attestation

  const MAX_ARBITER_FEE_BPS: u16 := 5000

  type Bytes28 = b: Bytes | |b| == 28 witness seq(28, _ => 0)

  datatype Status = Open | Committed | Delivered | Accepted | Rejected | Disputed | Cancelled | Expired

  datatype Ground = CriteriaMismatch | MalformedDelivery | ExpiredAtDelivery | Other

  /** The arbiter's `AcceptDelivery` and `RejectDelivery`. */
  datatype Decision = ForWorker | ForPoster

  datatype Record = Record(
    poster: Address, arbiter: Address, criteria: Bytes32, pool: u128, expiry: u64, window: u32, bps: u16,
    status: Status)

  datatype CommitKey = CommitKey(contract: ContractId, worker: Bytes28)

  datatype Commit = Commit(worker: Address, hash: Bytes32, bond: u128)

  datatype Delivery = Delivery(worker: Address, attestation: AttestationId, deliveredAt: u64)

  datatype Dispute = Dispute(worker: Address, ground: Ground)

  datatype Error =
    | EmptyPool
    | InvalidExpiryHeight
    | ArbiterFeeExceedsCap(bps: u16, cap: u16)
    | DuplicateContract
    | UnknownContract
    | NotPoster
    | NotArbiter
    | InvalidStatus(status: Status)
    | EmptyBond
    | DuplicateCommit
    | NoActiveCommit
    | UnknownAttestation
    | DuplicateDelivery
    | NoDelivery
    | NoPendingDelivery
    | NotInDispute
    | CancelWhileActive
    | ExpiryInPast(expiry: u64, current: u64)
    | PastExpiry(expiry: u64, current: u64)  // `ContractExpired`
    | AcceptanceWindowOpen(windowClose: u64, current: u64)
    | ModuleNotInitialised
    | InsufficientFunds  // the bank's own refusal, passed through

  datatype Event =
    | ContractPosted(id: ContractId, poster: Address, arbiter: Address, pool: nat)
    | WorkerCommitted(id: ContractId, worker: Address, hash: Bytes32, bond: nat)
    | ContractDelivered(id: ContractId, worker: Address, attestation: AttestationId)
    | DeliveryAccepted(id: ContractId, worker: Address, payout: nat)
    | DeliveryRejected(id: ContractId, worker: Address, reason: Ground)
    | ContractDisputeResolved(id: ContractId, decision: Decision, winner: Address)
    | ContractCancelled(id: ContractId, refunded: nat)
    | ContractExpired(id: ContractId, refunded: nat)

  datatype State = State(
    contracts: map<ContractId, Record>,
    commits: map<CommitKey, Commit>,
    deliveries: map<ContractId, Delivery>,
    disputes: map<ContractId, Dispute>,
    escrow: map<ContractId, nat>,
    nextNonce: map<Address, u64>,
    log: seq<Event>)

  const EMPTY: State := State(map[], map[], map[], map[], map[], map[], [])

  const ESCROW: Account := Module(ContractModule)

  datatype Verdict = Done(state: State, funds: Balances) | Refused(error: Error)

  function Reply(v: Verdict): Outcome<Error> {
    if v.Done? then Pass else Fail(v.error)
  }

  /** The first 28 bytes of an address, zero-padded. */
  function WorkerBytes(worker: Address): Bytes28 {
    var n := Min(|worker.bytes|, 28);
    worker.bytes[..n] + seq(28 - n, _ => 0)
  }

  function KeyOf(id: ContractId, worker: Address): CommitKey {
    CommitKey(id, WorkerBytes(worker))
  }

  /** Chain addresses are 28 bytes, so distinct workers never share a commit key. */
  lemma CommitKeyInjective(id1: ContractId, w1: Address, id2: ContractId, w2: Address)
    requires |w1.bytes| == |w2.bytes| == 28
    ensures KeyOf(id1, w1) == KeyOf(id2, w2) <==> id1 == id2 && w1 == w2
  {
    assert WorkerBytes(w1) == w1.bytes && WorkerBytes(w2) == w2.bytes;
  }

  // ----- What one call on a posted contract does -----

  datatype CommitChange = SameCommits | Lock(commit: Commit) | Release(worker: Address)

  datatype DisputeChange = SameDispute | Raise(dispute: Dispute) | Drop

  /** Everything a call writes to its one contract, its payments in order, and its event. */
  datatype Effect = Effect(
    status: Status, escrow: Option<nat>, commit: CommitChange, delivery: Option<Delivery>, dispute: DisputeChange,
    transfers: seq<Transfer>, event: Event)

  function CommitsAfter(commits: map<CommitKey, Commit>, id: ContractId, change: CommitChange): map<CommitKey, Commit> {
    match change
    case SameCommits => commits
    case Lock(c) => commits[KeyOf(id, c.worker) := c]
    case Release(w) => commits - {KeyOf(id, w)}
  }

  function DisputesAfter(disputes: map<ContractId, Dispute>, id: ContractId, change: DisputeChange)
    : map<ContractId, Dispute>
  {
    match change
    case SameDispute => disputes
    case Raise(d) => disputes[id := d]
    case Drop => disputes - {id}
  }

  function Written<V>(m: map<ContractId, V>, id: ContractId, value: Option<V>): map<ContractId, V> {
    if value.Some? then m[id := value.value] else m
  }

  function Enact(s: State, id: ContractId, e: Effect): State
    requires id in s.contracts
  {
    State(
      s.contracts[id := s.contracts[id].(status := e.status)],
      CommitsAfter(s.commits, id, e.commit),
      Written(s.deliveries, id, e.delivery),
      DisputesAfter(s.disputes, id, e.dispute),
      Written(s.escrow, id, e.escrow),
      s.nextNonce,
      s.log + [e.event])
  }

  function PayUser(to: Address, amount: nat): Transfer {
    Transfer(ESCROW, User(to), amount)
  }

  /** A payment the handlers skip when it is zero. */
  function PayIfAny(to: Address, amount: nat): seq<Transfer> {
    if amount > 0 then [PayUser(to, amount)] else []
  }

  /** The bond payment of the worker's commit, if it is there. */
  function PayBond(s: State, id: ContractId, worker: Address, to: Address): seq<Transfer> {
    if KeyOf(id, worker) in s.commits then [PayUser(to, s.commits[KeyOf(id, worker)].bond)] else []
  }

  function Commits(s: State, att: A.State, sender: Address, id: ContractId, hash: Bytes32, bond: u128)
    : Result<Effect, Error>
  {
    if bond == 0 then Failure(EmptyBond)
    else if id !in s.contracts then Failure(UnknownContract)
    else
      var r := s.contracts[id];
      if r.status != Open && r.status != Committed then Failure(InvalidStatus(r.status))
      else if KeyOf(id, sender) in s.commits then Failure(DuplicateCommit)
      else if att.avow.None? then Failure(ModuleNotInitialised)
      else Success(Effect(Committed, None, Lock(Commit(sender, hash, bond)), None, SameDispute,
                          [Transfer(User(sender), ESCROW, bond)], WorkerCommitted(id, sender, hash, bond)))
  }

  function Delivers(s: State, att: A.State, clock: Clock, sender: Address, id: ContractId, a: AttestationId)
    : Result<Effect, Error>
  {
    if id !in s.contracts then Failure(UnknownContract)
    else
      var r := s.contracts[id];
      if r.status != Committed then Failure(InvalidStatus(r.status))
      else if clock.DaHeight() >= r.expiry then Failure(PastExpiry(r.expiry, clock.DaHeight()))
      else if id in s.deliveries then Failure(DuplicateDelivery)
      else if KeyOf(id, sender) !in s.commits then Failure(NoActiveCommit)
      else if a !in att.attestations then Failure(UnknownAttestation)
      else Success(Effect(Delivered, None, SameCommits, Some(Delivery(sender, a, clock.rollup)), SameDispute, [],
                          ContractDelivered(id, sender, a)))
  }

  /** Pay pool and bond to the worker who delivered: what accept and finalize share. */
  function PayWorker(s: State, att: A.State, id: ContractId, worker: Address): Result<Effect, Error>
    requires id in s.contracts
  {
    var pool := s.contracts[id].pool;
    if att.avow.None? then Failure(ModuleNotInitialised)
    else Success(Effect(Accepted, Some(0), Release(worker), None, SameDispute,
                        [PayUser(worker, pool)] + PayBond(s, id, worker, worker), DeliveryAccepted(id, worker, pool)))
  }

  function Accepts(s: State, att: A.State, sender: Address, id: ContractId): Result<Effect, Error> {
    if id !in s.contracts then Failure(UnknownContract)
    else
      var r := s.contracts[id];
      if sender != r.poster then Failure(NotPoster)
      else if r.status != Delivered then Failure(InvalidStatus(r.status))
      else if id !in s.deliveries then Failure(NoDelivery)
      else PayWorker(s, att, id, s.deliveries[id].worker)
  }

  function Rejects(s: State, sender: Address, id: ContractId, ground: Ground): Result<Effect, Error> {
    if id !in s.contracts then Failure(UnknownContract)
    else
      var r := s.contracts[id];
      if sender != r.poster then Failure(NotPoster)
      else if r.status != Delivered then Failure(NoPendingDelivery)
      else if id !in s.deliveries then Failure(NoDelivery)
      else
        var worker := s.deliveries[id].worker;
        Success(Effect(Disputed, None, SameCommits, None, Raise(Dispute(worker, ground)), [],
                       DeliveryRejected(id, worker, ground)))
  }

  /** The arbiter's share of the pool, as computed in saturating u128 arithmetic. */
  function ArbiterCut(pool: u128, bps: u16): nat {
    SaturatingMul128(pool, bps) / 10_000
  }

  /** The arbiter is paid first, then the winner gets the rest of the pool and the disputed worker's bond. */
  function Award(s: State, id: ContractId, d: Decision): Effect
    requires id in s.contracts && id in s.disputes
  {
    var r := s.contracts[id];
    var cut, worker := ArbiterCut(r.pool, r.bps), s.disputes[id].worker;
    var winner := if d == ForWorker then worker else r.poster;
    Effect(if d == ForWorker then Accepted else Rejected, Some(0), Release(worker), None, Drop,
           PayIfAny(r.arbiter, cut) + PayIfAny(winner, SaturatingSub(r.pool, cut)) + PayBond(s, id, worker, winner),
           ContractDisputeResolved(id, d, winner))
  }

  function Resolves(s: State, att: A.State, sender: Address, id: ContractId, d: Decision): Result<Effect, Error> {
    if id !in s.contracts then Failure(UnknownContract)
    else
      var r := s.contracts[id];
      if sender != r.arbiter then Failure(NotArbiter)
      else if r.status != Disputed then Failure(NotInDispute)
      else if id !in s.disputes then Failure(NotInDispute)
      else if att.avow.None? then Failure(ModuleNotInitialised)
      else Success(Award(s, id, d))
  }

  function Cancels(s: State, att: A.State, clock: Clock, sender: Address, id: ContractId): Result<Effect, Error> {
    if id !in s.contracts then Failure(UnknownContract)
    else
      var r := s.contracts[id];
      if sender != r.poster then Failure(NotPoster)
      else if r.status in {Cancelled, Accepted, Rejected, Expired} then Failure(InvalidStatus(r.status))
      else
        var expired := clock.DaHeight() >= r.expiry;
        var left := Get(s.escrow, id, 0);
        if r.status != Open && !expired then Failure(CancelWhileActive)
        else if left > 0 && att.avow.None? then Failure(ModuleNotInitialised)
        else Success(Effect(if expired then Expired else Cancelled, if left > 0 then Some(0) else None, SameCommits,
                            None, SameDispute, PayIfAny(r.poster, left),
                            if expired then ContractExpired(id, left) else ContractCancelled(id, left)))
  }

  function Finalizes(s: State, att: A.State, clock: Clock, id: ContractId): Result<Effect, Error> {
    if id !in s.contracts then Failure(UnknownContract)
    else
      var r := s.contracts[id];
      if r.status != Delivered then Failure(InvalidStatus(r.status))
      else if id !in s.deliveries then Failure(NoDelivery)
      else
        var close := SaturatingAdd64(s.deliveries[id].deliveredAt, r.window);
        if clock.rollup <= close then Failure(AcceptanceWindowOpen(close, clock.rollup))
        else PayWorker(s, att, id, s.deliveries[id].worker)
  }

  // ----- Dispatch -----

  datatype Message =
    | PostContract(arbiter: Address, criteria: Bytes32, pool: u128, expiry: u64, window: u32, bps: u16)
    | CommitToContract(id: ContractId, hash: Bytes32, bond: u128)
    | DeliverContract(id: ContractId, attestation: AttestationId)
    | AcceptDelivery(id: ContractId)
    | RejectDelivery(id: ContractId, ground: Ground)
    | ResolveContractDispute(id: ContractId, decision: Decision)
    | CancelContract(id: ContractId)
    | FinalizeDelivery(id: ContractId)

  /** What a call on a posted contract comes to before its payments. */
  function Decide(s: State, att: A.State, clock: Clock, sender: Address, m: Message): Result<Effect, Error>
    requires !m.PostContract?
  {
    match m
    case CommitToContract(id, hash, bond) => Commits(s, att, sender, id, hash, bond)
    case DeliverContract(id, a) => Delivers(s, att, clock, sender, id, a)
    case AcceptDelivery(id) => Accepts(s, att, sender, id)
    case RejectDelivery(id, ground) => Rejects(s, sender, id, ground)
    case ResolveContractDispute(id, d) => Resolves(s, att, sender, id, d)
    case CancelContract(id) => Cancels(s, att, clock, sender, id)
    case FinalizeDelivery(id) => Finalizes(s, att, clock, id)
  }

  /** Run an effect's payments, then adopt its writes. */
  function Settle(s: State, l: Balances, id: ContractId, d: Result<Effect, Error>): Verdict
    requires d.Success? ==> id in s.contracts
  {
    match d
    case Failure(e) => Refused(e)
    case Success(e) =>
      match PayAll(l, e.transfers)
      case None => Refused(InsufficientFunds)
      case Some(l1) => Done(Enact(s, id, e), l1)
  }

  function Posted(s: State, id: ContractId, r: Record, nonce: u64): State {
    s.(contracts := s.contracts[id := r],
       escrow := s.escrow[id := r.pool],
       nextNonce := s.nextNonce[r.poster := SaturatingAdd64(nonce, 1)],
       log := s.log + [ContractPosted(id, r.poster, r.arbiter, r.pool)])
  }

  function Post(c: Scheme, s: State, l: Balances, att: A.State, clock: Clock, sender: Address, arbiter: Address,
                criteria: Bytes32, pool: u128, expiry: u64, window: u32, bps: u16): Verdict
  {
    if pool == 0 then Refused(EmptyPool)
    else if expiry == 0 then Refused(InvalidExpiryHeight)
    else if expiry <= clock.DaHeight() then Refused(ExpiryInPast(expiry, clock.DaHeight()))
    else if bps > MAX_ARBITER_FEE_BPS then Refused(ArbiterFeeExceedsCap(bps, MAX_ARBITER_FEE_BPS))
    else
      var nonce := Get(s.nextNonce, sender, 0);
      var id := c.contractId(sender, criteria, nonce);
      if id in s.contracts then Refused(DuplicateContract)
      else if att.avow.None? then Refused(ModuleNotInitialised)
      else
        match Pay(l, Transfer(User(sender), ESCROW, pool))
        case None => Refused(InsufficientFunds)
        case Some(l1) => Done(Posted(s, id, Record(sender, arbiter, criteria, pool, expiry, window, bps, Open), nonce), l1)
  }

  /** One call of the module: its new state and balances, or the first error. */
  function Step(c: Scheme, s: State, l: Balances, att: A.State, clock: Clock, sender: Address, m: Message): Verdict {
    match m
    case PostContract(arbiter, criteria, pool, expiry, window, bps) =>
      Post(c, s, l, att, clock, sender, arbiter, criteria, pool, expiry, window, bps)
    case _ => Settle(s, l, m.id, Decide(s, att, clock, sender, m))
  }
}
