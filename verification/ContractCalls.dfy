/** Each contract call: exactly when it succeeds, and exactly what it stores and announces. */
module ContractCalls {
  import opened Types
  import opened Ledger
  import opened Contract
  import opened ContractBooks
  import opened ContractProofs
  import opened ContractSafety
  import A = Attestation

  // ----- Post -----

  /** Posting succeeds exactly for a funded pool, a future expiry, an arbiter fee of at most half and a new id. */
  lemma PostIff(c: Scheme, s: State, l: Balances, att: A.State, clock: Clock, sender: Address, arbiter: Address,
                criteria: Bytes32, pool: u128, expiry: u64, window: u32, bps: u16)
    requires att.avow.Some?
    ensures Step(c, s, l, att, clock, sender, PostContract(arbiter, criteria, pool, expiry, window, bps)).Done? <==>
              0 < pool <= Balance(l, User(sender)) && expiry > clock.DaHeight() && bps <= 5000
              && c.contractId(sender, criteria, Get(s.nextNonce, sender, 0)) !in s.contracts
  {}

  /** It stores the terms as given, opens the contract and moves the pool from the sender into escrow. */
  lemma PostStores(c: Scheme, s: State, l: Balances, att: A.State, clock: Clock, sender: Address, arbiter: Address,
                   criteria: Bytes32, pool: u128, expiry: u64, window: u32, bps: u16)
    requires Step(c, s, l, att, clock, sender, PostContract(arbiter, criteria, pool, expiry, window, bps)).Done?
    ensures var Done(t, l1) := Step(c, s, l, att, clock, sender, PostContract(arbiter, criteria, pool, expiry, window, bps));
            var nonce := Get(s.nextNonce, sender, 0);
            var id := c.contractId(sender, criteria, nonce);
            && t == s.(contracts := s.contracts[id := Record(sender, arbiter, criteria, pool, expiry, window, bps, Open)],
                       escrow := s.escrow[id := pool],
                       nextNonce := s.nextNonce[sender := if nonce == U64_MAX then nonce else nonce + 1],
                       log := s.log + [ContractPosted(id, sender, arbiter, pool)])
            && PayAll(l, [Transfer(User(sender), ESCROW, pool)]) == Some(l1)
  {
    PaySingle(l, Transfer(User(sender), ESCROW, pool));
  }

  // ----- Commit -----

  /** Any worker without a commit can bond in, before or after others did, until a delivery lands. */
  lemma CommitIff(c: Scheme, s: State, l: Balances, att: A.State, clock: Clock, sender: Address, id: ContractId,
                  hash: Bytes32, bond: u128)
    requires att.avow.Some?
    ensures Step(c, s, l, att, clock, sender, CommitToContract(id, hash, bond)).Done? <==>
              0 < bond <= Balance(l, User(sender))
              && id in s.contracts && (s.contracts[id].status == Open || s.contracts[id].status == Committed)
              && KeyOf(id, sender) !in s.commits
  {
    PaySingle(l, Transfer(User(sender), ESCROW, bond));
  }

  lemma CommitStores(c: Scheme, s: State, l: Balances, att: A.State, clock: Clock, sender: Address, id: ContractId,
                     hash: Bytes32, bond: u128)
    requires Step(c, s, l, att, clock, sender, CommitToContract(id, hash, bond)).Done?
    ensures id in s.contracts
    ensures var Done(t, l1) := Step(c, s, l, att, clock, sender, CommitToContract(id, hash, bond));
            && t == s.(commits := s.commits[KeyOf(id, sender) := Commit(sender, hash, bond)],
                       contracts := s.contracts[id := s.contracts[id].(status := Committed)],
                       log := s.log + [WorkerCommitted(id, sender, hash, bond)])
            && PayAll(l, [Transfer(User(sender), ESCROW, bond)]) == Some(l1)
  {}

  // ----- Deliver -----

  /** The first committed worker delivers, before expiry, with a stored attestation. */
  lemma DeliverIff(c: Scheme, s: State, l: Balances, att: A.State, clock: Clock, sender: Address, id: ContractId,
                   a: AttestationId)
    ensures Step(c, s, l, att, clock, sender, DeliverContract(id, a)).Done? <==>
              id in s.contracts && s.contracts[id].status == Committed && clock.DaHeight() < s.contracts[id].expiry
              && id !in s.deliveries && KeyOf(id, sender) in s.commits && a in att.attestations
  {}

  /** The delivery is dated by the rollup height of the call; no money moves. */
  lemma DeliverStores(c: Scheme, s: State, l: Balances, att: A.State, clock: Clock, sender: Address, id: ContractId,
                      a: AttestationId)
    requires Step(c, s, l, att, clock, sender, DeliverContract(id, a)).Done?
    ensures id in s.contracts
    ensures Step(c, s, l, att, clock, sender, DeliverContract(id, a)) ==
              Done(s.(deliveries := s.deliveries[id := Delivery(sender, a, clock.rollup)],
                      contracts := s.contracts[id := s.contracts[id].(status := Delivered)],
                      log := s.log + [ContractDelivered(id, sender, a)]), l)
  {}

  // ----- Accept and finalize -----

  /** What settling a delivery leaves: no escrow, no bond of the deliverer, an accepted contract. */
  ghost predicate PaidOut(s: State, t: State, id: ContractId) {
    && id in s.contracts && id in s.deliveries
    && var worker := s.deliveries[id].worker;
       t == s.(contracts := s.contracts[id := s.contracts[id].(status := Accepted)],
               escrow := s.escrow[id := 0],
               commits := s.commits - {KeyOf(id, worker)},
               log := s.log + [DeliveryAccepted(id, worker, s.contracts[id].pool)])
  }

  lemma AcceptStores(c: Scheme, s: State, l: Balances, att: A.State, clock: Clock, sender: Address, id: ContractId)
    requires Step(c, s, l, att, clock, sender, AcceptDelivery(id)).Done?
    ensures PaidOut(s, Step(c, s, l, att, clock, sender, AcceptDelivery(id)).state, id)
  {}

  lemma FinalizeStores(c: Scheme, s: State, l: Balances, att: A.State, clock: Clock, sender: Address, id: ContractId)
    requires Step(c, s, l, att, clock, sender, FinalizeDelivery(id)).Done?
    ensures PaidOut(s, Step(c, s, l, att, clock, sender, FinalizeDelivery(id)).state, id)
  {}

  // ----- Reject and resolve -----

  /** Only the poster rejects, and only a delivery nobody has settled yet. */
  lemma RejectIff(c: Scheme, s: State, l: Balances, att: A.State, clock: Clock, sender: Address, id: ContractId,
                  ground: Ground)
    requires AllGood(s, clock.rollup)
    ensures Step(c, s, l, att, clock, sender, RejectDelivery(id, ground)).Done? <==>
              id in s.contracts && sender == s.contracts[id].poster && s.contracts[id].status == Delivered
  {
    assert Good(ViewOf(s, id), id, clock.rollup);
  }

  lemma RejectStores(c: Scheme, s: State, l: Balances, att: A.State, clock: Clock, sender: Address, id: ContractId,
                     ground: Ground)
    requires Step(c, s, l, att, clock, sender, RejectDelivery(id, ground)).Done?
    ensures id in s.contracts && id in s.deliveries
    ensures Step(c, s, l, att, clock, sender, RejectDelivery(id, ground)) ==
              Done(s.(disputes := s.disputes[id := Dispute(s.deliveries[id].worker, ground)],
                      contracts := s.contracts[id := s.contracts[id].(status := Disputed)],
                      log := s.log + [DeliveryRejected(id, s.deliveries[id].worker, ground)]), l)
  {}

  lemma ResolveStores(c: Scheme, s: State, l: Balances, att: A.State, clock: Clock, sender: Address, id: ContractId,
                      d: Decision)
    requires Step(c, s, l, att, clock, sender, ResolveContractDispute(id, d)).Done?
    ensures id in s.contracts && id in s.disputes
    ensures var t, worker := Step(c, s, l, att, clock, sender, ResolveContractDispute(id, d)).state, s.disputes[id].worker;
            var winner := if d == ForWorker then worker else s.contracts[id].poster;
            t == s.(contracts := s.contracts[id := s.contracts[id].(status := if d == ForWorker then Accepted else Rejected)],
                    escrow := s.escrow[id := 0],
                    commits := s.commits - {KeyOf(id, worker)},
                    disputes := s.disputes - {id},
                    log := s.log + [ContractDisputeResolved(id, d, winner)])
  {}

  // ----- Cancel -----

  /** Past expiry the contract ends Expired, before it Cancelled, with the event to match; nothing else but escrow moves. */
  lemma CancelStores(c: Scheme, s: State, l: Balances, att: A.State, clock: Clock, sender: Address, id: ContractId)
    requires AllGood(s, clock.rollup) && s.escrow.Keys == s.contracts.Keys
    requires Step(c, s, l, att, clock, sender, CancelContract(id)).Done?
    ensures id in s.contracts
    ensures var t, r := Step(c, s, l, att, clock, sender, CancelContract(id)).state, s.contracts[id];
            var expired := clock.DaHeight() >= r.expiry;
            t == s.(contracts := s.contracts[id := r.(status := if expired then Expired else Cancelled)],
                    escrow := s.escrow[id := 0],
                    log := s.log + [if expired then ContractExpired(id, r.pool) else ContractCancelled(id, r.pool)])
  {
    assert Good(ViewOf(s, id), id, clock.rollup);
  }

  // ----- What refusals say -----

  // Each call is refused only with these errors, and each of them names a check that really failed.

  lemma PostRefusals(c: Scheme, s: State, l: Balances, att: A.State, clock: Clock, sender: Address, arbiter: Address,
                     criteria: Bytes32, pool: u128, expiry: u64, window: u32, bps: u16)
    requires Post(c, s, l, att, clock, sender, arbiter, criteria, pool, expiry, window, bps).Refused?
    ensures match Post(c, s, l, att, clock, sender, arbiter, criteria, pool, expiry, window, bps).error
            case EmptyPool => pool == 0
            case InvalidExpiryHeight => expiry == 0
            case ExpiryInPast(x, current) => x == expiry && current == clock.DaHeight() && expiry <= current
            case ArbiterFeeExceedsCap(x, cap) => x == bps && cap == 5000 && bps > cap
            case DuplicateContract => c.contractId(sender, criteria, Get(s.nextNonce, sender, 0)) in s.contracts
            case ModuleNotInitialised => att.avow.None?
            case InsufficientFunds => pool > Balance(l, User(sender))
            case _ => false
  {}

  lemma CommitRefusals(s: State, att: A.State, sender: Address, id: ContractId, hash: Bytes32, bond: u128)
    requires Commits(s, att, sender, id, hash, bond).Failure?
    ensures match Commits(s, att, sender, id, hash, bond).error
            case EmptyBond => bond == 0
            case UnknownContract => id !in s.contracts
            case InvalidStatus(status) => id in s.contracts && status == s.contracts[id].status && status !in {Open, Committed}
            case DuplicateCommit => KeyOf(id, sender) in s.commits
            case ModuleNotInitialised => att.avow.None?
            case _ => false
  {}

  lemma DeliverRefusals(s: State, att: A.State, clock: Clock, sender: Address, id: ContractId, a: AttestationId)
    requires Delivers(s, att, clock, sender, id, a).Failure?
    ensures match Delivers(s, att, clock, sender, id, a).error
            case UnknownContract => id !in s.contracts
            case InvalidStatus(status) => id in s.contracts && status == s.contracts[id].status != Committed
            case PastExpiry(expiry, current) =>
              id in s.contracts && expiry == s.contracts[id].expiry && current == clock.DaHeight() && current >= expiry
            case DuplicateDelivery => id in s.deliveries
            case NoActiveCommit => KeyOf(id, sender) !in s.commits
            case UnknownAttestation => a !in att.attestations
            case _ => false
  {}

  lemma AcceptRefusals(s: State, att: A.State, sender: Address, id: ContractId)
    requires Accepts(s, att, sender, id).Failure?
    ensures match Accepts(s, att, sender, id).error
            case UnknownContract => id !in s.contracts
            case NotPoster => id in s.contracts && sender != s.contracts[id].poster
            case InvalidStatus(status) => id in s.contracts && status == s.contracts[id].status != Delivered
            case NoDelivery => id !in s.deliveries
            case ModuleNotInitialised => att.avow.None?
            case _ => false
  {}

  lemma RejectRefusals(s: State, sender: Address, id: ContractId, ground: Ground)
    requires Rejects(s, sender, id, ground).Failure?
    ensures match Rejects(s, sender, id, ground).error
            case UnknownContract => id !in s.contracts
            case NotPoster => id in s.contracts && sender != s.contracts[id].poster
            case NoPendingDelivery => id in s.contracts && s.contracts[id].status != Delivered
            case NoDelivery => id !in s.deliveries
            case _ => false
  {}

  lemma ResolveRefusals(s: State, att: A.State, sender: Address, id: ContractId, d: Decision)
    requires Resolves(s, att, sender, id, d).Failure?
    ensures match Resolves(s, att, sender, id, d).error
            case UnknownContract => id !in s.contracts
            case NotArbiter => id in s.contracts && sender != s.contracts[id].arbiter
            case NotInDispute => id in s.contracts && (s.contracts[id].status != Disputed || id !in s.disputes)
            case ModuleNotInitialised => att.avow.None?
            case _ => false
  {}

  lemma CancelRefusals(s: State, att: A.State, clock: Clock, sender: Address, id: ContractId)
    requires Cancels(s, att, clock, sender, id).Failure?
    ensures match Cancels(s, att, clock, sender, id).error
            case UnknownContract => id !in s.contracts
            case NotPoster => id in s.contracts && sender != s.contracts[id].poster
            case InvalidStatus(status) => id in s.contracts && status == s.contracts[id].status && Terminal(status)
            case CancelWhileActive =>
              id in s.contracts && s.contracts[id].status != Open && clock.DaHeight() < s.contracts[id].expiry
            case ModuleNotInitialised => att.avow.None?
            case _ => false
  {}

  lemma FinalizeRefusals(s: State, att: A.State, clock: Clock, id: ContractId)
    requires Finalizes(s, att, clock, id).Failure?
    ensures match Finalizes(s, att, clock, id).error
            case UnknownContract => id !in s.contracts
            case InvalidStatus(status) => id in s.contracts && status == s.contracts[id].status != Delivered
            case NoDelivery => id !in s.deliveries
            case AcceptanceWindowOpen(close, current) =>
              id in s.contracts && id in s.deliveries && current == clock.rollup && current <= close
              && close == Min(U64_MAX, s.deliveries[id].deliveredAt + s.contracts[id].window)
            case ModuleNotInitialised => att.avow.None?
            case _ => false
  {}
}
