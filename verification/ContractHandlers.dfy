/** The contract module as the chain runs it: handlers that update its maps in place between payments. */
module ContractHandlers {
  import opened Types
  import opened Ledger
  import opened Contract
  import opened AttestationHandlers

  class Contracts {
    const scheme: Scheme
    const bank: Bank
    const attestation: AttestationModule

    var contracts: map<ContractId, Record>
    var commits: map<CommitKey, Commit>
    var deliveries: map<ContractId, Delivery>
    var disputes: map<ContractId, Dispute>
    var escrow: map<ContractId, nat>
    var nextPosterNonce: map<Address, u64>
    var events: seq<Event>

    constructor (scheme: Scheme, bank: Bank, attestation: AttestationModule)
      ensures this.scheme == scheme && this.bank == bank && this.attestation == attestation && Now() == EMPTY
    {
      this.scheme, this.bank, this.attestation := scheme, bank, attestation;
      contracts, commits, deliveries, disputes, escrow := map[], map[], map[], map[], map[];
      nextPosterNonce, events := map[], [];
    }

    /** The stored state, as a value. */
    function Now(): State
      reads this
    {
      State(contracts, commits, deliveries, disputes, escrow, nextPosterNonce, events)
    }

    method Restore(s: State)
      modifies this
      ensures Now() == s
    {
      contracts, commits, deliveries, disputes := s.contracts, s.commits, s.deliveries, s.disputes;
      escrow, nextPosterNonce, events := s.escrow, s.nextNonce, s.log;
    }

    /** Read and increment the poster's nonce. */
    method BumpPosterNonce(poster: Address) returns (current: u64)
      modifies this`nextPosterNonce
      ensures current == Get(old(nextPosterNonce), poster, 0)
      ensures nextPosterNonce == old(nextPosterNonce)[poster := SaturatingAdd64(current, 1)]
    {
      current := Get(nextPosterNonce, poster, 0);
      nextPosterNonce := nextPosterNonce[poster := SaturatingAdd64(current, 1)];
    }

    /** Copy an address into a fixed 28-byte buffer. */
    method CommitKeyFor(id: ContractId, worker: Address) returns (key: CommitKey)
      ensures key == KeyOf(id, worker)
    {
      var buffer := new u8[28](_ => 0);
      var len := Min(|worker.bytes|, 28);
      for i := 0 to len
        invariant buffer[..i] == worker.bytes[..i]
        invariant forall j :: i <= j < 28 ==> buffer[j] == 0
      {
        buffer[i] := worker.bytes[i];
      }
      assert buffer[..] == buffer[..len] + buffer[len..];
      assert buffer[len..] == seq(28 - len, _ => 0);
      key := CommitKey(id, buffer[..]);
    }

    method HandlePostContract(clock: Clock, sender: Address, arbiter: Address, criteria: Bytes32, pool: u128,
                              expiry: u64, window: u32, bps: u16) returns (r: Outcome<Error>)
      modifies this, bank
      ensures r == Reply(Post(scheme, old(Now()), old(bank.balances), old(attestation.Now()), clock, sender, arbiter,
                  criteria, pool, expiry, window, bps))
      ensures r.Pass? ==> Done(Now(), bank.balances) == Post(scheme, old(Now()), old(bank.balances),
                  old(attestation.Now()), clock, sender, arbiter, criteria, pool, expiry, window, bps)
    {
      if pool == 0 {
        return Fail(EmptyPool);
      }
      if expiry == 0 {
        return Fail(InvalidExpiryHeight);
      }
      var currentDa := clock.DaHeight();
      if expiry <= currentDa {
        return Fail(ExpiryInPast(expiry, currentDa));
      }
      if bps > MAX_ARBITER_FEE_BPS {
        return Fail(ArbiterFeeExceedsCap(bps, MAX_ARBITER_FEE_BPS));
      }
      var nonce := BumpPosterNonce(sender);
      var id := scheme.contractId(sender, criteria, nonce);
      if id in contracts {
        return Fail(DuplicateContract);
      }
      if attestation.avowTokenId.None? {
        return Fail(ModuleNotInitialised);
      }
      var ok := bank.TransferFrom(User(sender), ESCROW, pool);
      if !ok {
        return Fail(InsufficientFunds);
      }
      contracts := contracts[id := Record(sender, arbiter, criteria, pool, expiry, window, bps, Open)];
      escrow := escrow[id := pool];
      events := events + [ContractPosted(id, sender, arbiter, pool)];
      return Pass;
    }

    method HandleCommitToContract(sender: Address, id: ContractId, hash: Bytes32, bond: u128)
      returns (r: Outcome<Error>)
      modifies this, bank
      ensures var v := Settle(old(Now()), old(bank.balances), id,
                              Commits(old(Now()), old(attestation.Now()), sender, id, hash, bond));
              r == Reply(v) && (r.Pass? ==> Done(Now(), bank.balances) == v)
    {
      if bond == 0 {
        return Fail(EmptyBond);
      }
      if id !in contracts {
        return Fail(UnknownContract);
      }
      var contract := contracts[id];
      if contract.status != Open && contract.status != Committed {
        return Fail(InvalidStatus(contract.status));
      }
      var key := CommitKeyFor(id, sender);
      if key in commits {
        return Fail(DuplicateCommit);
      }
      if attestation.avowTokenId.None? {
        return Fail(ModuleNotInitialised);
      }
      PaySingle(bank.balances, Transfer(User(sender), ESCROW, bond));
      var ok := bank.TransferFrom(User(sender), ESCROW, bond);
      if !ok {
        return Fail(InsufficientFunds);
      }
      commits := commits[key := Commit(sender, hash, bond)];
      if contract.status == Open {
        contracts := contracts[id := contract.(status := Committed)];
      }
      events := events + [WorkerCommitted(id, sender, hash, bond)];
      assert contracts == old(contracts)[id := contract.(status := Committed)];
      return Pass;
    }

    method HandleDeliverContract(clock: Clock, sender: Address, id: ContractId, a: AttestationId)
      returns (r: Outcome<Error>)
      modifies this
      ensures var v := Settle(old(Now()), bank.balances, id,
                              Delivers(old(Now()), attestation.Now(), clock, sender, id, a));
              r == Reply(v) && (r.Pass? ==> Done(Now(), bank.balances) == v)
    {
      if id !in contracts {
        return Fail(UnknownContract);
      }
      var contract := contracts[id];
      if contract.status != Committed {
        return Fail(InvalidStatus(contract.status));
      }
      var currentDa := clock.DaHeight();
      if currentDa >= contract.expiry {
        return Fail(PastExpiry(contract.expiry, currentDa));
      }
      if id in deliveries {
        return Fail(DuplicateDelivery);
      }
      var key := CommitKeyFor(id, sender);
      if key !in commits {
        return Fail(NoActiveCommit);
      }
      if a !in attestation.attestations {
        return Fail(UnknownAttestation);
      }
      deliveries := deliveries[id := Delivery(sender, a, clock.rollup)];
      contracts := contracts[id := contract.(status := Delivered)];
      events := events + [ContractDelivered(id, sender, a)];
      return Pass;
    }

    /** The settlement accept and finalize share: pool, then bond, then the records. */
    method SettleToWorker(id: ContractId, worker: Address) returns (r: Outcome<Error>)
      requires id in contracts
      modifies this, bank
      ensures var v := Settle(old(Now()), old(bank.balances), id,
                              PayWorker(old(Now()), old(attestation.Now()), id, worker));
              r == Reply(v) && (r.Pass? ==> Done(Now(), bank.balances) == v)
    {
      var contract := contracts[id];
      if attestation.avowTokenId.None? {
        return Fail(ModuleNotInitialised);
      }
      var key := CommitKeyFor(id, worker);
      ghost var first, bonds := PayUser(worker, contract.pool), PayBond(Now(), id, worker, worker);
      PaySingle(bank.balances, first);
      PayAllConcat(bank.balances, [first], bonds);
      var ok := bank.TransferFrom(ESCROW, User(worker), contract.pool);
      if !ok {
        return Fail(InsufficientFunds);
      }
      escrow := escrow[id := 0];
      if key in commits {
        PaySingle(bank.balances, PayUser(worker, commits[key].bond));
        ok := bank.TransferFrom(ESCROW, User(worker), commits[key].bond);
        if !ok {
          return Fail(InsufficientFunds);
        }
        commits := commits - {key};
      }
      contracts := contracts[id := contract.(status := Accepted)];
      events := events + [DeliveryAccepted(id, worker, contract.pool)];
      assert commits == old(commits) - {key};
      return Pass;
    }

    method HandleAcceptDelivery(sender: Address, id: ContractId) returns (r: Outcome<Error>)
      modifies this, bank
      ensures var v := Settle(old(Now()), old(bank.balances), id, Accepts(old(Now()), old(attestation.Now()), sender, id));
              r == Reply(v) && (r.Pass? ==> Done(Now(), bank.balances) == v)
    {
      if id !in contracts {
        return Fail(UnknownContract);
      }
      var contract := contracts[id];
      if sender != contract.poster {
        return Fail(NotPoster);
      }
      if contract.status != Delivered {
        return Fail(InvalidStatus(contract.status));
      }
      if id !in deliveries {
        return Fail(NoDelivery);
      }
      r := SettleToWorker(id, deliveries[id].worker);
    }

    method HandleRejectDelivery(sender: Address, id: ContractId, ground: Ground) returns (r: Outcome<Error>)
      modifies this
      ensures var v := Settle(old(Now()), bank.balances, id, Rejects(old(Now()), sender, id, ground));
              r == Reply(v) && (r.Pass? ==> Done(Now(), bank.balances) == v)
    {
      if id !in contracts {
        return Fail(UnknownContract);
      }
      var contract := contracts[id];
      if sender != contract.poster {
        return Fail(NotPoster);
      }
      if contract.status != Delivered {
        return Fail(NoPendingDelivery);
      }
      if id !in deliveries {
        return Fail(NoDelivery);
      }
      var delivery := deliveries[id];
      disputes := disputes[id := Dispute(delivery.worker, ground)];
      contracts := contracts[id := contract.(status := Disputed)];
      events := events + [DeliveryRejected(id, delivery.worker, ground)];
      return Pass;
    }

    /** Pay a user out of escrow unless the amount is zero. */
    method PayNonZero(to: Address, amount: nat) returns (ok: bool)
      modifies bank
      ensures ok <==> PayAll(old(bank.balances), PayIfAny(to, amount)).Some?
      ensures ok ==> PayAll(old(bank.balances), PayIfAny(to, amount)) == Some(bank.balances)
    {
      ok := true;
      if amount > 0 {
        PaySingle(bank.balances, PayUser(to, amount));
        ok := bank.TransferFrom(ESCROW, User(to), amount);
      }
    }

    /** The three payments of a resolution: the arbiter's cut, the rest of the pool, the bond. */
    method PayResolution(id: ContractId, arbiter: Address, cut: nat, winner: Address, rest: nat, worker: Address)
      returns (ok: bool)
      modifies bank
      ensures var ts := PayIfAny(arbiter, cut) + PayIfAny(winner, rest) + PayBond(Now(), id, worker, winner);
              && (ok <==> PayAll(old(bank.balances), ts).Some?)
              && (ok ==> PayAll(old(bank.balances), ts) == Some(bank.balances))
    {
      ghost var l := bank.balances;
      PayAllConcat(l, PayIfAny(arbiter, cut) + PayIfAny(winner, rest), PayBond(Now(), id, worker, winner));
      PayAllConcat(l, PayIfAny(arbiter, cut), PayIfAny(winner, rest));
      ok := PayNonZero(arbiter, cut);
      if !ok {
        return;
      }
      ok := PayNonZero(winner, rest);
      if !ok {
        return;
      }
      var key := CommitKeyFor(id, worker);
      if key in commits {
        PaySingle(bank.balances, PayUser(winner, commits[key].bond));
        ok := bank.TransferFrom(ESCROW, User(winner), commits[key].bond);
      }
    }

    /** Pay out a ruled dispute and close the contract. */
    method SettleDispute(id: ContractId, decision: Decision) returns (r: Outcome<Error>)
      requires id in contracts && id in disputes
      modifies this, bank
      ensures var v := Settle(old(Now()), old(bank.balances), id, Success(Award(old(Now()), id, decision)));
              r == Reply(v) && (r.Pass? ==> Done(Now(), bank.balances) == v)
    {
      var contract, worker := contracts[id], disputes[id].worker;
      var cut := SaturatingMul128(contract.pool, contract.bps) / 10_000;
      var rest := SaturatingSub(contract.pool, cut);
      var winner, status := contract.poster, Rejected;
      if decision == ForWorker {
        winner, status := worker, Accepted;
      }
      var ok := PayResolution(id, contract.arbiter, cut, winner, rest, worker);
      if !ok {
        return Fail(InsufficientFunds);
      }
      escrow := escrow[id := 0];
      var key := CommitKeyFor(id, worker);
      commits := commits - {key};
      disputes := disputes - {id};
      contracts := contracts[id := contract.(status := status)];
      events := events + [ContractDisputeResolved(id, decision, winner)];
      return Pass;
    }

    method HandleResolveContractDispute(sender: Address, id: ContractId, decision: Decision)
      returns (r: Outcome<Error>)
      modifies this, bank
      ensures var v := Settle(old(Now()), old(bank.balances), id,
                              Resolves(old(Now()), old(attestation.Now()), sender, id, decision));
              r == Reply(v) && (r.Pass? ==> Done(Now(), bank.balances) == v)
    {
      if id !in contracts {
        return Fail(UnknownContract);
      }
      var contract := contracts[id];
      if sender != contract.arbiter {
        return Fail(NotArbiter);
      }
      if contract.status != Disputed {
        return Fail(NotInDispute);
      }
      if id !in disputes {
        return Fail(NotInDispute);
      }
      if attestation.avowTokenId.None? {
        return Fail(ModuleNotInitialised);
      }
      r := SettleDispute(id, decision);
    }

    method HandleCancelContract(clock: Clock, sender: Address, id: ContractId) returns (r: Outcome<Error>)
      modifies this, bank
      ensures var v := Settle(old(Now()), old(bank.balances), id,
                              Cancels(old(Now()), old(attestation.Now()), clock, sender, id));
              r == Reply(v) && (r.Pass? ==> Done(Now(), bank.balances) == v)
    {
      if id !in contracts {
        return Fail(UnknownContract);
      }
      var contract := contracts[id];
      if sender != contract.poster {
        return Fail(NotPoster);
      }
      if contract.status in {Cancelled, Accepted, Rejected, Expired} {
        return Fail(InvalidStatus(contract.status));
      }
      var expired := clock.DaHeight() >= contract.expiry;
      if contract.status != Open && !expired {
        return Fail(CancelWhileActive);
      }
      var remaining := Get(escrow, id, 0);
      if remaining > 0 {
        if attestation.avowTokenId.None? {
          return Fail(ModuleNotInitialised);
        }
        var ok := PayNonZero(contract.poster, remaining);
        if !ok {
          return Fail(InsufficientFunds);
        }
        escrow := escrow[id := 0];
      }
      if expired {
        contracts := contracts[id := contract.(status := Expired)];
        events := events + [ContractExpired(id, remaining)];
      } else {
        contracts := contracts[id := contract.(status := Cancelled)];
        events := events + [ContractCancelled(id, remaining)];
      }
      return Pass;
    }

    method HandleFinalizeDelivery(clock: Clock, id: ContractId) returns (r: Outcome<Error>)
      modifies this, bank
      ensures var v := Settle(old(Now()), old(bank.balances), id, Finalizes(old(Now()), old(attestation.Now()), clock, id));
              r == Reply(v) && (r.Pass? ==> Done(Now(), bank.balances) == v)
    {
      if id !in contracts {
        return Fail(UnknownContract);
      }
      var contract := contracts[id];
      if contract.status != Delivered {
        return Fail(InvalidStatus(contract.status));
      }
      if id !in deliveries {
        return Fail(NoDelivery);
      }
      var delivery := deliveries[id];
      var windowClose := SaturatingAdd64(delivery.deliveredAt, contract.window);
      if clock.rollup <= windowClose {
        return Fail(AcceptanceWindowOpen(windowClose, clock.rollup));
      }
      r := SettleToWorker(id, delivery.worker);
    }

    /** Dispatch one message; a failed call leaves the module and the bank as they were. */
    method Call(clock: Clock, sender: Address, m: Message) returns (r: Outcome<Error>)
      modifies this, bank
      ensures r == Reply(Step(scheme, old(Now()), old(bank.balances), old(attestation.Now()), clock, sender, m))
      ensures r.Pass? ==> Done(Now(), bank.balances) ==
                            Step(scheme, old(Now()), old(bank.balances), old(attestation.Now()), clock, sender, m)
      ensures r.Fail? ==> Now() == old(Now()) && bank.balances == old(bank.balances)
    {
      var before, funds := Now(), bank.balances;
      match m {
        case PostContract(arbiter, criteria, pool, expiry, window, bps) =>
          r := HandlePostContract(clock, sender, arbiter, criteria, pool, expiry, window, bps);
        case CommitToContract(id, hash, bond) =>
          r := HandleCommitToContract(sender, id, hash, bond);
        case DeliverContract(id, a) =>
          r := HandleDeliverContract(clock, sender, id, a);
        case AcceptDelivery(id) =>
          r := HandleAcceptDelivery(sender, id);
        case RejectDelivery(id, ground) =>
          r := HandleRejectDelivery(sender, id, ground);
        case ResolveContractDispute(id, decision) =>
          r := HandleResolveContractDispute(sender, id, decision);
        case CancelContract(id) =>
          r := HandleCancelContract(clock, sender, id);
        case FinalizeDelivery(id) =>
          r := HandleFinalizeDelivery(clock, id);
      }
      if r.Fail? {
        Restore(before);
        bank.balances := funds;
      }
    }
  }
}
