/** The bounty module as the chain runs it: handlers that update its maps in place, and the call wrapper that unwinds. */
module BountyHandlers {
  import opened Types
  import opened Ledger
  import opened Bounty
  import opened AttestationHandlers

  class Bounties {
    const scheme: Scheme
    const bank: Bank
    const attestation: AttestationModule

    var bounties: map<BountyId, Record>
    var openBySchema: map<SchemaId, seq<BountyId>>
    var escrow: map<BountyId, nat>
    var disputes: map<DisputeKey, Dispute>
    var claimHeight: map<DisputeKey, nat>
    var latestClaimHeight: map<BountyId, nat>
    var openDisputeCount: map<BountyId, nat>
    var nextPosterNonce: map<Address, u64>
    var events: seq<Event>

    constructor (scheme: Scheme, bank: Bank, attestation: AttestationModule)
      ensures this.scheme == scheme && this.bank == bank && this.attestation == attestation && Now() == EMPTY
    {
      this.scheme, this.bank, this.attestation := scheme, bank, attestation;
      bounties, openBySchema, escrow, disputes := map[], map[], map[], map[];
      claimHeight, latestClaimHeight, openDisputeCount, nextPosterNonce := map[], map[], map[], map[];
      events := [];
    }

    /** The stored state, as a value. */
    function Now(): State
      reads this
    {
      State(bounties, openBySchema, escrow, disputes, claimHeight, latestClaimHeight, openDisputeCount,
            nextPosterNonce, events)
    }

    method Restore(s: State)
      modifies this
      ensures Now() == s
    {
      bounties, openBySchema, escrow, disputes := s.bounties, s.openBySchema, s.escrow, s.disputes;
      claimHeight, latestClaimHeight := s.claimHeight, s.latestClaim;
      openDisputeCount, nextPosterNonce, events := s.openDisputes, s.nextNonce, s.log;
    }

    /** Read and increment the poster's nonce. */
    method BumpPosterNonce(poster: Address) returns (current: u64)
      modifies this`nextPosterNonce
      ensures current == Get(old(nextPosterNonce), poster, 0)
      ensures nextPosterNonce == old(nextPosterNonce)[poster := SaturatingAdd64(current, 1)]
    {
      current := Get(nextPosterNonce, poster, 0);
      nextPosterNonce := nextPosterNonce[poster := SaturatingAdd64(current, 1)];
    }

    method HandlePostBounty(clock: Clock, sender: Address, board: SchemaId, pool: u128, per: u128,
                            acceptance: Acceptance, expiry: u64, window: u32) returns (r: Outcome<Error>)
      modifies this, bank
      ensures r == Reply(Post(scheme, old(Now()), old(bank.balances), old(attestation.Now()), clock, sender,
                              board, pool, per, acceptance, expiry, window))
      ensures r.Pass? ==> Done(Now(), bank.balances) == Post(scheme, old(Now()), old(bank.balances),
                  old(attestation.Now()), clock, sender, board, pool, per, acceptance, expiry, window)
    {
      if pool == 0 {
        return Fail(EmptyPool);
      }
      if per == 0 {
        return Fail(ZeroPerAttestation);
      }
      if per > pool {
        return Fail(PerAttestationExceedsPool(per, pool));
      }
      if expiry == 0 {
        return Fail(InvalidExpiryHeight);
      }
      var currentDa := clock.DaHeight();
      if expiry <= currentDa {
        return Fail(ExpiryInPast(expiry, currentDa));
      }
      if board !in attestation.schemas {
        return Fail(UnknownBoardSchema);
      }
      var nonce := BumpPosterNonce(sender);
      var id := scheme.bountyId(sender, board, nonce);
      if id in bounties {
        return Fail(DuplicateBounty);
      }
      if attestation.avowTokenId.None? {
        return Fail(ModuleNotInitialised);
      }
      var ok := bank.TransferFrom(User(sender), ESCROW, pool);
      if !ok {
        return Fail(InsufficientFunds);
      }
      ok := StoreBounty(id, Record(sender, board, pool, per, acceptance, expiry, window, Open));
      if !ok {
        return Fail(TooManyOpenBounties);
      }
      events := events + [BountyPosted(id, sender, pool)];
      return Pass;
    }

    /** Write a funded bounty and its escrow, then list it on its board unless the list is full. */
    method StoreBounty(id: BountyId, r: Record) returns (ok: bool)
      modifies this`bounties, this`escrow, this`openBySchema
      ensures ok <==> |Get(old(openBySchema), r.board, [])| < MAX_OPEN_BOUNTIES_PER_SCHEMA
      ensures ok ==> bounties == old(bounties)[id := r] && escrow == old(escrow)[id := r.pool]
      ensures ok ==> openBySchema == old(openBySchema)[r.board := Get(old(openBySchema), r.board, []) + [id]]
    {
      bounties := bounties[id := r];
      escrow := escrow[id := r.pool];
      var open := Get(openBySchema, r.board, []);
      if |open| >= MAX_OPEN_BOUNTIES_PER_SCHEMA {
        return false;
      }
      openBySchema := openBySchema[r.board := open + [id]];
      return true;
    }

    /** Check every claim of a batch and collect who is to be paid. */
    method CollectPayouts(r: Record, claims: ClaimBatch) returns (v: Outcome<Error>, payouts: seq<Payout>)
      ensures match Payouts(attestation.Now(), r, claims)
              case Success(ps) => v == Pass && payouts == ps
              case Failure(e) => v == Fail(e)
    {
      payouts := [];
      ghost var att := attestation.Now();
      for i := 0 to |claims|
        invariant Payouts(att, r, claims[..i]) == Success(payouts)
      {
        assert claims[..i + 1][..i] == claims[..i];
        if Payouts(att, r, claims[..i + 1]).Failure? { PayoutsStop(att, r, claims, i + 1); }
        var id := claims[i];
        if id !in attestation.attestations {
          return Fail(UnknownAttestation), payouts;
        }
        var a := attestation.attestations[id];
        if a.schema != r.board {
          return Fail(SchemaMismatch(r.board, a.schema)), payouts;
        }
        if !MatchesAcceptance(a, r.board, r.acceptance, 1) {
          return Fail(AcceptanceMismatch), payouts;
        }
        payouts := payouts + [Payout(id, a.submitter)];
      }
      assert claims[..|claims|] == claims;
      v := Pass;
    }

    /** Pay each claim in turn, stamping its height and emitting its event. */
    method PayClaims(b: BountyId, payouts: seq<Payout>, per: u128, height: u64) returns (ok: bool)
      modifies this`claimHeight, this`events, bank
      ensures ok <==> PayAll(old(bank.balances), PayoutTransfers(payouts, per)).Some?
      ensures ok ==> PayAll(old(bank.balances), PayoutTransfers(payouts, per)) == Some(bank.balances)
      ensures ok ==> claimHeight == StampHeights(old(claimHeight), b, payouts, height)
      ensures ok ==> events == old(events) + ClaimEvents(b, payouts, per)
    {
      ghost var l0 := bank.balances;
      for i := 0 to |payouts|
        invariant PayAll(l0, PayoutTransfers(payouts[..i], per)) == Some(bank.balances)
        invariant claimHeight == StampHeights(old(claimHeight), b, payouts[..i], height)
        invariant events == old(events) + ClaimEvents(b, payouts[..i], per)
      {
        var p := payouts[i];
        var t := Transfer(ESCROW, User(p.attester), per);
        assert payouts[..i + 1][..i] == payouts[..i];
        PayAllConcat(l0, PayoutTransfers(payouts[..i], per), [t]);
        assert [t][1..] == [];
        ok := bank.TransferFrom(ESCROW, User(p.attester), per);
        if !ok {
          PayoutTransfersStop(l0, payouts, per, i + 1);
          return;
        }
        claimHeight := claimHeight[DisputeKey(b, p.attestation) := height];
        events := events + [BountyClaimed(b, p.attestation, per, p.attester)];
      }
      assert payouts[..|payouts|] == payouts;
      ok := true;
    }

    /** Pay a checked batch, then move the latest claim height, the escrow and the status along. */
    method SettleBatch(clock: Clock, b: BountyId, payouts: seq<Payout>, wouldPay: nat) returns (r: Outcome<Error>)
      requires b in bounties
      modifies this, bank
      ensures var v := Settle(old(bank.balances), PayoutTransfers(payouts, old(bounties[b].per)),
                              Claimed(old(Now()), b, payouts, wouldPay, clock.rollup));
              r == Reply(v) && (r.Pass? ==> Done(Now(), bank.balances) == v)
    {
      var bounty, escrowNow := bounties[b], Get(escrow, b, 0);
      var ok := PayClaims(b, payouts, bounty.per, clock.rollup);
      if !ok {
        return Fail(InsufficientFunds);
      }
      var prevLatest := Get(latestClaimHeight, b, 0);
      if clock.rollup > prevLatest {
        latestClaimHeight := latestClaimHeight[b := clock.rollup];
      }
      var newEscrow := SaturatingSub(escrowNow, wouldPay);
      escrow := escrow[b := newEscrow];
      if newEscrow < bounty.per {
        bounties := bounties[b := bounty.(status := Exhausted)];
      }
      return Pass;
    }

    method HandleClaimBounty(clock: Clock, b: BountyId, claims: ClaimBatch) returns (r: Outcome<Error>)
      modifies this, bank
      ensures r == Reply(Claim(old(Now()), old(bank.balances), old(attestation.Now()), clock, b, claims))
      ensures r.Pass? ==> Done(Now(), bank.balances) == Claim(old(Now()), old(bank.balances), old(attestation.Now()),
                  clock, b, claims)
    {
      if claims == [] {
        return Fail(EmptyClaimBatch);
      }
      if b !in bounties {
        return Fail(UnknownBounty);
      }
      var bounty := bounties[b];
      if bounty.status != Open {
        return Fail(InvalidStatus(bounty.status));
      }
      var currentDa := clock.DaHeight();
      if currentDa >= bounty.expiry {
        return Fail(BountyExpiredForClaim(bounty.expiry, currentDa));
      }
      var payouts;
      r, payouts := CollectPayouts(bounty, claims);
      if r.Fail? {
        return;
      }
      var wouldPay := SaturatingMul128(bounty.per, |payouts|);
      var escrowNow := Get(escrow, b, 0);
      if wouldPay > escrowNow {
        return Fail(EscrowInsufficient(escrowNow, wouldPay));
      }
      if attestation.avowTokenId.None? {
        return Fail(ModuleNotInitialised);
      }
      r := SettleBatch(clock, b, payouts, wouldPay);
    }

    method HandleDisputeAttestation(clock: Clock, sender: Address, b: BountyId, a: AttestationId, ground: Ground)
      returns (r: Outcome<Error>)
      modifies this, bank
      ensures r == Reply(DisputeClaim(old(Now()), old(bank.balances), old(attestation.Now()), clock, sender, b, a,
                  ground))
      ensures r.Pass? ==> Done(Now(), bank.balances) == DisputeClaim(old(Now()), old(bank.balances),
                  old(attestation.Now()), clock, sender, b, a, ground)
    {
      if b !in bounties {
        return Fail(UnknownBounty);
      }
      var bounty := bounties[b];
      var key := DisputeKey(b, a);
      if key in disputes {
        return Fail(DuplicateDispute);
      }
      if key !in claimHeight {
        return Fail(NoClaimToDispute);
      }
      var windowClose := SaturatingAdd64(claimHeight[key], bounty.window);
      if clock.rollup > windowClose {
        return Fail(DisputeWindowClosed(windowClose, clock.rollup));
      }
      var bond := bounty.per;
      if attestation.avowTokenId.None? {
        return Fail(ModuleNotInitialised);
      }
      ghost var funds := bank.balances;
      var ok := bank.TransferFrom(User(sender), ESCROW, bond);
      PaySingle(funds, Transfer(User(sender), ESCROW, bond));
      if !ok {
        return Fail(InsufficientFunds);
      }
      disputes := disputes[key := Dispute(sender, bond, ground)];
      var open := Get(openDisputeCount, b, 0);
      openDisputeCount := openDisputeCount[b := SaturatingAdd32(open, 1)];
      events := events + [BountyDisputed(b, a, sender, bond)];
      return Pass;
    }

    method HandleResolveDispute(sender: Address, b: BountyId, a: AttestationId, decision: Decision)
      returns (r: Outcome<Error>)
      modifies this, bank
      ensures r == Reply(Resolve(old(Now()), old(bank.balances), old(attestation.Now()), sender, b, a, decision))
      ensures r.Pass? ==> Done(Now(), bank.balances) == Resolve(old(Now()), old(bank.balances),
                  old(attestation.Now()), sender, b, a, decision)
    {
      if b !in bounties {
        return Fail(UnknownBounty);
      }
      var bounty := bounties[b];
      if bounty.board !in attestation.schemas {
        return Fail(UnknownBoardSchema);
      }
      if sender != attestation.schemas[bounty.board].owner {
        return Fail(NotBoardOperator);
      }
      var key := DisputeKey(b, a);
      if key !in disputes {
        return Fail(UnknownDispute);
      }
      var dispute := disputes[key];
      var recipient;
      match decision {
        case Accept => recipient := dispute.disputer;
        case Reject => recipient := bounty.poster;
      }
      if attestation.avowTokenId.None? {
        return Fail(ModuleNotInitialised);
      }
      ghost var funds := bank.balances;
      var ok := bank.TransferFrom(ESCROW, User(recipient), dispute.bond);
      PaySingle(funds, Transfer(ESCROW, User(recipient), dispute.bond));
      if !ok {
        return Fail(InsufficientFunds);
      }
      disputes := disputes - {key};
      var open := Get(openDisputeCount, b, 0);
      openDisputeCount := openDisputeCount[b := SaturatingSub(open, 1)];
      events := events + [DisputeResolved(b, a, decision, recipient)];
      return Pass;
    }

    /** Send a bounty's remaining escrow to its poster, if there is any. */
    method RefundRemaining(b: BountyId, poster: Address) returns (r: Outcome<Error>)
      requires b in bounties && bounties[b].poster == poster
      modifies this`escrow, bank
      ensures var left := Get(old(escrow), b, 0);
              if left > 0 && attestation.avowTokenId.None? then r == Fail(ModuleNotInitialised)
              else
                match PayAll(old(bank.balances), Refund(old(Now()), b))
                case None => r == Fail(InsufficientFunds)
                case Some(l) => r == Pass && bank.balances == l
                                && escrow == if left > 0 then old(escrow)[b := 0] else old(escrow)
    {
      var remaining := Get(escrow, b, 0);
      if remaining > 0 {
        if attestation.avowTokenId.None? {
          return Fail(ModuleNotInitialised);
        }
        ghost var funds := bank.balances;
        var ok := bank.TransferFrom(ESCROW, User(poster), remaining);
        PaySingle(funds, Transfer(ESCROW, User(poster), remaining));
        if !ok {
          return Fail(InsufficientFunds);
        }
        escrow := escrow[b := 0];
      }
      return Pass;
    }

    /** Drop a closed bounty from its board's open list. */
    method DropFromIndex(board: SchemaId, b: BountyId)
      modifies this`openBySchema
      ensures openBySchema == Unlisted(old(openBySchema), board, b)
    {
      if board in openBySchema {
        var list, filtered := openBySchema[board], [];
        for i := 0 to |list|
          invariant filtered == Without(list[..i], b)
        {
          assert list[..i + 1][..i] == list[..i];
          if list[i] != b {
            filtered := filtered + [list[i]];
          }
        }
        assert list[..|list|] == list;
        openBySchema := openBySchema[board := filtered];
      }
    }

    method HandleCancelBounty(clock: Clock, sender: Address, b: BountyId) returns (r: Outcome<Error>)
      modifies this, bank
      ensures r == Reply(Cancel(old(Now()), old(bank.balances), old(attestation.Now()), clock, sender, b))
      ensures r.Pass? ==> Done(Now(), bank.balances) == Cancel(old(Now()), old(bank.balances),
                  old(attestation.Now()), clock, sender, b)
    {
      if b !in bounties {
        return Fail(UnknownBounty);
      }
      var bounty := bounties[b];
      if sender != bounty.poster {
        return Fail(NotPoster);
      }
      if bounty.status == Cancelled || bounty.status == Finalised {
        return Fail(InvalidStatus(bounty.status));
      }
      var remaining := Get(escrow, b, 0);
      var noClaims := remaining == bounty.pool;
      var expired := clock.DaHeight() >= bounty.expiry;
      if !noClaims && !expired {
        return Fail(CancelWhileClaimed);
      }
      r := RefundRemaining(b, bounty.poster);
      if r.Fail? {
        return;
      }
      bounties := bounties[b := bounty.(status := if expired then Expired else Cancelled)];
      DropFromIndex(bounty.board, b);
      events := events + [BountyExpired(b, remaining)];
    }

    method HandleFinaliseBounty(clock: Clock, b: BountyId) returns (r: Outcome<Error>)
      modifies this, bank
      ensures r == Reply(Finalise(old(Now()), old(bank.balances), old(attestation.Now()), clock, b))
      ensures r.Pass? ==> Done(Now(), bank.balances) == Finalise(old(Now()), old(bank.balances),
                  old(attestation.Now()), clock, b)
    {
      if b !in bounties {
        return Fail(UnknownBounty);
      }
      var bounty := bounties[b];
      if bounty.status == Cancelled || bounty.status == Finalised {
        return Fail(NotFinalisable(bounty.status));
      }
      var expired := clock.DaHeight() >= bounty.expiry;
      if !expired && bounty.status != Exhausted {
        return Fail(NotFinalisable(bounty.status));
      }
      var open := Get(openDisputeCount, b, 0);
      if open > 0 {
        return Fail(DisputesStillOpen(open));
      }
      var latestClaim := Get(latestClaimHeight, b, 0);
      if latestClaim > 0 && clock.rollup <= SaturatingAdd64(latestClaim, bounty.window) {
        return Fail(DisputeWindowsStillOpen(latestClaim, bounty.window, clock.rollup));
      }
      var remaining := Get(escrow, b, 0);
      r := RefundRemaining(b, bounty.poster);
      if r.Fail? {
        return;
      }
      bounties := bounties[b := bounty.(status := Finalised)];
      DropFromIndex(bounty.board, b);
      events := events + [BountyFinalised(b, remaining)];
    }

    /** Dispatch one message; a failed call leaves the module and the bank as they were. */
    method Call(clock: Clock, sender: Address, m: Message) returns (r: Outcome<Error>)
      modifies this, bank
      ensures r == Reply(Step(scheme, old(Now()), old(bank.balances), old(attestation.Now()), clock, sender, m))
      ensures r.Pass? ==> Done(Now(), bank.balances) ==
                            Step(scheme, old(Now()), old(bank.balances), old(attestation.Now()), clock, sender, m)
      ensures r.Fail? ==> Now() == old(Now()) && bank.balances == old(bank.balances)
    {
      var before, funds := Now(), bank.balances;
      match m {
        case PostBounty(board, pool, per, acceptance, expiry, window) =>
          r := HandlePostBounty(clock, sender, board, pool, per, acceptance, expiry, window);
        case ClaimBounty(b, claims) =>
          r := HandleClaimBounty(clock, b, claims);
        case DisputeAttestation(b, a, ground) =>
          r := HandleDisputeAttestation(clock, sender, b, a, ground);
        case ResolveDispute(b, a, decision) =>
          r := HandleResolveDispute(sender, b, a, decision);
        case CancelBounty(b) =>
          r := HandleCancelBounty(clock, sender, b);
        case FinaliseBounty(b) =>
          r := HandleFinaliseBounty(clock, b);
      }
      if r.Fail? {
        Restore(before);
        bank.balances := funds;
      }
    }
  }

  /** A refused payout refuses the whole batch. */
  lemma {:induction false} PayoutTransfersStop(l: Balances, ps: seq<Payout>, per: nat, i: nat)
    requires i <= |ps| && PayAll(l, PayoutTransfers(ps[..i], per)).None?
    ensures PayAll(l, PayoutTransfers(ps, per)).None?
    decreases |ps|
  {
    if i < |ps| {
      var front := ps[..|ps| - 1];
      assert front[..i] == ps[..i];
      PayoutTransfersStop(l, front, per, i);
      PayAllConcat(l, PayoutTransfers(front, per), [Transfer(ESCROW, User(ps[|ps| - 1].attester), per)]);
    } else {
      assert ps[..i] == ps;
    }
  }
}
