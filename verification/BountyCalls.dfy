/** Each bounty call: exactly when it succeeds, and exactly what it stores and announces. */
module BountyCalls {
  import opened Types
  import opened Sums
  import opened Ledger
  import opened Bounty
  import opened BountyBooks
  import opened BountyProofs
  import opened BountySafety
  import opened BountyExit
  import opened BountyGains
  import A = Attestation

  // ----- Post -----

  /** Posting succeeds exactly for a pool of one payout or more, a future expiry, a known board with room and a new id. */
  lemma PostIff(c: Scheme, s: State, l: Balances, att: A.State, clock: Clock, sender: Address, board: SchemaId,
                pool: u128, per: u128, acceptance: Acceptance, expiry: u64, window: u32)
    requires att.avow.Some?
    ensures Step(c, s, l, att, clock, sender, PostBounty(board, pool, per, acceptance, expiry, window)).Done? <==>
              0 < per <= pool <= Balance(l, User(sender)) && expiry > clock.DaHeight() && board in att.schemas
              && c.bountyId(sender, board, Get(s.nextNonce, sender, 0)) !in s.bounties
              && |Get(s.openBySchema, board, [])| < 1024
  {}

  /** It stores the terms as given, lists the bounty last on its board and moves the pool from the sender into escrow. */
  lemma PostStores(c: Scheme, s: State, l: Balances, att: A.State, clock: Clock, sender: Address, board: SchemaId,
                   pool: u128, per: u128, acceptance: Acceptance, expiry: u64, window: u32)
    requires Step(c, s, l, att, clock, sender, PostBounty(board, pool, per, acceptance, expiry, window)).Done?
    ensures var Done(t, l1) := Step(c, s, l, att, clock, sender, PostBounty(board, pool, per, acceptance, expiry, window));
            var nonce := Get(s.nextNonce, sender, 0);
            var id := c.bountyId(sender, board, nonce);
            && t == s.(bounties := s.bounties[id := Record(sender, board, pool, per, acceptance, expiry, window, Open)],
                       openBySchema := s.openBySchema[board := Get(s.openBySchema, board, []) + [id]],
                       escrow := s.escrow[id := pool],
                       nextNonce := s.nextNonce[sender := if nonce == U64_MAX then nonce else nonce + 1],
                       log := s.log + [BountyPosted(id, sender, pool)])
            && PayAll(l, [Transfer(User(sender), ESCROW, pool)]) == Some(l1)
  {
    PaySingle(l, Transfer(User(sender), ESCROW, pool));
  }

  // ----- Claim -----

  /** What the poster asked for: the board, a payload from the list if there is one, at most one peer. */
  predicate Eligible(a: A.Record, r: Record) {
    && a.schema == r.board
    && (r.acceptance.PayloadHashes? ==> a.payload in r.acceptance.hashes)
    && (r.acceptance.PeerCount? ==> r.acceptance.minAttestors <= 1)
  }

  /** A claim can be paid exactly when its attestation is stored and eligible. */
  lemma ClaimFaultIff(att: A.State, r: Record, id: AttestationId)
    ensures ClaimFault(att, r, id).None? <==> id in att.attestations && Eligible(att.attestations[id], r)
  {}

  ghost predicate AllEligible(att: A.State, r: Record, claims: seq<AttestationId>) {
    forall id :: id in claims ==> id in att.attestations && Eligible(att.attestations[id], r)
  }

  lemma BatchEligibleIff(att: A.State, r: Record, claims: seq<AttestationId>)
    ensures Payouts(att, r, claims).Success? <==> AllEligible(att, r, claims)
  {
    BatchVerdict(att, r, claims);
    if Payouts(att, r, claims).Success? {
      forall id | id in claims ensures id in att.attestations && Eligible(att.attestations[id], r) {
        var i :| 0 <= i < |claims| && claims[i] == id;
        ClaimFaultIff(att, r, claims[i]);
      }
    } else if AllEligible(att, r, claims) {
      var i: nat :| FirstBadClaim(att, r, claims, i);
      ClaimFaultIff(att, r, claims[i]);
    }
  }

  /** A batch settles exactly on an open, unexpired bounty whose escrow covers the true total of eligible claims. */
  lemma ClaimIff(s: State, l: Balances, att: A.State, clock: Clock, b: BountyId, claims: ClaimBatch)
    requires Holds(s, l, att, clock.rollup) && att.avow.Some?
    ensures Claim(s, l, att, clock, b, claims).Done? <==>
              claims != [] && b in s.bounties && s.bounties[b].status == Open
              && clock.DaHeight() < s.bounties[b].expiry && AllEligible(att, s.bounties[b], claims)
              && |claims| * s.bounties[b].per <= Get(s.escrow, b, 0)
  {
    if b in s.bounties {
      BatchEligibleIff(att, s.bounties[b], claims);
      if claims != [] && s.bounties[b].status == Open && clock.DaHeight() < s.bounties[b].expiry
         && Payouts(att, s.bounties[b], claims).Success? {
        ClaimNeverOverdraws(s, l, att, clock, b, claims);
      }
    }
  }

  /** The events of a batch, one per claim in order, each naming its claim, payout and submitter. */
  lemma {:induction false} EventsAnnounce(b: BountyId, ps: seq<Payout>, per: nat)
    ensures |ClaimEvents(b, ps, per)| == |ps|
    ensures forall i :: 0 <= i < |ps| ==>
              ClaimEvents(b, ps, per)[i] == BountyClaimed(b, ps[i].attestation, per, ps[i].attester)
    decreases |ps|
  {
    if ps != [] { EventsAnnounce(b, ps[..|ps| - 1], per); }
  }

  lemma PaidIffClaimed(att: A.State, claims: seq<AttestationId>, ps: seq<Payout>, a: AttestationId)
    requires PaysEach(att, claims, ps)
    ensures Paid(ps, a) <==> a in claims
  {
    if Paid(ps, a) {
      var p :| p in ps && p.attestation == a;
      var i :| 0 <= i < |ps| && ps[i] == p;
      assert claims[i] == a;
    }
    if a in claims {
      var i :| 0 <= i < |claims| && claims[i] == a;
      assert ps[i] in ps && ps[i].attestation == a;
    }
  }

  /** What a settled batch stores beside heights and events: the lower escrow, its status, the latest height. */
  ghost predicate Drawn(s: State, t: State, b: BountyId, paid: nat, h: nat) {
    && b in s.bounties && paid <= Get(s.escrow, b, 0)
    && var r, left := s.bounties[b], Get(s.escrow, b, 0) - paid;
       t == s.(claimHeight := t.claimHeight, log := t.log, escrow := s.escrow[b := left],
               latestClaim := if h > Get(s.latestClaim, b, 0) then s.latestClaim[b := h] else s.latestClaim,
               bounties := if left < r.per then s.bounties[b := r.(status := Exhausted)] else s.bounties)
  }

  lemma ClaimedDraws(s: State, b: BountyId, ps: seq<Payout>, paid: nat, h: nat)
    requires b in s.bounties && paid <= Get(s.escrow, b, 0)
    ensures Drawn(s, Claimed(s, b, ps, paid, h), b, paid, h)
  {}

  lemma ClaimStores(s: State, l: Balances, att: A.State, clock: Clock, b: BountyId, claims: ClaimBatch)
    requires Total(l) <= U128_MAX && Claim(s, l, att, clock, b, claims).Done?
    ensures b in s.bounties
    ensures Drawn(s, Claim(s, l, att, clock, b, claims).state, b, |claims| * s.bounties[b].per, clock.rollup)
  {
    ClaimStep(s, l, att, clock, b, claims);
    ClaimedDraws(s, b, Payouts(att, s.bounties[b], claims).value, |claims| * s.bounties[b].per, clock.rollup);
  }

  lemma ClaimStamps(s: State, l: Balances, att: A.State, clock: Clock, b: BountyId, claims: ClaimBatch, x: DisputeKey)
    requires Claim(s, l, att, clock, b, claims).Done?
    ensures var t := Claim(s, l, att, clock, b, claims).state;
            && (x in t.claimHeight <==> x in s.claimHeight || (x.bounty == b && x.attestation in claims))
            && (x in t.claimHeight ==>
                  t.claimHeight[x] == (if x.bounty == b && x.attestation in claims then clock.rollup else s.claimHeight[x]))
  {
    var ps := Payouts(att, s.bounties[b], claims).value;
    BatchVerdict(att, s.bounties[b], claims);
    StampsExactly(s.claimHeight, b, ps, clock.rollup);
    PaidIffClaimed(att, claims, ps, x.attestation);
  }

  lemma ClaimAnnounces(s: State, l: Balances, att: A.State, clock: Clock, b: BountyId, claims: ClaimBatch)
    requires Claim(s, l, att, clock, b, claims).Done?
    ensures b in s.bounties && AllEligible(att, s.bounties[b], claims)
    ensures var t := Claim(s, l, att, clock, b, claims).state;
            && |t.log| == |s.log| + |claims| && t.log[..|s.log|] == s.log
            && forall i :: 0 <= i < |claims| ==>
                 t.log[|s.log| + i] ==
                   BountyClaimed(b, claims[i], s.bounties[b].per, att.attestations[claims[i]].submitter)
  {
    var ps := Payouts(att, s.bounties[b], claims).value;
    BatchEligibleIff(att, s.bounties[b], claims);
    BatchVerdict(att, s.bounties[b], claims);
    EventsAnnounce(b, ps, s.bounties[b].per);
  }

  // ----- Dispute -----

  /** A dispute records who locked one payout over which claim and why. */
  lemma DisputeStores(s: State, l: Balances, att: A.State, clock: Clock, sender: Address, b: BountyId, a: AttestationId,
                      ground: Ground)
    requires DisputeClaim(s, l, att, clock, sender, b, a, ground).Done?
    ensures b in s.bounties
    ensures var Done(t, l1) := DisputeClaim(s, l, att, clock, sender, b, a, ground);
            var per, open := s.bounties[b].per, Get(s.openDisputes, b, 0);
            && t == s.(disputes := s.disputes[DisputeKey(b, a) := Dispute(sender, per, ground)],
                       openDisputes := s.openDisputes[b := if open < U32_MAX then open + 1 else U32_MAX],
                       log := s.log + [BountyDisputed(b, a, sender, per)])
            && PayAll(l, [Transfer(User(sender), ESCROW, per)]) == Some(l1)
  {}

  // ----- Resolve -----

  /** The owner of the board's schema can rule on an open dispute, and nobody else can. */
  lemma ResolveIff(s: State, l: Balances, att: A.State, h: u64, sender: Address, b: BountyId, a: AttestationId, d: Decision)
    requires Holds(s, l, att, h) && att.avow.Some?
    ensures Resolve(s, l, att, sender, b, a, d).Done? <==>
              b in s.bounties && s.bounties[b].board in att.schemas && sender == att.schemas[s.bounties[b].board].owner
              && DisputeKey(b, a) in s.disputes
  {
    if b in s.bounties && DisputeKey(b, a) in s.disputes { ResolveSucceeds(s, l, att, h, b, a, d); }
  }

  lemma ResolveStores(s: State, l: Balances, att: A.State, sender: Address, b: BountyId, a: AttestationId, d: Decision)
    requires Resolve(s, l, att, sender, b, a, d).Done?
    ensures b in s.bounties && DisputeKey(b, a) in s.disputes
    ensures var Done(t, l1) := Resolve(s, l, att, sender, b, a, d);
            var key, open := DisputeKey(b, a), Get(s.openDisputes, b, 0);
            var to := if d == Accept then s.disputes[key].disputer else s.bounties[b].poster;
            && t == s.(disputes := s.disputes - {key}, openDisputes := s.openDisputes[b := if open > 0 then open - 1 else 0],
                       log := s.log + [DisputeResolved(b, a, d, to)])
            && PayAll(l, [Transfer(ESCROW, User(to), s.disputes[key].bond)]) == Some(l1)
  {}

  // ----- Cancel -----

  /** The module always holds what a bounty has left. */
  lemma RefundAffordable(s: State, l: Balances, att: A.State, h: nat, b: BountyId)
    requires Holds(s, l, att, h) && b in s.bounties
    ensures PayAll(l, Refund(s, b)).Some?
  {
    RefundPaid(s, l, b);
    SumBounds<BountyId, nat>(s.escrow, Same, b);
  }

  /** Cancelling is the poster's, on an unfinished bounty: any time past expiry, before it only if never claimed. */
  lemma CancelIff(s: State, l: Balances, att: A.State, clock: Clock, sender: Address, b: BountyId)
    requires Holds(s, l, att, clock.rollup) && att.avow.Some?
    ensures Cancel(s, l, att, clock, sender, b).Done? <==>
              b in s.bounties && sender == s.bounties[b].poster && s.bounties[b].status in {Open, Exhausted, Expired}
              && (clock.DaHeight() >= s.bounties[b].expiry
                  || (s.bounties[b].status == Open && ViewAt(s, b).claims == map[]))
  {
    if b in s.bounties {
      RefundAffordable(s, l, att, clock.rollup, b);
      CancelGuardsIff(s, l, att, clock, sender, b);
      if s.bounties[b].status in {Open, Exhausted, Expired} {
        assert Good(ViewAt(s, b), clock.rollup);
        PoolIntactIff(ViewAt(s, b), clock.rollup);
      }
    }
  }

  lemma CancelGuardsIff(s: State, l: Balances, att: A.State, clock: Clock, sender: Address, b: BountyId)
    requires att.avow.Some? && b in s.bounties && PayAll(l, Refund(s, b)).Some?
    ensures Cancel(s, l, att, clock, sender, b).Done? <==>
              sender == s.bounties[b].poster && s.bounties[b].status in {Open, Exhausted, Expired}
              && (clock.DaHeight() >= s.bounties[b].expiry || Get(s.escrow, b, 0) == s.bounties[b].pool)
  {
    match s.bounties[b].status
    case _ =>
  }

  lemma PoolIntactIff(v: View, h: nat)
    requires Good(v, h) && v.record.Some? && v.record.value.status in {Open, Exhausted, Expired}
    ensures v.escrow == v.record.value.pool <==> v.record.value.status == Open && v.claims == map[]
  {
    if v.record.value.status in {Open, Exhausted} { CancelTestExact(v, h); }
  }

  /** What closing stores, whichever call closes: the status, an empty escrow, one event, no listing on its board. */
  ghost predicate ClosedAs(s: State, t: State, b: BountyId, status: Status, e: Event) {
    && b in s.bounties
    && t == s.(escrow := s.escrow[b := 0], bounties := s.bounties[b := s.bounties[b].(status := status)],
               openBySchema := t.openBySchema, log := s.log + [e])
    && Delisted(s.openBySchema, t.openBySchema, s.bounties[b].board, b)
  }

  ghost predicate Delisted(before: map<SchemaId, seq<BountyId>>, after: map<SchemaId, seq<BountyId>>, board: SchemaId,
                           b: BountyId)
  {
    && (forall x :: x != board ==> Get(after, x, []) == Get(before, x, []))
    && b !in Get(after, board, [])
  }

  lemma UnlistedDelists(open: map<SchemaId, seq<BountyId>>, board: SchemaId, b: BountyId)
    ensures Delisted(open, Unlisted(open, board, b), board, b)
  {
    WithoutShrinks(Get(open, board, []), b);
  }

  lemma ClosedStores(s: State, b: BountyId, status: Status, e: Event)
    requires b in s.bounties && s.escrow.Keys == s.bounties.Keys
    ensures ClosedAs(s, Closed(s, b, status, e), b, status, e)
  {
    UnlistedDelists(s.openBySchema, s.bounties[b].board, b);
    assert Get(s.escrow, b, 0) == 0 ==> s.escrow == s.escrow[b := 0];
  }

  /** Past expiry a cancelled bounty ends Expired, before it Cancelled. */
  lemma CancelStores(s: State, l: Balances, att: A.State, clock: Clock, sender: Address, b: BountyId)
    requires s.escrow.Keys == s.bounties.Keys && Cancel(s, l, att, clock, sender, b).Done?
    ensures b in s.bounties
    ensures ClosedAs(s, Cancel(s, l, att, clock, sender, b).state, b,
                     if clock.DaHeight() >= s.bounties[b].expiry then Expired else Cancelled,
                     BountyExpired(b, s.escrow[b]))
  {
    CancelStep(s, l, att, clock, sender, b);
    ClosedStores(s, b, if clock.DaHeight() >= s.bounties[b].expiry then Expired else Cancelled,
                 BountyExpired(b, s.escrow[b]));
  }

  // ----- Finalise -----

  /** Anyone finalises an unfinished bounty once it is expired or exhausted, undisputed by its counter and past the window. */
  lemma FinaliseIff(s: State, l: Balances, att: A.State, clock: Clock, b: BountyId)
    requires Holds(s, l, att, clock.rollup) && att.avow.Some?
    ensures Finalise(s, l, att, clock, b).Done? <==>
              && b in s.bounties && s.bounties[b].status in {Open, Exhausted, Expired}
              && (clock.DaHeight() >= s.bounties[b].expiry || s.bounties[b].status == Exhausted)
              && Get(s.openDisputes, b, 0) == 0
              && (Get(s.latestClaim, b, 0) > 0 ==>
                    clock.rollup > Min(U64_MAX, Get(s.latestClaim, b, 0) + s.bounties[b].window))
  {
    if b in s.bounties {
      RefundAffordable(s, l, att, clock.rollup, b);
      if Get(s.openDisputes, b, 0) == 0 { FinaliseGuardsIff(s, l, att, clock, b); }
      match s.bounties[b].status
      case _ =>
    }
  }

  lemma FinaliseStores(s: State, l: Balances, att: A.State, clock: Clock, b: BountyId)
    requires s.escrow.Keys == s.bounties.Keys && Finalise(s, l, att, clock, b).Done?
    ensures b in s.bounties
    ensures ClosedAs(s, Finalise(s, l, att, clock, b).state, b, Finalised, BountyFinalised(b, s.escrow[b]))
  {
    FinaliseStep(s, l, att, clock, b);
    ClosedStores(s, b, Finalised, BountyFinalised(b, s.escrow[b]));
  }

  // ----- What refusals say -----

  // Each call is refused only with these errors, and each of them names a check that really failed.

  lemma PostRefusals(c: Scheme, s: State, l: Balances, att: A.State, clock: Clock, sender: Address, board: SchemaId,
                     pool: u128, per: u128, acceptance: Acceptance, expiry: u64, window: u32)
    requires Post(c, s, l, att, clock, sender, board, pool, per, acceptance, expiry, window).Refused?
    ensures match Post(c, s, l, att, clock, sender, board, pool, per, acceptance, expiry, window).error
            case EmptyPool => pool == 0
            case ZeroPerAttestation => per == 0
            case PerAttestationExceedsPool(x, y) => x == per && y == pool && per > pool
            case InvalidExpiryHeight => expiry == 0
            case ExpiryInPast(x, current) => x == expiry && current == clock.DaHeight() && expiry <= current
            case UnknownBoardSchema => board !in att.schemas
            case DuplicateBounty => c.bountyId(sender, board, Get(s.nextNonce, sender, 0)) in s.bounties
            case TooManyOpenBounties => |Get(s.openBySchema, board, [])| >= 1024
            case ModuleNotInitialised => att.avow.None?
            case InsufficientFunds => pool > Balance(l, User(sender))
            case _ => false
  {}

  lemma BatchRefusals(att: A.State, r: Record, claims: seq<AttestationId>)
    requires Payouts(att, r, claims).Failure?
    ensures exists i: nat :: i < |claims| && AllEligible(att, r, claims[..i])
                             && BadClaim(att, r, claims[i], Payouts(att, r, claims).error)
  {
    BatchVerdict(att, r, claims);
    var i: nat :| FirstBadClaim(att, r, claims, i)
                  && Payouts(att, r, claims) == Failure(ClaimFault(att, r, claims[i]).value);
    forall id | id in claims[..i] ensures id in att.attestations && Eligible(att.attestations[id], r) {
      var j :| 0 <= j < i && claims[j] == id;
      ClaimFaultIff(att, r, claims[j]);
    }
    assert BadClaim(att, r, claims[i], Payouts(att, r, claims).error);
  }

  /** What is wrong with one claim, as its error says. */
  predicate BadClaim(att: A.State, r: Record, id: AttestationId, e: Error) {
    match e
    case UnknownAttestation => id !in att.attestations
    case SchemaMismatch(expected, actual) =>
      id in att.attestations && expected == r.board && actual == att.attestations[id].schema != expected
    case AcceptanceMismatch =>
      id in att.attestations && att.attestations[id].schema == r.board && !Eligible(att.attestations[id], r)
    case _ => false
  }

  lemma ClaimRefusals(s: State, l: Balances, att: A.State, clock: Clock, b: BountyId, claims: ClaimBatch)
    requires Claim(s, l, att, clock, b, claims).Refused?
    ensures var r, e := if b in s.bounties then Some(s.bounties[b]) else None, Claim(s, l, att, clock, b, claims).error;
            match e
            case EmptyClaimBatch => claims == []
            case UnknownBounty => r.None?
            case InvalidStatus(status) => r.Some? && status == r.value.status != Open
            case BountyExpiredForClaim(x, current) =>
              r.Some? && x == r.value.expiry && current == clock.DaHeight() && current >= x
            case EscrowInsufficient(held, wouldPay) =>
              r.Some? && held == Get(s.escrow, b, 0) && wouldPay == Min(U128_MAX, |claims| * r.value.per) && wouldPay > held
            case ModuleNotInitialised => att.avow.None?
            case InsufficientFunds => r.Some? && |claims| * r.value.per > Balance(l, ESCROW)
            case _ => r.Some? && Payouts(att, r.value, claims) == Failure(e)
  {
    if b in s.bounties && Payouts(att, s.bounties[b], claims).Success? {
      var ps, per := Payouts(att, s.bounties[b], claims).value, s.bounties[b].per;
      PayoutsCount(att, s.bounties[b], claims);
      PayoutsAffordable(l, ps, per);
      assert per * |ps| == |claims| * per;
    } else if b in s.bounties {
      BatchRefusals(att, s.bounties[b], claims);
    }
  }

  lemma DisputeRefusals(s: State, l: Balances, att: A.State, clock: Clock, sender: Address, b: BountyId, a: AttestationId,
                        ground: Ground)
    requires DisputeClaim(s, l, att, clock, sender, b, a, ground).Refused?
    ensures var key := DisputeKey(b, a);
            match DisputeClaim(s, l, att, clock, sender, b, a, ground).error
            case UnknownBounty => b !in s.bounties
            case DuplicateDispute => key in s.disputes
            case NoClaimToDispute => key !in s.claimHeight
            case DisputeWindowClosed(close, current) =>
              b in s.bounties && key in s.claimHeight && current == clock.rollup && current > close
              && close == Min(U64_MAX, s.claimHeight[key] + s.bounties[b].window)
            case ModuleNotInitialised => att.avow.None?
            case InsufficientFunds => b in s.bounties && s.bounties[b].per > Balance(l, User(sender))
            case _ => false
  {
    if b in s.bounties { PaySingle(l, Transfer(User(sender), ESCROW, s.bounties[b].per)); }
  }

  lemma ResolveRefusals(s: State, l: Balances, att: A.State, sender: Address, b: BountyId, a: AttestationId, d: Decision)
    requires Resolve(s, l, att, sender, b, a, d).Refused?
    ensures var key := DisputeKey(b, a);
            match Resolve(s, l, att, sender, b, a, d).error
            case UnknownBounty => b !in s.bounties
            case UnknownBoardSchema => b in s.bounties && s.bounties[b].board !in att.schemas
            case NotBoardOperator =>
              b in s.bounties && s.bounties[b].board in att.schemas && sender != att.schemas[s.bounties[b].board].owner
            case UnknownDispute => key !in s.disputes
            case ModuleNotInitialised => att.avow.None?
            case InsufficientFunds => key in s.disputes && s.disputes[key].bond > Balance(l, ESCROW)
            case _ => false
  {
    var key := DisputeKey(b, a);
    if b in s.bounties && key in s.disputes {
      var to := if d == Accept then s.disputes[key].disputer else s.bounties[b].poster;
      PaySingle(l, Transfer(ESCROW, User(to), s.disputes[key].bond));
    }
  }

  lemma CancelRefusals(s: State, l: Balances, att: A.State, clock: Clock, sender: Address, b: BountyId)
    requires Cancel(s, l, att, clock, sender, b).Refused?
    ensures match Cancel(s, l, att, clock, sender, b).error
            case UnknownBounty => b !in s.bounties
            case NotPoster => b in s.bounties && sender != s.bounties[b].poster
            case InvalidStatus(status) => b in s.bounties && status == s.bounties[b].status && status in {Cancelled, Finalised}
            case CancelWhileClaimed =>
              b in s.bounties && Get(s.escrow, b, 0) != s.bounties[b].pool && clock.DaHeight() < s.bounties[b].expiry
            case ModuleNotInitialised => att.avow.None?
            case InsufficientFunds => Get(s.escrow, b, 0) > Balance(l, ESCROW)
            case _ => false
  {
    if b in s.bounties { RefundPaid(s, l, b); }
  }

  lemma FinaliseRefusals(s: State, l: Balances, att: A.State, clock: Clock, b: BountyId)
    requires Finalise(s, l, att, clock, b).Refused?
    ensures var latest, e := Get(s.latestClaim, b, 0), Finalise(s, l, att, clock, b).error;
            match e
            case UnknownBounty => b !in s.bounties
            case NotFinalisable(status) =>
              b in s.bounties && status == s.bounties[b].status
              && (status in {Cancelled, Finalised} || (status != Exhausted && clock.DaHeight() < s.bounties[b].expiry))
            case DisputesStillOpen(open) => open == Get(s.openDisputes, b, 0) > 0
            case DisputeWindowsStillOpen(x, window, current) =>
              b in s.bounties && x == latest > 0 && window == s.bounties[b].window && current == clock.rollup
              && current <= Min(U64_MAX, latest + window)
            case ModuleNotInitialised => att.avow.None?
            case InsufficientFunds => Get(s.escrow, b, 0) > Balance(l, ESCROW)
            case _ => false
  {
    if b in s.bounties { RefundPaid(s, l, b); }
  }
}
