/** What holds of the bounty module after every call, in every run. */
module BountySafety {
  import opened Types
  import opened Sums
  import opened Ledger
  import opened Bounty
  import opened BountyBooks
  import opened BountyProofs
  import A = Attestation

  /** The module's invariant over the ledger it runs on. */
  ghost predicate Holds(s: State, l: Balances, att: A.State, h: nat) {
    Sound(s, Fold(s.log), Balance(l, ESCROW), h, att) && Total(l) <= U128_MAX
  }

  ghost function ViewAt(s: State, b: BountyId): View {
    ViewOf(s, Fold(s.log), b)
  }

  // ----- What a completed call of each kind did -----

  /** One payment between a user and the escrow account. */
  lemma SinglePayment(l: Balances, t: Transfer)
    requires PayAll(l, [t]).Some? && t.from != t.to
    ensures Total(PayAll(l, [t]).value) == Total(l)
    ensures t.to == ESCROW ==> Balance(PayAll(l, [t]).value, ESCROW) == Balance(l, ESCROW) + t.amount
    ensures t.from == ESCROW ==> Balance(PayAll(l, [t]).value, ESCROW) == Balance(l, ESCROW) - t.amount
  {
    PayAllConserves(l, [t]);
  }

  lemma PostStep(c: Scheme, s: State, l: Balances, att: A.State, clock: Clock, sender: Address, r: Record)
    requires r.status == Open && r.poster == sender
    requires Post(c, s, l, att, clock, sender, r.board, r.pool, r.per, r.acceptance, r.expiry, r.window).Done?
    ensures var Done(t, l1) := Post(c, s, l, att, clock, sender, r.board, r.pool, r.per, r.acceptance, r.expiry, r.window);
            var nonce := Get(s.nextNonce, sender, 0);
            var id := c.bountyId(sender, r.board, nonce);
            && id !in s.bounties && 0 < r.per <= r.pool && r.board in att.schemas
            && |Get(s.openBySchema, r.board, [])| < MAX_OPEN_BOUNTIES_PER_SCHEMA
            && t == Posted(s, id, r, nonce)
            && Fold(t.log) == Ingest(Fold(s.log), BountyPosted(id, r.poster, r.pool))
            && Balance(l1, ESCROW) == Balance(l, ESCROW) + r.pool && Total(l1) == Total(l)
  {
    var id := c.bountyId(sender, r.board, Get(s.nextNonce, sender, 0));
    FoldLast(s.log, BountyPosted(id, r.poster, r.pool));
    PaySingle(l, Transfer(User(sender), ESCROW, r.pool));
    SinglePayment(l, Transfer(User(sender), ESCROW, r.pool));
  }

  lemma {:induction false} PayoutsCount(att: A.State, r: Record, claims: seq<AttestationId>)
    requires Payouts(att, r, claims).Success?
    ensures |Payouts(att, r, claims).value| == |claims|
  {
    if claims != [] { PayoutsCount(att, r, claims[..|claims| - 1]); }
  }

  /** A batch takes exactly its count times the payout out of the escrow account, and only there. */
  lemma {:induction false} PayoutFlows(ps: seq<Payout>, per: nat)
    ensures AllFrom(PayoutTransfers(ps, per), ESCROW)
    ensures Debits(PayoutTransfers(ps, per), ESCROW) == |ps| * per
    decreases |ps|
  {
    if ps != [] {
      var front, t := ps[..|ps| - 1], Transfer(ESCROW, User(ps[|ps| - 1].attester), per);
      PayoutFlows(front, per);
      FlowsConcat(PayoutTransfers(front, per), [t], ESCROW);
      assert Debits([t], ESCROW) == per;
      assert |front| * per + per == |ps| * per;
    }
  }

  /** The batch's payments complete exactly when the module's balance covers them. */
  lemma PayoutsAffordable(l: Balances, ps: seq<Payout>, per: nat)
    ensures PayAll(l, PayoutTransfers(ps, per)).Some? <==> |ps| * per <= Balance(l, ESCROW)
    ensures PayAll(l, PayoutTransfers(ps, per)).Some? ==>
              var l1 := PayAll(l, PayoutTransfers(ps, per)).value;
              Balance(l1, ESCROW) == Balance(l, ESCROW) - |ps| * per && Total(l1) == Total(l)
  {
    PayoutFlows(ps, per);
    PayAllFromOne(l, PayoutTransfers(ps, per), ESCROW);
    if PayAll(l, PayoutTransfers(ps, per)).Some? { PayAllConserves(l, PayoutTransfers(ps, per)); }
  }

  /** A settled batch pays the true product, out of this bounty's own escrow. */
  lemma ClaimStep(s: State, l: Balances, att: A.State, clock: Clock, b: BountyId, claims: ClaimBatch)
    requires Total(l) <= U128_MAX && Claim(s, l, att, clock, b, claims).Done?
    ensures b in s.bounties && s.bounties[b].status == Open && Payouts(att, s.bounties[b], claims).Success?
    ensures var Done(t, l1) := Claim(s, l, att, clock, b, claims);
            var per, ps := s.bounties[b].per, Payouts(att, s.bounties[b], claims).value;
            && ps != [] && |ps| == |claims| && |ps| * per <= Get(s.escrow, b, 0)
            && t == Claimed(s, b, ps, |ps| * per, clock.rollup)
            && Fold(t.log) == ClaimedBooks(Fold(s.log), b, |ps|, per)
            && Balance(l1, ESCROW) == Balance(l, ESCROW) - |ps| * per && Total(l1) == Total(l)
  {
    var r := s.bounties[b];
    var ps := Payouts(att, r, claims).value;
    PayoutsCount(att, r, claims);
    PayoutsAffordable(l, ps, r.per);
    BalanceWithinSupply(l, ESCROW);
    assert r.per * |ps| == |ps| * r.per;
    FoldClaims(s.log, b, ps, r.per);
  }

  lemma DisputeStep(s: State, l: Balances, att: A.State, clock: Clock, sender: Address, b: BountyId, a: AttestationId,
                    ground: Ground)
    requires DisputeClaim(s, l, att, clock, sender, b, a, ground).Done?
    ensures b in s.bounties
    ensures var Done(t, l1) := DisputeClaim(s, l, att, clock, sender, b, a, ground);
            var key, per := DisputeKey(b, a), s.bounties[b].per;
            && key !in s.disputes && key in s.claimHeight
            && clock.rollup <= SaturatingAdd64(s.claimHeight[key], s.bounties[b].window)
            && t == Disputed(s, key, Dispute(sender, per, ground))
            && Fold(t.log) == Ingest(Fold(s.log), BountyDisputed(b, a, sender, per))
            && Balance(l1, ESCROW) == Balance(l, ESCROW) + per && Total(l1) == Total(l)
  {
    FoldLast(s.log, BountyDisputed(b, a, sender, s.bounties[b].per));
    SinglePayment(l, Transfer(User(sender), ESCROW, s.bounties[b].per));
  }

  lemma ResolveStep(s: State, l: Balances, att: A.State, sender: Address, b: BountyId, a: AttestationId, d: Decision)
    requires Resolve(s, l, att, sender, b, a, d).Done?
    ensures b in s.bounties && DisputeKey(b, a) in s.disputes
    ensures var Done(t, l1) := Resolve(s, l, att, sender, b, a, d);
            var key := DisputeKey(b, a);
            var to := if d == Accept then s.disputes[key].disputer else s.bounties[b].poster;
            && t == Resolved(s, key, d, to)
            && Fold(t.log) == Ingest(Fold(s.log), DisputeResolved(b, a, d, to))
            && Balance(l1, ESCROW) == Balance(l, ESCROW) - s.disputes[key].bond && Total(l1) == Total(l)
  {
    var key := DisputeKey(b, a);
    var to := if d == Accept then s.disputes[key].disputer else s.bounties[b].poster;
    FoldLast(s.log, DisputeResolved(b, a, d, to));
    SinglePayment(l, Transfer(ESCROW, User(to), s.disputes[key].bond));
  }

  lemma RefundPaid(s: State, l: Balances, b: BountyId)
    requires b in s.bounties
    ensures PayAll(l, Refund(s, b)).Some? <==> Get(s.escrow, b, 0) <= Balance(l, ESCROW)
    ensures PayAll(l, Refund(s, b)).Some? ==>
              var l1 := PayAll(l, Refund(s, b)).value;
              Balance(l1, ESCROW) == Balance(l, ESCROW) - Get(s.escrow, b, 0) && Total(l1) == Total(l)
  {
    var left := Get(s.escrow, b, 0);
    if left > 0 {
      PaySingle(l, Transfer(ESCROW, User(s.bounties[b].poster), left));
      if PayAll(l, Refund(s, b)).Some? { SinglePayment(l, Transfer(ESCROW, User(s.bounties[b].poster), left)); }
    }
  }

  lemma CancelStep(s: State, l: Balances, att: A.State, clock: Clock, sender: Address, b: BountyId)
    requires Cancel(s, l, att, clock, sender, b).Done?
    ensures b in s.bounties && s.bounties[b].status != Cancelled && s.bounties[b].status != Finalised
    ensures var Done(t, l1) := Cancel(s, l, att, clock, sender, b);
            var left := Get(s.escrow, b, 0);
            var status := if clock.DaHeight() >= s.bounties[b].expiry then Expired else Cancelled;
            && (status == Cancelled ==> left == s.bounties[b].pool)
            && t == Closed(s, b, status, BountyExpired(b, left))
            && Fold(t.log) == Ingest(Fold(s.log), BountyExpired(b, left))
            && Balance(l1, ESCROW) == Balance(l, ESCROW) - left && Total(l1) == Total(l)
  {
    FoldLast(s.log, BountyExpired(b, Get(s.escrow, b, 0)));
    RefundPaid(s, l, b);
  }

  lemma FinaliseGuards(s: State, l: Balances, att: A.State, clock: Clock, b: BountyId)
    requires Finalise(s, l, att, clock, b).Done?
    ensures b in s.bounties && s.bounties[b].status != Cancelled && s.bounties[b].status != Finalised
    ensures var left, latest := Get(s.escrow, b, 0), Get(s.latestClaim, b, 0);
            && Get(s.openDisputes, b, 0) == 0
            && (latest > 0 ==> clock.rollup > SaturatingAdd64(latest, s.bounties[b].window))
            && Settle(l, Refund(s, b), Closed(s, b, Finalised, BountyFinalised(b, left))) == Finalise(s, l, att, clock, b)
  {}

  lemma FinaliseStep(s: State, l: Balances, att: A.State, clock: Clock, b: BountyId)
    requires Finalise(s, l, att, clock, b).Done?
    ensures b in s.bounties
    ensures var Done(t, l1) := Finalise(s, l, att, clock, b);
            var left := Get(s.escrow, b, 0);
            && t == Closed(s, b, Finalised, BountyFinalised(b, left))
            && Fold(t.log) == Ingest(Fold(s.log), BountyFinalised(b, left))
            && Balance(l1, ESCROW) == Balance(l, ESCROW) - left && Total(l1) == Total(l)
  {
    FinaliseGuards(s, l, att, clock, b);
    FoldLast(s.log, BountyFinalised(b, Get(s.escrow, b, 0)));
    RefundPaid(s, l, b);
  }

  // ----- The invariant -----

  lemma PostKeeps(c: Scheme, s: State, l: Balances, att: A.State, clock: Clock, sender: Address, r: Record)
    requires Holds(s, l, att, clock.rollup) && r.status == Open && r.poster == sender
    requires Post(c, s, l, att, clock, sender, r.board, r.pool, r.per, r.acceptance, r.expiry, r.window).Done?
    ensures var Done(t, l1) := Post(c, s, l, att, clock, sender, r.board, r.pool, r.per, r.acceptance, r.expiry, r.window);
            Holds(t, l1, att, clock.rollup)
  {
    PostStep(c, s, l, att, clock, sender, r);
    var nonce := Get(s.nextNonce, sender, 0);
    PostedSound(s, Fold(s.log), Balance(l, ESCROW), clock.rollup, att, c.bountyId(sender, r.board, nonce), r, nonce);
  }

  lemma ClaimKeeps(s: State, l: Balances, att: A.State, clock: Clock, b: BountyId, claims: ClaimBatch)
    requires Holds(s, l, att, clock.rollup) && Claim(s, l, att, clock, b, claims).Done?
    ensures var Done(t, l1) := Claim(s, l, att, clock, b, claims); Holds(t, l1, att, clock.rollup)
  {
    ClaimStep(s, l, att, clock, b, claims);
    var ps := Payouts(att, s.bounties[b], claims).value;
    ClaimedSound(s, Fold(s.log), Balance(l, ESCROW), clock.rollup, att, b, ps);
  }

  lemma DisputeKeeps(s: State, l: Balances, att: A.State, clock: Clock, sender: Address, b: BountyId, a: AttestationId,
                     ground: Ground)
    requires Holds(s, l, att, clock.rollup) && DisputeClaim(s, l, att, clock, sender, b, a, ground).Done?
    ensures var Done(t, l1) := DisputeClaim(s, l, att, clock, sender, b, a, ground); Holds(t, l1, att, clock.rollup)
  {
    DisputeStep(s, l, att, clock, sender, b, a, ground);
    var per := s.bounties[b].per;
    DisputedSound(s, Fold(s.log), Balance(l, ESCROW), clock.rollup, att, DisputeKey(b, a), Dispute(sender, per, ground),
                  BountyDisputed(b, a, sender, per));
  }

  lemma ResolveKeeps(s: State, l: Balances, att: A.State, h: nat, sender: Address, b: BountyId, a: AttestationId,
                     d: Decision)
    requires Holds(s, l, att, h) && Resolve(s, l, att, sender, b, a, d).Done?
    ensures var Done(t, l1) := Resolve(s, l, att, sender, b, a, d); Holds(t, l1, att, h)
  {
    ResolveStep(s, l, att, sender, b, a, d);
    var key := DisputeKey(b, a);
    var to := if d == Accept then s.disputes[key].disputer else s.bounties[b].poster;
    ResolvedSound(s, Fold(s.log), Balance(l, ESCROW), h, att, key, d, to, DisputeResolved(b, a, d, to));
  }

  lemma Cancellation(a: nat, b: nat, d: nat)
    requires a * d < b * d
    ensures a < b
  {
    assert a >= b ==> a * d >= b * d;
  }

  lemma QuotientBound(n: nat, d: nat, p: nat)
    requires d > 0 && n * d <= p
    ensures n <= p / d
  {
    assert p == p / d * d + p % d;
    assert n * d < (p / d + 1) * d;
    Cancellation(n, p / d + 1, d);
  }

  /** Before any refund, cancel's `escrow == pool` test is true exactly when no claim was ever settled. */
  lemma CancelTestExact(v: View, h: nat)
    requires Good(v, h) && v.record.Some? && v.record.value.status in {Open, Exhausted}
    ensures v.escrow == v.record.value.pool <==> v.claims == map[]
  {
    if v.escrow == v.record.value.pool { PoolIntact(v, h); }
  }

  /** Over any batches, no more claims are paid than the pool has payouts. */
  lemma PayoutsWithinPool(v: View, h: nat)
    requires Good(v, h) && v.record.Some?
    ensures v.payouts <= v.record.value.pool / v.record.value.per
  {
    QuotientBound(v.payouts, v.record.value.per, v.record.value.pool);
  }

  lemma AtLeastOnce(n: nat, d: nat)
    ensures n > 0 ==> n * d >= d
  {}

  lemma PoolIntact(v: View, h: nat)
    requires Good(v, h) && v.record.Some? && v.escrow == v.record.value.pool
    ensures v.payouts == 0
  {
    AtLeastOnce(v.payouts, v.record.value.per);
  }

  lemma CancelUnpaid(s: State, l: Balances, att: A.State, clock: Clock, sender: Address, b: BountyId)
    requires Good(ViewAt(s, b), clock.rollup) && Cancel(s, l, att, clock, sender, b).Done?
    ensures b in s.bounties && (clock.DaHeight() < s.bounties[b].expiry ==> Get(Fold(s.log).payouts, b, 0) == 0)
  {
    CancelStep(s, l, att, clock, sender, b);
    if clock.DaHeight() < s.bounties[b].expiry { PoolIntact(ViewAt(s, b), clock.rollup); }
  }

  lemma CancelKeeps(s: State, l: Balances, att: A.State, clock: Clock, sender: Address, b: BountyId)
    requires Holds(s, l, att, clock.rollup) && Cancel(s, l, att, clock, sender, b).Done?
    ensures var Done(t, l1) := Cancel(s, l, att, clock, sender, b); Holds(t, l1, att, clock.rollup)
  {
    CancelStep(s, l, att, clock, sender, b);
    CancelUnpaid(s, l, att, clock, sender, b);
    var status := if clock.DaHeight() >= s.bounties[b].expiry then Expired else Cancelled;
    ClosedSound(s, Fold(s.log), Balance(l, ESCROW), clock.rollup, att, b, status, BountyExpired(b, Get(s.escrow, b, 0)));
  }

  /** When the finalise handler's window check passes on a dated bounty, every claim's window is over. */
  lemma CheckedWindowsOver(v: View, h: u64)
    requires Good(v, h) && v.record.Some? && Dated(v)
    requires v.latest > 0 ==> h > SaturatingAdd64(v.latest, v.record.value.window)
    ensures WindowsOver(v.record.value, v, h)
  {}

  lemma FinaliseKeeps(s: State, l: Balances, att: A.State, clock: Clock, b: BountyId)
    requires Holds(s, l, att, clock.rollup) && Finalise(s, l, att, clock, b).Done?
    ensures var Done(t, l1) := Finalise(s, l, att, clock, b); Holds(t, l1, att, clock.rollup)
  {
    FinaliseGuards(s, l, att, clock, b);
    FinaliseStep(s, l, att, clock, b);
    var left := Get(s.escrow, b, 0);
    assert Good(ViewAt(s, b), clock.rollup);
    if Dated(ViewAt(s, b)) { CheckedWindowsOver(ViewAt(s, b), clock.rollup); }
    ClosedSound(s, Fold(s.log), Balance(l, ESCROW), clock.rollup, att, b, Finalised, BountyFinalised(b, left));
  }

  /** Every completed call keeps the invariant. */
  lemma StepKeeps(c: Scheme, s: State, l: Balances, att: A.State, clock: Clock, sender: Address, m: Message)
    requires Holds(s, l, att, clock.rollup) && Step(c, s, l, att, clock, sender, m).Done?
    ensures var Done(t, l1) := Step(c, s, l, att, clock, sender, m); Holds(t, l1, att, clock.rollup)
  {
    match m
    case PostBounty(board, pool, per, acceptance, expiry, window) =>
      PostKeeps(c, s, l, att, clock, sender, Record(sender, board, pool, per, acceptance, expiry, window, Open));
    case ClaimBounty(b, claims) => ClaimKeeps(s, l, att, clock, b, claims);
    case DisputeAttestation(b, a, ground) => DisputeKeeps(s, l, att, clock, sender, b, a, ground);
    case ResolveDispute(b, a, d) => ResolveKeeps(s, l, att, clock.rollup, sender, b, a, d);
    case CancelBounty(b) => CancelKeeps(s, l, att, clock, sender, b);
    case FinaliseBounty(b) => FinaliseKeeps(s, l, att, clock, b);
  }

  lemma EmptyHolds(l: Balances, att: A.State, h: nat)
    requires Balance(l, ESCROW) == 0 && Total(l) <= U128_MAX
    ensures Holds(EMPTY, l, att, h)
  {}

  /** Time passing, other modules' calls and a growing attestation registry keep it too. */
  lemma FrameKeeps(s: State, l: Balances, att: A.State, h: nat, l1: Balances, att1: A.State, h1: nat)
    requires Holds(s, l, att, h) && h <= h1 && Balance(l1, ESCROW) == Balance(l, ESCROW) && Total(l1) == Total(l)
    requires forall id :: id in att.schemas ==> id in att1.schemas
    ensures Holds(s, l1, att1, h1)
  {
    forall b ensures Good(ViewAt(s, b), h1) { assert Good(ViewAt(s, b), h); }
  }
}
