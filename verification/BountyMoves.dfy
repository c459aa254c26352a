/** One bounty's history as a small automaton, and what it means for finality. */
module BountyMoves {
  import opened Types
  import opened Ledger
  import opened Bounty
  import opened BountyBooks
  import opened BountyProofs
  import opened BountySafety
  import A = Attestation

  datatype Move =
    | Stay
    | Opening(record: Record)
    | Paying(b: BountyId, payouts: seq<Payout>)
    | Locking(key: DisputeKey, dispute: Dispute)
    | Releasing(key: DisputeKey)
    | Closing(status: Status)

  ghost predicate Allowed(v: View, mv: Move, h: u64) {
    match mv
    case Stay => true
    case Opening(r) => v.record.None? && r.status == Open && 0 < r.per <= r.pool
    case Paying(_, ps) =>
      v.record.Some? && v.record.value.status == Open && ps != [] && |ps| * v.record.value.per <= v.escrow
    case Locking(key, d) =>
      v.record.Some? && key in v.claims && key !in v.bonds && d.bond == v.record.value.per
      && h <= SaturatingAdd64(v.claims[key], v.record.value.window)
    case Releasing(key) => v.record.Some? && key in v.bonds
    case Closing(status) =>
      v.record.Some? && v.record.value.status in {Open, Exhausted, Expired} && status in {Expired, Cancelled, Finalised}
      && (status == Cancelled ==> v.escrow == v.record.value.pool)
      && (status == Finalised ==>
            v.open == 0 && (v.latest > 0 ==> h > SaturatingAdd64(v.latest, v.record.value.window)))
  }

  function After(v: View, mv: Move, h: u64): View
    requires mv.Paying? || mv.Closing? ==> v.record.Some?
  {
    match mv
    case Stay => v
    case Opening(r) => PostedView(r)
    case Paying(b, ps) => ClaimedView(v, b, ps, h)
    case Locking(key, d) => DisputedView(v, key, d)
    case Releasing(key) => ResolvedView(v, key)
    case Closing(status) => ClosedView(v, status)
  }

  /** What a call by `sender` means for bounty x, if it completes. */
  function MoveOf(c: Scheme, s: State, att: A.State, clock: Clock, sender: Address, m: Message, x: BountyId): Move {
    match m
    case PostBounty(board, pool, per, acceptance, expiry, window) =>
      if x != c.bountyId(sender, board, Get(s.nextNonce, sender, 0)) then Stay
      else Opening(Record(sender, board, pool, per, acceptance, expiry, window, Open))
    case ClaimBounty(b, claims) =>
      if x != b || b !in s.bounties || Payouts(att, s.bounties[b], claims).Failure? then Stay
      else Paying(b, Payouts(att, s.bounties[b], claims).value)
    case DisputeAttestation(b, a, ground) =>
      if x != b || b !in s.bounties then Stay else Locking(DisputeKey(b, a), Dispute(sender, s.bounties[b].per, ground))
    case ResolveDispute(b, a, _) => if x != b then Stay else Releasing(DisputeKey(b, a))
    case CancelBounty(b) =>
      if x != b || b !in s.bounties then Stay
      else Closing(if clock.DaHeight() >= s.bounties[b].expiry then Expired else Cancelled)
    case FinaliseBounty(b) => if x != b then Stay else Closing(Finalised)
  }

  lemma PostMoves(c: Scheme, s: State, l: Balances, att: A.State, clock: Clock, sender: Address, r: Record, x: BountyId)
    requires Good(ViewAt(s, x), clock.rollup) && r.status == Open && r.poster == sender
    requires Post(c, s, l, att, clock, sender, r.board, r.pool, r.per, r.acceptance, r.expiry, r.window).Done?
    ensures var t := Post(c, s, l, att, clock, sender, r.board, r.pool, r.per, r.acceptance, r.expiry, r.window).state;
            var mv := if x == c.bountyId(sender, r.board, Get(s.nextNonce, sender, 0)) then Opening(r) else Stay;
            Allowed(ViewAt(s, x), mv, clock.rollup) && ViewAt(t, x) == After(ViewAt(s, x), mv, clock.rollup)
  {
    PostStep(c, s, l, att, clock, sender, r);
    var nonce := Get(s.nextNonce, sender, 0);
    var id := c.bountyId(sender, r.board, nonce);
    if x == id {
      PostedViews(s, Fold(s.log), clock.rollup, id, r, nonce, x);
    } else {
      OtherPosted(s, Fold(s.log), id, r, nonce, x);
    }
  }

  lemma OtherPosted(s: State, k: Books, id: BountyId, r: Record, nonce: u64, x: BountyId)
    requires x != id
    ensures ViewOf(Posted(s, id, r, nonce), Ingest(k, BountyPosted(id, r.poster, r.pool)), x) == ViewOf(s, k, x)
  {}

  lemma ClaimMoves(s: State, l: Balances, att: A.State, clock: Clock, b: BountyId, claims: ClaimBatch, x: BountyId)
    requires Total(l) <= U128_MAX && Claim(s, l, att, clock, b, claims).Done?
    ensures b in s.bounties && Payouts(att, s.bounties[b], claims).Success?
    ensures var t, mv := Claim(s, l, att, clock, b, claims).state,
                         if x == b then Paying(b, Payouts(att, s.bounties[b], claims).value) else Stay;
            Allowed(ViewAt(s, x), mv, clock.rollup) && ViewAt(t, x) == After(ViewAt(s, x), mv, clock.rollup)
  {
    ClaimStep(s, l, att, clock, b, claims);
    ClaimedViews(s, Fold(s.log), b, Payouts(att, s.bounties[b], claims).value, clock.rollup, x);
  }

  lemma DisputeMoves(s: State, l: Balances, att: A.State, clock: Clock, sender: Address, b: BountyId, a: AttestationId,
                     ground: Ground, x: BountyId)
    requires DisputeClaim(s, l, att, clock, sender, b, a, ground).Done?
    ensures b in s.bounties
    ensures var t, mv := DisputeClaim(s, l, att, clock, sender, b, a, ground).state,
                         if x == b then Locking(DisputeKey(b, a), Dispute(sender, s.bounties[b].per, ground)) else Stay;
            Allowed(ViewAt(s, x), mv, clock.rollup) && ViewAt(t, x) == After(ViewAt(s, x), mv, clock.rollup)
  {
    DisputeStep(s, l, att, clock, sender, b, a, ground);
    var per := s.bounties[b].per;
    DisputedViews(s, Fold(s.log), DisputeKey(b, a), Dispute(sender, per, ground), BountyDisputed(b, a, sender, per), x);
  }

  lemma ResolveMoves(s: State, l: Balances, att: A.State, h: u64, sender: Address, b: BountyId, a: AttestationId,
                     d: Decision, x: BountyId)
    requires Resolve(s, l, att, sender, b, a, d).Done?
    ensures var t, mv := Resolve(s, l, att, sender, b, a, d).state, if x == b then Releasing(DisputeKey(b, a)) else Stay;
            Allowed(ViewAt(s, x), mv, h) && ViewAt(t, x) == After(ViewAt(s, x), mv, h)
  {
    ResolveStep(s, l, att, sender, b, a, d);
    var key := DisputeKey(b, a);
    var to := if d == Accept then s.disputes[key].disputer else s.bounties[b].poster;
    ResolvedViews(s, Fold(s.log), key, d, to, DisputeResolved(b, a, d, to), x);
  }

  lemma CancelMoves(s: State, l: Balances, att: A.State, clock: Clock, sender: Address, b: BountyId, x: BountyId)
    requires Cancel(s, l, att, clock, sender, b).Done?
    ensures b in s.bounties
    ensures var t := Cancel(s, l, att, clock, sender, b).state;
            var mv := if x == b then Closing(if clock.DaHeight() >= s.bounties[b].expiry then Expired else Cancelled)
                      else Stay;
            Allowed(ViewAt(s, x), mv, clock.rollup) && ViewAt(t, x) == After(ViewAt(s, x), mv, clock.rollup)
  {
    CancelStep(s, l, att, clock, sender, b);
    var status := if clock.DaHeight() >= s.bounties[b].expiry then Expired else Cancelled;
    ClosedViews(s, Fold(s.log), b, status, BountyExpired(b, Get(s.escrow, b, 0)), x);
  }

  lemma FinaliseMoves(s: State, l: Balances, att: A.State, clock: Clock, b: BountyId, x: BountyId)
    requires Finalise(s, l, att, clock, b).Done?
    ensures var t, mv := Finalise(s, l, att, clock, b).state, if x == b then Closing(Finalised) else Stay;
            Allowed(ViewAt(s, x), mv, clock.rollup) && ViewAt(t, x) == After(ViewAt(s, x), mv, clock.rollup)
  {
    FinaliseGuards(s, l, att, clock, b);
    FinaliseStep(s, l, att, clock, b);
    ClosedViews(s, Fold(s.log), b, Finalised, BountyFinalised(b, Get(s.escrow, b, 0)), x);
  }

  /** Every completed call moves every bounty by one allowed move, and all but its own by none. */
  lemma StepMoves(c: Scheme, s: State, l: Balances, att: A.State, clock: Clock, sender: Address, m: Message, x: BountyId)
    requires Good(ViewAt(s, x), clock.rollup) && Total(l) <= U128_MAX && Step(c, s, l, att, clock, sender, m).Done?
    ensures var t, mv := Step(c, s, l, att, clock, sender, m).state, MoveOf(c, s, att, clock, sender, m, x);
            Allowed(ViewAt(s, x), mv, clock.rollup) && ViewAt(t, x) == After(ViewAt(s, x), mv, clock.rollup)
  {
    match m
    case PostBounty(board, pool, per, acceptance, expiry, window) =>
      PostMoves(c, s, l, att, clock, sender, Record(sender, board, pool, per, acceptance, expiry, window, Open), x);
    case ClaimBounty(b, claims) => ClaimMoves(s, l, att, clock, b, claims, x);
    case DisputeAttestation(b, a, ground) => DisputeMoves(s, l, att, clock, sender, b, a, ground, x);
    case ResolveDispute(b, a, d) => ResolveMoves(s, l, att, clock.rollup, sender, b, a, d, x);
    case CancelBounty(b) => CancelMoves(s, l, att, clock, sender, b, x);
    case FinaliseBounty(b) => FinaliseMoves(s, l, att, clock, b, x);
  }

  // ----- Counters and finality -----

  /** Nothing more can happen to this bounty: closed, no dispute left, every dispute window over. */
  ghost predicate Settled(v: View, h: nat) {
    v.record.Some? && v.record.value.status in {Cancelled, Finalised} && v.bonds == map[]
    && WindowsOver(v.record.value, v, h)
  }

  lemma MoveExact(v: View, mv: Move, h: u64)
    requires Good(v, h) && Exact(v) && Allowed(v, mv, h) && |After(v, mv, h).bonds| <= U32_MAX
    ensures Exact(After(v, mv, h))
  {
    match mv
    case Stay =>
    case Opening(r) => PostedViewGood(r, h);
    case Paying(b, ps) => ClaimedViewGood(v, b, ps, h);
    case Locking(key, d) => DisputedViewGood(v, h, key, d);
    case Releasing(key) => ResolvedViewGood(v, h, key);
    case Closing(status) =>
  }

  /** Only a claim at height 0 can make the sentinel lie. */
  lemma MoveDated(v: View, mv: Move, h: u64)
    requires Good(v, h) && Dated(v) && Allowed(v, mv, h) && (mv.Paying? ==> h > 0)
    ensures Dated(After(v, mv, h))
  {
    match mv
    case Paying(b, ps) => ClaimedViewGood(v, b, ps, h);
    case _ =>
  }

  /** A cancelled bounty never had a claim, so it is settled whatever the counters and heights. */
  lemma CancelledIsSettled(v: View, h: nat)
    requires Good(v, h) && v.record.Some? && v.record.value.status == Cancelled
    ensures Settled(v, h)
  {
    assert v.claims == map[];
    assert v.bonds.Keys == {};
    assert v.bonds == map[];
  }

  /** So is a finalised one whose counter is exact and whose sentinel tells the truth. */
  lemma ClosedIsSettled(v: View, h: nat)
    requires Good(v, h) && Exact(v) && v.record.Some?
    requires v.record.value.status == Cancelled || SealedShut(v)
    ensures Settled(v, h)
  {
    if v.record.value.status == Cancelled { CancelledIsSettled(v, h); }
  }

  lemma SettledStays(v: View, mv: Move, h: u64)
    requires Settled(v, h) && Allowed(v, mv, h)
    ensures After(v, mv, h) == v
  {}

  /** No completed call changes a settled bounty: not its record, escrow, claims or disputes. */
  lemma StepKeepsSettled(c: Scheme, s: State, l: Balances, att: A.State, clock: Clock, sender: Address, m: Message,
                         x: BountyId)
    requires Good(ViewAt(s, x), clock.rollup) && Total(l) <= U128_MAX && Step(c, s, l, att, clock, sender, m).Done?
    requires Settled(ViewAt(s, x), clock.rollup)
    ensures ViewAt(Step(c, s, l, att, clock, sender, m).state, x) == ViewAt(s, x)
  {
    StepMoves(c, s, l, att, clock, sender, m, x);
    SettledStays(ViewAt(s, x), MoveOf(c, s, att, clock, sender, m, x), clock.rollup);
  }

  /** A bounty's counter stays exact while it fits, whatever else the chain does. */
  lemma StepKeepsExact(c: Scheme, s: State, l: Balances, att: A.State, clock: Clock, sender: Address, m: Message,
                       x: BountyId)
    requires Good(ViewAt(s, x), clock.rollup) && Total(l) <= U128_MAX && Step(c, s, l, att, clock, sender, m).Done?
    requires Exact(ViewAt(s, x)) && |ViewAt(Step(c, s, l, att, clock, sender, m).state, x).bonds| <= U32_MAX
    ensures Exact(ViewAt(Step(c, s, l, att, clock, sender, m).state, x))
  {
    StepMoves(c, s, l, att, clock, sender, m, x);
    MoveExact(ViewAt(s, x), MoveOf(c, s, att, clock, sender, m, x), clock.rollup);
  }

  /** A message claims on b. */
  predicate ClaimsOn(m: Message, b: BountyId) {
    m.ClaimBounty? && m.bounty == b
  }

  /** The sentinel stays truthful while no claim on this bounty is settled at height 0. */
  lemma StepKeepsDated(c: Scheme, s: State, l: Balances, att: A.State, clock: Clock, sender: Address, m: Message,
                       x: BountyId)
    requires Good(ViewAt(s, x), clock.rollup) && Total(l) <= U128_MAX && Step(c, s, l, att, clock, sender, m).Done?
    requires Dated(ViewAt(s, x)) && (ClaimsOn(m, x) ==> clock.rollup > 0)
    ensures Dated(ViewAt(Step(c, s, l, att, clock, sender, m).state, x))
  {
    StepMoves(c, s, l, att, clock, sender, m, x);
    MoveDated(ViewAt(s, x), MoveOf(c, s, att, clock, sender, m, x), clock.rollup);
  }

  // ----- When finalising seals -----

  /** The window check passed on: every window over, exactly when dated or the height is past the window anyway. */
  lemma WindowsOverIff(v: View, h: u64)
    requires Good(v, h) && Allowed(v, Closing(Finalised), h)
    ensures WindowsOver(v.record.value, v, h) <==> Dated(v) || v.record.value.window < h
  {
    if Dated(v) {
      CheckedWindowsOver(v, h);
    } else {
      var x :| x in v.claims;
      assert v.claims[x] == 0;
    }
  }

  /**
   * An allowed finalise leaves the bounty settled exactly when no dispute is open and either `latest_claim > 0` tells
   * claims from none or the height is past the dispute window anyway. An exact counter takes care of the first half.
   */
  lemma FinaliseSealsIff(v: View, h: u64)
    requires Good(v, h) && Allowed(v, Closing(Finalised), h)
    ensures Settled(After(v, Closing(Finalised), h), h) <==>
              v.bonds == map[] && (Dated(v) || v.record.value.window < h)
    ensures v.open == |v.bonds| ==> v.bonds == map[]
  {
    WindowsOverIff(v, h);
    var w := After(v, Closing(Finalised), h);
    assert w.claims == v.claims && w.bonds == v.bonds && w.record.value.window == v.record.value.window;
    assert WindowsOver(w.record.value, w, h) <==> WindowsOver(v.record.value, v, h);
  }

  // ----- What saturation loses -----

  /** A view after the given disputes are released, one by one. */
  function ReleasedView(v: View, keys: seq<DisputeKey>): View
    decreases |keys|
  {
    if keys == [] then v else ReleasedView(ResolvedView(v, keys[0]), keys[1..])
  }

  lemma {:induction false} ReleasedExactly(v: View, keys: seq<DisputeKey>)
    ensures ReleasedView(v, keys) == v.(bonds := v.bonds - (set x | x in keys), open := SaturatingSub(v.open, |keys|))
    decreases |keys|
  {
    if keys == [] {
      assert v.bonds - (set x | x in keys) == v.bonds;
    } else {
      ReleasedExactly(ResolvedView(v, keys[0]), keys[1..]);
      assert (set x | x in keys) == {keys[0]} + (set x | x in keys[1..]);
      assert v.bonds - (set x | x in keys) == v.bonds - {keys[0]} - (set x | x in keys[1..]);
    }
  }

  /**
   * Past 2^32 - 1 open disputes the counter loses one: one more dispute and 2^32 - 1 resolutions leave the counter at
   * 0 with a dispute open. Finalise then passes its check on it, and the bounty it closes is not settled.
   */
  lemma SaturationLosesOne(v: View, key: DisputeKey, d: Dispute, released: seq<DisputeKey>)
    requires v.open == |v.bonds| == U32_MAX && key !in v.bonds
    requires (set x | x in released) == v.bonds.Keys && |released| == U32_MAX
    ensures var w := ReleasedView(DisputedView(v, key, d), released); w.bonds == map[key := d] && w.open == 0
  {
    ReleasedExactly(DisputedView(v, key, d), released);
    assert v.bonds[key := d] - (set x | x in released) == map[key := d];
  }

  lemma UncountedDisputeUnsettled(v: View, h: u64)
    requires Good(v, h) && Allowed(v, Closing(Finalised), h) && v.bonds != map[]
    ensures v.open == 0 && !Settled(After(v, Closing(Finalised), h), h)
  {
    FinaliseSealsIff(v, h);
  }
}
