/** What the bounty module's events alone say, and the invariants its state keeps with them. */
module BountyBooks {
  import opened Types
  import opened Sums
  import opened Ledger
  import opened Bounty
  import A = Attestation

  // ----- The books an event reader keeps -----

  datatype Books = Books(
    posted: seq<BountyId>,                      // in posting order
    escrow: map<BountyId, int>,
    disputes: map<DisputeKey, (Address, nat)>,  // open disputes: who locked how much
    payouts: map<BountyId, nat>,                // claims paid so far
    refunds: map<BountyId, nat>)                // AVOW returned to the poster so far

  function Ingest(k: Books, e: Event): Books {
    match e
    case BountyPosted(b, _, pool) =>
      k.(posted := k.posted + [b], escrow := k.escrow[b := pool], payouts := k.payouts[b := 0], refunds := k.refunds[b := 0])
    case BountyClaimed(b, _, payout, _) =>
      k.(escrow := k.escrow[b := Get(k.escrow, b, 0) - payout], payouts := k.payouts[b := Get(k.payouts, b, 0) + 1])
    case BountyDisputed(b, a, disputer, bond) => k.(disputes := k.disputes[DisputeKey(b, a) := (disputer, bond)])
    case DisputeResolved(b, a, _, _) => k.(disputes := k.disputes - {DisputeKey(b, a)})
    case BountyExpired(b, refunded) => Return(k, b, refunded)
    case BountyFinalised(b, swept) => Return(k, b, swept)
  }

  function Return(k: Books, b: BountyId, amount: nat): Books {
    k.(escrow := k.escrow[b := Get(k.escrow, b, 0) - amount], refunds := k.refunds[b := Get(k.refunds, b, 0) + amount])
  }

  function Fold(log: seq<Event>): Books {
    if log == [] then Books([], map[], map[], map[], map[])
    else Ingest(Fold(log[..|log| - 1]), log[|log| - 1])
  }

  lemma FoldLast(log: seq<Event>, e: Event)
    ensures Fold(log + [e]) == Ingest(Fold(log), e)
  {
    assert (log + [e])[..|log|] == log;
  }

  /** A settled batch of n claims, as the books see it. */
  function ClaimedBooks(k: Books, b: BountyId, n: nat, per: nat): Books {
    Drawn(k, b, n, n * per)
  }

  function Drawn(k: Books, b: BountyId, n: nat, paid: nat): Books {
    if n == 0 then k
    else k.(escrow := k.escrow[b := Get(k.escrow, b, 0) - paid], payouts := k.payouts[b := Get(k.payouts, b, 0) + n])
  }

  lemma DrawnNext(k: Books, b: BountyId, n: nat, paid: nat, per: nat, p: Payout)
    requires n == 0 ==> paid == 0
    ensures Ingest(Drawn(k, b, n, paid), BountyClaimed(b, p.attestation, per, p.attester)) == Drawn(k, b, n + 1, paid + per)
  {}

  lemma ClaimedBooksNext(k: Books, b: BountyId, n: nat, per: nat, p: Payout)
    ensures Ingest(ClaimedBooks(k, b, n, per), BountyClaimed(b, p.attestation, per, p.attester))
         == ClaimedBooks(k, b, n + 1, per)
  {
    DrawnNext(k, b, n, n * per, per, p);
    assert n * per + per == (n + 1) * per;
  }

  lemma {:induction false} FoldClaims(log: seq<Event>, b: BountyId, ps: seq<Payout>, per: nat)
    ensures Fold(log + ClaimEvents(b, ps, per)) == ClaimedBooks(Fold(log), b, |ps|, per)
    decreases |ps|
  {
    if ps == [] {
      assert log + ClaimEvents(b, ps, per) == log;
    } else {
      var front, last := ps[..|ps| - 1], ps[|ps| - 1];
      var e := BountyClaimed(b, last.attestation, per, last.attester);
      FoldClaims(log, b, front, per);
      assert log + ClaimEvents(b, ps, per) == (log + ClaimEvents(b, front, per)) + [e];
      FoldLast(log + ClaimEvents(b, front, per), e);
      ClaimedBooksNext(Fold(log), b, |front|, per, last);
    }
  }

  // ----- One bounty -----

  function SliceOf<V>(m: map<DisputeKey, V>, b: BountyId): map<DisputeKey, V> {
    map x | x in m && x.bounty == b :: m[x]
  }

  /** Everything the module and its event log say about one bounty; `None` for an id nobody posted. */
  datatype View = View(
    record: Option<Record>, escrow: nat, payouts: nat, refunds: nat,
    latest: nat, claims: map<DisputeKey, nat>, bonds: map<DisputeKey, Dispute>, open: nat)

  function ViewOf(s: State, k: Books, b: BountyId): View {
    View(if b in s.bounties then Some(s.bounties[b]) else None,
         Get(s.escrow, b, 0), Get(k.payouts, b, 0), Get(k.refunds, b, 0),
         Get(s.latestClaim, b, 0), SliceOf(s.claimHeight, b), SliceOf(s.disputes, b), Get(s.openDisputes, b, 0))
  }

  /** Open bounties can pay one more claim, Exhausted ones cannot, closed ones hold nothing. */
  ghost predicate Staged(r: Record, v: View) {
    match r.status
    case Open => v.escrow >= r.per && v.refunds == 0
    case Exhausted => v.escrow < r.per && v.refunds == 0
    case Cancelled => v.escrow == 0 && v.payouts == 0
    case Expired => v.escrow == 0
    case Finalised => v.escrow == 0
  }

  /** `latest_claim_height` is the maximum claim height, and no claim is from the future. */
  ghost predicate Timed(v: View, h: nat) {
    && (forall x :: x in v.claims ==> v.claims[x] <= v.latest)
    && (v.latest > 0 ==> v.latest in v.claims.Values)
    && v.latest <= h
  }

  /** Every open dispute is over a settled claim and holds exactly one payout. */
  ghost predicate Backed(r: Record, v: View) {
    forall x :: x in v.bonds ==> x in v.claims && v.bonds[x].bond == r.per
  }

  /** Every claim's dispute window is over at height h. */
  ghost predicate WindowsOver(r: Record, v: View, h: nat) {
    forall x :: x in v.claims ==> v.claims[x] + r.window < h
  }

  /** `latest_claim > 0` tells "some claim" from "none", as the finalise handler assumes. */
  predicate Dated(v: View) {
    v.latest > 0 || v.claims == map[]
  }

  ghost predicate Sealed(r: Record, v: View, h: nat) {
    r.status == Finalised && Dated(v) ==> WindowsOver(r, v, h)
  }

  ghost predicate Accounted(r: Record, v: View) {
    && 0 < r.per <= r.pool
    && r.pool == v.escrow + v.payouts * r.per + v.refunds
    && (v.payouts == 0 <==> v.claims == map[])
  }

  /** What holds of every bounty id at rollup height h. */
  ghost predicate Good(v: View, h: nat) {
    match v.record
    case None => v == View(None, 0, 0, 0, 0, map[], map[], 0)
    case Some(r) =>
      Accounted(r, v) && Staged(r, v) && Timed(v, h) && Backed(r, v) && Sealed(r, v, h) && v.open <= |v.bonds|
  }

  // ----- The module -----

  function BondOf(d: Dispute): nat {
    d.bond
  }

  function DisputeView(d: Dispute): (Address, nat) {
    (d.disputer, d.bond)
  }

  function DisputeViews(disputes: map<DisputeKey, Dispute>): map<DisputeKey, (Address, nat)> {
    map x | x in disputes :: DisputeView(disputes[x])
  }

  /** Every AVOW the module holds is some bounty's escrow or some open dispute's bond. */
  ghost predicate Solvent(s: State, funds: nat) {
    funds == Sum<BountyId, nat>(s.escrow, Same) + Sum<DisputeKey, Dispute>(s.disputes, BondOf)
  }

  /** The events alone give the escrows and the open disputes. */
  ghost predicate Matched(s: State, k: Books) {
    k.escrow == s.escrow && k.disputes == DisputeViews(s.disputes)
  }

  predicate Active(r: Record) {
    r.status == Open || r.status == Exhausted
  }

  /** The posting-order subsequence of bounties on `board` that are Open or Exhausted. */
  function Live(posted: seq<BountyId>, bounties: map<BountyId, Record>, board: SchemaId): seq<BountyId> {
    if posted == [] then []
    else
      var b := posted[|posted| - 1];
      var front := Live(posted[..|posted| - 1], bounties, board);
      if b in bounties && bounties[b].board == board && Active(bounties[b]) then front + [b] else front
  }

  ghost predicate NoRepeats<T>(xs: seq<T>) {
    forall i, j :: 0 <= i < j < |xs| ==> xs[i] != xs[j]
  }

  ghost predicate PostedOnce(s: State, k: Books) {
    NoRepeats(k.posted) && forall b :: b in k.posted <==> b in s.bounties
  }

  /** The reverse index is exactly that subsequence, for every board, and never over its cap. */
  ghost predicate Indexed(s: State, k: Books) {
    forall board :: Get(s.openBySchema, board, []) == Live(k.posted, s.bounties, board)
                    && |Get(s.openBySchema, board, [])| <= MAX_OPEN_BOUNTIES_PER_SCHEMA
  }

  ghost predicate AllGood(s: State, k: Books, h: nat) {
    forall b :: Good(ViewOf(s, k, b), h)
  }

  ghost predicate BoardsKnown(s: State, att: A.State) {
    forall b :: b in s.bounties ==> s.bounties[b].board in att.schemas
  }

  /** The module's invariant: books k, balance `funds`, rollup height h. */
  ghost predicate Sound(s: State, k: Books, funds: nat, h: nat, att: A.State) {
    && s.escrow.Keys == s.bounties.Keys
    && Matched(s, k) && Solvent(s, funds) && PostedOnce(s, k) && Indexed(s, k) && AllGood(s, k, h)
    && BoardsKnown(s, att)
  }

  /** Finalised with the sentinel telling the truth. */
  predicate SealedShut(v: View) {
    v.record.Some? && v.record.value.status == Finalised && Dated(v)
  }

  /**
   * What also holds while this bounty's open disputes stay countable in a u32: the counter is exact, and a bounty
   * finalised with a truthful sentinel has no dispute.
   */
  ghost predicate Exact(v: View) {
    v.open == |v.bonds| && (SealedShut(v) ==> v.bonds == map[])
  }
}
