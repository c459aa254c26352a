/** No AVOW is ever stranded in a bounty, and no batch overdraws one. */
module BountyExit {
  import opened Types
  import opened Sums
  import opened Ledger
  import opened Bounty
  import opened BountyBooks
  import opened BountyProofs
  import opened BountySafety
  import opened BountyMoves
  import A = Attestation

  // ----- Resolving every dispute -----

  datatype Ruling = Ruling(attestation: AttestationId, decision: Decision)

  /** `sender` rules on the listed disputes of b, one call each; stops at the first refusal. */
  function ResolveEach(s: State, l: Balances, att: A.State, sender: Address, b: BountyId, rulings: seq<Ruling>): Verdict
    decreases |rulings|
  {
    if rulings == [] then Done(s, l)
    else
      match Resolve(s, l, att, sender, b, rulings[0].attestation, rulings[0].decision)
      case Refused(e) => Refused(e)
      case Done(t, l1) => ResolveEach(t, l1, att, sender, b, rulings[1..])
  }

  ghost predicate Ruled(rulings: seq<Ruling>, b: BountyId, x: DisputeKey) {
    exists r :: r in rulings && DisputeKey(b, r.attestation) == x
  }

  /** The rulings name each open dispute of b exactly once. */
  ghost predicate Covers(rulings: seq<Ruling>, b: BountyId, bonds: map<DisputeKey, Dispute>) {
    && (forall i, j :: 0 <= i < j < |rulings| ==> rulings[i].attestation != rulings[j].attestation)
    && (forall r :: r in rulings ==> DisputeKey(b, r.attestation) in bonds)
    && (forall x :: x in bonds ==> Ruled(rulings, b, x))
  }

  /** Every bounty's open disputes can be listed for ruling. */
  lemma {:induction false} SomeRulingsCover(b: BountyId, bonds: map<DisputeKey, Dispute>, d: Decision)
    requires forall x :: x in bonds ==> x.bounty == b
    ensures exists rulings :: Covers(rulings, b, bonds)
    decreases |bonds|
  {
    if bonds == map[] {
      assert Covers([], b, bonds);
    } else {
      var x :| x in bonds;
      SomeRulingsCover(b, bonds - {x}, d);
      var rest :| Covers(rest, b, bonds - {x});
      CoversMore(rest, b, bonds, x.attestation, d);
      assert Covers([Ruling(x.attestation, d)] + rest, b, bonds);
    }
  }

  lemma CoversMore(rest: seq<Ruling>, b: BountyId, bonds: map<DisputeKey, Dispute>, a: AttestationId, d: Decision)
    requires DisputeKey(b, a) in bonds && Covers(rest, b, bonds - {DisputeKey(b, a)})
    ensures Covers([Ruling(a, d)] + rest, b, bonds)
  {
    var first, all := Ruling(a, d), [Ruling(a, d)] + rest;
    forall x | x in bonds ensures Ruled(all, b, x) {
      if x == DisputeKey(b, a) {
        assert first in all;
      } else {
        assert Ruled(rest, b, x);
        var r :| r in rest && DisputeKey(b, r.attestation) == x;
        assert r in all;
      }
    }
  }

  lemma CoversRest(rulings: seq<Ruling>, b: BountyId, bonds: map<DisputeKey, Dispute>)
    requires Covers(rulings, b, bonds) && rulings != []
    ensures Covers(rulings[1..], b, bonds - {DisputeKey(b, rulings[0].attestation)})
  {
    var key, rest := DisputeKey(b, rulings[0].attestation), bonds - {DisputeKey(b, rulings[0].attestation)};
    forall x | x in rest ensures Ruled(rulings[1..], b, x) {
      var r :| r in rulings && DisputeKey(b, r.attestation) == x;
      assert rulings == [rulings[0]] + rulings[1..];
      assert r in rulings[1..];
    }
  }

  /** The board owner's ruling on an open dispute never fails, either way. */
  lemma ResolveSucceeds(s: State, l: Balances, att: A.State, h: u64, b: BountyId, a: AttestationId, d: Decision)
    requires Holds(s, l, att, h) && att.avow.Some? && b in s.bounties && DisputeKey(b, a) in s.disputes
    ensures s.bounties[b].board in att.schemas
    ensures var v := Resolve(s, l, att, att.schemas[s.bounties[b].board].owner, b, a, d);
            && v.Done? && Holds(v.state, v.funds, att, h)
            && ViewAt(v.state, b) == ResolvedView(ViewAt(s, b), DisputeKey(b, a))
            && b in v.state.bounties && v.state.bounties[b] == s.bounties[b]
  {
    var key, owner := DisputeKey(b, a), att.schemas[s.bounties[b].board].owner;
    SumBounds<DisputeKey, Dispute>(s.disputes, BondOf, key);
    var to := if d == Accept then s.disputes[key].disputer else s.bounties[b].poster;
    PaySingle(l, Transfer(ESCROW, User(to), s.disputes[key].bond));
    ResolveKeeps(s, l, att, h, owner, b, a, d);
    ResolveMoves(s, l, att, h, owner, b, a, d, b);
  }

  /** Ruling on every open dispute, in any order and either way, succeeds and leaves no dispute. */
  lemma {:induction false} ResolveEachSucceeds(s: State, l: Balances, att: A.State, h: u64, b: BountyId,
                                               rulings: seq<Ruling>)
    requires Holds(s, l, att, h) && att.avow.Some? && b in s.bounties && Covers(rulings, b, ViewAt(s, b).bonds)
    ensures s.bounties[b].board in att.schemas
    ensures var v := ResolveEach(s, l, att, att.schemas[s.bounties[b].board].owner, b, rulings);
            && v.Done? && Holds(v.state, v.funds, att, h)
            && ViewAt(v.state, b) == ViewAt(s, b).(bonds := map[], open := 0)
    decreases |rulings|
  {
    if rulings == [] {
      NothingLeft(ViewAt(s, b), h, b);
    } else {
      var key := DisputeKey(b, rulings[0].attestation);
      assert key in ViewAt(s, b).bonds;
      ResolveSucceeds(s, l, att, h, b, rulings[0].attestation, rulings[0].decision);
      CoversRest(rulings, b, ViewAt(s, b).bonds);
      var v := Resolve(s, l, att, att.schemas[s.bounties[b].board].owner, b, rulings[0].attestation, rulings[0].decision);
      ResolveEachSucceeds(v.state, v.funds, att, h, b, rulings[1..]);
    }
  }

  lemma NothingLeft(v: View, h: nat, b: BountyId)
    requires Good(v, h) && Covers([], b, v.bonds) && v.record.Some?
    ensures v == v.(bonds := map[], open := 0)
  {
    assert v.bonds.Keys == {};
    assert v.bonds == map[];
  }

  // ----- Finalising -----

  /** The clock at which anyone may finalise: expired (or exhausted) and past the last dispute window. */
  predicate Ripe(v: View, clock: Clock)
    requires v.record.Some?
  {
    var r := v.record.value;
    && (clock.DaHeight() >= r.expiry || r.status == Exhausted)
    && (v.latest > 0 ==> clock.rollup > SaturatingAdd64(v.latest, r.window))
  }

  lemma FinaliseGuardsIff(s: State, l: Balances, att: A.State, clock: Clock, b: BountyId)
    requires att.avow.Some? && b in s.bounties && Get(s.openDisputes, b, 0) == 0
    requires PayAll(l, Refund(s, b)).Some?
    ensures Finalise(s, l, att, clock, b).Done? <==>
              s.bounties[b].status != Cancelled && s.bounties[b].status != Finalised && Ripe(ViewAt(s, b), clock)
  {}

  /** With no dispute open, finalise succeeds from any sender exactly when the bounty is ripe and not yet closed. */
  lemma FinaliseSucceedsIff(s: State, l: Balances, att: A.State, clock: Clock, b: BountyId)
    requires Holds(s, l, att, clock.rollup) && att.avow.Some? && b in s.bounties && ViewAt(s, b).bonds == map[]
    ensures Finalise(s, l, att, clock, b).Done? <==>
              s.bounties[b].status in {Open, Exhausted, Expired} && Ripe(ViewAt(s, b), clock)
  {
    RefundPaid(s, l, b);
    SumBounds<BountyId, nat>(s.escrow, Same, b);
    assert Good(ViewAt(s, b), clock.rollup);
    FinaliseGuardsIff(s, l, att, clock, b);
  }

  /**
   * Nothing is stranded: from any sound state, once the board owner has ruled on b's open disputes in any order and
   * either way, anyone can finalise at any later ripe height; afterwards b holds no escrow and no bond.
   */
  lemma NothingStranded(s: State, l: Balances, att: A.State, h: u64, b: BountyId, rulings: seq<Ruling>, clock: Clock)
    requires Holds(s, l, att, h) && att.avow.Some? && b in s.bounties && Covers(rulings, b, ViewAt(s, b).bonds)
    requires h <= clock.rollup && Ripe(ViewAt(s, b), clock)
    ensures s.bounties[b].board in att.schemas
    ensures var v := ResolveEach(s, l, att, att.schemas[s.bounties[b].board].owner, b, rulings);
            && v.Done?
            && (s.bounties[b].status in {Open, Exhausted, Expired} ==>
                  var w := Finalise(v.state, v.funds, att, clock, b);
                  w.Done? && ViewAt(w.state, b).escrow == 0 && ViewAt(w.state, b).bonds == map[])
            && (s.bounties[b].status in {Cancelled, Finalised} ==>
                  ViewAt(v.state, b).escrow == 0 && ViewAt(v.state, b).bonds == map[])
  {
    ResolveEachSucceeds(s, l, att, h, b, rulings);
    var v := ResolveEach(s, l, att, att.schemas[s.bounties[b].board].owner, b, rulings);
    var t := v.state;
    assert Good(ViewAt(s, b), h);
    assert ViewAt(t, b).record == ViewAt(s, b).record;
    FrameKeeps(t, v.funds, att, h, v.funds, att, clock.rollup);
    assert Good(ViewAt(t, b), clock.rollup);
    FinaliseSucceedsIff(t, v.funds, att, clock, b);
    if s.bounties[b].status in {Open, Exhausted, Expired} { FinaliseMoves(t, v.funds, att, clock, b, b); }
  }

  /** The state after an attempt to finalise, whether or not it goes through. */
  function TryFinalise(s: State, l: Balances, att: A.State, clock: Clock, b: BountyId): State {
    match Finalise(s, l, att, clock, b)
    case Done(t, _) => t
    case Refused(_) => s
  }

  ghost predicate Emptied(s: State, b: BountyId) {
    ViewAt(s, b).escrow == 0 && ViewAt(s, b).bonds == map[]
  }

  lemma ClosedStaysEmptied(s: State, l: Balances, att: A.State, clock: Clock, b: BountyId)
    requires b in s.bounties && s.bounties[b].status in {Cancelled, Finalised} && Emptied(s, b)
    ensures Emptied(TryFinalise(s, l, att, clock, b), b)
  {}

  /** The same whatever b's status: the finalise attempt empties b or finds it closed and empty. */
  lemma NothingLeftBehind(s: State, l: Balances, att: A.State, h: u64, b: BountyId, rulings: seq<Ruling>, clock: Clock)
    requires Holds(s, l, att, h) && att.avow.Some? && b in s.bounties && Covers(rulings, b, ViewAt(s, b).bonds)
    requires h <= clock.rollup && Ripe(ViewAt(s, b), clock)
    ensures s.bounties[b].board in att.schemas
    ensures var v := ResolveEach(s, l, att, att.schemas[s.bounties[b].board].owner, b, rulings);
            v.Done? && Emptied(TryFinalise(v.state, v.funds, att, clock, b), b)
  {
    NothingStranded(s, l, att, h, b, rulings, clock);
    var v := ResolveEach(s, l, att, att.schemas[s.bounties[b].board].owner, b, rulings);
    ResolveEachSucceeds(s, l, att, h, b, rulings);
    assert ViewAt(v.state, b).record == ViewAt(s, b).record;
    match s.bounties[b].status
    case Cancelled => ClosedStaysEmptied(v.state, v.funds, att, clock, b);
    case Finalised => ClosedStaysEmptied(v.state, v.funds, att, clock, b);
    case _ =>
  }

  /** A ripe height always comes, unless the last dispute window runs to the end of the height range. */
  lemma RipensIff(v: View, h: u64, genesisDa: Option<u64>)
    requires Good(v, h) && v.record.Some?
    ensures (exists n: u64 :: n >= h && Ripe(v, Clock(genesisDa, n)))
       <==> v.latest == 0 || v.latest + v.record.value.window < U64_MAX
  {
    var end: u64 := U64_MAX;
    if v.latest == 0 || v.latest + v.record.value.window < U64_MAX {
      assert Ripe(v, Clock(genesisDa, end));
    }
  }

  // ----- The poster's own way out -----

  /** With no dispute open the poster can cancel any expired, unfinished bounty, whatever its claims and windows. */
  lemma ExpiredCancelSucceeds(s: State, l: Balances, att: A.State, clock: Clock, b: BountyId)
    requires Holds(s, l, att, clock.rollup) && att.avow.Some? && b in s.bounties
    requires clock.DaHeight() >= s.bounties[b].expiry && s.bounties[b].status in {Open, Exhausted, Expired}
    ensures var v := Cancel(s, l, att, clock, s.bounties[b].poster, b);
            v.Done? && ViewAt(v.state, b) == ClosedView(ViewAt(s, b), Expired)
  {
    RefundPaid(s, l, b);
    SumBounds<BountyId, nat>(s.escrow, Same, b);
    CancelMoves(s, l, att, clock, s.bounties[b].poster, b, b);
  }

  function TryCancel(s: State, l: Balances, att: A.State, clock: Clock, sender: Address, b: BountyId): State {
    match Cancel(s, l, att, clock, sender, b)
    case Done(t, _) => t
    case Refused(_) => s
  }

  lemma ClosedStaysEmptiedByCancel(s: State, l: Balances, att: A.State, clock: Clock, sender: Address, b: BountyId)
    requires b in s.bounties && s.bounties[b].status in {Cancelled, Finalised} && Emptied(s, b)
    ensures Emptied(TryCancel(s, l, att, clock, sender, b), b)
  {}

  /** Rulings, expiry and the poster's cancel empty a bounty always, with no condition on windows. */
  lemma PosterEmpties(s: State, l: Balances, att: A.State, h: u64, b: BountyId, rulings: seq<Ruling>, clock: Clock)
    requires Holds(s, l, att, h) && att.avow.Some? && b in s.bounties && Covers(rulings, b, ViewAt(s, b).bonds)
    requires h <= clock.rollup && clock.DaHeight() >= s.bounties[b].expiry
    ensures s.bounties[b].board in att.schemas
    ensures var v := ResolveEach(s, l, att, att.schemas[s.bounties[b].board].owner, b, rulings);
            v.Done? && Emptied(TryCancel(v.state, v.funds, att, clock, s.bounties[b].poster, b), b)
  {
    ResolveEachSucceeds(s, l, att, h, b, rulings);
    var v := ResolveEach(s, l, att, att.schemas[s.bounties[b].board].owner, b, rulings);
    assert ViewAt(v.state, b).record == ViewAt(s, b).record;
    assert Good(ViewAt(s, b), h);
    FrameKeeps(v.state, v.funds, att, h, v.funds, att, clock.rollup);
    match s.bounties[b].status
    case Cancelled => ClosedStaysEmptiedByCancel(v.state, v.funds, att, clock, s.bounties[b].poster, b);
    case Finalised => ClosedStaysEmptiedByCancel(v.state, v.funds, att, clock, s.bounties[b].poster, b);
    case _ => ExpiredCancelSucceeds(v.state, v.funds, att, clock, b);
  }

  // ----- Disputing -----

  /** Disputing succeeds exactly on a settled, undisputed claim inside its window, for a sender who holds one payout. */
  lemma DisputeSucceedsIff(s: State, l: Balances, att: A.State, clock: Clock, sender: Address, b: BountyId,
                           a: AttestationId, ground: Ground)
    requires att.avow.Some?
    ensures var key := DisputeKey(b, a);
            DisputeClaim(s, l, att, clock, sender, b, a, ground).Done? <==>
              b in s.bounties && key !in s.disputes && key in s.claimHeight
              && clock.rollup <= SaturatingAdd64(s.claimHeight[key], s.bounties[b].window)
              && s.bounties[b].per <= Balance(l, User(sender))
  {
    if b in s.bounties { PaySingle(l, Transfer(User(sender), ESCROW, s.bounties[b].per)); }
  }

  /** Whatever the bounty's status: an undisputed claim inside its window can be disputed, and that changes the bounty. */
  lemma OpenWindowReopens(s: State, l: Balances, att: A.State, clock: Clock, sender: Address, b: BountyId,
                          x: DisputeKey, ground: Ground)
    requires att.avow.Some? && b in s.bounties && x in ViewAt(s, b).claims && x !in ViewAt(s, b).bonds
    requires clock.rollup <= s.claimHeight[x] + s.bounties[b].window && s.bounties[b].per <= Balance(l, User(sender))
    ensures var v := DisputeClaim(s, l, att, clock, sender, b, x.attestation, ground);
            v.Done? && x in ViewAt(v.state, b).bonds && ViewAt(v.state, b) != ViewAt(s, b)
  {
    assert x == DisputeKey(b, x.attestation);
    DisputeSucceedsIff(s, l, att, clock, sender, b, x.attestation, ground);
    DisputeMoves(s, l, att, clock, sender, b, x.attestation, ground, b);
    var v := DisputeClaim(s, l, att, clock, sender, b, x.attestation, ground);
    assert x in ViewAt(v.state, b).bonds;
  }

  /** Ruling on an open dispute changes the bounty too, whatever its status. */
  lemma RulingReopens(s: State, l: Balances, att: A.State, h: u64, b: BountyId, x: DisputeKey, d: Decision)
    requires Holds(s, l, att, h) && att.avow.Some? && b in s.bounties && x in ViewAt(s, b).bonds
    ensures s.bounties[b].board in att.schemas
    ensures var v := Resolve(s, l, att, att.schemas[s.bounties[b].board].owner, b, x.attestation, d);
            v.Done? && ViewAt(v.state, b) != ViewAt(s, b)
  {
    assert x == DisputeKey(b, x.attestation);
    ResolveSucceeds(s, l, att, h, b, x.attestation, d);
    assert x !in ResolvedView(ViewAt(s, b), x).bonds;
  }

  // ----- Claims -----

  /**
   * A checked batch is paid in full out of its own bounty's escrow. The one refusal left to the bank is the case
   * where the capped product hides an unpayable batch: the bounty then holds exactly 2^128 - 1.
   */
  lemma ClaimNeverOverdraws(s: State, l: Balances, att: A.State, clock: Clock, b: BountyId, claims: ClaimBatch)
    requires Holds(s, l, att, clock.rollup) && att.avow.Some? && claims != [] && b in s.bounties
    requires s.bounties[b].status == Open && clock.DaHeight() < s.bounties[b].expiry
    requires Payouts(att, s.bounties[b], claims).Success?
    ensures var owed, held := |claims| * s.bounties[b].per, Get(s.escrow, b, 0);
            var v := Claim(s, l, att, clock, b, claims);
            && (v.Done? <==> owed <= held)
            && (v.Done? ==> v.state.escrow[b] == held - owed)
            && (owed > held ==> v == Refused(EscrowInsufficient(held, Min(U128_MAX, owed)))
                                || (held == U128_MAX && v == Refused(InsufficientFunds)))
  {
    var r := s.bounties[b];
    var ps := Payouts(att, r, claims).value;
    PayoutsCount(att, r, claims);
    PayoutsAffordable(l, ps, r.per);
    BalanceWithinSupply(l, ESCROW);
    SumBounds<BountyId, nat>(s.escrow, Same, b);
    assert r.per * |ps| == |ps| * r.per;
  }

  // ----- The documented balance -----

  lemma {:induction false} BondsPositive(disputes: map<DisputeKey, Dispute>)
    requires forall x :: x in disputes ==> disputes[x].bond > 0
    ensures Sum<DisputeKey, Dispute>(disputes, BondOf) == 0 <==> disputes == map[]
  {
    if disputes != map[] {
      var x :| x in disputes;
      SumBounds<DisputeKey, Dispute>(disputes, BondOf, x);
    }
  }

  /** The balance is the plain sum of escrows exactly when no dispute is open. */
  lemma BalanceIsEscrowIff(s: State, l: Balances, att: A.State, h: nat)
    requires Holds(s, l, att, h)
    ensures Balance(l, ESCROW) == Sum<BountyId, nat>(s.escrow, Same) <==> s.disputes == map[]
  {
    forall x | x in s.disputes ensures s.disputes[x].bond > 0 {
      assert Good(ViewAt(s, x.bounty), h);
      assert x in ViewAt(s, x.bounty).bonds;
    }
    BondsPositive(s.disputes);
  }

  // ----- Height 0 -----

  /** An unclaimed single-payout bounty, and an attestation that fills it. */
  ghost predicate SinglePayout(s: State, att: A.State, clock: Clock, b: BountyId, a: AttestationId) {
    && b in s.bounties && s.bounties[b].status == Open && s.bounties[b].pool == s.bounties[b].per
    && ViewAt(s, b).claims == map[] && clock.DaHeight() < s.bounties[b].expiry
    && ClaimFault(att, s.bounties[b], a).None?
  }

  lemma UnclaimedView(v: View, h: nat)
    requires Good(v, h) && v.record.Some? && v.claims == map[] && v.record.value.status == Open
    ensures v.latest == 0 && v.bonds == map[] && v.escrow == v.record.value.pool
  {
    assert v.bonds.Keys == {};
  }

  /** Filled by one claim at height 0: whatever the status, nothing left, and a claim dated 0. */
  ghost predicate FilledAtZero(v: View, r: Record, b: BountyId, a: AttestationId, status: Status) {
    && v.record == Some(r.(status := status)) && v.escrow == 0 && v.latest == 0 && v.bonds == map[]
    && v.claims == map[DisputeKey(b, a) := 0]
  }

  lemma SinglePayouts(att: A.State, r: Record, a: AttestationId)
    requires ClaimFault(att, r, a).None?
    ensures Payouts(att, r, [a]) == Success([Payout(a, att.attestations[a].submitter)])
  {
    assert [a][..0] == [];
    assert Payouts(att, r, []) == Success([]);
    var p := Payout(a, att.attestations[a].submitter);
    assert [] + [p] == [p];
  }

  lemma FilledView(v: View, b: BountyId, p: Payout)
    requires Good(v, 0) && v.record.Some? && v.claims == map[] && v.record.value.status == Open
    requires v.record.value.pool == v.record.value.per
    ensures FilledAtZero(ClaimedView(v, b, [p], 0), v.record.value, b, p.attestation, Exhausted)
  {
    UnclaimedView(v, 0);
    assert [p][..0] == [];
    assert StampHeights(v.claims, b, [p], 0) == v.claims[DisputeKey(b, p.attestation) := 0];
  }

  lemma FillingClaim(s: State, l: Balances, att: A.State, clock: Clock, b: BountyId, a: AttestationId)
    requires Holds(s, l, att, 0) && clock.rollup == 0 && att.avow.Some? && SinglePayout(s, att, clock, b, a)
    ensures Claim(s, l, att, clock, b, [a]).Done?
    ensures var v := Claim(s, l, att, clock, b, [a]); FilledAtZero(ViewAt(v.state, b), s.bounties[b], b, a, Exhausted)
  {
    assert Good(ViewAt(s, b), 0);
    UnclaimedView(ViewAt(s, b), 0);
    SinglePayouts(att, s.bounties[b], a);
    ClaimNeverOverdraws(s, l, att, clock, b, [a]);
    ClaimMoves(s, l, att, clock, b, [a], b);
    FilledView(ViewAt(s, b), b, Payout(a, att.attestations[a].submitter));
  }

  /** Payouts and refunds never lower a user's balance. */
  lemma {:induction false} PayoutsKeepUsers(l: Balances, ps: seq<Payout>, per: nat, u: Address)
    requires PayAll(l, PayoutTransfers(ps, per)).Some?
    ensures Balance(PayAll(l, PayoutTransfers(ps, per)).value, User(u)) >= Balance(l, User(u))
    decreases |ps|
  {
    if ps != [] {
      var front, t := ps[..|ps| - 1], Transfer(ESCROW, User(ps[|ps| - 1].attester), per);
      PayAllConcat(l, PayoutTransfers(front, per), [t]);
      PayoutsKeepUsers(l, front, per, u);
      PaySingle(PayAll(l, PayoutTransfers(front, per)).value, t);
    }
  }

  lemma FillingKeepsUsers(s: State, l: Balances, att: A.State, clock: Clock, b: BountyId, claims: ClaimBatch, u: Address)
    requires Claim(s, l, att, clock, b, claims).Done?
    ensures Balance(Claim(s, l, att, clock, b, claims).funds, User(u)) >= Balance(l, User(u))
  {
    PayoutsKeepUsers(l, Payouts(att, s.bounties[b], claims).value, s.bounties[b].per, u);
  }

  /** The finalise call that follows at once: nothing is owed, so no payment is made. */
  lemma FinalisedAtZero(s: State, l: Balances, att: A.State, clock: Clock, r: Record, b: BountyId, a: AttestationId)
    requires Holds(s, l, att, 0) && clock.rollup == 0 && att.avow.Some?
    requires FilledAtZero(ViewAt(s, b), r, b, a, Exhausted)
    ensures Finalise(s, l, att, clock, b).Done? && Finalise(s, l, att, clock, b).funds == l
    ensures FilledAtZero(ViewAt(Finalise(s, l, att, clock, b).state, b), r, b, a, Finalised)
  {
    FinaliseSucceedsIff(s, l, att, clock, b);
    FinaliseMoves(s, l, att, clock, b, b);
  }

  lemma DisputedAtZero(s: State, l: Balances, att: A.State, clock: Clock, r: Record, b: BountyId, a: AttestationId,
                       disputer: Address, ground: Ground)
    requires clock.rollup == 0 && att.avow.Some? && FilledAtZero(ViewAt(s, b), r, b, a, Finalised)
    requires Balance(l, User(disputer)) >= r.per
    ensures var x := DisputeClaim(s, l, att, clock, disputer, b, a, ground);
            x.Done? && b in x.state.bounties && x.state.bounties[b].status == Finalised
            && DisputeKey(b, a) in x.state.disputes
  {
    var key := DisputeKey(b, a);
    assert key in ViewAt(s, b).claims && ViewAt(s, b).claims[key] == 0;
    assert key !in ViewAt(s, b).bonds;
    PaySingle(l, Transfer(User(disputer), ESCROW, r.per));
  }

  /**
   * The sentinel at height 0 in action: every such bounty, filled by one claim at height 0, can be finalised at once
   * and still be disputed afterwards, which leaves a Finalised bounty with an open dispute.
   */
  lemma FinalisedAtZeroReopens(s: State, l: Balances, att: A.State, clock: Clock, b: BountyId, a: AttestationId,
                               disputer: Address, ground: Ground)
    requires Holds(s, l, att, 0) && clock.rollup == 0 && att.avow.Some? && SinglePayout(s, att, clock, b, a)
    requires Balance(l, User(disputer)) >= s.bounties[b].per
    ensures var v := Claim(s, l, att, clock, b, [a]);
            v.Done? && Finalise(v.state, v.funds, att, clock, b).Done?
    ensures var v := Claim(s, l, att, clock, b, [a]);
            var w := Finalise(v.state, v.funds, att, clock, b);
            var x := DisputeClaim(w.state, w.funds, att, clock, disputer, b, a, ground);
            x.Done? && b in x.state.bounties && x.state.bounties[b].status == Finalised
            && DisputeKey(b, a) in x.state.disputes
  {
    var v := Claim(s, l, att, clock, b, [a]);
    FillingClaim(s, l, att, clock, b, a);
    ClaimKeeps(s, l, att, clock, b, [a]);
    FillingKeepsUsers(s, l, att, clock, b, [a], disputer);
    FinalisedAtZero(v.state, v.funds, att, clock, s.bounties[b], b, a);
    var w := Finalise(v.state, v.funds, att, clock, b);
    DisputedAtZero(w.state, w.funds, att, clock, s.bounties[b], b, a, disputer, ground);
  }
}
