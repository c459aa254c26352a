/** Who is paid by each bounty call, and how much. */
module BountyGains {
  import opened Types
  import opened Ledger
  import opened Bounty
  import A = Attestation

  // ----- What a batch is checked for -----

  /** Claim i is the first one that cannot be paid. */
  ghost predicate FirstBadClaim(att: A.State, r: Record, claims: seq<AttestationId>, i: nat) {
    i < |claims| && ClaimFault(att, r, claims[i]).Some?
    && forall j :: 0 <= j < i ==> ClaimFault(att, r, claims[j]).None?
  }

  /** The payouts of a batch: one per claim, in order, each to the attestation's own submitter. */
  ghost predicate PaysEach(att: A.State, claims: seq<AttestationId>, ps: seq<Payout>) {
    |ps| == |claims|
    && forall i :: 0 <= i < |claims| ==>
         claims[i] in att.attestations && ps[i] == Payout(claims[i], att.attestations[claims[i]].submitter)
  }

  /** A batch passes exactly when every claim does, and is refused with the first bad claim's error. */
  lemma {:induction false} BatchVerdict(att: A.State, r: Record, claims: seq<AttestationId>)
    ensures var v := Payouts(att, r, claims);
            if v.Success? then PaysEach(att, claims, v.value)
                               && forall i :: 0 <= i < |claims| ==> ClaimFault(att, r, claims[i]).None?
            else exists i: nat :: FirstBadClaim(att, r, claims, i) && v == Failure(ClaimFault(att, r, claims[i]).value)
    decreases |claims|
  {
    if claims != [] {
      var front := claims[..|claims| - 1];
      BatchVerdict(att, r, front);
      if Payouts(att, r, front).Failure? {
        var i: nat :| FirstBadClaim(att, r, front, i)
                      && Payouts(att, r, front) == Failure(ClaimFault(att, r, front[i]).value);
        assert FirstBadClaim(att, r, claims, i);
      } else if ClaimFault(att, r, claims[|claims| - 1]).Some? {
        assert forall i :: 0 <= i < |front| ==> claims[i] == front[i];
        assert FirstBadClaim(att, r, claims, |claims| - 1);
      }
    }
  }

  // ----- Who gains -----

  /** How many of a batch's payouts go to u. */
  function Wins(ps: seq<Payout>, u: Address): nat {
    if ps == [] then 0 else Wins(ps[..|ps| - 1], u) + if ps[|ps| - 1].attester == u then 1 else 0
  }

  lemma {:induction false} PayoutGains(ps: seq<Payout>, per: nat, u: Address)
    ensures OutOf(PayoutTransfers(ps, per), BountyModule)
    ensures Credits(PayoutTransfers(ps, per), User(u)) == Wins(ps, u) * per
    decreases |ps|
  {
    if ps != [] {
      var front, t := ps[..|ps| - 1], Transfer(ESCROW, User(ps[|ps| - 1].attester), per);
      PayoutGains(front, per, u);
      FlowsConcat(PayoutTransfers(front, per), [t], User(u));
      SingleGain(t, User(u));
      assert (Wins(front, u) + 1) * per == Wins(front, u) * per + per;
    }
  }

  lemma SingleGain(t: Transfer, a: Account)
    ensures Credits([t], a) == if t.to == a then t.amount else 0
  {
    assert [t][1..] == [];
  }

  /** A settled batch gives each user the fixed payout once for every claim it submitted, and nobody anything else. */
  lemma ClaimPays(s: State, l: Balances, att: A.State, clock: Clock, b: BountyId, claims: ClaimBatch, u: Address)
    requires Claim(s, l, att, clock, b, claims).Done?
    ensures b in s.bounties && Payouts(att, s.bounties[b], claims).Success?
    ensures var ps, per := Payouts(att, s.bounties[b], claims).value, s.bounties[b].per;
            && PaysEach(att, claims, ps)
            && Balance(Claim(s, l, att, clock, b, claims).funds, User(u)) == Balance(l, User(u)) + Wins(ps, u) * per
  {
    var ps, per := Payouts(att, s.bounties[b], claims).value, s.bounties[b].per;
    BatchVerdict(att, s.bounties[b], claims);
    PayoutGains(ps, per, u);
    OutOfGains(l, PayoutTransfers(ps, per), BountyModule);
  }

  /** A ruling gives the bond to the disputer when the dispute is accepted, to the poster when it is not. */
  lemma ResolvePays(s: State, l: Balances, att: A.State, sender: Address, b: BountyId, a: AttestationId, d: Decision,
                    u: Address)
    requires Resolve(s, l, att, sender, b, a, d).Done?
    ensures b in s.bounties && DisputeKey(b, a) in s.disputes
    ensures var key := DisputeKey(b, a);
            var to := if d == Accept then s.disputes[key].disputer else s.bounties[b].poster;
            Balance(Resolve(s, l, att, sender, b, a, d).funds, User(u))
            == Balance(l, User(u)) + if u == to then s.disputes[key].bond else 0
  {
    var key := DisputeKey(b, a);
    var to := if d == Accept then s.disputes[key].disputer else s.bounties[b].poster;
    var t := Transfer(ESCROW, User(to), s.disputes[key].bond);
    OutOfGains(l, [t], BountyModule);
    SingleGain(t, User(u));
  }

  lemma RefundGains(s: State, l: Balances, b: BountyId, u: Address)
    requires b in s.bounties && PayAll(l, Refund(s, b)).Some?
    ensures Balance(PayAll(l, Refund(s, b)).value, User(u))
         == Balance(l, User(u)) + if u == s.bounties[b].poster then Get(s.escrow, b, 0) else 0
  {
    OutOfGains(l, Refund(s, b), BountyModule);
    SingleGain(Transfer(ESCROW, User(s.bounties[b].poster), Get(s.escrow, b, 0)), User(u));
  }

  /** Cancelling and finalising return the remaining escrow to the poster and give nobody else anything. */
  lemma ClosingPays(s: State, l: Balances, att: A.State, clock: Clock, sender: Address, b: BountyId, u: Address)
    requires b in s.bounties
    ensures var due := if u == s.bounties[b].poster then Get(s.escrow, b, 0) else 0;
            && (Cancel(s, l, att, clock, sender, b).Done? ==>
                  Balance(Cancel(s, l, att, clock, sender, b).funds, User(u)) == Balance(l, User(u)) + due)
            && (Finalise(s, l, att, clock, b).Done? ==>
                  Balance(Finalise(s, l, att, clock, b).funds, User(u)) == Balance(l, User(u)) + due)
  {
    if PayAll(l, Refund(s, b)).Some? { RefundGains(s, l, b, u); }
  }
}
