/** The AVOW ledger as the three modules see it: balances and `Bank::transfer_from`. */
module Ledger {
  import opened Types
  import opened Sums

  datatype ModuleName = BountyModule | ContractModule

  /** A module's escrow account is never a user's account. */
  datatype Account = User(address: Address) | Module(name: ModuleName)

  type Balances = map<Account, nat>

  datatype Transfer = Transfer(from: Account, to: Account, amount: nat)

  function Balance(l: Balances, a: Account): nat {
    Get(l, a, 0)
  }

  ghost function Total(l: Balances): nat {
    Sum<Account, nat>(l, Same)
  }

  /** One transfer: refused exactly when the sender's balance is short. */
  function Pay(l: Balances, t: Transfer): Option<Balances> {
    if Balance(l, t.from) < t.amount then None
    else
      var l1 := l[t.from := Balance(l, t.from) - t.amount];
      Some(l1[t.to := Balance(l1, t.to) + t.amount])
  }

  /** The transfers of one call, in order; `None` as soon as one is refused. */
  function PayAll(l: Balances, ts: seq<Transfer>): Option<Balances>
    decreases |ts|
  {
    if ts == [] then Some(l)
    else
      match Pay(l, ts[0])
      case None => None
      case Some(l1) => PayAll(l1, ts[1..])
  }

  lemma PaySingle(l: Balances, t: Transfer)
    ensures PayAll(l, [t]) == Pay(l, t)
  {
    assert [t][1..] == [];
    if Pay(l, t).Some? { assert PayAll(Pay(l, t).value, []) == Pay(l, t); }
  }

  function Credits(ts: seq<Transfer>, a: Account): nat {
    if ts == [] then 0 else (if ts[0].to == a then ts[0].amount else 0) + Credits(ts[1..], a)
  }

  function Debits(ts: seq<Transfer>, a: Account): nat {
    if ts == [] then 0 else (if ts[0].from == a then ts[0].amount else 0) + Debits(ts[1..], a)
  }

  /** Setting one account changes the supply by exactly the change of that account. */
  lemma TotalAfterSet(l: Balances, a: Account, n: nat)
    ensures Total(l[a := n]) == Total(l) - Balance(l, a) + n
  {
    if a in l { SumReplace<Account, nat>(l, Same, a, n); } else { SumInsert<Account, nat>(l, Same, a, n); }
  }

  lemma PayFlows(l: Balances, t: Transfer)
    requires Pay(l, t).Some?
    ensures forall a :: Balance(Pay(l, t).value, a) == Balance(l, a) + Credits([t], a) - Debits([t], a)
  {
    assert [t][1..] == [];
  }

  lemma PayConserves(l: Balances, t: Transfer)
    requires Pay(l, t).Some?
    ensures Total(Pay(l, t).value) == Total(l)
  {
    var l1 := l[t.from := Balance(l, t.from) - t.amount];
    TotalAfterSet(l, t.from, Balance(l, t.from) - t.amount);
    TotalAfterSet(l1, t.to, Balance(l1, t.to) + t.amount);
  }

  /** Every completed call moves each balance by exactly its credits less its debits, and mints nothing. */
  lemma {:induction false} PayAllConserves(l: Balances, ts: seq<Transfer>)
    requires PayAll(l, ts).Some?
    ensures Total(PayAll(l, ts).value) == Total(l)
    ensures forall a :: Balance(PayAll(l, ts).value, a) == Balance(l, a) + Credits(ts, a) - Debits(ts, a)
    decreases |ts|
  {
    if ts != [] {
      PayConserves(l, ts[0]);
      PayFlows(l, ts[0]);
      PayAllConserves(Pay(l, ts[0]).value, ts[1..]);
    }
  }

  lemma {:induction false} PayAllConcat(l: Balances, ts: seq<Transfer>, us: seq<Transfer>)
    ensures PayAll(l, ts + us) ==
            if PayAll(l, ts).None? then None else PayAll(PayAll(l, ts).value, us)
    decreases |ts|
  {
    if ts == [] {
      assert ts + us == us;
    } else {
      assert (ts + us)[1..] == ts[1..] + us;
      if Pay(l, ts[0]).Some? { PayAllConcat(Pay(l, ts[0]).value, ts[1..], us); }
    }
  }

  lemma {:induction false} FlowsConcat(ts: seq<Transfer>, us: seq<Transfer>, a: Account)
    ensures Credits(ts + us, a) == Credits(ts, a) + Credits(us, a)
    ensures Debits(ts + us, a) == Debits(ts, a) + Debits(us, a)
  {
    if ts == [] {
      assert ts + us == us;
    } else {
      assert (ts + us)[1..] == ts[1..] + us;
      FlowsConcat(ts[1..], us, a);
    }
  }

  ghost predicate AllFrom(ts: seq<Transfer>, payer: Account) {
    forall t :: t in ts ==> t.from == payer && t.to != payer
  }

  /** Payments out of one account complete exactly when that account can afford their sum. */
  lemma {:induction false} PayAllFromOne(l: Balances, ts: seq<Transfer>, payer: Account)
    requires AllFrom(ts, payer)
    ensures PayAll(l, ts).Some? <==> Debits(ts, payer) <= Balance(l, payer)
    ensures Credits(ts, payer) == 0
    decreases |ts|
  {
    if ts != [] {
      if Pay(l, ts[0]).Some? {
        PayAllFromOne(Pay(l, ts[0]).value, ts[1..], payer);
      } else {
        PayAllFromOne(l, ts[1..], payer);
      }
    }
  }

  /** Payments from one module's account to users. */
  ghost predicate OutOf(ts: seq<Transfer>, name: ModuleName) {
    forall t :: t in ts ==> t.from == Module(name) && t.to.User?
  }

  lemma {:induction false} NoUserDebits(ts: seq<Transfer>, name: ModuleName, a: Address)
    requires OutOf(ts, name)
    ensures Debits(ts, User(a)) == 0
  {
    if ts != [] { NoUserDebits(ts[1..], name, a); }
  }

  /** They raise each user's balance by exactly its credits. */
  lemma OutOfGains(l: Balances, ts: seq<Transfer>, name: ModuleName)
    requires OutOf(ts, name) && PayAll(l, ts).Some?
    ensures forall a :: Balance(PayAll(l, ts).value, User(a)) == Balance(l, User(a)) + Credits(ts, User(a))
  {
    PayAllConserves(l, ts);
    forall a { NoUserDebits(ts, name, a); }
  }

  ghost predicate Avoids(ts: seq<Transfer>, a: Account) {
    forall t :: t in ts ==> t.from != a && t.to != a
  }

  lemma {:induction false} AvoidedAccount(l: Balances, ts: seq<Transfer>, a: Account)
    requires Avoids(ts, a)
    ensures Credits(ts, a) == 0 && Debits(ts, a) == 0
    ensures PayAll(l, ts).Some? ==> Balance(PayAll(l, ts).value, a) == Balance(l, a)
    decreases |ts|
  {
    if ts != [] {
      AvoidedAccount(l, ts[1..], a);
      if Pay(l, ts[0]).Some? { AvoidedAccount(Pay(l, ts[0]).value, ts[1..], a); }
    }
  }

  /** Two completed batches leave the same balances whichever runs first. */
  lemma PaymentsCommute(l: Balances, ts: seq<Transfer>, us: seq<Transfer>)
    requires PayAll(l, ts).Some? && PayAll(PayAll(l, ts).value, us).Some?
    requires PayAll(l, us).Some? && PayAll(PayAll(l, us).value, ts).Some?
    ensures forall a :: Balance(PayAll(PayAll(l, ts).value, us).value, a)
                     == Balance(PayAll(PayAll(l, us).value, ts).value, a)
  {
    PayAllConserves(l, ts);
    PayAllConserves(PayAll(l, ts).value, us);
    PayAllConserves(l, us);
    PayAllConserves(PayAll(l, us).value, ts);
  }

  /** No credited balance can leave the u128 range while the supply is inside it. */
  lemma BalanceWithinSupply(l: Balances, a: Account)
    ensures Balance(l, a) <= Total(l)
  {
    if a in l { SumBounds<Account, nat>(l, Same, a); }
  }

  /** The bank: balances updated in place. */
  class Bank {
    var balances: Balances

    constructor (initial: Balances)
      ensures balances == initial
    {
      balances := initial;
    }

    /** `Bank::transfer_from`: `ok` is false, and nothing moves, when the sender's balance is short. */
    method TransferFrom(from: Account, to: Account, amount: nat) returns (ok: bool)
      modifies this
      ensures ok <==> amount <= Balance(old(balances), from)
      ensures Pay(old(balances), Transfer(from, to, amount)) == if ok then Some(balances) else None
      ensures !ok ==> balances == old(balances)
    {
      var have := Balance(balances, from);
      if have < amount {
        return false;
      }
      balances := balances[from := have - amount];
      balances := balances[to := Balance(balances, to) + amount];
      return true;
    }
  }
}
