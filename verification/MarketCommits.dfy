/** How many workers can commit to one contract at once: any number the supply can bond, and no more. */
module MarketCommits {
  import opened Types
  import opened Ids
  import opened Sums
  import opened Ledger
  import opened Market
  import A = Attestation
  import B = Bounty
  import C = Contract
  import CB = ContractBooks
  import CS = ContractSafety
  import CC = ContractCalls

  // ----- Many funded users -----

  /** The i-th user of the run, at a standard 28-byte address. */
  function Worker(i: nat): Address {
    Address(LittleEndian(i, 28))
  }

  lemma PowerGrows(m: nat, n: nat)
    requires m <= n
    ensures Power256(m) <= Power256(n)
  {
    if m < n { PowerGrows(m, n - 1); }
  }

  lemma SupplyFitsAddresses()
    ensures U128_MAX < Power256(28)
  {
    assert Power256(4) == 0x1_0000_0000 by { assert Power256(4) == 256 * (256 * (256 * (256 * Power256(0)))); }
    PowerFour(4);
    PowerFour(8);
    PowerFour(12);
    PowerGrows(16, 28);
  }

  lemma PowerFour(m: nat)
    ensures Power256(m + 4) == 0x1_0000_0000 * Power256(m)
  {
    assert Power256(m + 1) == 256 * Power256(m);
    assert Power256(m + 2) == 256 * Power256(m + 1);
    assert Power256(m + 3) == 256 * Power256(m + 2);
    assert Power256(m + 4) == 256 * Power256(m + 3);
  }

  lemma WorkersDistinct(i: nat, j: nat)
    requires i <= U128_MAX && j <= U128_MAX && Worker(i) == Worker(j)
    ensures i == j
  {
    SupplyFitsAddresses();
    LittleEndianInjective(i, j, 28);
  }

  lemma KeysDistinct(id: ContractId, i: nat, j: nat)
    requires i <= U128_MAX && j <= U128_MAX && i != j
    ensures C.KeyOf(id, Worker(i)) != C.KeyOf(id, Worker(j))
  {
    if Worker(i) == Worker(j) { WorkersDistinct(i, j); }
    C.CommitKeyInjective(id, Worker(i), id, Worker(j));
  }

  /** One unit for each of the first n users. */
  function Funds(n: nat): Balances {
    if n == 0 then map[] else Funds(n - 1)[User(Worker(n - 1)) := 1]
  }

  lemma {:induction false} FundsHold(n: nat, a: Account)
    ensures a in Funds(n) <==> exists i: nat :: i < n && a == User(Worker(i))
    ensures a in Funds(n) ==> Funds(n)[a] == 1
  {
    if n > 0 {
      FundsHold(n - 1, a);
      if a == User(Worker(n - 1)) {
        var last: nat := n - 1;
        assert a == User(Worker(last));
      }
    }
  }

  lemma {:induction false} FundsTotal(n: nat)
    requires n <= U128_MAX
    ensures Total(Funds(n)) == n
  {
    if n > 0 {
      FundsTotal(n - 1);
      FundsHold(n - 1, User(Worker(n - 1)));
      if User(Worker(n - 1)) in Funds(n - 1) {
        var i: nat :| i < n - 1 && User(Worker(n - 1)) == User(Worker(i));
        WorkersDistinct(i, n - 1);
      }
      SumInsert<Account, nat>(Funds(n - 1), Same, User(Worker(n - 1)), 1);
    }
  }

  lemma FundsOf(n: nat, i: nat)
    requires i < n
    ensures Balance(Funds(n), User(Worker(i))) == 1
  {
    FundsHold(n, User(Worker(i)));
  }

  lemma FundsNoModules(n: nat, name: ModuleName)
    ensures Balance(Funds(n), Module(name)) == 0
  {
    FundsHold(n, Module(name));
  }

  // ----- The run -----

  /** A chain seeded from any valid config, with n workers and a poster, one unit each. */
  function Start(att: A.State, n: nat): World {
    World(Funds(n + 1), att, B.EMPTY, C.EMPTY, Clock(None, 0))
  }

  lemma StartIsGenesis(c: Scheme, cfg: A.Config, att: A.State, n: nat)
    requires A.Seed(c, A.EMPTY, cfg) == Success(att) && n < U128_MAX
    ensures Genesis(c, cfg, Start(att, n))
  {
    FundsTotal(n + 1);
    FundsNoModules(n + 1, BountyModule);
    FundsNoModules(n + 1, ContractModule);
  }

  function Posting(n: nat, criteria: Bytes32): Action {
    CallContract(Worker(n), C.PostContract(Worker(n), criteria, 1, 1, 0, 0))
  }

  function Committing(id: ContractId, hash: Bytes32, k: nat): seq<Action> {
    if k == 0 then [] else Committing(id, hash, k - 1) + [CallContract(Worker(k - 1), C.CommitToContract(id, hash, 1))]
  }

  /** k workers have committed, one unit each; the rest still hold theirs. */
  ghost predicate Bonded(w: World, id: ContractId, n: nat, k: nat) {
    && k <= n && w.att.avow.Some? && id in w.contract.contracts
    && w.contract.contracts[id].status == (if k == 0 then C.Open else C.Committed)
    && |w.contract.commits| == k
    && (forall i: nat :: i < k ==> C.KeyOf(id, Worker(i)) in w.contract.commits)
    && (forall i: nat :: k <= i < n ==> C.KeyOf(id, Worker(i)) !in w.contract.commits)
    && (forall i: nat :: k <= i < n ==> Balance(w.funds, User(Worker(i))) == 1)
  }

  lemma PostsFirst(c: Scheme, att: A.State, n: nat, criteria: Bytes32)
    requires att.avow.Some? && n < U128_MAX
    ensures Bonded(Apply(c, Start(att, n), Posting(n, criteria)), c.contractId(Worker(n), criteria, 0), n, 0)
  {
    var w := Start(att, n);
    PostApplied(c, att, n, criteria);
    forall i: nat | i < n ensures Balance(Apply(c, w, Posting(n, criteria)).funds, User(Worker(i))) == 1 {
      FundsOf(n + 1, i);
      if Worker(i) == Worker(n) { WorkersDistinct(i, n); }
      PaidByOther(w.funds, Worker(n), Worker(i), 1);
    }
  }

  /** A payment into escrow leaves every other user's balance alone. */
  lemma PaidByOther(l: Balances, payer: Address, other: Address, amount: nat)
    requires payer != other && Pay(l, Transfer(User(payer), C.ESCROW, amount)).Some?
    ensures Balance(Pay(l, Transfer(User(payer), C.ESCROW, amount)).value, User(other)) == Balance(l, User(other))
  {}

  lemma PostApplied(c: Scheme, att: A.State, n: nat, criteria: Bytes32)
    requires att.avow.Some?
    ensures var z, id := Apply(c, Start(att, n), Posting(n, criteria)), c.contractId(Worker(n), criteria, 0);
            && Pay(Funds(n + 1), Transfer(User(Worker(n)), C.ESCROW, 1)) == Some(z.funds)
            && z.att == att && id in z.contract.contracts && z.contract.contracts[id].status == C.Open
            && z.contract.commits == map[]
  {
    var w := Start(att, n);
    FundsOf(n + 1, n);
    CC.PostIff(c, C.EMPTY, w.funds, att, w.clock, Worker(n), Worker(n), criteria, 1, 1, 0, 0);
    CC.PostStores(c, C.EMPTY, w.funds, att, w.clock, Worker(n), Worker(n), criteria, 1, 1, 0, 0);
    PaySingle(w.funds, Transfer(User(Worker(n)), C.ESCROW, 1));
  }

  lemma CommitsNext(c: Scheme, w: World, id: ContractId, hash: Bytes32, n: nat, k: nat, z: World)
    requires Bonded(w, id, n, k) && k < n < U128_MAX
    requires z == Apply(c, w, CallContract(Worker(k), C.CommitToContract(id, hash, 1)))
    ensures Bonded(z, id, n, k + 1)
  {
    CC.CommitIff(c, w.contract, w.funds, w.att, w.clock, Worker(k), id, hash, 1);
    CC.CommitStores(c, w.contract, w.funds, w.att, w.clock, Worker(k), id, hash, 1);
    PaySingle(w.funds, Transfer(User(Worker(k)), C.ESCROW, 1));
    assert z.contract.commits.Keys == w.contract.commits.Keys + {C.KeyOf(id, Worker(k))};
    forall i: nat | k + 1 <= i < n
      ensures C.KeyOf(id, Worker(i)) !in z.contract.commits && Balance(z.funds, User(Worker(i))) == 1
    {
      KeysDistinct(id, i, k);
      if Worker(i) == Worker(k) { WorkersDistinct(i, k); }
      PaidByOther(w.funds, Worker(k), Worker(i), 1);
    }
  }

  lemma CommittingLast(c: Scheme, w: World, id: ContractId, hash: Bytes32, k: nat)
    requires k > 0
    ensures Run(c, w, Committing(id, hash, k)) == Apply(c, Run(c, w, Committing(id, hash, k - 1)),
              CallContract(Worker(k - 1), C.CommitToContract(id, hash, 1)))
  {
    var actions := Committing(id, hash, k);
    assert actions[..|actions| - 1] == Committing(id, hash, k - 1);
  }

  lemma CommitsRunNext(c: Scheme, w: World, id: ContractId, hash: Bytes32, n: nat, k: nat)
    requires k < n < U128_MAX && Bonded(Run(c, w, Committing(id, hash, k)), id, n, k)
    ensures Bonded(Run(c, w, Committing(id, hash, k + 1)), id, n, k + 1)
  {
    CommittingLast(c, w, id, hash, k + 1);
    CommitsNext(c, Run(c, w, Committing(id, hash, k)), id, hash, n, k, Run(c, w, Committing(id, hash, k + 1)));
  }

  lemma {:induction false} CommitsRun(c: Scheme, w: World, id: ContractId, hash: Bytes32, n: nat, k: nat)
    requires Bonded(w, id, n, 0) && k <= n < U128_MAX
    ensures Bonded(Run(c, w, Committing(id, hash, k)), id, n, k)
  {
    if k == 0 {
      assert Run(c, w, Committing(id, hash, 0)) == w;
    } else {
      CommitsRun(c, w, id, hash, n, k - 1);
      CommitsRunNext(c, w, id, hash, n, k - 1);
    }
  }

  /** On every chain that boots, for every n below the supply cap, a run from genesis reaches n live commits on one contract. */
  lemma ManyWorkersCommit(c: Scheme, cfg: A.Config, att: A.State, n: nat, criteria: Bytes32, hash: Bytes32)
    requires A.Seed(c, A.EMPTY, cfg) == Success(att) && n < U128_MAX
    ensures Genesis(c, cfg, Start(att, n))
    ensures var id := c.contractId(Worker(n), criteria, 0);
            Bonded(Run(c, Start(att, n), [Posting(n, criteria)] + Committing(id, hash, n)), id, n, n)
  {
    StartIsGenesis(c, cfg, att, n);
    GenesisInvariant(c, cfg, Start(att, n));
    var id := c.contractId(Worker(n), criteria, 0);
    PostsFirst(c, att, n, criteria);
    CommitsRun(c, Apply(c, Start(att, n), Posting(n, criteria)), id, hash, n, n);
    RunFirst(c, Start(att, n), Posting(n, criteria), Committing(id, hash, n));
  }

  // ----- The cap -----

  lemma {:induction false} BondsCount(commits: map<C.CommitKey, C.Commit>)
    requires forall x :: x in commits ==> commits[x].bond > 0
    ensures Sum<C.CommitKey, C.Commit>(commits, CB.BondOf) >= |commits|
    decreases |commits|
  {
    if commits != map[] {
      var x :| x in commits;
      SumRemove<C.CommitKey, C.Commit>(commits, CB.BondOf, x);
      assert (commits - {x}).Keys == commits.Keys - {x};
      BondsCount(commits - {x});
    }
  }

  /** No reachable world has more: while any contract is unfinished, live commits are fewer than 2^128 - 1 in all. */
  lemma CommitsBelowSupply(c: Scheme, cfg: A.Config, w: World, actions: seq<Action>, id: ContractId)
    requires Genesis(c, cfg, w) && id in Run(c, w, actions).contract.contracts
    requires !CB.Terminal(Run(c, w, actions).contract.contracts[id].status)
    ensures |Run(c, w, actions).contract.commits| < U128_MAX
  {
    GenesisInvariant(c, cfg, w);
    RunKeeps(c, w, actions);
    CommitsFit(Run(c, w, actions), id);
  }

  lemma CommitsFit(y: World, id: ContractId)
    requires CS.Holds(y.contract, y.funds, y.clock.rollup) && Total(y.funds) <= U128_MAX
    requires id in y.contract.contracts && !CB.Terminal(y.contract.contracts[id].status)
    ensures |y.contract.commits| < U128_MAX
  {
    forall x | x in y.contract.commits ensures y.contract.commits[x].bond > 0 {
      assert CB.Good(CB.ViewOf(y.contract, x.contract), x.contract, y.clock.rollup);
      assert x in CB.ViewOf(y.contract, x.contract).commits;
    }
    BondsCount(y.contract.commits);
    assert CB.Good(CB.ViewOf(y.contract, id), id, y.clock.rollup);
    SumBounds<ContractId, nat>(y.contract.escrow, Same, id);
    BalanceWithinSupply(y.funds, C.ESCROW);
  }
}
