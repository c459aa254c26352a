/** Per-poster nonces make bounty and contract ids unique, short of a SHA-256 collision or a saturated nonce. */
module Naming {
  import opened Types
  import opened Ids
  import opened Ledger
  import A = Attestation
  import B = Bounty
  import C = Contract

  /** A nonce the poster has already used; a saturated counter hands out its last value again and again. */
  predicate Used(nonces: map<Address, u64>, poster: Address, n: u64) {
    n < Get(nonces, poster, 0) || n == U64_MAX
  }

  // ----- Bounties -----

  ghost predicate NamesBounty(c: Scheme, s: B.State, b: BountyId, n: u64)
    requires b in s.bounties
  {
    var r := s.bounties[b];
    b == c.bountyId(r.poster, r.board, n) && Used(s.nextNonce, r.poster, n)
  }

  /** Every bounty id was derived from its own poster, board and a used nonce. */
  ghost predicate BountiesNamed(c: Scheme, s: B.State) {
    forall b :: b in s.bounties ==> exists n :: NamesBounty(c, s, b, n)
  }

  lemma PostedBountiesNamed(c: Scheme, s: B.State, r: B.Record)
    requires BountiesNamed(c, s)
    ensures var n := Get(s.nextNonce, r.poster, 0);
            BountiesNamed(c, B.Posted(s, c.bountyId(r.poster, r.board, n), r, n))
  {
    var n: u64 := Get(s.nextNonce, r.poster, 0);
    var id := c.bountyId(r.poster, r.board, n);
    var t := B.Posted(s, id, r, n);
    forall b | b in t.bounties ensures exists k :: NamesBounty(c, t, b, k) {
      if b == id {
        assert NamesBounty(c, t, b, n);
      } else {
        var k :| NamesBounty(c, s, b, k);
        assert NamesBounty(c, t, b, k);
      }
    }
  }

  /** Nonces, ids and what ids were derived from stay put; only statuses may change. */
  ghost predicate NothingRenamed(s: B.State, t: B.State) {
    && t.nextNonce == s.nextNonce && t.bounties.Keys == s.bounties.Keys
    && forall b :: b in s.bounties ==> t.bounties[b] == s.bounties[b].(status := t.bounties[b].status)
  }

  lemma CancelRenamesNothing(s: B.State, l: Balances, att: A.State, clock: Clock, sender: Address, b: BountyId)
    requires B.Cancel(s, l, att, clock, sender, b).Done?
    ensures NothingRenamed(s, B.Cancel(s, l, att, clock, sender, b).state)
  {}

  lemma FinaliseRenamesNothing(s: B.State, l: Balances, att: A.State, clock: Clock, b: BountyId)
    requires B.Finalise(s, l, att, clock, b).Done?
    ensures NothingRenamed(s, B.Finalise(s, l, att, clock, b).state)
  {}

  lemma OtherCallsRename(c: Scheme, s: B.State, l: Balances, att: A.State, clock: Clock, sender: Address, m: B.Message)
    requires !m.PostBounty? && B.Step(c, s, l, att, clock, sender, m).Done?
    ensures NothingRenamed(s, B.Step(c, s, l, att, clock, sender, m).state)
  {
    match m
    case CancelBounty(b) => CancelRenamesNothing(s, l, att, clock, sender, b);
    case FinaliseBounty(b) => FinaliseRenamesNothing(s, l, att, clock, b);
    case _ =>
  }

  lemma BountyStepNamed(c: Scheme, s: B.State, l: Balances, att: A.State, clock: Clock, sender: Address, m: B.Message)
    requires BountiesNamed(c, s) && B.Step(c, s, l, att, clock, sender, m).Done?
    ensures BountiesNamed(c, B.Step(c, s, l, att, clock, sender, m).state)
  {
    var t := B.Step(c, s, l, att, clock, sender, m).state;
    if m.PostBounty? {
      PostedBountiesNamed(c, s, B.Record(sender, m.board, m.pool, m.per, m.acceptance, m.expiry, m.window, B.Open));
    } else {
      OtherCallsRename(c, s, l, att, clock, sender, m);
      forall b | b in t.bounties ensures exists k :: NamesBounty(c, t, b, k) {
        var k :| NamesBounty(c, s, b, k);
        assert NamesBounty(c, t, b, k);
      }
    }
  }

  /** `DuplicateBounty` exhibits either a saturated poster nonce or two colliding preimages. */
  lemma DuplicateBountyNeedsCollision(c: Crypto, s: B.State, l: Balances, att: A.State, clock: Clock, sender: Address,
                                      m: B.Message)
    requires BountiesNamed(Sha256Scheme(c), s) && m.PostBounty?
    requires B.Step(Sha256Scheme(c), s, l, att, clock, sender, m) == B.Refused(B.DuplicateBounty)
    ensures Get(s.nextNonce, sender, 0) == U64_MAX
         || exists b, n :: b in s.bounties && Collides(c, BountyPreimage(sender, m.board, Get(s.nextNonce, sender, 0)),
                                                       BountyPreimage(s.bounties[b].poster, s.bounties[b].board, n))
  {
    var nonce: u64 := Get(s.nextNonce, sender, 0);
    var b := Sha256Scheme(c).bountyId(sender, m.board, nonce);
    var n :| NamesBounty(Sha256Scheme(c), s, b, n);
    var r := s.bounties[b];
    BountyPreimageIdentifies(sender, m.board, nonce, r.poster, r.board, n);
    var p, q := BountyPreimage(sender, m.board, nonce), BountyPreimage(r.poster, r.board, n);
    assert BountyId(c.sha256(p)) == BountyId(c.sha256(q));
    if p != q { assert Collides(c, p, q); }
  }

  // ----- Contracts -----

  ghost predicate NamesContract(c: Scheme, s: C.State, id: ContractId, n: u64)
    requires id in s.contracts
  {
    var r := s.contracts[id];
    id == c.contractId(r.poster, r.criteria, n) && Used(s.nextNonce, r.poster, n)
  }

  /** Every contract id was derived from its own poster, criteria document and a used nonce. */
  ghost predicate ContractsNamed(c: Scheme, s: C.State) {
    forall id :: id in s.contracts ==> exists n :: NamesContract(c, s, id, n)
  }

  lemma PostedContractsNamed(c: Scheme, s: C.State, r: C.Record)
    requires ContractsNamed(c, s)
    ensures var n := Get(s.nextNonce, r.poster, 0);
            ContractsNamed(c, C.Posted(s, c.contractId(r.poster, r.criteria, n), r, n))
  {
    var n: u64 := Get(s.nextNonce, r.poster, 0);
    var id := c.contractId(r.poster, r.criteria, n);
    var t := C.Posted(s, id, r, n);
    forall x | x in t.contracts ensures exists k :: NamesContract(c, t, x, k) {
      if x == id {
        assert NamesContract(c, t, x, n);
      } else {
        var k :| NamesContract(c, s, x, k);
        assert NamesContract(c, t, x, k);
      }
    }
  }

  lemma ContractStepNamed(c: Scheme, s: C.State, l: Balances, att: A.State, clock: Clock, sender: Address, m: C.Message)
    requires ContractsNamed(c, s) && C.Step(c, s, l, att, clock, sender, m).Done?
    ensures ContractsNamed(c, C.Step(c, s, l, att, clock, sender, m).state)
  {
    var t := C.Step(c, s, l, att, clock, sender, m).state;
    if m.PostContract? {
      PostedContractsNamed(c, s, C.Record(sender, m.arbiter, m.criteria, m.pool, m.expiry, m.window, m.bps, C.Open));
    } else {
      forall x | x in t.contracts ensures exists k :: NamesContract(c, t, x, k) {
        var k :| NamesContract(c, s, x, k);
        assert NamesContract(c, t, x, k);
      }
    }
  }

  /** `DuplicateContract` exhibits either a saturated poster nonce or two colliding preimages. */
  lemma DuplicateContractNeedsCollision(c: Crypto, s: C.State, l: Balances, att: A.State, clock: Clock, sender: Address,
                                        m: C.Message)
    requires ContractsNamed(Sha256Scheme(c), s) && m.PostContract?
    requires C.Step(Sha256Scheme(c), s, l, att, clock, sender, m) == C.Refused(C.DuplicateContract)
    ensures Get(s.nextNonce, sender, 0) == U64_MAX
         || exists x, n :: x in s.contracts
              && Collides(c, ContractPreimage(sender, m.criteria, Get(s.nextNonce, sender, 0)),
                          ContractPreimage(s.contracts[x].poster, s.contracts[x].criteria, n))
  {
    var nonce: u64 := Get(s.nextNonce, sender, 0);
    var x := Sha256Scheme(c).contractId(sender, m.criteria, nonce);
    var n :| NamesContract(Sha256Scheme(c), s, x, n);
    var r := s.contracts[x];
    ContractPreimageIdentifies(sender, m.criteria, nonce, r.poster, r.criteria, n);
    var p, q := ContractPreimage(sender, m.criteria, nonce), ContractPreimage(r.poster, r.criteria, n);
    assert ContractId(c.sha256(p)) == ContractId(c.sha256(q));
    if p != q { assert Collides(c, p, q); }
  }
}
