/** Calls on different contracts, in either order. */
module ContractOrder {
  import opened Types
  import opened Ledger
  import opened Contract
  import opened ContractBooks
  import opened ContractProofs
  import opened ContractSafety
  import A = Attestation

  /** Same stored maps; the two event logs may interleave the two calls differently. */
  ghost predicate SameMaps(s: State, t: State) {
    && s.contracts == t.contracts && s.commits == t.commits && s.deliveries == t.deliveries
    && s.disputes == t.disputes && s.escrow == t.escrow && s.nextNonce == t.nextNonce
  }

  ghost predicate SameBalances(l: Balances, m: Balances) {
    forall a :: Balance(l, a) == Balance(m, a)
  }

  lemma KeysLocal(s: State, t: State, id: ContractId, w: Address)
    requires ViewOf(s, id) == ViewOf(t, id)
    ensures KeyOf(id, w) in s.commits <==> KeyOf(id, w) in t.commits
    ensures KeyOf(id, w) in s.commits ==> s.commits[KeyOf(id, w)] == t.commits[KeyOf(id, w)]
  {
    var key := KeyOf(id, w);
    assert key in s.commits <==> key in ViewOf(s, id).commits;
    assert key in t.commits <==> key in ViewOf(t, id).commits;
  }

  lemma RecordsLocal(s: State, t: State, id: ContractId)
    requires ViewOf(s, id) == ViewOf(t, id)
    ensures Find(s.contracts, id) == Find(t.contracts, id) && Get(s.escrow, id, 0) == Get(t.escrow, id, 0)
    ensures Find(s.deliveries, id) == Find(t.deliveries, id) && Find(s.disputes, id) == Find(t.disputes, id)
  {}

  lemma PaymentLocal(s: State, t: State, att: A.State, id: ContractId, w: Address)
    requires ViewOf(s, id) == ViewOf(t, id) && id in s.contracts && id in t.contracts
    ensures PayWorker(s, att, id, w) == PayWorker(t, att, id, w)
  {
    KeysLocal(s, t, id, w);
    RecordsLocal(s, t, id);
  }

  lemma AwardLocal(s: State, t: State, id: ContractId, d: Decision)
    requires ViewOf(s, id) == ViewOf(t, id)
    requires id in s.contracts && id in s.disputes && id in t.contracts && id in t.disputes
    ensures Award(s, id, d) == Award(t, id, d)
  {
    RecordsLocal(s, t, id);
    KeysLocal(s, t, id, s.disputes[id].worker);
  }

  /** The same state with other hashes in its commits. */
  ghost predicate SameButHashes(s: State, t: State) {
    && t == s.(commits := t.commits) && t.commits.Keys == s.commits.Keys
    && forall key :: key in s.commits ==> t.commits[key] == s.commits[key].(hash := t.commits[key].hash)
  }

  /** Commit hashes are stored and announced, and no later call ever reads one: delivering reveals nothing to check. */
  lemma HashesNeverRead(s: State, t: State, att: A.State, clock: Clock, sender: Address, m: Message)
    requires !m.PostContract? && SameButHashes(s, t)
    ensures Decide(s, att, clock, sender, m) == Decide(t, att, clock, sender, m)
  {}

  /** A call on a posted contract reads nothing but that contract. */
  lemma DecideLocal(s: State, t: State, att: A.State, clock: Clock, sender: Address, m: Message)
    requires !m.PostContract? && ViewOf(s, m.id) == ViewOf(t, m.id)
    ensures Decide(s, att, clock, sender, m) == Decide(t, att, clock, sender, m)
  {
    RecordsLocal(s, t, m.id);
    KeysLocal(s, t, m.id, sender);
    if m.id in s.contracts {
      if m.id in s.deliveries { PaymentLocal(s, t, att, m.id, s.deliveries[m.id].worker); }
      if m.ResolveContractDispute? && m.id in s.disputes { AwardLocal(s, t, m.id, m.decision); }
    }
  }

  lemma UpdatesCommute<K, V>(m: map<K, V>, k1: K, v1: V, k2: K, v2: V)
    requires k1 != k2
    ensures m[k1 := v1][k2 := v2] == m[k2 := v2][k1 := v1]
    ensures m[k1 := v1] - {k2} == (m - {k2})[k1 := v1]
    ensures m - {k1} - {k2} == m - {k2} - {k1}
  {}

  lemma CommitsCommute(m: map<CommitKey, Commit>, i: ContractId, a: CommitChange, j: ContractId, b: CommitChange)
    requires i != j
    ensures CommitsAfter(CommitsAfter(m, i, a), j, b) == CommitsAfter(CommitsAfter(m, j, b), i, a)
  {
    match (a, b)
    case (Lock(x), Lock(y)) => UpdatesCommute(m, KeyOf(i, x.worker), x, KeyOf(j, y.worker), y);
    case (Lock(x), Release(w)) => UpdatesCommute(m, KeyOf(i, x.worker), x, KeyOf(j, w), x);
    case (Release(w), Lock(y)) => UpdatesCommute(m, KeyOf(j, y.worker), y, KeyOf(i, w), y);
    case (Release(w), Release(x)) => assert m - {KeyOf(i, w)} - {KeyOf(j, x)} == m - {KeyOf(j, x)} - {KeyOf(i, w)};
    case _ =>
  }

  lemma DisputesCommute(m: map<ContractId, Dispute>, i: ContractId, a: DisputeChange, j: ContractId, b: DisputeChange)
    requires i != j
    ensures DisputesAfter(DisputesAfter(m, i, a), j, b) == DisputesAfter(DisputesAfter(m, j, b), i, a)
  {}

  lemma WritesCommute<V>(m: map<ContractId, V>, i: ContractId, a: Option<V>, j: ContractId, b: Option<V>)
    requires i != j
    ensures Written(Written(m, i, a), j, b) == Written(Written(m, j, b), i, a)
  {
    if a.Some? && b.Some? { UpdatesCommute(m, i, a.value, j, b.value); }
  }

  lemma EnactsCommute(s: State, i: ContractId, e: Effect, j: ContractId, f: Effect)
    requires i != j && i in s.contracts && j in s.contracts
    ensures SameMaps(Enact(Enact(s, i, e), j, f), Enact(Enact(s, j, f), i, e))
  {
    CommitsCommute(s.commits, i, e.commit, j, f.commit);
    DisputesCommute(s.disputes, i, e.dispute, j, f.dispute);
    WritesCommute(s.deliveries, i, e.delivery, j, f.delivery);
    WritesCommute(s.escrow, i, e.escrow, j, f.escrow);
    UpdatesCommute(s.contracts, i, s.contracts[i].(status := e.status), j, s.contracts[j].(status := f.status));
  }

  /**
   * Two non-post calls on different contracts at one height commute: whenever both orders complete they leave the
   * same maps and the same balances, whoever the senders, workers, arbiters and posters are.
   */
  lemma CallsCommute(c: Scheme, s: State, l: Balances, att: A.State, clock: Clock, a: Address, m: Message, b: Address,
                     n: Message)
    requires !m.PostContract? && !n.PostContract? && m.id != n.id
    requires var v := Step(c, s, l, att, clock, a, m); v.Done? && Step(c, v.state, v.funds, att, clock, b, n).Done?
    requires var w := Step(c, s, l, att, clock, b, n); w.Done? && Step(c, w.state, w.funds, att, clock, a, m).Done?
    ensures var v := Step(c, s, l, att, clock, a, m);
            var w := Step(c, s, l, att, clock, b, n);
            var vn, wm := Step(c, v.state, v.funds, att, clock, b, n), Step(c, w.state, w.funds, att, clock, a, m);
            SameMaps(vn.state, wm.state) && SameBalances(vn.funds, wm.funds)
  {
    var v, w := Step(c, s, l, att, clock, a, m), Step(c, s, l, att, clock, b, n);
    CallStep(s, l, att, clock, a, m);
    CallStep(s, l, att, clock, b, n);
    var e, f := Decide(s, att, clock, a, m).value, Decide(s, att, clock, b, n).value;
    EnactViews(s, m.id, e, n.id);
    EnactViews(s, n.id, f, m.id);
    DecideLocal(s, v.state, att, clock, b, n);
    DecideLocal(s, w.state, att, clock, a, m);
    CallStep(v.state, v.funds, att, clock, b, n);
    CallStep(w.state, w.funds, att, clock, a, m);
    EnactsCommute(s, m.id, e, n.id, f);
    PaymentsCommute(l, e.transfers, f.transfers);
  }
}
