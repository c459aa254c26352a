/** The contract lifecycle as a language, and calls on different contracts in either order. */
module ContractLifecycle {
  import opened Types
  import opened Ledger
  import opened Contract
  import opened ContractBooks
  import opened ContractProofs
  import opened ContractSafety
  import A = Attestation

  // ----- The language of event logs -----

  datatype Kind = P | C | D | A | R | S | X | Z

  function KindOf(e: Event): Kind {
    match e
    case ContractPosted(_, _, _, _) => P
    case WorkerCommitted(_, _, _, _) => C
    case ContractDelivered(_, _, _) => D
    case DeliveryAccepted(_, _, _) => A
    case DeliveryRejected(_, _, _) => R
    case ContractDisputeResolved(_, _, _) => S
    case ContractExpired(_, _) => X
    case ContractCancelled(_, _) => Z
  }

  function Kinds(history: seq<Event>): seq<Kind> {
    if history == [] then [] else Kinds(history[..|history| - 1]) + [KindOf(history[|history| - 1])]
  }

  function Repeated(n: nat): seq<Kind> {
    seq(n, _ => C)
  }

  /** Posted, n commits, then `tail`. */
  function Word(n: nat, tail: seq<Kind>): seq<Kind> {
    [P] + Repeated(n) + tail
  }

  predicate Ending(n: nat, tail: seq<Kind>) {
    if n == 0 then tail in {[Z], [X]} else tail in {[X], [D, A], [D, X], [D, R, S], [D, R, X]}
  }

  /** Posted (Cancelled | Expired | Committed+ (Expired | Delivered (Accepted | Expired | Rejected (Resolved | Expired)))) */
  ghost predicate Lifecycle(w: seq<Kind>) {
    exists n, tail :: Ending(n, tail) && w == Word(n, tail)
  }

  ghost predicate Begun(w: seq<Kind>) {
    exists full :: Lifecycle(full) && w <= full
  }

  /** What an automaton state says about the part of the word after the commits. */
  predicate Fits(p: Phase, n: nat, tail: seq<Kind>) {
    match p
    case Unposted => false
    case Broken => false
    case At(Open) => n == 0 && tail == []
    case At(Committed) => n > 0 && tail == []
    case At(Delivered) => n > 0 && tail == [D]
    case At(Disputed) => n > 0 && tail == [D, R]
    case At(Accepted) => n > 0 && tail in {[D, A], [D, R, S]}
    case At(Rejected) => n > 0 && tail == [D, R, S]
    case At(Cancelled) => n == 0 && tail == [Z]
    case At(Expired) => Ending(n, tail) && tail[|tail| - 1] == X
  }

  /** A phase with the words that lead to it. */
  ghost predicate Reaches(p: Phase, w: seq<Kind>) {
    if p == Unposted then w == []
    else exists n, tail :: Fits(p, n, tail) && w == Word(n, tail)
  }

  lemma WordGrows(n: nat, tail: seq<Kind>, k: Kind)
    ensures Word(n, tail) + [k] == if tail == [] && k == C then Word(n + 1, []) else Word(n, tail + [k])
  {
    if tail == [] && k == C { assert Repeated(n + 1) == Repeated(n) + [C]; }
  }

  lemma FitsGrows(p: Phase, n: nat, tail: seq<Kind>, e: Event)
    requires Fits(p, n, tail) && Advance(p, e) != Broken
    ensures if tail == [] && KindOf(e) == C then Fits(Advance(p, e), n + 1, [])
            else Fits(Advance(p, e), n, tail + [KindOf(e)])
  {
    var k := KindOf(e);
    assert [] + [k] == [k] && [D] + [k] == [D, k] && [D, R] + [k] == [D, R, k];
  }

  /** The automaton accepts only such words. */
  lemma {:induction false} TraceReaches(history: seq<Event>)
    requires Trace(history) != Broken
    ensures Reaches(Trace(history), Kinds(history))
    decreases |history|
  {
    if history != [] {
      var front, e := history[..|history| - 1], history[|history| - 1];
      TraceReaches(front);
      if front == [] {
        assert Kinds(history) == Word(0, []);
        assert Fits(At(Open), 0, []);
      } else {
        var n, tail :| Fits(Trace(front), n, tail) && Kinds(front) == Word(n, tail);
        WordGrows(n, tail, KindOf(e));
        FitsGrows(Trace(front), n, tail, e);
      }
    }
  }

  lemma BegunBy(n: nat, tail: seq<Kind>, m: nat, rest: seq<Kind>)
    requires Ending(m, rest) && ((m == n && tail <= rest) || (m == n + 1 && tail == []))
    ensures Begun(Word(n, tail))
  {
    assert Lifecycle(Word(m, rest));
    assert Word(n, tail) <= Word(m, rest);
  }

  /** Every such word can be completed. */
  lemma ReachesBegun(p: Phase, w: seq<Kind>)
    requires Reaches(p, w) && p != Broken
    ensures Begun(w)
    ensures p.At? && Terminal(p.status) ==> Lifecycle(w)
  {
    if p == Unposted {
      assert Lifecycle(Word(0, [X]));
      assert w <= Word(0, [X]);
    } else {
      var n, tail :| Fits(p, n, tail) && w == Word(n, tail);
      match p.status
      case Open => BegunBy(n, tail, 0, [X]);
      case Committed => BegunBy(n, tail, n, [X]);
      case Delivered => BegunBy(n, tail, n, [D, A]);
      case Disputed => BegunBy(n, tail, n, [D, R, X]);
      case _ => BegunBy(n, tail, n, tail);
    }
  }

  lemma WordAt(n: nat, tail: seq<Kind>, i: nat)
    requires i < |Word(n, tail)|
    ensures Word(n, tail)[i] == if i == 0 then P else if i <= n then C else tail[i - n - 1]
  {}

  /** Two words that agree as far as the shorter goes have the same commits, or the shorter is still committing. */
  lemma PrefixParts(n: nat, tail: seq<Kind>, m: nat, rest: seq<Kind>)
    requires Word(n, tail) <= Word(m, rest) && Ending(m, rest) && (tail == [] || tail[0] != C)
    ensures (n == m && tail <= rest) || (n < m && tail == [])
  {
    assert |Word(n, tail)| == 1 + n + |tail| && |Word(m, rest)| == 1 + m + |rest|;
    if n > m { WordAt(n, tail, m + 1); WordAt(m, rest, m + 1); }
    if n < m && tail != [] { WordAt(n, tail, n + 1); WordAt(m, rest, n + 1); }
    if n == m {
      assert Word(n, tail)[n + 1..] == tail && Word(m, rest)[m + 1..] == rest;
      assert Word(n, tail) == Word(m, rest)[..|Word(n, tail)|];
      assert tail == rest[..|tail|];
    }
  }

  lemma NextByCases(p: Phase, n: nat, tail: seq<Kind>, e: Event, rest: seq<Kind>)
    requires Fits(p, n, tail) && Ending(n, rest) && |tail| < |rest|
    requires tail == rest[..|tail|] && KindOf(e) == rest[|tail|]
    ensures Advance(p, e) != Broken
  {
    assert rest == [Z] || rest == [X] || rest == [D, A] || rest == [D, X] || rest == [D, R, S] || rest == [D, R, X];
    if tail != [] { assert rest[0] == tail[0] == D; }
    if |tail| > 1 { assert rest[1] == tail[1]; }
  }

  lemma NextAllowed(p: Phase, n: nat, tail: seq<Kind>, e: Event, m: nat, rest: seq<Kind>)
    requires Fits(p, n, tail) && Ending(m, rest) && Word(n, tail) + [KindOf(e)] <= Word(m, rest)
    ensures Advance(p, e) != Broken
  {
    var k := KindOf(e);
    WordGrows(n, tail, k);
    assert [] + [k] == [k] && [D] + [k] == [D, k] && [D, R] + [k] == [D, R, k];
    if tail == [] && k == C {
      assert p.status in {Open, Committed};
    } else {
      PrefixParts(n, tail + [k], m, rest);
      assert (tail + [k])[|tail|] == k;
      NextByCases(p, n, tail, e, rest);
    }
  }

  /** And accepts every one. */
  lemma {:induction false} BegunTraced(history: seq<Event>)
    requires Begun(Kinds(history))
    ensures Trace(history) != Broken
    decreases |history|
  {
    if history != [] {
      var front, e := history[..|history| - 1], history[|history| - 1];
      var full :| Lifecycle(full) && Kinds(history) <= full;
      var m, rest :| Ending(m, rest) && full == Word(m, rest);
      assert Kinds(front) <= full;
      BegunTraced(front);
      TraceReaches(front);
      if front == [] {
        assert Kinds(history)[0] == full[0] == P;
        assert KindOf(e) == P;
      } else {
        var n, tail :| Fits(Trace(front), n, tail) && Kinds(front) == Word(n, tail);
        NextAllowed(Trace(front), n, tail, e, m, rest);
      }
    }
  }

  /** The event logs the automaton accepts are exactly the prefixes of the lifecycle language. */
  lemma LifecycleLanguage(history: seq<Event>)
    ensures Trace(history) != Broken <==> Begun(Kinds(history))
  {
    if Trace(history) != Broken {
      TraceReaches(history);
      ReachesBegun(Trace(history), Kinds(history));
    } else if Begun(Kinds(history)) {
      BegunTraced(history);
    }
  }

  /** In every sound state each contract's log is such a prefix, and a full word once the contract is terminal. */
  lemma LogsFollowLifecycle(s: State, h: nat, id: ContractId)
    requires AllGood(s, h)
    ensures Begun(Kinds(History(s.log, id)))
    ensures id in s.contracts && Terminal(s.contracts[id].status) ==> Lifecycle(Kinds(History(s.log, id)))
  {
    assert Good(ViewOf(s, id), id, h);
    TraceReaches(History(s.log, id));
    ReachesBegun(Trace(History(s.log, id)), Kinds(History(s.log, id)));
  }
}
