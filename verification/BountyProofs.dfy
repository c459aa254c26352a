/** Every bounty call keeps the module's invariants. */
module BountyProofs {
  import opened Types
  import opened Sums
  import opened Ledger
  import opened Bounty
  import opened BountyBooks
  import A = Attestation

  // ----- The reverse index -----

  /** Whether b belongs on the list of `board`. */
  predicate Shown(bounties: map<BountyId, Record>, board: SchemaId, b: BountyId) {
    b in bounties && bounties[b].board == board && Active(bounties[b])
  }

  lemma {:induction false} LiveSame(posted: seq<BountyId>, before: map<BountyId, Record>, after: map<BountyId, Record>,
                                    board: SchemaId)
    requires forall b :: b in posted ==> Shown(before, board, b) == Shown(after, board, b)
    ensures Live(posted, before, board) == Live(posted, after, board)
    decreases |posted|
  {
    if posted != [] {
      var last := posted[|posted| - 1];
      LiveSame(posted[..|posted| - 1], before, after, board);
      assert Shown(before, board, last) == Shown(after, board, last);
    }
  }

  lemma WithoutLast(ids: seq<BountyId>, x: BountyId, b: BountyId)
    ensures Without(ids + [x], b) == if x == b then Without(ids, b) else Without(ids, b) + [x]
  {
    assert (ids + [x])[..|ids|] == ids;
  }

  lemma {:induction false} LiveDrops(posted: seq<BountyId>, before: map<BountyId, Record>, after: map<BountyId, Record>,
                                     board: SchemaId, b: BountyId)
    requires forall x :: x in posted ==> Shown(after, board, x) == (Shown(before, board, x) && x != b)
    ensures Live(posted, after, board) == Without(Live(posted, before, board), b)
    decreases |posted|
  {
    if posted != [] {
      var front, last := posted[..|posted| - 1], posted[|posted| - 1];
      LiveDrops(front, before, after, board, b);
      assert Shown(after, board, last) == (Shown(before, board, last) && last != b);
      if Shown(before, board, last) { WithoutLast(Live(front, before, board), last, b); }
    }
  }

  lemma {:induction false} WithoutShrinks(ids: seq<BountyId>, b: BountyId)
    ensures |Without(ids, b)| <= |ids|
    ensures b !in Without(ids, b)
    ensures b !in ids ==> Without(ids, b) == ids
    decreases |ids|
  {
    if ids != [] {
      WithoutShrinks(ids[..|ids| - 1], b);
      if b !in ids { assert ids == ids[..|ids| - 1] + [ids[|ids| - 1]]; }
    }
  }

  /** What being the live subsequence means: exactly the shown bounties, each once. */
  lemma {:induction false} LiveMembers(posted: seq<BountyId>, bounties: map<BountyId, Record>, board: SchemaId)
    requires NoRepeats(posted)
    ensures NoRepeats(Live(posted, bounties, board))
    ensures forall b :: b in Live(posted, bounties, board) <==> b in posted && Shown(bounties, board, b)
    decreases |posted|
  {
    if posted != [] {
      var front, last := posted[..|posted| - 1], posted[|posted| - 1];
      LiveMembers(front, bounties, board);
      assert posted == front + [last];
      assert last !in front;
    }
  }

  /** So a board's open list holds exactly its Open and Exhausted bounties, each once, at most 1024 of them. */
  lemma IndexLists(s: State, k: Books, board: SchemaId)
    requires PostedOnce(s, k) && Indexed(s, k)
    ensures var open := Get(s.openBySchema, board, []);
            && NoRepeats(open) && |open| <= MAX_OPEN_BOUNTIES_PER_SCHEMA
            && forall b :: b in open <==> b in s.bounties && s.bounties[b].board == board && Active(s.bounties[b])
  {
    LiveMembers(k.posted, s.bounties, board);
    assert forall b :: b in Live(k.posted, s.bounties, board) <==> b in k.posted && Shown(s.bounties, board, b);
  }

  // ----- One bounty through each kind of call -----

  function PostedView(r: Record): View {
    View(Some(r), r.pool, 0, 0, 0, map[], map[], 0)
  }

  lemma PostedViewGood(r: Record, h: nat)
    requires r.status == Open && 0 < r.per <= r.pool
    ensures Good(PostedView(r), h) && Exact(PostedView(r))
  {}

  function ClaimedView(v: View, b: BountyId, ps: seq<Payout>, h: nat): View
    requires v.record.Some?
  {
    var r := v.record.value;
    var left := SaturatingSub(v.escrow, |ps| * r.per);
    v.(escrow := left, payouts := v.payouts + |ps|, claims := StampHeights(v.claims, b, ps, h),
       latest := if h > v.latest then h else v.latest,
       record := Some(if left < r.per then r.(status := Exhausted) else r))
  }

  predicate Paid(ps: seq<Payout>, a: AttestationId) {
    exists p :: p in ps && p.attestation == a
  }

  /** A batch stamps exactly its own claims with the current height. */
  lemma {:induction false} StampsExactly(heights: map<DisputeKey, nat>, b: BountyId, ps: seq<Payout>, h: nat)
    ensures var now := StampHeights(heights, b, ps, h);
            && (forall x :: x in now <==> x in heights || (x.bounty == b && Paid(ps, x.attestation)))
            && (forall x :: x in now ==> now[x] == if x.bounty == b && Paid(ps, x.attestation) then h else heights[x])
    decreases |ps|
  {
    if ps != [] {
      var front, last := ps[..|ps| - 1], ps[|ps| - 1];
      StampsExactly(heights, b, front, h);
      assert ps == front + [last];
      forall a ensures Paid(ps, a) <==> Paid(front, a) || a == last.attestation {
        if Paid(ps, a) { var p :| p in ps && p.attestation == a; assert p in front || p == last; }
        if Paid(front, a) { var p :| p in front && p.attestation == a; assert p in ps; }
        if a == last.attestation { assert last in ps; }
      }
    }
  }

  lemma ClaimedViewTimed(v: View, b: BountyId, ps: seq<Payout>, h: nat)
    requires v.record.Some? && Timed(v, h) && ps != []
    ensures var w := ClaimedView(v, b, ps, h);
            Timed(w, h) && w.claims != map[] && w.latest == h && v.claims.Keys <= w.claims.Keys
  {
    StampsExactly(v.claims, b, ps, h);
    var w := ClaimedView(v, b, ps, h);
    var key := DisputeKey(b, ps[0].attestation);
    assert ps[0] in ps && Paid(ps, key.attestation);
    assert key in w.claims && w.claims[key] == h;
  }

  lemma ClaimedViewGood(v: View, b: BountyId, ps: seq<Payout>, h: nat)
    requires Good(v, h) && v.record.Some? && v.record.value.status == Open && ps != []
    requires |ps| * v.record.value.per <= v.escrow
    ensures Good(ClaimedView(v, b, ps, h), h)
    ensures Exact(v) ==> Exact(ClaimedView(v, b, ps, h))
    ensures h > 0 ==> Dated(ClaimedView(v, b, ps, h))
  {
    ClaimedViewTimed(v, b, ps, h);
    assert (v.payouts + |ps|) * v.record.value.per == v.payouts * v.record.value.per + |ps| * v.record.value.per;
  }

  function DisputedView(v: View, key: DisputeKey, d: Dispute): View {
    v.(bonds := v.bonds[key := d], open := SaturatingAdd32(v.open, 1))
  }

  lemma DisputedViewGood(v: View, h: nat, key: DisputeKey, d: Dispute)
    requires Good(v, h) && v.record.Some? && key in v.claims && key !in v.bonds && d.bond == v.record.value.per
    ensures Good(DisputedView(v, key, d), h)
    ensures Exact(v) && !SealedShut(v) && |DisputedView(v, key, d).bonds| <= U32_MAX ==>
              Exact(DisputedView(v, key, d))
  {
    assert v.bonds[key := d].Keys == v.bonds.Keys + {key};
    assert |v.bonds[key := d]| == |v.bonds| + 1;
  }

  function ResolvedView(v: View, key: DisputeKey): View {
    v.(bonds := v.bonds - {key}, open := SaturatingSub(v.open, 1))
  }

  lemma ResolvedViewGood(v: View, h: nat, key: DisputeKey)
    requires Good(v, h) && key in v.bonds
    ensures Good(ResolvedView(v, key), h)
    ensures Exact(v) ==> Exact(ResolvedView(v, key))
  {
    assert (v.bonds - {key}).Keys == v.bonds.Keys - {key};
    assert |v.bonds - {key}| == |v.bonds| - 1;
  }

  function ClosedView(v: View, status: Status): View
    requires v.record.Some?
  {
    v.(escrow := 0, refunds := v.refunds + v.escrow, record := Some(v.record.value.(status := status)))
  }

  lemma ClosedViewGood(v: View, h: nat, status: Status)
    requires Good(v, h) && v.record.Some? && status in {Expired, Cancelled, Finalised}
    requires status == Cancelled ==> v.payouts == 0
    requires status == Finalised && Dated(v) ==> WindowsOver(v.record.value, v, h)
    ensures Good(ClosedView(v, status), h)
    ensures Exact(v) && (status == Finalised ==> v.open == 0) ==> Exact(ClosedView(v, status))
  {}

  // ----- Which views a call changes -----

  lemma SliceUpdate<V>(m: map<DisputeKey, V>, key: DisputeKey, value: V, b: BountyId)
    ensures SliceOf(m[key := value], b) == if b == key.bounty then SliceOf(m, b)[key := value] else SliceOf(m, b)
  {}

  lemma SliceRemove<V>(m: map<DisputeKey, V>, key: DisputeKey, b: BountyId)
    ensures SliceOf(m - {key}, b) == if b == key.bounty then SliceOf(m, b) - {key} else SliceOf(m, b)
  {}

  lemma {:induction false} SliceStamped(m: map<DisputeKey, nat>, b: BountyId, ps: seq<Payout>, h: nat, x: BountyId)
    ensures SliceOf(StampHeights(m, b, ps, h), x) == if x == b then StampHeights(SliceOf(m, b), b, ps, h) else SliceOf(m, x)
    decreases |ps|
  {
    if ps != [] {
      var front, key := ps[..|ps| - 1], DisputeKey(b, ps[|ps| - 1].attestation);
      SliceStamped(m, b, front, h, x);
      SliceUpdate(StampHeights(m, b, front, h), key, h, x);
    }
  }

  lemma PostedViews(s: State, k: Books, h: nat, id: BountyId, r: Record, nonce: u64, x: BountyId)
    requires id !in s.bounties && Good(ViewOf(s, k, id), h)
    ensures ViewOf(Posted(s, id, r, nonce), Ingest(k, BountyPosted(id, r.poster, r.pool)), x)
         == if x == id then PostedView(r) else ViewOf(s, k, x)
  {}

  lemma ClaimedViews(s: State, k: Books, b: BountyId, ps: seq<Payout>, h: nat, x: BountyId)
    requires b in s.bounties && ps != []
    ensures ViewOf(Claimed(s, b, ps, |ps| * s.bounties[b].per, h), ClaimedBooks(k, b, |ps|, s.bounties[b].per), x)
         == if x == b then ClaimedView(ViewOf(s, k, b), b, ps, h) else ViewOf(s, k, x)
  {
    SliceStamped(s.claimHeight, b, ps, h, x);
  }

  lemma DisputedViews(s: State, k: Books, key: DisputeKey, d: Dispute, e: Event, x: BountyId)
    requires e == BountyDisputed(key.bounty, key.attestation, d.disputer, d.bond)
    ensures ViewOf(Disputed(s, key, d), Ingest(k, e), x)
         == if x == key.bounty then DisputedView(ViewOf(s, k, x), key, d) else ViewOf(s, k, x)
  {
    SliceUpdate(s.disputes, key, d, x);
  }

  lemma ResolvedViews(s: State, k: Books, key: DisputeKey, decision: Decision, recipient: Address, e: Event, x: BountyId)
    requires e == DisputeResolved(key.bounty, key.attestation, decision, recipient)
    ensures ViewOf(Resolved(s, key, decision, recipient), Ingest(k, e), x)
         == if x == key.bounty then ResolvedView(ViewOf(s, k, x), key) else ViewOf(s, k, x)
  {
    SliceRemove(s.disputes, key, x);
  }

  /** The event of a closing call that returns `amount` to the poster of b. */
  ghost predicate Returns(e: Event, b: BountyId, amount: nat) {
    e == BountyExpired(b, amount) || e == BountyFinalised(b, amount)
  }

  lemma ClosedViews(s: State, k: Books, b: BountyId, status: Status, e: Event, x: BountyId)
    requires b in s.bounties && Returns(e, b, Get(s.escrow, b, 0))
    ensures ViewOf(Closed(s, b, status, e), Ingest(k, e), x)
         == if x == b then ClosedView(ViewOf(s, k, b), status) else ViewOf(s, k, x)
  {}

  // ----- The reverse index through each kind of call -----

  lemma LiveAppend(posted: seq<BountyId>, id: BountyId, bounties: map<BountyId, Record>, board: SchemaId)
    ensures Live(posted + [id], bounties, board)
         == if Shown(bounties, board, id) then Live(posted, bounties, board) + [id] else Live(posted, bounties, board)
  {
    assert (posted + [id])[..|posted|] == posted;
  }

  lemma PostedIndexed(s: State, k: Books, id: BountyId, r: Record, nonce: u64, m: Books)
    requires PostedOnce(s, k) && Indexed(s, k) && id !in s.bounties && r.status == Open && m.posted == k.posted + [id]
    requires |Get(s.openBySchema, r.board, [])| < MAX_OPEN_BOUNTIES_PER_SCHEMA
    ensures Indexed(Posted(s, id, r, nonce), m)
  {
    var t := Posted(s, id, r, nonce);
    forall board ensures Get(t.openBySchema, board, []) == Live(m.posted, t.bounties, board)
                 ensures |Get(t.openBySchema, board, [])| <= MAX_OPEN_BOUNTIES_PER_SCHEMA
    {
      LiveAppend(k.posted, id, t.bounties, board);
      LiveSame(k.posted, s.bounties, t.bounties, board);
    }
  }

  /** A change of records that shows the same bounties on every board keeps the index right. */
  lemma SameShownIndexed(s: State, k: Books, t: State, m: Books)
    requires Indexed(s, k) && t.openBySchema == s.openBySchema && m.posted == k.posted
    requires forall board, b :: Shown(s.bounties, board, b) == Shown(t.bounties, board, b)
    ensures Indexed(t, m)
  {
    forall board ensures Live(m.posted, t.bounties, board) == Live(k.posted, s.bounties, board) {
      LiveSame(k.posted, s.bounties, t.bounties, board);
    }
  }

  lemma ClosedIndexed(s: State, k: Books, b: BountyId, status: Status, e: Event, m: Books)
    requires Indexed(s, k) && b in s.bounties && status in {Expired, Cancelled, Finalised} && m.posted == k.posted
    ensures Indexed(Closed(s, b, status, e), m)
  {
    var t, board := Closed(s, b, status, e), s.bounties[b].board;
    forall x ensures Get(t.openBySchema, x, []) == Live(m.posted, t.bounties, x)
             ensures |Get(t.openBySchema, x, [])| <= MAX_OPEN_BOUNTIES_PER_SCHEMA
    {
      if x == board {
        LiveDrops(k.posted, s.bounties, t.bounties, x, b);
        WithoutShrinks(Get(s.openBySchema, x, []), b);
      } else {
        LiveSame(k.posted, s.bounties, t.bounties, x);
      }
    }
  }

  // ----- The whole invariant through each kind of call -----

  lemma PostedAllGood(s: State, k: Books, h: nat, id: BountyId, r: Record, nonce: u64)
    requires AllGood(s, k, h) && id !in s.bounties && r.status == Open && 0 < r.per <= r.pool
    ensures AllGood(Posted(s, id, r, nonce), Ingest(k, BountyPosted(id, r.poster, r.pool)), h)
  {
    PostedViewGood(r, h);
    forall x ensures Good(ViewOf(Posted(s, id, r, nonce), Ingest(k, BountyPosted(id, r.poster, r.pool)), x), h) {
      PostedViews(s, k, h, id, r, nonce, x);
    }
  }

  lemma PostedSound(s: State, k: Books, funds: nat, h: nat, att: A.State, id: BountyId, r: Record, nonce: u64)
    requires Sound(s, k, funds, h, att) && id !in s.bounties && r.status == Open && 0 < r.per <= r.pool
    requires r.board in att.schemas && |Get(s.openBySchema, r.board, [])| < MAX_OPEN_BOUNTIES_PER_SCHEMA
    ensures Sound(Posted(s, id, r, nonce), Ingest(k, BountyPosted(id, r.poster, r.pool)), funds + r.pool, h, att)
  {
    var t, m := Posted(s, id, r, nonce), Ingest(k, BountyPosted(id, r.poster, r.pool));
    PostedIndexed(s, k, id, r, nonce, m);
    SumInsert<BountyId, nat>(s.escrow, Same, id, r.pool);
    PostedAllGood(s, k, h, id, r, nonce);
  }

  /** Lowering one bounty's escrow and paying out the difference keeps the books balanced. */
  lemma EscrowLowered(s: State, t: State, funds: nat, b: BountyId, left: nat)
    requires Solvent(s, funds) && b in s.escrow && left <= s.escrow[b]
    requires t.escrow == s.escrow[b := left] && t.disputes == s.disputes
    ensures s.escrow[b] - left <= funds && Solvent(t, funds - (s.escrow[b] - left))
  {
    SumReplace<BountyId, nat>(s.escrow, Same, b, left);
    SumBounds<BountyId, nat>(s.escrow, Same, b);
  }

  lemma ClaimedAllGood(s: State, k: Books, h: nat, b: BountyId, ps: seq<Payout>)
    requires AllGood(s, k, h) && b in s.bounties && s.bounties[b].status == Open && ps != []
    requires |ps| * s.bounties[b].per <= Get(s.escrow, b, 0)
    ensures AllGood(Claimed(s, b, ps, |ps| * s.bounties[b].per, h), ClaimedBooks(k, b, |ps|, s.bounties[b].per), h)
  {
    var t, m := Claimed(s, b, ps, |ps| * s.bounties[b].per, h), ClaimedBooks(k, b, |ps|, s.bounties[b].per);
    forall x ensures Good(ViewOf(t, m, x), h) {
      ClaimedViews(s, k, b, ps, h, x);
      if x == b { ClaimedViewGood(ViewOf(s, k, b), b, ps, h); }
    }
  }

  lemma ClaimedSound(s: State, k: Books, funds: nat, h: nat, att: A.State, b: BountyId, ps: seq<Payout>)
    requires Sound(s, k, funds, h, att) && b in s.bounties
    requires s.bounties[b].status == Open && ps != [] && |ps| * s.bounties[b].per <= Get(s.escrow, b, 0)
    ensures |ps| * s.bounties[b].per <= funds
    ensures Sound(Claimed(s, b, ps, |ps| * s.bounties[b].per, h), ClaimedBooks(k, b, |ps|, s.bounties[b].per),
                  funds - |ps| * s.bounties[b].per, h, att)
  {
    var paid := |ps| * s.bounties[b].per;
    var t, m := Claimed(s, b, ps, paid, h), ClaimedBooks(k, b, |ps|, s.bounties[b].per);
    SameShownIndexed(s, k, t, m);
    EscrowLowered(s, t, funds, b, s.escrow[b] - paid);
    ClaimedAllGood(s, k, h, b, ps);
  }

  lemma DisputeViewsUpdate(disputes: map<DisputeKey, Dispute>, key: DisputeKey, d: Dispute)
    ensures DisputeViews(disputes[key := d]) == DisputeViews(disputes)[key := DisputeView(d)]
    ensures DisputeViews(disputes - {key}) == DisputeViews(disputes) - {key}
  {}

  lemma DisputedSound(s: State, k: Books, funds: nat, h: nat, att: A.State, key: DisputeKey, d: Dispute, e: Event)
    requires Sound(s, k, funds, h, att) && key !in s.disputes && key in s.claimHeight
    requires key.bounty in s.bounties && d.bond == s.bounties[key.bounty].per
    requires e == BountyDisputed(key.bounty, key.attestation, d.disputer, d.bond)
    ensures Sound(Disputed(s, key, d), Ingest(k, e), funds + d.bond, h, att)
  {
    var t, m := Disputed(s, key, d), Ingest(k, e);
    SumInsert<DisputeKey, Dispute>(s.disputes, BondOf, key, d);
    DisputeViewsUpdate(s.disputes, key, d);
    SameShownIndexed(s, k, t, m);
    forall x ensures Good(ViewOf(t, m, x), h) {
      DisputedViews(s, k, key, d, e, x);
      if x == key.bounty { DisputedViewGood(ViewOf(s, k, x), h, key, d); }
    }
  }

  lemma ResolvedSound(s: State, k: Books, funds: nat, h: nat, att: A.State, key: DisputeKey, decision: Decision,
                      recipient: Address, e: Event)
    requires Sound(s, k, funds, h, att) && key in s.disputes
    requires e == DisputeResolved(key.bounty, key.attestation, decision, recipient)
    ensures s.disputes[key].bond <= funds
    ensures Sound(Resolved(s, key, decision, recipient), Ingest(k, e), funds - s.disputes[key].bond, h, att)
  {
    var t, m := Resolved(s, key, decision, recipient), Ingest(k, e);
    SumRemove<DisputeKey, Dispute>(s.disputes, BondOf, key);
    DisputeViewsUpdate(s.disputes, key, s.disputes[key]);
    SameShownIndexed(s, k, t, m);
    forall x ensures Good(ViewOf(t, m, x), h) {
      ResolvedViews(s, k, key, decision, recipient, e, x);
      if x == key.bounty { ResolvedViewGood(ViewOf(s, k, x), h, key); }
    }
  }

  lemma ClosedAllGood(s: State, k: Books, h: nat, b: BountyId, status: Status, e: Event)
    requires AllGood(s, k, h) && b in s.bounties && status in {Expired, Cancelled, Finalised}
    requires status == Cancelled ==> Get(k.payouts, b, 0) == 0
    requires status == Finalised && Dated(ViewOf(s, k, b)) ==> WindowsOver(s.bounties[b], ViewOf(s, k, b), h)
    requires Returns(e, b, Get(s.escrow, b, 0))
    ensures AllGood(Closed(s, b, status, e), Ingest(k, e), h)
  {
    var t, m := Closed(s, b, status, e), Ingest(k, e);
    forall x ensures Good(ViewOf(t, m, x), h) {
      ClosedViews(s, k, b, status, e, x);
      if x == b { ClosedViewGood(ViewOf(s, k, b), h, status); }
    }
  }

  lemma ClosedMatched(s: State, k: Books, b: BountyId, status: Status, e: Event)
    requires Matched(s, k) && b in s.bounties && b in s.escrow && Returns(e, b, s.escrow[b])
    ensures Matched(Closed(s, b, status, e), Ingest(k, e))
    ensures Closed(s, b, status, e).escrow == s.escrow[b := 0] && Ingest(k, e).posted == k.posted
  {}

  lemma ClosedSound(s: State, k: Books, funds: nat, h: nat, att: A.State, b: BountyId, status: Status, e: Event)
    requires Sound(s, k, funds, h, att) && b in s.bounties && status in {Expired, Cancelled, Finalised}
    requires status == Cancelled ==> Get(k.payouts, b, 0) == 0
    requires status == Finalised && Dated(ViewOf(s, k, b)) ==> WindowsOver(s.bounties[b], ViewOf(s, k, b), h)
    requires Returns(e, b, Get(s.escrow, b, 0))
    ensures Get(s.escrow, b, 0) <= funds
    ensures Sound(Closed(s, b, status, e), Ingest(k, e), funds - Get(s.escrow, b, 0), h, att)
  {
    var t, m := Closed(s, b, status, e), Ingest(k, e);
    ClosedIndexed(s, k, b, status, e, m);
    ClosedMatched(s, k, b, status, e);
    EscrowLowered(s, t, funds, b, 0);
    ClosedAllGood(s, k, h, b, status, e);
  }
}
