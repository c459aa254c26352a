/** Canonical byte layouts and the identifiers hashed from them. */
module Ids {
  import opened Types

  // ----- Little-endian integers -----

  function Power256(width: nat): nat {
    if width == 0 then 1 else 256 * Power256(width - 1)
  }

  function LittleEndian(n: nat, width: nat): (b: Bytes)
    ensures |b| == width
  {
    if width == 0 then [] else [n % 256] + LittleEndian(n / 256, width - 1)
  }

  lemma {:induction false} LittleEndianInjective(m: nat, n: nat, width: nat)
    requires m < Power256(width) && n < Power256(width)
    requires LittleEndian(m, width) == LittleEndian(n, width)
    ensures m == n
  {
    if width > 0 {
      var a, b := LittleEndian(m, width), LittleEndian(n, width);
      assert a[0] == b[0] && a[1..] == b[1..];
      assert a[1..] == LittleEndian(m / 256, width - 1) && b[1..] == LittleEndian(n / 256, width - 1);
      LittleEndianInjective(m / 256, n / 256, width - 1);
    }
  }

  /** The number a little-endian byte string stands for. */
  function Value(b: Bytes): nat {
    if b == [] then 0 else b[0] + 256 * Value(b[1..])
  }

  /** Least significant byte first: reading the bytes back gives the number. */
  lemma {:induction false} LittleEndianReads(n: nat, width: nat)
    requires n < Power256(width)
    ensures Value(LittleEndian(n, width)) == n
  {
    if width > 0 {
      LittleEndianReads(n / 256, width - 1);
      assert LittleEndian(n, width)[1..] == LittleEndian(n / 256, width - 1);
    }
  }

  lemma LittleEndian64Injective(m: u64, n: u64)
    requires LittleEndian(m, 8) == LittleEndian(n, 8)
    ensures m == n
  {
    assert Power256(8) == 256 * (256 * (256 * (256 * (256 * (256 * (256 * (256 * Power256(0))))))));
    LittleEndianInjective(m, n, 8);
  }

  /** Two byte strings with tails of one length agree exactly when head and tail agree. */
  lemma SplitTail(a: Bytes, b: Bytes, c: Bytes, d: Bytes)
    requires |b| == |d| && a + b == c + d
    ensures a == c && b == d
  {
    assert |a| == |c|;
    assert a == (a + b)[..|a|] && c == (c + d)[..|c|];
    assert b == (a + b)[|a|..] && d == (c + d)[|c|..];
  }

  // ----- The canonical member order of an attestor set -----

  /** Lexicographic order of byte strings. */
  predicate AtMost(a: Bytes, b: Bytes) {
    a == [] || (b != [] && (a[0] < b[0] || (a[0] == b[0] && AtMost(a[1..], b[1..]))))
  }

  /** The order is lexicographic: equal, or smaller at the first byte that differs, or a proper prefix. */
  lemma {:induction false} AtMostIsLexicographic(a: Bytes, b: Bytes)
    ensures AtMost(a, b) <==>
              a <= b || exists k: nat :: SmallerAt(a, b, k)
  {
    if a != [] && b != [] {
      var c, d := a[1..], b[1..];
      AtMostIsLexicographic(c, d);
      assert a == [a[0]] + c && b == [b[0]] + d;
      if a[0] == b[0] {
        if k: nat :| SmallerAt(c, d, k) {
          assert a[..k + 1] == [a[0]] + c[..k] && b[..k + 1] == [b[0]] + d[..k];
          var next := k + 1;
          assert SmallerAt(a, b, next);
        }
        if k: nat :| SmallerAt(a, b, k) {
          assert a[..k][1..] == c[..k - 1] && b[..k][1..] == d[..k - 1];
          var last: nat := k - 1;
          assert SmallerAt(c, d, last);
        }
      } else if a[0] < b[0] {
        assert SmallerAt(a, b, 0);
      } else {
        forall k: nat ensures !SmallerAt(a, b, k) { SmallerHead(a, b, k); }
      }
    }
  }

  lemma SmallerHead(a: Bytes, b: Bytes, k: nat)
    requires a != [] && b != []
    ensures SmallerAt(a, b, k) ==> a[0] <= b[0]
  {
    if SmallerAt(a, b, k) && k > 0 { assert a[..k][0] == b[..k][0]; }
  }

  ghost predicate SmallerAt(a: Bytes, b: Bytes, k: nat) {
    k < |a| && k < |b| && a[..k] == b[..k] && a[k] < b[k]
  }

  lemma {:induction false} AtMostTotal(a: Bytes, b: Bytes)
    ensures AtMost(a, b) || AtMost(b, a)
  {
    if a != [] && b != [] { AtMostTotal(a[1..], b[1..]); }
  }

  lemma {:induction false} AtMostAntisymmetric(a: Bytes, b: Bytes)
    requires AtMost(a, b) && AtMost(b, a)
    ensures a == b
  {
    if a != [] && b != [] {
      AtMostAntisymmetric(a[1..], b[1..]);
      assert a == [a[0]] + a[1..] && b == [b[0]] + b[1..];
    }
  }

  lemma {:induction false} AtMostTransitive(a: Bytes, b: Bytes, c: Bytes)
    requires AtMost(a, b) && AtMost(b, c)
    ensures AtMost(a, c)
  {
    if a != [] && a[0] == b[0] == c[0] { AtMostTransitive(a[1..], b[1..], c[1..]); }
  }

  ghost predicate Sorted(ms: seq<PubKey>) {
    forall i, j :: 0 <= i < j < |ms| ==> AtMost(ms[i].key, ms[j].key)
  }

  function Insert(m: PubKey, ms: seq<PubKey>): (r: seq<PubKey>)
    ensures multiset(r) == multiset{m} + multiset(ms)
    ensures |r| == |ms| + 1
  {
    if ms == [] then [m]
    else if AtMost(m.key, ms[0].key) then [m] + ms
    else
      assert ms == [ms[0]] + ms[1..];
      [ms[0]] + Insert(m, ms[1..])
  }

  /** `sort_unstable_by` on the raw key bytes. */
  function Sort(ms: seq<PubKey>): (r: seq<PubKey>)
    ensures multiset(r) == multiset(ms)
    ensures |r| == |ms|
  {
    if ms == [] then []
    else
      assert ms == [ms[0]] + ms[1..];
      Insert(ms[0], Sort(ms[1..]))
  }

  lemma {:induction false} InsertSorted(m: PubKey, ms: seq<PubKey>)
    requires Sorted(ms)
    ensures Sorted(Insert(m, ms))
  {
    if ms != [] {
      var r := Insert(m, ms);
      if AtMost(m.key, ms[0].key) {
        forall j | 0 < j < |r| ensures AtMost(r[0].key, r[j].key) {
          if j > 1 { AtMostTransitive(m.key, ms[0].key, ms[j - 1].key); }
        }
      } else {
        AtMostTotal(m.key, ms[0].key);
        InsertSorted(m, ms[1..]);
        var tail := Insert(m, ms[1..]);
        forall j | 0 < j < |r| ensures AtMost(r[0].key, r[j].key) {
          assert r[j] == tail[j - 1] && tail[j - 1] in multiset(tail);
          assert tail[j - 1] == m || tail[j - 1] in ms[1..];
        }
      }
    }
  }

  lemma {:induction false} SortSorts(ms: seq<PubKey>)
    ensures Sorted(Sort(ms))
  {
    if ms != [] {
      SortSorts(ms[1..]);
      InsertSorted(ms[0], Sort(ms[1..]));
    }
  }

  lemma SortedHead(a: seq<PubKey>, m: PubKey)
    requires Sorted(a) && m in a
    ensures AtMost(a[0].key, m.key)
  {
    var i :| 0 <= i < |a| && a[i] == m;
    if i == 0 { AtMostTotal(m.key, m.key); }
  }

  lemma {:induction false} SortedUnique(a: seq<PubKey>, b: seq<PubKey>)
    requires Sorted(a) && Sorted(b) && multiset(a) == multiset(b)
    ensures a == b
    decreases |a|
  {
    assert |multiset(a)| == |a| && |multiset(b)| == |b|;
    if a != [] {
      assert a[0] in multiset(b) && b[0] in multiset(a);
      SortedHead(a, b[0]);
      SortedHead(b, a[0]);
      AtMostAntisymmetric(a[0].key, b[0].key);
      assert a == [a[0]] + a[1..] && b == [b[0]] + b[1..];
      assert multiset(a[1..]) == multiset(a) - multiset{a[0]};
      assert multiset(b[1..]) == multiset(b) - multiset{b[0]};
      SortedUnique(a[1..], b[1..]);
    }
  }

  /** Sorting forgets exactly the order. */
  lemma SortCanonical(a: seq<PubKey>, b: seq<PubKey>)
    ensures Sort(a) == Sort(b) <==> multiset(a) == multiset(b)
    ensures Sort(Sort(a)) == Sort(a)
  {
    SortSorts(a);
    SortSorts(b);
    SortSorts(Sort(a));
    SortedUnique(Sort(Sort(a)), Sort(a));
    if multiset(a) == multiset(b) { SortedUnique(Sort(a), Sort(b)); }
  }

  function Flatten(ms: seq<PubKey>): (b: Bytes)
    ensures |b| == 32 * |ms|
  {
    if ms == [] then [] else ms[0].key + Flatten(ms[1..])
  }

  lemma {:induction false} FlattenInjective(a: seq<PubKey>, b: seq<PubKey>)
    requires Flatten(a) == Flatten(b)
    ensures a == b
    decreases |a|
  {
    if a != [] {
      assert Flatten(a)[..32] == a[0].key && Flatten(b)[..32] == b[0].key;
      assert Flatten(a)[32..] == Flatten(a[1..]) && Flatten(b)[32..] == Flatten(b[1..]);
      FlattenInjective(a[1..], b[1..]);
      assert a == [a[0]] + a[1..] && b == [b[0]] + b[1..];
    }
  }

  // ----- Preimages -----

  function SetPreimage(members: seq<PubKey>, threshold: u8): Bytes {
    Flatten(Sort(members)) + [threshold]
  }

  function SchemaPreimage(owner: Address, name: Bytes, version: u32): Bytes {
    owner.bytes + name + LittleEndian(version, 4)
  }

  function AttestationPreimage(schema: SchemaId, payload: PayloadHash): Bytes {
    schema.hash + payload.hash
  }

  function BountyPreimage(poster: Address, board: SchemaId, nonce: u64): Bytes {
    poster.bytes + board.hash + LittleEndian(nonce, 8)
  }

  function ContractPreimage(poster: Address, criteria: Bytes32, nonce: u64): Bytes {
    poster.bytes + criteria + LittleEndian(nonce, 8)
  }

  /** The variant byte of an address: 0 for the 28-byte standard form, 1 for the 20-byte EVM form. */
  function AddressTag(a: Address): u8 {
    if |a.bytes| == 20 then 1 else 0
  }

  /** The signed payload: ids, tagged submitter, timestamp. */
  function SignedPreimage(schema: SchemaId, payload: PayloadHash, submitter: Address, timestamp: u64): Bytes {
    schema.hash + payload.hash + [AddressTag(submitter)] + submitter.bytes + LittleEndian(timestamp, 8)
  }

  /** Every identifier and digest of the chain, hashed from its canonical layout. */
  function Sha256Scheme(c: Crypto): Scheme {
    Scheme(
      (members: seq<PubKey>, threshold: u8) => AttestorSetId(c.sha256(SetPreimage(members, threshold))),
      (owner: Address, name: Bytes, version: u32) => SchemaId(c.sha256(SchemaPreimage(owner, name, version))),
      (schema: SchemaId, payload: PayloadHash) => AttestationId(c.sha256(AttestationPreimage(schema, payload))),
      (poster: Address, board: SchemaId, nonce: u64) => BountyId(c.sha256(BountyPreimage(poster, board, nonce))),
      (poster: Address, criteria: Bytes32, nonce: u64) => ContractId(c.sha256(ContractPreimage(poster, criteria, nonce))),
      (schema: SchemaId, payload: PayloadHash, submitter: Address, timestamp: u64) =>
        c.sha256(SignedPreimage(schema, payload, submitter, timestamp)),
      c.isPoint, c.verify)
  }

  /** An explicit SHA-256 collision. */
  ghost predicate Collides(c: Crypto, p: Bytes, q: Bytes) {
    p != q && c.sha256(p) == c.sha256(q)
  }

  // ----- What each layout identifies -----

  lemma SetPreimageIdentifies(a: seq<PubKey>, s: u8, b: seq<PubKey>, t: u8)
    ensures SetPreimage(a, s) == SetPreimage(b, t) <==> multiset(a) == multiset(b) && s == t
  {
    SortCanonical(a, b);
    if SetPreimage(a, s) == SetPreimage(b, t) {
      SplitTail(Flatten(Sort(a)), [s], Flatten(Sort(b)), [t]);
      assert [s][0] == [t][0];
      FlattenInjective(Sort(a), Sort(b));
    }
  }

  /** The documented preimage: Borsh puts the member count in front as four bytes. */
  function BorshSetPreimage(members: seq<PubKey>, threshold: u8): Bytes {
    LittleEndian(|members|, 4) + Flatten(Sort(members)) + [threshold]
  }

  /** It is never the hashed one, on any input: the code leaves the count out. */
  lemma SetPreimageIsNotBorsh(members: seq<PubKey>, threshold: u8)
    ensures |BorshSetPreimage(members, threshold)| == |SetPreimage(members, threshold)| + 4
    ensures BorshSetPreimage(members, threshold)[4..] == SetPreimage(members, threshold)
  {
    assert BorshSetPreimage(members, threshold)
        == LittleEndian(|members|, 4) + (Flatten(Sort(members)) + [threshold]);
  }

  /** Set ids depend on the multiset of members and the threshold only. */
  lemma SetIdIgnoresOrder(c: Crypto, a: seq<PubKey>, b: seq<PubKey>, t: u8)
    requires multiset(a) == multiset(b)
    ensures Sha256Scheme(c).setId(a, t) == Sha256Scheme(c).setId(b, t)
  {
    SetPreimageIdentifies(a, t, b, t);
  }

  /** They separate any two such pairs, short of an explicit collision. */
  lemma SetIdSeparates(c: Crypto, a: seq<PubKey>, s: u8, b: seq<PubKey>, t: u8)
    requires Sha256Scheme(c).setId(a, s) == Sha256Scheme(c).setId(b, t)
    ensures (multiset(a) == multiset(b) && s == t) || Collides(c, SetPreimage(a, s), SetPreimage(b, t))
  {
    SetPreimageIdentifies(a, s, b, t);
    var p, q := SetPreimage(a, s), SetPreimage(b, t);
    assert AttestorSetId(c.sha256(p)) == AttestorSetId(c.sha256(q));
  }

  lemma BountyPreimageIdentifies(p: Address, s: SchemaId, m: u64, q: Address, t: SchemaId, n: u64)
    ensures BountyPreimage(p, s, m) == BountyPreimage(q, t, n) <==> p == q && s == t && m == n
  {
    if BountyPreimage(p, s, m) == BountyPreimage(q, t, n) {
      SplitTail(p.bytes + s.hash, LittleEndian(m, 8), q.bytes + t.hash, LittleEndian(n, 8));
      SplitTail(p.bytes, s.hash, q.bytes, t.hash);
      LittleEndian64Injective(m, n);
    }
  }

  lemma ContractPreimageIdentifies(p: Address, s: Bytes32, m: u64, q: Address, t: Bytes32, n: u64)
    ensures ContractPreimage(p, s, m) == ContractPreimage(q, t, n) <==> p == q && s == t && m == n
  {
    if ContractPreimage(p, s, m) == ContractPreimage(q, t, n) {
      SplitTail(p.bytes + s, LittleEndian(m, 8), q.bytes + t, LittleEndian(n, 8));
      SplitTail(p.bytes, s, q.bytes, t);
      LittleEndian64Injective(m, n);
    }
  }

  lemma AttestationPreimageIdentifies(s: SchemaId, p: PayloadHash, t: SchemaId, q: PayloadHash)
    ensures AttestationPreimage(s, p) == AttestationPreimage(t, q) <==> s == t && p == q
  {
    if AttestationPreimage(s, p) == AttestationPreimage(t, q) { SplitTail(s.hash, p.hash, t.hash, q.hash); }
  }

  /** Equal attestation ids mean the same schema and payload, or an explicit collision. */
  lemma AttestationIdSeparates(c: Crypto, s: SchemaId, p: PayloadHash, t: SchemaId, q: PayloadHash)
    requires Sha256Scheme(c).attestationId(s, p) == Sha256Scheme(c).attestationId(t, q)
    ensures (s == t && p == q) || Collides(c, AttestationPreimage(s, p), AttestationPreimage(t, q))
  {
    AttestationPreimageIdentifies(s, p, t, q);
    assert AttestationId(c.sha256(AttestationPreimage(s, p))) == AttestationId(c.sha256(AttestationPreimage(t, q)));
  }

  /** Equal schema ids of owners of one length mean the same schema, or an explicit collision. */
  lemma SchemaIdSeparates(c: Crypto, o: Address, m: Bytes, v: u32, p: Address, n: Bytes, w: u32)
    requires |o.bytes| == |p.bytes| && Sha256Scheme(c).schemaId(o, m, v) == Sha256Scheme(c).schemaId(p, n, w)
    ensures (o == p && m == n && v == w) || Collides(c, SchemaPreimage(o, m, v), SchemaPreimage(p, n, w))
  {
    SchemaPreimageIdentifies(o, m, v, p, n, w);
    assert SchemaId(c.sha256(SchemaPreimage(o, m, v))) == SchemaId(c.sha256(SchemaPreimage(p, n, w)));
  }

  /** Equal digests mean the same submission, or an explicit collision: a signature covers exactly one. */
  lemma DigestSeparates(c: Crypto, s: SchemaId, p: PayloadHash, a: Address, m: u64,
                        t: SchemaId, q: PayloadHash, b: Address, n: u64)
    requires Sha256Scheme(c).digest(s, p, a, m) == Sha256Scheme(c).digest(t, q, b, n)
    ensures (s == t && p == q && a == b && m == n)
         || Collides(c, SignedPreimage(s, p, a, m), SignedPreimage(t, q, b, n))
  {
    SignedPreimageIdentifies(s, p, a, m, t, q, b, n);
  }

  lemma SignedPreimageIdentifies(s: SchemaId, p: PayloadHash, a: Address, m: u64,
                                 t: SchemaId, q: PayloadHash, b: Address, n: u64)
    ensures SignedPreimage(s, p, a, m) == SignedPreimage(t, q, b, n) <==> s == t && p == q && a == b && m == n
  {
    var x, y := SignedPreimage(s, p, a, m), SignedPreimage(t, q, b, n);
    if x == y {
      SplitTail(s.hash + p.hash + [AddressTag(a)] + a.bytes, LittleEndian(m, 8),
                t.hash + q.hash + [AddressTag(b)] + b.bytes, LittleEndian(n, 8));
      LittleEndian64Injective(m, n);
      assert s.hash == x[..32] && t.hash == y[..32];
      assert p.hash == x[32..64] && q.hash == y[32..64];
      assert a.bytes == x[65..|x| - 8] && b.bytes == y[65..|y| - 8];
    }
  }

  /** Owners of one length: the schema id layout identifies its three parts. */
  lemma SchemaPreimageIdentifies(o: Address, m: Bytes, v: u32, p: Address, n: Bytes, w: u32)
    requires |o.bytes| == |p.bytes|
    ensures SchemaPreimage(o, m, v) == SchemaPreimage(p, n, w) <==> o == p && m == n && v == w
  {
    if SchemaPreimage(o, m, v) == SchemaPreimage(p, n, w) {
      SplitTail(o.bytes + m, LittleEndian(v, 4), p.bytes + n, LittleEndian(w, 4));
      assert o.bytes == (o.bytes + m)[..|o.bytes|] && p.bytes == (p.bytes + n)[..|p.bytes|];
      assert m == (o.bytes + m)[|o.bytes|..] && n == (p.bytes + n)[|p.bytes|..];
      assert Power256(4) == 256 * (256 * (256 * (256 * Power256(0))));
      LittleEndianInjective(v, w, 4);
    }
  }

  /** Owners of different lengths: some name of each gives one preimage, so the fixed length is needed. */
  lemma SchemaPreimageNeedsFixedOwner(o: Address, p: Address, v: u32)
    requires |o.bytes| < |p.bytes| && o.bytes == p.bytes[..|o.bytes|]
    ensures SchemaPreimage(o, p.bytes[|o.bytes|..], v) == SchemaPreimage(p, [], v)
  {
    assert o.bytes + p.bytes[|o.bytes|..] == p.bytes + [];
  }
}
