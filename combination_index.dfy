/**
 * The space of combinations of one template: one index per placeholder, the
 * i-th in `[0, R[i])` where `R[i]` is that placeholder's `index_range`.
 *
 * `ProductSeq` is `itertools.product(range(R[0]), ..., range(R[k-1]))`
 * in the order itertools lists it; `Encode`/`Decode` are the mixed-radix
 * `combination_to_index`/`index_to_combination` pair (first placeholder most
 * significant), and `ProductSeqIndex` shows that the index of a combination
 * is its position in the itertools listing.
 */
module CombinationIndex {

  /** A tuple of choice indexes, one per placeholder, in template order. */
  type Combination = seq<int>

  /** The number of combinations: the product of the ranges, 1 for no placeholders. */
  function Product(r: seq<nat>): nat
  {
    if r == [] then 1 else r[0] * Product(r[1..])
  }

  /** `c` has one index per placeholder, each inside that placeholder's range. */
  ghost predicate InRange(c: Combination, r: seq<nat>)
  {
    |c| == |r| && forall i :: 0 <= i < |r| ==> 0 <= c[i] < r[i]
  }

  /** The tuples `(u,) + p` for `u` in `[v, hi)` and `p` in `ps`, `u` varying slowest. */
  function Prefixed(v: nat, hi: nat, ps: seq<Combination>): seq<Combination>
    decreases hi - v
  {
    if v >= hi then []
    else seq(|ps|, i requires 0 <= i < |ps| => [v] + ps[i]) + Prefixed(v + 1, hi, ps)
  }

  /** `list(itertools.product(*[range(n) for n in r]))`. */
  function ProductSeq(r: seq<nat>): seq<Combination>
  {
    if r == [] then [[]] else Prefixed(0, r[0], ProductSeq(r[1..]))
  }

  /** `combination_to_index`: `sum c[i] * prod_{j>i} r[j]`. */
  function Encode(r: seq<nat>, c: Combination): int
    requires |c| == |r|
  {
    if r == [] then 0 else c[0] * Product(r[1..]) + Encode(r[1..], c[1..])
  }

  /** `index_to_combination`: the digits of `n` in the mixed radix `r`. */
  function Decode(r: seq<nat>, n: nat): (c: Combination)
    requires n < Product(r)
    ensures |c| == |r|
  {
    if r == [] then []
    else
      var w := Product(r[1..]);
      assert w > 0;
      DivBelow(n, r[0], w);
      [n / w] + Decode(r[1..], n % w)
  }

  lemma DivModUnique(a: int, b: int, w: int)
    requires w > 0 && 0 <= b < w
    ensures (a * w + b) / w == a && (a * w + b) % w == b
  {
    var x := a * w + b;
    var q, m := x / w, x % w;
    assert (a - q) * w == m - b;
    MulSmall(a - q, w, m - b);
  }

  lemma MulSmall(k: int, w: int, d: int)
    requires w > 0 && k * w == d && -w < d < w
    ensures k == 0
  {
    if k > 0 {
      MulGrows(k, w);
    } else if k < 0 {
      MulGrows(-k, w);
    }
  }

  lemma MulGrows(k: int, w: int)
    requires k >= 1 && w > 0
    ensures k * w >= w
  {
  }

  /** A number below `h * w` has its quotient by `w` below `h`. */
  lemma DivBelow(n: nat, h: nat, w: nat)
    requires w > 0 && n < h * w
    ensures n / w < h
  {
    var q, m := n / w, n % w;
    if q >= h {
      MulMono(h, q, w);
    }
  }

  lemma MulMono(a: nat, b: nat, w: nat)
    requires a <= b
    ensures a * w <= b * w
  {
  }

  lemma {:induction false} PrefixedLength(v: nat, hi: nat, ps: seq<Combination>)
    requires v <= hi
    ensures |Prefixed(v, hi, ps)| == (hi - v) * |ps|
    decreases hi - v
  {
    if v < hi {
      PrefixedLength(v + 1, hi, ps);
    }
  }

  /** itertools lists exactly `Product(r)` tuples. */
  lemma {:induction false} ProductSeqLength(r: seq<nat>)
    ensures |ProductSeq(r)| == Product(r)
  {
    if r != [] {
      ProductSeqLength(r[1..]);
      PrefixedLength(0, r[0], ProductSeq(r[1..]));
    }
  }

  /** `k * w + e`, written as repeated addition so that the proofs below stay linear. */
  function Offset(k: nat, w: nat, e: nat): nat
  {
    if k == 0 then e else w + Offset(k - 1, w, e)
  }

  lemma {:induction false} OffsetIsProduct(k: nat, w: nat, e: nat)
    ensures Offset(k, w, e) == k * w + e
  {
    if k > 0 {
      OffsetIsProduct(k - 1, w, e);
    }
  }

  /** In `Prefixed`, the `e`-th tuple of the block of `u` stands at `(u - v) * |ps| + e`. */
  lemma {:induction false} PrefixedAt(v: nat, hi: nat, ps: seq<Combination>, u: nat, e: nat)
    requires v <= u < hi && e < |ps|
    ensures Offset(u - v, |ps|, e) < |Prefixed(v, hi, ps)|
    ensures Prefixed(v, hi, ps)[Offset(u - v, |ps|, e)] == [u] + ps[e]
    decreases hi - v
  {
    var head := seq(|ps|, i requires 0 <= i < |ps| => [v] + ps[i]);
    var rest := Prefixed(v + 1, hi, ps);
    assert Prefixed(v, hi, ps) == head + rest;
    if u == v {
      assert (head + rest)[e] == head[e];
    } else {
      PrefixedAt(v + 1, hi, ps, u, e);
      var j := Offset(u - (v + 1), |ps|, e);
      assert Offset(u - v, |ps|, e) == |ps| + j;
      assert (head + rest)[|ps| + j] == rest[j];
    }
  }

  /** A combination inside the ranges encodes to an index below `Product(r)`. */
  lemma {:induction false} EncodeBound(r: seq<nat>, c: Combination)
    requires InRange(c, r)
    ensures 0 <= Encode(r, c) < Product(r)
  {
    if r != [] {
      var w := Product(r[1..]);
      EncodeBound(r[1..], c[1..]);
      MulMono(c[0] + 1, r[0], w);
    }
  }

  /** The combination `c` stands at position `Encode(r, c)` of the itertools listing. */
  lemma {:induction false} ProductSeqAt(r: seq<nat>, c: Combination)
    requires InRange(c, r)
    ensures 0 <= Encode(r, c) < |ProductSeq(r)| && ProductSeq(r)[Encode(r, c)] == c
  {
    ProductSeqLength(r);
    EncodeBound(r, c);
    if r != [] {
      var ps := ProductSeq(r[1..]);
      ProductSeqAt(r[1..], c[1..]);
      ProductSeqLength(r[1..]);
      EncodeBound(r[1..], c[1..]);
      PrefixedAt(0, r[0], ps, c[0], Encode(r[1..], c[1..]));
      OffsetIsProduct(c[0], |ps|, Encode(r[1..], c[1..]));
      assert c == [c[0]] + c[1..];
    }
  }

  /** Decoding an index below `Product(r)` gives a combination inside the ranges. */
  lemma {:induction false} DecodeInRange(r: seq<nat>, n: nat)
    requires n < Product(r)
    ensures InRange(Decode(r, n), r)
  {
    if r != [] {
      var w := Product(r[1..]);
      DivBelow(n, r[0], w);
      DecodeInRange(r[1..], n % w);
    }
  }

  /** Round trip: `index_to_combination(combination_to_index(c)) == c`. */
  lemma {:induction false} DecodeEncode(r: seq<nat>, c: Combination)
    requires InRange(c, r)
    ensures 0 <= Encode(r, c) < Product(r) && Decode(r, Encode(r, c)) == c
  {
    EncodeBound(r, c);
    if r != [] {
      var w := Product(r[1..]);
      var e := Encode(r[1..], c[1..]);
      EncodeBound(r[1..], c[1..]);
      DivModUnique(c[0], e, w);
      DecodeEncode(r[1..], c[1..]);
      assert c == [c[0]] + c[1..];
    }
  }

  /** Round trip: `combination_to_index(index_to_combination(n)) == n`. */
  lemma {:induction false} EncodeDecode(r: seq<nat>, n: nat)
    requires n < Product(r)
    ensures Encode(r, Decode(r, n)) == n
  {
    if r != [] {
      var w := Product(r[1..]);
      DivBelow(n, r[0], w);
      EncodeDecode(r[1..], n % w);
    }
  }

  /** The n-th tuple that itertools lists is the mixed-radix decoding of `n`. */
  lemma ProductSeqIndex(r: seq<nat>, n: nat)
    requires n < Product(r)
    ensures |ProductSeq(r)| == Product(r) && ProductSeq(r)[n] == Decode(r, n)
  {
    ProductSeqLength(r);
    DecodeInRange(r, n);
    EncodeDecode(r, n);
    ProductSeqAt(r, Decode(r, n));
  }

  /** itertools lists exactly the combinations inside the ranges. */
  lemma ProductSeqMembers(r: seq<nat>, c: Combination)
    ensures c in ProductSeq(r) <==> InRange(c, r)
  {
    if InRange(c, r) {
      ProductSeqAt(r, c);
    }
    if c in ProductSeq(r) {
      ProductSeqLength(r);
      var n :| 0 <= n < |ProductSeq(r)| && ProductSeq(r)[n] == c;
      ProductSeqIndex(r, n);
      DecodeInRange(r, n);
    }
  }

  /** itertools lists no tuple twice. */
  lemma ProductSeqDistinct(r: seq<nat>)
    ensures forall i, j :: 0 <= i < j < |ProductSeq(r)| ==> ProductSeq(r)[i] != ProductSeq(r)[j]
  {
    ProductSeqLength(r);
    forall i, j | 0 <= i < j < |ProductSeq(r)| ensures ProductSeq(r)[i] != ProductSeq(r)[j] {
      ProductSeqIndex(r, i);
      ProductSeqIndex(r, j);
      EncodeDecode(r, i);
      EncodeDecode(r, j);
    }
  }

  /** Multiplying in one more range at the end: `count = count * p.index_range`. */
  lemma {:induction false} ProductSnoc(r: seq<nat>, x: nat)
    ensures Product(r + [x]) == Product(r) * x
  {
    if r == [] {
      assert [x][1..] == [];
    } else {
      assert (r + [x])[1..] == r[1..] + [x];
      ProductSnoc(r[1..], x);
      assert r[0] * (Product(r[1..]) * x) == (r[0] * Product(r[1..])) * x;
    }
  }

  /** A list without repeats has as many members as entries. */
  lemma {:induction false} DistinctSetSize(s: seq<Combination>)
    requires forall i, j :: 0 <= i < j < |s| ==> s[i] != s[j]
    ensures |set c | c in s| == |s|
  {
    if s != [] {
      var t := s[1..];
      assert (set c | c in s) == {s[0]} + (set c | c in t);
      assert s[0] !in (set c | c in t);
      DistinctSetSize(t);
    }
  }

  /** The set of all combinations inside the ranges has `Product(r)` members. */
  lemma AllCombinationsSize(r: seq<nat>)
    ensures |set c | c in ProductSeq(r)| == Product(r)
    ensures forall c :: c in ProductSeq(r) <==> InRange(c, r)
  {
    ProductSeqLength(r);
    ProductSeqDistinct(r);
    DistinctSetSize(ProductSeq(r));
    forall c ensures c in ProductSeq(r) <==> InRange(c, r) {
      ProductSeqMembers(r, c);
    }
  }
}
