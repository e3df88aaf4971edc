/**
 * The list transformation behind `Combinator.ensure_priorities`, on the list
 * `list(self.available)` of combinations.
 *
 * For each priority placeholder (position `pi`) in template order, the values
 * in `[0, index_range)` that no combination among the first `num` carries at
 * `pi` are "missing". A backward scan from the end of the list collects, for
 * each missing value, the last combination carrying it; each collected
 * combination is then popped and inserted at the front, in collection order.
 *
 * The scan as written (`ScanAsWritten`) gives up as soon as its decremented
 * index reaches 0, even right after it found the last missing value and even
 * though index 0 itself was never looked at. `ScanFixed` is the scan that
 * visits every entry and fails only when a missing value occurs nowhere;
 * `PriorityStep` and `EnsureFrom` use it.
 */
module Priorities {
  import opened Wrappers
  import opened Errors
  import opened CombinationIndex
  import opened Placeholder

  /** Every entry of `ac` has an index at position `pi`. */
  ghost predicate HasPosition(ac: seq<Combination>, pi: nat)
  {
    forall j :: 0 <= j < |ac| ==> pi < |ac[j]|
  }

  /** Every entry of `ac` has one index per placeholder of a template with `w` placeholders. */
  ghost predicate Width(ac: seq<Combination>, w: nat)
  {
    forall j :: 0 <= j < |ac| ==> |ac[j]| == w
  }

  /** No combination occurs twice in `ms`. */
  ghost predicate Distinct(ms: seq<Combination>)
  {
    forall a, b :: 0 <= a < b < |ms| ==> ms[a] != ms[b]
  }

  /** The entries of `ms` carry pairwise different values at position `pi`. */
  ghost predicate DistinctAt(ms: seq<Combination>, pi: nat)
    requires HasPosition(ms, pi)
  {
    forall a, b :: 0 <= a < b < |ms| ==> ms[a][pi] != ms[b][pi]
  }

  /** The values at position `pi` of the entries of `ms`. */
  function Vals(ms: seq<Combination>, pi: nat): set<int>
    requires HasPosition(ms, pi)
  {
    set x | x in ms :: x[pi]
  }

  /** The values at position `pi` of the entries at indexes `0..ti`. */
  function ValuesUpTo(ac: seq<Combination>, pi: nat, ti: int): set<int>
    requires HasPosition(ac, pi) && ti < |ac|
  {
    set j | 0 <= j <= ti :: ac[j][pi]
  }

  /** `existing`: the values at position `pi` among the first `num` entries. */
  function Existing(ac: seq<Combination>, num: nat, pi: nat): (e: set<int>)
    requires HasPosition(ac, pi)
    ensures forall v :: v in e <==> exists j :: 0 <= j < |ac| && j < num && ac[j][pi] == v
  {
    set j | 0 <= j < |ac| && j < num :: ac[j][pi]
  }

  /** `missing = possible - existing`. */
  function Missing(ac: seq<Combination>, num: nat, pi: nat, range: nat): (m: set<int>)
    requires HasPosition(ac, pi)
    ensures forall v :: v in m <==> 0 <= v < range && forall j :: 0 <= j < |ac| && j < num ==> ac[j][pi] != v
  {
    set v | 0 <= v < range && v !in Existing(ac, num, pi)
  }

  /** The error raised when the scan gives up. */
  function Unfound(name: string): Error
  {
    RuntimeError("Unable to find all combinations of priorty grammar " + name)
  }

  /**
   * The `while missing` loop as written, from scan index `ti` with the values
   * still `missing` and the combinations collected so far in `moves`.
   * An empty list makes the first read `available_combinations[-1]` fail.
   */
  function ScanAsWritten(ac: seq<Combination>, pi: nat, name: string, missing: set<int>, ti: int,
                         moves: seq<Combination>): (r: Result<seq<Combination>, Error>)
    requires HasPosition(ac, pi) && -1 <= ti < |ac|
    ensures r.Ok? ==> forall x :: x in r.value ==> x in moves || x in ac
    decreases ti + 1
  {
    if missing == {} then Ok(moves)
    else if ti < 0 then Err(IndexError)
    else
      var x := ac[ti];
      var missing', moves' := if x[pi] in missing then missing - {x[pi]} else missing,
                              if x[pi] in missing then moves + [x] else moves;
      if ti - 1 <= 0 then Err(Unfound(name))
      else ScanAsWritten(ac, pi, name, missing', ti - 1, moves')
  }

  /** The scan that looks at every entry down to index 0 and fails only when one is left missing. */
  function ScanFixed(ac: seq<Combination>, pi: nat, name: string, missing: set<int>, ti: int,
                     moves: seq<Combination>): (r: Result<seq<Combination>, Error>)
    requires HasPosition(ac, pi) && -1 <= ti < |ac|
    ensures r.Ok? ==> forall x :: x in r.value ==> x in moves || x in ac
    decreases ti + 1
  {
    if missing == {} then Ok(moves)
    else if ti < 0 then Err(Unfound(name))
    else
      var x := ac[ti];
      if x[pi] in missing then ScanFixed(ac, pi, name, missing - {x[pi]}, ti - 1, moves + [x])
      else ScanFixed(ac, pi, name, missing, ti - 1, moves)
  }

  /** The last index at or below `ti` whose entry carries `v` at position `pi`, or -1 when there is none. */
  function LastAt(ac: seq<Combination>, pi: nat, v: int, ti: int): (j: int)
    requires HasPosition(ac, pi) && -1 <= ti < |ac|
    ensures -1 <= j <= ti && (j >= 0 ==> ac[j][pi] == v)
    ensures forall k :: j < k <= ti ==> ac[k][pi] != v
    decreases ti + 1
  {
    if ti < 0 then -1 else if ac[ti][pi] == v then ti else LastAt(ac, pi, v, ti - 1)
  }

  /** `list.index`: the first position of `x`. */
  function IndexOf(s: seq<Combination>, x: Combination): (i: nat)
    requires x in s
    ensures i < |s| && s[i] == x && forall j :: 0 <= j < i ==> s[j] != x
  {
    if s[0] == x then 0 else 1 + IndexOf(s[1..], x)
  }

  /** `s.insert(0, s.pop(s.index(x)))`. */
  function MoveToFront(s: seq<Combination>, x: Combination): (r: seq<Combination>)
    requires x in s
    ensures |r| == |s| && r[0] == x && multiset(r) == multiset(s)
  {
    var i := IndexOf(s, x);
    assert s == s[..i] + [s[i]] + s[i + 1..];
    [x] + s[..i] + s[i + 1..]
  }

  /** Each combination of `ms`, in order, moved to the front. */
  function MoveAll(s: seq<Combination>, ms: seq<Combination>): (r: seq<Combination>)
    requires forall m :: m in ms ==> m in s
    ensures |r| == |s| && multiset(r) == multiset(s)
    decreases |ms|
  {
    if ms == [] then s
    else
      var s' := MoveToFront(s, ms[0]);
      PermMembers(s, s');
      MoveAll(s', ms[1..])
  }

  /** The first move pops its combination and puts it in front; the remaining moves follow on that list. */
  lemma MoveAllStep(s: seq<Combination>, ms: seq<Combination>)
    requires ms != [] && forall m :: m in ms ==> m in s
    ensures ms[0] in s
    ensures var i := IndexOf(s, ms[0]);
            var next := [s[i]] + (s[..i] + s[i + 1..]);
            && next == MoveToFront(s, ms[0])
            && (forall m :: m in ms[1..] ==> m in next)
            && MoveAll(s, ms) == MoveAll(next, ms[1..])
  {
    assert ms[0] in ms;
    var next := MoveToFront(s, ms[0]);
    PermMembers(s, next);
    forall m | m in ms[1..] ensures m in next {
      assert m in ms;
    }
  }

  lemma PermMembers(s: seq<Combination>, s': seq<Combination>)
    requires multiset(s') == multiset(s)
    ensures forall m :: m in s ==> m in s'
  {
    forall m | m in s ensures m in s' {
      assert m in multiset(s);
    }
  }

  function Reverse(s: seq<Combination>): (r: seq<Combination>)
    ensures |r| == |s| && forall i :: 0 <= i < |s| ==> r[i] == s[|s| - 1 - i]
  {
    if s == [] then [] else Reverse(s[1..]) + [s[0]]
  }

  /**
   * One priority placeholder `p` at position `pi`: the list unchanged when
   * nothing is missing, else the collected combinations moved to the front.
   */
  function PriorityStep(ac: seq<Combination>, num: nat, pi: nat, p: PlaceHolder): (r: Result<seq<Combination>, Error>)
    requires HasPosition(ac, pi)
    ensures r.Ok? ==> multiset(r.value) == multiset(ac)
  {
    var missing := Missing(ac, num, pi, p.indexRange);
    if missing == {} then Ok(ac)
    else
      match ScanFixed(ac, pi, p.name, missing, |ac| - 1, [])
      case Err(e) => Err(e)
      case Ok(moves) => Ok(MoveAll(ac, moves))
  }

  /** `PriorityStep` with the scan as written. */
  function PriorityStepAsWritten(ac: seq<Combination>, num: nat, pi: nat, p: PlaceHolder): (r: Result<seq<Combination>, Error>)
    requires HasPosition(ac, pi)
    ensures r.Ok? ==> multiset(r.value) == multiset(ac)
  {
    var missing := Missing(ac, num, pi, p.indexRange);
    if missing == {} then Ok(ac)
    else
      match ScanAsWritten(ac, pi, p.name, missing, |ac| - 1, [])
      case Err(e) => Err(e)
      case Ok(moves) => Ok(MoveAll(ac, moves))
  }

  lemma WidthPerm(ac: seq<Combination>, ac': seq<Combination>, w: nat)
    requires Width(ac, w) && multiset(ac') == multiset(ac)
    ensures Width(ac', w)
  {
    forall j | 0 <= j < |ac'| ensures |ac'[j]| == w {
      assert ac'[j] in multiset(ac);
    }
  }

  /** The placeholders from the `k`-th on, each priority one in turn. */
  function EnsureFrom(ac: seq<Combination>, num: nat, ps: seq<PlaceHolder>, k: nat): (r: Result<seq<Combination>, Error>)
    requires Width(ac, |ps|) && k <= |ps|
    ensures r.Ok? ==> multiset(r.value) == multiset(ac)
    decreases |ps| - k
  {
    if k == |ps| then Ok(ac)
    else if !ps[k].priority then EnsureFrom(ac, num, ps, k + 1)
    else
      match PriorityStep(ac, num, k, ps[k])
      case Err(e) => Err(e)
      case Ok(ac') =>
        WidthPerm(ac, ac', |ps|);
        EnsureFrom(ac', num, ps, k + 1)
  }

  /** `ensure_priorities(num)` on the list `ac`. */
  function EnsurePriorities(ac: seq<Combination>, num: nat, ps: seq<PlaceHolder>): (r: Result<seq<Combination>, Error>)
    requires Width(ac, |ps|)
    ensures r.Ok? ==> multiset(r.value) == multiset(ac)
  {
    EnsureFrom(ac, num, ps, 0)
  }

  /** The scan succeeds exactly when every missing value occurs at an index up to `ti`. */
  lemma {:induction false} ScanFixedSucceeds(ac: seq<Combination>, pi: nat, name: string, missing: set<int>, ti: int,
                                             moves: seq<Combination>)
    requires HasPosition(ac, pi) && -1 <= ti < |ac|
    ensures ScanFixed(ac, pi, name, missing, ti, moves).Ok? <==> missing <= ValuesUpTo(ac, pi, ti)
    decreases ti + 1
  {
    if missing != {} && ti >= 0 {
      var x := ac[ti];
      assert ValuesUpTo(ac, pi, ti) == ValuesUpTo(ac, pi, ti - 1) + {x[pi]};
      if x[pi] in missing {
        ScanFixedSucceeds(ac, pi, name, missing - {x[pi]}, ti - 1, moves + [x]);
      } else {
        ScanFixedSucceeds(ac, pi, name, missing, ti - 1, moves);
      }
    }
  }

  /**
   * A successful scan appends one combination per missing value to those
   * already collected, each carrying a different value at `pi`, one that was
   * missing.
   */
  lemma {:induction false} ScanFixedFinds(ac: seq<Combination>, pi: nat, name: string, missing: set<int>, ti: int,
                                          moves: seq<Combination>)
    requires HasPosition(ac, pi) && -1 <= ti < |ac|
    requires HasPosition(moves, pi) && DistinctAt(moves, pi) && Vals(moves, pi) !! missing
    ensures ScanFixed(ac, pi, name, missing, ti, moves).Ok? ==>
              var ms := ScanFixed(ac, pi, name, missing, ti, moves).value;
              && |moves| <= |ms| && ms[..|moves|] == moves
              && HasPosition(ms, pi) && DistinctAt(ms, pi)
              && Vals(ms, pi) == Vals(moves, pi) + missing
              && (forall b :: |moves| <= b < |ms| ==> ms[b][pi] in missing)
    decreases ti + 1
  {
    if missing != {} && ti >= 0 {
      var x := ac[ti];
      if x[pi] in missing {
        var moves' := moves + [x];
        CollectOne(moves, x, pi, missing);
        ScanFixedFinds(ac, pi, name, missing - {x[pi]}, ti - 1, moves');
        var r := ScanFixed(ac, pi, name, missing - {x[pi]}, ti - 1, moves');
        if r.Ok? {
          assert r.value[..|moves'|][..|moves|] == moves;
          assert r.value[|moves|] == r.value[..|moves'|][|moves|] == x;
        }
      } else {
        ScanFixedFinds(ac, pi, name, missing, ti - 1, moves);
      }
    }
  }

  /**
   * What a successful scan appends for each missing value is the last entry
   * at or below `ti` that carries it, and it appends them in decreasing
   * index order.
   */
  lemma {:induction false} ScanFixedLast(ac: seq<Combination>, pi: nat, name: string, missing: set<int>, ti: int,
                                         moves: seq<Combination>)
    requires HasPosition(ac, pi) && -1 <= ti < |ac|
    requires HasPosition(moves, pi) && DistinctAt(moves, pi) && Vals(moves, pi) !! missing
    ensures ScanFixed(ac, pi, name, missing, ti, moves).Ok? ==>
              var ms := ScanFixed(ac, pi, name, missing, ti, moves).value;
              && |moves| <= |ms| && HasPosition(ms, pi)
              && (forall b :: |moves| <= b < |ms| ==>
                    0 <= LastAt(ac, pi, ms[b][pi], ti) && ms[b] == ac[LastAt(ac, pi, ms[b][pi], ti)])
              && (forall b, c :: |moves| <= b < c < |ms| ==>
                    LastAt(ac, pi, ms[c][pi], ti) < LastAt(ac, pi, ms[b][pi], ti))
    decreases ti + 1, 1
  {
    ScanFixedFinds(ac, pi, name, missing, ti, moves);
    if missing != {} && ti >= 0 {
      var x := ac[ti];
      if x[pi] in missing {
        ScanFixedTaken(ac, pi, name, missing, ti, moves);
      } else {
        ScanFixedFinds(ac, pi, name, missing, ti - 1, moves);
        ScanFixedLast(ac, pi, name, missing, ti - 1, moves);
        var r := ScanFixed(ac, pi, name, missing, ti - 1, moves);
        if r.Ok? {
          var ms := r.value;
          forall b | |moves| <= b < |ms|
            ensures LastAt(ac, pi, ms[b][pi], ti) == LastAt(ac, pi, ms[b][pi], ti - 1)
          {
            assert ms[b][pi] in missing;
          }
        }
      }
    }
  }

  /** `ScanFixedLast` when the entry at `ti` carries a missing value: it is collected first. */
  lemma {:induction false} ScanFixedTaken(ac: seq<Combination>, pi: nat, name: string, missing: set<int>, ti: int,
                                          moves: seq<Combination>)
    requires HasPosition(ac, pi) && 0 <= ti < |ac| && ac[ti][pi] in missing
    requires HasPosition(moves, pi) && DistinctAt(moves, pi) && Vals(moves, pi) !! missing
    ensures ScanFixed(ac, pi, name, missing, ti, moves).Ok? ==>
              var ms := ScanFixed(ac, pi, name, missing, ti, moves).value;
              && |moves| <= |ms| && HasPosition(ms, pi)
              && (forall b :: |moves| <= b < |ms| ==>
                    0 <= LastAt(ac, pi, ms[b][pi], ti) && ms[b] == ac[LastAt(ac, pi, ms[b][pi], ti)])
              && (forall b, c :: |moves| <= b < c < |ms| ==>
                    LastAt(ac, pi, ms[c][pi], ti) < LastAt(ac, pi, ms[b][pi], ti))
    decreases ti + 1, 0
  {
    var x := ac[ti];
    var missing', moves' := missing - {x[pi]}, moves + [x];
    CollectOne(moves, x, pi, missing);
    ScanFixedFinds(ac, pi, name, missing', ti - 1, moves');
    ScanFixedLast(ac, pi, name, missing', ti - 1, moves');
    assert ScanFixed(ac, pi, name, missing, ti, moves) == ScanFixed(ac, pi, name, missing', ti - 1, moves');
    var r := ScanFixed(ac, pi, name, missing', ti - 1, moves');
    if r.Ok? {
      var ms := r.value;
      assert ms[|moves|] == ms[..|moves'|][|moves|] == x;
      assert LastAt(ac, pi, x[pi], ti) == ti;
      forall b | |moves'| <= b < |ms|
        ensures LastAt(ac, pi, ms[b][pi], ti) == LastAt(ac, pi, ms[b][pi], ti - 1) < ti
      {
        assert ms[b][pi] in missing';
      }
      forall b, c | |moves| <= b < c < |ms|
        ensures LastAt(ac, pi, ms[c][pi], ti) < LastAt(ac, pi, ms[b][pi], ti)
      {
      }
    }
  }

  /** Collecting `x`, whose value at `pi` is still missing, keeps the collected values distinct. */
  lemma CollectOne(moves: seq<Combination>, x: Combination, pi: nat, missing: set<int>)
    requires HasPosition(moves, pi) && DistinctAt(moves, pi) && Vals(moves, pi) !! missing
    requires pi < |x| && x[pi] in missing
    ensures HasPosition(moves + [x], pi) && DistinctAt(moves + [x], pi)
    ensures Vals(moves + [x], pi) == Vals(moves, pi) + {x[pi]}
    ensures Vals(moves + [x], pi) !! missing - {x[pi]}
    ensures Vals(moves + [x], pi) + (missing - {x[pi]}) == Vals(moves, pi) + missing
  {
    var moves' := moves + [x];
    assert Vals(moves', pi) == Vals(moves, pi) + {x[pi]};
    forall a | 0 <= a < |moves|
      ensures moves[a][pi] != x[pi]
    {
      assert moves[a][pi] in Vals(moves, pi);
    }
  }

  /** Wherever the scan as written succeeds, it agrees with the fixed scan. */
  lemma {:induction false} ScanAsWrittenRefines(ac: seq<Combination>, pi: nat, name: string, missing: set<int>, ti: int,
                                                moves: seq<Combination>)
    requires HasPosition(ac, pi) && -1 <= ti < |ac|
    requires ScanAsWritten(ac, pi, name, missing, ti, moves).Ok?
    ensures ScanFixed(ac, pi, name, missing, ti, moves) == ScanAsWritten(ac, pi, name, missing, ti, moves)
    decreases ti + 1
  {
    if missing != {} {
      var x := ac[ti];
      if x[pi] in missing {
        ScanAsWrittenRefines(ac, pi, name, missing - {x[pi]}, ti - 1, moves + [x]);
      } else {
        ScanAsWrittenRefines(ac, pi, name, missing, ti - 1, moves);
      }
    }
  }

  lemma MoveToFrontPrefix(s: seq<Combination>, x: Combination, p: seq<Combination>)
    requires x in s && |p| <= |s| && s[..|p|] == p && x !in p
    ensures |p| + 1 <= |s| && MoveToFront(s, x)[..|p| + 1] == [x] + p
  {
    var i := IndexOf(s, x);
    assert forall j :: 0 <= j < |p| ==> s[j] == p[j];
    assert s[..i][..|p|] == p;
  }

  /**
   * Moving distinct combinations to the front one after another leaves them
   * at the front in reverse order, ahead of what was at the front before.
   */
  lemma {:induction false} MoveAllPrefix(s: seq<Combination>, ms: seq<Combination>, p: seq<Combination>)
    requires |p| <= |s| && s[..|p|] == p
    requires forall m :: m in ms ==> m in s
    requires Distinct(ms)
    requires forall m :: m in ms ==> m !in p
    ensures |p| + |ms| <= |s|
    ensures MoveAll(s, ms)[..|p| + |ms|] == Reverse(ms) + p
    decreases |ms|
  {
    if ms != [] {
      var s' := MoveToFront(s, ms[0]);
      MoveToFrontPrefix(s, ms[0], p);
      var p' := [ms[0]] + p;
      PermMembers(s, s');
      RestOfMoves(s', ms, p);
      MoveAllPrefix(s', ms[1..], p');
      ReverseCons(ms, p);
    }
  }

  /** The moves after the first are still in the list and not yet in front. */
  lemma RestOfMoves(s': seq<Combination>, ms: seq<Combination>, p: seq<Combination>)
    requires ms != [] && Distinct(ms)
    requires forall m :: m in ms ==> m in s' && m !in p
    ensures Distinct(ms[1..])
    ensures forall m :: m in ms[1..] ==> m in s' && m !in [ms[0]] + p
  {
    forall m | m in ms[1..] ensures m in s' && m !in [ms[0]] + p {
      var a :| 1 <= a < |ms| && ms[a] == m;
      assert ms[0] != ms[a] && ms[a] in ms;
    }
  }

  lemma ReverseCons(ms: seq<Combination>, p: seq<Combination>)
    requires ms != []
    ensures Reverse(ms) + p == Reverse(ms[1..]) + ([ms[0]] + p)
  {
  }

  lemma {:induction false} ValsSize(ms: seq<Combination>, pi: nat)
    requires HasPosition(ms, pi) && DistinctAt(ms, pi)
    ensures |Vals(ms, pi)| == |ms|
  {
    if ms != [] {
      var t := ms[1..];
      assert Vals(ms, pi) == {ms[0][pi]} + Vals(t, pi);
      ValsSize(t, pi);
    }
  }

  /** Distinct combinations moved to the front one by one end up first, the last one moved in front. */
  lemma MovedInFront(ac: seq<Combination>, ms: seq<Combination>)
    requires forall m :: m in ms ==> m in ac
    requires Distinct(ms)
    ensures |ms| <= |ac|
    ensures forall a :: 0 <= a < |ms| ==> MoveAll(ac, ms)[|ms| - 1 - a] == ms[a]
  {
    assert ac[..0] == [];
    MoveAllPrefix(ac, ms, []);
    var r := MoveAll(ac, ms);
    forall a | 0 <= a < |ms| ensures r[|ms| - 1 - a] == ms[a] {
      assert r[|ms| - 1 - a] == r[..|ms|][|ms| - 1 - a];
    }
  }

  /**
   * A successful scan from the end collects distinct combinations of the
   * list, one per missing value: the last entry of the list carrying that
   * value, in decreasing index order.
   */
  lemma ScanCollects(ac: seq<Combination>, pi: nat, name: string, m: set<int>)
    requires HasPosition(ac, pi) && ScanFixed(ac, pi, name, m, |ac| - 1, []).Ok?
    ensures var ms := ScanFixed(ac, pi, name, m, |ac| - 1, []).value;
            && (forall x :: x in ms ==> x in ac)
            && Distinct(ms) && |ms| == |m| && HasPosition(ms, pi)
            && (forall v :: v in m ==> exists a :: 0 <= a < |ms| && ms[a][pi] == v)
            && (forall a :: 0 <= a < |ms| ==>
                  0 <= LastAt(ac, pi, ms[a][pi], |ac| - 1) && ms[a] == ac[LastAt(ac, pi, ms[a][pi], |ac| - 1)])
            && (forall a, b :: 0 <= a < b < |ms| ==>
                  LastAt(ac, pi, ms[b][pi], |ac| - 1) < LastAt(ac, pi, ms[a][pi], |ac| - 1))
  {
    ScanFixedFinds(ac, pi, name, m, |ac| - 1, []);
    ScanOrder(ac, pi, name, m);
    var ms := ScanFixed(ac, pi, name, m, |ac| - 1, []).value;
    assert Vals(ms, pi) == m by {
      assert Vals([], pi) == {};
    }
    ValsSize(ms, pi);
    assert Distinct(ms) by {
      forall a, b | 0 <= a < b < |ms| ensures ms[a] != ms[b] {
        assert ms[a][pi] != ms[b][pi];
      }
    }
    forall v | v in m ensures exists a :: 0 <= a < |ms| && ms[a][pi] == v {
      assert v in Vals(ms, pi);
    }
  }

  /** The collected combinations, read from the whole list: each is the last carrier of its value, in decreasing index order. */
  lemma ScanOrder(ac: seq<Combination>, pi: nat, name: string, m: set<int>)
    requires HasPosition(ac, pi) && ScanFixed(ac, pi, name, m, |ac| - 1, []).Ok?
    ensures var ms := ScanFixed(ac, pi, name, m, |ac| - 1, []).value;
            && HasPosition(ms, pi)
            && (forall a :: 0 <= a < |ms| ==>
                  0 <= LastAt(ac, pi, ms[a][pi], |ac| - 1) && ms[a] == ac[LastAt(ac, pi, ms[a][pi], |ac| - 1)])
            && (forall a, b :: 0 <= a < b < |ms| ==>
                  LastAt(ac, pi, ms[b][pi], |ac| - 1) < LastAt(ac, pi, ms[a][pi], |ac| - 1))
  {
    ScanFixedLast(ac, pi, name, m, |ac| - 1, []);
  }

  /**
   * After one priority placeholder's step, each value that was missing from
   * the first `num` entries is carried by one of the first |missing| entries.
   */
  lemma PriorityStepCovers(ac: seq<Combination>, num: nat, pi: nat, p: PlaceHolder)
    requires HasPosition(ac, pi)
    requires PriorityStep(ac, num, pi, p).Ok?
    ensures var r := PriorityStep(ac, num, pi, p).value;
            var m := Missing(ac, num, pi, p.indexRange);
            && |m| <= |r|
            && forall v :: v in m ==> exists j :: 0 <= j < |m| && pi < |r[j]| && r[j][pi] == v
  {
    var m := Missing(ac, num, pi, p.indexRange);
    if m != {} {
      ScanCollects(ac, pi, p.name, m);
      var ms := ScanFixed(ac, pi, p.name, m, |ac| - 1, []).value;
      MovedInFront(ac, ms);
      var r := MoveAll(ac, ms);
      assert PriorityStep(ac, num, pi, p).value == r;
      forall v | v in m ensures exists j :: 0 <= j < |m| && pi < |r[j]| && r[j][pi] == v {
        var a :| 0 <= a < |ms| && ms[a][pi] == v;
        assert r[|ms| - 1 - a] == ms[a];
      }
    }
  }

  /** The step fails exactly when some missing value occurs nowhere in the list. */
  lemma PriorityStepFails(ac: seq<Combination>, num: nat, pi: nat, p: PlaceHolder)
    requires HasPosition(ac, pi)
    ensures PriorityStep(ac, num, pi, p).Err? <==>
              exists v :: v in Missing(ac, num, pi, p.indexRange) && forall j :: 0 <= j < |ac| ==> ac[j][pi] != v
  {
    var m := Missing(ac, num, pi, p.indexRange);
    if m != {} {
      ScanFixedSucceeds(ac, pi, p.name, m, |ac| - 1, []);
      if PriorityStep(ac, num, pi, p).Err? {
        var v :| v in m && v !in ValuesUpTo(ac, pi, |ac| - 1);
      }
    }
  }

  /** With nothing missing for any priority placeholder, the list is left as it is. */
  lemma {:induction false} NothingMissing(ac: seq<Combination>, num: nat, ps: seq<PlaceHolder>, k: nat)
    requires Width(ac, |ps|) && k <= |ps|
    requires forall i :: k <= i < |ps| && ps[i].priority ==> Missing(ac, num, i, ps[i].indexRange) == {}
    ensures EnsureFrom(ac, num, ps, k) == Ok(ac)
    decreases |ps| - k
  {
    if k < |ps| {
      NothingMissing(ac, num, ps, k + 1);
    }
  }

  /**
   * The scan as written gives up on the step that finds the last missing
   * value once its index has reached 0: with two combinations `[0]`, `[1]`
   * and `num == 1`, value 1 is found at index 1 and still the call fails,
   * where the fixed scan moves `[1]` to the front.
   */
  lemma AsWrittenGivesUp(ac: seq<Combination>, p: PlaceHolder)
    requires ac == [[0], [1]] && p.priority && p.indexRange == 2
    ensures PriorityStepAsWritten(ac, 1, 0, p) == Err(Unfound(p.name))
    ensures PriorityStep(ac, 1, 0, p) == Ok([[1], [0]])
  {
    MissingOnPair(ac);
    ScanOnPair(ac, p.name);
    MoveOnPair(ac);
  }

  lemma MissingOnPair(ac: seq<Combination>)
    requires ac == [[0], [1]]
    ensures Missing(ac, 1, 0, 2) == {1}
  {
    assert Existing(ac, 1, 0) == {0} by {
      assert ac[0][0] == 0;
    }
    assert ac[1][0] != 0;
  }

  lemma ScanOnPair(ac: seq<Combination>, name: string)
    requires ac == [[0], [1]]
    ensures ScanFixed(ac, 0, name, {1}, 1, []) == Ok([[1]])
    ensures ScanAsWritten(ac, 0, name, {1}, 1, []) == Err(Unfound(name))
  {
    assert ac[1][0] == 1;
    assert ScanFixed(ac, 0, name, {}, 0, [[1]]) == Ok([[1]]);
    assert {1} - {ac[1][0]} == {} && [] + [ac[1]] == [[1]];
  }

  lemma MoveOnPair(ac: seq<Combination>)
    requires ac == [[0], [1]]
    ensures MoveAll(ac, [[1]]) == [[1], [0]]
  {
    assert IndexOf(ac, [1]) == 1;
    assert MoveAll(ac, [[1]]) == MoveToFront(ac, [1]);
  }

  /**
   * Moving a combination to the front can push a value out of the first
   * `num` entries. Take a template with a priority placeholder of range 3
   * followed by a plain one of range 2, the distinct combinations
   * `[0,0]`, `[0,1]`, `[1,0]`, `[2,0]`, `[1,1]`, `[2,1]` and `num == 3`: value 2
   * is missing at position 0, the scan takes `[2,1]` from index 5, and after
   * the move the first three are `[2,1]`, `[0,0]`, `[0,1]`, so value 1 has
   * left the window. `WindowBefore`, `EnsureOnExample` and `WindowAfter`
   * state the three parts of this.
   */
  lemma WindowBefore(ac: seq<Combination>)
    requires ac == [[0, 0], [0, 1], [1, 0], [2, 0], [1, 1], [2, 1]]
    ensures Distinct(ac) && Width(ac, 2)
    ensures 0 in Existing(ac, 3, 0) && 1 in Existing(ac, 3, 0) && 2 !in Existing(ac, 3, 0)
  {
    assert ac[0][0] == 0 && ac[2][0] == 1;
  }

  lemma WindowAfter(ac: seq<Combination>)
    requires ac == [[0, 0], [0, 1], [1, 0], [2, 0], [1, 1], [2, 1]]
    ensures var r := [ac[5]] + ac[..5];
            && r[0] == [2, 1] && r[1] == [0, 0] && r[2] == [0, 1]
            && 2 in Existing(r, 3, 0) && 1 !in Existing(r, 3, 0)
  {
    var r := [ac[5]] + ac[..5];
    assert r[0][0] == 2;
    assert forall j :: 0 <= j < 3 ==> r[j][0] != 1;
  }

  /** `ensure_priorities(3)` on the example: only the priority placeholder at position 0 moves anything. */
  lemma EnsureOnExample(ac: seq<Combination>, ps: seq<PlaceHolder>)
    requires ac == [[0, 0], [0, 1], [1, 0], [2, 0], [1, 1], [2, 1]]
    requires |ps| == 2 && ps[0].priority && ps[0].indexRange == 3 && !ps[1].priority
    ensures Width(ac, |ps|)
    ensures EnsurePriorities(ac, 3, ps) == Ok([ac[5]] + ac[..5])
  {
    var r := [ac[5]] + ac[..5];
    WindowBefore(ac);
    StepOnExample(ac, ps[0]);
    WidthPerm(ac, r, |ps|);
    assert EnsureFrom(ac, 3, ps, 0) == EnsureFrom(r, 3, ps, 1);
    assert EnsureFrom(r, 3, ps, 1) == EnsureFrom(r, 3, ps, 2) == Ok(r);
  }

  lemma StepOnExample(ac: seq<Combination>, p: PlaceHolder)
    requires ac == [[0, 0], [0, 1], [1, 0], [2, 0], [1, 1], [2, 1]] && p.indexRange == 3
    ensures PriorityStep(ac, 3, 0, p) == Ok([ac[5]] + ac[..5])
  {
    MissingOnExample(ac);
    ScanOnExample(ac, p.name);
    MoveOnExample(ac);
  }

  lemma MoveOnExample(ac: seq<Combination>)
    requires ac == [[0, 0], [0, 1], [1, 0], [2, 0], [1, 1], [2, 1]]
    ensures ac[5] == [2, 1] && MoveAll(ac, [ac[5]]) == [ac[5]] + ac[..5]
  {
    assert ac[0][0] != 2 && ac[1][0] != 2 && ac[2][0] != 2 && ac[3][1] != 1 && ac[4][0] != 2;
    MoveLast(ac, ac[5]);
  }

  /** Moving the last combination, found nowhere before it, rotates it to the front. */
  lemma MoveLast(s: seq<Combination>, x: Combination)
    requires |s| > 0 && s[|s| - 1] == x && forall j :: 0 <= j < |s| - 1 ==> s[j] != x
    ensures MoveAll(s, [x]) == [x] + s[..|s| - 1]
  {
    MoveAllStep(s, [x]);
    assert IndexOf(s, x) == |s| - 1;
    assert [x][1..] == [];
  }

  lemma MissingOnExample(ac: seq<Combination>)
    requires ac == [[0, 0], [0, 1], [1, 0], [2, 0], [1, 1], [2, 1]]
    ensures Missing(ac, 3, 0, 3) == {2}
  {
    var m := Missing(ac, 3, 0, 3);
    assert ac[2][0] == 1 && ac[0][0] == 0;
    assert forall j :: 0 <= j < 3 ==> ac[j][0] != 2;
    forall v ensures v in m <==> v == 2 {
    }
  }

  lemma ScanOnExample(ac: seq<Combination>, name: string)
    requires ac == [[0, 0], [0, 1], [1, 0], [2, 0], [1, 1], [2, 1]]
    ensures ScanFixed(ac, 0, name, {2}, 5, []) == Ok([ac[5]])
  {
    assert ScanFixed(ac, 0, name, {}, 4, [ac[5]]) == Ok([ac[5]]);
    assert {2} - {ac[5][0]} == {} && [] + [ac[5]] == [ac[5]];
  }
}
