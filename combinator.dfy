/**
 * `Combinator`: the combinations of one template's placeholders, handed out
 * without replacement. `available` holds those not yet handed out, `used`
 * those that were; `count` is the size of the whole space.
 *
 * The shuffle before filling `available` only affects the order of a set and
 * is not modelled; the element `set.pop` removes and the one
 * `random.choice` picks from `used` are left unspecified (`:|`).
 */
module Combinator {
  import opened Wrappers
  import opened Errors
  import opened CombinationIndex
  import opened Placeholder
  import Priorities

  /** The `index_range` of each placeholder, in template order. */
  function Ranges(ps: seq<PlaceHolder>): (r: seq<nat>)
    ensures |r| == |ps| && forall i :: 0 <= i < |ps| ==> r[i] == ps[i].indexRange
  {
    seq(|ps|, i requires 0 <= i < |ps| => ps[i].indexRange)
  }

  /** The sum of `index_range` over the priority placeholders. */
  function PrioritySum(ps: seq<PlaceHolder>): nat
  {
    if ps == [] then 0 else (if ps[0].priority then ps[0].indexRange else 0) + PrioritySum(ps[1..])
  }

  /** Each priority placeholder's range is part of the sum. */
  lemma {:induction false} PrioritySumCovers(ps: seq<PlaceHolder>)
    ensures forall i :: 0 <= i < |ps| && ps[i].priority ==> ps[i].indexRange <= PrioritySum(ps)
    ensures (forall i :: 0 <= i < |ps| ==> !ps[i].priority) ==> PrioritySum(ps) == 0
  {
    if ps != [] {
      PrioritySumCovers(ps[1..]);
      assert forall i :: 1 <= i < |ps| ==> ps[i] == ps[1..][i - 1];
    }
  }

  class Combinator {
    var available: set<Combination>
    var used: set<Combination>
    var count: int
    const placeholders: seq<PlaceHolder>

    /** Every combination still available has one index per placeholder. */
    ghost predicate Valid()
      reads this
    {
      forall c :: c in available ==> |c| == |placeholders|
    }

    constructor(placeholders: seq<PlaceHolder>)
      ensures this.placeholders == placeholders && used == {}
      ensures count == Product(Ranges(placeholders))
      ensures forall c :: c in available <==> placeholders != [] && InRange(c, Ranges(placeholders))
      ensures placeholders != [] ==> |available| == count
      ensures placeholders == [] ==> available == {}
      ensures Valid()
    {
      available := {};
      used := {};
      count := 1;
      this.placeholders := placeholders;
      new;
      ResetCombinations();
    }

    /**
     * `reset_combinations`: `count` becomes the product of the ranges, and
     * with at least one placeholder `available` becomes the whole space;
     * with none, `available` is left as it was.
     */
    method ResetCombinations()
      requires Valid()
      modifies this`available, this`count
      ensures Valid()
      ensures count == Product(Ranges(placeholders))
      ensures placeholders != [] ==> forall c :: c in available <==> InRange(c, Ranges(placeholders))
      ensures placeholders != [] ==> |available| == count
      ensures placeholders == [] ==> available == old(available)
    {
      var values: seq<nat> := [];
      count := 1;
      for i := 0 to |placeholders|
        invariant values == Ranges(placeholders)[..i]
        invariant count == Product(values)
        invariant available == old(available)
      {
        ProductSnoc(values, placeholders[i].indexRange);
        values := values + [placeholders[i].indexRange];
        count := count * placeholders[i].indexRange;
      }
      assert values == Ranges(placeholders) && |values| == |placeholders|;
      if values != [] {
        var all := ProductSeq(values);
        AllCombinationsSize(values);
        available := set c | c in all;
        assert forall c :: c in available ==> InRange(c, values);
      }
    }

    /**
     * One step of the `get` generator: while `available` is not empty, one of
     * its combinations moves to `used` and is handed out.
     */
    method Get() returns (c: Option<Combination>)
      requires Valid()
      modifies this`available, this`used
      ensures Valid()
      ensures old(available) == {} ==> c == None && available == {} && used == old(used)
      ensures old(available) != {} ==>
                && c.Some? && c.value in old(available)
                && available == old(available) - {c.value} && used == old(used) + {c.value}
      ensures available + used == old(available + used)
      ensures old(available !! used) ==> available !! used
    {
      if available == {} {
        c := None;
      } else {
        var x :| x in available;
        available := available - {x};
        used := used + {x};
        c := Some(x);
      }
    }

    /**
     * Running the `get` generator to its end: every combination that was
     * available is handed out once, and all of them end up in `used`.
     */
    method TakeAll() returns (drawn: seq<Combination>)
      requires Valid()
      modifies this`available, this`used
      ensures Valid()
      ensures available == {} && used == old(used) + old(available)
      ensures forall c :: c in drawn <==> c in old(available)
      ensures forall i, j :: 0 <= i < j < |drawn| ==> drawn[i] != drawn[j]
      ensures |drawn| == |old(available)|
    {
      drawn := [];
      while available != {}
        invariant Valid()
        invariant forall c :: c in old(available) <==> c in available || c in drawn
        invariant forall c :: c in drawn ==> c !in available
        invariant forall i, j :: 0 <= i < j < |drawn| ==> drawn[i] != drawn[j]
        invariant forall c :: c in used <==> c in old(used) || c in drawn
        invariant |drawn| + |available| == |old(available)|
        decreases |available|
      {
        var c := Get();
        drawn := drawn + [c.value];
      }
    }

    /** `get_used`: some combination handed out before, or None when there is none. */
    method GetUsed() returns (c: Option<Combination>)
      ensures c.None? <==> used == {}
      ensures c.Some? ==> c.value in used
    {
      if used == {} {
        c := None;
      } else {
        var x :| x in used;
        c := Some(x);
      }
    }

    /**
     * `get_min_combinations`: the sum of the priority placeholders' ranges,
     * or 1 when that sum is 0; never 0, and at least each priority range.
     */
    function GetMinCombinations(): (n: nat)
      ensures n >= 1
      ensures PrioritySum(placeholders) != 0 ==> n == PrioritySum(placeholders)
      ensures forall i :: 0 <= i < |placeholders| && placeholders[i].priority ==> placeholders[i].indexRange <= n
    {
      PrioritySumCovers(placeholders);
      var total := PrioritySum(placeholders);
      if total == 0 then 1 else total
    }

    /**
     * `ensure_priorities(num)` on `order`, the list `list(self.available)`:
     * the reordered list, or the error that stops it. Each write-back of
     * `set(available_combinations)` stores the same set again, so the state
     * is unchanged; the order is what the method computes.
     */
    method EnsurePriorities(order: seq<Combination>, num: nat) returns (r: Result<seq<Combination>, Error>)
      requires Valid()
      requires forall c :: c in order <==> c in available
      ensures Priorities.Width(order, |placeholders|)
      ensures r == Priorities.EnsurePriorities(order, num, placeholders)
      ensures r.Ok? ==> multiset(r.value) == multiset(order)
    {
      var ac := order;
      assert forall j :: 0 <= j < |order| ==> order[j] in available;
      for k := 0 to |placeholders|
        invariant Priorities.Width(ac, |placeholders|)
        invariant Priorities.EnsureFrom(ac, num, placeholders, k) == Priorities.EnsureFrom(order, num, placeholders, 0)
      {
        var p := placeholders[k];
        if p.priority {
          var missing := Priorities.Missing(ac, num, k, p.indexRange);
          if missing != {} {
            var found := Scan(ac, k, p.name, missing);
            if found.Err? {
              return Err(found.error);
            }
            var next := MoveEach(ac, found.value);
            Priorities.WidthPerm(ac, next, |placeholders|);
            ac := next;
          }
        }
      }
      return Ok(ac);
    }
  }

  /**
   * The backward scan for the combinations carrying the `missing` values at
   * position `pi`, with the bound check of the fixed scan.
   */
  method Scan(ac: seq<Combination>, pi: nat, name: string, missing0: set<int>) returns (r: Result<seq<Combination>, Error>)
    requires Priorities.HasPosition(ac, pi)
    ensures r == Priorities.ScanFixed(ac, pi, name, missing0, |ac| - 1, [])
  {
    var missing := missing0;
    var moveList: seq<Combination> := [];
    var ti := |ac| - 1;
    while missing != {}
      invariant -1 <= ti < |ac|
      invariant Priorities.ScanFixed(ac, pi, name, missing, ti, moveList)
             == Priorities.ScanFixed(ac, pi, name, missing0, |ac| - 1, [])
      decreases ti + 1
    {
      if ti < 0 {
        return Err(Priorities.Unfound(name));
      }
      if ac[ti][pi] in missing {
        moveList := moveList + [ac[ti]];
        missing := missing - {ac[ti][pi]};
      }
      ti := ti - 1;
    }
    return Ok(moveList);
  }

  /** Each combination of `moves`, in order, popped from the list and inserted at its front. */
  method MoveEach(ac0: seq<Combination>, moves: seq<Combination>) returns (ac: seq<Combination>)
    requires forall m :: m in moves ==> m in ac0
    ensures ac == Priorities.MoveAll(ac0, moves)
  {
    ac := ac0;
    for m := 0 to |moves|
      invariant forall x :: x in moves[m..] ==> x in ac
      invariant Priorities.MoveAll(ac, moves[m..]) == Priorities.MoveAll(ac0, moves)
    {
      Priorities.MoveAllStep(ac, moves[m..]);
      assert moves[m..][0] == moves[m] && moves[m..][1..] == moves[m + 1..];
      var i := Priorities.IndexOf(ac, moves[m]);
      var c := ac[i];
      var rest := ac[..i] + ac[i + 1..];
      ac := [c] + rest;
    }
  }
}
