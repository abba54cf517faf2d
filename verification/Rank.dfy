/** Stable sorting by descending cost, as `sort.SliceStable` does it, and why its result is unique. */
module Rank {
  /** Puts `x` after everything at least as costly. */
  function Place<T>(x: T, s: seq<T>, cost: T -> real): seq<T> {
    if s == [] then [x]
    else if cost(s[0]) < cost(x) then [x] + s
    else [s[0]] + Place(x, s[1..], cost)
  }

  function SortDesc<T>(xs: seq<T>, cost: T -> real): seq<T> {
    if xs == [] then [] else Place(xs[|xs| - 1], SortDesc(xs[..|xs| - 1], cost), cost)
  }

  ghost predicate Descending<T>(s: seq<T>, cost: T -> real) {
    forall i, j | 0 <= i < j < |s| :: cost(s[i]) >= cost(s[j])
  }

  /** The elements of one cost, in order. */
  function AtCost<T>(s: seq<T>, cost: T -> real, c: real): seq<T> {
    if s == [] then [] else Hit(s[0], cost, c) + AtCost(s[1..], cost, c)
  }

  function Hit<T>(x: T, cost: T -> real, c: real): seq<T> {
    if cost(x) == c then [x] else []
  }

  lemma AtCostCons<T>(x: T, s: seq<T>, cost: T -> real, c: real)
    ensures AtCost([x] + s, cost, c) == Hit(x, cost, c) + AtCost(s, cost, c)
  {
    hide Hit;
    assert ([x] + s)[1..] == s;
  }

  /** A stable descending rearrangement: falling cost, and equal costs in their original order. */
  ghost predicate Ranks<T>(s: seq<T>, xs: seq<T>, cost: T -> real) {
    Descending(s, cost) && forall c :: AtCost(s, cost, c) == AtCost(xs, cost, c)
  }

  lemma {:induction false} AtCostConcat<T>(a: seq<T>, b: seq<T>, cost: T -> real, c: real)
    ensures AtCost(a + b, cost, c) == AtCost(a, cost, c) + AtCost(b, cost, c)
  {
    hide Hit;
    if a == [] {
      assert a + b == b;
    } else {
      assert (a + b)[1..] == a[1..] + b;
      AtCostConcat(a[1..], b, cost, c);
      Regroup(Hit(a[0], cost, c), AtCost(a[1..], cost, c), AtCost(b, cost, c));
    }
  }

  lemma Regroup<T>(a: seq<T>, b: seq<T>, c: seq<T>)
    ensures a + (b + c) == (a + b) + c
  {
  }

  lemma {:induction false} AtCostNone<T>(s: seq<T>, cost: T -> real, c: real)
    ensures AtCost(s, cost, c) == [] <==> forall x <- s :: cost(x) != c
    ensures forall x <- AtCost(s, cost, c) :: x in s && cost(x) == c
  {
    if s != [] {
      AtCostNone(s[1..], cost, c);
      assert forall x <- s :: x == s[0] || x in s[1..];
      assert s[0] in s && forall x <- s[1..] :: x in s;
    }
  }

  lemma {:induction false} PlaceAdds<T>(x: T, s: seq<T>, cost: T -> real)
    ensures multiset(Place(x, s, cost)) == multiset(s) + multiset{x}
  {
    if s != [] && cost(s[0]) >= cost(x) {
      PlaceAdds(x, s[1..], cost);
      assert s == [s[0]] + s[1..];
    }
  }

  lemma {:induction false} PlaceDescends<T>(x: T, s: seq<T>, cost: T -> real)
    requires Descending(s, cost)
    ensures Descending(Place(x, s, cost), cost)
  {
    if s != [] && cost(s[0]) >= cost(x) {
      PlaceDescends(x, s[1..], cost);
      PlaceAdds(x, s[1..], cost);
      var t := Place(x, s[1..], cost);
      forall i | 0 <= i < |t| ensures cost(s[0]) >= cost(t[i]) {
        assert t[i] in multiset(s[1..]) + multiset{x};
      }
    }
  }

  lemma {:induction false} PlaceLast<T>(x: T, s: seq<T>, cost: T -> real, c: real)
    requires Descending(s, cost)
    ensures AtCost(Place(x, s, cost), cost, c) == AtCost(s, cost, c) + Hit(x, cost, c)
  {
    if s == [] || cost(s[0]) < cost(x) {
      AtCostCons(x, s, cost, c);
      if cost(x) == c {
        AtCostNone(s, cost, c);
      }
    } else {
      hide Hit;
      PlaceLast(x, s[1..], cost, c);
      AtCostCons(s[0], Place(x, s[1..], cost), cost, c);
      Regroup(Hit(s[0], cost, c), AtCost(s[1..], cost, c), Hit(x, cost, c));
    }
  }

  /** Sorting is a permutation, falls in cost, and keeps the order of equal costs. */
  lemma {:induction false} SortRanks<T>(xs: seq<T>, cost: T -> real)
    ensures Ranks(SortDesc(xs, cost), xs, cost)
    ensures multiset(SortDesc(xs, cost)) == multiset(xs)
  {
    if xs != [] {
      var init, x := xs[..|xs| - 1], xs[|xs| - 1];
      SortRanks(init, cost);
      PlaceAdds(x, SortDesc(init, cost), cost);
      PlaceDescends(x, SortDesc(init, cost), cost);
      assert xs == init + [x];
      forall c ensures AtCost(SortDesc(xs, cost), cost, c) == AtCost(xs, cost, c) {
        PlaceLast(x, SortDesc(init, cost), cost, c);
        AtCostConcat(init, [x], cost, c);
        AtCostCons(x, [], cost, c);
        assert [x] + [] == [x];
      }
    }
  }

  lemma {:induction false} FirstAtCost<T>(s: seq<T>, cost: T -> real)
    requires s != []
    ensures AtCost(s, cost, cost(s[0])) != [] && AtCost(s, cost, cost(s[0]))[0] == s[0]
  {
  }

  lemma NothingAtAnyCost<T>(t: seq<T>, cost: T -> real)
    requires forall c :: AtCost(t, cost, c) == []
    ensures t == []
  {
    if t != [] {
      FirstAtCost(t, cost);
    }
  }

  lemma {:induction false} TailAtCost<T>(s: seq<T>, t: seq<T>, cost: T -> real, c: real)
    requires s != [] && t != [] && cost(s[0]) == cost(t[0]) && AtCost(s, cost, c) == AtCost(t, cost, c)
    ensures AtCost(s[1..], cost, c) == AtCost(t[1..], cost, c)
  {
    var n := if cost(s[0]) == c then 1 else 0;
    assert AtCost(s, cost, c)[n..] == AtCost(s[1..], cost, c);
    assert AtCost(t, cost, c)[n..] == AtCost(t[1..], cost, c);
  }

  lemma FirstDearest<T>(s: seq<T>, cost: T -> real, c: real)
    requires Descending(s, cost) && AtCost(s, cost, c) != []
    ensures s != [] && cost(s[0]) >= c
  {
    hide AtCost;
    AtCostNone(s, cost, c);
    var x :| x in s && cost(x) == c;
    var i :| 0 <= i < |s| && s[i] == x;
  }

  lemma SameFirst<T>(s: seq<T>, t: seq<T>, cost: T -> real)
    requires Descending(s, cost) && Descending(t, cost) && s != []
    requires forall c :: AtCost(s, cost, c) == AtCost(t, cost, c)
    ensures t != [] && cost(s[0]) == cost(t[0]) && s[0] == t[0]
  {
    hide AtCost, Descending;
    FirstAtCost(s, cost);
    FirstDearest(t, cost, cost(s[0]));
    FirstAtCost(t, cost);
    FirstDearest(s, cost, cost(t[0]));
  }

  /** There is only one stable descending rearrangement. */
  lemma {:induction false} RankUnique<T>(s: seq<T>, t: seq<T>, cost: T -> real)
    requires Descending(s, cost) && Descending(t, cost)
    requires forall c :: AtCost(s, cost, c) == AtCost(t, cost, c)
    ensures s == t
  {
    if s == [] {
      NothingAtAnyCost(t, cost);
    } else {
      SameFirst(s, t, cost);
      forall c ensures AtCost(s[1..], cost, c) == AtCost(t[1..], cost, c) {
        TailAtCost(s, t, cost, c);
      }
      RankUnique(s[1..], t[1..], cost);
      assert s == [s[0]] + s[1..] && t == [t[0]] + t[1..];
    }
  }
}
