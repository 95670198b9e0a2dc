/** The visit route planner: try every order of the properties, keep the best one, lay the visits out in time. */
module RoutePlanner {
  import opened Common
  import opened RouteMatrix

  /** A property on the plan; routeIndex is its 1-based position in the list it came in. */
  datatype Property = Property(routeIndex: nat, id: string)

  // ---------- the orders ----------

  function RemoveAt(items: seq<Property>, i: nat): seq<Property>
    requires i < |items|
  {
    items[..i] + items[i + 1..]
  }

  function Prefixed(head: Property, rests: seq<seq<Property>>): (r: seq<seq<Property>>)
    ensures |r| == |rests| && forall i :: 0 <= i < |r| ==> r[i] == [head] + rests[i]
  {
    seq(|rests|, i requires 0 <= i < |rests| => [head] + rests[i])
  }

  function Permutations(items: seq<Property>): seq<seq<Property>>
    decreases |items|, |items| + 1
  {
    if |items| <= 1 then [items] else PermutationsFrom(items, 0)
  }

  /** The orders that start with one of the items from position i on. */
  function PermutationsFrom(items: seq<Property>, i: nat): seq<seq<Property>>
    requires i <= |items|
    decreases |items|, |items| - i
  {
    if i == |items| then []
    else Prefixed(items[i], Permutations(RemoveAt(items, i))) + PermutationsFrom(items, i + 1)
  }

  ghost predicate DistinctIds(s: seq<Property>) {
    forall i, j :: 0 <= i < j < |s| ==> s[i].id != s[j].id
  }

  /** p visits every item once and nothing else. */
  ghost predicate IsOrder(p: seq<Property>, items: seq<Property>) {
    |p| == |items| && DistinctIds(p) && forall i :: 0 <= i < |p| ==> p[i] in items
  }

  function Factorial(n: nat): nat {
    if n == 0 then 1 else n * Factorial(n - 1)
  }

  lemma HeadJoinsOrder(items: seq<Property>, i: nat, rest: seq<Property>)
    requires DistinctIds(items) && i < |items| && IsOrder(rest, RemoveAt(items, i))
    ensures IsOrder([items[i]] + rest, items)
  {
    var p := [items[i]] + rest;
    forall k | 0 <= k < |rest|
      ensures rest[k] in items && rest[k].id != items[i].id
    {
      var m :| 0 <= m < |items| - 1 && RemoveAt(items, i)[m] == rest[k];
      assert rest[k] == items[if m < i then m else m + 1];
    }
    assert forall k :: 1 <= k < |p| ==> p[k] == rest[k - 1];
  }

  lemma {:induction false} PermutationsAreOrders(items: seq<Property>, p: seq<Property>)
    requires DistinctIds(items) && p in Permutations(items)
    ensures IsOrder(p, items)
    decreases |items|, |items| + 1
  {
    if |items| > 1 {
      PermutationsFromAreOrders(items, 0, p);
    }
  }

  lemma {:induction false} PermutationsFromAreOrders(items: seq<Property>, i: nat, p: seq<Property>)
    requires DistinctIds(items) && |items| > 1 && i <= |items| && p in PermutationsFrom(items, i)
    ensures IsOrder(p, items) && exists k :: i <= k < |items| && p[0] == items[k]
    decreases |items|, |items| - i
  {
    var rests := Permutations(RemoveAt(items, i));
    if p in Prefixed(items[i], rests) {
      var n :| 0 <= n < |rests| && p == [items[i]] + rests[n];
      PermutationsAreOrders(RemoveAt(items, i), rests[n]);
      HeadJoinsOrder(items, i, rests[n]);
    } else {
      PermutationsFromAreOrders(items, i + 1, p);
    }
  }

  lemma OthersRemain(items: seq<Property>, k: nat, other: Property)
    requires k < |items| && other in items && other != items[k]
    ensures other in RemoveAt(items, k)
  {
    var m :| 0 <= m < |items| && items[m] == other;
    if m < k {
      assert RemoveAt(items, k)[m] == items[m];
    } else {
      assert RemoveAt(items, k)[m - 1] == items[m];
    }
  }

  lemma {:induction false} OrdersArePermutations(items: seq<Property>, p: seq<Property>)
    requires DistinctIds(items) && IsOrder(p, items)
    ensures p in Permutations(items)
    decreases |items|
  {
    if |items| == 1 {
      assert p == items;
    } else if |items| > 1 {
      var k :| 0 <= k < |items| && items[k] == p[0];
      var rest := p[1..];
      forall i | 0 <= i < |rest|
        ensures rest[i] in RemoveAt(items, k)
      {
        assert rest[i] == p[i + 1] && p[0].id != p[i + 1].id;
        OthersRemain(items, k, rest[i]);
      }
      OrdersArePermutations(RemoveAt(items, k), rest);
      assert p == [items[k]] + rest;
      StartsSomewhere(items, 0, k, p);
    }
  }

  lemma {:induction false} StartsSomewhere(items: seq<Property>, i: nat, k: nat, p: seq<Property>)
    requires i <= k < |items| && p in Prefixed(items[k], Permutations(RemoveAt(items, k)))
    ensures p in PermutationsFrom(items, i)
    decreases k - i
  {
    if i < k {
      StartsSomewhere(items, i + 1, k, p);
    }
  }

  ghost predicate NoRepeats(ps: seq<seq<Property>>) {
    forall i, j :: 0 <= i < j < |ps| ==> ps[i] != ps[j]
  }

  lemma PrefixingKeepsNoRepeats(head: Property, rests: seq<seq<Property>>)
    requires NoRepeats(rests)
    ensures NoRepeats(Prefixed(head, rests))
  {
    var heads := Prefixed(head, rests);
    forall a, b | 0 <= a < b < |heads|
      ensures heads[a] != heads[b]
    {
      assert heads[a][1..] == rests[a] && heads[b][1..] == rests[b];
    }
  }

  lemma LaterStartsDiffer(items: seq<Property>, i: nat, p: seq<Property>)
    requires DistinctIds(items) && |items| > 1 && i < |items| && p in PermutationsFrom(items, i + 1)
    ensures |p| > 0 && p[0] != items[i]
  {
    PermutationsFromAreOrders(items, i + 1, p);
  }

  lemma Times(n: int, f: int)
    ensures n * f == f + (n - 1) * f
  {
  }

  lemma JoiningKeepsNoRepeats(a: seq<seq<Property>>, b: seq<seq<Property>>)
    requires NoRepeats(a) && NoRepeats(b) && forall i, j :: 0 <= i < |a| && 0 <= j < |b| ==> a[i] != b[j]
    ensures NoRepeats(a + b)
  {
  }

  lemma {:induction false} PermutationsCount(items: seq<Property>)
    requires DistinctIds(items)
    ensures NoRepeats(Permutations(items)) && |Permutations(items)| == Factorial(|items|)
    decreases |items|, |items| + 1
  {
    if |items| == 1 {
      assert Factorial(1) == 1 * Factorial(0);
    } else if |items| > 1 {
      PermutationsFromCount(items, 0);
    }
  }

  lemma {:induction false} PermutationsFromCount(items: seq<Property>, i: nat)
    requires DistinctIds(items) && |items| > 1 && i <= |items|
    ensures NoRepeats(PermutationsFrom(items, i))
    ensures |PermutationsFrom(items, i)| == (|items| - i) * Factorial(|items| - 1)
    decreases |items|, |items| - i
  {
    if i < |items| {
      var rests := Permutations(RemoveAt(items, i));
      var heads := Prefixed(items[i], rests);
      var tails := PermutationsFrom(items, i + 1);
      PermutationsCount(RemoveAt(items, i));
      PermutationsFromCount(items, i + 1);
      forall b | 0 <= b < |tails|
        ensures |tails[b]| > 0 && tails[b][0] != items[i]
      {
        LaterStartsDiffer(items, i, tails[b]);
      }
      PrefixingKeepsNoRepeats(items[i], rests);
      JoiningKeepsNoRepeats(heads, tails);
      Times(|items| - i, Factorial(|items| - 1));
    }
  }

  // ---------- ties ----------

  /** The order JavaScript gives strings of equal-width characters. */
  predicate StringLess(a: string, b: string)
    decreases |a|
  {
    if b == [] then false
    else if a == [] then true
    else if a[0] != b[0] then a[0] < b[0]
    else StringLess(a[1..], b[1..])
  }

  lemma {:induction false} StringLessIsTotal(a: string, b: string)
    ensures a == b ==> !StringLess(a, b) && !StringLess(b, a)
    ensures a != b ==> (StringLess(a, b) <==> !StringLess(b, a))
    decreases |a|
  {
    if a != [] && b != [] && a[0] == b[0] {
      assert a == [a[0]] + a[1..] && b == [b[0]] + b[1..];
      StringLessIsTotal(a[1..], b[1..]);
    }
  }

  lemma {:induction false} StringLessIsTransitive(a: string, b: string, c: string)
    requires StringLess(a, b) && StringLess(b, c)
    ensures StringLess(a, c)
    decreases |a|
  {
    if a != [] && a[0] == b[0] && b[0] == c[0] {
      StringLessIsTransitive(a[1..], b[1..], c[1..]);
    }
  }

  /** The ids joined with ':'. */
  function Key(p: seq<Property>): string {
    if p == [] then []
    else if |p| == 1 then p[0].id
    else p[0].id + ":" + Key(p[1..])
  }

  function Ids(p: seq<Property>): (ids: seq<string>)
    ensures |ids| == |p| && forall i :: 0 <= i < |p| ==> ids[i] == p[i].id
  {
    seq(|p|, i requires 0 <= i < |p| => p[i].id)
  }

  ghost predicate Fixed(p: seq<Property>, width: nat) {
    forall i :: 0 <= i < |p| ==> |p[i].id| == width
  }

  /** With ids of one width, as UUIDs are, the joined key determines the order. */
  lemma {:induction false} KeyIsInjective(p: seq<Property>, q: seq<Property>, width: nat)
    requires |p| == |q| && Fixed(p, width) && Fixed(q, width) && Key(p) == Key(q)
    ensures Ids(p) == Ids(q)
    decreases |p|
  {
    if |p| == 1 {
    } else if |p| > 1 {
      assert Key(p)[..width] == p[0].id && Key(q)[..width] == q[0].id;
      assert Key(p)[width + 1..] == Key(p[1..]) && Key(q)[width + 1..] == Key(q[1..]);
      KeyIsInjective(p[1..], q[1..], width);
      assert Ids(p)[1..] == Ids(p[1..]) && Ids(q)[1..] == Ids(q[1..]);
      forall i | 0 <= i < |p|
        ensures Ids(p)[i] == Ids(q)[i]
      {
        if i > 0 {
          assert Ids(p)[i] == Ids(p)[1..][i - 1] && Ids(q)[i] == Ids(q)[1..][i - 1];
        }
      }
    }
  }

  // ---------- what the comparison of keys means ----------

  /** The first character that differs is smaller. */
  ghost predicate TextBefore(a: string, b: string) {
    exists k :: 0 <= k < |a| && k < |b| && a[..k] == b[..k] && a[k] < b[k]
  }

  /** At the first visit that differs, the id is smaller. */
  ghost predicate IdsBefore(p: seq<Property>, q: seq<Property>) {
    exists k :: FirstDifference(p, q, k) && TextBefore(p[k].id, q[k].id)
  }

  ghost predicate FirstDifference(p: seq<Property>, q: seq<Property>, k: int) {
    0 <= k < |p| && k < |q| && forall i :: 0 <= i < k ==> p[i].id == q[i].id
  }

  lemma {:induction false} SmallerTextIsBefore(a: string, b: string)
    requires |a| == |b| && StringLess(a, b)
    ensures TextBefore(a, b)
    decreases |a|
  {
    if a[0] < b[0] {
      assert a[..0] == b[..0];
    } else {
      SmallerTextIsBefore(a[1..], b[1..]);
      var k :| 0 <= k < |a| - 1 && a[1..][..k] == b[1..][..k] && a[1..][k] < b[1..][k];
      assert a[..k + 1] == [a[0]] + a[1..][..k] && b[..k + 1] == [b[0]] + b[1..][..k];
      assert a[k + 1] < b[k + 1];
    }
  }

  lemma {:induction false} FrontsDecide(x: string, a: string, y: string, b: string)
    requires |x| == |y| && StringLess(x + a, y + b)
    ensures if x == y then StringLess(a, b) else StringLess(x, y)
    decreases |x|
  {
    if x == [] {
      assert x + a == a && y + b == b;
    } else {
      assert (x + a)[1..] == x[1..] + a && (y + b)[1..] == y[1..] + b;
      assert x == [x[0]] + x[1..] && y == [y[0]] + y[1..];
      if x[0] == y[0] {
        FrontsDecide(x[1..], a, y[1..], b);
      }
    }
  }

  /** Of two orders of equally many properties the smaller key belongs to the one whose ids come first. */
  lemma {:induction false} SmallerKeyIsBefore(p: seq<Property>, q: seq<Property>, width: nat)
    requires |p| == |q| && Fixed(p, width) && Fixed(q, width) && StringLess(Key(p), Key(q))
    ensures IdsBefore(p, q)
    decreases |p|
  {
    if |p| == 1 {
      SmallerTextIsBefore(p[0].id, q[0].id);
      assert FirstDifference(p, q, 0);
    } else {
      assert Key(p) == p[0].id + (":" + Key(p[1..])) && Key(q) == q[0].id + (":" + Key(q[1..]));
      FrontsDecide(p[0].id, ":" + Key(p[1..]), q[0].id, ":" + Key(q[1..]));
      if p[0].id != q[0].id {
        SmallerTextIsBefore(p[0].id, q[0].id);
        assert FirstDifference(p, q, 0);
      } else {
        FrontsDecide(":", Key(p[1..]), ":", Key(q[1..]));
        SmallerKeyIsBefore(p[1..], q[1..], width);
        LaterIdsDecide(p, q);
      }
    }
  }

  lemma LaterIdsDecide(p: seq<Property>, q: seq<Property>)
    requires p != [] && q != [] && p[0].id == q[0].id && IdsBefore(p[1..], q[1..])
    ensures IdsBefore(p, q)
  {
    var k :| FirstDifference(p[1..], q[1..], k) && TextBefore(p[1..][k].id, q[1..][k].id);
    forall i | 0 <= i < k + 1
      ensures p[i].id == q[i].id
    {
      assert i > 0 ==> p[1..][i - 1].id == q[1..][i - 1].id;
    }
    assert FirstDifference(p, q, k + 1) && p[k + 1] == p[1..][k] && q[k + 1] == q[1..][k];
  }

  datatype Cost = Cost(minutes: int, distance: real)

  /** Less time, then less distance, then the smaller key. */
  predicate Precedes(a: Cost, p: seq<Property>, b: Cost, q: seq<Property>) {
    || a.minutes < b.minutes
    || (a.minutes == b.minutes && a.distance < b.distance)
    || (a.minutes == b.minutes && a.distance == b.distance && StringLess(Key(p), Key(q)))
  }

  // ---------- the cost of an order ----------

  predicate HasLegs(m: Matrix, p: seq<Property>) {
    forall i :: 0 <= i < |p| ==> (StopBefore(p, i), p[i].routeIndex) in m
  }

  function StopBefore(p: seq<Property>, i: nat): nat
    requires i <= |p|
  {
    if i == 0 then 0 else p[i - 1].routeIndex
  }

  function TravelCost(m: Matrix, p: seq<Property>): Cost
    requires HasLegs(m, p)
    decreases |p|
  {
    if p == [] then Cost(0, 0.0)
    else
      var last := |p| - 1;
      assert forall i :: 0 <= i < last ==> (StopBefore(p, i), p[i].routeIndex) in m;
      var before := TravelCost(m, p[..last]);
      var leg := m[(StopBefore(p, last), p[last].routeIndex)];
      Cost(before.minutes + leg.travelMinutes, before.distance + leg.distanceKm)
  }

  type Distance = (Option<Property>, Property) -> real

  /** The straight-line length of an order; None stands for the starting point. */
  function PathDistance(d: Distance, p: seq<Property>): real {
    if p == [] then 0.0
    else
      var last := |p| - 1;
      PathDistance(d, p[..last]) + d(if last == 0 then None else Some(p[last - 1]), p[last])
  }

  ghost function CostByTime(m: Matrix, p: seq<Property>): Cost {
    if HasLegs(m, p) then TravelCost(m, p) else Cost(0, 0.0)
  }

  ghost function CostByDistance(d: Distance, p: seq<Property>): Cost {
    Cost(0, PathDistance(d, p))
  }

  // ---------- the search ----------

  /** r is an order of the items and comes strictly before every other one. */
  ghost predicate Least(cost: seq<Property> -> Cost, items: seq<Property>, r: seq<Property>) {
    IsOrder(r, items) && forall q :: IsOrder(q, items) && q != r ==> Precedes(cost(r), r, cost(q), q)
  }

  lemma IdsDetermineOrder(items: seq<Property>, p: seq<Property>, q: seq<Property>)
    requires DistinctIds(items) && IsOrder(p, items) && IsOrder(q, items) && Ids(p) == Ids(q)
    ensures p == q
  {
    forall i | 0 <= i < |p|
      ensures p[i] == q[i]
    {
      assert Ids(p)[i] == Ids(q)[i];
      assert p[i] in items && q[i] in items;
    }
  }

  /** Of two different orders, exactly one comes first. */
  lemma PrecedesIsTotal(items: seq<Property>, width: nat, a: Cost, p: seq<Property>, b: Cost, q: seq<Property>)
    requires DistinctIds(items) && Fixed(items, width) && IsOrder(p, items) && IsOrder(q, items) && p != q
    ensures Precedes(a, p, b, q) <==> !Precedes(b, q, a, p)
  {
    assert Fixed(p, width) && Fixed(q, width);
    if Key(p) == Key(q) {
      KeyIsInjective(p, q, width);
      IdsDetermineOrder(items, p, q);
    }
    StringLessIsTotal(Key(p), Key(q));
  }

  lemma PrecedesIsTransitive(a: Cost, p: seq<Property>, b: Cost, q: seq<Property>, c: Cost, r: seq<Property>)
    requires Precedes(a, p, b, q) && Precedes(b, q, c, r)
    ensures Precedes(a, p, c, r)
  {
    if StringLess(Key(p), Key(q)) && StringLess(Key(q), Key(r)) {
      StringLessIsTransitive(Key(p), Key(q), Key(r));
    }
  }

  /** Less time, or as much time and a shorter way, or the same cost and the smaller ids first. */
  ghost predicate Better(a: Cost, p: seq<Property>, b: Cost, q: seq<Property>) {
    if a.minutes != b.minutes then a.minutes < b.minutes
    else if a.distance != b.distance then a.distance < b.distance
    else IdsBefore(p, q)
  }

  lemma LeastIsBest(cost: seq<Property> -> Cost, items: seq<Property>, r: seq<Property>, width: nat)
    requires Least(cost, items, r) && Fixed(items, width)
    ensures forall q :: IsOrder(q, items) && q != r ==> Better(cost(r), r, cost(q), q)
  {
    forall q | IsOrder(q, items) && q != r
      ensures Better(cost(r), r, cost(q), q)
    {
      assert Precedes(cost(r), r, cost(q), q) && Fixed(r, width) && Fixed(q, width);
      if cost(r) == cost(q) {
        SmallerKeyIsBefore(r, q, width);
      }
    }
  }

  /** The scan's invariant: best leads the first n candidates. */
  ghost predicate Leads(cost: seq<Property> -> Cost, candidates: seq<seq<Property>>, n: nat, best: seq<Property>)
    requires n <= |candidates|
  {
    && best in candidates[..n]
    && forall k :: 0 <= k < n && candidates[k] != best ==> Precedes(cost(best), best, cost(candidates[k]), candidates[k])
  }

  /** Keeping the better of the leader and the next candidate keeps the lead. */
  lemma ScanStep(cost: seq<Property> -> Cost, items: seq<Property>, width: nat,
                 candidates: seq<seq<Property>>, n: nat, best: seq<Property>, best': seq<Property>)
    requires DistinctIds(items) && Fixed(items, width) && n < |candidates| && Leads(cost, candidates, n, best)
    requires IsOrder(candidates[n], items) && IsOrder(best, items)
    requires var next := candidates[n];
             best' == if Precedes(cost(next), next, cost(best), best) then next else best
    ensures Leads(cost, candidates, n + 1, best')
  {
    var next := candidates[n];
    if best' == next && next != best {
      forall k | 0 <= k < n && candidates[k] != next
        ensures Precedes(cost(next), next, cost(candidates[k]), candidates[k])
      {
        if candidates[k] != best {
          PrecedesIsTransitive(cost(next), next, cost(best), best, cost(candidates[k]), candidates[k]);
        }
      }
    } else if next != best {
      PrecedesIsTotal(items, width, cost(best), best, cost(next), next);
    }
  }

  lemma LeaderIsLeast(cost: seq<Property> -> Cost, items: seq<Property>, best: seq<Property>)
    requires DistinctIds(items) && Leads(cost, Permutations(items), |Permutations(items)|, best)
    ensures Least(cost, items, best)
  {
    var candidates := Permutations(items);
    PermutationsAreOrders(items, best);
    forall q | IsOrder(q, items) && q != best
      ensures Precedes(cost(best), best, cost(q), q)
    {
      OrdersArePermutations(items, q);
      var k :| 0 <= k < |candidates| && candidates[k] == q;
    }
  }

  ghost predicate Covers(m: Matrix, items: seq<Property>) {
    forall p :: IsOrder(p, items) ==> HasLegs(m, p)
  }

  /** A path that is one stop longer costs its last leg more. */
  lemma OneLegMore(m: Matrix, p: seq<Property>, i: nat)
    requires i < |p| && HasLegs(m, p[..i]) && (StopBefore(p, i), p[i].routeIndex) in m
    ensures HasLegs(m, p[..i + 1])
    ensures var before, leg := TravelCost(m, p[..i]), m[(StopBefore(p, i), p[i].routeIndex)];
            TravelCost(m, p[..i + 1]) == Cost(before.minutes + leg.travelMinutes, before.distance + leg.distanceKm)
  {
    var q := p[..i + 1];
    assert q[..|q| - 1] == p[..i];
    assert q[|q| - 1] == p[i] && StopBefore(q, |q| - 1) == StopBefore(p, i);
    LastLegCounts(m, q);
  }

  /** The travel time and distance of one candidate, or None when the provider lacks a leg. */
  method CostOf(m: Matrix, candidate: seq<Property>) returns (cost: Option<Cost>)
    ensures cost == if HasLegs(m, candidate) then Some(TravelCost(m, candidate)) else None
  {
    var from := 0;
    var minutes, distance := 0, 0.0;
    for i := 0 to |candidate|
      invariant from == StopBefore(candidate, i)
      invariant HasLegs(m, candidate[..i])
      invariant Cost(minutes, distance) == TravelCost(m, candidate[..i])
    {
      if (from, candidate[i].routeIndex) !in m {
        return None;
      }
      var leg := m[(from, candidate[i].routeIndex)];
      OneLegMore(m, candidate, i);
      minutes, distance := minutes + leg.travelMinutes, distance + leg.distanceKm;
      from := candidate[i].routeIndex;
    }
    assert candidate[..|candidate|] == candidate;
    cost := Some(Cost(minutes, distance));
  }

  /** Fails exactly when some order needs a leg the matrix lacks; otherwise the answer beats every other order. */
  method ShortestPathByTravelTime(items: seq<Property>, m: Matrix, ghost width: nat) returns (best: Option<seq<Property>>)
    requires DistinctIds(items) && Fixed(items, width)
    ensures best.Some? <==> Covers(m, items)
    ensures best.Some? ==> Least(p => CostByTime(m, p), items, best.value)
  {
    var candidates := Permutations(items);
    ghost var cost := p => CostByTime(m, p);
    best := None;
    var bestCost := Cost(0, 0.0);
    for n := 0 to |candidates|
      invariant best.None? <==> n == 0
      invariant forall k :: 0 <= k < n ==> HasLegs(m, candidates[k])
      invariant best.Some? ==> Leads(cost, candidates, n, best.value) && bestCost == cost(best.value)
    {
      var candidateCost := CostOf(m, candidates[n]);
      if candidateCost.None? {
        PermutationsAreOrders(items, candidates[n]);
        return None;
      }
      assert candidateCost.value == cost(candidates[n]);
      if best.None? {
        best, bestCost := Some(candidates[n]), candidateCost.value;
      } else {
        ghost var before := best.value;
        if Precedes(candidateCost.value, candidates[n], bestCost, best.value) {
          best, bestCost := Some(candidates[n]), candidateCost.value;
        }
        PermutationsAreOrders(items, candidates[n]);
        PermutationsAreOrders(items, before);
        ScanStep(cost, items, width, candidates, n, before, best.value);
      }
    }
    PermutationsCount(items);
    FactorialIsPositive(|items|);
    forall p | IsOrder(p, items)
      ensures HasLegs(m, p)
    {
      OrdersArePermutations(items, p);
    }
    LeaderIsLeast(cost, items, best.value);
  }

  /** Without a matrix the straight-line length decides, then the key. */
  method ShortestPath(items: seq<Property>, d: Distance, ghost width: nat) returns (r: seq<Property>)
    requires DistinctIds(items) && Fixed(items, width)
    ensures Least(p => CostByDistance(d, p), items, r)
  {
    var candidates := Permutations(items);
    ghost var cost := p => CostByDistance(d, p);
    var best: Option<seq<Property>> := None;
    var bestDistance := 0.0;
    for n := 0 to |candidates|
      invariant best.None? <==> n == 0
      invariant best.Some? ==> Leads(cost, candidates, n, best.value) && bestDistance == PathDistance(d, best.value)
    {
      var distance := DistanceOf(d, candidates[n]);
      if best.None? {
        best, bestDistance := Some(candidates[n]), distance;
      } else {
        ghost var before := best.value;
        if distance < bestDistance || (distance == bestDistance && StringLess(Key(candidates[n]), Key(best.value))) {
          best, bestDistance := Some(candidates[n]), distance;
        }
        PermutationsAreOrders(items, candidates[n]);
        PermutationsAreOrders(items, before);
        ScanStep(cost, items, width, candidates, n, before, best.value);
      }
    }
    PermutationsCount(items);
    FactorialIsPositive(|items|);
    LeaderIsLeast(cost, items, best.value);
    r := best.value;
  }

  method DistanceOf(d: Distance, p: seq<Property>) returns (total: real)
    ensures total == PathDistance(d, p)
  {
    total := 0.0;
    var previous: Option<Property> := None;
    for i := 0 to |p|
      invariant total == PathDistance(d, p[..i])
      invariant previous == if i == 0 then None else Some(p[i - 1])
    {
      assert p[..i + 1][..i] == p[..i];
      total := total + d(previous, p[i]);
      previous := Some(p[i]);
    }
    assert p[..|p|] == p;
  }

  lemma {:induction false} FactorialIsPositive(n: nat)
    ensures Factorial(n) > 0
  {
    if n > 0 {
      FactorialIsPositive(n - 1);
    }
  }

  // ---------- the answer does not depend on the order the properties came in ----------

  /** A requested list: positions numbered from 1, ids distinct and of one width. */
  ghost predicate Routable(items: seq<Property>, width: nat) {
    && DistinctIds(items) && Fixed(items, width)
    && forall i :: 0 <= i < |items| ==> items[i].routeIndex == i + 1
  }

  ghost predicate SameIds(a: seq<Property>, b: seq<Property>) {
    |a| == |b| && forall i :: 0 <= i < |a| ==> exists j :: 0 <= j < |b| && a[i].id == b[j].id
  }

  /** The two matrices agree on every leg between properties with the same ids; the starting point is 0 in both. */
  ghost predicate Relabelled(m: Matrix, a: seq<Property>, m': Matrix, b: seq<Property>) {
    && (forall x, x' :: x in a && x' in b && x.id == x'.id ==> SameLeg(m, (0, x.routeIndex), m', (0, x'.routeIndex)))
    && (forall x, y, x', y' :: x in a && y in a && x' in b && y' in b && x.id == x'.id && y.id == y'.id && x != y ==>
          SameLeg(m, (x.routeIndex, y.routeIndex), m', (x'.routeIndex, y'.routeIndex)))
  }

  predicate SameLeg(m: Matrix, k: (int, int), m': Matrix, k': (int, int)) {
    k in m && k' in m' && m[k].travelMinutes == m'[k'].travelMinutes && m[k].distanceKm == m'[k'].distanceKm
  }

  /** p and q visit the same ids, p through a's properties and q through b's. */
  ghost predicate Parallel(p: seq<Property>, a: seq<Property>, q: seq<Property>, b: seq<Property>) {
    |p| == |q| && forall i :: 0 <= i < |p| ==> p[i] in a && q[i] in b && p[i].id == q[i].id
  }

  ghost predicate LegsAgree(m: Matrix, p: seq<Property>, m': Matrix, q: seq<Property>) {
    |p| == |q| && forall i :: 0 <= i < |p| ==>
                                SameLeg(m, (StopBefore(p, i), p[i].routeIndex), m', (StopBefore(q, i), q[i].routeIndex))
  }

  lemma RelabelledLegsAgree(m: Matrix, a: seq<Property>, m': Matrix, b: seq<Property>, p: seq<Property>, q: seq<Property>)
    requires Relabelled(m, a, m', b) && DistinctIds(p) && Parallel(p, a, q, b)
    ensures LegsAgree(m, p, m', q)
  {
    forall i | 0 <= i < |p|
      ensures SameLeg(m, (StopBefore(p, i), p[i].routeIndex), m', (StopBefore(q, i), q[i].routeIndex))
    {
      assert p[i] in a && q[i] in b && p[i].id == q[i].id;
      if i > 0 {
        assert p[i - 1].id != p[i].id;
        assert p[i - 1] in a && q[i - 1] in b && p[i - 1].id == q[i - 1].id;
      }
    }
  }

  lemma {:induction false} AgreeingLegsCostTheSame(m: Matrix, p: seq<Property>, m': Matrix, q: seq<Property>)
    requires LegsAgree(m, p, m', q)
    ensures HasLegs(m, p) && HasLegs(m', q) && TravelCost(m, p) == TravelCost(m', q)
    decreases |p|
  {
    if p != [] {
      var last := |p| - 1;
      forall i | 0 <= i < last
        ensures StopBefore(p[..last], i) == StopBefore(p, i) && StopBefore(q[..last], i) == StopBefore(q, i)
      {
      }
      AgreeingLegsCostTheSame(m, p[..last], m', q[..last]);
      assert SameLeg(m, (StopBefore(p, last), p[last].routeIndex), m', (StopBefore(q, last), q[last].routeIndex));
      LastLegCounts(m, p);
      LastLegCounts(m', q);
    }
  }

  lemma LastLegCounts(m: Matrix, p: seq<Property>)
    requires p != [] && HasLegs(m, p[..|p| - 1]) && (StopBefore(p, |p| - 1), p[|p| - 1].routeIndex) in m
    ensures HasLegs(m, p)
    ensures TravelCost(m, p).minutes
            == TravelCost(m, p[..|p| - 1]).minutes + m[(StopBefore(p, |p| - 1), p[|p| - 1].routeIndex)].travelMinutes
    ensures TravelCost(m, p).distance
            == TravelCost(m, p[..|p| - 1]).distance + m[(StopBefore(p, |p| - 1), p[|p| - 1].routeIndex)].distanceKm
  {
    var q := p[..|p| - 1];
    forall i | 0 <= i < |p|
      ensures (StopBefore(p, i), p[i].routeIndex) in m
    {
      if i < |q| {
        assert (StopBefore(q, i), q[i].routeIndex) in m;
      }
    }
  }

  /** The order of b's properties that visits the same ids as p. */
  lemma Translated(p: seq<Property>, a: seq<Property>, b: seq<Property>) returns (q: seq<Property>)
    requires DistinctIds(a) && DistinctIds(b) && SameIds(a, b) && IsOrder(p, a)
    ensures IsOrder(q, b) && Ids(q) == Ids(p)
  {
    q := [];
    for i := 0 to |p|
      invariant |q| == i
      invariant forall k :: 0 <= k < i ==> q[k] in b && q[k].id == p[k].id
    {
      var k :| 0 <= k < |a| && a[k] == p[i];
      var j :| 0 <= j < |b| && a[k].id == b[j].id;
      q := q + [b[j]];
    }
  }

  /** Two requests for the same properties in any order, with matrices that agree on them, get the same plan. */
  lemma PlanIgnoresInputOrder(a: seq<Property>, m: Matrix, r: seq<Property>, b: seq<Property>, m': Matrix, r': seq<Property>, width: nat)
    requires Routable(a, width) && Routable(b, width) && SameIds(a, b) && SameIds(b, a) && Relabelled(m, a, m', b)
    requires Least(p => CostByTime(m, p), a, r) && Least(p => CostByTime(m', p), b, r')
    ensures Ids(r) == Ids(r')
  {
    var q := Translated(r', b, a);
    var q' := Translated(r, a, b);
    OrderCosts(m, a, m', b, r, q');
    OrderCosts(m, a, m', b, q, r');
    SameWinner(a, p => CostByTime(m, p), r, q, b, p => CostByTime(m', p), r', q', width);
  }

  /** Each winner, carried over to the other list, would have to beat the other one. */
  lemma SameWinner(a: seq<Property>, cost: seq<Property> -> Cost, r: seq<Property>, q: seq<Property>,
                   b: seq<Property>, cost': seq<Property> -> Cost, r': seq<Property>, q': seq<Property>, width: nat)
    requires DistinctIds(a) && DistinctIds(b) && Fixed(b, width)
    requires Least(cost, a, r) && Least(cost', b, r')
    requires IsOrder(q, a) && Ids(q) == Ids(r') && cost(q) == cost'(r')
    requires IsOrder(q', b) && Ids(q') == Ids(r) && cost'(q') == cost(r)
    ensures Ids(r) == Ids(r')
  {
    if q' != r' {
      if q == r {
        IdsDetermineOrder(b, q', r');
      } else {
        SameIdsSameKey(r, q');
        SameIdsSameKey(q, r');
        PrecedesIsTotal(b, width, cost'(r'), r', cost'(q'), q');
      }
    }
  }

  /** The two distances agree on properties with the same ids and on the way from the starting point. */
  ghost predicate SameDistances(d: Distance, a: seq<Property>, d': Distance, b: seq<Property>) {
    && (forall x, x' :: x in a && x' in b && x.id == x'.id ==> d(None, x) == d'(None, x'))
    && (forall x, y, x', y' :: x in a && y in a && x' in b && y' in b && x.id == x'.id && y.id == y'.id ==>
          d(Some(x), y) == d'(Some(x'), y'))
  }

  function StepLength(d: Distance, p: seq<Property>, i: nat): real
    requires i < |p|
  {
    d(if i == 0 then None else Some(p[i - 1]), p[i])
  }

  lemma ParallelStepsAgree(d: Distance, p: seq<Property>, a: seq<Property>, d': Distance, q: seq<Property>, b: seq<Property>,
                           i: nat)
    requires SameDistances(d, a, d', b) && Parallel(p, a, q, b) && i < |p|
    ensures StepLength(d, p, i) == StepLength(d', q, i)
  {
    assert p[i] in a && q[i] in b && p[i].id == q[i].id;
    if i > 0 {
      assert p[i - 1] in a && q[i - 1] in b && p[i - 1].id == q[i - 1].id;
    }
  }

  lemma {:induction false} EqualStepsMeasureTheSame(d: Distance, p: seq<Property>, d': Distance, q: seq<Property>)
    requires |p| == |q| && forall i :: 0 <= i < |p| ==> StepLength(d, p, i) == StepLength(d', q, i)
    ensures PathDistance(d, p) == PathDistance(d', q)
    decreases |p|
  {
    if p != [] {
      var last := |p| - 1;
      forall i | 0 <= i < last
        ensures StepLength(d, p[..last], i) == StepLength(d', q[..last], i)
      {
        assert StepLength(d, p, i) == StepLength(d', q, i);
      }
      EqualStepsMeasureTheSame(d, p[..last], d', q[..last]);
      assert StepLength(d, p, last) == StepLength(d', q, last);
    }
  }

  /** Without a matrix too, the same properties in any order get the same plan. */
  lemma PlanByDistanceIgnoresInputOrder(a: seq<Property>, d: Distance, r: seq<Property>,
                                        b: seq<Property>, d': Distance, r': seq<Property>, width: nat)
    requires Routable(a, width) && Routable(b, width) && SameIds(a, b) && SameIds(b, a) && SameDistances(d, a, d', b)
    requires Least(p => CostByDistance(d, p), a, r) && Least(p => CostByDistance(d', p), b, r')
    ensures Ids(r) == Ids(r')
  {
    var q := Translated(r', b, a);
    var q' := Translated(r, a, b);
    OrdersMeasureTheSame(d, a, d', b, r, q');
    OrdersMeasureTheSame(d, a, d', b, q, r');
    SameWinner(a, p => CostByDistance(d, p), r, q, b, p => CostByDistance(d', p), r', q', width);
  }

  lemma OrdersMeasureTheSame(d: Distance, a: seq<Property>, d': Distance, b: seq<Property>, p: seq<Property>, q: seq<Property>)
    requires SameDistances(d, a, d', b) && IsOrder(p, a) && IsOrder(q, b) && Ids(p) == Ids(q)
    ensures CostByDistance(d, p) == CostByDistance(d', q)
  {
    assert |p| == |Ids(p)| == |Ids(q)| == |q|;
    forall i | 0 <= i < |p|
      ensures p[i].id == q[i].id
    {
      assert Ids(p)[i] == Ids(q)[i];
    }
    forall i | 0 <= i < |p|
      ensures StepLength(d, p, i) == StepLength(d', q, i)
    {
      ParallelStepsAgree(d, p, a, d', q, b, i);
    }
    EqualStepsMeasureTheSame(d, p, d', q);
  }

  lemma OrderCosts(m: Matrix, a: seq<Property>, m': Matrix, b: seq<Property>, p: seq<Property>, q: seq<Property>)
    requires Relabelled(m, a, m', b) && IsOrder(p, a) && IsOrder(q, b) && Ids(p) == Ids(q)
    ensures CostByTime(m, p) == CostByTime(m', q)
  {
    assert |p| == |Ids(p)| == |Ids(q)| == |q|;
    forall i | 0 <= i < |p|
      ensures p[i].id == q[i].id
    {
      assert Ids(p)[i] == Ids(q)[i];
    }
    RelabelledLegsAgree(m, a, m', b, p, q);
    AgreeingLegsCostTheSame(m, p, m', q);
  }

  lemma {:induction false} SameIdsSameKey(p: seq<Property>, q: seq<Property>)
    requires Ids(p) == Ids(q)
    ensures Key(p) == Key(q)
    decreases |p|
  {
    assert |p| == |Ids(p)| == |Ids(q)| == |q|;
    if p != [] {
      assert p[0].id == Ids(p)[0] == Ids(q)[0] == q[0].id;
      assert Ids(p[1..]) == Ids(p)[1..] == Ids(q)[1..] == Ids(q[1..]);
      SameIdsSameKey(p[1..], q[1..]);
    }
  }

  /** A matrix that parsed has every leg the search can ask for. */
  lemma ParsedMatrixCovers(m: Matrix, items: seq<Property>, width: nat)
    requires Routable(items, width)
    requires forall o, t :: Wanted(|items| + 1, o, t) ==> (o, t) in m
    ensures Covers(m, items)
  {
    forall p: seq<Property>, i | IsOrder(p, items) && 0 <= i < |p|
      ensures (StopBefore(p, i), p[i].routeIndex) in m
    {
      assert p[i] in items;
      if i > 0 {
        assert p[i - 1] in items && p[i - 1].id != p[i].id;
      }
      assert Wanted(|items| + 1, StopBefore(p, i), p[i].routeIndex);
    }
  }

  // ---------- the timetable ----------

  datatype Stop = Stop(property: string, travelMinutes: int, departAt: int, arrivalAt: int, visitEndAt: int)

  datatype TravelMode = Drive | Transit | Walk

  datatype Profile = Profile(speed: real, roadFactor: real)

  /** Kilometres an hour, and how much longer the way is than the straight line. */
  function ProfileOf(mode: TravelMode): Profile {
    match mode
    case Drive => Profile(30.0, 1.25)
    case Transit => Profile(20.0, 1.2)
    case Walk => Profile(4.5, 1.1)
  }

  /** For thirty kilometres in a straight line: an hour and a quarter by car, an hour and 48 minutes by public transport,
      seven hours and 20 minutes on foot. */
  lemma ThirtyKilometres(mode: TravelMode, minutes: int)
    requires Estimates(minutes, 30.0 * ProfileOf(mode).roadFactor, ProfileOf(mode).speed)
    ensures minutes == match mode case Drive => 75 case Transit => 108 case Walk => 440
  {
  }

  /** The estimate for a way of so many kilometres: no time for no way, otherwise whole minutes, at least one, that suffice
      at this speed while one less would not. */
  ghost predicate Estimates(minutes: int, km: real, speed: real) {
    && (minutes == 0 <==> km == 0.0) && minutes >= 0
    && (minutes as real) * speed >= 60.0 * km
    && (km > 0.0 ==> (minutes as real - 1.0) * speed < 60.0 * km)
  }

  /** The kilometres of a leg as they are estimated: the straight line, longer by the road factor. */
  function Way(d: Distance, roadFactor: real, p: seq<Property>, i: nat): real
    requires i < |p|
  {
    StepLength(d, p, i) * roadFactor
  }

  /** The minutes of a leg are the matrix's, or the estimate for the way from the stop before. */
  ghost predicate LegTakes(m: Option<Matrix>, d: Distance, roadFactor: real, speed: real, p: seq<Property>, i: nat, minutes: int)
    requires i < |p|
  {
    match m
    case Some(matrix) =>
      var key := (if i == 0 then 0 else p[i - 1].routeIndex, p[i].routeIndex);
      key in matrix && minutes == matrix[key].travelMinutes >= 0
    case None => Estimates(minutes, Way(d, roadFactor, p, i), speed)
  }

  lemma RealTimes(a: real, b: real, s: real)
    requires a < b && s > 0.0
    ensures a * s < b * s
  {
  }

  function EstimatedMinutes(km: real, speed: real): (minutes: int)
    requires speed > 0.0
    ensures Estimates(minutes, km, speed)
  {
    EstimateFits(km, speed);
    if km == 0.0 then 0 else Max(1, Ceiling(km / speed * 60.0))
  }

  lemma EstimateFits(km: real, speed: real)
    requires speed > 0.0
    ensures Estimates(if km == 0.0 then 0 else Max(1, Ceiling(km / speed * 60.0)), km, speed)
  {
    var q := km / speed * 60.0;
    var minutes := if km == 0.0 then 0 else Max(1, Ceiling(q));
    assert q * speed == 60.0 * km;
    assert (-q).Floor as real <= -q < (-q).Floor as real + 1.0;
    if minutes as real > q {
      RealTimes(q, minutes as real, speed);
    }
    if km > 0.0 {
      assert q > 0.0 by {
        if q <= 0.0 {
          NotPositive(q, speed);
        }
      }
      RealTimes(minutes as real - 1.0, q, speed);
    }
  }

  lemma NotPositive(q: real, s: real)
    requires q <= 0.0 && s > 0.0
    ensures q * s <= 0.0
  {
  }

  /** The minutes a leg takes: the provider's, or an estimate from the straight line, the road factor and the speed. */
  function LegMinutes(m: Option<Matrix>, d: Distance, roadFactor: real, speed: real, p: seq<Property>, i: nat): (minutes: int)
    requires i < |p| && speed > 0.0
    requires m.Some? ==> HasLegs(m.value, p) && forall k :: k in m.value ==> m.value[k].travelMinutes >= 0
    ensures LegTakes(m, d, roadFactor, speed, p, i, minutes)
  {
    if m.Some? then m.value[(StopBefore(p, i), p[i].routeIndex)].travelMinutes
    else EstimatedMinutes(Way(d, roadFactor, p, i), speed)
  }

  function Legs(m: Option<Matrix>, d: Distance, roadFactor: real, speed: real, p: seq<Property>): (legs: seq<int>)
    requires speed > 0.0 && (m.Some? ==> HasLegs(m.value, p) && forall k :: k in m.value ==> m.value[k].travelMinutes >= 0)
    ensures |legs| == |p| && forall i :: 0 <= i < |legs| ==> LegTakes(m, d, roadFactor, speed, p, i, legs[i])
  {
    seq(|p|, i requires 0 <= i < |p| => LegMinutes(m, d, roadFactor, speed, p, i))
  }

  /** The travel time is what the length of the order takes at this speed, rounded up to less than a minute a leg more. */
  ghost predicate TravelsAbout(minutes: int, d: Distance, roadFactor: real, speed: real, p: seq<Property>) {
    && (minutes as real) * speed >= 60.0 * (roadFactor * PathDistance(d, p))
    && ((forall i :: 0 <= i < |p| ==> StepLength(d, p, i) >= 0.0) ==>
          (minutes as real) * speed <= 60.0 * (roadFactor * PathDistance(d, p)) + (|p| as real) * speed)
  }

  lemma {:induction false} EstimatesAddUp(d: Distance, roadFactor: real, speed: real, p: seq<Property>, legs: seq<int>)
    requires speed > 0.0 && roadFactor >= 0.0 && |legs| == |p|
    requires forall i :: 0 <= i < |p| ==> LegTakes(None, d, roadFactor, speed, p, i, legs[i])
    ensures TravelsAbout(Sum(legs), d, roadFactor, speed, p)
    decreases |p|
  {
    if p != [] {
      var last := |p| - 1;
      forall i | 0 <= i < last
        ensures LegTakes(None, d, roadFactor, speed, p[..last], i, legs[..last][i])
        ensures StepLength(d, p[..last], i) == StepLength(d, p, i)
      {
        assert LegTakes(None, d, roadFactor, speed, p, i, legs[i]);
      }
      EstimatesAddUp(d, roadFactor, speed, p[..last], legs[..last]);
      OneEstimateMore(Sum(legs[..last]), d, roadFactor, speed, p, legs[last]);
    }
  }

  lemma OneEstimateMore(minutes: int, d: Distance, roadFactor: real, speed: real, p: seq<Property>, leg: int)
    requires speed > 0.0 && roadFactor >= 0.0 && p != []
    requires forall i :: 0 <= i < |p| - 1 ==> StepLength(d, p[..|p| - 1], i) == StepLength(d, p, i)
    requires TravelsAbout(minutes, d, roadFactor, speed, p[..|p| - 1])
    requires Estimates(leg, Way(d, roadFactor, p, |p| - 1), speed)
    ensures TravelsAbout(minutes + leg, d, roadFactor, speed, p)
  {
    var last := |p| - 1;
    assert |p[..last]| == last;
    if forall i :: 0 <= i < |p| ==> StepLength(d, p, i) >= 0.0 {
      forall i | 0 <= i < last
        ensures StepLength(d, p[..last], i) >= 0.0
      {
        assert StepLength(d, p[..|p| - 1], i) == StepLength(d, p, i) >= 0.0;
      }
    }
    AddLeg(minutes, leg, PathDistance(d, p[..last]), StepLength(d, p, last), Way(d, roadFactor, p, last), roadFactor, speed, last);
  }

  lemma AddLeg(minutes: int, leg: int, length: real, step: real, way: real, roadFactor: real, speed: real, n: nat)
    requires speed > 0.0 && roadFactor >= 0.0 && way == step * roadFactor && Estimates(leg, way, speed)
    requires (minutes as real) * speed >= 60.0 * (roadFactor * length)
    ensures ((minutes + leg) as real) * speed >= 60.0 * (roadFactor * (length + step))
    ensures step >= 0.0 && (minutes as real) * speed <= 60.0 * (roadFactor * length) + (n as real) * speed ==>
              ((minutes + leg) as real) * speed <= 60.0 * (roadFactor * (length + step)) + ((n + 1) as real) * speed
  {
    assert ((minutes + leg) as real) * speed == (minutes as real) * speed + (leg as real) * speed;
    assert roadFactor * (length + step) == roadFactor * length + way;
    assert ((n + 1) as real) * speed == (n as real) * speed + speed;
    assert (leg as real - 1.0) * speed == (leg as real) * speed - speed;
    if step >= 0.0 {
      assert way >= 0.0;
    }
  }

  function Sum(s: seq<int>): int {
    if s == [] then 0 else Sum(s[..|s| - 1]) + s[|s| - 1]
  }

  /** The minutes the timetable reports are the minutes the search minimised. */
  lemma {:induction false} TotalIsMinimised(m: Matrix, p: seq<Property>, legs: seq<int>)
    requires HasLegs(m, p) && |legs| == |p|
    requires forall i :: 0 <= i < |p| ==> legs[i] == m[(StopBefore(p, i), p[i].routeIndex)].travelMinutes
    ensures Sum(legs) == TravelCost(m, p).minutes
    decreases |p|
  {
    if p != [] {
      var q := p[..|p| - 1];
      forall i | 0 <= i < |q|
        ensures (StopBefore(q, i), q[i].routeIndex) == (StopBefore(p, i), p[i].routeIndex)
      {
      }
      TotalIsMinimised(m, q, legs[..|p| - 1]);
      LastLegCounts(m, p);
    }
  }

  /** Stop by stop: leave after the buffer, travel, visit. */
  ghost predicate Timetable(stops: seq<Stop>, p: seq<Property>, legs: seq<int>, departureAt: int, visit: nat, buffer: nat)
    requires |legs| == |p|
  {
    |stops| <= |p| && forall i :: 0 <= i < |stops| ==> StopFollows(stops, p[i], legs[i], departureAt, visit, buffer, i)
  }

  ghost predicate StopFollows(stops: seq<Stop>, property: Property, leg: int, departureAt: int, visit: nat, buffer: nat, i: nat)
    requires i < |stops|
  {
    && stops[i].property == property.id && stops[i].travelMinutes == leg
    && stops[i].departAt == (if i == 0 then departureAt else stops[i - 1].visitEndAt + buffer * MINUTE)
    && stops[i].arrivalAt == stops[i].departAt + leg * MINUTE
    && stops[i].visitEndAt == stops[i].arrivalAt + visit * MINUTE
  }

  /** The plan follows the timetable and ends after exactly its travel, visits and buffers. */
  method Schedule(p: seq<Property>, legs: seq<int>, departureAt: int, visitMinutes: nat, bufferMinutes: nat)
    returns (stops: seq<Stop>, travelMinutes: int, completesAt: int)
    requires |legs| == |p|
    ensures |stops| == |p| && Timetable(stops, p, legs, departureAt, visitMinutes, bufferMinutes)
    ensures travelMinutes == Sum(legs)
    ensures completesAt == if p == [] then departureAt else stops[|p| - 1].visitEndAt
    ensures completesAt == departureAt
                           + (travelMinutes + |p| * visitMinutes + Max(0, (|p| - 1) * bufferMinutes)) * MINUTE
  {
    stops, travelMinutes := [], 0;
    var cursor := departureAt;
    for i := 0 to |p|
      invariant |stops| == i && Timetable(stops, p, legs, departureAt, visitMinutes, bufferMinutes)
      invariant cursor == if i == 0 then departureAt else stops[i - 1].visitEndAt
      invariant travelMinutes == Sum(legs[..i])
      invariant cursor == departureAt + Elapsed(travelMinutes, i, visitMinutes, bufferMinutes) * MINUTE
    {
      ElapsedStep(travelMinutes, legs[i], i, visitMinutes, bufferMinutes);
      assert legs[..i + 1][..i] == legs[..i];
      if i > 0 {
        cursor := cursor + bufferMinutes * MINUTE;
      }
      var arrivalAt := cursor + legs[i] * MINUTE;
      var visitEndAt := arrivalAt + visitMinutes * MINUTE;
      travelMinutes := travelMinutes + legs[i];
      stops := stops + [Stop(p[i].id, legs[i], cursor, arrivalAt, visitEndAt)];
      cursor := visitEndAt;
    }
    assert legs[..|legs|] == legs;
    completesAt := cursor;
  }

  function Elapsed(travel: int, visits: nat, visit: nat, buffer: nat): int {
    travel + visits * visit + Max(0, (visits - 1) * buffer)
  }

  lemma ElapsedStep(travel: int, leg: int, i: nat, visit: nat, buffer: nat)
    ensures Elapsed(travel + leg, i + 1, visit, buffer)
            == Elapsed(travel, i, visit, buffer) + leg + visit + if i == 0 then 0 else buffer
  {
    assert (i + 1) * visit == i * visit + visit;
    if i > 0 {
      assert i * buffer == (i - 1) * buffer + buffer;
      assert (i - 1) * buffer >= 0;
    } else {
      assert (i - 1) * buffer <= 0;
    }
  }

  /** No two visits overlap, and at least the buffer lies between the end of one and the arrival at a later one. */
  lemma {:induction false} VisitsApart(stops: seq<Stop>, p: seq<Property>, legs: seq<int>, departureAt: int, visit: nat, buffer: nat, i: nat, j: nat)
    requires |legs| == |p| && (forall k :: 0 <= k < |legs| ==> legs[k] >= 0)
    requires Timetable(stops, p, legs, departureAt, visit, buffer) && i < j < |stops|
    ensures stops[i].visitEndAt + buffer * MINUTE <= stops[j].arrivalAt
    decreases j - i
  {
    assert StopFollows(stops, p[j - 1], legs[j - 1], departureAt, visit, buffer, j - 1);
    assert StopFollows(stops, p[j], legs[j], departureAt, visit, buffer, j);
    if i + 1 < j {
      VisitsApart(stops, p, legs, departureAt, visit, buffer, i, j - 1);
    }
  }

  // ---------- the whole plan ----------

  lemma ParsedLegsAreSane(rows: seq<Row>, pointCount: nat, drive: bool, m: Matrix)
    requires forall o, t :: (if (o, t) in m then Some(m[(o, t)]) else None) == LastLeg(rows, pointCount, drive, o, t)
    ensures forall k :: k in m ==> m[k].travelMinutes >= 0
  {
    forall k | k in m
      ensures m[k].travelMinutes >= 0
    {
      assert (k.0, k.1) == k;
      LegsAreSane(rows, pointCount, drive, k.0, k.1);
    }
  }

  /** The order: by the provider's matrix when its answer parses, and by distance when there is none or it does not.
      A matrix that parsed never lets the search down. */
  method Optimize(items: seq<Property>, body: Option<seq<Row>>, drive: bool, d: Distance, ghost width: nat)
      returns (r: seq<Property>, matrix: Option<Matrix>)
    requires Routable(items, width)
    ensures matrix.Some? <==> Complete(body, |items| + 1, drive)
    ensures matrix.Some? ==> Least(p => CostByTime(matrix.value, p), items, r) && Covers(matrix.value, items)
    ensures matrix.Some? ==> forall k :: k in matrix.value ==> matrix.value[k].travelMinutes >= 0
    ensures matrix.None? ==> Least(p => CostByDistance(d, p), items, r)
    ensures forall q :: IsOrder(q, items) && q != r ==>
                          if matrix.Some? then Better(CostByTime(matrix.value, r), r, CostByTime(matrix.value, q), q)
                          else Better(CostByDistance(d, r), r, CostByDistance(d, q), q)
  {
    matrix := Parse(body, |items| + 1, drive);
    if matrix.Some? {
      ParsedLegsAreSane(body.value, |items| + 1, drive, matrix.value);
      ParsedMatrixCovers(matrix.value, items, width);
      var best := ShortestPathByTravelTime(items, matrix.value, width);
      r := best.value;
      LeastIsBest(p => CostByTime(matrix.value, p), items, r, width);
    } else {
      r := ShortestPath(items, d, width);
      LeastIsBest(p => CostByDistance(d, p), items, r, width);
    }
  }

  /** From the request to the timetable: whatever the provider answers there is a plan, it visits every property once, no
      two visits overlap, and it ends after exactly its travel, visits and buffers. With a complete answer its travel time
      is the least of all orders; otherwise its straight-line length is, and the travel time follows from it to less than
      a minute a leg. */
  method Plan(items: seq<Property>, body: Option<seq<Row>>, drive: bool, d: Distance, roadFactor: real, speed: real,
              departureAt: int, visit: nat, buffer: nat, ghost width: nat)
      returns (r: seq<Property>, matrix: Option<Matrix>, stops: seq<Stop>, travelMinutes: int, completesAt: int)
    requires Routable(items, width) && speed > 0.0 && roadFactor >= 0.0
    ensures IsOrder(r, items) && Served(stops, r, matrix, d, roadFactor, speed, departureAt, visit, buffer)
    ensures matrix.Some? <==> Complete(body, |items| + 1, drive)
    ensures matrix.Some? ==> TravelsLeast(matrix.value, items, travelMinutes)
    ensures matrix.None? ==> forall q :: IsOrder(q, items) ==> PathDistance(d, r) <= PathDistance(d, q)
    ensures completesAt == departureAt + (travelMinutes + |items| * visit + Max(0, (|items| - 1) * buffer)) * MINUTE
    ensures matrix.None? ==> TravelsAbout(travelMinutes, d, roadFactor, speed, r)
  {
    r, matrix := Optimize(items, body, drive, d, width);
    var legs := Legs(matrix, d, roadFactor, speed, r);
    stops, travelMinutes, completesAt := Schedule(r, legs, departureAt, visit, buffer);
    if matrix.Some? {
      LeastTravels(matrix.value, d, roadFactor, speed, items, r, legs);
    } else {
      LeastIsShortest(d, items, r);
      EstimatesAddUp(d, roadFactor, speed, r, legs);
    }
    TimetableServes(stops, r, legs, matrix, d, roadFactor, speed, departureAt, visit, buffer);
  }

  /** The same for a way of travelling, which decides speed, road factor and whether traffic counts. */
  method PlanFor(items: seq<Property>, body: Option<seq<Row>>, mode: TravelMode, d: Distance,
                 departureAt: int, visit: nat, buffer: nat, ghost width: nat)
      returns (r: seq<Property>, matrix: Option<Matrix>, stops: seq<Stop>, travelMinutes: int, completesAt: int)
    requires Routable(items, width)
    ensures IsOrder(r, items)
    ensures Served(stops, r, matrix, d, ProfileOf(mode).roadFactor, ProfileOf(mode).speed, departureAt, visit, buffer)
    ensures matrix.Some? <==> Complete(body, |items| + 1, mode == Drive)
    ensures matrix.Some? ==> TravelsLeast(matrix.value, items, travelMinutes)
    ensures matrix.None? ==> TravelsAbout(travelMinutes, d, ProfileOf(mode).roadFactor, ProfileOf(mode).speed, r)
  {
    var profile := ProfileOf(mode);
    r, matrix, stops, travelMinutes, completesAt :=
      Plan(items, body, mode == Drive, d, profile.roadFactor, profile.speed, departureAt, visit, buffer, width);
  }

  /** The minutes are those of some order, and no order takes less. */
  ghost predicate TravelsLeast(m: Matrix, items: seq<Property>, minutes: int) {
    && (exists p :: IsOrder(p, items) && CostByTime(m, p).minutes == minutes)
    && (forall q :: IsOrder(q, items) ==> HasLegs(m, q) && minutes <= CostByTime(m, q).minutes)
  }

  lemma LeastTravels(m: Matrix, d: Distance, roadFactor: real, speed: real, items: seq<Property>, r: seq<Property>,
                     legs: seq<int>)
    requires Covers(m, items) && Least(p => CostByTime(m, p), items, r) && speed > 0.0
    requires |legs| == |r| && HasLegs(m, r)
    requires forall i :: 0 <= i < |r| ==> LegTakes(Some(m), d, roadFactor, speed, r, i, legs[i])
    ensures TravelsLeast(m, items, Sum(legs))
  {
    forall i | 0 <= i < |r|
      ensures legs[i] == m[(StopBefore(r, i), r[i].routeIndex)].travelMinutes
    {
      assert LegTakes(Some(m), d, roadFactor, speed, r, i, legs[i]);
    }
    TotalIsMinimised(m, r, legs);
    var cost := p => CostByTime(m, p);
    forall q | IsOrder(q, items)
      ensures HasLegs(m, q) && cost(r).minutes <= cost(q).minutes
    {
      assert q != r ==> Precedes(cost(r), r, cost(q), q);
    }
  }

  lemma LeastIsShortest(d: Distance, items: seq<Property>, r: seq<Property>)
    requires Least(p => CostByDistance(d, p), items, r)
    ensures forall q :: IsOrder(q, items) ==> PathDistance(d, r) <= PathDistance(d, q)
  {
    var cost := p => CostByDistance(d, p);
    forall q | IsOrder(q, items)
      ensures cost(r).distance <= cost(q).distance
    {
      assert q != r ==> Precedes(cost(r), r, cost(q), q);
    }
  }

  /** The stop leaves after the buffer, takes what the leg takes, and stays for the visit. */
  ghost predicate StopServes(stops: seq<Stop>, p: seq<Property>, m: Option<Matrix>, d: Distance, roadFactor: real, speed: real,
                             departureAt: int, visit: nat, buffer: nat, i: nat)
    requires i < |p| == |stops|
  {
    && stops[i].property == p[i].id
    && LegTakes(m, d, roadFactor, speed, p, i, stops[i].travelMinutes)
    && stops[i].departAt == (if i == 0 then departureAt else stops[i - 1].visitEndAt + buffer * 60_000)
    && stops[i].arrivalAt == stops[i].departAt + stops[i].travelMinutes * 60_000
    && stops[i].visitEndAt == stops[i].arrivalAt + visit * 60_000
  }

  /** Every stop serves its property, and no two visits come closer than the buffer. */
  ghost predicate Served(stops: seq<Stop>, p: seq<Property>, m: Option<Matrix>, d: Distance, roadFactor: real, speed: real,
                         departureAt: int, visit: nat, buffer: nat)
  {
    && |stops| == |p|
    && (forall i :: 0 <= i < |p| ==> StopServes(stops, p, m, d, roadFactor, speed, departureAt, visit, buffer, i))
    && (forall i, j :: 0 <= i < j < |p| ==> stops[i].visitEndAt + buffer * 60_000 <= stops[j].arrivalAt)
  }

  lemma TimetableServes(stops: seq<Stop>, p: seq<Property>, legs: seq<int>, m: Option<Matrix>, d: Distance, roadFactor: real,
                        speed: real, departureAt: int, visit: nat, buffer: nat)
    requires |legs| == |p| == |stops| && Timetable(stops, p, legs, departureAt, visit, buffer)
    requires forall i :: 0 <= i < |p| ==> LegTakes(m, d, roadFactor, speed, p, i, legs[i])
    ensures Served(stops, p, m, d, roadFactor, speed, departureAt, visit, buffer)
  {
    forall i | 0 <= i < |p|
      ensures StopServes(stops, p, m, d, roadFactor, speed, departureAt, visit, buffer, i) && legs[i] >= 0
    {
      assert LegTakes(m, d, roadFactor, speed, p, i, legs[i]);
      assert StopFollows(stops, p[i], legs[i], departureAt, visit, buffer, i);
    }
    forall i, j | 0 <= i < j < |p|
      ensures stops[i].visitEndAt + buffer * 60_000 <= stops[j].arrivalAt
    {
      VisitsApart(stops, p, legs, departureAt, visit, buffer, i, j);
    }
  }
}
