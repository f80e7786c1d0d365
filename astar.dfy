/** The congestion-aware A* planner over the 4-connected grid. */
module AStar {
  import opened Common

  // ---------------------------------------------------------------------------
  // Neighbours

  /** The passable cells among the first `k` moves out of `p`, in move order. */
  function NeighborsUpTo(obstacles: array2<bool>, n: int, p: Pos, k: nat): seq<Pos>
    requires k <= |Directions|
    reads obstacles
  {
    if k == 0 then []
    else NeighborsUpTo(obstacles, n, p, k - 1)
         + (if Passable(obstacles, n, Shift(p, Directions[k - 1])) then [Shift(p, Directions[k - 1])] else [])
  }

  /** The passable cells one move away from `p`, in the order up, right, down, left. */
  function Neighbors(obstacles: array2<bool>, n: int, p: Pos): seq<Pos>
    reads obstacles
  {
    NeighborsUpTo(obstacles, n, p, |Directions|)
  }

  lemma {:induction false} NeighborsFollowOpenDirections(obstacles: array2<bool>, n: int, p: Pos, k: nat)
    requires k <= |Directions|
    ensures var ds := OpenDirectionsUpTo(obstacles, n, p, k);
      var ns := NeighborsUpTo(obstacles, n, p, k);
      && |ns| == |ds|
      && (forall i :: 0 <= i < |ds| ==> 0 <= ds[i] < |Directions| && ns[i] == Shift(p, Directions[ds[i]]))
  {
    if k > 0 {
      NeighborsFollowOpenDirections(obstacles, n, p, k - 1);
      OpenDirectionsUpToSpec(obstacles, n, p, k - 1);
      var ds := OpenDirectionsUpTo(obstacles, n, p, k - 1);
      forall i | 0 <= i < |ds| ensures 0 <= ds[i] < |Directions| {
        assert ds[i] in ds;
      }
    }
  }

  /** `get_neighbors` returns exactly the passable cells at distance one, each once,
      at most four of them, ordered by move index (up, right, down, left). */
  lemma NeighborsSpec(obstacles: array2<bool>, n: int, p: Pos)
    ensures var ns := Neighbors(obstacles, n, p);
      var ds := OpenDirections(obstacles, n, p);
      && |ns| == |ds| <= 4
      && (forall i :: 0 <= i < |ns| ==> 0 <= ds[i] < |Directions| && ns[i] == Shift(p, Directions[ds[i]]))
      && (forall i, j :: 0 <= i < j < |ns| ==> ds[i] < ds[j] && ns[i] != ns[j])
      && (forall q :: q in ns <==> Passable(obstacles, n, q) && Manhattan(p, q) == 1)
  {
    var ns := Neighbors(obstacles, n, p);
    var ds := OpenDirections(obstacles, n, p);
    NeighborsFollowOpenDirections(obstacles, n, p, 4);
    OpenDirectionsSpec(obstacles, n, p);
    forall i, j | 0 <= i < j < |ns| ensures ns[i] != ns[j] {
      assert ds[i] < ds[j];
    }
    forall q ensures q in ns <==> Passable(obstacles, n, q) && Manhattan(p, q) == 1 {
      if q in ns {
        var i :| 0 <= i < |ns| && ns[i] == q;
        assert ds[i] in ds;
        ShiftDistance(p, ds[i], p);
      }
      if Passable(obstacles, n, q) && Manhattan(p, q) == 1 {
        var k := AdjacentIsShift(p, q);
        assert k in ds;
        var i :| 0 <= i < |ds| && ds[i] == k;
        assert ns[i] == q;
      }
    }
  }

  /** `get_neighbors`, as the loop the source runs over the four moves. */
  method GetNeighbors(pos: Pos, gridSize: int, obstacles: array2<bool>) returns (neighbors: seq<Pos>)
    requires gridSize <= obstacles.Length0 && gridSize <= obstacles.Length1
    ensures neighbors == Neighbors(obstacles, gridSize, pos)
  {
    neighbors := [];
    var k := 0;
    while k < |Directions|
      invariant 0 <= k <= |Directions|
      invariant neighbors == NeighborsUpTo(obstacles, gridSize, pos, k)
    {
      var d := Directions[k];
      var next := Pos(pos.x + d.dx, pos.y + d.dy);
      if 0 <= next.x < gridSize && 0 <= next.y < gridSize && !obstacles[next.x, next.y] {
        neighbors := neighbors + [next];
      }
      k := k + 1;
    }
  }

  // ---------------------------------------------------------------------------
  // Step cost

  /** `get_path_cost`: entering a cell costs 1, or 1 + 2c when its congestion c exceeds 0.5. */
  function StepCost(congestion: array2<real>, p: Pos): (c: real)
    requires 0 <= p.x < congestion.Length0 && 0 <= p.y < congestion.Length1
    reads congestion
    ensures c >= 1.0
    ensures c == 1.0 <==> congestion[p.x, p.y] <= 0.5
    ensures congestion[p.x, p.y] > 0.5 ==> c > 2.0
  {
    if congestion[p.x, p.y] > 0.5 then 1.0 + congestion[p.x, p.y] * 2.0 else 1.0
  }

  // ---------------------------------------------------------------------------
  // Routes

  /** A route: a walk from `s` to `g` whose every hop goes to a neighbour. */
  ghost predicate IsRoute(obstacles: array2<bool>, n: int, r: seq<Pos>, s: Pos, g: Pos)
    reads obstacles
  {
    && |r| >= 1 && r[0] == s && r[|r| - 1] == g
    && forall i :: 0 <= i < |r| - 1 ==> r[i + 1] in Neighbors(obstacles, n, r[i])
  }

  /** Every hop of a route changes the Manhattan distance by one, so a route
      has at least `Manhattan(s, g) + 1` cells. */
  lemma {:induction false} RouteIsLongEnough(obstacles: array2<bool>, n: int, r: seq<Pos>, s: Pos, g: Pos)
    requires IsRoute(obstacles, n, r, s, g)
    ensures |r| >= Manhattan(s, g) + 1
  {
    if |r| > 1 {
      NeighborsSpec(obstacles, n, r[0]);
      assert IsRoute(obstacles, n, r[1..], r[1], g) by {
        forall i | 0 <= i < |r[1..]| - 1 ensures r[1..][i + 1] in Neighbors(obstacles, n, r[1..][i]) {
          assert r[1..][i + 1] == r[i + 2] && r[1..][i] == r[i + 1];
        }
      }
      RouteIsLongEnough(obstacles, n, r[1..], r[1], g);
    }
  }

  /** Every cell of a route after its first is passable. */
  lemma RouteCellsPassable(obstacles: array2<bool>, n: int, r: seq<Pos>, s: Pos, g: Pos)
    requires IsRoute(obstacles, n, r, s, g)
    ensures forall i :: 0 < i < |r| ==> Passable(obstacles, n, r[i])
  {
    forall i | 0 < i < |r| ensures Passable(obstacles, n, r[i]) {
      NeighborsSpec(obstacles, n, r[i - 1]);
      assert r[i - 1 + 1] in Neighbors(obstacles, n, r[i - 1]);
    }
  }

  /** A set of cells that holds `s`, is closed under taking neighbours and misses `g`
      leaves no route from `s` to `g`. */
  lemma NoRouteOutOfClosedSet(obstacles: array2<bool>, n: int, known: set<Pos>, s: Pos, g: Pos)
    requires s in known && g !in known
    requires forall p, q :: p in known && q in Neighbors(obstacles, n, p) ==> q in known
    ensures forall r :: !IsRoute(obstacles, n, r, s, g)
  {
    forall r | IsRoute(obstacles, n, r, s, g) ensures false {
      var i := 0;
      while i < |r| - 1
        invariant 0 <= i <= |r| - 1
        invariant r[i] in known
      {
        assert r[i + 1] in Neighbors(obstacles, n, r[i]);
        i := i + 1;
      }
    }
  }

  function Reverse<T>(s: seq<T>): (r: seq<T>)
    ensures |r| == |s|
    ensures forall i :: 0 <= i < |s| ==> r[i] == s[|s| - 1 - i]
  {
    if s == [] then [] else Reverse(s[1..]) + [s[0]]
  }

  // ---------------------------------------------------------------------------
  // The frontier: a priority queue ordered as Python compares (priority, (x, y)) tuples

  datatype Entry = Entry(priority: real, pos: Pos)

  /** Tuple order on `(priority, (x, y))`: the order in which `heapq` pops entries. */
  predicate EntryLe(a: Entry, b: Entry)
  {
    || a.priority < b.priority
    || (a.priority == b.priority && (a.pos.x < b.pos.x || (a.pos.x == b.pos.x && a.pos.y <= b.pos.y)))
  }

  /** `heappop`: removes and returns a least entry. */
  method PopMin(frontier: seq<Entry>) returns (e: Entry, rest: seq<Entry>)
    requires |frontier| > 0
    ensures e in frontier
    ensures forall f :: f in frontier ==> EntryLe(e, f)
    ensures |rest| == |frontier| - 1
    ensures multiset(rest) + multiset{e} == multiset(frontier)
  {
    var best := 0;
    var i := 1;
    while i < |frontier|
      invariant 1 <= i <= |frontier|
      invariant 0 <= best < i
      invariant forall j :: 0 <= j < i ==> EntryLe(frontier[best], frontier[j])
    {
      if !EntryLe(frontier[best], frontier[i]) {
        best := i;
      }
      i := i + 1;
    }
    e := frontier[best];
    rest := frontier[..best] + frontier[best + 1..];
    assert frontier == frontier[..best] + [e] + frontier[best + 1..];
  }

  lemma RemainingEntries(frontier: seq<Entry>, e: Entry, rest: seq<Entry>)
    requires multiset(rest) + multiset{e} == multiset(frontier)
    ensures forall f :: f in frontier && f != e ==> f in rest
  {
    forall f | f in frontier && f != e ensures f in rest {
      assert f in multiset(frontier);
      assert f !in multiset{e};
      assert f in multiset(rest);
    }
  }

  // ---------------------------------------------------------------------------
  // The search and its invariants

  datatype SearchResult = Found(path: seq<Pos>) | NoPath | OutOfBudget

  datatype Problem = Problem(obstacles: array2<bool>, congestion: array2<real>, n: int, start: Pos, goal: Pos)

  ghost predicate Fits(pr: Problem)
  {
    && pr.n <= pr.obstacles.Length0 && pr.n <= pr.obstacles.Length1
    && pr.n <= pr.congestion.Length0 && pr.n <= pr.congestion.Length1
  }

  /** No obstacles and no congestion above 0.5: every move costs exactly 1. */
  ghost predicate Plain(obstacles: array2<bool>, congestion: array2<real>, n: int)
    reads obstacles, congestion
  {
    forall i, j ::
      (0 <= i < n && 0 <= j < n && i < obstacles.Length0 && j < obstacles.Length1
       && i < congestion.Length0 && j < congestion.Length1) ==> !obstacles[i, j] && congestion[i, j] <= 0.5
  }

  ghost predicate PlainCase(pr: Problem)
    reads pr.obstacles, pr.congestion
  {
    Plain(pr.obstacles, pr.congestion, pr.n) && InBounds(pr.start, pr.n) && InBounds(pr.goal, pr.n)
  }

  ghost function Dist(pr: Problem): nat
  {
    Manhattan(pr.start, pr.goal)
  }

  ghost predicate Linked(pr: Problem, cameFrom: map<Pos, Option<Pos>>, cost: map<Pos, real>, p: Pos)
    requires p in cameFrom
    reads pr.obstacles
  {
    && cameFrom[p].Some?
    && cameFrom[p].value in cost && p in cost
    && p in Neighbors(pr.obstacles, pr.n, cameFrom[p].value)
    && cost[cameFrom[p].value] + 1.0 <= cost[p]
  }

  /** `came_from` links every reached cell but the start to a neighbour whose cost
      is lower by at least one move; no cost is below the Manhattan distance from the start. */
  ghost predicate TreeOk(pr: Problem, cameFrom: map<Pos, Option<Pos>>, cost: map<Pos, real>)
    reads pr.obstacles
  {
    && cameFrom.Keys == cost.Keys
    && pr.start in cost && cost[pr.start] == 0.0 && cameFrom[pr.start] == None
    && (forall p :: p in cost ==> cost[p] >= Manhattan(pr.start, p) as real)
    && (forall p :: p in cameFrom && p != pr.start ==> Linked(pr, cameFrom, cost, p))
  }

  /** Every queued entry is for a reached cell, and apart from the initial entry for the
      start its priority is at least that cell's cost plus its distance to the goal. */
  ghost predicate FrontierOk(pr: Problem, frontier: seq<Entry>, cost: map<Pos, real>)
  {
    forall f :: f in frontier ==>
      (f.pos in cost && (f == Entry(0.0, pr.start) || f.priority >= cost[f.pos] + Manhattan(f.pos, pr.goal) as real))
  }

  ghost predicate InFrontier(frontier: seq<Entry>, p: Pos)
  {
    exists f :: f in frontier && f.pos == p
  }

  /** Every reached cell is queued or has all its neighbours reached (except the cell
      being expanded). */
  ghost predicate Covered(pr: Problem, frontier: seq<Entry>, cost: map<Pos, real>, busy: Option<Pos>)
    reads pr.obstacles
  {
    forall p :: p in cost ==>
      busy == Some(p) || InFrontier(frontier, p) || (forall q :: q in Neighbors(pr.obstacles, pr.n, p) ==> q in cost)
  }

  ghost predicate GoalWaiting(pr: Problem, frontier: seq<Entry>, cost: map<Pos, real>)
  {
    pr.goal in cost ==> InFrontier(frontier, pr.goal)
  }

  ghost predicate Geodesic(pr: Problem, p: Pos)
  {
    Manhattan(pr.start, p) + Manhattan(p, pr.goal) == Dist(pr)
  }

  /** `p` is reached at the least cost any route could have on a plain grid. */
  ghost predicate Tight(pr: Problem, cost: map<Pos, real>, p: Pos)
  {
    p in cost && cost[p] <= Manhattan(pr.start, p) as real
  }

  /** The move from `p` that the canonical shortest route to `g` takes: along x first, then y. */
  function Toward(p: Pos, g: Pos): Pos
  {
    if p.x < g.x then Pos(p.x + 1, p.y)
    else if p.x > g.x then Pos(p.x - 1, p.y)
    else if p.y < g.y then Pos(p.x, p.y + 1)
    else Pos(p.x, p.y - 1)
  }

  /** Expanded cells never include the goal; on a plain grid an expanded tight cell on a
      shortest route has its successor toward the goal tight as well. */
  ghost predicate ClosedOk(pr: Problem, cost: map<Pos, real>, closed: set<Pos>, busy: Option<Pos>)
    reads pr.obstacles, pr.congestion
  {
    && closed <= cost.Keys && pr.goal !in closed
    && (PlainCase(pr) ==>
          forall p :: (p in closed && busy != Some(p) && Tight(pr, cost, p) && Geodesic(pr, p)) ==>
            Tight(pr, cost, Toward(p, pr.goal)))
  }

  /** A tight cell on a shortest route that is not expanded is queued with priority at most
      the start-goal distance. */
  ghost predicate OpenTight(pr: Problem, frontier: seq<Entry>, cost: map<Pos, real>, closed: set<Pos>)
  {
    forall p :: p in cost && p !in closed && Tight(pr, cost, p) && Geodesic(pr, p) ==>
      exists f :: f in frontier && f.pos == p && f.priority <= Dist(pr) as real
  }

  ghost predicate SearchInv(pr: Problem, frontier: seq<Entry>, cameFrom: map<Pos, Option<Pos>>,
                            cost: map<Pos, real>, closed: set<Pos>, busy: Option<Pos>)
    reads pr.obstacles, pr.congestion
  {
    && TreeOk(pr, cameFrom, cost)
    && FrontierOk(pr, frontier, cost)
    && Covered(pr, frontier, cost, busy)
    && GoalWaiting(pr, frontier, cost)
    && ClosedOk(pr, cost, closed, busy)
    && OpenTight(pr, frontier, cost, closed)
  }

  // --- geometry of the canonical step

  lemma TowardStep(p: Pos, g: Pos, n: int)
    requires p != g
    ensures Manhattan(p, Toward(p, g)) == 1
    ensures Manhattan(Toward(p, g), g) + 1 == Manhattan(p, g)
    ensures InBounds(p, n) && InBounds(g, n) ==> InBounds(Toward(p, g), n)
  {
  }

  lemma TowardStaysGeodesic(pr: Problem, p: Pos)
    requires Geodesic(pr, p) && p != pr.goal
    ensures Manhattan(pr.start, Toward(p, pr.goal)) == Manhattan(pr.start, p) + 1
    ensures Geodesic(pr, Toward(p, pr.goal))
  {
    var t := Toward(p, pr.goal);
    TowardStep(p, pr.goal, pr.n);
    assert Manhattan(pr.start, t) <= Manhattan(pr.start, p) + 1;
    assert Manhattan(pr.start, pr.goal) <= Manhattan(pr.start, t) + Manhattan(t, pr.goal);
  }

  lemma TowardIsNeighbor(pr: Problem, p: Pos)
    requires Fits(pr) && PlainCase(pr) && InBounds(p, pr.n) && p != pr.goal
    ensures Toward(p, pr.goal) in Neighbors(pr.obstacles, pr.n, p)
  {
    TowardStep(p, pr.goal, pr.n);
    NeighborsSpec(pr.obstacles, pr.n, p);
  }

  /** Every reached cell but the start is passable (it was reached as a neighbour). */
  lemma ReachedInBounds(pr: Problem, cameFrom: map<Pos, Option<Pos>>, cost: map<Pos, real>, p: Pos)
    requires TreeOk(pr, cameFrom, cost) && p in cost && InBounds(pr.start, pr.n)
    ensures InBounds(p, pr.n)
  {
    if p != pr.start {
      assert Linked(pr, cameFrom, cost, p);
      NeighborsSpec(pr.obstacles, pr.n, cameFrom[p].value);
    }
  }

  /** On a plain grid some tight cell on a shortest route is reached and not expanded:
      follow the canonical route from `p` until a cell that has not been expanded. */
  lemma {:induction false} OpenTightExists(pr: Problem, cameFrom: map<Pos, Option<Pos>>, cost: map<Pos, real>,
                                           closed: set<Pos>, p: Pos) returns (q: Pos)
    requires PlainCase(pr)
    requires TreeOk(pr, cameFrom, cost) && ClosedOk(pr, cost, closed, None)
    requires Tight(pr, cost, p) && Geodesic(pr, p)
    ensures q in cost && q !in closed && Tight(pr, cost, q) && Geodesic(pr, q)
    decreases Manhattan(p, pr.goal)
  {
    if p !in closed {
      q := p;
    } else {
      assert p != pr.goal;
      var t := Toward(p, pr.goal);
      TowardStep(p, pr.goal, pr.n);
      TowardStaysGeodesic(pr, p);
      q := OpenTightExists(pr, cameFrom, cost, closed, t);
    }
  }

  /** On a plain grid, when the goal is popped its cost is at most the Manhattan distance. */
  lemma GoalCostBound(pr: Problem, frontier: seq<Entry>, cameFrom: map<Pos, Option<Pos>>,
                      cost: map<Pos, real>, closed: set<Pos>, e: Entry)
    requires PlainCase(pr)
    requires SearchInv(pr, frontier, cameFrom, cost, closed, None)
    requires e in frontier && e.pos == pr.goal && forall f :: f in frontier ==> EntryLe(e, f)
    ensures cost[pr.goal] <= Dist(pr) as real
  {
    if pr.goal != pr.start {
      var q := OpenTightExists(pr, cameFrom, cost, closed, pr.start);
      var f :| f in frontier && f.pos == q && f.priority <= Dist(pr) as real;
      assert EntryLe(e, f);
    }
  }

  // --- preservation under one relaxation `cost[next] := newCost` with parent `current`

  ghost predicate Improves(pr: Problem, cost: map<Pos, real>, current: Pos, next: Pos, newCost: real)
    reads pr.obstacles
  {
    && current in cost
    && next in Neighbors(pr.obstacles, pr.n, current)
    && newCost >= cost[current] + 1.0
    && (next !in cost || newCost < cost[next])
  }

  lemma RelaxTree(pr: Problem, cameFrom: map<Pos, Option<Pos>>, cost: map<Pos, real>,
                  current: Pos, next: Pos, newCost: real)
    requires TreeOk(pr, cameFrom, cost) && Improves(pr, cost, current, next, newCost)
    ensures next != pr.start && next != current
    ensures TreeOk(pr, cameFrom[next := Some(current)], cost[next := newCost])
  {
    NeighborsSpec(pr.obstacles, pr.n, current);
    var cf, c := cameFrom[next := Some(current)], cost[next := newCost];
    assert next != pr.start;
    forall p | p in cf && p != pr.start ensures Linked(pr, cf, c, p) {
      if p != next {
        assert Linked(pr, cameFrom, cost, p);
      }
    }
  }

  lemma RelaxFrontier(pr: Problem, frontier: seq<Entry>, cost: map<Pos, real>,
                      current: Pos, next: Pos, newCost: real)
    requires FrontierOk(pr, frontier, cost) && Improves(pr, cost, current, next, newCost)
    ensures FrontierOk(pr, frontier + [Entry(newCost + Manhattan(next, pr.goal) as real, next)], cost[next := newCost])
  {
  }

  lemma RelaxCovered(pr: Problem, frontier: seq<Entry>, cost: map<Pos, real>, busy: Option<Pos>,
                     current: Pos, next: Pos, newCost: real)
    requires Covered(pr, frontier, cost, busy) && GoalWaiting(pr, frontier, cost)
    requires Improves(pr, cost, current, next, newCost)
    ensures var fr := frontier + [Entry(newCost + Manhattan(next, pr.goal) as real, next)];
      Covered(pr, fr, cost[next := newCost], busy) && GoalWaiting(pr, fr, cost[next := newCost])
  {
    var e := Entry(newCost + Manhattan(next, pr.goal) as real, next);
    var fr := frontier + [e];
    assert e in fr;
    forall p | InFrontier(frontier, p) ensures InFrontier(fr, p) {
      var f :| f in frontier && f.pos == p;
      assert f in fr;
    }
  }

  lemma RelaxClosed(pr: Problem, cameFrom: map<Pos, Option<Pos>>, cost: map<Pos, real>, closed: set<Pos>,
                    busy: Option<Pos>, current: Pos, next: Pos, newCost: real)
    requires TreeOk(pr, cameFrom, cost) && ClosedOk(pr, cost, closed, busy)
    requires Improves(pr, cost, current, next, newCost)
    ensures ClosedOk(pr, cost[next := newCost], closed - {next}, busy)
  {
  }

  lemma RelaxOpenTight(pr: Problem, frontier: seq<Entry>, cost: map<Pos, real>, closed: set<Pos>,
                       current: Pos, next: Pos, newCost: real)
    requires OpenTight(pr, frontier, cost, closed) && Improves(pr, cost, current, next, newCost)
    ensures OpenTight(pr, frontier + [Entry(newCost + Manhattan(next, pr.goal) as real, next)],
                      cost[next := newCost], closed - {next})
  {
    var e := Entry(newCost + Manhattan(next, pr.goal) as real, next);
    var fr, c := frontier + [e], cost[next := newCost];
    forall p | p in c && p !in closed - {next} && Tight(pr, c, p) && Geodesic(pr, p)
      ensures exists f :: f in fr && f.pos == p && f.priority <= Dist(pr) as real
    {
      if p == next {
        assert e in fr;
      } else {
        assert Tight(pr, cost, p);
        var f :| f in frontier && f.pos == p && f.priority <= Dist(pr) as real;
        assert f in fr;
      }
    }
  }

  // --- preservation under popping `e` and marking it expanded

  lemma PopPreserves(pr: Problem, frontier: seq<Entry>, cameFrom: map<Pos, Option<Pos>>,
                     cost: map<Pos, real>, closed: set<Pos>, e: Entry, rest: seq<Entry>)
    requires SearchInv(pr, frontier, cameFrom, cost, closed, None)
    requires e in frontier && multiset(rest) + multiset{e} == multiset(frontier)
    requires e.pos != pr.goal
    ensures SearchInv(pr, rest, cameFrom, cost, closed + {e.pos}, Some(e.pos))
  {
    RemainingEntries(frontier, e, rest);
    assert multiset(rest) <= multiset(frontier);
    forall f | f in rest ensures f in frontier {
      assert f in multiset(rest);
    }
    forall p | p != e.pos && InFrontier(frontier, p) ensures InFrontier(rest, p) {
      var f :| f in frontier && f.pos == p;
      assert f in rest;
    }
    var closed' := closed + {e.pos};
    forall p | p in cost && p !in closed' && Tight(pr, cost, p) && Geodesic(pr, p)
      ensures exists f :: f in rest && f.pos == p && f.priority <= Dist(pr) as real
    {
      var f :| f in frontier && f.pos == p && f.priority <= Dist(pr) as real;
      assert f in rest;
    }
  }

  /** One relaxation keeps every invariant. */
  lemma RelaxStep(pr: Problem, frontier: seq<Entry>, cameFrom: map<Pos, Option<Pos>>, cost: map<Pos, real>,
                  closed: set<Pos>, current: Pos, next: Pos, newCost: real)
    requires SearchInv(pr, frontier, cameFrom, cost, closed, Some(current))
    requires Improves(pr, cost, current, next, newCost)
    ensures next != current
    ensures SearchInv(pr, frontier + [Entry(newCost + Manhattan(next, pr.goal) as real, next)],
                      cameFrom[next := Some(current)], cost[next := newCost], closed - {next}, Some(current))
  {
    RelaxTree(pr, cameFrom, cost, current, next, newCost);
    RelaxFrontier(pr, frontier, cost, current, next, newCost);
    RelaxCovered(pr, frontier, cost, Some(current), current, next, newCost);
    RelaxClosed(pr, cameFrom, cost, closed, Some(current), current, next, newCost);
    RelaxOpenTight(pr, frontier, cost, closed, current, next, newCost);
  }

  /** `q` is reached at no more than the cost of entering it from a cell of cost `c0`. */
  ghost predicate Relaxed(pr: Problem, cost: map<Pos, real>, c0: real, q: Pos)
    reads pr.congestion
  {
    && q in cost && 0 <= q.x < pr.congestion.Length0 && 0 <= q.y < pr.congestion.Length1
    && cost[q] <= c0 + StepCost(pr.congestion, q)
  }

  /** After all neighbours of `current` are relaxed, `current` is fully expanded. */
  lemma ExpandDone(pr: Problem, frontier: seq<Entry>, cameFrom: map<Pos, Option<Pos>>,
                   cost: map<Pos, real>, closed: set<Pos>, current: Pos, c0: real, nbrs: seq<Pos>)
    requires Fits(pr)
    requires SearchInv(pr, frontier, cameFrom, cost, closed, Some(current))
    requires current in closed && current in cost && cost[current] == c0
    requires nbrs == Neighbors(pr.obstacles, pr.n, current)
    requires forall j :: 0 <= j < |nbrs| ==> Relaxed(pr, cost, c0, nbrs[j])
    ensures SearchInv(pr, frontier, cameFrom, cost, closed, None)
  {
    forall q | q in nbrs ensures Relaxed(pr, cost, c0, q) {
      var j :| 0 <= j < |nbrs| && nbrs[j] == q;
    }
    if PlainCase(pr) && Tight(pr, cost, current) && Geodesic(pr, current) {
      ReachedInBounds(pr, cameFrom, cost, current);
      TowardIsNeighbor(pr, current);
      TowardStaysGeodesic(pr, current);
      var t := Toward(current, pr.goal);
      NeighborsSpec(pr.obstacles, pr.n, current);
      assert Relaxed(pr, cost, c0, t);
    }
  }

  /** One pass of the inner loop: relax the edge from `current` into `next`. */
  method RelaxNeighbor(pr: Problem, current: Pos, next: Pos, frontier0: seq<Entry>, cameFrom0: map<Pos, Option<Pos>>,
                       cost0: map<Pos, real>, ghost closed0: set<Pos>)
    returns (frontier: seq<Entry>, cameFrom: map<Pos, Option<Pos>>, cost: map<Pos, real>, ghost closed: set<Pos>)
    requires Fits(pr)
    requires SearchInv(pr, frontier0, cameFrom0, cost0, closed0, Some(current))
    requires current in closed0 && current in cost0
    requires next in Neighbors(pr.obstacles, pr.n, current)
    ensures SearchInv(pr, frontier, cameFrom, cost, closed, Some(current))
    ensures current in closed && current in cost && cost[current] == cost0[current]
    ensures Relaxed(pr, cost, cost0[current], next)
    ensures forall q :: Relaxed(pr, cost0, cost0[current], q) ==> Relaxed(pr, cost, cost0[current], q)
  {
    frontier, cameFrom, cost, closed := frontier0, cameFrom0, cost0, closed0;
    NeighborsSpec(pr.obstacles, pr.n, current);
    var newCost := cost[current] + StepCost(pr.congestion, next);
    if next !in cost || newCost < cost[next] {
      RelaxStep(pr, frontier, cameFrom, cost, closed, current, next, newCost);
      frontier, cameFrom, cost, closed :=
        frontier + [Entry(newCost + Manhattan(next, pr.goal) as real, next)],
        cameFrom[next := Some(current)], cost[next := newCost], closed - {next};
    }
  }

  /** Relaxes every neighbour of `current` (the inner `for next_pos in ...` loop). */
  method Expand(pr: Problem, current: Pos, frontier0: seq<Entry>, cameFrom0: map<Pos, Option<Pos>>,
                cost0: map<Pos, real>, ghost closed0: set<Pos>)
    returns (frontier: seq<Entry>, cameFrom: map<Pos, Option<Pos>>, cost: map<Pos, real>, ghost closed: set<Pos>)
    requires Fits(pr)
    requires SearchInv(pr, frontier0, cameFrom0, cost0, closed0, Some(current))
    requires current in closed0 && current in cost0
    ensures SearchInv(pr, frontier, cameFrom, cost, closed, None)
  {
    frontier, cameFrom, cost, closed := frontier0, cameFrom0, cost0, closed0;
    var c0 := cost[current];
    var nbrs := GetNeighbors(current, pr.n, pr.obstacles);
    var k := 0;
    while k < |nbrs|
      invariant 0 <= k <= |nbrs|
      invariant SearchInv(pr, frontier, cameFrom, cost, closed, Some(current))
      invariant current in closed && current in cost && cost[current] == c0
      invariant forall j :: 0 <= j < k ==> Relaxed(pr, cost, c0, nbrs[j])
    {
      assert nbrs[k] in nbrs;
      frontier, cameFrom, cost, closed := RelaxNeighbor(pr, current, nbrs[k], frontier, cameFrom, cost, closed);
      k := k + 1;
    }
    ExpandDone(pr, frontier, cameFrom, cost, closed, current, c0, nbrs);
  }

  /** A walk from `g` back to `s`, each cell a neighbour of the next, read backwards is a
      route from `s` to `g`. */
  lemma {:induction false} ReversedWalkIsRoute(obstacles: array2<bool>, n: int, rev: seq<Pos>, s: Pos, g: Pos)
    requires |rev| >= 1 && rev[0] == g && rev[|rev| - 1] == s
    requires forall i :: 0 <= i < |rev| - 1 ==> rev[i] in Neighbors(obstacles, n, rev[i + 1])
    ensures IsRoute(obstacles, n, Reverse(rev), s, g)
  {
    var path := Reverse(rev);
    forall i | 0 <= i < |path| - 1 ensures path[i + 1] in Neighbors(obstacles, n, path[i]) {
      assert path[i + 1] == rev[|rev| - 2 - i] && path[i] == rev[|rev| - 2 - i + 1];
    }
  }

  /** The walk back along `came_from`, as far as the sets go: `rev` holds the cells visited
      so far, `current` is the next one (or `None` once the start was visited), and every
      reached cell not yet visited is in `remaining`. */
  ghost predicate WalkCells(cost: map<Pos, real>, rev: seq<Pos>, current: Option<Pos>, remaining: set<Pos>)
  {
    && (current.Some? ==> current.value in cost)
    && (forall q :: q in rev ==> q in cost)
    && remaining <= cost.Keys
    && (forall q :: q in cost && q !in rev ==> q in remaining)
  }

  /** The walk starts at the goal, each visited cell is a neighbour of the one after it, and
      it ends at the start. */
  ghost predicate WalkChain(pr: Problem, rev: seq<Pos>, current: Option<Pos>)
    reads pr.obstacles
  {
    && (rev == [] <==> current == Some(pr.goal))
    && (rev != [] ==> rev[0] == pr.goal)
    && (forall i :: 0 <= i < |rev| - 1 ==> rev[i] in Neighbors(pr.obstacles, pr.n, rev[i + 1]))
    && (current.Some? && rev != [] ==> rev[|rev| - 1] in Neighbors(pr.obstacles, pr.n, current.value))
    && (current.None? ==> rev != [] && rev[|rev| - 1] == pr.start)
  }

  /** Costs fall by at least one per step of the walk. */
  ghost predicate WalkCost(pr: Problem, cost: map<Pos, real>, rev: seq<Pos>, current: Option<Pos>, remaining: set<Pos>)
    requires WalkCells(cost, rev, current, remaining) && pr.goal in cost
    requires current.None? ==> pr.start in cost
  {
    && (current.Some? ==> forall q :: q in rev ==> cost[current.value] < cost[q])
    && (current.Some? ==> cost[current.value] + |rev| as real <= cost[pr.goal])
    && (current.None? ==> cost[pr.start] + (|rev| - 1) as real <= cost[pr.goal])
  }

  ghost predicate Walk(pr: Problem, cameFrom: map<Pos, Option<Pos>>, cost: map<Pos, real>,
                       rev: seq<Pos>, current: Option<Pos>, remaining: set<Pos>)
    reads pr.obstacles
  {
    && WalkCells(cost, rev, current, remaining)
    && WalkChain(pr, rev, current)
    && pr.goal in cost && pr.start in cost
    && WalkCost(pr, cost, rev, current, remaining)
  }

  lemma WalkCellsStep(pr: Problem, cameFrom: map<Pos, Option<Pos>>, cost: map<Pos, real>,
                      rev: seq<Pos>, current: Option<Pos>, remaining: set<Pos>)
    requires TreeOk(pr, cameFrom, cost)
    requires Walk(pr, cameFrom, cost, rev, current, remaining) && current.Some?
    ensures current.value in remaining
    ensures WalkCells(cost, rev + [current.value], cameFrom[current.value], remaining - {current.value})
  {
    var c := current.value;
    assert c !in rev;
    if c != pr.start {
      assert Linked(pr, cameFrom, cost, c);
    }
  }

  lemma WalkChainStep(pr: Problem, cameFrom: map<Pos, Option<Pos>>, cost: map<Pos, real>,
                      rev: seq<Pos>, current: Option<Pos>, remaining: set<Pos>)
    requires TreeOk(pr, cameFrom, cost)
    requires Walk(pr, cameFrom, cost, rev, current, remaining) && current.Some?
    ensures WalkChain(pr, rev + [current.value], cameFrom[current.value])
  {
    var c := current.value;
    if c != pr.start {
      assert Linked(pr, cameFrom, cost, c);
    }
    var rev' := rev + [c];
    assert forall i :: 0 <= i < |rev| ==> rev'[i] == rev[i];
  }

  lemma WalkCostStep(pr: Problem, cameFrom: map<Pos, Option<Pos>>, cost: map<Pos, real>,
                     rev: seq<Pos>, current: Option<Pos>, remaining: set<Pos>)
    requires TreeOk(pr, cameFrom, cost)
    requires Walk(pr, cameFrom, cost, rev, current, remaining) && current.Some?
    requires WalkCells(cost, rev + [current.value], cameFrom[current.value], remaining - {current.value})
    ensures WalkCost(pr, cost, rev + [current.value], cameFrom[current.value], remaining - {current.value})
  {
    var c := current.value;
    if c != pr.start {
      assert Linked(pr, cameFrom, cost, c);
    }
  }

  /** One step of the walk: visit `current` and follow its `came_from` link. */
  lemma WalkStep(pr: Problem, cameFrom: map<Pos, Option<Pos>>, cost: map<Pos, real>,
                 rev: seq<Pos>, current: Option<Pos>, remaining: set<Pos>)
    requires TreeOk(pr, cameFrom, cost)
    requires Walk(pr, cameFrom, cost, rev, current, remaining) && current.Some?
    ensures current.value in remaining
    ensures Walk(pr, cameFrom, cost, rev + [current.value], cameFrom[current.value], remaining - {current.value})
  {
    WalkCellsStep(pr, cameFrom, cost, rev, current, remaining);
    WalkChainStep(pr, cameFrom, cost, rev, current, remaining);
    WalkCostStep(pr, cameFrom, cost, rev, current, remaining);
  }

  /** Walks `came_from` back from the goal and reverses the walk. */
  method ReconstructPath(pr: Problem, cameFrom: map<Pos, Option<Pos>>, cost: map<Pos, real>) returns (path: seq<Pos>)
    requires TreeOk(pr, cameFrom, cost) && pr.goal in cost
    ensures IsRoute(pr.obstacles, pr.n, path, pr.start, pr.goal)
    ensures (|path| - 1) as real <= cost[pr.goal]
  {
    var rev: seq<Pos> := [];
    var current: Option<Pos> := Some(pr.goal);
    ghost var remaining := cost.Keys;
    while current.Some?
      invariant Walk(pr, cameFrom, cost, rev, current, remaining)
      decreases remaining
    {
      WalkStep(pr, cameFrom, cost, rev, current, remaining);
      var c := current.value;
      rev := rev + [c];
      remaining := remaining - {c};
      current := cameFrom[c];
    }
    path := Reverse(rev);
    ReversedWalkIsRoute(pr.obstacles, pr.n, rev, pr.start, pr.goal);
  }

  /** The goal has been popped: the reconstructed path is a route, one move per unit of
      cost at most, hence a shortest one on a plain grid. */
  method GoalReached(pr: Problem, frontier: seq<Entry>, cameFrom: map<Pos, Option<Pos>>,
                     cost: map<Pos, real>, ghost closed: set<Pos>, e: Entry) returns (path: seq<Pos>)
    requires SearchInv(pr, frontier, cameFrom, cost, closed, None)
    requires e in frontier && e.pos == pr.goal && forall f :: f in frontier ==> EntryLe(e, f)
    ensures IsRoute(pr.obstacles, pr.n, path, pr.start, pr.goal)
    ensures PlainCase(pr) ==> |path| == Dist(pr) + 1
    ensures pr.start == pr.goal ==> path == [pr.start]
  {
    path := ReconstructPath(pr, cameFrom, cost);
    if PlainCase(pr) {
      GoalCostBound(pr, frontier, cameFrom, cost, closed, e);
      RouteIsLongEnough(pr.obstacles, pr.n, path, pr.start, pr.goal);
    }
    if pr.start == pr.goal {
      assert |path| == 1;
    }
  }

  /** The state before the first pop: only the start is reached, at cost 0, and queued. */
  lemma SearchStarts(pr: Problem)
    requires Fits(pr)
    ensures SearchInv(pr, [Entry(0.0, pr.start)], map[pr.start := None], map[pr.start := 0.0], {}, None)
  {
    assert Entry(0.0, pr.start) in [Entry(0.0, pr.start)];
  }

  /** `astar`. The source's `while frontier` loop runs at most `budget` times here;
      an exhausted budget is reported as `OutOfBudget`. */
  method Astar(start: Pos, goal: Pos, gridSize: int, obstacles: array2<bool>, congestion: array2<real>, budget: nat)
    returns (r: SearchResult)
    requires gridSize <= obstacles.Length0 && gridSize <= obstacles.Length1
    requires gridSize <= congestion.Length0 && gridSize <= congestion.Length1
    ensures r.Found? ==> IsRoute(obstacles, gridSize, r.path, start, goal)
    ensures r.NoPath? ==> forall route :: !IsRoute(obstacles, gridSize, route, start, goal)
    ensures r.Found? && Plain(obstacles, congestion, gridSize) && InBounds(start, gridSize) && InBounds(goal, gridSize)
            ==> |r.path| == Manhattan(start, goal) + 1
    ensures start == goal && budget > 0 ==> r == Found([start])
  {
    var pr := Problem(obstacles, congestion, gridSize, start, goal);
    var frontier := [Entry(0.0, start)];
    var cameFrom: map<Pos, Option<Pos>> := map[start := None];
    var cost: map<Pos, real> := map[start := 0.0];
    ghost var closed: set<Pos> := {};
    SearchStarts(pr);
    var fuel := budget;
    while frontier != []
      invariant SearchInv(pr, frontier, cameFrom, cost, closed, None)
      invariant start == goal ==> fuel == budget && frontier == [Entry(0.0, start)]
      decreases fuel
    {
      if fuel == 0 {
        return OutOfBudget;
      }
      fuel := fuel - 1;
      var e, rest := PopMin(frontier);
      var current := e.pos;
      if current == goal {
        var path := GoalReached(pr, frontier, cameFrom, cost, closed, e);
        return Found(path);
      }
      PopPreserves(pr, frontier, cameFrom, cost, closed, e, rest);
      frontier, cameFrom, cost, closed := Expand(pr, current, rest, cameFrom, cost, closed + {current});
    }
    NoRouteOutOfClosedSet(obstacles, gridSize, cost.Keys, start, goal);
    return NoPath;
  }
}
