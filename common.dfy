/** Grid geometry shared by the planner, the environment, the agent and the vehicle:
    cells, moves, and which of the four moves out of a cell land on a free cell. */
module Common {

  datatype Option<T> = None | Some(value: T)

  /** A cell, addressed as `(x, y)`; the grid's arrays are indexed `[x, y]`. */
  datatype Pos = Pos(x: int, y: int)

  /** A unit move `(dx, dy)`. */
  datatype Delta = Delta(dx: int, dy: int)

  /** The four moves, indexed 0..3: up, right, down, left. Both the planner's
      neighbour enumeration and the agent's action table use this order. */
  const Directions: seq<Delta> := [Delta(0, 1), Delta(1, 0), Delta(0, -1), Delta(-1, 0)]

  function Shift(p: Pos, d: Delta): Pos
  {
    Pos(p.x + d.dx, p.y + d.dy)
  }

  function Abs(i: int): nat
  {
    if i < 0 then -i else i
  }

  /** Manhattan distance. */
  function Manhattan(a: Pos, b: Pos): (d: nat)
    ensures d == 0 <==> a == b
    ensures d == Abs(b.x - a.x) + Abs(b.y - a.y)
  {
    Abs(a.x - b.x) + Abs(a.y - b.y)
  }

  /** The distance does not depend on the direction it is measured in. */
  lemma ManhattanSymmetric(a: Pos, b: Pos)
    ensures Manhattan(a, b) == Manhattan(b, a)
  {
  }

  predicate InBounds(p: Pos, n: int)
  {
    0 <= p.x < n && 0 <= p.y < n
  }

  /** `p` lies inside the `n`-by-`n` grid and is not an obstacle. The array
      bound is part of the test so that the predicate needs no precondition. */
  predicate Passable(obstacles: array2<bool>, n: int, p: Pos)
    reads obstacles
  {
    InBounds(p, n) && p.x < obstacles.Length0 && p.y < obstacles.Length1 && !obstacles[p.x, p.y]
  }

  /** The indices among the first `k` directions whose move out of `p` is passable, ascending. */
  function OpenDirectionsUpTo(obstacles: array2<bool>, n: int, p: Pos, k: nat): seq<int>
    requires k <= |Directions|
    reads obstacles
  {
    if k == 0 then []
    else OpenDirectionsUpTo(obstacles, n, p, k - 1)
         + (if Passable(obstacles, n, Shift(p, Directions[k - 1])) then [k - 1] else [])
  }

  /** The indices of all moves out of `p` that reach a passable cell, ascending. */
  function OpenDirections(obstacles: array2<bool>, n: int, p: Pos): seq<int>
    reads obstacles
  {
    OpenDirectionsUpTo(obstacles, n, p, |Directions|)
  }

  predicate StrictlyIncreasing(s: seq<int>)
  {
    forall i, j :: 0 <= i < j < |s| ==> s[i] < s[j]
  }

  lemma {:induction false} OpenDirectionsUpToSpec(obstacles: array2<bool>, n: int, p: Pos, k: nat)
    requires k <= |Directions|
    ensures var r := OpenDirectionsUpTo(obstacles, n, p, k);
      && StrictlyIncreasing(r)
      && (forall i :: i in r ==> 0 <= i < k)
      && (forall i :: 0 <= i < k ==> (i in r <==> Passable(obstacles, n, Shift(p, Directions[i]))))
  {
    if k > 0 {
      var prev := OpenDirectionsUpTo(obstacles, n, p, k - 1);
      OpenDirectionsUpToSpec(obstacles, n, p, k - 1);
      var last: seq<int> := if Passable(obstacles, n, Shift(p, Directions[k - 1])) then [k - 1] else [];
      var r := prev + last;
      assert r == OpenDirectionsUpTo(obstacles, n, p, k);
      forall i, j | 0 <= i < j < |r| ensures r[i] < r[j] {
        if j < |prev| {
        } else {
          assert r[j] == k - 1;
          assert r[i] == prev[i] && prev[i] in prev;
        }
      }
      forall i | i in r ensures 0 <= i < k {
        if i !in last {
          assert i in prev;
        }
      }
    }
  }

  /** The open directions are exactly the passable moves, each once, in ascending order. */
  lemma OpenDirectionsSpec(obstacles: array2<bool>, n: int, p: Pos)
    ensures var r := OpenDirections(obstacles, n, p);
      && StrictlyIncreasing(r)
      && |r| <= 4
      && (forall i :: i in r ==> 0 <= i < 4)
      && (forall i :: 0 <= i < 4 ==> (i in r <==> Passable(obstacles, n, Shift(p, Directions[i]))))
  {
    var r := OpenDirections(obstacles, n, p);
    OpenDirectionsUpToSpec(obstacles, n, p, 4);
    IncreasingBelowBound(r, 4);
  }

  lemma {:induction false} IncreasingBelowBound(s: seq<int>, b: nat)
    requires StrictlyIncreasing(s)
    requires forall i :: i in s ==> 0 <= i < b
    ensures |s| <= b
  {
    if |s| > 0 {
      var m := s[|s| - 1];
      assert m in s;
      var t := s[..|s| - 1];
      forall i | i in t ensures 0 <= i < m {
        var j :| 0 <= j < |t| && t[j] == i;
        assert s[j] == i && s[j] in s;
      }
      assert StrictlyIncreasing(t);
      IncreasingBelowBound(t, m);
      assert |s| == |t| + 1 && m < b;
    }
  }

  /** Each move changes the Manhattan distance to any cell by exactly one. */
  lemma ShiftDistance(p: Pos, k: int, q: Pos)
    requires 0 <= k < |Directions|
    ensures Manhattan(p, Shift(p, Directions[k])) == 1
    ensures Manhattan(Shift(p, Directions[k]), q) == Manhattan(p, q) + 1
         || Manhattan(Shift(p, Directions[k]), q) == Manhattan(p, q) - 1
  {
  }

  /** The cells at Manhattan distance one are exactly the four moves. */
  lemma AdjacentIsShift(p: Pos, q: Pos) returns (k: int)
    requires Manhattan(p, q) == 1
    ensures 0 <= k < |Directions| && q == Shift(p, Directions[k])
  {
    if q.y == p.y + 1 { k := 0; }
    else if q.x == p.x + 1 { k := 1; }
    else if q.y == p.y - 1 { k := 2; }
    else { k := 3; }
  }
}
