/** The tabular Q-learning agent that steers vehicles. */
module QLearning {
  import opened Common
  import opened UrbanGrids

  /** `(x, y, congestion_discrete)`. */
  datatype StateKey = StateKey(x: int, y: int, level: int)

  /** The Q-table: a row of four action values per state seen so far. */
  type QTable = map<StateKey, seq<real>>

  const ZeroRow: seq<real> := [0.0, 0.0, 0.0, 0.0]

  predicate WellFormed(q: QTable)
  {
    forall s :: s in q ==> |q[s]| == 4
  }

  /** Python's `int()` on a float: truncation toward zero. */
  function Truncate(r: real): (t: int)
    ensures r >= 0.0 ==> t as real <= r < t as real + 1.0
    ensures r < 0.0 ==> t as real - 1.0 < r <= t as real
  {
    if r >= 0.0 then r.Floor else -((-r).Floor)
  }

  /** `min(4, int(c * 5))`. */
  function CongestionLevel(c: real): int
  {
    Min(4, Truncate(c * 5.0))
  }

  /** For non-negative congestion the level is one of five buckets of width 0.2, the last one
      open-ended. */
  lemma CongestionLevelSpec(c: real)
    requires c >= 0.0
    ensures 0 <= CongestionLevel(c) <= 4
    ensures CongestionLevel(c) == 4 <==> c >= 0.8
    ensures CongestionLevel(c) < 4 ==> CongestionLevel(c) as real / 5.0 <= c < (CongestionLevel(c) + 1) as real / 5.0
  {
    var t := Truncate(c * 5.0);
    assert t as real <= c * 5.0 < t as real + 1.0;
  }

  /** `get_state_key`. */
  function GetStateKey(position: Pos, congestionLevel: real): (k: StateKey)
    ensures k.x == position.x && k.y == position.y
    ensures congestionLevel >= 0.0 ==> 0 <= k.level <= 4
  {
    CongestionLevelSpec(if congestionLevel >= 0.0 then congestionLevel else 0.0);
    StateKey(position.x, position.y, CongestionLevel(congestionLevel))
  }

  /** The row of a state, as the `defaultdict` reads it: all zeros for an unseen state. */
  function Row(q: QTable, s: StateKey): (r: seq<real>)
    requires WellFormed(q)
    ensures |r| == 4
  {
    if s in q then q[s] else ZeroRow
  }

  /** `np.argmax`: the first index holding the largest value. */
  function ArgMax(r: seq<real>): (k: int)
    requires |r| > 0
    ensures 0 <= k < |r|
    ensures forall j :: 0 <= j < |r| ==> r[j] <= r[k]
    ensures forall j :: 0 <= j < k ==> r[j] < r[k]
  {
    if |r| == 1 then 0
    else
      var k0 := ArgMax(r[..|r| - 1]);
      assert forall j :: 0 <= j < |r| - 1 ==> r[..|r| - 1][j] == r[j];
      if r[|r| - 1] > r[k0] then |r| - 1 else k0
  }

  /** The Q-learning rule: move `current` toward `reward + gamma * bestNext` by the step `alpha`. */
  function Bellman(current: real, reward: real, bestNext: real, alpha: real, gamma: real): real
  {
    (1.0 - alpha) * current + alpha * (reward + gamma * bestNext)
  }

  /** The table after `update_q_table(s, a, reward, s2)`. */
  function QUpdate(q: QTable, s: StateKey, a: int, reward: real, s2: StateKey, alpha: real, gamma: real): QTable
    requires WellFormed(q) && 0 <= a < 4
  {
    var next := Row(q, s2);
    var row := Row(q, s);
    q[s := row[a := Bellman(row[a], reward, next[ArgMax(next)], alpha, gamma)]]
  }

  /** `np.argmax` picks a slot holding the row's maximum. */
  lemma ArgMaxIsMax(r: seq<real>)
    requires |r| > 0
    ensures r[ArgMax(r)] == RowMax(r)
  {
    var m := RowMax(r);
    var j :| 0 <= j < |r| && r[j] == m;
  }

  /** The Bellman update writes `(1 - alpha) Q[s][a] + alpha (reward + gamma max_k Q[s2][k])`,
      the maximum ranging over all four actions, not only the valid ones. */
  lemma QUpdateWrites(q: QTable, s: StateKey, a: int, reward: real, s2: StateKey, alpha: real, gamma: real)
    requires WellFormed(q) && 0 <= a < 4
    ensures WellFormed(QUpdate(q, s, a, reward, s2, alpha, gamma))
    ensures Row(QUpdate(q, s, a, reward, s2, alpha, gamma), s)[a]
            == Bellman(Row(q, s)[a], reward, RowMax(Row(q, s2)), alpha, gamma)
  {
    ArgMaxIsMax(Row(q, s2));
  }

  /** No entry but `Q[s][a]` changes, and the only state that may become stored is `s`:
      every other unseen state still reads as a zero row. */
  lemma QUpdateFrame(q: QTable, s: StateKey, a: int, reward: real, s2: StateKey, alpha: real, gamma: real)
    requires WellFormed(q) && 0 <= a < 4
    ensures var q' := QUpdate(q, s, a, reward, s2, alpha, gamma);
      && WellFormed(q')
      && q'.Keys == q.Keys + {s}
      && (forall t :: t != s ==> Row(q', t) == Row(q, t))
      && (forall k :: 0 <= k < 4 && k != a ==> Row(q', s)[k] == Row(q, s)[k])
  {
  }

  /** `get_valid_actions`: the open moves, or all four when none is open. */
  function ValidActions(obstacles: array2<bool>, n: int, p: Pos): (v: seq<int>)
    reads obstacles
    ensures |v| > 0 && forall k :: k in v ==> 0 <= k < 4
  {
    OpenDirectionsSpec(obstacles, n, p);
    var open := OpenDirections(obstacles, n, p);
    if open == [] then [0, 1, 2, 3] else open
  }

  /** The valid actions are never empty, ascending, within 0..3; when any move is open they are
      exactly the moves onto a free in-bounds cell, and otherwise all four. */
  lemma ValidActionsSpec(obstacles: array2<bool>, n: int, p: Pos)
    ensures var v := ValidActions(obstacles, n, p);
      && |v| > 0 && StrictlyIncreasing(v)
      && (forall k :: k in v ==> 0 <= k < 4)
      && (OpenDirections(obstacles, n, p) != [] ==>
            forall k :: 0 <= k < 4 ==> (k in v <==> Passable(obstacles, n, Shift(p, Directions[k]))))
      && (OpenDirections(obstacles, n, p) == [] ==>
            v == [0, 1, 2, 3] && forall k :: 0 <= k < 4 ==> !Passable(obstacles, n, Shift(p, Directions[k])))
  {
    OpenDirectionsSpec(obstacles, n, p);
  }

  /** `QLearningAgent`. */
  class QLearningAgent {
    const urbanGrid: UrbanGrid
    const learningRate: real
    const discountFactor: real
    const epsilon: real
    var qTable: QTable
    /** The action table: 0 up, 1 right, 2 down, 3 left. */
    const actions: seq<Delta>

    ghost predicate Valid()
      reads this, urbanGrid
    {
      urbanGrid.Valid() && actions == Directions && WellFormed(qTable)
    }

    constructor (urbanGrid: UrbanGrid, learningRate: real, discountFactor: real, epsilon: real)
      requires urbanGrid.Valid()
      ensures Valid()
      ensures this.urbanGrid == urbanGrid && this.learningRate == learningRate
      ensures this.discountFactor == discountFactor && this.epsilon == epsilon
      ensures qTable == map[]
      ensures actions == [Delta(0, 1), Delta(1, 0), Delta(0, -1), Delta(-1, 0)]
    {
      this.urbanGrid := urbanGrid;
      this.learningRate := learningRate;
      this.discountFactor := discountFactor;
      this.epsilon := epsilon;
      qTable := map[];
      actions := [Delta(0, 1), Delta(1, 0), Delta(0, -1), Delta(-1, 0)];
    }

    /** `get_valid_actions`, as the loop over the action table the source runs. */
    method GetValidActions(position: Pos) returns (validActions: seq<int>)
      requires Valid()
      ensures validActions == ValidActions(urbanGrid.obstacles, urbanGrid.size, position)
    {
      validActions := [];
      var i := 0;
      while i < |actions|
        invariant 0 <= i <= |actions|
        invariant validActions == OpenDirectionsUpTo(urbanGrid.obstacles, urbanGrid.size, position, i)
      {
        var d := actions[i];
        var newX, newY := position.x + d.dx, position.y + d.dy;
        if 0 <= newX < urbanGrid.size && 0 <= newY < urbanGrid.size && !urbanGrid.obstacles[newX, newY] {
          validActions := validActions + [i];
        }
        i := i + 1;
      }
      if validActions == [] {
        validActions := [0, 1, 2, 3];
      }
    }

    /** `choose_action`, epsilon-greedy. `roll` is the draw of `random.random()`; the uniform
        choices among valid (or among best) actions are left nondeterministic. */
    method ChooseAction(state: StateKey, position: Pos, roll: real) returns (action: int)
      requires Valid()
      ensures action in ValidActions(urbanGrid.obstacles, urbanGrid.size, position)
      ensures 0 <= action < 4
      ensures roll >= epsilon ==> forall b :: b in ValidActions(urbanGrid.obstacles, urbanGrid.size, position) ==>
                Row(qTable, state)[b] <= Row(qTable, state)[action]
    {
      var validActions := GetValidActions(position);
      ValidActionsSpec(urbanGrid.obstacles, urbanGrid.size, position);
      if roll < epsilon {
        assert validActions[0] in validActions;
        action :| action in validActions;
      } else {
        var row := Row(qTable, state);
        forall i | 0 <= i < |validActions| ensures 0 <= validActions[i] < 4 {
          assert validActions[i] in validActions;
        }
        var qValues := seq(|validActions|, i requires 0 <= i < |validActions| => row[validActions[i]]);
        var maxQ := RowMax(qValues);
        var i :| 0 <= i < |qValues| && qValues[i] == maxQ;
        assert validActions[i] in validActions;
        action :| action in validActions && row[action] == maxQ;
        forall b | b in validActions ensures row[b] <= row[action] {
          var j :| 0 <= j < |validActions| && validActions[j] == b;
          assert qValues[j] <= maxQ;
        }
      }
    }

    /** `update_q_table`. An action index outside 0..3 makes numpy raise or wrap, hence the
        precondition. */
    method UpdateQTable(state: StateKey, action: int, reward: real, nextState: StateKey)
      requires Valid() && 0 <= action < 4
      modifies this
      ensures Valid()
      ensures qTable == QUpdate(old(qTable), state, action, reward, nextState, learningRate, discountFactor)
    {
      var next := Row(qTable, nextState);
      var bestNextAction := ArgMax(next);
      var row := Row(qTable, state);
      qTable := qTable[state := row[action := Bellman(row[action], reward, next[bestNextAction], learningRate, discountFactor)]];
    }
  }
}
