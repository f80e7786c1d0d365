/** A vehicle driven by the Q-learning agent: one `move` is one tick of a small state machine. */
module Vehicles {
  import opened Common
  import opened UrbanGrids
  import opened QLearning

  /** The fields `move` updates, as a value. `penalised` holds the keys of `loop_penalty_applied`
      (the source only ever stores `True` there). */
  datatype Trip = Trip(position: Pos, destination: Pos, path: seq<Pos>, reached: bool, steps: int,
                       totalReward: real, history: map<Pos, int>, penalised: set<Pos>)

  /** What `move` reads from the grid at the candidate cell. */
  datatype Sensed = Sensed(congestion: real, light: int)

  /** The trip after the tick, and the value `move` returns (and feeds to the agent). */
  datatype Outcome = Outcome(trip: Trip, reward: real)

  /** Moving north-south (`dy != 0`) into an east-west green (2), or east-west into a
      north-south green (1). */
  predicate RedLight(d: Delta, light: int)
  {
    light > 0 && ((d.dy != 0 && light == 2) || (d.dx != 0 && light == 1))
  }

  function CongestionPenalty(c: real): real
  {
    if c > 0.5 then -5.0 * c else 0.0
  }

  /** Stepping back onto `path[-2]`, checked before the new cell is appended. */
  function BacktrackPenalty(path: seq<Pos>, candidate: Pos): real
  {
    if |path| > 1 && candidate == path[|path| - 2] then -15.0 else 0.0
  }

  function WaitPenalty(d: Delta, light: int): real
  {
    if RedLight(d, light) then -5.0 else 0.0
  }

  /** `max(3, min(5, size // 5))`. */
  function LoopThreshold(size: int): int
  {
    Max(3, Min(5, size / 5))
  }

  lemma LoopThresholdRange(size: int)
    ensures 3 <= LoopThreshold(size) <= 5
    ensures size >= 25 ==> LoopThreshold(size) == 5
    ensures size < 20 ==> LoopThreshold(size) == 3
  {
  }

  /** The loop penalty fires when `pos` was visited before, its count after this visit exceeds
      the threshold, and no loop penalty was applied at `pos` yet. */
  predicate LoopTriggered(t: Trip, pos: Pos, size: int)
  {
    pos in t.history && t.history[pos] + 1 > LoopThreshold(size) && pos !in t.penalised
  }

  /** `max(-100, -20 * (count - threshold))` when triggered, else nothing. */
  function LoopTerm(t: Trip, pos: Pos, size: int): real
  {
    if LoopTriggered(t, pos, size) then Max(-100, -20 * (t.history[pos] + 1 - LoopThreshold(size))) as real else 0.0
  }

  /** One tick of `move` on an active vehicle taking move `d`. */
  function Advance(t: Trip, d: Delta, s: Sensed, size: int): Outcome
  {
    var candidate := Shift(t.position, d);
    var blocked := RedLight(d, s.light);
    var arrived := !blocked && candidate == t.destination;
    var pos := if blocked then t.position else candidate;
    var count := if pos in t.history then t.history[pos] + 1 else 1;
    var stepReward := -1.0 + CongestionPenalty(s.congestion) + BacktrackPenalty(t.path, candidate)
                      + WaitPenalty(d, s.light) + (if arrived then 100.0 else 0.0) + LoopTerm(t, pos, size);
    var proximity := Manhattan(pos, t.destination) - Manhattan(candidate, t.destination);
    Outcome(
      Trip(pos, t.destination, t.path + [pos], t.reached || arrived, t.steps + 1, t.totalReward + stepReward,
           t.history[pos := count], if LoopTriggered(t, pos, size) then t.penalised + {pos} else t.penalised),
      stepReward + 2.0 * proximity as real)
  }

  /** `position_history[p]` is the number of times `p` occurs in `path`. */
  ghost predicate HistoryMatches(t: Trip)
  {
    forall p :: multiset(t.path)[p] == if p in t.history then t.history[p] else 0
  }

  /** Each tick keeps the history equal to the occurrence counts of the path. */
  lemma AdvanceKeepsHistory(t: Trip, d: Delta, s: Sensed, size: int)
    requires HistoryMatches(t)
    ensures HistoryMatches(Advance(t, d, s, size).trip)
  {
    var t' := Advance(t, d, s, size).trip;
    var pos := t'.position;
    assert multiset(t'.path) == multiset(t.path) + multiset{pos};
    forall p ensures multiset(t'.path)[p] == if p in t'.history then t'.history[p] else 0 {
      if p != pos {
        assert multiset(t'.path)[p] == multiset(t.path)[p];
      }
    }
  }

  /** Each tick adds one step and appends exactly the post-move cell to the path: the
      candidate's when the move is allowed, the unchanged position when waiting. */
  lemma AdvanceStep(t: Trip, d: Delta, s: Sensed, size: int)
    ensures var t' := Advance(t, d, s, size).trip;
      && t'.steps == t.steps + 1
      && t'.path == t.path + [t'.position]
      && t'.destination == t.destination
      && t'.position == if RedLight(d, s.light) then t.position else Shift(t.position, d)
  {
  }

  /** At a red light the vehicle stays, does not arrive, and pays the 5-point wait on top of the
      step, congestion, backtrack and loop terms. */
  lemma RedLightRule(t: Trip, d: Delta, s: Sensed, size: int)
    requires RedLight(d, s.light)
    ensures var t' := Advance(t, d, s, size).trip;
      && t'.position == t.position
      && t'.reached == t.reached
      && t'.totalReward - t.totalReward
         == -1.0 + CongestionPenalty(s.congestion) + BacktrackPenalty(t.path, Shift(t.position, d)) - 5.0
            + LoopTerm(t, t.position, size)
  {
  }

  /** An active vehicle becomes `reached` exactly when the move is allowed and lands on the
      destination; that tick earns the 100-point bonus and leaves it on the destination. */
  lemma ArrivalRule(t: Trip, d: Delta, s: Sensed, size: int)
    requires !t.reached
    ensures var t' := Advance(t, d, s, size).trip;
      && (t'.reached <==> !RedLight(d, s.light) && Shift(t.position, d) == t.destination)
      && (t'.reached ==>
            && t'.position == t.destination
            && t'.totalReward - t.totalReward
               == 99.0 + CongestionPenalty(s.congestion) + BacktrackPenalty(t.path, t.destination)
                  + LoopTerm(t, t.destination, size))
  {
  }

  /** The loop penalty is paid at most once per cell: the set of penalised cells only grows, by at
      most the new cell, and a cell already in it is never penalised again. When paid it lies in
      [-100, -20]. */
  lemma LoopPenaltyOnce(t: Trip, d: Delta, s: Sensed, size: int)
    ensures var t' := Advance(t, d, s, size).trip;
      && t.penalised <= t'.penalised <= t.penalised + {t'.position}
      && (t'.position in t.penalised ==> LoopTerm(t, t'.position, size) == 0.0 && t'.penalised == t.penalised)
      && (LoopTerm(t, t'.position, size) != 0.0 <==> t'.position !in t.penalised && t'.position in t'.penalised)
      && (LoopTerm(t, t'.position, size) != 0.0 ==> -100.0 <= LoopTerm(t, t'.position, size) <= -20.0)
  {
  }

  /** One tick's input: the move taken and what was sensed at the candidate cell. */
  datatype Step = Step(d: Delta, s: Sensed)

  /** The trip after a sequence of ticks. */
  function Run(t: Trip, moves: seq<Step>, size: int): Trip
    decreases |moves|
  {
    if moves == [] then t else Run(Advance(t, moves[0].d, moves[0].s, size).trip, moves[1..], size)
  }

  /** The cells at which a sequence of ticks charges the loop penalty, in the order charged. */
  function Charged(t: Trip, moves: seq<Step>, size: int): seq<Pos>
    decreases |moves|
  {
    if moves == [] then []
    else
      var t' := Advance(t, moves[0].d, moves[0].s, size).trip;
      (if LoopTerm(t, t'.position, size) != 0.0 then [t'.position] else []) + Charged(t', moves[1..], size)
  }

  /** Over a whole trip the loop penalty is charged at most once per cell: the charged cells are
      pairwise distinct, none was penalised before the trip, and all are recorded at its end. */
  lemma {:induction false} LoopPenaltyOncePerTrip(t: Trip, moves: seq<Step>, size: int)
    ensures var c := Charged(t, moves, size);
      && (forall i, j :: 0 <= i < j < |c| ==> c[i] != c[j])
      && (forall p :: p in c ==> p !in t.penalised && p in Run(t, moves, size).penalised)
      && t.penalised <= Run(t, moves, size).penalised
    decreases |moves|
  {
    if moves != [] {
      var t' := Advance(t, moves[0].d, moves[0].s, size).trip;
      var rest := Charged(t', moves[1..], size);
      LoopPenaltyOnce(t, moves[0].d, moves[0].s, size);
      LoopPenaltyOncePerTrip(t', moves[1..], size);
      assert Run(t, moves, size) == Run(t', moves[1..], size);
      var head := if LoopTerm(t, t'.position, size) != 0.0 then [t'.position] else [];
      var c := head + rest;
      assert Charged(t, moves, size) == c;
      forall i, j | 0 <= i < j < |c| ensures c[i] != c[j] {
        if i < |head| {
          assert c[j] == rest[j - |head|];
          assert c[j] in rest;
        } else {
          assert c[i] == rest[i - |head|] && c[j] == rest[j - |head|];
        }
      }
      forall p | p in c ensures p !in t.penalised && p in Run(t, moves, size).penalised {
        if p !in head {
          assert p in rest;
        }
      }
    }
  }

  /** The returned reward adds `2 * (dist(position, dest) - dist(candidate, dest))` to the tick's
      contribution to `total_reward` (the position being the post-move one). That term is 0 when
      the vehicle moved, and plus or minus 2 when it waited. */
  lemma ProximityTerm(t: Trip, k: int, s: Sensed, size: int)
    requires 0 <= k < |Directions|
    ensures var o := Advance(t, Directions[k], s, size);
      var extra := o.reward - (o.trip.totalReward - t.totalReward);
      && (!RedLight(Directions[k], s.light) ==> extra == 0.0)
      && (RedLight(Directions[k], s.light) ==> extra == 2.0 || extra == -2.0)
  {
    ShiftDistance(t.position, k, t.destination);
  }

  /** `Vehicle`. The class counter `next_id` is replaced by the `id` argument. */
  class Vehicle {
    const urbanGrid: UrbanGrid
    const agent: QLearningAgent
    const id: int
    var position: Pos
    const startPosition: Pos
    const destination: Pos
    var path: seq<Pos>
    var reached: bool
    var steps: int
    var totalReward: real
    var positionHistory: map<Pos, int>
    var loopPenaltyApplied: set<Pos>

    function State(): Trip
      reads this
    {
      Trip(position, destination, path, reached, steps, totalReward, positionHistory, loopPenaltyApplied)
    }

    ghost predicate Valid()
      reads this, urbanGrid, agent, agent.urbanGrid
    {
      && urbanGrid.Valid() && agent.Valid()
      && InBounds(position, urbanGrid.size)
      && |path| > 0 && path[|path| - 1] == position
      && HistoryMatches(State())
    }

    /** Every action the agent may pick from here leads onto the vehicle's grid. Only the
        all-four fallback of `get_valid_actions` can break this. */
    ghost predicate CandidatesOnGrid()
      reads this, urbanGrid, agent, agent.urbanGrid, agent.urbanGrid.obstacles
    {
      forall k :: k in ValidActions(agent.urbanGrid.obstacles, agent.urbanGrid.size, position) ==>
        0 <= k < 4 && InBounds(Shift(position, Directions[k]), urbanGrid.size)
    }

    /** The agent's state key at `p`: the cell and the discretised mean congestion around it. */
    function StateAt(p: Pos): StateKey
      requires urbanGrid.Valid() && InBounds(p, urbanGrid.size)
      reads this, urbanGrid, urbanGrid.congestion
    {
      GetStateKey(p, urbanGrid.GetCongestionWindow(p.x, p.y, 3))
    }

    function SenseAt(p: Pos): Sensed
      requires urbanGrid.Valid() && InBounds(p, urbanGrid.size)
      reads this, urbanGrid, urbanGrid.congestion, urbanGrid.trafficLights
    {
      Sensed(urbanGrid.congestion[p.x, p.y], urbanGrid.trafficLights[p.x, p.y])
    }

    /** A new vehicle. A missing position or destination is drawn uniformly from the grid, the
        destination again until it differs from the position; that redraw loop only ends on a
        grid with at least two cells. */
    constructor (urbanGrid: UrbanGrid, agent: QLearningAgent, id: int, position: Option<Pos>, destination: Option<Pos>)
      requires urbanGrid.Valid() && agent.Valid()
      requires position.Some? ==> InBounds(position.value, urbanGrid.size)
      requires position.None? ==> urbanGrid.size >= 1
      requires destination.None? ==> urbanGrid.size >= 2
      ensures Valid()
      ensures this.urbanGrid == urbanGrid && this.agent == agent && this.id == id
      ensures position.Some? ==> this.position == position.value
      ensures destination.Some? ==> this.destination == destination.value
      ensures destination.None? ==> this.destination != this.position && InBounds(this.destination, urbanGrid.size)
      ensures startPosition == this.position && path == [this.position]
      ensures !reached && steps == 0 && totalReward == 0.0
      ensures positionHistory == map[this.position := 1] && loopPenaltyApplied == {}
    {
      this.urbanGrid := urbanGrid;
      this.agent := agent;
      this.id := id;
      var p: Pos;
      if position.None? {
        assert InBounds(Pos(0, 0), urbanGrid.size);
        p :| InBounds(p, urbanGrid.size);
      } else {
        p := position.value;
      }
      this.position := p;
      startPosition := p;
      var dest: Pos;
      if destination.None? {
        var other := if p == Pos(0, 0) then Pos(1, 0) else Pos(0, 0);
        assert InBounds(other, urbanGrid.size) && other != p;
        dest :| InBounds(dest, urbanGrid.size) && dest != p;
      } else {
        dest := destination.value;
      }
      this.destination := dest;
      path := [p];
      reached := false;
      steps := 0;
      totalReward := 0.0;
      positionHistory := map[p := 1];
      loopPenaltyApplied := {};
    }

    /** `move`. `roll` is the agent's `random.random()` draw; `action` is the move the agent
        picked. A vehicle that has arrived returns 0 and changes nothing; otherwise the tick is
        `Advance` on the sensed candidate cell, and the agent learns from it. When the agent
        exploits, the move is greedy for the Q-table as it was before the move. */
    method Move(roll: real) returns (reward: real, ghost action: int)
      requires Valid()
      requires !reached ==> CandidatesOnGrid()
      modifies this, agent
      ensures Valid()
      ensures old(reached) ==> reward == 0.0 && State() == old(State()) && agent.qTable == old(agent.qTable)
      ensures !old(reached) ==>
        && action in ValidActions(agent.urbanGrid.obstacles, agent.urbanGrid.size, old(position))
        && 0 <= action < 4
        && InBounds(Shift(old(position), Directions[action]), urbanGrid.size)
        && State() == Advance(old(State()), Directions[action], SenseAt(Shift(old(position), Directions[action])), urbanGrid.size).trip
        && reward == Advance(old(State()), Directions[action], SenseAt(Shift(old(position), Directions[action])), urbanGrid.size).reward
        && agent.qTable == QUpdate(old(agent.qTable), old(StateAt(position)), action, reward, StateAt(position),
                                   agent.learningRate, agent.discountFactor)
        && (roll >= agent.epsilon ==>
              forall b :: b in ValidActions(agent.urbanGrid.obstacles, agent.urbanGrid.size, old(position)) ==>
                Row(old(agent.qTable), old(StateAt(position)))[b] <= Row(old(agent.qTable), old(StateAt(position)))[action])
    {
      if reached {
        return 0.0, 0;
      }
      var congestionLevel := urbanGrid.GetCongestionWindow(position.x, position.y, 3);
      var state := GetStateKey(position, congestionLevel);
      var actionIdx := agent.ChooseAction(state, position, roll);
      action := actionIdx;
      reward := Tick(agent.actions[actionIdx]);
      var newCongestionLevel := urbanGrid.GetCongestionWindow(position.x, position.y, 3);
      var newState := GetStateKey(position, newCongestionLevel);
      agent.UpdateQTable(state, actionIdx, reward, newState);
    }

    /** The body of `move` between choosing the move `d` and updating the agent. */
    method Tick(d: Delta) returns (reward: real)
      requires Valid() && !reached
      requires InBounds(Shift(position, d), urbanGrid.size)
      modifies this
      ensures Valid()
      ensures State() == Advance(old(State()), d, SenseAt(Shift(old(position), d)), urbanGrid.size).trip
      ensures reward == Advance(old(State()), d, SenseAt(Shift(old(position), d)), urbanGrid.size).reward
    {
      ghost var t0 := State();
      var newPosition := Pos(position.x + d.dx, position.y + d.dy);
      ghost var sensed := SenseAt(newPosition);
      ghost var o := Advance(t0, d, sensed, urbanGrid.size);
      AdvanceKeepsHistory(t0, d, sensed, urbanGrid.size);
      var canMove;
      reward, canMove := Penalties(d, newPosition);
      var bonus := Relocate(newPosition, canMove);
      assert position == o.trip.position && path == o.trip.path;
      assert reached == o.trip.reached && steps == o.trip.steps;
      reward := reward + bonus;
      var loopTerm := RecordVisit();
      assert positionHistory == o.trip.history && loopPenaltyApplied == o.trip.penalised;
      reward := reward + loopTerm;
      totalReward := totalReward + reward;
      assert State() == o.trip;

      var oldDist: int := Manhattan(position, destination);
      var newDist: int := Manhattan(newPosition, destination);
      reward := reward + 2.0 * (oldDist - newDist) as real;
    }

    /** The step cost, the congestion, backtracking and red-light penalties, and whether the
        light lets the vehicle enter `newPosition`. */
    method Penalties(d: Delta, newPosition: Pos) returns (reward: real, canMove: bool)
      requires urbanGrid.Valid() && InBounds(newPosition, urbanGrid.size)
      ensures canMove == !RedLight(d, SenseAt(newPosition).light)
      ensures reward == -1.0 + CongestionPenalty(SenseAt(newPosition).congestion)
                        + BacktrackPenalty(path, newPosition) + WaitPenalty(d, SenseAt(newPosition).light)
    {
      reward := -1.0;
      var congestionAtNewPos := urbanGrid.congestion[newPosition.x, newPosition.y];
      if congestionAtNewPos > 0.5 {
        reward := reward - 5.0 * congestionAtNewPos;
      }
      if |path| > 1 && newPosition == path[|path| - 2] {
        reward := reward - 15.0;
      }
      canMove := true;
      var light := urbanGrid.trafficLights[newPosition.x, newPosition.y];
      if light > 0 {
        if (d.dy != 0 && light == 2) || (d.dx != 0 && light == 1) {
          canMove := false;
          reward := reward - 5.0;
        }
      }
    }

    /** Enter `newPosition` (arriving when it is the destination) or stay put, and record the
        cell in the path. */
    method Relocate(newPosition: Pos, canMove: bool) returns (bonus: real)
      modifies this
      ensures position == if canMove then newPosition else old(position)
      ensures path == old(path) + [position]
      ensures steps == old(steps) + 1
      ensures reached == (old(reached) || (canMove && newPosition == destination))
      ensures bonus == if canMove && newPosition == destination then 100.0 else 0.0
      ensures totalReward == old(totalReward) && positionHistory == old(positionHistory)
      ensures loopPenaltyApplied == old(loopPenaltyApplied)
    {
      bonus := 0.0;
      if canMove {
        if newPosition == destination {
          bonus := 100.0;
          reached := true;
        }
        position := newPosition;
        path := path + [position];
      } else {
        path := path + [position];
      }
      steps := steps + 1;
    }

    /** Count the visit to the current cell and charge the loop penalty once it is exceeded. */
    method RecordVisit() returns (loopTerm: real)
      requires urbanGrid.Valid()
      modifies this
      ensures loopTerm == LoopTerm(old(State()), position, urbanGrid.size)
      ensures positionHistory == old(positionHistory)[position := if position in old(positionHistory) then old(positionHistory)[position] + 1 else 1]
      ensures loopPenaltyApplied == if LoopTriggered(old(State()), position, urbanGrid.size) then old(loopPenaltyApplied) + {position} else old(loopPenaltyApplied)
      ensures position == old(position) && path == old(path) && steps == old(steps) && reached == old(reached)
      ensures totalReward == old(totalReward)
    {
      loopTerm := 0.0;
      if position in positionHistory {
        positionHistory := positionHistory[position := positionHistory[position] + 1];
        var loopThreshold := Max(3, Min(5, urbanGrid.size / 5));
        if positionHistory[position] > loopThreshold && position !in loopPenaltyApplied {
          var loopPenalty := -20 * (positionHistory[position] - loopThreshold);
          loopPenalty := Max(-100, loopPenalty);
          loopTerm := loopPenalty as real;
          loopPenaltyApplied := loopPenaltyApplied + {position};
        }
      } else {
        positionHistory := positionHistory[position := 1];
      }
    }
  }
}
