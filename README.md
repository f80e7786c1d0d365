# Grid-city traffic learner: a verified Dafny model

The system simulates vehicles crossing a square city grid. Each vehicle is steered by a tabular Q-learning agent. The grid carries:
- a congestion field, updated from where the vehicles stand and normalised to [0, 1];
- obstacle cells (traffic incidents);
- traffic lights at the intersections, which alternate between north-south green (1) and east-west green (2) every `traffic_light_cycle` ticks.

An A* planner finds congestion-aware routes. Two reward-configuration records hold tunable weights.

This project models that core and proves what each part promises.

| module | file | models |
|---|---|---|
| `Common` | `common.dfy` | cells, the four moves (up, right, down, left), Manhattan distance, passable cells |
| `AStar` | `astar.dfy` | `manhattan_distance`, `get_neighbors`, `astar` with its step cost and path reconstruction |
| `UrbanGrids` | `urban_grid.dfy` | `UrbanGrid`: construction, congestion update, obstacles, traffic lights, congestion window |
| `QLearning` | `agent.dfy` | `QLearningAgent`: state keys, valid actions, epsilon-greedy choice, the Q-learning update |
| `Vehicles` | `vehicle.dfy` | `Vehicle`: construction and `move` |
| `ConfigValues` | `config_values.dfy` | attribute values, keyword names, and `update_config` as a map operation |
| `AlgorithmRewardConfig` | `algorithm_reward_config.dfy` | the 24-attribute `RewardConfig` with algorithm selection |
| `PlainRewardConfig` | `plain_reward_config.dfy` | the 19-attribute `RewardConfig` |

How the Python state is represented:
- **Grid arrays.** `UrbanGrid` keeps its three grids as `array2` fields and updates them in place.
- **Congestion update.** It is proved equal to a pure function on a snapshot of the field, `CongestionAfter`. Its bounds are proved as lemmas.
- **Vehicle.** `Move` is proved equal to the pure transition `Vehicles.Advance` on a value snapshot of the vehicle's fields, followed by the agent's update `QLearning.QUpdate`. The vehicle's properties are lemmas about `Advance`.
- **Reward records.** Their attributes are a map from attribute to value, standing for the instance `__dict__` that `setattr` writes. Keyword names are `Attr(k)` when they spell an attribute's name and `Other(name)` otherwise. This makes `hasattr(self, key)` the test `kw.Attr? && kw.key in attrs`.

A property of the source worth knowing: `move` computes the proximity term from the position *after* the move. That term is therefore 0 whenever the vehicle actually moves, and plus or minus 2 when it waits at a red light (`Vehicles.ProximityTerm`).

## Model

| member | source | states |
|---|---|---|
| Common.Manhattan | algorithm/astar.py:4-5 | the distance is a natural number, zero exactly when the cells are equal, and equals the sum of the absolute coordinate differences |
| Common.ManhattanSymmetric | algorithm/astar.py:4-5 | the distance is symmetric |
| Common.OpenDirectionsSpec | agent.py:38-44 | the indices of open moves are ascending, at most four, within 0..3, and an index is present exactly when its move reaches an in-bounds non-obstacle cell |
| Common.ShiftDistance | algorithm/astar.py:10 | each of the four moves reaches a cell at distance 1 and changes the distance to any cell by exactly one |
| Common.AdjacentIsShift | algorithm/astar.py:10 | every cell at distance 1 is reached by one of the four moves |
| AStar.NeighborsSpec | algorithm/astar.py:7-16 | the neighbours follow the move order up, right, down, left, have no duplicates, number at most four, and a cell is a neighbour exactly when it is passable and at distance 1 |
| AStar.GetNeighbors | algorithm/astar.py:7-16 | the loop over the four moves computes exactly the neighbour list |
| AStar.StepCost | algorithm/astar.py:31-36 | the step cost is at least 1; it is exactly 1 iff the cell's congestion is at most 0.5, and above 2 otherwise |
| AStar.RouteIsLongEnough | algorithm/astar.py:55-62 | any route of neighbour steps from s to g has at least Manhattan(s, g) + 1 cells |
| AStar.RouteCellsPassable | algorithm/astar.py:48-62 | every cell of a route after the start is in bounds and not an obstacle |
| AStar.NoRouteOutOfClosedSet | algorithm/astar.py:43-64 | when a set containing the start but not the goal is closed under neighbour steps, no route from start to goal exists |
| AStar.PopMin | algorithm/astar.py:44 | `heappop` removes one entry that is least in the (priority, x, y) tuple order, and keeps the others |
| AStar.OpenTightExists | algorithm/astar.py:55-62 | on a plain grid, from any cell reached at its exact distance on a shortest path, the chain of shortest-path steps toward the goal meets a cell still open at its exact distance |
| AStar.GoalCostBound | algorithm/astar.py:44-46 | on a plain grid, when the goal is popped first its recorded cost is at most the Manhattan distance |
| AStar.RelaxStep | algorithm/astar.py:56-62 | recording a cheaper cost, pushing the entry and linking `came_from` keeps every search invariant |
| AStar.RelaxNeighbor | algorithm/astar.py:56-62 | relaxing one neighbour keeps the search invariant and the current cell's cost, leaves the neighbour relaxed, and keeps every cell relaxed that was before |
| AStar.Expand | algorithm/astar.py:55-62 | relaxing all neighbours of the popped cell restores the search invariant |
| AStar.ReconstructPath | algorithm/astar.py:47-53 | following `came_from` from the goal and reversing yields a route from start to goal whose length minus one is at most the goal's cost |
| AStar.GoalReached | algorithm/astar.py:46-53 | the path returned on popping the goal is a route; it has Manhattan + 1 cells on a plain grid and is `[start]` when start equals goal |
| AStar.Astar | algorithm/astar.py:18-64 | a returned path starts at start, ends at goal and steps between neighbours; `None` only when no route exists; on an obstacle-free grid with congestion at most 0.5 the path has Manhattan(start, goal) + 1 cells; `astar(s, s)` is `[s]` |
| UrbanGrids.CountIsMultiplicity | urban_grid.py:25-27 | the heatmap value of a cell is the number of occurrences of that cell in `positions`, so repeated positions add up |
| UrbanGrids.BlendNonNegative | urban_grid.py:30-31 | from congestion in [0, 1] and a rate in [0, 1], the blended field, (1 - rate) times the old value plus rate times the count at each cell, is non-negative everywhere |
| UrbanGrids.FieldMax | urban_grid.py:34 | `np.max` bounds every cell and is attained by one |
| UrbanGrids.NormaliseSpec | urban_grid.py:33-35 | for a non-negative field the result lies in [0, 1], its maximum is 1 whenever a cell is positive, and an all-zero field is left as it is |
| UrbanGrids.CongestionAfterSpec | urban_grid.py:22-35 | from congestion in [0, 1] and a rate in [0, 1], the update keeps every cell in [0, 1], has maximum 1 when any cell is positive, and leaves an all-zero blend undivided |
| UrbanGrids.IntersectionsStartNorthSouth | urban_grid.py:48-52 | at every cell with both coordinates odd, the initial light state is 1 |
| UrbanGrids.TickKeepsLights | urban_grid.py:59-62 | a tick keeps light values in {0, 1, 2}, keeps exactly the same cells lit, and toggling twice is the identity |
| UrbanGrids.FullCycleTogglesOnce | urban_grid.py:54-62 | starting from cycle 0, `k <= traffic_light_cycle` ticks leave a light as it was except after exactly `traffic_light_cycle` ticks, which toggle it once |
| UrbanGrids.WindowRectSpec | urban_grid.py:64-70 | the clamped window is non-empty, contains the cell, lies inside the grid, and covers exactly the grid cells within `window_size // 2` on both axes |
| UrbanGrids.RectSumBounds | urban_grid.py:72 | the sum over a window of values within [a, b] lies between a and b times the window's area |
| UrbanGrids.MeanBetween | urban_grid.py:72 | the mean over a window lies between any lower and upper bound of its cells |
| UrbanGrids.UrbanGrid.constructor | urban_grid.py:5-16 | a fresh grid has zero congestion, no obstacles, lights exactly at the cells with both coordinates odd, all in state 1, and cycle 0 |
| UrbanGrids.UrbanGrid.InitTrafficLights | urban_grid.py:45-52 | each intersection gets state 1 when i + j is even and 2 otherwise; other cells keep their light value |
| UrbanGrids.UrbanGrid.UpdateTrafficLights | urban_grid.py:54-62 | the cycle count grows by one, and every lit cell toggles 1 to 2 or 2 to 1 exactly when the new count is a multiple of the cycle length; otherwise nothing changes |
| UrbanGrids.UrbanGrid.AddObstacle | urban_grid.py:37-39 | cell (x, y) becomes an obstacle and no other cell changes |
| UrbanGrids.UrbanGrid.RemoveObstacle | urban_grid.py:41-43 | cell (x, y) stops being an obstacle and no other cell changes |
| UrbanGrids.UrbanGrid.ResetCongestion | urban_grid.py:18-20 | congestion becomes the given draw, every cell in [0, 0.3) |
| UrbanGrids.UrbanGrid.Heatmap | urban_grid.py:25-27 | the loop over positions yields a fresh array whose cell holds the count of that cell in `positions` |
| UrbanGrids.UrbanGrid.MaxCongestion | urban_grid.py:34-35 | the loop returns `np.max` of the congestion field, the `FieldMax` that bounds every cell and is attained |
| UrbanGrids.UrbanGrid.BlendCells | urban_grid.py:30-31 | every cell becomes `(1 - rate) * old + rate * heat` of that cell |
| UrbanGrids.UrbanGrid.BlendCongestion | urban_grid.py:30-31 | given the heatmap of the positions, the field becomes `Blend` of the old field, which `BlendNonNegative` bounds |
| UrbanGrids.UrbanGrid.NormaliseCongestion | urban_grid.py:33-35 | the field becomes `Normalise` of the old field, which `NormaliseSpec` puts in [0, 1] |
| UrbanGrids.UrbanGrid.UpdateCongestion | urban_grid.py:22-35 | the in-place update leaves the congestion field equal to `CongestionAfter` of the old field |
| UrbanGrids.UrbanGrid.GetCongestionWindow | urban_grid.py:64-72 | the window's mean congestion lies in [0, 1] whenever the field does |
| QLearning.Truncate | agent.py:17 | `int()` truncates toward zero, for both signs |
| QLearning.CongestionLevelSpec | agent.py:17 | for non-negative congestion the bucket is in 0..4; it is 4 exactly from 0.8 up, and bucket b below 4 covers [b/5, (b+1)/5) |
| QLearning.GetStateKey | agent.py:14-18 | the key keeps the position and has a bucket in 0..4 for non-negative congestion |
| QLearning.ArgMax | agent.py:55 | `np.argmax` returns the first index holding the row's largest value |
| QLearning.QUpdateWrites | agent.py:53-58 | the update writes (1 - alpha) Q[s][a] + alpha (reward + gamma max over all four Q[s'][k]) |
| QLearning.QUpdateFrame | agent.py:53-58 | only Q[s][a] changes; every other state's row, and every unseen state's all-zero row, read as before |
| QLearning.ValidActionsSpec | agent.py:35-51 | the valid actions are never empty and ascending; with an open move they are exactly the open moves, otherwise all four |
| QLearning.QLearningAgent.constructor | agent.py:6-12 | the Q-table starts empty and the action table is up, right, down, left |
| QLearning.QLearningAgent.GetValidActions | agent.py:35-51 | the loop over the action table returns exactly the valid actions |
| QLearning.QLearningAgent.ChooseAction | agent.py:20-33 | the chosen action is always valid; when exploiting, its Q-value is at least that of every valid action |
| QLearning.QLearningAgent.UpdateQTable | agent.py:53-58 | the table becomes `QUpdate` of the old one |
| Vehicles.LoopThresholdRange | vehicle.py:106 | the loop threshold `max(3, min(5, size // 5))` is between 3 and 5 |
| Vehicles.AdvanceKeepsHistory | vehicle.py:95-117 | after each move, the history count of every cell equals its number of occurrences in the path |
| Vehicles.AdvanceStep | vehicle.py:87-99 | each move adds one step and appends exactly the post-move cell to the path; that cell is the candidate when moving and the old position when waiting |
| Vehicles.RedLightRule | vehicle.py:75-98 | at a red light the position and `reached` stay unchanged, and the step's reward includes the 5-point wait |
| Vehicles.ArrivalRule | vehicle.py:87-94 | `reached` becomes true exactly when the move is allowed onto the destination; that step adds 100 and leaves the vehicle on the destination |
| Vehicles.LoopPenaltyOnce | vehicle.py:101-115 | in one tick the penalised cells only grow, by at most the new cell; a cell already penalised is not charged again, and a charge lies in [-100, -20] |
| Vehicles.LoopPenaltyOncePerTrip | vehicle.py:101-115 | over any sequence of ticks the cells charged the loop penalty are pairwise distinct, none was penalised before, and all are recorded at the end |
| Vehicles.ProximityTerm | vehicle.py:119-129 | the returned reward exceeds the amount added to `total_reward` by a proximity term that is 0 when the vehicle moved and plus or minus 2 when it waited |
| Vehicles.Vehicle.constructor | vehicle.py:7-43 | a drawn destination differs from the start; the path is `[position]`, steps 0, not reached, total reward 0, history `{position: 1}` |
| Vehicles.Vehicle.Move | vehicle.py:45-139 | an arrived vehicle returns 0 and changes nothing; otherwise the move is valid, the new fields and the returned reward are those of `Advance` on the sensed candidate cell, and the agent's table is updated with that reward; when exploiting, the chosen move's Q-value in the table before the move is at least that of every valid action |
| Vehicles.Vehicle.Tick | vehicle.py:58-129 | everything `move` does with the chosen delta before the Q-table update (penalties, the move or wait, the loop penalty, the total and the proximity term): the vehicle's fields and the reward become those of `Advance` on the candidate cell's congestion and light |
| Vehicles.Vehicle.Relocate | vehicle.py:87-99 | a permitted move takes the candidate cell, a blocked one keeps the old cell; either way the cell is appended to the path and steps grow by one; arrival on the destination sets `reached` with the 100-point bonus; nothing else changes |
| Vehicles.Vehicle.Penalties | vehicle.py:62-85 | the step reward is -1, plus -5c above congestion 0.5, plus -15 when backtracking onto `path[-2]`, plus -5 at a red light, which also forbids the move |
| Vehicles.Vehicle.RecordVisit | vehicle.py:101-117 | the visit is counted, and the loop penalty is charged and recorded exactly when it triggers |
| ConfigValues.ApplySingle | algorithm/reward_config.py:156-160 | a one-keyword update is one `setattr` of that attribute when the record has it, and leaves the record unchanged otherwise |
| ConfigValues.ApplyMerge | algorithm/reward_config.py:142-160 | two successive `update_config` calls equal one call with the merged keywords, the later call's value winning where both name an attribute |
| ConfigValues.ApplyUnknownKeys | reward_config.py:126-130 | keywords naming no attribute change nothing |
| ConfigValues.ExportRoundTrip | reward_config.py:126-158 | an export fed to the update of a record with the same attributes reproduces the exported record |
| ConfigValues.ApplyIdempotent | reward_config.py:126-130 | applying the same update twice is the same as applying it once |
| AlgorithmRewardConfig.Defaults | algorithm/reward_config.py:11-58 | the constructor creates exactly the 24 attributes, with algorithm "proximity_based", backtrack -30, oscillation -40, red-light wait -5 and destination 100 |
| AlgorithmRewardConfig.LoopConfigAtDefaults | algorithm/reward_config.py:98-105 | the default loop parameters are 3 / 5 / -20 / -100 |
| AlgorithmRewardConfig.PenaltyGettersAtDefaults | algorithm/reward_config.py:75-88 | the default backtracking penalties are -30 / -40 / -50 and the congestion group is 0.5 / 5 |
| AlgorithmRewardConfig.AlgorithmGettersAtDefaults | algorithm/reward_config.py:121-140 | the default exponential parameters are -1 / 40 / 1.5 / 2.0, the algorithm is "proximity_based" and the step penalty is -1 |
| AlgorithmRewardConfig.GettersFollowUpdate | algorithm/reward_config.py:60-123 | each single-value getter (step penalty, distance reward, traffic-light penalty, destination reward, algorithm) of an updated record returns the keyword's value when the update names that attribute and the old value otherwise; a loop group none of whose attributes was named is unchanged |
| AlgorithmRewardConfig.GroupGettersFollowUpdate | algorithm/reward_config.py:64-140 | each of the seven grouped getters of an updated record is exactly its named entries, each holding the attribute's value after the update |
| AlgorithmRewardConfig.ValidatedAlgorithm | algorithm/reward_config.py:125-131 | the stored algorithm is always one of the two known names; it equals the argument exactly when the argument is one of them, and is "proximity_based" otherwise |
| AlgorithmRewardConfig.GetAllConfigSpec | algorithm/reward_config.py:166-193 | the source's 24-entry export dictionary has exactly the 24 attribute names the constructor creates, each mapped to that attribute's current value |
| AlgorithmRewardConfig.RoundTrip | algorithm/reward_config.py:156-193 | exporting one record and updating any 24-attribute record with the export reproduces the first record |
| AlgorithmRewardConfig.UpdateBypassesValidation | algorithm/reward_config.py:125-158 | `update_config(algorithm=t)` stores t unchanged, although `set_algorithm_type` would replace an unknown t |
| AlgorithmRewardConfig.RewardConfig.SetAlgorithmType | algorithm/reward_config.py:125-131 | only the algorithm changes, to the validated value |
| AlgorithmRewardConfig.RewardConfig.UpdateConfig | algorithm/reward_config.py:142-160 | the `setattr` loop leaves the attributes equal to `Apply` of the old ones |
| AlgorithmRewardConfig.RewardConfig.ResetToDefaults | algorithm/reward_config.py:162-164 | whatever came before, the attributes are the defaults again |
| PlainRewardConfig.Defaults | reward_config.py:11-49 | the constructor creates exactly the 19 attributes (no algorithm), with backtrack -30, oscillation -40, red-light wait -5 and destination 100 |
| PlainRewardConfig.LoopConfigAtDefaults | reward_config.py:89-96 | the default loop parameters are 3 / 5 / -20 / -100 |
| PlainRewardConfig.PenaltyGettersAtDefaults | reward_config.py:66-79 | the default backtracking penalties are -30 / -40 / -50 and the congestion group is 0.5 / 5 |
| PlainRewardConfig.GettersFollowUpdate | reward_config.py:51-88 | each single-value getter (step penalty, distance reward, traffic-light penalty, destination reward) of an updated record returns the keyword's value when the update names that attribute and the old value otherwise; an `algorithm` keyword is ignored by this record |
| PlainRewardConfig.GroupGettersFollowUpdate | reward_config.py:55-110 | each of the six grouped getters of an updated record is exactly its named entries, each holding the attribute's value after the update |
| PlainRewardConfig.GetAllConfigSpec | reward_config.py:136-158 | the source's 19-entry export dictionary has exactly the 19 attribute names the constructor creates, each mapped to that attribute's current value |
| PlainRewardConfig.RoundTrip | reward_config.py:126-158 | exporting one record and updating any 19-attribute record with the export reproduces the first record |
| PlainRewardConfig.RewardConfig.UpdateConfig | reward_config.py:112-130 | the `setattr` loop leaves the attributes equal to `Apply` of the old ones |
| PlainRewardConfig.RewardConfig.ResetToDefaults | reward_config.py:132-134 | whatever came before, the attributes are the defaults again |

## Left out

- AStar.Astar: the `while frontier` loop carries a `budget` of iterations and returns `OutOfBudget` when it runs out. Costs are reals, so termination of the unbounded loop is not proved. A `Found` path is proved to be a route, and `NoPath` to mean that no route exists.
- AStar.Astar: a path is proved minimal in length only for an obstacle-free grid with congestion at most 0.5. Optimality of the congestion-weighted cost on general grids is not stated.
- AStar.Astar: `heapq` orders equal priorities by position, because it compares `(priority, (x, y))` tuples. The model pops exactly that minimum, not a first-in-first-out order.
- AStar.Astar: the grid size must not exceed the dimensions of the obstacle and congestion arrays. The source checks `0 <= new_x/new_y < grid_size` before indexing, so with a larger `grid_size` numpy would raise `IndexError`; that error path is not modelled.
- Float arithmetic: congestion, costs, rewards and Q-values are exact reals. Rounding is not modelled.
- UrbanGrids.UrbanGrid.UpdateCongestion: positions must lie inside the grid and the grid must be non-empty. A position with a coordinate at or beyond `size` makes `position_heatmap[pos] += 1` raise `IndexError`. A negative coordinate wraps to the opposite edge and counts there. `np.max` of an empty array raises. None of these paths is modelled.
- UrbanGrids.UrbanGrid: `update_congestion` and `reset_congestion` rebind `self.congestion` to a new array. The model overwrites the one array in place, so it does not capture a caller holding the old array. The unused `self.grid` array is not modelled.
- UrbanGrids.UrbanGrid.UpdateTrafficLights: requires a non-zero `traffic_light_cycle`, since Python raises `ZeroDivisionError` there.
- UrbanGrids.UrbanGrid.GetCongestionWindow: requires the centre cell inside the grid and a non-negative window size.
- `UrbanGrid.visualize` and the `print` calls are rendering and logging, and are not modelled.
- Randomness is nondeterministic choice, never a distribution:
  - `reset_congestion` takes the draw as a parameter;
  - the exploration test in `choose_action` takes `roll`;
  - `random.choice` and the random spawn cells are left open choices (`:|`).
- QLearning.Row: reading an unseen state through the `defaultdict` inserts a zero row in Python. The model reads a zero row without inserting it, so the stored key set differs but no value read does.
- UrbanGrids.UrbanGrid.AddObstacle and UrbanGrids.UrbanGrid.RemoveObstacle: require the cell inside the grid. The source indexes the array directly, so numpy would wrap a negative coordinate or raise `IndexError`; neither is modelled.
- Vehicles.Vehicle.constructor: a given start position must lie inside the grid. The source does not check one passed in.
- Vehicles.Vehicle.constructor: the class counter `Vehicle.next_id` becomes an `id` argument.
- Vehicles.Vehicle.constructor: when the start is drawn, the grid must be non-empty. On a size-0 grid `random.randint(0, -1)` raises `ValueError`; that error path is not modelled.
- Vehicles.Vehicle.constructor: when the destination is drawn, the grid must have at least two cells. On a 1-by-1 grid the redraw loop never ends.
- Vehicles.Vehicle.Move: every move the agent may pick must land inside the grid. Only the all-four fallback of `get_valid_actions` breaks this. A candidate at coordinate `size` makes numpy raise `IndexError` at the congestion read, and `move` stops. A candidate at -1 wraps to the opposite edge for the congestion and light reads, and the vehicle may then move to that cell and stand off the grid. Neither path is modelled.
- The exponential-distance reward, A*-path-adherence bonuses and oscillation checks have no code in the modelled `vehicle.py`. It never calls `astar` or reads a `RewardConfig`, so those features are not modelled.
- AlgorithmRewardConfig.RewardConfig.UpdateConfig: `hasattr` also accepts method and special-method names, so `update_config` could overwrite a method. The model knows only the data attributes.
- AlgorithmRewardConfig.RewardConfig.UpdateConfig: kwargs keep only the attribute's name. `Other(name)` stands for any keyword that spells no attribute.
- PlainRewardConfig.RewardConfig.UpdateConfig: the same two points apply.
- The simple getters (`get_step_penalty`, `get_distance_reward`, `get_traffic_light_penalty`, `get_destination_reward`, `get_algorithm_type`) need no contract of their own. `GettersFollowUpdate` states for each that it returns the attribute's value after any update, and the `...AtDefaults` lemmas give the default values.
