# Drone line-of-sight formation controller, modelled in Dafny

The system flies a swarm of quadcopters in a simulator. One quadcopter leads and flies
towards a goal. The others follow in a V formation. The controller has two parts.

`MainController` (main/main.py):
- It builds the quadcopters from a parameter table and gives each one a role: LEADER at
  `leader_idx`, FOLLOWER elsewhere.
- It keeps a reference to the leader and an ordered list of the followers.
- It runs `loop_num` iterations of a loop. Each iteration:
  - pulls the quadcopters' states from the simulator;
  - raises the `goal_reached` flag once the leader is within 10 units of the goal;
  - asks the strategy of each quadcopter's role for a velocity command and a tracking error;
  - logs the followers' errors;
  - moves every quadcopter.
- Once the flag is up, it stops reading the simulator and logging. It then commands zero
  velocity to everyone.

`DataLogger` (main/data_handler.py) is an append-only table:
- a header row, `Step, Follower_<id>_Error, ...`;
- one row per logged step, with the step number and each follower's error, or `None`.

The project has seven modules, one per file:

- `Wrappers` (wrappers.dfy): `Option`.
- `Geometry` (geometry.dfy): vectors over exact reals. The goal test `norm(p - goal) < 10`
  is `WithinGoal`, stated on squares as `NormSq(p - goal) < 100`.
  `WithinGoalIsNormBelowRadius` proves that the two tests agree.
- `SwarmComponents` (swarm_components.dfy) holds the domain types:
  - roles;
  - a quadcopter's state as a value;
  - the simulator's answer;
  - the keyword arguments a strategy receives and the command it returns;
  - the class `Quadcopter`, whose position and velocities are updated in place.
  - The strategies and the position update are code outside the model. They appear as
    function-typed parameters.
- `DataHandler` (data_handler.dfy): the class `DataLogger` and the functions that build
  its rows. The lemmas prove the header names every column once, and every entry is as
  wide as the header.
- `Control` (control.dfy): the controller's behaviour as functions on values.
  - `Initial` is what `initialize` builds.
  - `Step` is one iteration of the loop.
  - `RunFrom` and `Run` are a run of iterations.
  - Python's list indexing (`PyIndex`, negative indices included), `list.index`
    (`IndexOf`) and `range` (`RangeLen`) are written out. `IndexError` is modelled as
    `None`, or as an `Aborted` run.
- `ControlProperties` (control_properties.dfy): what the controller promises, proved
  about those functions. It covers:
  - role uniqueness;
  - the follower list;
  - the per-quadcopter dispatch;
  - the monotone phase flag;
  - zero commands after the goal;
  - the growth of the error log.
- `Coordinator` (main_controller.dfy): the class `MainController`.
  - Its fields are the source's `quads`, `leader`, `followers`, `goal_reached` and
    `data_logger`.
  - Its methods update them in place with loops, as the source does.
  - `Abstract()` reads the object graph as a `Control.Swarm`. Each method's contract ties
    its new state to the functions of `Control`. `AbstractWellFormed` proves that `Valid()`
    gives `Abstract()` the `WellFormed` shape that lemmas such as `StepKeepsShape` and
    `StepDispatches` require, so the lemmas of `ControlProperties` apply to the object.
  - `Valid()` is the controller invariant. `Initialize` establishes it, building it
    through `CreateQuads`, `SetReferences` and `CreateLogger`. `Sense`, `HoldAndMove`,
    `DispatchAndMove`, `Iterate`, `Advance` and `Loop` keep it. The per-quadcopter helpers
    `PullStates`, `HoldAll`, `Stage`, `Dispatch` and `MoveAll` need only part of it. It says:
    - the quadcopters' ids are their slots;
    - the roles follow the leader index;
    - `leader` is `quads[leader_idx]`;
    - `followers` lists the followers in order;
    - the logger was built for the follower ids;
    - its log keeps its shape.

The simulator's answers are an input, `pulls(loop)`: the list of states returned by the
pull of iteration `loop`. The simulator handles created by `setup_handles` are an input
list as well.

A negative `leader_idx` is followed as Python reads it. For example, with `leader_idx = -1`:
- the leader reference is the last quadcopter;
- no quadcopter gets the role LEADER, because `i == leader_idx` never holds;
- every quadcopter is a follower, the referenced leader included.

`InitialRoles` and `InitialSwarm` state this case.

## Model

| member | source | states |
|---|---|---|
| Geometry.WithinGoal | main/main.py:74-76 | The goal test `norm(leader.position - leader_goal) < 10.0`, on squares. `WithinGoalIsNormBelowRadius` states that it agrees with the norm test. |
| Geometry.WithinGoalIsNormBelowRadius | main/main.py:74-76 | For the norm `d` of `p - goal`, the squared test holds exactly when `d < 10.0`. |
| SwarmComponents.Quadcopter.constructor | main/main.py:44 | A new quadcopter has the given id, handle, initial position and role, and zero velocity and commanded velocity. |
| SwarmComponents.Quadcopter.UpdateState | main/main.py:70 | `update_state` replaces the observed position and velocity with the simulator's. It keeps the id, handle, role and staged command. |
| SwarmComponents.Quadcopter.UpdatePosition | main/main.py:116-117 | `update_position(dt)` changes only the position: the integrator's result for the old position, the staged command and `dt`. |
| DataHandler.DataLogger.constructor | main/data_handler.py:11-19 | After construction the table holds exactly one row: the header `Step` followed by `Follower_<fid>_Error` for each follower id, in order. The logger invariant holds. |
| DataHandler.DataLogger.AddEntry | main/data_handler.py:21-30 | Appends exactly one row and leaves the earlier rows and `follower_ids` as they were. The row is the step followed by the looked-up error of each follower id. The invariant "header first, every later row an entry as wide as the header" is kept. |
| DataHandler.Lookup | main/data_handler.py:29 | `errors.get(fid, None)`; `Cells` states what each cell gets from it. |
| DataHandler.Cells | main/data_handler.py:29 | The row has one cell per follower id. Cell `k` is `errors[follower_ids[k]]` when the key is present and `None` otherwise. |
| DataHandler.ColumnName | main/data_handler.py:18 | The column name `Follower_<fid>_Error`. `ColumnNameInjective` and `ColumnNameIsNotStep` state that it names each follower apart and never clashes with `Step`. |
| DataHandler.HeaderColumns | main/data_handler.py:18 | `Step` followed by one column per follower id. `HeaderColumnAt` states which id each column names, and `HeaderColumnsDistinct` states its width and that no name repeats. |
| DataHandler.CellsIgnoreOtherKeys | main/data_handler.py:29 | Keys of `errors` that are not follower ids do not change the row. |
| DataHandler.EntryMatchesHeader | main/data_handler.py:18-29 | Every entry row is `1 + len(follower_ids)` wide, the width of the header. |
| DataHandler.ColumnNameAt | main/data_handler.py:18 | Follower column `k` is the column of `follower_ids[k]`. |
| DataHandler.HeaderColumnAt | main/data_handler.py:18 | Header column `k >= 1` is `Follower_<follower_ids[k-1]>_Error`. |
| DataHandler.HeaderColumnsDistinct | main/data_handler.py:18 | With distinct follower ids, the header has `1 + len(follower_ids)` columns and names each column once. |
| DataHandler.ColumnNameIsNotStep | main/data_handler.py:18 | No follower column is called `Step`. |
| DataHandler.ColumnNameInjective | main/data_handler.py:18 | Two followers share a column name only if they share an id. |
| DataHandler.IntToStringInjective | main/data_handler.py:18 | The decimal rendering of an int in the f-string is injective. |
| DataHandler.NatToStringInjective | main/data_handler.py:18 | The decimal rendering of a natural number is injective. |
| DataHandler.NatToStringDigits | main/data_handler.py:18 | The decimal rendering is a non-empty string of digits. It has two or more digits exactly for numbers from ten up. |
| Control.FollowersOf | main/main.py:48 | Every listed slot is a follower slot, and every follower slot is listed. |
| Control.FollowersOfIncreasing | main/main.py:48 | The follower list keeps construction order: the slots are strictly increasing. |
| Control.PyIndex | main/main.py:47 | Python indexing of a list of length `n`: it succeeds exactly for `-n <= idx < n`. It reads slot `idx`, or `n + idx` for a negative index. |
| Control.IndexOf | main/main.py:100 | `list.index` where it succeeds: the first slot that holds the element. The model returns -1 where `list.index` would raise ValueError; line 100 calls it only on a follower, which is always in the follower list, so that case never arises there. |
| Control.RangeLen | main/main.py:42-65 | The length of `range(n)`, which is `max(n, 0)`: zero exactly when `n <= 0`. |
| Control.Initial | main/main.py:34-52 | `initialize` succeeds exactly when every slot has an initial position and a handle and `leader_idx` is a valid Python index. The leader slot is then inside the list. |
| Control.RoleFor | main/main.py:43 | The role of slot `i`. `LeaderCountOfTable` and `FollowersOfTable` state that it gives one LEADER exactly for an in-range index and FOLLOWER elsewhere. |
| Control.RolesOf | main/main.py:43-48 | One role per quadcopter, the role of each. It is the list the comprehension at line 48 filters. |
| Control.InitialQuads | main/main.py:42-45 | One quadcopter per value of `range(quad_num)`. `InitialSwarm` states each one's id, handle, position and role. |
| Control.Refresh | main/main.py:67-70 | The state pull keeps the number of quadcopters. `StepGoalFlag` and `StepDispatches` state what the refreshed states are used for. |
| Control.Sense | main/main.py:67-78 | Steps 1 and 2, with the same quadcopters. `StepGoalFlag` states when the flag goes up and `StepKeepsIdentity` that no identity changes. |
| Control.ContextFor | main/main.py:93-101 | The keyword arguments of one strategy call. `FollowerSlotOfContext` states that `follower_idx` is -1 exactly for the leader and the follower's place in the list otherwise. |
| Control.Output | main/main.py:91-104 | The strategy of the quadcopter's role, called on it and its context. `ActCommands` and `DispatchedErrors` state that each command and each logged error come from this call. |
| Control.StageAt | main/main.py:104-105 | One quadcopter gets its strategy's command and the count is kept. `StagedFacts` states that only that command changes. |
| Control.Staged | main/main.py:90-105 | The first `k` quadcopters staged in order, with the count kept. `StagedFacts` states that each command is its strategy's output on the swarm as staged before it and that the rest are untouched. |
| Control.Errors | main/main.py:81-109 | `current_errors` after the first `k` quadcopters. `ErrorsFacts` states that its keys are exactly the followers so far, each mapped to its strategy's error. |
| Control.Hold | main/main.py:84-88 | Every command becomes zero, with the count kept. `StepHoldsAfterGoal` and `RunAfterGoal` state the zero commands of an iteration and of a run. |
| Control.IntegrateAll | main/main.py:115-117 | `update_position(dt)` of every quadcopter, with the count kept. `StepHoldsAfterGoal` and `RunHoldsAfterGoal` state what it does to held positions. |
| Control.Act | main/main.py:84-117 | Steps 3 to 5, with the same quadcopters. `ActCommands`, `ActLogsErrors` and `ActKeepsLogShape` state the commands, the logged row and the log's shape. |
| Control.Step | main/main.py:65-121 | One iteration; one that does not raise keeps the leader slot and the quadcopters. `StepGoalFlag`, `StepHoldsAfterGoal`, `StepDispatches`, `StepLog`, `StepKeepsShape` and `StepIgnoresSimulatorAfterGoal` state what it does. |
| Control.RunFrom | main/main.py:65-121 | A run of iterations, stopping at the first that raises, which never reads as a failed `initialize`. `RunLogSteps`, `RunAfterGoal`, `RunHoldsAfterGoal` and `Coordinator.MainController.Loop` state what it does. |
| Control.Run | main/main.py:58-132 | `run`: it fails before the loop exactly when `initialize` raises. `RunWithoutGoal` and `Coordinator.MainController.Run` state the rows it saves. |
| Control.SavedRows | main/main.py:128-131 | The rows the `finally` clause hands to `save_to_csv`: none when `initialize` raised, otherwise the log as the loop left it. `Coordinator.MainController.Run` states that the object's logger holds them. |
| ControlProperties.LeaderCountOfTable | main/main.py:42-43 | Role assignment yields exactly one LEADER when `0 <= leader_idx < quad_num`, and none otherwise. |
| ControlProperties.FollowersAndLeaders | main/main.py:43-48 | Every quadcopter is either in the follower list or counted as a leader. |
| ControlProperties.FollowersOfTable | main/main.py:42-48 | With the roles `initialize` gives, the followers are exactly the slots other than `leader_idx`. There are `quad_num - 1` of them when the index is in range, and `quad_num` otherwise. |
| ControlProperties.InitialQuadsRoles | main/main.py:42-45 | The created quadcopters carry the roles of the role table. |
| ControlProperties.InitialSwarm | main/main.py:42-52 | After `initialize`, quadcopter `i` has id `i`, handle `handles[i]`, position `initial_positions[i]`, and role LEADER iff `i == leader_idx`. The leader reference is `quads[leader_idx]` under Python indexing. The flag is down and the log holds only the header for the followers. |
| ControlProperties.InitialRoles | main/main.py:42-48 | After `initialize`: one LEADER for a non-negative index and none for a negative one. The followers are the other slots, in construction order. |
| ControlProperties.InitialWellFormed | main/main.py:42-52 | `initialize` builds a well-formed swarm: ids are slots, the followers are listed from the roles, and the log has its shape. |
| ControlProperties.FollowerSlotOfContext | main/main.py:100 | `follower_idx` is -1 exactly for the leader. Otherwise it is the quadcopter's place in the follower list. |
| ControlProperties.StepContextFollowerIdx | main/main.py:90-104 | In an iteration that dispatches, the `follower_idx` given to quadcopter `i`'s strategy, on the swarm as staged before that call, is -1 exactly for the leader and otherwise `i`'s place in the follower list. |
| ControlProperties.StagedFacts | main/main.py:90-105 | Dispatching changes only staged commands. Quadcopter `j` gets what its role's strategy returned when called on the swarm as staged before it. The quadcopters not yet dispatched are untouched. |
| ControlProperties.ErrorsFacts | main/main.py:81-109 | `current_errors` has exactly the followers dispatched so far as keys. Each key maps to the error its strategy call returned. |
| ControlProperties.StepKeepsIdentity | main/main.py:65-121 | No iteration changes the quadcopters' ids, handles or roles. |
| ControlProperties.ActKeepsLogShape | main/main.py:112-113 | Logging a step keeps the log's shape: the header, then entries as wide as the header. |
| ControlProperties.StepKeepsShape | main/main.py:65-121 | An iteration keeps the swarm well formed and keeps the follower list. |
| ControlProperties.StepGoalFlag | main/main.py:67-78 | The flag only goes from false to true. It goes up in an iteration iff it was down and the leader's refreshed position is within 10 of the goal. |
| ControlProperties.StepIgnoresSimulatorAfterGoal | main/main.py:67-70 | Once the flag is up, the iteration ignores the simulator's answer and cannot raise. |
| ControlProperties.StepHoldsAfterGoal | main/main.py:84-117 | In an iteration that ends with the flag up, every `next_velocity` is zero and no row is logged. Each quadcopter is integrated from its held position with the zero command. |
| ControlProperties.DispatchedErrors | main/main.py:81-113 | After the whole dispatch, the keys of `current_errors` are exactly the follower ids. Each logged cell is the error its follower's strategy call returned. |
| ControlProperties.ActCommands | main/main.py:90-105 | With the flag down, each quadcopter moves with the velocity its role's strategy returned. |
| ControlProperties.ActLogsErrors | main/main.py:107-113 | With the flag down, exactly one row is appended: step `loop + 1`, then each follower's error in follower-list order. |
| ControlProperties.StepDispatches | main/main.py:67-113 | In an iteration that leaves the flag down, the dispatch and logging above hold on the refreshed states. |
| ControlProperties.StepLog | main/main.py:84-113 | An iteration keeps the follower list and never lowers the flag. It leaves the log alone when the flag ends up, and otherwise appends the row of step `loop + 1`. |
| ControlProperties.DownCount | main/main.py:65-113 | The number of iterations of a run that end with the flag down; `RunLogSteps` states that exactly that many rows are logged. |
| ControlProperties.RunLogSteps | main/main.py:65-113 | Over a run, the log only grows. It gains exactly one row per iteration that ended with the flag down (`DownCount`). The rows carry the step numbers `loop + 1, loop + 2, ...` in increasing order, each as wide as the header. When the flag stays down every iteration logs, and no row is added once the flag is up. |
| ControlProperties.RunAfterGoal | main/main.py:84-117 | Once the flag is up, the rest of the run cannot raise, keeps the flag up, logs nothing and leaves every command at zero. |
| ControlProperties.RunHoldsAfterGoal | main/main.py:115-117 | Once the flag is up, and if the integrator leaves a position fixed under a zero command, every quadcopter stays where it is for the rest of the run. |
| ControlProperties.RunWithoutGoal | main/main.py:62-113 | A run that never reaches the goal logs the header, then exactly `loop_num` rows numbered 1 to `loop_num`, one cell per follower. |
| Coordinator.FollowerQuads | main/main.py:48 | The follower list holds the quadcopter object of each follower slot, in order. |
| Coordinator.IndexOfImage | main/main.py:100 | `followers.index(quad)` on the object list equals the quadcopter's place among the follower slots. |
| Coordinator.MainController.AbstractWellFormed | main/main.py:42-52 | Under `Valid()`, the swarm `Abstract()` reads from the objects is `WellFormed`, so the value-level lemmas about `Step` apply to the controller. |
| Coordinator.MainController.constructor | main/main.py:13-32 | The strategy table maps LEADER and FOLLOWER to their strategies. There are no quadcopters, leader or followers, the flag is down and there is no logger. |
| Coordinator.MainController.CreateQuads | main/main.py:42-45 | Creates fresh quadcopters, one per slot, each with the state `InitialQuads` gives it. It fails exactly when a slot has no initial position or no handle. |
| Coordinator.MainController.SetReferences | main/main.py:47-48 | Sets the leader reference to `quads[leader_idx]` and the followers to the follower quadcopters in order. The quadcopters are unchanged. |
| Coordinator.MainController.CreateLogger | main/main.py:51-52 | Creates a fresh logger whose only row is the header for the follower ids. |
| Coordinator.MainController.Initialize | main/main.py:34-52 | `initialize` succeeds exactly when `Control.Initial` does. The object then satisfies the controller invariant and reads as `Initial`'s swarm. |
| Coordinator.MainController.PullStates | main/main.py:67-70 | The state pull gives every quadcopter the simulator's position and velocity. It raises exactly when the answer covers fewer quadcopters. |
| Coordinator.MainController.HoldAll | main/main.py:84-88 | Every quadcopter's `next_velocity` becomes the zero vector, and nothing else changes. |
| Coordinator.MainController.Stage | main/main.py:90-105 | One quadcopter's strategy call is built from the current swarm. Its command is staged and its error returned, as `Control.StageAt` and `Control.Output` say. |
| Coordinator.MainController.Dispatch | main/main.py:81-109 | The dispatch loop leaves the swarm staged as `Control.Staged` says. It returns the `current_errors` of `Control.Errors`. |
| Coordinator.MainController.MoveAll | main/main.py:115-117 | Every quadcopter is moved by `update_position(dt)`. |
| Coordinator.MainController.Sense | main/main.py:67-78 | With the flag down, it refreshes the states and raises the flag as `Control.Sense` says. It fails on a short simulator answer. |
| Coordinator.MainController.HoldAndMove | main/main.py:84-117 | With the flag up, its effect is `Control.Act`: zero commands, no row, every quadcopter moved. |
| Coordinator.MainController.DispatchAndMove | main/main.py:89-117 | With the flag down, its effect is `Control.Act`: strategy commands, one logged row, every quadcopter moved. |
| Coordinator.MainController.Iterate | main/main.py:65-121 | One loop iteration succeeds exactly when `Control.Step` does, and the new state is `Step`'s result. The invariant is kept, and a failing iteration leaves the flag and the log alone. |
| Coordinator.MainController.Advance | main/main.py:65-121 | One iteration, as a step of the run it belongs to. If it raises, the run's outcome is `Aborted` with the current log. Otherwise the rest of the run from the new state has the same outcome. |
| Coordinator.MainController.Loop | main/main.py:65-121 | The `for loop in range(loop_num)` loop. It ends with the log and the state of `Control.RunFrom`, and reports whether every iteration completed. |
| Coordinator.MainController.Run | main/main.py:58-132 | `run` hands to `save_to_csv` exactly the rows `Control.Run` logs, or nothing when `initialize` raises. When the run finishes, the object reads as the final swarm. |

## Left out

- The simulator is not modelled: `connect`, `start_simulation`, `setup_handles`,
  `get_all_quad_states`, `set_all_quad_positions`, `set_goal_position`, `step_simulation`
  and `stop_simulation` are external I/O. Their results are inputs: a list of handles and
  one list of states per iteration.
- The bodies of `LeaderStrategy` and `FollowerStrategy` are not modelled: control_strategies.py
  is not part of this model, so their gains and formulas are not either. Each strategy is a
  function from the quadcopter and its keyword arguments to a command. It is assumed pure:
  it changes neither the swarm nor itself.
- The formation tables are not modelled: formations.py is not part of this model, so the
  formation is a parameter.
- The `Quadcopter` class is assumed, because swarm_components.py is not part of this model:
  - The constructor is assumed to start both velocities at zero.
  - `update_state` is assumed to overwrite the position and the velocity.
  - `update_position` is a function parameter of position, commanded velocity and `dt`.
- `time.sleep`, `print`, the `KeyboardInterrupt` handler, `debug` and the `__main__`
  parameter table are not modelled. `run`'s `finally` clause is modelled only as the rows
  it hands to `save_to_csv`.
- `DataLogger.save_to_csv` and `Plotter.plot_from_csv` are not modelled: they write files
  and plot with pandas and matplotlib.
- sandbox/diagnosis_drone.py is not modelled: it drives the simulator's remote API directly
  and holds no controller logic.
- Floating point is not modelled. Positions, velocities and errors are exact reals. The
  goal test compares the squared distance with 100 rather than the norm with 10.
- Inside the loop, exceptions other than the short state pull are not modelled. Strategies and the
  integrator are total functions, and the simulator's answers are plain inputs. So the model
  has no way for a strategy call (main/main.py:104), `update_position` (main/main.py:117),
  `get_all_quad_states` (main/main.py:68), `set_all_quad_positions` or `step_simulation`
  (main/main.py:120-121) to raise. In the source each would end the run through `finally`,
  saving the log as it stands, as the modelled `IndexError` does.
- Coordinator.MainController.PullStates: when the simulator's answer is too short, the
  source has updated the quadcopters before the first missing entry when it raises. The
  contract says only that the pull failed, not which quadcopters were updated. The
  outcome of an aborted run keeps only the log.
- Coordinator.MainController.Initialize: requires a controller that has not been
  initialized, since `run` calls `initialize` once on a fresh controller. A second call is
  not modelled.
- Coordinator.MainController.Loop: keeps the controller invariant in every iteration. The
  value-level well-formedness of a whole run is stated one iteration at a time
  (`ControlProperties.StepKeepsShape`), not as one lemma over `RunFrom`.
