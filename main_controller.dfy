/**
 * The coordinator object: it owns the quadcopters, the leader reference, the
 * follower list, the phase flag and the error logger, and updates them in
 * place. Each method is proved to do what the functions of module Control
 * say, so the lemmas of module ControlProperties apply to it.
 */
module Coordinator {
  import opened Wrappers
  import opened Geometry
  import opened SwarmComponents
  import opened DataHandler
  import opened Control
  import opened ControlProperties

  /** `[q for q in quads if q.role == Role.FOLLOWER]`; roles never change, so nothing is read. */
  function FollowerQuads(qs: seq<Quadcopter>): (r: seq<Quadcopter>)
    ensures var fs := FollowersOf(RoleSeq(qs));
      |r| == |fs| && forall k :: 0 <= k < |fs| ==> r[k] == qs[fs[k]]
  {
    if qs == [] then []
    else
      var last := |qs| - 1;
      assert RoleSeq(qs)[..last] == RoleSeq(qs[..last]);
      var prefix := FollowerQuads(qs[..last]);
      if qs[last].role == Follower then prefix + [qs[last]] else prefix
  }

  /**
   * The roles of a list of quadcopter objects. A role is a constant of the
   * object, so this reads no heap, and `FollowerQuads` can be a function
   * over objects without a `reads` clause; `RolesOf` of the objects' states
   * would need one.
   */
  function RoleSeq(qs: seq<Quadcopter>): (r: seq<Role>)
    ensures |r| == |qs| && forall i :: 0 <= i < |qs| ==> r[i] == qs[i].role
  {
    seq(|qs|, i requires 0 <= i < |qs| => qs[i].role)
  }

  /** `followers.index(quads[i])` is the place of slot `i` in the follower slots. */
  lemma {:induction false} IndexOfImage(fs: seq<nat>, objs: seq<Quadcopter>, qs: seq<Quadcopter>, i: nat)
    requires |objs| == |fs| && i < |qs|
    requires forall k :: 0 <= k < |fs| ==> fs[k] < |qs| && objs[k] == qs[fs[k]]
    requires forall a :: 0 <= a < |qs| ==> qs[a].id == a
    ensures IndexOf(objs, qs[i]) == IndexOf(fs, i)
  {
    if fs != [] {
      assert objs[0] == qs[i] <==> fs[0] == i;
      IndexOfImage(fs[1..], objs[1..], qs, i);
    }
  }

  class MainController {
    const params: Params
    const formation: seq<Vec3>
    const integrate: Integrator
    const strategies: map<Role, Strategy>
    var quads: seq<Quadcopter>
    var leader: Quadcopter?
    var followers: seq<Quadcopter>
    var goalReached: bool
    var dataLogger: DataLogger?

    /**
     * The strategy objects, the formation table and the position update come
     * from code outside the model and are taken as given.
     */
    constructor (params: Params, leaderStrategy: Strategy, followerStrategy: Strategy,
                 formation: seq<Vec3>, integrate: Integrator)
      ensures this.params == params && this.formation == formation && this.integrate == integrate
      ensures strategies == map[Leader := leaderStrategy, Follower := followerStrategy]
      ensures EnvReady(Settings())
      ensures quads == [] && leader == null && followers == [] && !goalReached && dataLogger == null
    {
      this.params := params;
      this.formation := formation;
      this.integrate := integrate;
      var table: map<Role, Strategy> := map[Leader := leaderStrategy, Follower := followerStrategy];
      strategies := table;
      quads := [];
      leader := null;
      followers := [];
      goalReached := false;
      dataLogger := null;
    }

    /** The fixed inputs of every iteration. */
    function Settings(): Env {
      Env(params.leaderGoal, params.leaderSpeed, formation, strategies, params.dt, integrate)
    }

    /** `self.quads` as values. */
    function States(): (r: seq<QuadState>)
      reads this`quads, quads
      ensures |r| == |quads| && forall i :: 0 <= i < |quads| ==> r[i] == quads[i].State()
    {
      var qs := quads;
      seq(|qs|, i requires 0 <= i < |qs| reads qs => qs[i].State())
    }

    /** The slots of the followers, as `initialize` lists them. */
    function FollowerSlots(): seq<nat>
      reads this`quads
    {
      FollowersOf(RoleTable(|quads|, params.leaderIdx))
    }

    /** Each quadcopter's id is its slot, so no object sits in two slots. */
    ghost predicate Numbered()
      reads this`quads
    {
      forall i :: 0 <= i < |quads| ==> quads[i].id == i
    }

    /**
     * The references `initialize` establishes: distinct quadcopters whose ids
     * are their slots and whose roles follow the leader index, the leader
     * reference at that index and the followers in order.
     */
    ghost predicate RolesAssigned()
      reads this`quads, quads
    {
      && Numbered()
      && (forall i :: 0 <= i < |quads| ==> quads[i].role == RoleFor(i, params.leaderIdx))
    }

    ghost predicate ReferencesSet()
      reads this`quads, this`leader, this`followers, quads
    {
      && RolesAssigned()
      && PyIndex(|quads|, params.leaderIdx).Some?
      && leader == quads[LeaderSlot()]
      && |followers| == |FollowerSlots()|
      && (forall k :: 0 <= k < |followers| ==> followers[k] == quads[FollowerSlots()[k]])
    }

    /** A logger built for the follower ids, header first. */
    ghost predicate LoggerReady()
      reads this`quads, this`dataLogger, dataLogger
    {
      dataLogger != null && dataLogger.followerIds == FollowerSlots() && dataLogger.Valid()
    }

    /** The references, the strategy table and the logger. */
    ghost predicate Valid()
      reads this`quads, this`leader, this`followers, this`dataLogger, quads, dataLogger
    {
      ReferencesSet() && EnvReady(Settings()) && LoggerReady()
    }

    /** The leader's slot, `leader_idx` read as a Python list index. */
    function LeaderSlot(): nat
      reads this`quads
    {
      match PyIndex(|quads|, params.leaderIdx)
      case Some(slot) => slot
      case None => 0
    }

    /** The controller as a value of module Control. */
    ghost function Abstract(): Swarm
      reads this`quads, this`goalReached, this`dataLogger, quads, dataLogger
    {
      Swarm(States(), LeaderSlot(), FollowerSlots(), goalReached, if dataLogger == null then [] else dataLogger.data)
    }

    /** The controller invariant gives the swarm it stands for the shape the value-level lemmas require. */
    lemma AbstractWellFormed()
      requires Valid()
      ensures WellFormed(Abstract())
    {
      assert RolesOf(States()) == RoleTable(|quads|, params.leaderIdx);
    }

    /**
     * The loop of `initialize` that creates one quadcopter per slot; it fails
     * as `initialize` raises IndexError when a slot has no initial position or
     * no simulator handle.
     */
    method CreateQuads(handles: seq<int>) returns (ok: bool)
      requires quads == []
      modifies this`quads
      ensures ok == (RangeLen(params.quadNum) <= |params.initialPositions| && RangeLen(params.quadNum) <= |handles|)
      ensures ok ==> States() == InitialQuads(params, handles) && RolesAssigned()
      ensures forall i :: 0 <= i < |quads| ==> fresh(quads[i])
      ensures goalReached == old(goalReached)
    {
      var i := 0;
      while i < params.quadNum
        invariant 0 <= i <= RangeLen(params.quadNum)
        invariant |quads| == i && i <= |params.initialPositions| && i <= |handles|
        invariant forall j :: 0 <= j < i ==> fresh(quads[j])
        invariant forall j :: 0 <= j < i ==>
          quads[j].State() == QuadState(j, handles[j], params.initialPositions[j], ZERO, ZERO, RoleFor(j, params.leaderIdx))
      {
        if i >= |handles| || i >= |params.initialPositions| {
          return false;
        }
        var role := if i == params.leaderIdx then Leader else Follower;
        var quad := new Quadcopter(i, handles[i], params.initialPositions[i], role);
        quads := quads + [quad];
        i := i + 1;
      }
      ok := true;
    }

    /**
     * `initialize`: builds the quadcopters from the configured initial
     * positions and the simulator handles, sets the leader reference and the
     * follower list and creates the logger for the follower ids. It fails as
     * `initialize` raises IndexError on a missing position, handle or leader slot.
     */
    method Initialize(handles: seq<int>) returns (ok: bool)
      requires quads == [] && leader == null && followers == [] && dataLogger == null && !goalReached
      requires EnvReady(Settings())
      modifies this
      ensures ok == Initial(params, handles).Some?
      ensures ok ==> Valid() && Abstract() == Initial(params, handles).value
      ensures ok ==> (forall i :: 0 <= i < |quads| ==> fresh(quads[i])) && fresh(dataLogger)
      ensures !ok ==> dataLogger == null && !goalReached
    {
      ok := CreateQuads(handles);
      if !ok {
        return;
      }
      var slot := PyIndex(|quads|, params.leaderIdx);
      if slot.None? {
        return false;
      }
      SetReferences(slot.value);
      CreateLogger();
      ghost var qs := InitialQuads(params, handles);
      ghost var fs := FollowerSlots();
      InitialQuadsRoles(params, handles);
      assert States() == qs && LeaderSlot() == slot.value && fs == FollowersOf(RolesOf(qs));
      assert FollowerSlots() == fs && !goalReached;
      assert dataLogger != null && dataLogger.data == [Header(HeaderColumns(fs))];
      assert Abstract() == Swarm(qs, slot.value, fs, false, [Header(HeaderColumns(fs))]);
    }

    /** `self.leader = self.quads[leader_idx]` and the follower list, in slot order. */
    method SetReferences(slot: nat)
      requires RolesAssigned() && PyIndex(|quads|, params.leaderIdx) == Some(slot)
      modifies this`leader, this`followers
      ensures ReferencesSet() && unchanged(quads) && goalReached == old(goalReached)
    {
      leader := quads[slot];
      followers := FollowerQuads(quads);
      assert RoleSeq(quads) == RoleTable(|quads|, params.leaderIdx);
    }

    /** `DataLogger([q.id for q in self.followers])`. */
    method CreateLogger()
      requires ReferencesSet()
      modifies this`dataLogger
      ensures LoggerReady() && fresh(dataLogger) && unchanged(quads) && goalReached == old(goalReached)
      ensures dataLogger.data == [Header(HeaderColumns(FollowerSlots()))]
    {
      var fol := followers;
      var followerIds := seq(|fol|, k requires 0 <= k < |fol| => fol[k].id);
      assert followerIds == FollowerSlots();
      dataLogger := new DataLogger(followerIds);
    }

    /** Step 1 of an iteration: `update_state` of every quadcopter from the simulator's answer. */
    method PullStates(simStates: seq<SimState>) returns (ok: bool)
      requires Numbered()
      modifies quads
      ensures ok == (|simStates| >= |quads|)
      ensures ok ==> States() == Refresh(old(States()), simStates)
      ensures unchanged(this) && (dataLogger != null ==> unchanged(dataLogger))
    {
      ghost var before := States();
      var i := 0;
      while i < |quads|
        invariant 0 <= i <= |quads| && i <= |simStates|
        invariant forall j :: 0 <= j < |quads| ==>
          quads[j].State() == if j < i then before[j].(position := simStates[j].position, velocity := simStates[j].velocity)
                              else before[j]
      {
        if i >= |simStates| {
          return false;
        }
        quads[i].UpdateState(simStates[i].position, simStates[i].velocity);
        i := i + 1;
      }
      ok := true;
    }

    /** Step 3 after the goal: every quadcopter's `next_velocity` becomes the zero vector. */
    method HoldAll()
      requires Numbered()
      modifies quads
      ensures States() == Hold(old(States()))
      ensures unchanged(this) && (dataLogger != null ==> unchanged(dataLogger))
    {
      ghost var before := States();
      var i := 0;
      while i < |quads|
        invariant 0 <= i <= |quads|
        invariant forall j :: 0 <= j < |quads| ==>
          quads[j].State() == if j < i then before[j].(nextVelocity := ZERO) else before[j]
      {
        quads[i].nextVelocity := ZERO;
        i := i + 1;
      }
    }

    /**
     * Quadcopter `i` gets its command: the strategy for its role is called
     * with the quadcopter, the swarm, the goal, the speed limit, the leader
     * and, for a follower, its place in the follower list; the velocity
     * becomes its `next_velocity` and the error is returned.
     */
    method Stage(i: nat, ghost slot: nat, ghost fs: seq<nat>) returns (error: Option<real>)
      requires EnvReady(Settings())
      requires i < |quads| && slot < |quads| && leader == quads[slot]
      requires Numbered()
      requires |followers| == |fs| && forall k :: 0 <= k < |fs| ==> fs[k] < |quads| && followers[k] == quads[fs[k]]
      modifies quads[i]
      ensures States() == StageAt(Settings(), slot, fs, old(States()), i)
      ensures error == Output(Settings(), slot, fs, old(States()), i).error
    {
      var current := States();
      var quad := quads[i];
      var followerIdx := if quad.role == Follower then IndexOf(followers, quad) else -1;
      IndexOfImage(fs, followers, quads, i);
      var context := Context(current, params.leaderGoal, params.leaderSpeed, leader.State(), formation, followerIdx);
      assert context == ContextFor(Settings(), slot, fs, current, i);
      var command := strategies[quad.role](current[i], context);
      quad.nextVelocity := command.velocity;
      error := command.error;
    }

    /**
     * Step 3 before the goal: each quadcopter in turn gets the command of the
     * strategy for its role, and each follower's error is recorded under its id.
     * `slot` is the leader's slot and `fs` the follower slots.
     */
    method Dispatch(ghost slot: nat, ghost fs: seq<nat>) returns (errors: map<int, Option<real>>)
      requires EnvReady(Settings())
      requires slot < |quads| && leader == quads[slot]
      requires Numbered()
      requires |followers| == |fs| && forall k :: 0 <= k < |fs| ==> fs[k] < |quads| && followers[k] == quads[fs[k]]
      modifies quads
      ensures States() == Staged(Settings(), slot, fs, old(States()), |quads|)
      ensures errors == Errors(Settings(), slot, fs, old(States()), |quads|)
      ensures unchanged(this) && (dataLogger != null ==> unchanged(dataLogger))
    {
      ghost var before := States();
      ghost var env := Settings();
      errors := map[];
      var i := 0;
      while i < |quads|
        invariant 0 <= i <= |quads|
        invariant States() == Staged(env, slot, fs, before, i)
        invariant errors == Errors(env, slot, fs, before, i)
      {
        var error := Stage(i, slot, fs);
        if quads[i].role == Follower {
          errors := errors[quads[i].id := error];
        }
        i := i + 1;
      }
    }

    /** Step 5 of an iteration: `update_position(dt)` of every quadcopter. */
    method MoveAll()
      requires Numbered()
      modifies quads
      ensures States() == IntegrateAll(Settings(), old(States()))
      ensures unchanged(this) && (dataLogger != null ==> unchanged(dataLogger))
    {
      ghost var before := States();
      var i := 0;
      while i < |quads|
        invariant 0 <= i <= |quads|
        invariant forall j :: 0 <= j < |quads| ==>
          quads[j].State() == if j < i then before[j].(position := integrate(before[j].position, before[j].nextVelocity, params.dt))
                              else before[j]
      {
        quads[i].UpdatePosition(params.dt, integrate);
        i := i + 1;
      }
    }

    /**
     * Steps 1 and 2 of an iteration while the flag is down: every quadcopter
     * takes the simulator's state, then the flag goes up when the leader is
     * within the goal radius. It fails as the loop body raises IndexError on a
     * short `sim_states`.
     */
    method Sense(simStates: seq<SimState>) returns (ok: bool)
      requires Valid() && !goalReached
      modifies this`goalReached, quads
      ensures Valid()
      ensures ok == (|simStates| >= |quads|)
      ensures ok ==> Abstract() == Control.Sense(Settings(), old(Abstract()), simStates)
      ensures !ok ==> !goalReached
    {
      ok := PullStates(simStates);
      if !ok {
        return;
      }
      if WithinGoal(leader.position, params.leaderGoal) {
        goalReached := true;
      }
    }

    /**
     * Steps 3 to 5 of an iteration once the flag is up: every command is the
     * zero vector, nothing is logged, and every quadcopter moves.
     */
    method HoldAndMove(loop: int)
      requires Valid() && goalReached
      modifies quads
      ensures Valid()
      ensures Abstract() == Control.Act(Settings(), old(Abstract()), loop)
    {
      HoldAll();
      MoveAll();
    }

    /**
     * Steps 3 to 5 of an iteration while the flag is down: every quadcopter
     * gets its strategy's command, the row of step `loop + 1` goes to the
     * log, and every quadcopter moves.
     */
    method DispatchAndMove(loop: int)
      requires Valid() && !goalReached
      modifies quads, dataLogger
      ensures Valid()
      ensures Abstract() == Control.Act(Settings(), old(Abstract()), loop)
    {
      var errors := Dispatch(LeaderSlot(), FollowerSlots());
      dataLogger.AddEntry(loop + 1, errors);
      MoveAll();
    }

    /**
     * One iteration of the main loop, number `loop` counting from 0, with
     * `simStates` the simulator's answer to the state pull. It fails as the
     * loop body raises IndexError on a short `sim_states`.
     */
    method Iterate(loop: int, simStates: seq<SimState>) returns (ok: bool)
      requires Valid()
      modifies this`goalReached, quads, dataLogger
      ensures Valid()
      ensures ok == Control.Step(Settings(), old(Abstract()), loop, simStates).Some?
      ensures ok ==> Abstract() == Control.Step(Settings(), old(Abstract()), loop, simStates).value
      ensures !ok ==> goalReached == old(goalReached) && dataLogger.data == old(dataLogger.data)
    {
      ok := true;
      if !goalReached {
        ok := Sense(simStates);
        if !ok {
          return;
        }
      }
      if goalReached {
        HoldAndMove(loop);
      } else {
        DispatchAndMove(loop);
      }
    }

    /**
     * `run`: initialize, then `loop_num` iterations with the simulator's
     * answers `pulls(0)`, `pulls(1)`, ...; returns the rows handed to
     * `save_to_csv` at the end, or None when `initialize` raised and the run
     * never reached its shutdown path.
     */
    method Run(handles: seq<int>, pulls: nat -> seq<SimState>) returns (saved: Option<seq<Row>>)
      requires quads == [] && leader == null && followers == [] && dataLogger == null && !goalReached
      requires EnvReady(Settings())
      modifies this
      ensures saved == SavedRows(Control.Run(Settings(), params, handles, pulls))
      ensures Control.Run(Settings(), params, handles, pulls).Finished? ==>
        Valid() && Abstract() == Control.Run(Settings(), params, handles, pulls).swarm
    {
      var ok := Initialize(handles);
      if !ok {
        return None;
      }
      var completed := Loop(RangeLen(params.loopNum), pulls);
      saved := Some(dataLogger.data);
    }

    /** One iteration of `run`, as a step of the run it belongs to, with `left` iterations still to go. */
    method Advance(loop: nat, left: nat, pulls: nat -> seq<SimState>, ghost outcome: Outcome)
      returns (ok: bool, next: nat, rest: nat)
      requires Valid() && left > 0
      requires RunFrom(Settings(), Abstract(), loop, left, pulls) == outcome
      modifies this`goalReached, quads, dataLogger
      ensures Valid()
      ensures next == loop + 1 && rest == left - 1
      ensures ok ==> RunFrom(Settings(), Abstract(), next, rest, pulls) == outcome
      ensures !ok ==> outcome == Aborted(dataLogger.data, loop)
    {
      ghost var env := Settings();
      ghost var before := Abstract();
      ghost var step := Step(env, before, loop, pulls(loop));
      next, rest := loop + 1, left - 1;
      ok := Iterate(loop, pulls(loop));
      if !ok {
        RunFromAbort(env, before, loop, left, pulls);
        assert dataLogger.data == before.log;
      } else {
        ghost var after := Abstract();
        assert after == step.value;
        RunFromStep(env, before, loop, left, pulls, after, next, rest);
      }
    }

    /**
     * The iterations of `run`: `count` calls of the loop body, stopping at the
     * first that raises.
     */
    method Loop(count: nat, pulls: nat -> seq<SimState>) returns (completed: bool)
      requires Valid()
      modifies this`goalReached, quads, dataLogger
      ensures Valid()
      ensures var outcome := RunFrom(Settings(), old(Abstract()), 0, count, pulls);
        && SavedRows(outcome) == Some(dataLogger.data)
        && completed == outcome.Finished?
        && (completed ==> outcome.swarm == Abstract())
    {
      ghost var outcome := RunFrom(Settings(), Abstract(), 0, count, pulls);
      var loop: nat, left: nat := 0, count;
      while left > 0
        invariant Valid()
        invariant RunFrom(Settings(), Abstract(), loop, left, pulls) == outcome
      {
        var ok;
        ok, loop, left := Advance(loop, left, pulls, outcome);
        if !ok {
          return false;
        }
      }
      completed := true;
    }
  }
}
