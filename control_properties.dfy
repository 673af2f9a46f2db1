/**
 * What the coordinator promises, proved about the functions of module Control:
 * role assignment, the follower list, the per-quadcopter dispatch, the phase
 * flag, the commands after the goal and the growth of the error log.
 */
module ControlProperties {
  import opened Wrappers
  import opened Geometry
  import opened SwarmComponents
  import opened DataHandler
  import opened Control

  /** The shape every swarm the controller builds keeps. */
  predicate WellFormed(s: Swarm) {
    && s.leaderSlot < |s.quads|
    && (forall i :: 0 <= i < |s.quads| ==> s.quads[i].id == i)
    && s.followers == FollowersOf(RolesOf(s.quads))
    && LogShape(s.followers, s.log)
  }

  /** Two views of the same quadcopters: same ids, handles and roles, slot by slot. */
  predicate SameIdentity(a: seq<QuadState>, b: seq<QuadState>) {
    && |a| == |b|
    && forall i :: 0 <= i < |a| ==> a[i].id == b[i].id && a[i].handle == b[i].handle && a[i].role == b[i].role
  }

  /** The roles `initialize` hands out to `n` quadcopters. */
  function RoleTable(n: nat, leaderIdx: int): (r: seq<Role>)
    ensures |r| == n
  {
    seq(n, i requires 0 <= i < n => RoleFor(i, leaderIdx))
  }

  // ---------------------------------------------------------------------------
  // Roles and followers.
  // ---------------------------------------------------------------------------

  /** There is exactly one LEADER when the leader index is in range, and none otherwise. */
  lemma {:induction false} LeaderCountOfTable(n: nat, leaderIdx: int)
    ensures LeaderCount(RoleTable(n, leaderIdx)) == if 0 <= leaderIdx < n then 1 else 0
  {
    if n > 0 {
      var t := RoleTable(n, leaderIdx);
      assert t[..n - 1] == RoleTable(n - 1, leaderIdx);
      LeaderCountOfTable(n - 1, leaderIdx);
    }
  }

  /** Every quadcopter is either a follower or counted as a leader. */
  lemma {:induction false} FollowersAndLeaders(roles: seq<Role>)
    ensures |FollowersOf(roles)| + LeaderCount(roles) == |roles|
  {
    if roles != [] {
      FollowersAndLeaders(roles[..|roles| - 1]);
    }
  }

  /** With the roles of `initialize`, the followers are every slot but the leader index, in order. */
  lemma FollowersOfTable(n: nat, leaderIdx: int)
    ensures forall i :: 0 <= i < n ==> (i in FollowersOf(RoleTable(n, leaderIdx)) <==> i != leaderIdx)
    ensures |FollowersOf(RoleTable(n, leaderIdx))| == if 0 <= leaderIdx < n then n - 1 else n
  {
    FollowersAndLeaders(RoleTable(n, leaderIdx));
    LeaderCountOfTable(n, leaderIdx);
  }

  /** The quadcopters `initialize` creates carry the roles of the role table. */
  lemma InitialQuadsRoles(params: Params, handles: seq<int>)
    requires RangeLen(params.quadNum) <= |params.initialPositions| && RangeLen(params.quadNum) <= |handles|
    ensures RolesOf(InitialQuads(params, handles)) == RoleTable(RangeLen(params.quadNum), params.leaderIdx)
  {
  }

  /**
   * After `initialize`: quadcopter `i` has id `i`, handle `handles[i]`, its
   * initial position and the role LEADER exactly when `i == leader_idx`; the
   * leader reference is `quads[leader_idx]` (Python indexing, so a negative
   * index counts from the end); the flag is down and the log holds only the
   * header for the followers.
   */
  lemma InitialSwarm(params: Params, handles: seq<int>)
    requires Initial(params, handles).Some?
    ensures var s := Initial(params, handles).value;
      var n := RangeLen(params.quadNum);
      && |s.quads| == n
      && (forall i :: 0 <= i < n ==>
            && s.quads[i].id == i
            && s.quads[i].handle == handles[i]
            && s.quads[i].position == params.initialPositions[i]
            && (s.quads[i].role == Leader <==> i == params.leaderIdx))
      && s.leaderSlot == (if params.leaderIdx >= 0 then params.leaderIdx else n + params.leaderIdx)
      && !s.goalReached
      && s.log == [Header(HeaderColumns(s.followers))]
  {
  }

  /**
   * After `initialize` there is one LEADER when the leader index is not
   * negative and none when it counts from the end; the followers are the
   * other quadcopters, in construction order.
   */
  lemma InitialRoles(params: Params, handles: seq<int>)
    requires Initial(params, handles).Some?
    ensures var s := Initial(params, handles).value;
      var n := RangeLen(params.quadNum);
      && LeaderCount(RolesOf(s.quads)) == (if params.leaderIdx >= 0 then 1 else 0)
      && |s.followers| == (if params.leaderIdx >= 0 then n - 1 else n)
      && (forall i :: 0 <= i < n ==> (i in s.followers <==> i != params.leaderIdx))
      && StrictlyIncreasing(s.followers)
  {
    var s := Initial(params, handles).value;
    var n := RangeLen(params.quadNum);
    InitialQuadsRoles(params, handles);
    LeaderCountOfTable(n, params.leaderIdx);
    FollowersOfTable(n, params.leaderIdx);
    FollowersOfIncreasing(RolesOf(s.quads));
  }

  /** `initialize` builds a well-formed swarm. */
  lemma InitialWellFormed(params: Params, handles: seq<int>)
    requires Initial(params, handles).Some?
    ensures WellFormed(Initial(params, handles).value)
  {
  }

  /** The follower slot each strategy call receives: -1 for the leader, else the follower's place in the list. */
  lemma FollowerSlotOfContext(env: Env, leaderSlot: nat, qs: seq<QuadState>, i: nat)
    requires leaderSlot < |qs| && i < |qs|
    ensures var idx := ContextFor(env, leaderSlot, FollowersOf(RolesOf(qs)), qs, i).followerIdx;
      && (idx == -1 <==> qs[i].role == Leader)
      && (idx != -1 ==> FollowersOf(RolesOf(qs))[idx] == i)
  {
  }

  // ---------------------------------------------------------------------------
  // Dispatch to the strategies.
  // ---------------------------------------------------------------------------

  /** Only the staged command changes. */
  predicate SameButCommand(a: QuadState, b: QuadState) {
    a == b.(nextVelocity := a.nextVelocity)
  }

  /**
   * Dispatching the first `k` quadcopters changes nothing but their staged
   * commands, and quadcopter `j < k` holds what its role's strategy returned
   * when it was called on the swarm as staged up to `j`.
   */
  lemma {:induction false} StagedFacts(env: Env, leaderSlot: nat, fs: seq<nat>, qs: seq<QuadState>, k: nat)
    requires EnvReady(env) && leaderSlot < |qs| && k <= |qs|
    ensures forall j :: 0 <= j < |qs| ==> SameButCommand(Staged(env, leaderSlot, fs, qs, k)[j], qs[j])
    ensures forall j :: k <= j < |qs| ==> Staged(env, leaderSlot, fs, qs, k)[j] == qs[j]
    ensures forall j :: 0 <= j < k ==>
      Staged(env, leaderSlot, fs, qs, k)[j].nextVelocity == Output(env, leaderSlot, fs, Staged(env, leaderSlot, fs, qs, j), j).velocity
  {
    if k > 0 {
      StagedFacts(env, leaderSlot, fs, qs, k - 1);
    }
  }

  /**
   * The `follower_idx` each strategy call of an iteration receives, on the swarm
   * as staged before that call: -1 exactly for the leader, and otherwise the
   * caller's place in the follower list.
   */
  lemma StepContextFollowerIdx(env: Env, s: Swarm, i: nat)
    requires EnvReady(env) && WellFormed(s) && i < |s.quads|
    ensures var qs := Staged(env, s.leaderSlot, s.followers, s.quads, i);
      var idx := ContextFor(env, s.leaderSlot, s.followers, qs, i).followerIdx;
      && (idx == -1 <==> s.quads[i].role == Leader)
      && (idx != -1 ==> s.followers[idx] == i)
  {
    var qs := Staged(env, s.leaderSlot, s.followers, s.quads, i);
    StagedFacts(env, s.leaderSlot, s.followers, s.quads, i);
    assert RolesOf(qs) == RolesOf(s.quads);
    FollowerSlotOfContext(env, s.leaderSlot, qs, i);
  }

  /**
   * `current_errors` has exactly the followers among the first `k` as keys,
   * each mapped to the error its strategy call returned.
   */
  lemma {:induction false} ErrorsFacts(env: Env, leaderSlot: nat, fs: seq<nat>, qs: seq<QuadState>, k: nat)
    requires EnvReady(env) && leaderSlot < |qs| && k <= |qs|
    requires forall i :: 0 <= i < |qs| ==> qs[i].id == i
    ensures forall id :: id in Errors(env, leaderSlot, fs, qs, k) <==> 0 <= id < k && qs[id].role == Follower
    ensures forall j :: 0 <= j < k && qs[j].role == Follower ==>
      Errors(env, leaderSlot, fs, qs, k)[j] == Output(env, leaderSlot, fs, Staged(env, leaderSlot, fs, qs, j), j).error
  {
    if k > 0 {
      ErrorsFacts(env, leaderSlot, fs, qs, k - 1);
      StagedFacts(env, leaderSlot, fs, qs, k - 1);
    }
  }

  // ---------------------------------------------------------------------------
  // One iteration.
  // ---------------------------------------------------------------------------

  /** The swarm an iteration hands to steps 3 to 5. */
  function Sensed(env: Env, s: Swarm, sims: seq<SimState>): (r: Swarm)
    requires s.leaderSlot < |s.quads| && (s.goalReached || |sims| >= |s.quads|)
  {
    if s.goalReached then s else Sense(env, s, sims)
  }

  /** No step of an iteration changes who the quadcopters are. */
  lemma StepKeepsIdentity(env: Env, s: Swarm, loop: int, sims: seq<SimState>)
    requires EnvReady(env) && s.leaderSlot < |s.quads|
    requires Step(env, s, loop, sims).Some?
    ensures SameIdentity(Step(env, s, loop, sims).value.quads, s.quads)
  {
    var sensed := Sensed(env, s, sims);
    assert SameIdentity(sensed.quads, s.quads);
    if !sensed.goalReached {
      StagedFacts(env, sensed.leaderSlot, sensed.followers, sensed.quads, |sensed.quads|);
    }
  }

  /** An appended row has one cell per follower, so the log keeps its shape. */
  lemma ActKeepsLogShape(env: Env, s: Swarm, loop: int)
    requires EnvReady(env) && s.leaderSlot < |s.quads| && LogShape(s.followers, s.log)
    ensures LogShape(s.followers, Act(env, s, loop).log)
  {
  }

  /** An iteration keeps ids, handles, roles, the leader, the followers and the log's shape. */
  lemma StepKeepsShape(env: Env, s: Swarm, loop: int, sims: seq<SimState>)
    requires EnvReady(env) && WellFormed(s)
    requires Step(env, s, loop, sims).Some?
    ensures var t := Step(env, s, loop, sims).value;
      WellFormed(t) && t.followers == s.followers && SameIdentity(t.quads, s.quads)
  {
    var t := Step(env, s, loop, sims).value;
    StepKeepsIdentity(env, s, loop, sims);
    assert RolesOf(t.quads) == RolesOf(s.quads);
    ActKeepsLogShape(env, Sensed(env, s, sims), loop);
  }

  /**
   * The flag only goes up, and it goes up in an iteration exactly when it was
   * down and the leader position the simulator reports is within the goal radius.
   */
  lemma StepGoalFlag(env: Env, s: Swarm, loop: int, sims: seq<SimState>)
    requires EnvReady(env) && s.leaderSlot < |s.quads|
    requires Step(env, s, loop, sims).Some?
    ensures s.goalReached ==> Step(env, s, loop, sims).value.goalReached
    ensures !s.goalReached ==>
      (Step(env, s, loop, sims).value.goalReached <==> WithinGoal(sims[s.leaderSlot].position, env.goal))
  {
  }

  /** Once the flag is up, the simulator's answer is never read and the iteration cannot fail. */
  lemma StepIgnoresSimulatorAfterGoal(env: Env, s: Swarm, loop: int, a: seq<SimState>, b: seq<SimState>)
    requires EnvReady(env) && s.leaderSlot < |s.quads| && s.goalReached
    ensures Step(env, s, loop, a).Some?
    ensures Step(env, s, loop, a) == Step(env, s, loop, b)
  {
  }

  /**
   * In an iteration that ends with the flag up, every command is the zero
   * vector, each quadcopter is integrated from its held position with that
   * zero command, and no row is logged.
   */
  lemma StepHoldsAfterGoal(env: Env, s: Swarm, loop: int, sims: seq<SimState>)
    requires EnvReady(env) && s.leaderSlot < |s.quads|
    requires Step(env, s, loop, sims).Some? && Step(env, s, loop, sims).value.goalReached
    ensures var t := Step(env, s, loop, sims).value;
      && t.log == s.log
      && forall i :: 0 <= i < |s.quads| ==>
           var held := if s.goalReached then s.quads[i].position else sims[i].position;
           t.quads[i].nextVelocity == ZERO && t.quads[i].position == env.integrate(held, ZERO, env.dt)
  {
  }

  /**
   * With the slots as ids and the followers listed from the roles,
   * `current_errors` after the whole dispatch has exactly the follower ids as
   * keys, and the logged cell of each follower is the error its strategy
   * call returned.
   */
  lemma DispatchedErrors(env: Env, leaderSlot: nat, qs: seq<QuadState>)
    requires EnvReady(env) && leaderSlot < |qs|
    requires forall i :: 0 <= i < |qs| ==> qs[i].id == i
    ensures var fs := FollowersOf(RolesOf(qs));
      var errors := Errors(env, leaderSlot, fs, qs, |qs|);
      && (forall id :: id in errors <==> id in fs)
      && forall k :: 0 <= k < |fs| ==>
           Cells(fs, errors)[k] == Output(env, leaderSlot, fs, Staged(env, leaderSlot, fs, qs, fs[k]), fs[k]).error
  {
    var fs := FollowersOf(RolesOf(qs));
    ErrorsFacts(env, leaderSlot, fs, qs, |qs|);
    var errors := Errors(env, leaderSlot, fs, qs, |qs|);
    forall id | id in errors ensures id in fs {
      assert 0 <= id < |qs| && RolesOf(qs)[id] == Follower;
    }
  }

  /** With the flag down, each quadcopter moves with what its role's strategy returned. */
  lemma ActCommands(env: Env, s: Swarm, loop: int)
    requires EnvReady(env) && s.leaderSlot < |s.quads| && !s.goalReached
    ensures forall i :: 0 <= i < |s.quads| ==>
      Act(env, s, loop).quads[i].nextVelocity
      == Output(env, s.leaderSlot, s.followers, Staged(env, s.leaderSlot, s.followers, s.quads, i), i).velocity
  {
    StagedFacts(env, s.leaderSlot, s.followers, s.quads, |s.quads|);
  }

  /**
   * With the flag down, `current_errors` has the follower ids as keys and
   * exactly one row is logged: step `loop + 1`, then each follower's error in
   * the order of the follower list.
   */
  lemma ActLogsErrors(env: Env, s: Swarm, loop: int)
    requires EnvReady(env) && s.leaderSlot < |s.quads| && !s.goalReached
    requires forall i :: 0 <= i < |s.quads| ==> s.quads[i].id == i
    requires s.followers == FollowersOf(RolesOf(s.quads))
    ensures var errors := Errors(env, s.leaderSlot, s.followers, s.quads, |s.quads|);
      var log := Act(env, s, loop).log;
      && (forall id :: id in errors <==> id in s.followers)
      && |log| == |s.log| + 1
      && log[..|s.log|] == s.log
      && log[|s.log|].Entry?
      && log[|s.log|].step == loop + 1
      && |log[|s.log|].cells| == |s.followers|
      && forall k :: 0 <= k < |s.followers| ==>
           var f := s.followers[k];
           log[|s.log|].cells[k]
           == Output(env, s.leaderSlot, s.followers, Staged(env, s.leaderSlot, s.followers, s.quads, f), f).error
  {
    DispatchedErrors(env, s.leaderSlot, s.quads);
    var errors := Errors(env, s.leaderSlot, s.followers, s.quads, |s.quads|);
    assert Act(env, s, loop).log == s.log + [Entry(loop + 1, Cells(s.followers, errors))];
  }

  /**
   * In an iteration that leaves the flag down, each quadcopter's command is
   * what its role's strategy returned, `current_errors` has the follower ids as
   * keys, and exactly one row is logged: step `loop + 1`, then each follower's
   * error in the order of the follower list.
   */
  lemma StepDispatches(env: Env, s: Swarm, loop: int, sims: seq<SimState>)
    requires EnvReady(env) && WellFormed(s)
    requires !s.goalReached && |sims| >= |s.quads| && !WithinGoal(sims[s.leaderSlot].position, env.goal)
    ensures var refreshed := Refresh(s.quads, sims);
      var n := |s.quads|;
      var errors := Errors(env, s.leaderSlot, s.followers, refreshed, n);
      var t := Step(env, s, loop, sims);
      && t.Some? && !t.value.goalReached
      && (forall id :: id in errors <==> id in s.followers)
      && (forall i :: 0 <= i < n ==>
            t.value.quads[i].nextVelocity
            == Output(env, s.leaderSlot, s.followers, Staged(env, s.leaderSlot, s.followers, refreshed, i), i).velocity)
      && |t.value.log| == |s.log| + 1
      && t.value.log[..|s.log|] == s.log
      && t.value.log[|s.log|].Entry?
      && t.value.log[|s.log|].step == loop + 1
      && |t.value.log[|s.log|].cells| == |s.followers|
      && forall k :: 0 <= k < |s.followers| ==>
           var f := s.followers[k];
           t.value.log[|s.log|].cells[k]
           == Output(env, s.leaderSlot, s.followers, Staged(env, s.leaderSlot, s.followers, refreshed, f), f).error
  {
    var sensed := Sense(env, s, sims);
    assert RolesOf(sensed.quads) == RolesOf(s.quads);
    assert sensed == s.(quads := Refresh(s.quads, sims));
    assert Step(env, s, loop, sims) == Some(Act(env, sensed, loop));
    ActCommands(env, sensed, loop);
    ActLogsErrors(env, sensed, loop);
  }

  // ---------------------------------------------------------------------------
  // A run of iterations.
  // ---------------------------------------------------------------------------

  /** The rows of the log at the end of a run that got past `initialize`. */
  function FinalLog(o: Outcome): seq<Row>
    requires !o.InitFailed?
  {
    if o.Finished? then o.swarm.log else o.log
  }

  /**
   * One iteration keeps the follower list, and either leaves the log alone
   * with the flag up or appends the row of step `loop + 1` with one cell per
   * follower.
   */
  lemma StepLog(env: Env, s: Swarm, loop: int, sims: seq<SimState>)
    requires EnvReady(env) && s.leaderSlot < |s.quads|
    requires Step(env, s, loop, sims).Some?
    ensures var t := Step(env, s, loop, sims).value;
      && t.followers == s.followers
      && (s.goalReached ==> t.goalReached)
      && (t.goalReached ==> t.log == s.log)
      && (!t.goalReached ==> |t.log| == |s.log| + 1 && t.log[..|s.log|] == s.log
                             && t.log[|s.log|].Entry? && t.log[|s.log|].step == loop + 1
                             && |t.log[|s.log|].cells| == |s.followers|)
  {
  }

  /**
   * Rows numbered from `loop + 1` on, each `width` cells wide, appended to
   * `a`: first at most one by an iteration, then the rest by the iterations
   * after it.
   */
  lemma GrowLog(a: seq<Row>, b: seq<Row>, c: seq<Row>, loop: int, count: nat, width: nat)
    requires count >= 1
    requires b == a ==> c == b
    requires b == a || (|b| == |a| + 1 && b[..|a|] == a && b[|a|].Entry? && b[|a|].step == loop + 1 && |b[|a|].cells| == width)
    requires |b| <= |c| <= |b| + (count - 1) && c[..|b|] == b
    requires forall k :: |b| <= k < |c| ==> c[k].Entry? && c[k].step == loop + 2 + (k - |b|) && |c[k].cells| == width
    ensures |a| <= |c| <= |a| + count && c[..|a|] == a
    ensures forall k :: |a| <= k < |c| ==> c[k].Entry? && c[k].step == loop + 1 + (k - |a|) && |c[k].cells| == width
  {
    assert c[..|a|] == c[..|b|][..|a|];
    if b != a {
      assert c[|a|] == b[|a|];
    }
  }

  /**
   * The number of iterations of a run that end with the flag down, counted
   * up to the end of the run or the iteration that raises.
   */
  function DownCount(env: Env, s: Swarm, loop: nat, count: nat, pulls: nat -> seq<SimState>): nat
    requires EnvReady(env) && s.leaderSlot < |s.quads|
    decreases count
  {
    if count == 0 then 0
    else match Step(env, s, loop, pulls(loop))
      case None => 0
      case Some(next) => (if next.goalReached then 0 else 1) + DownCount(env, next, loop + 1, count - 1, pulls)
  }

  /**
   * Over a run of `count` iterations starting at `loop`, the follower list
   * stays and the log only grows; the rows added carry the step numbers
   * `loop + 1, loop + 2, ...` one after the other, one per iteration that
   * ended with the flag down, each with one cell per follower; when the flag
   * is still down at the end every iteration added its row, and when it was
   * already up at the start no row is added.
   */
  lemma {:induction false} RunLogSteps(env: Env, s: Swarm, loop: nat, count: nat, pulls: nat -> seq<SimState>)
    requires EnvReady(env) && s.leaderSlot < |s.quads|
    ensures var r := RunFrom(env, s, loop, count, pulls);
      var log := FinalLog(r);
      && (r.Finished? ==> r.swarm.followers == s.followers)
      && |s.log| <= |log| <= |s.log| + count
      && |log| == |s.log| + DownCount(env, s, loop, count, pulls)
      && log[..|s.log|] == s.log
      && (forall k :: |s.log| <= k < |log| ==>
            log[k].Entry? && log[k].step == loop + 1 + (k - |s.log|) && |log[k].cells| == |s.followers|)
      && (r.Finished? && !r.swarm.goalReached ==> |log| == |s.log| + count)
      && (s.goalReached ==> r.Finished? && r.swarm.goalReached && log == s.log)
    decreases count
  {
    if count > 0 {
      var t := Step(env, s, loop, pulls(loop));
      if t.Some? {
        var next := t.value;
        StepLog(env, s, loop, pulls(loop));
        RunLogSteps(env, next, loop + 1, count - 1, pulls);
        assert RunFrom(env, s, loop, count, pulls) == RunFrom(env, next, loop + 1, count - 1, pulls);
        var log := FinalLog(RunFrom(env, next, loop + 1, count - 1, pulls));
        GrowLog(s.log, next.log, log, loop, count, |s.followers|);
      } else {
        assert RunFrom(env, s, loop, count, pulls) == Aborted(s.log, loop);
      }
    }
  }

  /**
   * Once the flag is up, the rest of the run cannot fail, keeps the flag up,
   * logs nothing and leaves every quadcopter with a zero command.
   */
  lemma {:induction false} RunAfterGoal(env: Env, s: Swarm, loop: nat, count: nat, pulls: nat -> seq<SimState>)
    requires EnvReady(env) && s.leaderSlot < |s.quads| && s.goalReached
    ensures var r := RunFrom(env, s, loop, count, pulls);
      && r.Finished? && r.swarm.goalReached && r.swarm.log == s.log
      && |r.swarm.quads| == |s.quads|
      && (count > 0 ==> forall i :: 0 <= i < |s.quads| ==> r.swarm.quads[i].nextVelocity == ZERO)
    decreases count
  {
    if count > 0 {
      var next := Step(env, s, loop, pulls(loop)).value;
      RunAfterGoal(env, next, loop + 1, count - 1, pulls);
    }
  }

  /**
   * Once the flag is up, and when integrating a zero command leaves a
   * position where it is, every quadcopter stays where it was for the rest
   * of the run.
   */
  lemma {:induction false} RunHoldsAfterGoal(env: Env, s: Swarm, loop: nat, count: nat, pulls: nat -> seq<SimState>)
    requires EnvReady(env) && s.leaderSlot < |s.quads| && s.goalReached
    requires forall p :: env.integrate(p, ZERO, env.dt) == p
    ensures var r := RunFrom(env, s, loop, count, pulls);
      && r.Finished? && |r.swarm.quads| == |s.quads|
      && forall i :: 0 <= i < |s.quads| ==> r.swarm.quads[i].position == s.quads[i].position
    decreases count
  {
    if count > 0 {
      var next := Step(env, s, loop, pulls(loop)).value;
      assert forall i :: 0 <= i < |s.quads| ==> next.quads[i].position == s.quads[i].position;
      RunHoldsAfterGoal(env, next, loop + 1, count - 1, pulls);
    }
  }

  /**
   * A whole run in which the goal is never reached logs the header and then
   * one row per iteration, numbered 1 to `loop_num`, each with one cell per
   * follower.
   */
  lemma RunWithoutGoal(env: Env, params: Params, handles: seq<int>, pulls: nat -> seq<SimState>)
    requires EnvReady(env)
    requires Run(env, params, handles, pulls).Finished? && !Run(env, params, handles, pulls).swarm.goalReached
    ensures var log := Run(env, params, handles, pulls).swarm.log;
      var followers := Initial(params, handles).value.followers;
      && |log| == RangeLen(params.loopNum) + 1
      && log[0] == Header(HeaderColumns(followers))
      && forall k :: 1 <= k < |log| ==> log[k].Entry? && log[k].step == k && |log[k].cells| == |followers|
  {
    var s := Initial(params, handles).value;
    var r := RunFrom(env, s, 0, RangeLen(params.loopNum), pulls);
    assert Run(env, params, handles, pulls) == r;
    InitialSwarm(params, handles);
    RunLogSteps(env, s, 0, RangeLen(params.loopNum), pulls);
    var log := r.swarm.log;
    assert FinalLog(r) == log && |s.log| == 1;
    assert log[0] == log[..1][0] == s.log[0];
    forall k | 1 <= k < |log| ensures log[k].Entry? && log[k].step == k && |log[k].cells| == |s.followers| {
    }
  }
}
