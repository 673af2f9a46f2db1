/**
 * The coordinator's behaviour as functions on values: what `initialize`
 * builds, what one iteration of the main loop does to the swarm, the phase
 * flag and the error log, and what a run of `loop_num` iterations produces.
 * The class in main_controller.dfy is proved to follow these functions.
 */
module Control {
  import opened Wrappers
  import opened Geometry
  import opened SwarmComponents
  import opened DataHandler

  /** The run configuration the controller reads. */
  datatype Params = Params(
    quadNum: int,
    loopNum: int,
    leaderIdx: int,
    dt: real,
    leaderSpeed: real,
    leaderGoal: Vec3,
    initialPositions: seq<Vec3>)

  /** What every iteration uses and never changes. */
  datatype Env = Env(
    goal: Vec3,
    maxSpeed: real,
    formation: seq<Vec3>,
    strategies: map<Role, Strategy>,
    dt: real,
    integrate: Integrator)

  /** The strategy table has an entry for each role. */
  predicate EnvReady(env: Env) {
    Leader in env.strategies && Follower in env.strategies
  }

  /**
   * The controller's state as a value: the quadcopters in construction order,
   * the slot of the leader reference, the slots of the followers in order,
   * the phase flag and the rows of the error log.
   */
  datatype Swarm = Swarm(
    quads: seq<QuadState>,
    leaderSlot: nat,
    followers: seq<nat>,
    goalReached: bool,
    log: seq<Row>)

  /** How a run ends: `initialize` raised, the loop ran out, or a step raised. */
  datatype Outcome =
    | InitFailed
    | Finished(swarm: Swarm)
    | Aborted(log: seq<Row>, atLoop: nat)

  // ---------------------------------------------------------------------------
  // Roles and the follower list.
  // ---------------------------------------------------------------------------

  /** `Role.LEADER if i == leader_idx else Role.FOLLOWER`. */
  function RoleFor(i: int, leaderIdx: int): Role {
    if i == leaderIdx then Leader else Follower
  }

  function RolesOf(qs: seq<QuadState>): (r: seq<Role>)
    ensures |r| == |qs| && forall i :: 0 <= i < |qs| ==> r[i] == qs[i].role
  {
    seq(|qs|, i requires 0 <= i < |qs| => qs[i].role)
  }

  predicate StrictlyIncreasing(s: seq<nat>) {
    forall i, j :: 0 <= i < j < |s| ==> s[i] < s[j]
  }

  /**
   * `[q for q in quads if q.role == Role.FOLLOWER]`, as the slots of those
   * quadcopters: exactly the follower slots, in construction order.
   */
  function FollowersOf(roles: seq<Role>): (r: seq<nat>)
    ensures forall k :: 0 <= k < |r| ==> r[k] < |roles| && roles[r[k]] == Follower
    ensures forall i :: 0 <= i < |roles| && roles[i] == Follower ==> i in r
  {
    if roles == [] then []
    else
      var last := |roles| - 1;
      var prefix := FollowersOf(roles[..last]);
      if roles[last] == Follower then prefix + [last] else prefix
  }

  /** The follower slots come in construction order. */
  lemma {:induction false} FollowersOfIncreasing(roles: seq<Role>)
    ensures StrictlyIncreasing(FollowersOf(roles))
  {
    if roles != [] {
      FollowersOfIncreasing(roles[..|roles| - 1]);
    }
  }

  /** The number of quadcopters that carry the role LEADER. */
  function LeaderCount(roles: seq<Role>): nat {
    if roles == [] then 0
    else LeaderCount(roles[..|roles| - 1]) + (if roles[|roles| - 1] == Leader then 1 else 0)
  }

  /** Python's `xs[idx]` on a list of length `n`: the slot it reads, or None for an IndexError. */
  function PyIndex(n: nat, idx: int): (r: Option<nat>)
    ensures r.Some? <==> -(n as int) <= idx < n
    ensures r.Some? ==> r.value < n && (r.value == idx || r.value == n + idx)
  {
    if 0 <= idx < n then Some(idx) else if -(n as int) <= idx < 0 then Some(n + idx) else None
  }

  /** `list.index(x)` where it cannot fail, -1 where it would raise. */
  function IndexOf<T(==)>(s: seq<T>, x: T): (r: int)
    ensures r == -1 <==> x !in s
    ensures r != -1 ==> 0 <= r < |s| && s[r] == x && x !in s[..r]
  {
    if s == [] then -1
    else if s[0] == x then 0
    else
      var k := IndexOf(s[1..], x);
      if k == -1 then -1
      else
        assert s[..k + 1] == [s[0]] + s[1..][..k];
        k + 1
  }

  /** The positive size of a range: `range(n)` is empty for n <= 0. */
  function RangeLen(n: int): (r: nat)
    ensures r == 0 <==> n <= 0
  {
    if n < 0 then 0 else n
  }

  // ---------------------------------------------------------------------------
  // initialize
  // ---------------------------------------------------------------------------

  /**
   * The quadcopters `initialize` creates: quadcopter `i` has id `i`, the
   * simulator handle `handles[i]`, the position `initial_positions[i]`, no velocity and
   * the role its index gives it.
   */
  function InitialQuads(params: Params, handles: seq<int>): (r: seq<QuadState>)
    requires RangeLen(params.quadNum) <= |params.initialPositions| && RangeLen(params.quadNum) <= |handles|
    ensures |r| == RangeLen(params.quadNum)
  {
    var n := RangeLen(params.quadNum);
    seq(n, i requires 0 <= i < n =>
      QuadState(i, handles[i], params.initialPositions[i], ZERO, ZERO, RoleFor(i, params.leaderIdx)))
  }

  /**
   * The swarm `initialize` builds from the configuration and the simulator
   * handles, or None when it raises IndexError: a quadcopter without an
   * initial position or handle, or a leader index outside the list.
   */
  function Initial(params: Params, handles: seq<int>): (r: Option<Swarm>)
    ensures var n := RangeLen(params.quadNum);
      r.Some? <==> n <= |params.initialPositions| && n <= |handles| && -(n as int) <= params.leaderIdx < n
    ensures r.Some? ==> |r.value.quads| == RangeLen(params.quadNum) && r.value.leaderSlot < |r.value.quads|
  {
    var n := RangeLen(params.quadNum);
    if n > |params.initialPositions| || n > |handles| then None
    else match PyIndex(n, params.leaderIdx)
      case None => None
      case Some(slot) =>
        var qs := InitialQuads(params, handles);
        var fs := FollowersOf(RolesOf(qs));
        Some(Swarm(qs, slot, fs, false, [Header(HeaderColumns(fs))]))
  }

  // ---------------------------------------------------------------------------
  // One iteration of the main loop.
  // ---------------------------------------------------------------------------

  /** `update_state` of every quadcopter from the simulator's answer. */
  function Refresh(qs: seq<QuadState>, sims: seq<SimState>): (r: seq<QuadState>)
    requires |sims| >= |qs|
    ensures |r| == |qs|
  {
    seq(|qs|, i requires 0 <= i < |qs| =>
      qs[i].(position := sims[i].position, velocity := sims[i].velocity))
  }

  /** The keyword arguments for quadcopter `i`, built from the swarm as it is at that moment. */
  function ContextFor(env: Env, leaderSlot: nat, fs: seq<nat>, qs: seq<QuadState>, i: nat): Context
    requires leaderSlot < |qs| && i < |qs|
  {
    Context(qs, env.goal, env.maxSpeed, qs[leaderSlot], env.formation,
            if qs[i].role == Follower then IndexOf(fs, i) else -1)
  }

  /** `strategies[quad.role].calculate_velocity(quad, **kwargs)` for quadcopter `i`. */
  function Output(env: Env, leaderSlot: nat, fs: seq<nat>, qs: seq<QuadState>, i: nat): Command
    requires EnvReady(env) && leaderSlot < |qs| && i < |qs|
  {
    assert qs[i].role == Leader || qs[i].role == Follower;
    env.strategies[qs[i].role](qs[i], ContextFor(env, leaderSlot, fs, qs, i))
  }

  /** Quadcopter `i` gets the command of its strategy as its next velocity. */
  function StageAt(env: Env, leaderSlot: nat, fs: seq<nat>, qs: seq<QuadState>, i: nat): (r: seq<QuadState>)
    requires EnvReady(env) && leaderSlot < |qs| && i < |qs|
    ensures |r| == |qs|
  {
    qs[i := qs[i].(nextVelocity := Output(env, leaderSlot, fs, qs, i).velocity)]
  }

  /**
   * The swarm after the first `k` quadcopters, in order, have had their
   * command staged; each strategy call sees the commands staged before it.
   */
  function Staged(env: Env, leaderSlot: nat, fs: seq<nat>, qs: seq<QuadState>, k: nat): (r: seq<QuadState>)
    requires EnvReady(env) && leaderSlot < |qs| && k <= |qs|
    ensures |r| == |qs|
  {
    if k == 0 then qs
    else StageAt(env, leaderSlot, fs, Staged(env, leaderSlot, fs, qs, k - 1), k - 1)
  }

  /** `current_errors` after the first `k` quadcopters: one entry per follower, keyed by id. */
  function Errors(env: Env, leaderSlot: nat, fs: seq<nat>, qs: seq<QuadState>, k: nat): map<int, Option<real>>
    requires EnvReady(env) && leaderSlot < |qs| && k <= |qs|
  {
    if k == 0 then map[]
    else
      var prev := Staged(env, leaderSlot, fs, qs, k - 1);
      var errors := Errors(env, leaderSlot, fs, qs, k - 1);
      if prev[k - 1].role == Follower
      then errors[prev[k - 1].id := Output(env, leaderSlot, fs, prev, k - 1).error]
      else errors
  }

  /** After the goal: every commanded velocity is zero. */
  function Hold(qs: seq<QuadState>): (r: seq<QuadState>)
    ensures |r| == |qs|
  {
    seq(|qs|, i requires 0 <= i < |qs| => qs[i].(nextVelocity := ZERO))
  }

  /** `update_position(dt)` of every quadcopter. */
  function IntegrateAll(env: Env, qs: seq<QuadState>): (r: seq<QuadState>)
    ensures |r| == |qs|
  {
    seq(|qs|, i requires 0 <= i < |qs| =>
      qs[i].(position := env.integrate(qs[i].position, qs[i].nextVelocity, env.dt)))
  }

  /**
   * Steps 1 and 2 while the flag is down: every quadcopter takes the state
   * the simulator reports, and the flag goes up when the leader is within
   * the goal radius.
   */
  function Sense(env: Env, s: Swarm, sims: seq<SimState>): (r: Swarm)
    requires s.leaderSlot < |s.quads| && |sims| >= |s.quads|
    ensures |r.quads| == |s.quads|
  {
    var observed := Refresh(s.quads, sims);
    s.(quads := observed, goalReached := s.goalReached || WithinGoal(observed[s.leaderSlot].position, env.goal))
  }

  /**
   * Steps 3 to 5: with the flag up every command is zero and nothing is
   * logged; with it down every quadcopter gets its strategy's command and
   * the row of step `loop + 1` is logged; then every quadcopter moves.
   */
  function Act(env: Env, s: Swarm, loop: int): (r: Swarm)
    requires EnvReady(env) && s.leaderSlot < |s.quads|
    ensures |r.quads| == |s.quads|
  {
    if s.goalReached then s.(quads := IntegrateAll(env, Hold(s.quads)))
    else
      var n := |s.quads|;
      var errors := Errors(env, s.leaderSlot, s.followers, s.quads, n);
      s.(quads := IntegrateAll(env, Staged(env, s.leaderSlot, s.followers, s.quads, n)),
         log := s.log + [Entry(loop + 1, Cells(s.followers, errors))])
  }

  /**
   * Iteration `loop` (0-based) of the main loop. The state pull and the goal
   * test happen only while the flag is down; None is the IndexError of a
   * simulator answer that covers fewer quadcopters than the swarm has.
   */
  function Step(env: Env, s: Swarm, loop: int, sims: seq<SimState>): (r: Option<Swarm>)
    requires EnvReady(env) && s.leaderSlot < |s.quads|
    ensures r.Some? ==> r.value.leaderSlot == s.leaderSlot && |r.value.quads| == |s.quads|
  {
    if s.goalReached then Some(Act(env, s, loop))
    else if |sims| < |s.quads| then None
    else Some(Act(env, Sense(env, s, sims), loop))
  }

  /** Iterations `loop`, `loop + 1`, ... for `count` iterations, stopping at the first that raises. */
  function RunFrom(env: Env, s: Swarm, loop: nat, count: nat, pulls: nat -> seq<SimState>): (r: Outcome)
    requires EnvReady(env) && s.leaderSlot < |s.quads|
    ensures !r.InitFailed?
    decreases count
  {
    if count == 0 then Finished(s)
    else match Step(env, s, loop, pulls(loop))
      case None => Aborted(s.log, loop)
      case Some(next) => RunFrom(env, next, loop + 1, count - 1, pulls)
  }

  /** A run whose next iteration raises ends there, with the log as it stands. */
  lemma RunFromAbort(env: Env, s: Swarm, loop: nat, count: nat, pulls: nat -> seq<SimState>)
    requires EnvReady(env) && s.leaderSlot < |s.quads| && count > 0
    requires Step(env, s, loop, pulls(loop)).None?
    ensures RunFrom(env, s, loop, count, pulls) == Aborted(s.log, loop)
  {
  }

  /** A run whose next iteration completes goes on from that iteration's result. */
  lemma RunFromStep(env: Env, s: Swarm, loop: nat, count: nat, pulls: nat -> seq<SimState>,
                    next: Swarm, nextLoop: nat, rest: nat)
    requires EnvReady(env) && s.leaderSlot < |s.quads| && count > 0
    requires Step(env, s, loop, pulls(loop)) == Some(next)
    requires nextLoop == loop + 1 && rest == count - 1
    ensures next.leaderSlot < |next.quads|
    ensures RunFrom(env, s, loop, count, pulls) == RunFrom(env, next, nextLoop, rest, pulls)
  {
  }

  /** `run`: initialize, then `loop_num` iterations. */
  function Run(env: Env, params: Params, handles: seq<int>, pulls: nat -> seq<SimState>): (r: Outcome)
    requires EnvReady(env)
    ensures r.InitFailed? <==> Initial(params, handles).None?
  {
    match Initial(params, handles)
    case None => InitFailed
    case Some(s) => RunFrom(env, s, 0, RangeLen(params.loopNum), pulls)
  }

  /** The rows `save_to_csv` receives when the run ends, or None when it is never reached. */
  function SavedRows(o: Outcome): Option<seq<Row>> {
    match o
    case InitFailed => None
    case Finished(s) => Some(s.log)
    case Aborted(log, _) => Some(log)
  }
}
