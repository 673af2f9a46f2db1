/**
 * The swarm's entities: roles, the state of one quadcopter, the context a
 * control strategy receives and the command it returns. The strategies and
 * the position integration live in code outside this model, so they appear
 * here only as function types.
 */
module SwarmComponents {
  import opened Wrappers
  import opened Geometry

  datatype Role = Leader | Follower

  /** A snapshot of one quadcopter. `handle` is the simulator's opaque token. */
  datatype QuadState = QuadState(
    id: int,
    handle: int,
    position: Vec3,
    velocity: Vec3,
    nextVelocity: Vec3,
    role: Role)

  /** One entry of the simulator's answer to a state pull. */
  datatype SimState = SimState(position: Vec3, velocity: Vec3)

  /**
   * The keyword arguments handed to `calculate_velocity`: the whole swarm as it
   * is at the moment of the call, the goal, the leader's speed, the leader, the
   * formation table and the follower's slot (-1 for the leader).
   */
  datatype Context = Context(
    allQuads: seq<QuadState>,
    goal: Vec3,
    maxSpeed: real,
    leader: QuadState,
    formation: seq<Vec3>,
    followerIdx: int)

  /** What a strategy returns: a velocity and a tracking error, `None` for the leader. */
  datatype Command = Command(velocity: Vec3, error: Option<real>)

  /** `calculate_velocity` of a strategy object. */
  type Strategy = (QuadState, Context) -> Command

  /** `update_position(dt)`: new position from position, commanded velocity and dt. */
  type Integrator = (Vec3, Vec3, real) -> Vec3

  class Quadcopter {
    const id: int
    const handle: int
    const role: Role
    var position: Vec3
    var velocity: Vec3
    var nextVelocity: Vec3

    function State(): QuadState
      reads this
    {
      QuadState(id, handle, position, velocity, nextVelocity, role)
    }

    constructor (id: int, handle: int, position: Vec3, role: Role)
      ensures State() == QuadState(id, handle, position, ZERO, ZERO, role)
    {
      this.id := id;
      this.handle := handle;
      this.role := role;
      this.position := position;
      this.velocity := ZERO;
      this.nextVelocity := ZERO;
    }

    /** Overwrites the observed position and velocity with the simulator's. */
    method UpdateState(position: Vec3, velocity: Vec3)
      modifies this
      ensures State() == old(State()).(position := position, velocity := velocity)
    {
      this.position := position;
      this.velocity := velocity;
    }

    /** Moves the quadcopter by its staged command over one step. */
    method UpdatePosition(dt: real, integrate: Integrator)
      modifies this
      ensures State() == old(State()).(position := integrate(old(position), nextVelocity, dt))
    {
      position := integrate(position, nextVelocity, dt);
    }
  }
}
