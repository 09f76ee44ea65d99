/** The snake of snake.js: a chain of segment positions (head first), a heading,
    a count of segments still owed from eaten food, a step length and the time
    of the last accepted step.

    The specification is written on values (SnakeState and the functions
    Initial, Moved, Redirected, Grown); the class Snake holds the same state in
    mutable fields and each of its methods is proved to leave exactly the state
    its specification function computes. */
module SnakeModel {
  import opened Geometry

  /** Minimum time between two accepted steps, in milliseconds. */
  const MoveInterval: int := 200
  /** Distance advanced per step, in world units. */
  const Speed: real := 0.2
  /** Number of segments of a new snake. */
  const InitialLength: nat := 4

  datatype SnakeState = SnakeState(
    body: seq<Vec3>,
    direction: Vec3,
    growPending: nat,
    speed: real,
    lastMoveTime: int)

  /** What every snake of the game satisfies from construction on: it never
      has fewer segments than it started with, so its head always exists, and
      it always heads along the ground plane with unit speed direction. */
  predicate Inv(s: SnakeState) {
    |s.body| >= InitialLength && IsHorizontalUnit(s.direction)
  }

  /** The state `new Snake(p)` builds: four segments laid out along -X from p. */
  function Initial(p: Vec3): (s: SnakeState)
    ensures |s.body| == InitialLength
    ensures forall i :: 0 <= i < |s.body| ==> s.body[i] == Vec3(p.x - i as real, p.y, p.z)
    ensures s.direction == Vec3(1.0, 0.0, 0.0)
    ensures s.growPending == 0 && s.speed == Speed && s.lastMoveTime == 0
    ensures Inv(s)
  {
    SnakeState(
      [p, Vec3(p.x - 1.0, p.y, p.z), Vec3(p.x - 2.0, p.y, p.z), Vec3(p.x - 3.0, p.y, p.z)],
      Vec3(1.0, 0.0, 0.0), 0, Speed, 0)
  }

  /** Whether a call to move at time `now` passes the rate gate. */
  predicate TickDue(s: SnakeState, now: int) {
    now - s.lastMoveTime >= MoveInterval
  }

  /** The position one step ahead of the head, on all three axes. */
  function NextHead(s: SnakeState): Vec3
    requires s.body != []
  {
    Add(s.body[0], Scale(s.direction, s.speed))
  }

  /** The state after `move()` at time `now`. */
  function Moved(s: SnakeState, now: int): (r: SnakeState)
    requires s.body != []
    ensures !TickDue(s, now) ==> r == s
    ensures TickDue(s, now) ==>
      && r.lastMoveTime == now
      && r.direction == s.direction && r.speed == s.speed
      && |r.body| >= 1
      && r.body[0] == Vec3(s.body[0].x + s.direction.x * s.speed,
                           s.body[0].y + s.direction.y * s.speed,
                           s.body[0].z + s.direction.z * s.speed)
      && |r.body| + r.growPending == |s.body| + s.growPending
      && (s.growPending > 0 ==> |r.body| == |s.body| + 1 && r.growPending == s.growPending - 1)
      && (s.growPending == 0 ==> |r.body| == |s.body| && r.growPending == 0)
      && (forall i :: 0 <= i < |r.body| - 1 ==> r.body[i + 1] == s.body[i])
    ensures Inv(s) ==> Inv(r)
  {
    if !TickDue(s, now) then s
    else
      var body := [NextHead(s)] + s.body;
      if s.growPending > 0 then
        s.(body := body, growPending := s.growPending - 1, lastMoveTime := now)
      else
        s.(body := body[..|body| - 1], lastMoveTime := now)
  }

  /** The state after `setDirection(v)`, where `norm` is the square root of
      v.x^2 + v.z^2 that the source computes; its test `norm > 0` is written
      as the equivalent v.x^2 + v.z^2 > 0. */
  function Redirected(s: SnakeState, v: Vec3, norm: real): (r: SnakeState)
    requires norm >= 0.0 && norm * norm == PlanarNormSq(v)
    ensures PlanarNormSq(v) == 0.0 ==> r == s
    ensures PlanarNormSq(v) > 0.0 ==>
      && r == s.(direction := r.direction)
      && IsHorizontalUnit(r.direction)
      && r.direction.x * norm == v.x && r.direction.z * norm == v.z
    ensures Inv(s) ==> Inv(r)
  {
    if PlanarNormSq(v) > 0.0 then
      RootPositive(norm, PlanarNormSq(v));
      NormalizedIsUnit(v.x, v.z, norm);
      s.(direction := Vec3(v.x / norm, 0.0, v.z / norm))
    else
      s
  }

  /** The state after `grow()`: one more segment owed, nothing else changed. */
  function Grown(s: SnakeState): (r: SnakeState)
    ensures r.body == s.body && r.direction == s.direction
    ensures r.speed == s.speed && r.lastMoveTime == s.lastMoveTime
    ensures |r.body| + r.growPending == |s.body| + s.growPending + 1
    ensures Inv(s) ==> Inv(r)
  {
    s.(growPending := s.growPending + 1)
  }

  /** Some segment other than the head sits exactly on the head. */
  predicate SelfCollides(body: seq<Vec3>)
    requires body != []
  {
    exists k :: 1 <= k < |body| && body[k] == body[0]
  }

  /** A call into the snake made by the game: a movement attempt, a grow
      request, or a heading change (with the square root it computes). */
  datatype Command = Tick(now: int) | Feed | Steer(v: Vec3, norm: real)

  predicate WellFormed(c: Command) {
    c.Steer? ==> c.norm >= 0.0 && c.norm * c.norm == PlanarNormSq(c.v)
  }

  predicate AllWellFormed(cs: seq<Command>) {
    forall i :: 0 <= i < |cs| ==> WellFormed(cs[i])
  }

  function Apply(s: SnakeState, c: Command): (r: SnakeState)
    requires s.body != [] && WellFormed(c)
  {
    match c
    case Tick(now) => Moved(s, now)
    case Feed => Grown(s)
    case Steer(v, norm) => Redirected(s, v, norm)
  }

  /** The state after the commands `cs`, in order; every state along the way
      keeps the invariant. */
  function Replay(s: SnakeState, cs: seq<Command>): (r: SnakeState)
    requires Inv(s) && AllWellFormed(cs)
    ensures Inv(r)
    decreases |cs|
  {
    if cs == [] then s
    else Replay(Apply(s, cs[0]), cs[1..])
  }

  function FeedCount(cs: seq<Command>): nat
    decreases |cs|
  {
    if cs == [] then 0 else (if cs[0].Feed? then 1 else 0) + FeedCount(cs[1..])
  }

  /** Growth is never lost or counted twice: segments plus owed segments grow
      by exactly the number of grow requests, whatever the ticks and heading
      changes in between. */
  lemma {:induction false} ReplayCountsGrowth(s: SnakeState, cs: seq<Command>)
    requires Inv(s) && AllWellFormed(cs)
    ensures |Replay(s, cs).body| + Replay(s, cs).growPending
            == |s.body| + s.growPending + FeedCount(cs)
    decreases |cs|
  {
    if cs != [] {
      ReplayCountsGrowth(Apply(s, cs[0]), cs[1..]);
    }
  }

  /** Two calls to move less than 200 ms apart advance the snake at most once:
      if the first call stepped, the second one changes nothing. */
  lemma SecondTickTooSoon(s: SnakeState, t1: int, t2: int)
    requires s.body != [] && TickDue(s, t1) && t2 - t1 < MoveInterval
    ensures Moved(Moved(s, t1), t2) == Moved(s, t1)
  {
  }

  /** From a fresh snake, the heights of all segments stay those they started
      with: moves only ever add a head at the old head's height. */
  lemma MovedKeepsHeight(s: SnakeState, now: int, h: real)
    requires Inv(s)
    requires forall i :: 0 <= i < |s.body| ==> s.body[i].y == h
    ensures forall i :: 0 <= i < |Moved(s, now).body| ==> Moved(s, now).body[i].y == h
  {
  }

  class Snake {
    var body: seq<Vec3>
    var direction: Vec3
    var growPending: nat
    var speed: real
    var lastMoveTime: int

    ghost function State(): SnakeState
      reads this
    {
      SnakeState(body, direction, growPending, speed, lastMoveTime)
    }

    ghost predicate Valid()
      reads this
    {
      Inv(State())
    }

    constructor (initialPosition: Vec3)
      ensures Valid() && State() == Initial(initialPosition)
    {
      body := [initialPosition,
               Vec3(initialPosition.x - 1.0, initialPosition.y, initialPosition.z),
               Vec3(initialPosition.x - 2.0, initialPosition.y, initialPosition.z),
               Vec3(initialPosition.x - 3.0, initialPosition.y, initialPosition.z)];
      direction := Vec3(1.0, 0.0, 0.0);
      growPending := 0;
      speed := Speed;
      lastMoveTime := 0;
    }

    /** Steps once along the heading unless less than 200 ms have passed:
        a new head in front, and the tail dropped unless growth is owed. */
    method Move(now: int)
      requires Valid()
      modifies this
      ensures Valid() && State() == Moved(old(State()), now)
    {
      if now - lastMoveTime < MoveInterval {
        return;
      }
      var head := body[0];
      var newHead := Vec3(head.x + direction.x * speed,
                          head.y + direction.y * speed,
                          head.z + direction.z * speed);
      assert newHead == NextHead(State());
      body := [newHead] + body;
      if growPending > 0 {
        growPending := growPending - 1;
      } else {
        body := body[..|body| - 1];
      }
      lastMoveTime := now;
    }

    /** Takes the horizontal part of v, scaled to length 1, as the new heading;
        ignores v when that part is zero. `norm` is the square root of
        v.x^2 + v.z^2. */
    method SetDirection(v: Vec3, norm: real)
      requires Valid()
      requires norm >= 0.0 && norm * norm == PlanarNormSq(v)
      modifies this
      ensures Valid() && State() == Redirected(old(State()), v, norm)
    {
      if PlanarNormSq(v) > 0.0 {
        RootPositive(norm, PlanarNormSq(v));
        NormalizedIsUnit(v.x, v.z, norm);
        direction := Vec3(v.x / norm, 0.0, v.z / norm);
      }
    }

    method Grow()
      requires Valid()
      modifies this
      ensures Valid() && State() == Grown(old(State()))
    {
      growPending := growPending + 1;
    }

    /** Scans the segments behind the head for one equal to the head. */
    method CheckSelfCollision() returns (hit: bool)
      requires Valid()
      ensures hit == SelfCollides(body)
    {
      var head := body[0];
      var k := 1;
      while k < |body|
        invariant 1 <= k <= |body|
        invariant forall j :: 1 <= j < k ==> body[j] != head
      {
        if body[k] == head {
          return true;
        }
        k := k + 1;
      }
      return false;
    }

    method GetLength() returns (n: nat)
      requires Valid()
      ensures n == |body| && n >= InitialLength
    {
      n := |body|;
    }
  }
}
