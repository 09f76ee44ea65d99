/** The game rules of main.js: the per-frame step (move, eat, die), the food
    spawn policy, the arena boundary, the restart after a death and the
    keyboard mapping. The module-level globals the program keeps (snake,
    food position, score, high score, camera mode, time of the last accepted
    key) are the class GameState; World is the same state as a value and the
    functions Restarted, Updated and KeyPressed specify its methods.

    The clock (Date.now) and the random draws (Math.random) are parameters. */
module Game {
  import opened Geometry
  import opened SnakeModel

  /** Half the side of the square arena. */
  const BorderSize: real := 10.0
  /** Half the width of a segment. */
  const HalfSize: real := 0.5
  /** Food coordinates are drawn from [-FoodRange, FoodRange). */
  const FoodRange: int := 9
  const FoodHeight: real := 0.5
  /** The head eats when its horizontal distance to the food is below 0.5,
      that is when the squared distance is below this. */
  const EatRadiusSq: real := 0.25
  const ScoreStep: int := 10
  /** Minimum time between two accepted key presses, in milliseconds. */
  const KeyInterval: int := 300

  const Origin: Vec3 := Vec3(0.0, 0.0, 0.0)

  datatype Option<T> = None | Some(value: T)

  /** The segment is (partly) outside the arena, judged on x and z only. */
  function IsOutOfBounds(p: Vec3): (out: bool)
    ensures out <==> !(-(BorderSize - HalfSize) <= p.x <= BorderSize - HalfSize
                       && -(BorderSize - HalfSize) <= p.z <= BorderSize - HalfSize)
  {
    Abs(p.x) + HalfSize > BorderSize || Abs(p.z) + HalfSize > BorderSize
  }

  /** The two values Math.random returns for one spawnFood call. */
  datatype Draw = Draw(rx: real, rz: real)

  /** Math.random only returns values in [0, 1). */
  predicate IsRandom(d: Draw) {
    0.0 <= d.rx < 1.0 && 0.0 <= d.rz < 1.0
  }

  /** One food coordinate, `Math.floor(r * 18 - 9)`. */
  function SpawnCoord(r: real): (c: int)
    ensures c as real <= r * 18.0 - 9.0 < c as real + 1.0
    ensures 0.0 <= r < 1.0 ==> -FoodRange <= c < FoodRange
  {
    (r * (2 * FoodRange) as real - FoodRange as real).Floor
  }

  /** Where spawnFood puts the food: on integer x and z in [-9, 8], at
      height 0.5, and so always inside the arena. */
  function FoodAt(d: Draw): (f: Vec3)
    ensures f.y == FoodHeight
    ensures f.x == SpawnCoord(d.rx) as real && f.z == SpawnCoord(d.rz) as real
    ensures IsRandom(d) ==> -9.0 <= f.x <= 8.0 && -9.0 <= f.z <= 8.0 && !IsOutOfBounds(f)
  {
    Vec3(SpawnCoord(d.rx) as real, FoodHeight, SpawnCoord(d.rz) as real)
  }

  /** The head is on the food: horizontal distance below 0.5, heights ignored. */
  predicate Eats(head: Vec3, food: Vec3) {
    Sq(head.x - food.x) + Sq(head.z - food.z) < EatRadiusSq
  }

  /** Comparing squared distances decides the same as the program, which
      compares the square root `distance` of the squared distance with 0.5. */
  lemma EatTestMatchesDistance(head: Vec3, food: Vec3, distance: real)
    requires distance >= 0.0
    requires distance * distance == Sq(head.x - food.x) + Sq(head.z - food.z)
    ensures Eats(head, food) <==> distance < 0.5
  {
    if distance < 0.5 {
      assert distance * distance <= distance * 0.5 < 0.5 * 0.5;
    } else {
      assert distance * distance >= 0.5 * distance >= 0.5 * 0.5;
    }
  }

  datatype World = World(
    snake: SnakeState,
    food: Vec3,
    score: int,
    highScore: int,
    isFirstPerson: bool,
    lastKeyPressTime: int)

  /** What holds of the globals at every frame: a well-formed snake, and a
      score in steps of 10 that never exceeds the high score. */
  predicate WorldInv(w: World) {
    && Inv(w.snake)
    && 0 <= w.score <= w.highScore
    && w.score % ScoreStep == 0 && w.highScore % ScoreStep == 0
  }

  /** The globals right after start-up: a fresh snake at the origin, food
      from the first draw, no points, third-person camera. */
  function Started(d: Draw): (w: World)
    ensures WorldInv(w) && w.snake == Initial(Origin) && w.food == FoodAt(d)
    ensures w.score == 0 && w.highScore == 0 && !w.isFirstPerson && w.lastKeyPressTime == 0
  {
    World(Initial(Origin), FoodAt(d), 0, 0, false, 0)
  }

  /** The globals after gameOver: fresh snake at the origin, score reset,
      food respawned; the high score, camera mode and key time survive. */
  function Restarted(w: World, d: Draw): (r: World)
    ensures r.snake == Initial(Origin) && r.score == 0 && r.food == FoodAt(d)
    ensures r.highScore == w.highScore
    ensures r.isFirstPerson == w.isFirstPerson && r.lastKeyPressTime == w.lastKeyPressTime
    ensures WorldInv(w) ==> WorldInv(r)
  {
    w.(snake := Initial(Origin), score := 0, food := FoodAt(d))
  }

  /** The snake after the movement attempt of a frame at time `now`. */
  function Stepped(w: World, now: int): (s: SnakeState)
    requires WorldInv(w)
    ensures Inv(s)
  {
    Moved(w.snake, now)
  }

  /** The frame at time `now` finds the moved head on the food. */
  predicate AteAt(w: World, now: int)
    requires WorldInv(w)
  {
    Eats(Stepped(w, now).body[0], w.food)
  }

  /** The frame at time `now` ends the game: after the move, the head sits on
      another segment or leaves the arena. */
  predicate DiesAt(w: World, now: int)
    requires WorldInv(w)
  {
    SelfCollides(Stepped(w, now).body) || IsOutOfBounds(Stepped(w, now).body[0])
  }

  /** The globals after update() at time `now`; `eatDraw` feeds the respawn
      after eating and `resetDraw` the one in gameOver. Eating is settled
      before death, so points of the fatal frame still reach the high score. */
  function Updated(w: World, now: int, eatDraw: Draw, resetDraw: Draw): (r: World)
    requires WorldInv(w)
    ensures WorldInv(r)
    ensures r.isFirstPerson == w.isFirstPerson && r.lastKeyPressTime == w.lastKeyPressTime
    ensures AteAt(w, now) ==>
      r.highScore == (if w.score + ScoreStep > w.highScore then w.score + ScoreStep else w.highScore)
    ensures !AteAt(w, now) ==> r.highScore == w.highScore
    ensures DiesAt(w, now) ==> r == Restarted(w.(highScore := r.highScore), resetDraw)
    ensures !DiesAt(w, now) && AteAt(w, now) ==>
      && r.snake == Grown(Stepped(w, now))
      && r.score == w.score + ScoreStep
      && r.food == FoodAt(eatDraw)
    ensures !DiesAt(w, now) && !AteAt(w, now) ==>
      r == w.(snake := Stepped(w, now))
  {
    var moved := Stepped(w, now);
    var head := moved.body[0];
    var fed := Fed(w, moved, eatDraw);
    if SelfCollides(fed.snake.body) || IsOutOfBounds(head) then Restarted(fed, resetDraw)
    else fed
  }

  /** The eating part of a frame, given the moved snake: when the head is on
      the food the snake grows once, 10 points are added, the high score
      follows the score when beaten, and the food respawns. */
  function Fed(w: World, moved: SnakeState, eatDraw: Draw): (r: World)
    requires WorldInv(w) && Inv(moved)
    ensures WorldInv(r) && r.snake.body == moved.body
    ensures r.isFirstPerson == w.isFirstPerson && r.lastKeyPressTime == w.lastKeyPressTime
    ensures Eats(moved.body[0], w.food) ==>
      && r.snake == Grown(moved)
      && r.score == w.score + ScoreStep
      && r.highScore == (if w.score + ScoreStep > w.highScore then w.score + ScoreStep else w.highScore)
      && r.food == FoodAt(eatDraw)
    ensures !Eats(moved.body[0], w.food) ==> r == w.(snake := moved)
  {
    if Eats(moved.body[0], w.food) then
      var score := w.score + ScoreStep;
      w.(snake := Grown(moved), score := score,
         highScore := if score > w.highScore then score else w.highScore,
         food := FoodAt(eatDraw))
    else
      w.(snake := moved)
  }

  /** `toLowerCase` on the letters A-Z. */
  function LowerChar(c: char): (r: char)
    ensures 'A' <= c <= 'Z' ==> 'a' <= r <= 'z' && r as int - c as int == 'a' as int - 'A' as int
    ensures !('A' <= c <= 'Z') ==> r == c
  {
    if 'A' <= c <= 'Z' then (c as int - 'A' as int + 'a' as int) as char else c
  }

  function Lower(s: string): (r: string)
    ensures |r| == |s|
    ensures forall i :: 0 <= i < |s| ==> r[i] == LowerChar(s[i])
  {
    if s == [] then [] else [LowerChar(s[0])] + Lower(s[1..])
  }

  /** A quarter turn to the left (first-person 'a'). */
  function TurnLeft(d: Vec3): (r: Vec3)
    ensures r.y == 0.0 && r.x * d.x + r.z * d.z == 0.0
    ensures PlanarNormSq(r) == PlanarNormSq(d)
  {
    Vec3(d.z, 0.0, -d.x)
  }

  /** A quarter turn to the right (first-person 'd'): three left turns, and
      undone by a left turn. */
  function TurnRight(d: Vec3): (r: Vec3)
    ensures r.y == 0.0 && r.x * d.x + r.z * d.z == 0.0
    ensures PlanarNormSq(r) == PlanarNormSq(d)
    ensures r == TurnLeft(TurnLeft(TurnLeft(d)))
    ensures d.y == 0.0 ==> TurnLeft(r) == d
  {
    Vec3(-d.z, 0.0, d.x)
  }

  /** n left turns in a row. */
  function TurnedLeft(d: Vec3, n: nat): Vec3
  {
    if n == 0 then d else TurnLeft(TurnedLeft(d, n - 1))
  }

  /** Four left turns bring any flat heading back to itself, so after 4k of
      them the snake heads where it started. */
  lemma {:induction false} FullTurnsRestore(d: Vec3, k: nat)
    requires d.y == 0.0
    ensures TurnedLeft(d, 4 * k) == d
  {
    if k > 0 {
      var n := 4 * (k - 1);
      FullTurnsRestore(d, k - 1);
      assert TurnedLeft(d, n + 1) == TurnLeft(d);
      assert TurnedLeft(d, n + 2) == TurnLeft(TurnLeft(d));
      assert TurnedLeft(d, n + 3) == TurnLeft(TurnLeft(TurnLeft(d)));
      assert TurnedLeft(d, n + 4) == TurnLeft(TurnLeft(TurnLeft(TurnLeft(d))));
    }
  }

  /** First-person 'a' then 'd' gives back the heading the snake had. */
  lemma LeftThenRightRestores(d: Vec3)
    requires d.y == 0.0
    ensures TurnRight(TurnLeft(d)) == d
  {
  }

  /** The absolute heading of a third-person key. */
  function ThirdPersonHeading(key: string): (h: Option<Vec3>)
    ensures h.Some? <==> key in {"w", "s", "a", "d"}
    ensures h.Some? ==> IsHorizontalUnit(h.value)
  {
    if key == "w" then Some(Vec3(0.0, 0.0, -1.0))
    else if key == "s" then Some(Vec3(0.0, 0.0, 1.0))
    else if key == "a" then Some(Vec3(-1.0, 0.0, 0.0))
    else if key == "d" then Some(Vec3(1.0, 0.0, 0.0))
    else None
  }

  /** The effect of an accepted key (before the key time is recorded). The
      snake's heading is a unit vector, so the square root setDirection
      computes for every vector passed here is 1. */
  function KeyEffect(w: World, key: string): (r: World)
    requires WorldInv(w)
    ensures WorldInv(r)
    ensures r == w.(snake := r.snake, isFirstPerson := r.isFirstPerson)
    ensures r.snake == w.snake.(direction := r.snake.direction)
  {
    var s := w.snake;
    var d := s.direction;
    if key == "c" then w.(isFirstPerson := !w.isFirstPerson)
    else if w.isFirstPerson then
      if key == "w" then w.(snake := Redirected(s, Vec3(d.x, 0.0, d.z), 1.0))
      else if key == "s" then w.(snake := Redirected(s, Vec3(-d.x, 0.0, -d.z), 1.0))
      else if key == "a" then w.(snake := s.(direction := TurnLeft(d)))
      else if key == "d" then w.(snake := s.(direction := TurnRight(d)))
      else w
    else
      match ThirdPersonHeading(key)
      case Some(h) => w.(snake := Redirected(s, h, 1.0))
      case None => w
  }

  /** The globals after a keydown of `key` at time `now`. */
  function KeyPressed(w: World, key: string, now: int): (r: World)
    requires WorldInv(w)
    ensures WorldInv(r)
    ensures now - w.lastKeyPressTime < KeyInterval ==> r == w
    ensures now - w.lastKeyPressTime >= KeyInterval ==>
      && r.lastKeyPressTime == now
      && r.food == w.food && r.score == w.score && r.highScore == w.highScore
      && r.isFirstPerson == (w.isFirstPerson != (Lower(key) == "c"))
      && r.snake == w.snake.(direction := r.snake.direction)
      && (Lower(key) !in {"w", "s", "a", "d"} ==> r.snake == w.snake)
  {
    if now - w.lastKeyPressTime < KeyInterval then w
    else KeyEffect(w, Lower(key)).(lastKeyPressTime := now)
  }

  /** How the keys steer the snake: in third person w/s/a/d are the absolute
      headings -Z, +Z, -X, +X; in first person 'w' keeps the heading, 's'
      reverses it, and 'a'/'d' turn it a quarter left or right. */
  lemma KeyHeadings(w: World, key: string, now: int)
    requires WorldInv(w) && now - w.lastKeyPressTime >= KeyInterval
    ensures var d := w.snake.direction;
            var k := Lower(key);
            var r := KeyPressed(w, key, now).snake.direction;
            && (!w.isFirstPerson && k in {"w", "s", "a", "d"} ==> r == ThirdPersonHeading(k).value)
            && (w.isFirstPerson && k == "w" ==> r == d)
            && (w.isFirstPerson && k == "s" ==> r == Vec3(-d.x, 0.0, -d.z))
            && (w.isFirstPerson && k == "a" ==> r == TurnLeft(d))
            && (w.isFirstPerson && k == "d" ==> r == TurnRight(d))
  {
    var s := w.snake;
    var d := s.direction;
    var k := Lower(key);
    if !w.isFirstPerson && k in {"w", "s", "a", "d"} {
      var h := ThirdPersonHeading(k).value;
      assert Redirected(s, h, 1.0).direction == h;
    }
    if w.isFirstPerson && k == "w" {
      assert Redirected(s, Vec3(d.x, 0.0, d.z), 1.0).direction == d;
    }
    if w.isFirstPerson && k == "s" {
      assert Redirected(s, Vec3(-d.x, 0.0, -d.z), 1.0).direction == Vec3(-d.x, 0.0, -d.z);
    }
  }

  /** The snake has just stepped along its current heading: the segment
      behind the head is one step back. */
  predicate JustStepped(s: SnakeState) {
    |s.body| >= 2 && s.body[1] == Vec3(s.body[0].x - s.direction.x * s.speed,
                                       s.body[0].y - s.direction.y * s.speed,
                                       s.body[0].z - s.direction.z * s.speed)
  }

  lemma AcceptedMoveSteps(s: SnakeState, now: int)
    requires Inv(s) && TickDue(s, now)
    ensures JustStepped(Moved(s, now))
  {
  }

  /** There is no guard against reversing: a snake that just stepped and is
      turned around runs into its own neck on the next step. */
  lemma ReversalCollides(s: SnakeState, now: int)
    requires Inv(s) && JustStepped(s) && TickDue(s, now)
    ensures var back := s.(direction := Vec3(-s.direction.x, 0.0, -s.direction.z));
            SelfCollides(Moved(back, now).body)
  {
    var back := s.(direction := Vec3(-s.direction.x, 0.0, -s.direction.z));
    var m := Moved(back, now);
    var d := s.direction;
    assert (-d.x) * s.speed == -(d.x * s.speed) && (-d.z) * s.speed == -(d.z * s.speed);
    assert m.body[0] == Vec3(s.body[0].x - d.x * s.speed, s.body[0].y, s.body[0].z - d.z * s.speed);
    assert m.body[0] == s.body[1];
    assert m.body[2] == s.body[1];
  }

  /** In first person, pressing 's' right after a step ends the game on the
      next step: the score drops to 0 and a fresh snake starts at the origin. */
  lemma BackKeyIsFatal(w: World, key: string, t: int, now: int, eatDraw: Draw, resetDraw: Draw)
    requires WorldInv(w) && w.isFirstPerson && JustStepped(w.snake)
    requires Lower(key) == "s" && t - w.lastKeyPressTime >= KeyInterval
    requires TickDue(w.snake, now)
    ensures var r := Updated(KeyPressed(w, key, t), now, eatDraw, resetDraw);
            r.snake == Initial(Origin) && r.score == 0
  {
    BackKeyDies(w, key, t, now);
  }

  lemma BackKeyDies(w: World, key: string, t: int, now: int)
    requires WorldInv(w) && w.isFirstPerson && JustStepped(w.snake)
    requires Lower(key) == "s" && t - w.lastKeyPressTime >= KeyInterval
    requires TickDue(w.snake, now)
    ensures DiesAt(KeyPressed(w, key, t), now)
  {
    BackKeyReverses(w, key, t);
    ReversedDies(KeyPressed(w, key, t), w.snake, now);
  }

  lemma ReversedDies(p: World, s: SnakeState, now: int)
    requires WorldInv(p) && Inv(s) && JustStepped(s) && TickDue(s, now)
    requires p.snake == s.(direction := Vec3(-s.direction.x, 0.0, -s.direction.z))
    ensures DiesAt(p, now)
  {
    ReversalCollides(s, now);
  }

  lemma BackKeyReverses(w: World, key: string, t: int)
    requires WorldInv(w) && w.isFirstPerson
    requires Lower(key) == "s" && t - w.lastKeyPressTime >= KeyInterval
    ensures var d := w.snake.direction;
            KeyPressed(w, key, t).snake == w.snake.(direction := Vec3(-d.x, 0.0, -d.z))
  {
    KeyHeadings(w, key, t);
  }

  /** An input the game reacts to: an animation frame (with its clock value
      and the random draws it may consume) or a key press. */
  datatype Input =
    | Frame(now: int, eatDraw: Draw, resetDraw: Draw)
    | Press(key: string, at: int)

  function Step(w: World, i: Input): (r: World)
    requires WorldInv(w)
    ensures WorldInv(r) && r.highScore >= w.highScore
  {
    match i
    case Frame(now, e, d) => Updated(w, now, e, d)
    case Press(key, at) => KeyPressed(w, key, at)
  }

  /** The globals after a run of inputs: the invariant holds throughout and
      the high score never goes down. */
  function Play(w: World, ins: seq<Input>): (r: World)
    requires WorldInv(w)
    ensures WorldInv(r) && r.highScore >= w.highScore
    decreases |ins|
  {
    if ins == [] then w else Play(Step(w, ins[0]), ins[1..])
  }

  /** Key presses never score: a run of key presses leaves score, high score
      and food as they were. */
  lemma {:induction false} PressesNeverScore(w: World, ins: seq<Input>)
    requires WorldInv(w)
    requires forall i :: 0 <= i < |ins| ==> ins[i].Press?
    ensures Play(w, ins).score == w.score && Play(w, ins).highScore == w.highScore
    ensures Play(w, ins).food == w.food
    decreases |ins|
  {
    if ins != [] {
      PressesNeverScore(Step(w, ins[0]), ins[1..]);
    }
  }

  /** The mutable globals of main.js. */
  class GameState {
    var snake: Snake
    var food: Vec3
    var score: int
    var highScore: int
    var isFirstPerson: bool
    var lastKeyPressTime: int

    ghost function State(): World
      reads this, snake
    {
      World(snake.State(), food, score, highScore, isFirstPerson, lastKeyPressTime)
    }

    ghost predicate Valid()
      reads this, snake
    {
      WorldInv(State())
    }

    /** Start-up: the snake, the first food and the zeroed counters. */
    constructor (d: Draw)
      ensures Valid() && State() == Started(d)
    {
      snake := new Snake(Origin);
      food := Vec3(SpawnCoord(d.rx) as real, FoodHeight, SpawnCoord(d.rz) as real);
      score := 0;
      highScore := 0;
      isFirstPerson := false;
      lastKeyPressTime := 0;
    }

    method SpawnFood(d: Draw)
      modifies this
      ensures food == FoodAt(d)
      ensures snake == old(snake) && score == old(score) && highScore == old(highScore)
      ensures isFirstPerson == old(isFirstPerson) && lastKeyPressTime == old(lastKeyPressTime)
    {
      var maxRange := FoodRange;
      food := Vec3((d.rx * (maxRange * 2) as real - maxRange as real).Floor as real,
                   FoodHeight,
                   (d.rz * (maxRange * 2) as real - maxRange as real).Floor as real);
    }

    method GameOver(d: Draw)
      requires Valid()
      modifies this
      ensures Valid() && State() == Restarted(old(State()), d)
    {
      snake := new Snake(Origin);
      score := 0;
      SpawnFood(d);
    }

    /** One animation frame at time `now`. */
    method Update(now: int, eatDraw: Draw, resetDraw: Draw)
      requires Valid()
      modifies this, snake
      ensures Valid() && State() == Updated(old(State()), now, eatDraw, resetDraw)
    {
      snake.Move(now);
      var head := snake.body[0];
      if Eats(head, food) {
        snake.Grow();
        score := score + ScoreStep;
        if score > highScore {
          highScore := score;
        }
        SpawnFood(eatDraw);
      }
      var hit := snake.CheckSelfCollision();
      if hit || IsOutOfBounds(head) {
        GameOver(resetDraw);
        return;
      }
    }

    /** The keydown handler, with `now` the time of the event. */
    method KeyDown(key: string, now: int)
      requires Valid()
      modifies this, snake
      ensures Valid() && State() == KeyPressed(old(State()), key, now)
    {
      if now - lastKeyPressTime < KeyInterval {
        return;
      }
      var k := Lower(key);
      var d := snake.direction;
      if isFirstPerson {
        if k == "w" {
          snake.SetDirection(Vec3(d.x, 0.0, d.z), 1.0);
        } else if k == "s" {
          snake.SetDirection(Vec3(-d.x, 0.0, -d.z), 1.0);
        } else if k == "a" {
          snake.direction := Vec3(d.z, 0.0, -d.x);
        } else if k == "d" {
          snake.direction := Vec3(-d.z, 0.0, d.x);
        } else if k == "c" {
          isFirstPerson := !isFirstPerson;
        }
      } else {
        if k == "w" {
          snake.SetDirection(Vec3(0.0, 0.0, -1.0), 1.0);
        } else if k == "s" {
          snake.SetDirection(Vec3(0.0, 0.0, 1.0), 1.0);
        } else if k == "a" {
          snake.SetDirection(Vec3(-1.0, 0.0, 0.0), 1.0);
        } else if k == "d" {
          snake.SetDirection(Vec3(1.0, 0.0, 0.0), 1.0);
        } else if k == "c" {
          isFirstPerson := !isFirstPerson;
        }
      }
      lastKeyPressTime := now;
    }
  }
}
