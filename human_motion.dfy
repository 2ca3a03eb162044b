/**
 * The human-imitation helpers of playwright-extractor.js:10-39. Every call of
 * `Math.random()` is a draw from a random source `rand`, a function from draw
 * numbers to reals in [0, 1); a helper that draws several times says which
 * draw numbers it used. Arithmetic is exact (`real`), not floating point.
 */
module HumanMotion {

  /** A value of `Math.random()`. */
  type Unit = r: real | 0.0 <= r < 1.0

  /** A position of the mouse, in CSS pixels. */
  datatype Point = Point(x: real, y: real)

  /** The point a fraction `i / steps` of the way from the origin (0, 0) to (x, y). */
  function Interpolate(x: real, y: real, i: nat, steps: nat): Point
    requires steps > 0
  {
    Point(x * (i as real / steps as real), y * (i as real / steps as real))
  }

  /** `p` lies within the jitter of `humanMouseMove` around `q`: [-10, 10) pixels on each axis. */
  predicate WithinJitter(p: Point, q: Point)
  {
    -10.0 <= p.x - q.x < 10.0 && -10.0 <= p.y - q.y < 10.0
  }

  /** The number of intermediate moves of `humanMouseMove`: 10 + floor(10 * draw `from`). */
  function StepCount(rand: nat -> Unit, from: nat): (n: nat)
    ensures 10 <= n <= 19
  {
    10 + (rand(from) * 10.0).Floor
  }

  /**
   * Intermediate move `i` of `humanMouseMove(page, x, y)` with `steps`
   * moves: the point `i / steps` of the way from the origin, shifted on each
   * axis by 20 * (draw - 0.5), with draws `from + 1 + 3 * i` and the next.
   */
  function JitteredMove(x: real, y: real, rand: nat -> Unit, from: nat, steps: nat, i: nat): Point
    requires steps > 0
  {
    var origin, d := Point(0.0, 0.0), from + 1 + 3 * i;
    var progress := i as real / steps as real;
    Point(origin.x + (x - origin.x) * progress + (rand(d) - 0.5) * 20.0,
          origin.y + (y - origin.y) * progress + (rand(d + 1) - 0.5) * 20.0)
  }

  /** The intermediate moves of `humanMouseMove` with `steps` moves, from move `i` on. */
  function MovesFrom(x: real, y: real, rand: nat -> Unit, from: nat, steps: nat, i: nat): seq<Point>
    requires 0 < steps && i <= steps
    decreases steps - i, 1
  {
    if i == steps then [] else MoveThenRest(x, y, rand, from, steps, i)
  }

  /** Move `i`, then the intermediate moves after it. */
  function MoveThenRest(x: real, y: real, rand: nat -> Unit, from: nat, steps: nat, i: nat): seq<Point>
    requires 0 < steps && i < steps
    decreases steps - i, 0
  {
    [JitteredMove(x, y, rand, from, steps, i)] + MovesFrom(x, y, rand, from, steps, i + 1)
  }

  /** Move `j` of the intermediate moves is the jittered point `j / steps` of the way. */
  lemma {:induction false} MovesFromAt(x: real, y: real, rand: nat -> Unit, from: nat, steps: nat, i: nat)
    requires 0 < steps && i <= steps
    ensures |MovesFrom(x, y, rand, from, steps, i)| == steps - i
    ensures forall j :: i <= j < steps ==> MovesFrom(x, y, rand, from, steps, i)[j - i] == JitteredMove(x, y, rand, from, steps, j)
    decreases steps - i
  {
    if i < steps {
      MovesFromAt(x, y, rand, from, steps, i + 1);
    }
  }

  /** The points `humanMouseMove(page, x, y)` moves the mouse to, in order, with draws from `from` on. */
  function MousePath(x: real, y: real, rand: nat -> Unit, from: nat): seq<Point>
  {
    MovesFrom(x, y, rand, from, StepCount(rand, from), 0) + [Point(x, y)]
  }

  /** The pauses after the intermediate moves from move `i` on: 10 + 30 * draw `from + 3 + 3 * i` ms after move `i`. */
  function PausesFrom(rand: nat -> Unit, from: nat, steps: nat, i: nat): seq<real>
    decreases steps - i
  {
    if i >= steps then [] else [10.0 + rand(from + 3 + 3 * i) * 30.0] + PausesFrom(rand, from, steps, i + 1)
  }

  /** Pause `j` comes from draw `from + 3 + 3 * j`, so it lies in [10, 40). */
  lemma {:induction false} PausesFromAt(rand: nat -> Unit, from: nat, steps: nat, i: nat)
    requires i <= steps
    ensures |PausesFrom(rand, from, steps, i)| == steps - i
    ensures forall j :: i <= j < steps ==> PausesFrom(rand, from, steps, i)[j - i] == 10.0 + rand(from + 3 + 3 * j) * 30.0
    ensures forall p :: p in PausesFrom(rand, from, steps, i) ==> 10.0 <= p < 40.0
    decreases steps - i
  {
    if i < steps {
      PausesFromAt(rand, from, steps, i + 1);
    }
  }

  /** The pauses after the intermediate moves of `humanMouseMove`. */
  function MousePauses(rand: nat -> Unit, from: nat): seq<real>
  {
    PausesFrom(rand, from, StepCount(rand, from), 0)
  }

  /** The first draw after a `humanMouseMove` that starts at draw `from`. */
  function PathEnd(rand: nat -> Unit, from: nat): nat
  {
    from + 1 + 3 * StepCount(rand, from)
  }

  /**
   * The path of `humanMouseMove`: 10 to 19 intermediate moves, each a
   * jittered point on the line from the origin to (x, y) (the code always
   * interpolates from (0, 0), not from the current cursor position), each
   * followed by a pause of 10 to 40 ms, then one final move exactly to (x, y).
   */
  lemma MousePathShape(x: real, y: real, rand: nat -> Unit, from: nat)
    ensures var moves, pauses := MousePath(x, y, rand, from), MousePauses(rand, from);
            11 <= |moves| <= 20 && |pauses| == |moves| - 1 &&
            |moves| - 1 == StepCount(rand, from) &&
            (forall i :: 0 <= i < |moves| - 1 ==> WithinJitter(moves[i], Interpolate(x, y, i, |moves| - 1))) &&
            moves[|moves| - 1] == Point(x, y) &&
            (forall i :: 0 <= i < |pauses| ==> 10.0 <= pauses[i] < 40.0)
  {
    var steps := StepCount(rand, from);
    var moves := MousePath(x, y, rand, from);
    PathMoves(x, y, rand, from);
    PathPauses(rand, from);
    forall i | 0 <= i < steps
      ensures WithinJitter(moves[i], Interpolate(x, y, i, steps))
    {
      var d := from + 1 + 3 * i;
      JitteredStep(Point(0.0, 0.0), x, y, i as real / steps as real, i, steps, rand(d), rand(d + 1));
    }
  }

  /** The path is the jittered intermediate moves, then the target. */
  lemma PathMoves(x: real, y: real, rand: nat -> Unit, from: nat)
    ensures var moves, steps := MousePath(x, y, rand, from), StepCount(rand, from);
            |moves| == steps + 1 && moves[steps] == Point(x, y) &&
            forall i :: 0 <= i < steps ==> moves[i] == JitteredMove(x, y, rand, from, steps, i)
  {
    var steps := StepCount(rand, from);
    MovesFromAt(x, y, rand, from, steps, 0);
    var moves, inner := MousePath(x, y, rand, from), MovesFrom(x, y, rand, from, steps, 0);
    forall i | 0 <= i < steps
      ensures moves[i] == JitteredMove(x, y, rand, from, steps, i)
    {
      assert moves[i] == inner[i - 0];
    }
  }

  /** There is one pause per intermediate move, each of 10 to 40 ms. */
  lemma PathPauses(rand: nat -> Unit, from: nat)
    ensures var pauses := MousePauses(rand, from);
            |pauses| == StepCount(rand, from) && forall i :: 0 <= i < |pauses| ==> 10.0 <= pauses[i] < 40.0
  {
    PausesFromAt(rand, from, StepCount(rand, from), 0);
    var pauses := MousePauses(rand, from);
    forall i | 0 <= i < |pauses|
      ensures 10.0 <= pauses[i] < 40.0
    {
      assert pauses[i] in pauses;
    }
  }

  /** One step of the path: its move and its pause extend what has been done of the path. */
  lemma PathStep(x: real, y: real, rand: nat -> Unit, from: nat, steps: nat, i: nat,
                 moves: seq<Point>, pauses: seq<real>, point: Point, pause: real)
    requires 0 < steps && i < steps
    requires moves + MovesFrom(x, y, rand, from, steps, i) == MovesFrom(x, y, rand, from, steps, 0)
    requires pauses + PausesFrom(rand, from, steps, i) == PausesFrom(rand, from, steps, 0)
    requires point == JitteredMove(x, y, rand, from, steps, i) && pause == 10.0 + rand(from + 1 + 3 * i + 2) * 30.0
    ensures (moves + [point]) + MovesFrom(x, y, rand, from, steps, i + 1) == MovesFrom(x, y, rand, from, steps, 0)
    ensures (pauses + [pause]) + PausesFrom(rand, from, steps, i + 1) == PausesFrom(rand, from, steps, 0)
  {
    assert from + 1 + 3 * i + 2 == from + 3 + 3 * i;
    assert (moves + [point]) + MovesFrom(x, y, rand, from, steps, i + 1) == moves + MovesFrom(x, y, rand, from, steps, i);
    assert PausesFrom(rand, from, steps, i) == [pause] + PausesFrom(rand, from, steps, i + 1);
    assert (pauses + [pause]) + PausesFrom(rand, from, steps, i + 1) == pauses + ([pause] + PausesFrom(rand, from, steps, i + 1));
  }

  /**
   * `humanMouseMove(page, x, y)`: the moves of `MousePath` and the pauses
   * of `MousePauses`, using draws `from` up to, not including, `next`.
   */
  method HumanMouseMove(x: real, y: real, rand: nat -> Unit, from: nat)
    returns (moves: seq<Point>, pauses: seq<real>, next: nat)
    ensures moves == MousePath(x, y, rand, from) && pauses == MousePauses(rand, from)
    ensures next == PathEnd(rand, from)
    ensures 11 <= |moves| <= 20 && |pauses| == |moves| - 1
    ensures forall i :: 0 <= i < |moves| - 1 ==> WithinJitter(moves[i], Interpolate(x, y, i, |moves| - 1))
    ensures moves[|moves| - 1] == Point(x, y)
    ensures forall i :: 0 <= i < |pauses| ==> 10.0 <= pauses[i] < 40.0
  {
    var steps := 10 + (rand(from) * 10.0).Floor;
    next := from + 1;
    moves, pauses := [], [];
    var i := 0;
    while i < steps
      invariant 0 <= i <= steps
      invariant next == from + 1 + 3 * i
      invariant moves + MovesFrom(x, y, rand, from, steps, i) == MovesFrom(x, y, rand, from, steps, 0)
      invariant pauses + PausesFrom(rand, from, steps, i) == PausesFrom(rand, from, steps, 0)
    {
      // the move of playwright-extractor.js:15-17, with draws `next` and `next + 1`
      var point, pause := JitteredMove(x, y, rand, from, steps, i), 10.0 + rand(next + 2) * 30.0;
      PathStep(x, y, rand, from, steps, i, moves, pauses, point, pause);
      moves := moves + [point];
      pauses := pauses + [pause];
      next := next + 3;
      i := i + 1;
    }
    assert steps == StepCount(rand, from);
    assert moves == MovesFrom(x, y, rand, from, steps, 0) && pauses == MousePauses(rand, from);
    moves := moves + [Point(x, y)];
    MousePathShape(x, y, rand, from);
  }

  /** A move of `humanMouseMove` lies within the jitter of its point on the line from the origin. */
  lemma JitteredStep(origin: Point, x: real, y: real, progress: real, i: nat, steps: nat, dx: Unit, dy: Unit)
    requires origin == Point(0.0, 0.0) && steps > 0 && progress == i as real / steps as real
    ensures WithinJitter(Point(origin.x + (x - origin.x) * progress + (dx - 0.5) * 20.0,
                               origin.y + (y - origin.y) * progress + (dy - 0.5) * 20.0),
                         Interpolate(x, y, i, steps))
  {
    assert Interpolate(x, y, i, steps) == Point(x * progress, y * progress);
  }

  /** One call of `humanScroll`: the wheel amount and the pause after it. */
  datatype Scroll = Scroll(amount: int, pause: real)

  /**
   * `humanScroll(page)` with its two draws: a whole wheel amount from 100 to
   * 399 and a pause from 500 up to 1500 ms.
   */
  function HumanScroll(amountDraw: Unit, pauseDraw: Unit): (s: Scroll)
    ensures 100 <= s.amount <= 399
    ensures 500.0 <= s.pause < 1500.0
  {
    Scroll(100 + (amountDraw * 300.0).Floor, 500.0 + pauseDraw * 1000.0)
  }

  /**
   * `humanDelay(min, max)` with its draw: a duration from `min` up to, not
   * including, `max` when `min < max` (every call site passes such bounds).
   */
  function HumanDelay(min: real, max: real, draw: Unit): (d: real)
    ensures min < max ==> min <= d < max
    ensures min == max ==> d == min
  {
    var width := max - min;
    if width > 0.0 then
      ScaledBelow(draw, width);
      min + Scaled(draw, width)
    else
      min + Scaled(draw, width)
  }

  /** `Math.random() * width`. */
  function Scaled(draw: Unit, width: real): real
  {
    draw * width
  }

  /** A draw scaled by a positive width lies in [0, width). */
  lemma ScaledBelow(draw: Unit, width: real)
    requires width > 0.0
    ensures 0.0 <= Scaled(draw, width) < width
  {
    var rest := 1.0 - draw;
    assert rest * width > 0.0;
    assert draw * width == width - rest * width;
  }

  /** The wheel amount reaches its bounds: draw 0 scrolls 100 and draws close to 1 scroll 399. */
  lemma ScrollBoundsAreReached()
    ensures HumanScroll(0.0, 0.0).amount == 100
    ensures HumanScroll(0.999, 0.0).amount == 399
  {
  }
}
