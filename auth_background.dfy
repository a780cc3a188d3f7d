/**
 * The animated background of the sign-in page
 * (components/auth-background.tsx): a population of soft "waves" that
 * drift, are pushed away by the pointer, brighten and grow near it and fade
 * back far from it, and are kept inside a margin around the canvas.
 *
 * Numbers are reals. The results of Math.random, Math.cos, Math.sin,
 * Math.sqrt and Math.atan2 are passed in; every property below holds
 * whatever those readings are, apart from the ranges stated for the random
 * draws.
 */
module AuthBackground {

  /** How far a wave may stray outside the canvas on each side. */
  const Margin: real := 100.0
  /** The pointer affects waves closer than this. */
  const MaxDistance: real := 200.0
  /** One wave per this many square pixels of canvas. */
  const PixelsPerWave: nat := 50000
  /** Math.PI as a double. */
  const Pi: real := 3.141592653589793

  const MinOpacity: real := 0.1
  const MaxOpacity: real := 0.6
  const MinRadius: real := 50.0
  const MaxRadius: real := 200.0

  function Min(a: real, b: real): (m: real)
    ensures m <= a && m <= b && (m == a || m == b)
  {
    if a <= b then a else b
  }

  function Max(a: real, b: real): (m: real)
    ensures m >= a && m >= b && (m == a || m == b)
  {
    if a >= b then a else b
  }

  /** `Math.max(lo, Math.min(hi, v))`: v brought into [lo, hi] when lo <= hi. */
  function Clamp(lo: real, hi: real, v: real): (c: real)
    requires lo <= hi
    ensures lo <= c <= hi
    ensures lo <= v <= hi ==> c == v
    ensures v < lo ==> c == lo
    ensures v > hi ==> c == hi
  {
    Max(lo, Min(hi, v))
  }

  /** `v < lo || v > hi`. */
  predicate OutOfRange(lo: real, hi: real, v: real) {
    v < lo || v > hi
  }

  /** The six Math.random() draws a new wave makes, in source order. */
  datatype Draws = Draws(radius: real, speed: real, angle: real, opacity: real, lightness: real, direction: real) {
    /** Math.random() lies in [0, 1). */
    predicate Valid() {
      0.0 <= radius < 1.0 && 0.0 <= speed < 1.0 && 0.0 <= angle < 1.0
      && 0.0 <= opacity < 1.0 && 0.0 <= lightness < 1.0 && 0.0 <= direction < 1.0
    }
  }

  /**
   * The fields of a wave. `lightness` is the L of its colour
   * `hsl(221, 83%, L%)`.
   */
  datatype WaveState = WaveState(x: real, y: real, radius: real, speed: real, angle: real,
                                 opacity: real, lightness: real, direction: int) {
    /** The ranges a wave's fields keep for its whole life. */
    predicate Valid() {
      MinOpacity <= opacity <= MaxOpacity && MinRadius <= radius <= MaxRadius
      && (direction == 1 || direction == -1)
      && 0.01 <= speed < 0.03 && 60.0 <= lightness < 80.0
    }
  }

  /**
   * The Wave constructor: radius in [50, 200), speed in [0.01, 0.03), angle
   * in [0, 2π), opacity in [0.1, 0.4), lightness in [60, 80), and a
   * direction of 1 when its draw exceeds one half, -1 otherwise.
   */
  function NewWave(x: real, y: real, d: Draws): (s: WaveState)
    requires d.Valid()
    ensures s.x == x && s.y == y
    ensures 50.0 <= s.radius < 200.0
    ensures 0.1 <= s.opacity < 0.4
    ensures 0.0 <= s.angle < 2.0 * Pi
    ensures s.direction == 1 <==> d.direction > 0.5
    ensures s.Valid()
  {
    WaveState(x, y, d.radius * 150.0 + 50.0, d.speed * 0.02 + 0.01, d.angle * Pi * 2.0,
              d.opacity * 0.3 + 0.1, 60.0 + d.lightness * 20.0, if d.direction > 0.5 then 1 else -1)
  }

  /**
   * What update reads from Math for one wave in one frame: the cosine and
   * sine of its new angle, and the pointer's distance from the drifted
   * wave together with the cosine and sine of the pointer's bearing.
   */
  datatype Readings = Readings(cosMove: real, sinMove: real, distance: real, cosPointer: real, sinPointer: real)

  /** `angle + speed * direction`: the angle after one frame's turn. */
  function Turned(angle: real, speed: real, direction: int): real {
    angle + speed * direction as real
  }

  /** The pointer's pull: positive exactly when it is within reach. */
  function Force(distance: real): (f: real)
    ensures f > 0.0 <==> distance < MaxDistance
    ensures distance >= 0.0 ==> f <= 1.0
  {
    (MaxDistance - distance) / MaxDistance
  }

  /** The position update reaches before it keeps the wave on screen. */
  function Drift(s: WaveState, t: Readings): (p: (real, real))
    ensures t.distance >= MaxDistance ==> p == (s.x + t.cosMove * 0.5, s.y + t.sinMove * 0.3)
  {
    var x := s.x + t.cosMove * 0.5;
    var y := s.y + t.sinMove * 0.3;
    if t.distance < MaxDistance then
      var force := Force(t.distance);
      (x - t.cosPointer * force * 10.0, y - t.sinPointer * force * 10.0)
    else (x, y)
  }

  /**
   * Wave.update on a canvas of the given size. The new position lies within
   * the margin whatever the readings; opacity and radius keep their ranges;
   * far from the pointer they decay by 0.005 and 0.5 down to their floors,
   * and near it neither decreases; the direction flips once for each axis
   * the drifted wave left, so it is back where it was when both did.
   */
  function Step(s: WaveState, width: nat, height: nat, t: Readings): (n: WaveState)
    ensures -Margin <= n.x <= width as real + Margin
    ensures -Margin <= n.y <= height as real + Margin
    ensures !OutOfRange(-Margin, width as real + Margin, Drift(s, t).0) ==> n.x == Drift(s, t).0
    ensures !OutOfRange(-Margin, height as real + Margin, Drift(s, t).1) ==> n.y == Drift(s, t).1
    ensures n.angle == Turned(s.angle, s.speed, s.direction)
    ensures n.speed == s.speed && n.lightness == s.lightness
    ensures MinOpacity <= s.opacity <= MaxOpacity ==> MinOpacity <= n.opacity <= MaxOpacity
    ensures MinRadius <= s.radius <= MaxRadius ==> MinRadius <= n.radius <= MaxRadius
    ensures t.distance >= MaxDistance ==>
      n.opacity == Max(MinOpacity, s.opacity - 0.005) && n.radius == Max(MinRadius, s.radius - 0.5)
    ensures t.distance < MaxDistance ==>
      (s.opacity <= MaxOpacity ==> n.opacity >= s.opacity) && (s.radius <= MaxRadius ==> n.radius >= s.radius)
    ensures n.direction ==
      if OutOfRange(-Margin, width as real + Margin, Drift(s, t).0) == OutOfRange(-Margin, height as real + Margin, Drift(s, t).1)
      then s.direction else -s.direction
    ensures s.Valid() ==> n.Valid()
  {
    var p := Drift(s, t);
    var hiX := width as real + Margin;
    var hiY := height as real + Margin;
    var near := t.distance < MaxDistance;
    var force := Force(t.distance);
    var opacity := if near then Min(MaxOpacity, s.opacity + force * 0.2) else Max(MinOpacity, s.opacity - 0.005);
    var radius := if near then Min(MaxRadius, s.radius + force * 20.0) else Max(MinRadius, s.radius - 0.5);
    var d1 := if OutOfRange(-Margin, hiX, p.0) then -s.direction else s.direction;
    var d2 := if OutOfRange(-Margin, hiY, p.1) then -d1 else d1;
    WaveState(Clamp(-Margin, hiX, p.0), Clamp(-Margin, hiY, p.1), radius, s.speed,
              Turned(s.angle, s.speed, s.direction), opacity, s.lightness, d2)
  }

  /** The wave after one update per reading, in order. */
  function Run(s: WaveState, width: nat, height: nat, ts: seq<Readings>): WaveState
    decreases |ts|
  {
    if ts == [] then s else Run(Step(s, width, height, ts[0]), width, height, ts[1..])
  }

  /** A wave that starts valid stays valid, and on screen, through any number of frames. */
  lemma {:induction false} RunKeepsRanges(s: WaveState, width: nat, height: nat, ts: seq<Readings>)
    requires s.Valid()
    ensures Run(s, width, height, ts).Valid()
    ensures |ts| > 0 ==>
      -Margin <= Run(s, width, height, ts).x <= width as real + Margin
      && -Margin <= Run(s, width, height, ts).y <= height as real + Margin
    decreases |ts|
  {
    if ts != [] {
      var next := Step(s, width, height, ts[0]);
      RunKeepsRanges(next, width, height, ts[1..]);
      if |ts| == 1 {
        assert ts[1..] == [];
      }
    }
  }

  /**
   * While the pointer stays out of reach, opacity and radius fall by 0.005
   * and 0.5 per frame until they reach 0.1 and 50, and then hold there.
   */
  lemma {:induction false} FarPointerFades(s: WaveState, width: nat, height: nat, ts: seq<Readings>)
    requires MinOpacity <= s.opacity && MinRadius <= s.radius
    requires forall i :: 0 <= i < |ts| ==> ts[i].distance >= MaxDistance
    ensures Run(s, width, height, ts).opacity == Max(MinOpacity, s.opacity - 0.005 * |ts| as real)
    ensures Run(s, width, height, ts).radius == Max(MinRadius, s.radius - 0.5 * |ts| as real)
    decreases |ts|
  {
    if ts != [] {
      var next := Step(s, width, height, ts[0]);
      var k := |ts[1..]| as real;
      FarPointerFades(next, width, height, ts[1..]);
      assert Run(s, width, height, ts) == Run(next, width, height, ts[1..]);
      assert next.opacity == Max(MinOpacity, s.opacity - 0.005);
      assert next.radius == Max(MinRadius, s.radius - 0.5);
      assert 0.005 * |ts| as real == 0.005 + 0.005 * k;
      assert 0.5 * |ts| as real == 0.5 + 0.5 * k;
      FloorSteps(MinOpacity, s.opacity, 0.005, 0.005 * k);
      FloorSteps(MinRadius, s.radius, 0.5, 0.5 * k);
    }
  }

  /** Two floored decrements in a row are one floored decrement by their sum. */
  lemma FloorSteps(floor: real, v: real, a: real, b: real)
    requires a >= 0.0 && b >= 0.0
    ensures Max(floor, Max(floor, v - a) - b) == Max(floor, v - (a + b))
  {
  }

  /** `Math.floor((canvas.width * canvas.height) / 50000)`. */
  function WaveCount(width: nat, height: nat): (n: nat)
    ensures n * PixelsPerWave <= width * height < (n + 1) * PixelsPerWave
    ensures n > 0 ==> width > 0 && height > 0
  {
    (width * height) / PixelsPerWave
  }

  /** The draws for one wave of initWaves: its position fractions, then its own six. */
  datatype Placement = Placement(px: real, py: real, draws: Draws) {
    predicate Valid() {
      0.0 <= px < 1.0 && 0.0 <= py < 1.0 && draws.Valid()
    }
  }

  /** The wave initWaves builds from a placement on a canvas of the given size. */
  function Placed(width: nat, height: nat, p: Placement): (s: WaveState)
    requires p.Valid()
    ensures width > 0 ==> 0.0 <= s.x < width as real
    ensures height > 0 ==> 0.0 <= s.y < height as real
    ensures s.Valid()
  {
    var x := p.px * width as real;
    var y := p.py * height as real;
    FractionBelow(p.px, width, x);
    FractionBelow(p.py, height, y);
    NewWave(x, y, p.draws)
  }

  /** A fraction in [0, 1) of a positive length lies in [0, length). */
  lemma FractionBelow(f: real, length: nat, v: real)
    requires 0.0 <= f < 1.0 && v == f * length as real
    ensures length > 0 ==> 0.0 <= v < length as real
  {
    if length > 0 {
      var l := length as real;
      assert l > 0.0;
      assert f * l >= 0.0;
      assert (1.0 - f) * l > 0.0;
    }
  }

  /** No wave object appears twice. */
  predicate Distinct(waves: seq<Wave>) {
    forall i, j :: 0 <= i < j < |waves| ==> waves[i] != waves[j]
  }

  /** A wave within its ranges and within the margin around a width x height canvas. */
  predicate Fits(s: WaveState, width: nat, height: nat) {
    s.Valid() && -Margin <= s.x <= width as real + Margin && -Margin <= s.y <= height as real + Margin
  }

  /** A step keeps a valid wave within its ranges and the margin. */
  lemma StepFits(s: WaveState, width: nat, height: nat, t: Readings)
    requires s.Valid()
    ensures Fits(Step(s, width, height, t), width, height)
  {
  }

  class Wave {
    var x: real
    var y: real
    var radius: real
    var speed: real
    var angle: real
    var opacity: real
    var lightness: real
    var direction: int

    function State(): WaveState
      reads this
    {
      WaveState(x, y, radius, speed, angle, opacity, lightness, direction)
    }

    /** `new Wave(x, y)`. */
    constructor (x: real, y: real, d: Draws)
      requires d.Valid()
      ensures State() == NewWave(x, y, d)
    {
      this.x := x;
      this.y := y;
      radius := d.radius * 150.0 + 50.0;
      speed := d.speed * 0.02 + 0.01;
      angle := d.angle * Pi * 2.0;
      opacity := d.opacity * 0.3 + 0.1;
      lightness := 60.0 + d.lightness * 20.0;
      direction := if d.direction > 0.5 then 1 else -1;
    }

    /** update(mouseX, mouseY, canvas), in place. */
    method Update(width: nat, height: nat, t: Readings)
      modifies this
      ensures State() == Step(old(State()), width, height, t)
    {
      ghost var before := State();
      angle := Turned(angle, speed, direction);
      x := x + t.cosMove * 0.5;
      y := y + t.sinMove * 0.3;
      if t.distance < MaxDistance {
        var force := Force(t.distance);
        x := x - t.cosPointer * force * 10.0;
        y := y - t.sinPointer * force * 10.0;
        assert (x, y) == Drift(before, t);
        opacity := Min(MaxOpacity, opacity + force * 0.2);
        radius := Min(MaxRadius, radius + force * 20.0);
      } else {
        assert (x, y) == Drift(before, t);
        opacity := Max(MinOpacity, opacity - 0.005);
        radius := Max(MinRadius, radius - 0.5);
      }
      var hiX := width as real + Margin;
      var hiY := height as real + Margin;
      if OutOfRange(-Margin, hiX, x) {
        direction := -direction;
      }
      if OutOfRange(-Margin, hiY, y) {
        direction := -direction;
      }
      x := Clamp(-Margin, hiX, x);
      y := Clamp(-Margin, hiY, y);
    }
  }

  /**
   * initWaves: floor(w*h/50000) new waves, each built from its placement
   * and so starting inside [0, w) x [0, h).
   */
  method InitWaves(width: nat, height: nat, placements: seq<Placement>) returns (waves: seq<Wave>)
    requires |placements| >= WaveCount(width, height)
    requires forall i :: 0 <= i < |placements| ==> placements[i].Valid()
    ensures |waves| == WaveCount(width, height)
    ensures Distinct(waves)
    ensures forall i :: 0 <= i < |waves| ==> fresh(waves[i])
    ensures forall i :: 0 <= i < |waves| ==> waves[i].State() == Placed(width, height, placements[i])
    ensures forall i :: 0 <= i < |waves| ==>
      0.0 <= waves[i].x < width as real && 0.0 <= waves[i].y < height as real
  {
    var count := WaveCount(width, height);
    waves := [];
    var i := 0;
    while i < count
      invariant 0 <= i <= count
      invariant |waves| == i
      invariant Distinct(waves)
      invariant forall j :: 0 <= j < i ==> fresh(waves[j])
      invariant forall j :: 0 <= j < i ==> waves[j].State() == Placed(width, height, placements[j])
    {
      var p := placements[i];
      var wave := new Wave(p.px * width as real, p.py * height as real, p.draws);
      waves := waves + [wave];
      i := i + 1;
    }
  }

  /** The component's refs: the canvas size, the waves and the pointer position. */
  class Background {
    var waves: seq<Wave>
    var mouseX: real
    var mouseY: real
    var width: nat
    var height: nat

    /** Every wave is its own object, within its ranges and within the margin. */
    predicate Valid()
      reads this, waves
    {
      Distinct(waves)
      && forall i :: 0 <= i < |waves| ==> Fits(waves[i].State(), width, height)
    }

    /** The refs before the canvas is sized: no waves, pointer at the origin. */
    constructor ()
      ensures waves == [] && mouseX == 0.0 && mouseY == 0.0 && width == 0 && height == 0
      ensures Valid()
    {
      waves := [];
      mouseX, mouseY := 0.0, 0.0;
      width, height := 0, 0;
    }

    /**
     * resizeCanvas: the canvas takes the size of its bounding box and the
     * whole wave collection is replaced by a new one for that size.
     */
    method ResizeCanvas(rectWidth: nat, rectHeight: nat, placements: seq<Placement>)
      requires |placements| >= WaveCount(rectWidth, rectHeight)
      requires forall i :: 0 <= i < |placements| ==> placements[i].Valid()
      modifies this
      ensures width == rectWidth && height == rectHeight
      ensures mouseX == old(mouseX) && mouseY == old(mouseY)
      ensures |waves| == WaveCount(width, height)
      ensures forall i :: 0 <= i < |waves| ==> fresh(waves[i])
      ensures forall i :: 0 <= i < |waves| ==> waves[i].State() == Placed(width, height, placements[i])
      ensures Valid()
    {
      width := rectWidth;
      height := rectHeight;
      waves := InitWaves(width, height, placements);
    }

    /** handleMouseMove: the pointer in canvas coordinates. */
    method HandleMouseMove(clientX: real, clientY: real, left: real, top: real)
      requires Valid()
      modifies this`mouseX, this`mouseY
      ensures mouseX == clientX - left && mouseY == clientY - top
      ensures Valid()
    {
      mouseX := clientX - left;
      mouseY := clientY - top;
    }

    /**
     * The update pass of one animation frame: each wave is updated with its
     * own readings, in place; the waves keep their ranges and their margin.
     */
    method AnimateFrame(readings: seq<Readings>)
      requires Valid()
      requires |readings| == |waves|
      modifies waves
      ensures forall i :: 0 <= i < |waves| ==>
        waves[i].State() == Step(old(waves[i].State()), width, height, readings[i])
      ensures Valid()
    {
      var i := 0;
      while i < |waves|
        invariant 0 <= i <= |waves|
        invariant forall j :: 0 <= j < i ==>
          waves[j].State() == Step(old(waves[j].State()), width, height, readings[j])
        invariant forall j :: i <= j < |waves| ==> waves[j].State() == old(waves[j].State())
        invariant forall j :: 0 <= j < |waves| ==> Fits(waves[j].State(), width, height)
      {
        ghost var before := waves[i].State();
        assert forall j :: 0 <= j < |waves| && j != i ==> waves[j] != waves[i];
        waves[i].Update(width, height, readings[i]);
        StepFits(before, width, height, readings[i]);
        i := i + 1;
      }
    }
  }
}
