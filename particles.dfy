/**
 * The particle bookkeeping of the mini-program's home page: shape particles
 * that drift, bounce, fade and leave a 20-point trail, bursts of eight
 * particles at a touch, nudging of nearby particles by a swipe, and the text
 * particles that are spawned on a timer and fade in.
 *
 * Every Math.random() the page calls is a parameter here: the unit draws of
 * one particle come in as a Draws record, and the burst directions
 * (cos, sin of 2*pi*i/8) come in as vectors. Drawing on the canvas, timers
 * and wx calls are not part of this model.
 */
module Particles {
  import opened Wrappers

  /** Math.PI, to the digits JavaScript prints. */
  const Pi: real := 3.141592653589793

  const TrailLength: nat := 20
  const MinParticles: nat := 30
  const InitialParticles: nat := 50
  const SplitCount: nat := 8
  const SplitDecay: real := 0.01
  const MaxTextParticles: nat := 8
  /** The swipe reaches particles whose distance to the touch is below 150. */
  const TouchRadius: real := 150.0
  const TouchGain: real := 0.02
  const Bounce: real := -0.8
  const GrowStep: real := 0.5
  const FadeStep: real := 0.02

  const TextSources: seq<string> := [
    "梦", "雾", "光", "影", "尘", "风", "雨", "雪",
    "流逝", "碎片", "褶皱", "飘浮", "沉没", "绽放",
    "⌘", "⎔", "⎊", "∞", "◇", "○", "△", "□",
    "霎那", "永恒", "虚无", "存在", "混沌",
    "像风一样", "时光倒流", "星云破碎", "寂静回响"
  ]

  const ColorPalettes: seq<seq<string>> := [
    ["#FF6B6B", "#4ECDC4", "#45B7D1", "#FFA07A"],
    ["#A8E6CF", "#DCEDC1", "#FFD3B6", "#FFAAA5"],
    ["#667eea", "#764ba2", "#f093fb", "#4facfe"],
    ["#00d2ff", "#3a7bd5", "#00b4db", "#1e3c72"]
  ]

  datatype Point = Point(x: real, y: real)

  /** The canvas size the selector query reports. */
  datatype Size = Size(width: real, height: real)

  datatype Shape = Circle | Triangle | Square

  datatype Particle = Particle(
    x: real, y: real, vx: real, vy: real,
    size: real, targetSize: real, currentSize: real,
    color: string, shape: Shape,
    rotation: real, rotationSpeed: real,
    life: real, decay: real, alpha: real,
    trail: seq<Point>)

  /** A value of Math.random(). */
  predicate Unit(r: real)
  {
    0.0 <= r < 1.0
  }

  /** Math.floor(r * n): an index into a list of n entries. */
  function Pick(r: real, n: nat): (k: nat)
    requires Unit(r) && n > 0
    ensures k < n
    ensures k as real <= r * n as real < k as real + 1.0
  {
    ScaledUnit(r, n as real);
    (r * n as real).Floor
  }

  /** The Math.random() values createParticle uses, one per property. */
  datatype Draws = Draws(
    shape: real, size: real, color: real, x: real, y: real,
    vx: real, vy: real, rotation: real, rotationSpeed: real,
    decay: real, alpha: real)
  {
    predicate Valid()
    {
      Unit(shape) && Unit(size) && Unit(color) && Unit(x) && Unit(y)
      && Unit(vx) && Unit(vy) && Unit(rotation) && Unit(rotationSpeed)
      && Unit(decay) && Unit(alpha)
    }
  }

  /** JavaScript's `a || b` on a number that may be absent: 0 is falsy. */
  function OrElse(a: Option<real>, b: real): (r: real)
    ensures a.Some? && a.value != 0.0 ==> r == a.value
    ensures a.None? || a.value == 0.0 ==> r == b
  {
    if a.Some? && a.value != 0.0 then a.value else b
  }

  /** JavaScript's `a || b` on a string that may be absent: "" is falsy. */
  function OrElseText(a: Option<string>, b: string): (r: string)
    ensures a.Some? && a.value != "" ==> r == a.value
    ensures a.None? || a.value == "" ==> r == b
  {
    if a.Some? && a.value != "" then a.value else b
  }

  /**
   * createParticle(x, y, options): a fresh particle with life 1, an empty
   * trail and size 0 growing towards its target size. An absent or zero x or
   * y, size or color is drawn at random.
   */
  function CreateParticle(x: Option<real>, y: Option<real>, size: Option<real>, color: Option<string>,
                          d: Draws, colors: seq<string>, width: real, height: real): (p: Particle)
    requires d.Valid() && colors != []
    ensures p.x == OrElse(x, d.x * width) && p.y == OrElse(y, d.y * height)
    ensures p.size == p.targetSize == OrElse(size, d.size * 20.0 + 5.0) && p.currentSize == 0.0
    ensures p.color in colors || (color.Some? && p.color == color.value)
    ensures -1.5 <= p.vx < 1.5 && -1.5 <= p.vy < 1.5
    ensures 0.0 <= p.rotation < 2.0 * Pi && -0.05 <= p.rotationSpeed < 0.05
    ensures p.life == 1.0 && 0.0005 <= p.decay < 0.0025 && 0.3 <= p.alpha < 0.8
    ensures p.trail == []
  {
    var s := OrElse(size, d.size * 20.0 + 5.0);
    Particle(
      x := OrElse(x, d.x * width),
      y := OrElse(y, d.y * height),
      vx := (d.vx - 0.5) * 3.0,
      vy := (d.vy - 0.5) * 3.0,
      size := s,
      targetSize := s,
      currentSize := 0.0,
      color := OrElseText(color, colors[Pick(d.color, |colors|)]),
      shape := [Circle, Triangle, Square][Pick(d.shape, 3)],
      rotation := d.rotation * Pi * 2.0,
      rotationSpeed := (d.rotationSpeed - 0.5) * 0.1,
      life := 1.0,
      decay := d.decay * 0.002 + 0.0005,
      alpha := d.alpha * 0.5 + 0.3,
      trail := [])
  }

  /**
   * createParticle() without arguments, as initParticles and the refill call
   * it: the position is drawn over the page's width and height as they are
   * at that moment, which are 0 until the canvas query has answered.
   */
  function RandomParticle(d: Draws, colors: seq<string>, width: real, height: real): (p: Particle)
    requires d.Valid() && colors != []
    ensures p == CreateParticle(None, None, None, None, d, colors, width, height)
    ensures p.color in colors && 5.0 <= p.size < 25.0
  {
    CreateParticle(None, None, None, None, d, colors, width, height)
  }

  /** A touch exactly on the left edge (x == 0) is falsy, so the particle lands at a random x. */
  lemma TouchOnLeftEdgeIsRandomised(d: Draws, colors: seq<string>, width: real, height: real, y: real)
    requires d.Valid() && colors != []
    ensures CreateParticle(Some(0.0), Some(y), None, None, d, colors, width, height).x == d.x * width
  {
  }

  /** The invariant every live particle on the page keeps. */
  predicate WellFormed(p: Particle)
  {
    |p.trail| <= TrailLength
    && p.currentSize <= p.targetSize + GrowStep
    && p.life > 0.0
    && (p.trail != [] ==> p.trail[|p.trail| - 1] == Point(p.x, p.y))
  }

  /** p.trail.push(pos); if (p.trail.length > 20) p.trail.shift() */
  function PushTrail(trail: seq<Point>, pos: Point): (r: seq<Point>)
    ensures |trail| < TrailLength ==> r == trail + [pos]
    ensures |trail| >= TrailLength ==> r == trail[1..] + [pos]
    ensures r != [] && r[|r| - 1] == pos
    ensures |trail| <= TrailLength ==> |r| <= TrailLength
  {
    var t := trail + [pos];
    if |t| > TrailLength then t[1..] else t
  }

  /**
   * One particle's update in updateParticles: move by the velocity, reverse
   * and damp a velocity component whose coordinate left the canvas, rotate,
   * grow, record the position in the trail, and lose life by the decay.
   */
  function Step(p: Particle, width: real, height: real): (r: Particle)
    ensures r.x == p.x + p.vx && r.y == p.y + p.vy
    ensures r.vx == (if r.x < 0.0 || r.x > width then Bounce * p.vx else p.vx)
    ensures r.vy == (if r.y < 0.0 || r.y > height then Bounce * p.vy else p.vy)
    ensures r.rotation == p.rotation + p.rotationSpeed
    ensures p.currentSize < p.targetSize ==> r.currentSize == p.currentSize + GrowStep
    ensures p.currentSize >= p.targetSize ==> r.currentSize == p.currentSize
    ensures r.trail == PushTrail(p.trail, Point(r.x, r.y))
    ensures r.life == p.life - p.decay
    ensures r.size == p.size && r.targetSize == p.targetSize && r.color == p.color && r.shape == p.shape
    ensures r.rotationSpeed == p.rotationSpeed && r.decay == p.decay && r.alpha == p.alpha
  {
    var x := p.x + p.vx;
    var y := p.y + p.vy;
    p.(x := x, y := y,
       vx := if x < 0.0 || x > width then p.vx * Bounce else p.vx,
       vy := if y < 0.0 || y > height then p.vy * Bounce else p.vy,
       rotation := p.rotation + p.rotationSpeed,
       currentSize := if p.currentSize < p.targetSize then p.currentSize + GrowStep else p.currentSize,
       trail := PushTrail(p.trail, Point(x, y)),
       life := p.life - p.decay)
  }

  /** A step keeps the trail bounded, its last point at the particle and the size at most half a step past the target. */
  lemma StepKeepsShape(p: Particle, width: real, height: real)
    requires |p.trail| <= TrailLength && p.currentSize <= p.targetSize + GrowStep
    ensures var r := Step(p, width, height);
      |r.trail| <= TrailLength && r.currentSize <= r.targetSize + GrowStep
      && r.trail[|r.trail| - 1] == Point(r.x, r.y) && r.targetSize == p.targetSize
  {
  }

  /** The particles that updateParticles' filter keeps: each stepped, those with life left, in order. */
  function Survivors(ps: seq<Particle>, width: real, height: real): (r: seq<Particle>)
    ensures |r| <= |ps|
  {
    if ps == [] then []
    else
      var q := Step(ps[|ps| - 1], width, height);
      Survivors(ps[..|ps| - 1], width, height) + (if q.life > 0.0 then [q] else [])
  }

  /** Every survivor is some particle stepped, and has life left. */
  lemma {:induction false} SurvivorsSound(ps: seq<Particle>, width: real, height: real)
    ensures forall q :: q in Survivors(ps, width, height) ==>
              q.life > 0.0 && exists i :: 0 <= i < |ps| && q == Step(ps[i], width, height)
  {
    if ps != [] {
      var front := ps[..|ps| - 1];
      var last := Step(ps[|ps| - 1], width, height);
      var earlier := Survivors(front, width, height);
      assert Survivors(ps, width, height) == earlier + (if last.life > 0.0 then [last] else []);
      SurvivorsSound(front, width, height);
      forall q | q in Survivors(ps, width, height)
        ensures q.life > 0.0 && exists i :: 0 <= i < |ps| && q == Step(ps[i], width, height)
      {
        if q in earlier {
          var i :| 0 <= i < |front| && q == Step(front[i], width, height);
          assert ps[i] == front[i];
        } else {
          assert q == last;
        }
      }
    }
  }

  /** Every particle whose stepped life is positive survives. */
  lemma {:induction false} SurvivorsComplete(ps: seq<Particle>, width: real, height: real, i: nat)
    requires i < |ps| && Step(ps[i], width, height).life > 0.0
    ensures Step(ps[i], width, height) in Survivors(ps, width, height)
  {
    var front := ps[..|ps| - 1];
    if i < |ps| - 1 {
      assert ps[i] == front[i];
      SurvivorsComplete(front, width, height, i);
    }
  }

  /** The filter keeps relative order: it works piecewise on a split list. */
  lemma {:induction false} SurvivorsAppend(a: seq<Particle>, b: seq<Particle>, width: real, height: real)
    ensures Survivors(a + b, width, height) == Survivors(a, width, height) + Survivors(b, width, height)
    decreases |b|
  {
    if b != [] {
      var front := b[..|b| - 1];
      assert (a + b)[..|a + b| - 1] == a + front;
      assert (a + b)[|a + b| - 1] == b[|b| - 1];
      SurvivorsAppend(a, front, width, height);
    } else {
      assert a + b == a;
    }
  }

  /** The filter keeps the page's particle invariant. */
  lemma {:induction false} SurvivorsWellFormed(ps: seq<Particle>, width: real, height: real)
    requires forall i :: 0 <= i < |ps| ==> WellFormed(ps[i])
    ensures forall i :: 0 <= i < |Survivors(ps, width, height)| ==> WellFormed(Survivors(ps, width, height)[i])
  {
    if ps != [] {
      var front := ps[..|ps| - 1];
      SurvivorsWellFormed(front, width, height);
      StepKeepsShape(ps[|ps| - 1], width, height);
    }
  }

  /** createParticle() once per draw, in order. */
  function RandomParticles(draws: seq<Draws>, colors: seq<string>, width: real, height: real): (r: seq<Particle>)
    requires colors != [] && forall j :: 0 <= j < |draws| ==> draws[j].Valid()
    ensures |r| == |draws|
    ensures forall j :: 0 <= j < |r| ==> r[j] == RandomParticle(draws[j], colors, width, height) && WellFormed(r[j])
  {
    seq(|draws|, j requires 0 <= j < |draws| => RandomParticle(draws[j], colors, width, height))
  }

  /** One more draw is one more particle at the end. */
  lemma RandomParticlesSnoc(draws: seq<Draws>, k: nat, colors: seq<string>, width: real, height: real)
    requires k < |draws| && colors != [] && forall j :: 0 <= j < |draws| ==> draws[j].Valid()
    ensures RandomParticles(draws[..k + 1], colors, width, height)
         == RandomParticles(draws[..k], colors, width, height) + [RandomParticle(draws[k], colors, width, height)]
  {
  }

  /** The filter of updateParticles: steps each particle and keeps those with life left. */
  method FilterParticles(ps: seq<Particle>, width: real, height: real) returns (kept: seq<Particle>)
    ensures kept == Survivors(ps, width, height)
  {
    kept := [];
    var i := 0;
    while i < |ps|
      invariant 0 <= i <= |ps|
      invariant kept == Survivors(ps[..i], width, height)
    {
      var p := Step(ps[i], width, height);
      assert ps[..i + 1][..i] == ps[..i];
      if p.life > 0.0 {
        kept := kept + [p];
      }
      i := i + 1;
    }
    assert ps[..i] == ps;
  }

  /** The list after the refill loop: the survivors, then fresh particles until there are 30. */
  function Refilled(kept: seq<Particle>, refill: seq<Draws>, colors: seq<string>, width: real, height: real): (r: seq<Particle>)
    requires |refill| >= MinParticles && colors != []
    requires forall j :: 0 <= j < |refill| ==> refill[j].Valid()
    ensures |r| >= MinParticles && |r| >= |kept| && r[..|kept|] == kept
    ensures |kept| >= MinParticles ==> r == kept
    ensures |kept| < MinParticles ==> |r| == MinParticles
    ensures forall j :: |kept| <= j < |r| ==> r[j] == RandomParticle(refill[j - |kept|], colors, width, height)
  {
    var missing := if |kept| >= MinParticles then 0 else MinParticles - |kept|;
    kept + RandomParticles(refill[..missing], colors, width, height)
  }

  /** The refill loop of updateParticles: appends random particles while there are fewer than 30. */
  method Refill(kept: seq<Particle>, refill: seq<Draws>, colors: seq<string>, width: real, height: real)
    returns (ps: seq<Particle>)
    requires |refill| >= MinParticles && colors != []
    requires forall j :: 0 <= j < |refill| ==> refill[j].Valid()
    ensures ps == Refilled(kept, refill, colors, width, height)
  {
    ps := kept;
    var k := 0;
    while |ps| < MinParticles
      invariant |kept| + k <= MinParticles || k == 0
      invariant ps == kept + RandomParticles(refill[..k], colors, width, height)
      decreases MinParticles - |ps|
    {
      RandomParticlesSnoc(refill, k, colors, width, height);
      ps := ps + [RandomParticle(refill[k], colors, width, height)];
      k := k + 1;
    }
  }

  /** Refilling with fresh particles keeps the particle invariant. */
  lemma RefilledWellFormed(kept: seq<Particle>, refill: seq<Draws>, colors: seq<string>, width: real, height: real)
    requires |refill| >= MinParticles && colors != []
    requires forall j :: 0 <= j < |refill| ==> refill[j].Valid()
    requires forall j :: 0 <= j < |kept| ==> WellFormed(kept[j])
    ensures forall j :: 0 <= j < |Refilled(kept, refill, colors, width, height)| ==>
              WellFormed(Refilled(kept, refill, colors, width, height)[j])
  {
    var r := Refilled(kept, refill, colors, width, height);
    forall j | 0 <= j < |r| ensures WellFormed(r[j]) {
      if j < |kept| {
        assert r[j] == r[..|kept|][j] == kept[j];
      }
    }
  }

  /** One text particle in data.textParticles. */
  datatype TextParticle = TextParticle(
    id: nat, text: string, x: real, y: real, vx: real, vy: real,
    color: string, size: real, opacity: real, targetOpacity: real)

  /** The Math.random() values a spawn tick uses. */
  datatype TextDraws = TextDraws(text: real, color: real, x: real, y: real, vx: real, vy: real,
                                 size: real, targetOpacity: real)
  {
    predicate Valid()
    {
      Unit(text) && Unit(color) && Unit(x) && Unit(y) && Unit(vx) && Unit(vy)
      && Unit(size) && Unit(targetOpacity)
    }
  }

  /** A unit draw scales a non-negative length to a value within it. */
  lemma ScaledUnit(r: real, len: real)
    requires Unit(r)
    ensures len >= 0.0 ==> 0.0 <= r * len <= len
    ensures len > 0.0 ==> r * len < len
  {
    if len > 0.0 {
      assert r * len < 1.0 * len;
    } else if len == 0.0 {
      assert r * len == 0.0;
    }
  }

  /** A spawn coordinate: 50 + random * (extent - 100), 50 clear of both edges on a large enough canvas. */
  function SpawnCoordinate(r: real, extent: real): (c: real)
    requires Unit(r)
    ensures extent >= 100.0 ==> 50.0 <= c <= extent - 50.0
  {
    var span := extent - 100.0;
    ScaledUnit(r, span);
    r * span + 50.0
  }

  /** The text particle a spawn tick creates, with the given id; it starts invisible. */
  function NewTextParticle(id: nat, d: TextDraws, colors: seq<string>, width: real, height: real): (t: TextParticle)
    requires d.Valid() && colors != []
    ensures t.id == id && t.text in TextSources && t.color in colors
    ensures width >= 100.0 ==> 50.0 <= t.x <= width - 50.0
    ensures height >= 100.0 ==> 50.0 <= t.y <= height - 50.0
    ensures -0.5 <= t.vx < 0.5 && -0.5 <= t.vy < 0.5 && 14.0 <= t.size < 34.0
    ensures t.opacity == 0.0 && 0.4 <= t.targetOpacity < 1.0
  {
    TextParticle(
      id := id,
      text := TextSources[Pick(d.text, |TextSources|)],
      x := SpawnCoordinate(d.x, width),
      y := SpawnCoordinate(d.y, height),
      vx := (d.vx - 0.5) * 1.0,
      vy := (d.vy - 0.5) * 1.0,
      color := colors[Pick(d.color, |colors|)],
      size := d.size * 20.0 + 14.0,
      opacity := 0.0,
      targetOpacity := d.targetOpacity * 0.6 + 0.4)
  }

  /**
   * One text particle's update in updateTextParticles: move by the velocity,
   * reverse a component whose new coordinate left the canvas, and fade in by
   * 0.02 without passing the target opacity.
   */
  function TextStep(p: TextParticle, width: real, height: real): (r: TextParticle)
    ensures r.x == p.x + p.vx && r.y == p.y + p.vy
    ensures r.vx == (if r.x < 0.0 || r.x > width then -p.vx else p.vx)
    ensures r.vy == (if r.y < 0.0 || r.y > height then -p.vy else p.vy)
    ensures p.opacity <= r.opacity <= p.opacity + FadeStep
    ensures p.opacity <= p.targetOpacity ==> r.opacity <= p.targetOpacity
    ensures p.opacity < p.targetOpacity ==> r.opacity > p.opacity
    ensures r == p.(x := r.x, y := r.y, vx := r.vx, vy := r.vy, opacity := r.opacity)
  {
    var x := p.x + p.vx;
    var y := p.y + p.vy;
    var opacity := if p.opacity < p.targetOpacity then Min(p.opacity + FadeStep, p.targetOpacity) else p.opacity;
    p.(x := x, y := y,
       vx := if x < 0.0 || x > width then p.vx * -1.0 else p.vx,
       vy := if y < 0.0 || y > height then p.vy * -1.0 else p.vy,
       opacity := opacity)
  }

  /** Math.min on two numbers. */
  function Min(a: real, b: real): (m: real)
    ensures m <= a && m <= b
    ensures m == a || m == b
  {
    if a <= b then a else b
  }

  /** After k updates a text particle that started invisible has opacity min(0.02 k, target). */
  lemma {:induction false} FadeInReachesTarget(p: TextParticle, width: real, height: real, k: nat)
    requires p.opacity == Min(FadeStep * k as real, p.targetOpacity) && p.targetOpacity >= 0.0
    ensures TextStep(p, width, height).opacity == Min(FadeStep * (k + 1) as real, p.targetOpacity)
  {
    var r := TextStep(p, width, height);
    if FadeStep * k as real < p.targetOpacity {
      assert p.opacity == FadeStep * k as real;
      assert r.opacity == Min(p.opacity + FadeStep, p.targetOpacity);
    } else {
      assert p.opacity == p.targetOpacity;
      assert FadeStep * (k + 1) as real >= p.targetOpacity;
    }
  }

  /**
   * Is p within the swipe's reach of (tx, ty)? Math.hypot(dx, dy) < 150,
   * compared squared. A particle in reach lies in the 300-wide square around
   * the touch, and every particle less than 100 away along both axes is in
   * reach.
   */
  function Near(p: Particle, tx: real, ty: real): (b: bool)
    ensures b ==> -TouchRadius < p.x - tx < TouchRadius && -TouchRadius < p.y - ty < TouchRadius
    ensures -100.0 < p.x - tx < 100.0 && -100.0 < p.y - ty < 100.0 ==> b
  {
    var dx, dy := p.x - tx, p.y - ty;
    SquareBelow(dx, dy * dy, TouchRadius);
    SquareBelow(dy, dx * dx, TouchRadius);
    SquareOfSmall(dx, 100.0);
    SquareOfSmall(dy, 100.0);
    dx * dx + dy * dy < TouchRadius * TouchRadius
  }

  /** u * u + v < r * r with v >= 0 puts u strictly between -r and r. */
  lemma SquareBelow(u: real, v: real, r: real)
    requires r > 0.0
    ensures v >= 0.0 && u * u + v < r * r ==> -r < u < r
  {
    if u >= r {
      assert u * u >= r * u >= r * r;
    } else if u <= -r {
      assert u * u == (-u) * (-u) >= r * (-u) >= r * r;
    }
  }

  /** A number strictly between -r and r has a square below r * r, and every square is non-negative. */
  lemma SquareOfSmall(u: real, r: real)
    ensures u * u >= 0.0
    ensures -r < u < r ==> u * u < r * r
  {
    if -r < u < r {
      var gap, span := r - u, r + u;
      assert gap > 0.0 && span > 0.0;
      assert gap * span > 0.0;
      assert gap * span == r * r - u * u;
    }
  }

  /** onTouchMove on one particle: a particle near the touch takes 0.02 of the swipe into its velocity. */
  function Nudge(p: Particle, tx: real, ty: real, dx: real, dy: real): (r: Particle)
    ensures Near(p, tx, ty) ==> r.vx == p.vx + TouchGain * dx && r.vy == p.vy + TouchGain * dy
    ensures !Near(p, tx, ty) ==> r == p
    ensures r == p.(vx := r.vx, vy := r.vy)
  {
    if Near(p, tx, ty) then p.(vx := p.vx + dx * TouchGain, vy := p.vy + dy * TouchGain) else p
  }

  /** A nudge changes only the velocity, so the particle invariant survives it. */
  lemma NudgeKeepsWellFormed(p: Particle, tx: real, ty: real, dx: real, dy: real)
    requires WellFormed(p)
    ensures WellFormed(Nudge(p, tx, ty, dx, dy))
  {
  }

  /** Strictly increasing ids, as the spawn counter hands them out. */
  predicate IdsIncreasing(ts: seq<TextParticle>)
  {
    forall i, j :: 0 <= i < j < |ts| ==> ts[i].id < ts[j].id
  }

  predicate AllWellFormed(ps: seq<Particle>)
  {
    forall i :: 0 <= i < |ps| ==> WellFormed(ps[i])
  }

  /**
   * The invariant of data.textParticles: at most eight, ids handed out in
   * increasing order and below the next id, opacity between 0 and its target.
   */
  predicate TextParticlesValid(ts: seq<TextParticle>, nextId: nat)
  {
    |ts| <= MaxTextParticles
    && IdsIncreasing(ts)
    && (forall i :: 0 <= i < |ts| ==> ts[i].id < nextId)
    && (forall i :: 0 <= i < |ts| ==> 0.0 <= ts[i].opacity <= ts[i].targetOpacity)
  }

  /** The home page's particle state. */
  class ParticlePage {
    var particles: seq<Particle>
    var textParticles: seq<TextParticle>
    var textParticleId: nat
    var colors: seq<string>
    var width: real
    var height: real
    /** this.ctx is set: the canvas query has answered. */
    var hasContext: bool
    var lastTouch: Point

    ghost predicate Valid()
      reads this
    {
      AllWellFormed(particles) && TextParticlesValid(textParticles, textParticleId)
    }

    /**
     * The page object as it starts: no drawing context, a 0 x 0 canvas, no
     * palette and no particles.
     */
    constructor ()
      ensures Valid()
      ensures width == 0.0 && height == 0.0 && !hasContext && colors == []
      ensures particles == [] && textParticles == [] && textParticleId == 0 && lastTouch == Point(0.0, 0.0)
    {
      width, height, hasContext := 0.0, 0.0, false;
      colors := [];
      particles, textParticles, textParticleId := [], [], 0;
      lastTouch := Point(0.0, 0.0);
    }

    /**
     * The callback of initCanvas' selector query: when the query found the
     * canvas, the drawing context is set up and the page takes the canvas
     * size; otherwise nothing changes.
     */
    method OnCanvasQuery(found: Option<Size>)
      requires Valid()
      modifies this`width, this`height, this`hasContext
      ensures Valid()
      ensures found.None? ==> width == old(width) && height == old(height) && hasContext == old(hasContext)
      ensures found.Some? ==> width == found.value.width && height == found.value.height && hasContext
    {
      if found.Some? {
        hasContext := true;
        width, height := found.value.width, found.value.height;
      }
    }

    /** initColors: one of the four palettes, picked at random. */
    method InitColors(paletteDraw: real)
      requires Valid() && Unit(paletteDraw)
      modifies this`colors
      ensures Valid()
      ensures colors == ColorPalettes[Pick(paletteDraw, |ColorPalettes|)] && colors != []
    {
      assert forall k :: 0 <= k < |ColorPalettes| ==> |ColorPalettes[k]| == 4;
      colors := ColorPalettes[Pick(paletteDraw, |ColorPalettes|)];
    }

    /** initParticles: pushes 50 random particles. */
    method InitParticles(draws: seq<Draws>)
      requires Valid() && colors != []
      requires |draws| >= InitialParticles && forall j :: 0 <= j < |draws| ==> draws[j].Valid()
      modifies this`particles
      ensures Valid()
      ensures particles == old(particles) + RandomParticles(draws[..InitialParticles], colors, width, height)
    {
      var i := 0;
      while i < InitialParticles
        invariant 0 <= i <= InitialParticles
        invariant particles == old(particles) + RandomParticles(draws[..i], colors, width, height)
      {
        RandomParticlesSnoc(draws, i, colors, width, height);
        particles := particles + [RandomParticle(draws[i], colors, width, height)];
        i := i + 1;
      }
    }

    /**
     * updateParticles: steps every particle, keeps those with life left, in
     * order, and refills the list with random particles up to 30.
     */
    method UpdateParticles(refill: seq<Draws>)
      requires Valid() && colors != []
      requires |refill| >= MinParticles && forall j :: 0 <= j < |refill| ==> refill[j].Valid()
      modifies this`particles
      ensures Valid()
      ensures particles == Refilled(Survivors(old(particles), width, height), refill, colors, width, height)
      ensures |particles| >= MinParticles
    {
      SurvivorsWellFormed(particles, width, height);
      var kept := FilterParticles(particles, width, height);
      particles := kept;
      particles := Refill(kept, refill, colors, width, height);
      RefilledWellFormed(kept, refill, colors, width, height);
    }

    /**
     * splitParticles(x, y): appends eight particles at the touch, particle i
     * flying along directions[i] (the unit vector at angle 2*pi*i/8) with a
     * random speed in [2, 6), a random size in [5, 20) and decay 0.01.
     */
    method SplitParticles(x: real, y: real, draws: seq<SplitDraws>, directions: seq<Point>)
      requires Valid() && colors != []
      requires |draws| >= SplitCount && forall j :: 0 <= j < |draws| ==> draws[j].Valid()
      requires |directions| == SplitCount
      modifies this`particles
      ensures Valid()
      ensures |particles| == old(|particles|) + SplitCount
      ensures particles[..old(|particles|)] == old(particles)
      ensures forall j :: 0 <= j < SplitCount ==>
                particles[old(|particles|) + j] == Burst(x, y, draws[j], directions[j], colors, width, height)
    {
      for i := 0 to SplitCount
        invariant Valid()
        invariant |particles| == old(|particles|) + i
        invariant particles[..old(|particles|)] == old(particles)
        invariant forall j :: 0 <= j < i ==>
                    particles[old(|particles|) + j] == Burst(x, y, draws[j], directions[j], colors, width, height)
      {
        var particle := Burst(x, y, draws[i], directions[i], colors, width, height);
        particles := particles + [particle];
      }
    }

    /**
     * onTouchStart without the long-press timer: remembers the touch and
     * bursts particles there.
     */
    method OnTouchStart(tx: real, ty: real, draws: seq<SplitDraws>, directions: seq<Point>)
      requires Valid() && colors != []
      requires |draws| >= SplitCount && forall j :: 0 <= j < |draws| ==> draws[j].Valid()
      requires |directions| == SplitCount
      modifies this`particles, this`lastTouch
      ensures Valid()
      ensures lastTouch == Point(tx, ty)
      ensures |particles| == old(|particles|) + SplitCount
      ensures particles[..old(|particles|)] == old(particles)
      ensures forall j :: 0 <= j < SplitCount ==>
                particles[old(|particles|) + j] == Burst(tx, ty, draws[j], directions[j], colors, width, height)
    {
      lastTouch := Point(tx, ty);
      SplitParticles(tx, ty, draws, directions);
    }

    /**
     * onTouchMove: every particle within 150 of the touch takes 0.02 of the
     * movement since the last touch position into its velocity; then the
     * touch becomes the last position.
     */
    method OnTouchMove(tx: real, ty: real)
      requires Valid()
      modifies this`particles, this`lastTouch
      ensures Valid()
      ensures lastTouch == Point(tx, ty)
      ensures |particles| == old(|particles|)
      ensures forall i :: 0 <= i < |particles| ==>
                particles[i] == Nudge(old(particles[i]), tx, ty, tx - old(lastTouch.x), ty - old(lastTouch.y))
    {
      var dx := tx - lastTouch.x;
      var dy := ty - lastTouch.y;
      var i := 0;
      while i < |particles|
        invariant 0 <= i <= |particles| == old(|particles|)
        invariant forall j :: 0 <= j < i ==> particles[j] == Nudge(old(particles[j]), tx, ty, dx, dy)
        invariant forall j :: i <= j < |particles| ==> particles[j] == old(particles[j])
        invariant Valid()
      {
        NudgeKeepsWellFormed(particles[i], tx, ty, dx, dy);
        particles := particles[i := Nudge(particles[i], tx, ty, dx, dy)];
        i := i + 1;
      }
      lastTouch := Point(tx, ty);
    }

    /**
     * One tick of spawnTextParticles' interval: below eight text particles,
     * appends one with the next id; otherwise nothing changes.
     */
    method SpawnTick(d: TextDraws)
      requires Valid() && colors != [] && d.Valid()
      modifies this`textParticles, this`textParticleId
      ensures Valid()
      ensures old(|textParticles|) < MaxTextParticles ==>
                textParticles == old(textParticles) + [NewTextParticle(old(textParticleId), d, colors, width, height)]
                && textParticleId == old(textParticleId) + 1
      ensures old(|textParticles|) >= MaxTextParticles ==>
                textParticles == old(textParticles) && textParticleId == old(textParticleId)
    {
      if |textParticles| < MaxTextParticles {
        var textParticle := NewTextParticle(textParticleId, d, colors, width, height);
        textParticleId := textParticleId + 1;
        textParticles := textParticles + [textParticle];
      }
    }

    /** updateTextParticles: every text particle moves and fades in by one step; the count and ids stay. */
    method UpdateTextParticles()
      requires Valid()
      modifies this`textParticles
      ensures Valid()
      ensures |textParticles| == old(|textParticles|)
      ensures forall i :: 0 <= i < |textParticles| ==> textParticles[i] == TextStep(old(textParticles[i]), width, height)
    {
      var current := textParticles;
      var w, h := width, height;
      textParticles := seq(|current|, i requires 0 <= i < |current| => TextStep(current[i], w, h));
      assert forall i :: 0 <= i < |textParticles| ==> textParticles[i].id == current[i].id;
    }

    /**
     * One call of startAnimation's animate: without a drawing context it
     * returns at once and schedules no further frame; otherwise it updates
     * the shape particles and the text particles (drawing aside) and
     * schedules the next frame.
     */
    method Animate(refill: seq<Draws>) returns (scheduled: bool)
      requires Valid() && colors != []
      requires |refill| >= MinParticles && forall j :: 0 <= j < |refill| ==> refill[j].Valid()
      modifies this`particles, this`textParticles
      ensures Valid()
      ensures scheduled == hasContext
      ensures !hasContext ==> particles == old(particles) && textParticles == old(textParticles)
      ensures hasContext ==>
                && particles == Refilled(Survivors(old(particles), width, height), refill, colors, width, height)
                && |textParticles| == old(|textParticles|)
                && forall i :: 0 <= i < |textParticles| ==> textParticles[i] == TextStep(old(textParticles[i]), width, height)
    {
      if !hasContext {
        return false;
      }
      AdvanceFrame(refill);
      return true;
    }

    /** The updates of one animation frame: updateParticles, then updateTextParticles. */
    method AdvanceFrame(refill: seq<Draws>)
      requires Valid() && colors != []
      requires |refill| >= MinParticles && forall j :: 0 <= j < |refill| ==> refill[j].Valid()
      modifies this`particles, this`textParticles
      ensures Valid()
      ensures particles == Refilled(Survivors(old(particles), width, height), refill, colors, width, height)
      ensures |textParticles| == old(|textParticles|)
      ensures forall i :: 0 <= i < |textParticles| ==> textParticles[i] == TextStep(old(textParticles[i]), width, height)
    {
      UpdateParticles(refill);
      UpdateTextParticles();
    }

    /**
     * onLoad: initCanvas only sends the canvas query, whose callback
     * (OnCanvasQuery) runs later; then initColors, initParticles over the
     * canvas size as it is at that moment, and the first animate of
     * startAnimation. spawnTextParticles only starts its timer (SpawnTick is
     * one tick of it).
     */
    method OnLoad(paletteDraw: real, draws: seq<Draws>, refill: seq<Draws>) returns (animating: bool)
      requires Valid() && Unit(paletteDraw)
      requires |draws| >= InitialParticles && forall j :: 0 <= j < |draws| ==> draws[j].Valid()
      requires |refill| >= MinParticles && forall j :: 0 <= j < |refill| ==> refill[j].Valid()
      modifies this`colors, this`particles, this`textParticles
      ensures Valid()
      ensures colors == ColorPalettes[Pick(paletteDraw, |ColorPalettes|)]
      ensures animating == hasContext
      ensures !hasContext ==>
                && particles == old(particles) + RandomParticles(draws[..InitialParticles], colors, width, height)
                && textParticles == old(textParticles)
      ensures hasContext ==>
                particles == Refilled(Survivors(old(particles) + RandomParticles(draws[..InitialParticles], colors, width, height),
                                                width, height), refill, colors, width, height)
      ensures hasContext ==>
                && |textParticles| == old(|textParticles|)
                && forall i :: 0 <= i < |textParticles| ==> textParticles[i] == TextStep(old(textParticles[i]), width, height)
    {
      InitColors(paletteDraw);
      InitParticles(draws);
      animating := Animate(refill);
    }

    /**
     * The start-up the page evidently intends: initParticles and
     * startAnimation called from the canvas query's callback, once the
     * canvas has its size and the drawing context exists. The animation then
     * runs, and the initial particles are drawn over the sized canvas
     * (RandomParticlesOnCanvas).
     */
    method OnCanvasReady(size: Size, draws: seq<Draws>, refill: seq<Draws>) returns (animating: bool)
      requires Valid() && colors != []
      requires |draws| >= InitialParticles && forall j :: 0 <= j < |draws| ==> draws[j].Valid()
      requires |refill| >= MinParticles && forall j :: 0 <= j < |refill| ==> refill[j].Valid()
      modifies this`width, this`height, this`hasContext, this`particles, this`textParticles
      ensures Valid()
      ensures animating && hasContext && width == size.width && height == size.height
      ensures particles == Refilled(Survivors(old(particles) + RandomParticles(draws[..InitialParticles], colors, width, height),
                                              width, height), refill, colors, width, height)
      ensures |textParticles| == old(|textParticles|)
      ensures forall i :: 0 <= i < |textParticles| ==> textParticles[i] == TextStep(old(textParticles[i]), width, height)
    {
      OnCanvasQuery(Some(size));
      InitParticles(draws);
      animating := Animate(refill);
    }
  }

  /**
   * The page as onLoad leaves it: the canvas query has not answered yet, so
   * the first animate finds no drawing context and schedules no frame, and
   * the 50 initial particles all start at (0, 0) of the 0 x 0 canvas.
   */
  method LoadPage(paletteDraw: real, draws: seq<Draws>, refill: seq<Draws>) returns (page: ParticlePage, animating: bool)
    requires Unit(paletteDraw)
    requires |draws| >= InitialParticles && forall j :: 0 <= j < |draws| ==> draws[j].Valid()
    requires |refill| >= MinParticles && forall j :: 0 <= j < |refill| ==> refill[j].Valid()
    ensures fresh(page) && page.Valid()
    ensures !animating && !page.hasContext
    ensures |page.particles| == InitialParticles
    ensures forall i :: 0 <= i < |page.particles| ==> page.particles[i].x == 0.0 && page.particles[i].y == 0.0
  {
    page := new ParticlePage();
    animating := page.OnLoad(paletteDraw, draws, refill);
    UnsizedCanvasPlacesAtOrigin(draws[..InitialParticles], page.colors);
  }

  /** Over a 0 x 0 canvas every random particle starts at (0, 0). */
  lemma UnsizedCanvasPlacesAtOrigin(draws: seq<Draws>, colors: seq<string>)
    requires colors != [] && forall j :: 0 <= j < |draws| ==> draws[j].Valid()
    ensures forall j :: 0 <= j < |draws| ==>
              RandomParticles(draws, colors, 0.0, 0.0)[j].x == 0.0 && RandomParticles(draws, colors, 0.0, 0.0)[j].y == 0.0
  {
  }

  /** Over a sized canvas every random particle starts on the canvas. */
  lemma RandomParticlesOnCanvas(draws: seq<Draws>, colors: seq<string>, width: real, height: real)
    requires colors != [] && forall j :: 0 <= j < |draws| ==> draws[j].Valid()
    requires width > 0.0 && height > 0.0
    ensures forall j :: 0 <= j < |draws| ==>
              && 0.0 <= RandomParticles(draws, colors, width, height)[j].x < width
              && 0.0 <= RandomParticles(draws, colors, width, height)[j].y < height
  {
    var ps := RandomParticles(draws, colors, width, height);
    forall j | 0 <= j < |draws|
      ensures 0.0 <= ps[j].x < width && 0.0 <= ps[j].y < height
    {
      var d := draws[j];
      assert ps[j] == CreateParticle(None, None, None, None, d, colors, width, height);
      assert ps[j].x == d.x * width && ps[j].y == d.y * height;
      ScaledUnit(d.x, width);
      ScaledUnit(d.y, height);
    }
  }

  /** The Math.random() values splitParticles uses for one particle of a burst. */
  datatype SplitDraws = SplitDraws(speed: real, size: real, color: real, base: Draws)
  {
    predicate Valid()
    {
      Unit(speed) && Unit(size) && Unit(color) && base.Valid()
    }
  }

  /** Math.random() * 4 + 2: the speed of a burst particle. */
  function BurstSpeed(r: real): (speed: real)
    requires Unit(r)
    ensures 2.0 <= speed < 6.0
  {
    r * 4.0 + 2.0
  }

  /** Burst particle: createParticle at the touch with a given size and colour, then velocity and decay set. */
  function Burst(x: real, y: real, d: SplitDraws, direction: Point, colors: seq<string>, width: real, height: real): (p: Particle)
    requires d.Valid() && colors != []
    ensures WellFormed(p) && p.trail == [] && p.life == 1.0
    ensures p.x == OrElse(Some(x), d.base.x * width) && p.y == OrElse(Some(y), d.base.y * height)
    ensures 5.0 <= p.size == p.targetSize < 20.0 && p.color in colors
    ensures p.decay == SplitDecay
    ensures p.vx == direction.x * BurstSpeed(d.speed) && p.vy == direction.y * BurstSpeed(d.speed)
  {
    var speed := BurstSpeed(d.speed);
    var color := colors[Pick(d.color, |colors|)];
    var particle := CreateParticle(Some(x), Some(y), Some(d.size * 15.0 + 5.0), Some(color), d.base, colors, width, height);
    particle.(vx := direction.x * speed, vy := direction.y * speed, decay := SplitDecay)
  }
}
