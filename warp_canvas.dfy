// The warp star field: a fixed pool of stars, advanced in place once per
// animation frame, with a smoothed speed that eases toward a target.
// Numbers are exact reals; every Math.random() call is a caller-supplied
// sample in [0, 1).

module WarpCanvas {

  /** Number of stars the pool is seeded with. */
  const PoolSize: nat := 800

  /** Target speed while accelerating. */
  const WarpSpeed: real := 15.0

  /** The six star colours (rgba prefixes, completed with an alpha when drawn). */
  const Colors: seq<string> := [
    "rgba(100, 180, 255,",
    "rgba(140, 120, 255,",
    "rgba(80, 200, 255,",
    "rgba(180, 140, 255,",
    "rgba(60, 160, 255,",
    "rgba(200, 180, 255,"
  ]

  datatype Star = Star(x: real, y: real, z: real, prevZ: real, color: string)

  /** The four random draws one star of a fresh pool consumes, in call order. */
  datatype Seed = Seed(z: real, x: real, y: real, color: real)

  /** The three random draws a recycled star consumes, in call order. */
  datatype Redraw = Redraw(x: real, y: real, color: real)

  predicate Unit(r: real) { 0.0 <= r < 1.0 }

  predicate UnitSeed(d: Seed) { Unit(d.z) && Unit(d.x) && Unit(d.y) && Unit(d.color) }

  predicate UnitRedraw(d: Redraw) { Unit(d.x) && Unit(d.y) && Unit(d.color) }

  function Min(a: real, b: real): real { if a <= b then a else b }

  function Max(a: real, b: real): real { if a >= b then a else b }

  function Abs(a: real): real { if a < 0.0 then -a else a }

  /** `v` lies in the half-open span [-extent, extent) (the single point 0 when extent is 0). */
  predicate InSpan(v: real, extent: nat)
  {
    -(extent as real) <= v <= extent as real && (v < extent as real || extent == 0)
  }

  /** `(r - 0.5) * extent * 2`: a uniform sample over [-extent, extent). */
  function Spread(r: real, extent: nat): (v: real)
    requires Unit(r)
    ensures InSpan(v, extent)
    ensures r == 0.5 ==> v == 0.0
  {
    var e := extent as real;
    assert -0.5 <= r - 0.5 < 0.5;
    assert (r - 0.5) * e <= 0.5 * e;
    assert -0.5 * e <= (r - 0.5) * e;
    assert e > 0.0 ==> (r - 0.5) * e < 0.5 * e;
    (r - 0.5) * e * 2.0
  }

  /** `Math.floor(r * COLORS.length)`: a uniformly chosen palette index. */
  function PaletteIndex(r: real): (k: nat)
    requires Unit(r)
    ensures k < |Colors|
    ensures k as real <= r * |Colors| as real < k as real + 1.0
  {
    (r * |Colors| as real).Floor
  }

  /** A star fresh from the seeding: depth and streak start together, inside the field. */
  predicate Seeded(s: Star, w: nat, h: nat)
  {
    s.prevZ == s.z && 0.0 <= s.z <= w as real && (s.z < w as real || w == 0) &&
    InSpan(s.x, w) && InSpan(s.y, h) && s.color in Colors
  }

  /** A star just recycled to the far plane: zero-length streak, new position and colour. */
  predicate Respawned(s: Star, w: nat, h: nat)
  {
    s.z == w as real && s.prevZ == w as real &&
    InSpan(s.x, w) && InSpan(s.y, h) && s.color in Colors
  }

  /** The star one iteration of initStars builds from its four draws. */
  function SeedStar(d: Seed, w: nat, h: nat): (s: Star)
    requires UnitSeed(d)
    ensures Seeded(s, w, h)
    ensures s.z == d.z * w as real
  {
    var z := d.z * w as real;
    assert w > 0 ==> z < w as real by {
      if w > 0 { assert d.z * w as real < 1.0 * w as real; }
    }
    Star(Spread(d.x, w), Spread(d.y, h), z, z, Colors[PaletteIndex(d.color)])
  }

  /** initStars: builds `count` stars, one per seed, appended in order. */
  method InitStars(count: nat, w: nat, h: nat, seeds: seq<Seed>) returns (stars: seq<Star>)
    requires |seeds| == count
    requires forall k :: 0 <= k < |seeds| ==> UnitSeed(seeds[k])
    ensures |stars| == count
    ensures forall k :: 0 <= k < count ==> stars[k] == SeedStar(seeds[k], w, h)
    ensures forall k :: 0 <= k < count ==> Seeded(stars[k], w, h)
  {
    stars := [];
    var i := 0;
    while i < count
      invariant 0 <= i <= count
      invariant |stars| == i
      invariant forall k :: 0 <= k < i ==> stars[k] == SeedStar(seeds[k], w, h)
    {
      var d := seeds[i];
      var z := d.z * w as real;
      stars := stars + [Star(Spread(d.x, w), Spread(d.y, h), z, z, Colors[PaletteIndex(d.color)])];
      i := i + 1;
    }
  }

  /** The target the speed eases toward: the warp speed while accelerating, else the cruising speed. */
  function TargetSpeed(speed: real, accelerating: bool): (t: real)
    ensures accelerating ==> t == WarpSpeed
    ensures !accelerating ==> t == speed
  {
    if accelerating then WarpSpeed else speed
  }

  /** Fraction of the remaining gap the speed closes each frame. */
  function LerpFactor(accelerating: bool): (f: real)
    ensures 0.0 < f < 1.0
    ensures accelerating ==> f == 0.04
    ensures !accelerating ==> f == 0.02
  {
    if accelerating then 0.04 else 0.02
  }

  /** One smoothing step `current + (target - current) * lerpFactor`. */
  function Lerp(current: real, target: real, accelerating: bool): (r: real)
    ensures Min(current, target) <= r <= Max(current, target)
    ensures current < target ==> current < r < target
    ensures target < current ==> target < r < current
    ensures accelerating ==> Abs(target - r) == 0.96 * Abs(target - current)
    ensures !accelerating ==> Abs(target - r) == 0.98 * Abs(target - current)
    ensures current >= 0.0 && target >= 0.0 ==> r >= 0.0
  {
    current + (target - current) * LerpFactor(accelerating)
  }

  /** One per-star step of a frame: move closer by twice the speed, recycle at or past the viewer. */
  function StepStar(s: Star, speed: real, w: nat, h: nat, d: Redraw): (r: Star)
    requires UnitRedraw(d)
    ensures w > 0 ==> r.z > 0.0
    ensures r.z >= 0.0
    ensures 0.0 <= s.z <= w as real && speed >= 0.0 ==> r.z <= w as real
    ensures w > 0 && speed >= 0.0 ==> r.prevZ > 0.0
  {
    var moved := s.(prevZ := s.z).(z := s.z - speed * 2.0);
    if moved.z <= 0.0 then
      Star(Spread(d.x, w), Spread(d.y, h), w as real, w as real, Colors[PaletteIndex(d.color)])
    else
      moved
  }

  /** A star was recycled exactly when its stepped depth reached the viewer. */
  lemma StepRecycles(s: Star, speed: real, w: nat, h: nat, d: Redraw)
    requires UnitRedraw(d)
    requires s.z - speed * 2.0 <= 0.0
    ensures Respawned(StepStar(s, speed, w, h, d), w, h)
  {
  }

  /** A star that was not recycled moved closer by twice the speed and kept everything else. */
  lemma StepMoves(s: Star, speed: real, w: nat, h: nat, d: Redraw)
    requires UnitRedraw(d)
    requires s.z - speed * 2.0 > 0.0
    ensures var r := StepStar(s, speed, w, h, d);
      r.prevZ == s.z && r.z == s.z - speed * 2.0 && r.x == s.x && r.y == s.y && r.color == s.color
  {
  }

  /** Star radius scale `max(0.5, (1 - z/w) * 3)`: grows as the star nears the viewer. */
  function Size(z: real, w: nat): (r: real)
    requires w > 0
    ensures r >= 0.5
    ensures 0.0 <= z <= w as real ==> 0.5 <= r <= 3.0
    ensures z == w as real ==> r == 0.5
    ensures z == 0.0 ==> r == 3.0
  {
    Max(0.5, (1.0 - z / w as real) * 3.0)
  }

  /** Star opacity `min(1, (1 - z/w) * 1.5)`: fully opaque near the viewer, invisible at the far plane. */
  function Alpha(z: real, w: nat): (r: real)
    requires w > 0
    ensures r <= 1.0
    ensures 0.0 <= z <= w as real ==> 0.0 <= r <= 1.0
    ensures z == w as real ==> r == 0.0
    ensures z == 0.0 ==> r == 1.0
  {
    Min(1.0, (1.0 - z / w as real) * 1.5)
  }

  /** Nearer stars are drawn at least as large and at least as opaque as farther ones. */
  lemma NearerIsBrighter(z1: real, z2: real, w: nat)
    requires w > 0 && z1 <= z2
    ensures Size(z2, w) <= Size(z1, w)
    ensures Alpha(z2, w) <= Alpha(z1, w)
  {
    DivMonotone(z1, z2, w as real);
  }

  /** Dividing by a positive divisor keeps the order of the dividends. */
  lemma DivMonotone(a: real, b: real, c: real)
    requires c > 0.0 && a <= b
    ensures a / c <= b / c
  {
    assert b / c - a / c == (b - a) / c;
    assert (b - a) / c * c == b - a;
  }

  /** Perspective projection of one coordinate: `(c / depth) * extent * 0.3 + extent / 2`. */
  function Project(c: real, depth: real, extent: nat): (p: real)
    requires depth != 0.0
    ensures c == 0.0 ==> p == extent as real / 2.0
  {
    (c / depth) * extent as real * 0.3 + extent as real / 2.0
  }

  /**
   * Whether the frame draws a streak from the previous to the current projected point:
   * their distance exceeds half a pixel (compared squared, so without a square root).
   */
  function HasStreak(s: Star, w: nat, h: nat): (r: bool)
    requires s.z != 0.0 && s.prevZ != 0.0
    ensures s.z == s.prevZ ==> !r
    ensures s.x == 0.0 && s.y == 0.0 ==> !r
  {
    var dx := Project(s.x, s.z, w) - Project(s.x, s.prevZ, w);
    var dy := Project(s.y, s.z, h) - Project(s.y, s.prevZ, h);
    dx * dx + dy * dy > 0.25
  }

  /** The speed after `n` frames of smoothing toward a fixed target. */
  function Approach(current: real, target: real, accelerating: bool, n: nat): real
  {
    if n == 0 then current else Lerp(Approach(current, target, accelerating, n - 1), target, accelerating)
  }

  /**
   * The gap left after `n` frames from an initial gap `gap`: each frame keeps
   * `1 - lerpFactor` of it, 0.96 while accelerating and 0.98 otherwise.
   */
  function Shrink(gap: real, accelerating: bool, n: nat): real
  {
    if n == 0 then gap
    else if accelerating then 0.96 * Shrink(gap, accelerating, n - 1)
    else 0.98 * Shrink(gap, accelerating, n - 1)
  }

  /** The distance to the target after `n` frames is the initial distance shrunk `n` times. */
  lemma {:induction false} ApproachGap(current: real, target: real, accelerating: bool, n: nat)
    ensures Abs(target - Approach(current, target, accelerating, n)) == Shrink(Abs(target - current), accelerating, n)
  {
    if n > 0 {
      ApproachGap(current, target, accelerating, n - 1);
    }
  }

  /** Below the target, every frame raises the speed and none overshoots. */
  lemma {:induction false} ApproachRisesToward(current: real, target: real, accelerating: bool, n: nat)
    requires current < target
    ensures current <= Approach(current, target, accelerating, n) < target
    ensures Approach(current, target, accelerating, n) < Approach(current, target, accelerating, n + 1)
  {
    if n > 0 {
      ApproachRisesToward(current, target, accelerating, n - 1);
    }
  }

  /** Shrinking for `m` frames and then `n` more is shrinking for `m + n` frames. */
  lemma {:induction false} ShrinkCompose(gap: real, accelerating: bool, m: nat, n: nat)
    ensures Shrink(Shrink(gap, accelerating, m), accelerating, n) == Shrink(gap, accelerating, m + n)
  {
    if n > 0 {
      ShrinkCompose(gap, accelerating, m, n - 1);
    }
  }

  /** Ten accelerating frames keep less than 66.5% of a nonnegative gap (0.96^10 < 0.665). */
  lemma WarpTenFrames(gap: real)
    requires 0.0 <= gap
    ensures 0.0 <= Shrink(gap, true, 10) <= 0.665 * gap
  {
    assert Shrink(gap, true, 1) == 0.96 * gap;
    assert Shrink(gap, true, 2) == 0.9216 * gap;
    assert Shrink(gap, true, 3) == 0.884736 * gap;
    assert Shrink(gap, true, 4) == 0.84934656 * gap;
    assert Shrink(gap, true, 5) == 0.8153726976 * gap;
    assert Shrink(gap, true, 6) == 0.782757789696 * gap;
    assert Shrink(gap, true, 7) == 0.75144747810816 * gap;
    assert Shrink(gap, true, 8) == 0.7213895789838336 * gap;
    assert Shrink(gap, true, 9) == 0.692533995824480256 * gap;
    assert Shrink(gap, true, 10) == 0.66483263599150104576 * gap;
  }

  /** From any speed between the default cruising speed 1 and the warp speed, sixty accelerating frames exceed speed 10. */
  lemma AcceleratedAfterSixtyFrames(start: real)
    requires 1.0 <= start <= WarpSpeed
    ensures Approach(start, WarpSpeed, true, 60) > 10.0
  {
    var gap := WarpSpeed - start;
    ApproachGap(start, WarpSpeed, true, 60);
    // Each block of ten frames keeps at most 66.5% of what is left: 14 -> 9.31 -> 6.2 -> 4.13 -> 2.75 -> 1.83 -> 1.22.
    WarpTenFrames(gap);
    WarpTenFrames(Shrink(gap, true, 10));
    ShrinkCompose(gap, true, 10, 10);
    WarpTenFrames(Shrink(gap, true, 20));
    ShrinkCompose(gap, true, 20, 10);
    WarpTenFrames(Shrink(gap, true, 30));
    ShrinkCompose(gap, true, 30, 10);
    WarpTenFrames(Shrink(gap, true, 40));
    ShrinkCompose(gap, true, 40, 10);
    WarpTenFrames(Shrink(gap, true, 50));
    ShrinkCompose(gap, true, 50, 10);
    assert Shrink(gap, true, 60) < 5.0;
  }

  /**
   * The renderer's state: the canvas extent, the star pool, the smoothed and
   * target speeds, and the `accelerating` value the running animation captured.
   */
  class StarField {
    var width: nat
    var height: nat
    var stars: array<Star>
    var currentSpeed: real
    var targetSpeed: real
    var accelerating: bool

    /** The pool is empty until the first resize and holds exactly PoolSize stars after it. */
    ghost predicate Valid()
      reads this
    {
      stars.Length == 0 || stars.Length == PoolSize
    }

    /** Every star's depth lies between the viewer and the far plane. */
    ghost predicate DepthBounded()
      reads this, stars
    {
      forall k :: 0 <= k < stars.Length ==> 0.0 <= stars[k].z <= width as real
    }

    /** The conditions under which depth stays bounded from frame to frame. */
    ghost predicate Steady()
      reads this, stars
    {
      currentSpeed >= 0.0 && targetSpeed >= 0.0 && DepthBounded()
    }

    /** Both speed refs start at the initial `speed`; the pool starts empty on a default-size canvas. */
    constructor (speed: real)
      ensures Valid() && stars.Length == 0
      ensures currentSpeed == speed && targetSpeed == speed && !accelerating
      ensures width == 300 && height == 150
      ensures speed >= 0.0 ==> Steady()
    {
      width, height := 300, 150;
      stars := new Star[0];
      currentSpeed, targetSpeed := speed, speed;
      accelerating := false;
    }

    /** The target-speed effect: rerun whenever `speed` or `accelerating` changes. */
    method SetTarget(speed: real, accelerating: bool)
      requires Valid()
      modifies this`targetSpeed
      ensures Valid()
      ensures targetSpeed == TargetSpeed(speed, accelerating)
      ensures old(Steady()) && speed >= 0.0 ==> Steady()
    {
      targetSpeed := TargetSpeed(speed, accelerating);
    }

    /**
     * resize: adopt the new viewport extent; seed the pool only when it is
     * empty, otherwise keep every star exactly as it was.
     */
    method Resize(w: nat, h: nat, seeds: seq<Seed>)
      requires Valid()
      requires |seeds| == PoolSize && forall k :: 0 <= k < |seeds| ==> UnitSeed(seeds[k])
      modifies this
      ensures Valid() && stars.Length == PoolSize
      ensures width == w && height == h
      ensures currentSpeed == old(currentSpeed) && targetSpeed == old(targetSpeed)
      ensures accelerating == old(accelerating)
      ensures old(stars.Length) == 0 ==> fresh(stars) && forall k :: 0 <= k < PoolSize ==> stars[k] == SeedStar(seeds[k], w, h)
      ensures old(stars.Length) != 0 ==> stars == old(stars) && stars[..] == old(stars[..])
      ensures old(stars.Length) == 0 ==> DepthBounded()
      ensures old(DepthBounded()) && w >= old(width) ==> DepthBounded()
    {
      width, height := w, h;
      if stars.Length == 0 {
        var pool := InitStars(PoolSize, w, h, seeds);
        stars := new Star[PoolSize](k requires 0 <= k < PoolSize => pool[k]);
      }
    }

    /**
     * The animation effect (re)starting: it captures `accelerating` for its
     * frames, then resizes the canvas to the viewport.
     */
    method Start(accelerating: bool, innerWidth: nat, innerHeight: nat, seeds: seq<Seed>)
      requires Valid()
      requires |seeds| == PoolSize && forall k :: 0 <= k < |seeds| ==> UnitSeed(seeds[k])
      modifies this
      ensures Valid() && stars.Length == PoolSize
      ensures this.accelerating == accelerating
      ensures width == innerWidth && height == innerHeight
      ensures currentSpeed == old(currentSpeed) && targetSpeed == old(targetSpeed)
      ensures old(stars.Length) != 0 ==> stars == old(stars) && stars[..] == old(stars[..])
      ensures old(stars.Length) == 0 ==> fresh(stars) && forall k :: 0 <= k < PoolSize ==> stars[k] == SeedStar(seeds[k], innerWidth, innerHeight)
      ensures old(Steady()) && (old(stars.Length) == 0 || innerWidth >= old(width)) ==> Steady()
    {
      this.accelerating := accelerating;
      Resize(innerWidth, innerHeight, seeds);
    }

    /**
     * The state update of one animation frame: ease the speed toward the
     * target, then step every star in place, each exactly once.
     */
    method Frame(draws: seq<Redraw>)
      requires Valid()
      requires |draws| == stars.Length && forall k :: 0 <= k < |draws| ==> UnitRedraw(draws[k])
      modifies this`currentSpeed, stars
      ensures Valid() && stars.Length == old(stars.Length)
      ensures currentSpeed == Lerp(old(currentSpeed), targetSpeed, accelerating)
      ensures forall k :: 0 <= k < stars.Length ==>
        stars[k] == StepStar(old(stars[k]), currentSpeed, width, height, draws[k])
      ensures width > 0 ==> forall k :: 0 <= k < stars.Length ==> stars[k].z > 0.0
      ensures width > 0 && currentSpeed >= 0.0 ==> forall k :: 0 <= k < stars.Length ==> stars[k].prevZ > 0.0
      ensures old(DepthBounded()) && currentSpeed >= 0.0 ==> DepthBounded()
      ensures old(Steady()) ==> Steady()
    {
      currentSpeed := currentSpeed + (targetSpeed - currentSpeed) * LerpFactor(accelerating);
      for i := 0 to stars.Length
        invariant forall k :: 0 <= k < i ==>
          stars[k] == StepStar(old(stars[k]), currentSpeed, width, height, draws[k])
        invariant forall k :: i <= k < stars.Length ==> stars[k] == old(stars[k])
        invariant currentSpeed == Lerp(old(currentSpeed), targetSpeed, accelerating)
      {
        var star := stars[i];
        star := star.(prevZ := star.z);
        star := star.(z := star.z - currentSpeed * 2.0);
        if star.z <= 0.0 {
          var d := draws[i];
          star := Star(Spread(d.x, width), Spread(d.y, height), width as real, width as real,
                       Colors[PaletteIndex(d.color)]);
        }
        stars[i] := star;
      }
    }
  }
}
