/** Snow particles: the two variants, how one is created from random draws,
    and how one frame moves it. */
module Particles {

  /** The values that successive calls of Math.random() return, each in [0, 1).
      A particle is drawn from a position `k` of the stream onwards. */
  type RandomStream = f: nat -> real | forall n :: 0.0 <= f(n) < 1.0 witness (n: nat) => 0.0

  /** A value together with the stream position after the draws that produced it. */
  datatype Drawn<T> = Drawn(value: T, next: nat)

  datatype Kind = Flake | Ball

  datatype Particle = Particle(
    kind: Kind,
    x: real,
    y: real,
    size: real,
    speed: real,          // downward speed per normalized tick
    drift: real,          // constant horizontal speed
    swayAmp: real,
    swayFreq: real,
    rotation: real,
    rotationSpeed: real,
    alpha: real)

  /** A pixel dimension of the drawing surface. */
  type Pixels = r: real | 0.0 <= r

  /** The drawing surface's size, as it stands when the frame runs. */
  datatype Canvas = Canvas(width: Pixels, height: Pixels)

  /** What one frame moves particles by: the normalized time delta, the frame's
      timestamp and the sine function used for the sway term. */
  datatype Tick = Tick(dt: real, now: real, sin: real -> real)

  /** A draw below this is a flake, otherwise a ball. */
  const FlakeThreshold: real := 0.85

  /** Math.PI * 2 to 16 significant digits. */
  const TwoPi: real := 6.283185307179586

  const FlakeDraws: nat := 11
  const BallDraws: nat := 9

  /** `rand(min, max)`: scales a draw in [0, 1) onto [lo, hi). */
  function Rand(u: real, lo: real, hi: real): (r: real)
    requires 0.0 <= u < 1.0 && lo <= hi
    ensures lo <= r <= hi
    ensures lo < hi ==> r < hi
  {
    var width := hi - lo;
    ScaleBelow(u, width);
    u * width + lo
  }

  /** A fraction in [0, 1) of a non-negative width lies in [0, width), or is 0 for width 0. */
  lemma ScaleBelow(u: real, d: real)
    requires 0.0 <= u < 1.0 && 0.0 <= d
    ensures 0.0 <= u * d <= d
    ensures 0.0 < d ==> u * d < d
  {
    assert d - u * d == (1.0 - u) * d;
  }

  /** The attribute ranges a particle of each variant is created with; none of
      these attributes changes afterwards. */
  predicate WellFormed(p: Particle) {
    match p.kind
    case Flake =>
      1.2 <= p.size < 4.0 && 0.6 <= p.speed < 2.2 && -0.6 <= p.drift < 0.6 &&
      6.0 <= p.swayAmp < 20.0 && 0.002 <= p.swayFreq < 0.008 &&
      -0.02 <= p.rotationSpeed < 0.02 && 0.7 <= p.alpha < 1.0
    case Ball =>
      8.0 <= p.size < 18.0 && 1.8 <= p.speed < 4.0 && -0.3 <= p.drift < 0.3 &&
      0.0 <= p.swayAmp < 6.0 && 0.001 <= p.swayFreq < 0.004 &&
      p.rotation == 0.0 && p.rotationSpeed == 0.0 && 0.85 <= p.alpha < 1.0
  }

  /** Where a new particle starts: horizontally on the canvas, wholly above its top edge. */
  predicate Entering(p: Particle, width: Pixels) {
    0.0 <= p.x <= width && p.y + p.size < 0.0
  }

  /** Past the bottom edge by more than 50, or more than 100 beyond the left or right edge. */
  predicate OffScreen(p: Particle, c: Canvas) {
    p.y - p.size > c.height + 50.0 || p.x < -100.0 || p.x > c.width + 100.0
  }

  /** `createParticle()`: the variant from the first draw, then one draw per
      attribute in the order the source evaluates them. */
  function CreateParticle(width: Pixels, rng: RandomStream, k: nat): (r: Drawn<Particle>)
    ensures r.value.kind == Flake <==> rng(k) < FlakeThreshold
    ensures r.next == k + (if r.value.kind == Flake then FlakeDraws else BallDraws)
    ensures WellFormed(r.value) && Entering(r.value, width)
    ensures width > 0.0 ==> r.value.x < width
    ensures r.value.kind == Flake ==>
      -50.0 <= r.value.y < -10.0 && 0.0 <= r.value.rotation < TwoPi
    ensures r.value.kind == Ball ==> -100.0 <= r.value.y < -20.0
  {
    var size := if rng(k) < FlakeThreshold then Rand(rng(k + 1), 1.2, 4.0) else Rand(rng(k + 1), 8.0, 18.0);
    var x := Rand(rng(k + 2), 0.0, width);
    if rng(k) < FlakeThreshold then
      Drawn(Particle(Flake, x, Rand(rng(k + 3), -50.0, -10.0), size,
                     Rand(rng(k + 4), 0.6, 2.2), Rand(rng(k + 5), -0.6, 0.6),
                     Rand(rng(k + 6), 6.0, 20.0), Rand(rng(k + 7), 0.002, 0.008),
                     Rand(rng(k + 8), 0.0, TwoPi), Rand(rng(k + 9), -0.02, 0.02),
                     Rand(rng(k + 10), 0.7, 1.0)),
            k + FlakeDraws)
    else
      Drawn(Particle(Ball, x, Rand(rng(k + 3), -100.0, -20.0), size,
                     Rand(rng(k + 4), 1.8, 4.0), Rand(rng(k + 5), -0.3, 0.3),
                     Rand(rng(k + 6), 0.0, 6.0), Rand(rng(k + 7), 0.001, 0.004),
                     0.0, 0.0,
                     Rand(rng(k + 8), 0.85, 1.0)),
            k + BallDraws)
  }

  /** One frame's motion of one particle: fall, drift plus sway, spin. The sway
      uses the already advanced `y`, as the source does. */
  function Move(p: Particle, t: Tick): (q: Particle)
    ensures q == p.(x := q.x, y := q.y, rotation := q.rotation)
    ensures q.y == p.y + p.speed * t.dt
    ensures q.rotation == p.rotation + p.rotationSpeed * t.dt
    ensures WellFormed(p) ==> WellFormed(q)
    ensures WellFormed(p) && p.kind == Ball ==> q.rotation == 0.0
  {
    var y := p.y + p.speed * t.dt;
    var x := p.x + p.drift * t.dt + t.sin((y + t.now * 0.05) * p.swayFreq) * p.swayAmp * (t.dt * 0.6);
    p.(x := x, y := y, rotation := p.rotation + p.rotationSpeed * t.dt)
  }

  /** A particle that has just been created is not off screen, whatever the canvas height. */
  lemma EnteringIsOnScreen(p: Particle, c: Canvas)
    requires WellFormed(p) && Entering(p, c.width)
    ensures !OffScreen(p, c)
  {
  }

  /** A flake at (100, -20) falling with speed 1: after one tick without sway it
      is one unit lower, at the same x, and still on screen. */
  lemma FallingFlakeStaysLive(c: Canvas)
    ensures var p := Particle(Flake, 100.0, -20.0, 2.0, 1.0, 0.0, 10.0, 0.005, 0.0, 0.0, 0.8);
            var q := Move(p, Tick(1.0, 0.0, (a: real) => 0.0));
            q.y == -19.0 && q.x == 100.0 && !OffScreen(q, c)
  {
  }
}
