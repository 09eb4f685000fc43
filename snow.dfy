/** The snow particle pool: pre-fill, and the per-frame spawn, reverse pass,
    removal and replacement. */
module Snow {
  import opened Particles

  const MaxParticles: nat := 250
  const PreFillCount: nat := 80
  /** A frame under the cap spawns one particle when its draw is below this. */
  const SpawnChance: real := 0.6
  /** Milliseconds of one nominal 60 fps tick; elapsed time is divided by it. */
  const FrameInterval: real := 16.6667

  /** The three per-particle operations of one frame: how a particle moves,
      when it has left the screen, and how a new one is created from a
      position of the random stream. The pass and the pool are stated over
      these, so that their proofs never unfold the arithmetic of one particle. */
  datatype Step = Step(move: Particle -> Particle, exits: Particle -> bool, create: nat -> Drawn<Particle>)

  /** `createParticle()` on a canvas of the given width, as a function of the stream position. */
  function Creator(width: Pixels, rng: RandomStream): nat -> Drawn<Particle> {
    (j: nat) => CreateParticle(width, rng, j)
  }

  /** The operations of a frame with tick `t` on canvas `c`. */
  function FrameStep(t: Tick, c: Canvas, rng: RandomStream): Step {
    Step(p => Move(p, t), p => OffScreen(p, c), Creator(c.width, rng))
  }

  predicate AllWellFormed(ps: seq<Particle>) {
    forall j :: 0 <= j < |ps| ==> WellFormed(ps[j])
  }

  predicate AllOnScreen(ps: seq<Particle>, c: Canvas) {
    forall j :: 0 <= j < |ps| ==> !OffScreen(ps[j], c)
  }

  /** `count` particles created one after another from position `k` of the
      stream, in creation order. */
  function Fresh(create: nat -> Drawn<Particle>, k: nat, count: nat): (r: Drawn<seq<Particle>>)
    ensures |r.value| == count
    decreases count, k  // `k` is listed so a call with a constant count is not unrolled eagerly
  {
    if count == 0 then Drawn([], k)
    else
      var d := create(k);
      var rest := Fresh(create, d.next, count - 1);
      Drawn([d.value] + rest.value, rest.next)
  }

  /** The particles of `ps` that a frame moves and keeps, in their original order. */
  function Survivors(ps: seq<Particle>, s: Step): (r: seq<Particle>)
    ensures |r| <= |ps|
    ensures forall j :: 0 <= j < |r| ==> !s.exits(r[j])
  {
    if ps == [] then []
    else
      var q := s.move(ps[|ps| - 1]);
      Survivors(ps[..|ps| - 1], s) + (if s.exits(q) then [] else [q])
  }

  /** One iteration of the reverse pass at index `i`: move the particle; if it
      has left the screen, splice it out and, below the cap, push a replacement. */
  function Visit(ps: seq<Particle>, i: nat, s: Step, k: nat): (r: Drawn<seq<Particle>>)
    requires i < |ps|
    ensures |ps| - 1 <= |r.value| <= |ps|
    ensures |ps| <= MaxParticles ==> |r.value| == |ps|
    ensures r.value[..i] == ps[..i]
  {
    var moved := ps[i := s.move(ps[i])];
    if s.exits(moved[i]) then
      var spliced := moved[..i] + moved[i + 1..];
      if |spliced| < MaxParticles then
        var d := s.create(k);
        Drawn(spliced + [d.value], d.next)
      else
        Drawn(spliced, k)
    else
      Drawn(moved, k)
  }

  /** The reverse pass over indices n - 1 down to 0. */
  function Pass(ps: seq<Particle>, n: nat, s: Step, k: nat): (r: Drawn<seq<Particle>>)
    requires n <= |ps|
    ensures |ps| - n <= |r.value| <= |ps|
    ensures |ps| <= MaxParticles ==> |r.value| == |ps|
    decreases n
  {
    if n == 0 then Drawn(ps, k)
    else
      var v := Visit(ps, n - 1, s, k);
      Pass(v.value, n - 1, s, v.next)
  }

  /** The spawn step at the start of a frame: the chance is drawn only under
      the cap, and a hit appends one created particle. */
  function Spawn(ps: seq<Particle>, rng: RandomStream, create: nat -> Drawn<Particle>, k: nat): (r: Drawn<seq<Particle>>)
    ensures |ps| <= |r.value| <= |ps| + 1
    ensures r.value[..|ps|] == ps
    ensures |r.value| == |ps| + 1 <==> |ps| < MaxParticles && rng(k) < SpawnChance
    ensures |r.value| == |ps| + 1 ==> r.value[|ps|] == create(k + 1).value && r.next == create(k + 1).next
    ensures |ps| >= MaxParticles ==> r.next == k
    ensures |ps| < MaxParticles && rng(k) >= SpawnChance ==> r.next == k + 1
  {
    if |ps| < MaxParticles && rng(k) < SpawnChance then
      var d := create(k + 1);
      Drawn(ps + [d.value], d.next)
    else if |ps| < MaxParticles then
      Drawn(ps, k + 1)
    else
      Drawn(ps, k)
  }

  /** The tick of a frame at `now` after one at `lastTime`: elapsed time in nominal 60 fps ticks. */
  function TickAt(lastTime: real, now: real, sin: real -> real): (t: Tick)
    ensures t.dt * FrameInterval == now - lastTime && t.now == now
  {
    Tick((now - lastTime) / FrameInterval, now, sin)
  }

  /** One call of `updateAndDraw`, with tick `t`, on the particle sequence. */
  function FrameResult(ps: seq<Particle>, t: Tick, c: Canvas, rng: RandomStream, k: nat): (r: Drawn<seq<Particle>>)
    ensures |ps| <= MaxParticles ==> |r.value| <= MaxParticles
    ensures |ps| <= MaxParticles ==> (|r.value| == |ps| + 1 <==> |ps| < MaxParticles && rng(k) < SpawnChance)
    ensures |ps| <= MaxParticles ==> |r.value| == |ps| || |r.value| == |ps| + 1
  {
    var s := FrameStep(t, c, rng);
    var spawned := Spawn(ps, rng, s.create, k);
    Pass(spawned.value, |spawned.value|, s, spawned.next)
  }

  /** The first iteration of the reverse pass over unvisited prefix `pre` and
      processed tail `post`: the last particle of `pre` is moved; if it left
      the screen it is dropped and a replacement joins the tail, otherwise the
      moved particle joins the front of the tail. */
  lemma VisitLast(pre: seq<Particle>, post: seq<Particle>, s: Step, k: nat)
    requires pre != [] && |pre + post| <= MaxParticles
    ensures var i := |pre| - 1;
            var q := s.move(pre[i]);
            var d := s.create(k);
            Pass(pre + post, |pre|, s, k) ==
              if s.exits(q) then Pass(pre[..i] + (post + [d.value]), i, s, d.next)
              else Pass(pre[..i] + ([q] + post), i, s, k)
  {
    var ps := pre + post;
    var i := |pre| - 1;
    var q := s.move(pre[i]);
    assert ps[i] == pre[i];
    var moved := ps[i := q];
    var v := Visit(ps, i, s, k);
    if s.exits(q) {
      var d := s.create(k);
      assert moved[..i] + moved[i + 1..] == pre[..i] + post;
      assert |pre[..i] + post| < MaxParticles && moved[i] == q;
      assert (pre[..i] + post) + [d.value] == pre[..i] + (post + [d.value]);
      assert v == Drawn(pre[..i] + (post + [d.value]), d.next);
    } else {
      assert moved == pre[..i] + ([q] + post);
      assert v == Drawn(moved, k);
    }
  }

  /** When the last particle of `pre` leaves the screen it is not among the
      survivors, and its replacement is the first of the fresh particles. */
  lemma DroppedStep(pre: seq<Particle>, post: seq<Particle>, s: Step, k: nat)
    requires pre != [] && s.exits(s.move(pre[|pre| - 1]))
    ensures var kept := Survivors(pre[..|pre| - 1], s);
            var d := s.create(k);
            var rest := Fresh(s.create, d.next, |pre| - 1 - |kept|);
            && Survivors(pre, s) == kept
            && Fresh(s.create, k, |pre| - |kept|) == Drawn([d.value] + rest.value, rest.next)
            && kept + (post + [d.value]) + rest.value == kept + post + ([d.value] + rest.value)
  {
    var kept := Survivors(pre[..|pre| - 1], s);
    assert Survivors(pre, s) == kept + [];
  }

  /** When the last particle of `pre` stays on screen it is the last survivor. */
  lemma KeptStep(pre: seq<Particle>, post: seq<Particle>, s: Step)
    requires pre != [] && !s.exits(s.move(pre[|pre| - 1]))
    ensures var kept := Survivors(pre[..|pre| - 1], s);
            var q := s.move(pre[|pre| - 1]);
            && Survivors(pre, s) == kept + [q]
            && kept + ([q] + post) == kept + [q] + post
  {
  }

  /** The reverse pass with unvisited prefix `pre` and already processed tail
      `post`: every particle of `pre` is moved once and kept or dropped,
      `post` is left as it is, and each dropped particle is followed by one
      fresh replacement, appended in creation order. */
  lemma {:induction false} PassSplit(pre: seq<Particle>, post: seq<Particle>, s: Step, k: nat)
    requires |pre + post| <= MaxParticles
    ensures var kept := Survivors(pre, s);
            var added := Fresh(s.create, k, |pre| - |kept|);
            Pass(pre + post, |pre|, s, k) == Drawn(kept + post + added.value, added.next)
    decreases |pre|
  {
    if pre != [] {
      var front := pre[..|pre| - 1];
      VisitLast(pre, post, s, k);
      if s.exits(s.move(pre[|pre| - 1])) {
        var d := s.create(k);
        PassSplit(front, post + [d.value], s, d.next);
        DroppedStep(pre, post, s, k);
      } else {
        PassSplit(front, [s.move(pre[|pre| - 1])] + post, s, k);
        KeptStep(pre, post, s);
      }
    } else {
      assert pre + post == post && Survivors(pre, s) == [];
      assert Fresh(s.create, k, 0) == Drawn([], k);
      assert [] + post + [] == post;
    }
  }

  /** The whole reverse pass over a pool within the cap: the moved particles
      that stay on screen, in their order, followed by one fresh particle per
      removed one, so the pool keeps its length. */
  lemma PassShape(ps: seq<Particle>, s: Step, k: nat)
    requires |ps| <= MaxParticles
    ensures var kept := Survivors(ps, s);
            var added := Fresh(s.create, k, |ps| - |kept|);
            Pass(ps, |ps|, s, k) == Drawn(kept + added.value, added.next)
    ensures |Pass(ps, |ps|, s, k).value| == |ps|
  {
    assert ps + [] == ps;
    PassSplit(ps, [], s, k);
    assert Survivors(ps, s) + [] == Survivors(ps, s);
  }

  /** Every created particle has its variant's ranges and enters from above the canvas. */
  lemma {:induction false} FreshWellFormed(width: Pixels, rng: RandomStream, k: nat, count: nat)
    ensures var r := Fresh(Creator(width, rng), k, count).value;
            AllWellFormed(r) && forall j :: 0 <= j < |r| ==> Entering(r[j], width)
    decreases count
  {
    if count > 0 {
      var d := CreateParticle(width, rng, k);
      FreshWellFormed(width, rng, d.next, count - 1);
    }
  }

  /** Moving keeps every particle within its variant's ranges, so the survivors keep them too. */
  lemma {:induction false} SurvivorsWellFormed(ps: seq<Particle>, t: Tick, c: Canvas, rng: RandomStream)
    requires AllWellFormed(ps)
    ensures AllWellFormed(Survivors(ps, FrameStep(t, c, rng)))
  {
    if ps != [] {
      SurvivorsWellFormed(ps[..|ps| - 1], t, c, rng);
    }
  }

  /** The spawn step adds at most one particle, exactly when the pool is under
      the cap and the draw hits, and it adds a well-formed one. */
  lemma SpawnKeeps(ps: seq<Particle>, width: Pixels, rng: RandomStream, k: nat)
    requires AllWellFormed(ps)
    ensures var r := Spawn(ps, rng, Creator(width, rng), k).value;
            && (|r| == |ps| + 1 <==> |ps| < MaxParticles && rng(k) < SpawnChance)
            && (|r| == |ps| || |r| == |ps| + 1)
            && AllWellFormed(r)
  {
    if |ps| < MaxParticles && rng(k) < SpawnChance {
      var d := CreateParticle(width, rng, k + 1);
      assert Spawn(ps, rng, Creator(width, rng), k).value == ps + [d.value];
    }
  }

  /** After the reverse pass over a pool within the cap, the pool has its old
      length, every particle is within its variant's ranges and none is off screen. */
  lemma PassKeeps(ps: seq<Particle>, t: Tick, c: Canvas, rng: RandomStream, k: nat)
    requires |ps| <= MaxParticles && AllWellFormed(ps)
    ensures var r := Pass(ps, |ps|, FrameStep(t, c, rng), k).value;
            |r| == |ps| && AllWellFormed(r) && AllOnScreen(r, c)
  {
    var s := FrameStep(t, c, rng);
    PassShape(ps, s, k);
    SurvivorsWellFormed(ps, t, c, rng);
    var kept := Survivors(ps, s);
    var added := Fresh(s.create, k, |ps| - |kept|).value;
    FreshWellFormed(c.width, rng, k, |ps| - |kept|);
    var r := kept + added;
    forall j | 0 <= j < |r| ensures !OffScreen(r[j], c) && WellFormed(r[j]) {
      if j < |kept| {
        assert !s.exits(kept[j]);
      } else {
        EnteringIsOnScreen(added[j - |kept|], c);
      }
    }
  }

  /** What a frame keeps true of the pool, and how much it can grow: at most
      one particle, exactly when it is under the cap and the spawn draw hits;
      afterwards every particle has its variant's attribute ranges and none is
      off screen. */
  lemma FrameInvariant(ps: seq<Particle>, t: Tick, c: Canvas, rng: RandomStream, k: nat)
    requires |ps| <= MaxParticles && AllWellFormed(ps)
    ensures var r := FrameResult(ps, t, c, rng, k).value;
            && |r| <= MaxParticles
            && (|r| == |ps| + 1 <==> |ps| < MaxParticles && rng(k) < SpawnChance)
            && (|r| == |ps| || |r| == |ps| + 1)
            && AllWellFormed(r)
            && AllOnScreen(r, c)
  {
    var spawned := Spawn(ps, rng, Creator(c.width, rng), k);
    SpawnKeeps(ps, c.width, rng, k);
    PassKeeps(spawned.value, t, c, rng, spawned.next);
  }

  /** The particle pool of a running effect: the array `particles` and the time of the last frame. */
  class Pool {
    var particles: seq<Particle>
    var lastTime: real

    ghost predicate Valid()
      reads this
    {
      |particles| <= MaxParticles && AllWellFormed(particles)
    }

    /** An empty pool whose clock starts at `startTime` (`performance.now()`). */
    constructor (startTime: real)
      ensures particles == [] && lastTime == startTime
    {
      particles := [];
      lastTime := startTime;
    }

    /** The pre-fill loop, run once on the empty pool: pushes `PreFillCount`
        particles made by `create` (`createParticle`, as given by `Creator`)
        from stream position `k` on. */
    method PreFill(create: nat -> Drawn<Particle>, k: nat) returns (next: nat)
      requires particles == []
      modifies this`particles
      ensures particles == Fresh(create, k, PreFillCount).value
      ensures next == Fresh(create, k, PreFillCount).next
    {
      next := k;
      for i := 0 to PreFillCount
        invariant particles + Fresh(create, next, PreFillCount - i).value
               == Fresh(create, k, PreFillCount).value
        invariant Fresh(create, next, PreFillCount - i).next == Fresh(create, k, PreFillCount).next
      {
        var d := create(next);
        ghost var rest := Fresh(create, d.next, PreFillCount - i - 1);
        assert particles + [d.value] + rest.value == particles + ([d.value] + rest.value);
        particles := particles + [d.value];
        next := d.next;
      }
    }

    /** `updateAndDraw(now)`: normalizes the elapsed time, records `now`,
        maybe spawns one particle, then runs the reverse pass. Clearing and
        drawing the canvas are not modelled. */
    method Frame(now: real, c: Canvas, sin: real -> real, rng: RandomStream, k: nat) returns (next: nat)
      requires Valid()
      modifies this
      ensures Valid()
      ensures lastTime == now
      ensures Drawn(particles, next) == FrameResult(old(particles), TickAt(old(lastTime), now, sin), c, rng, k)
      ensures |particles| == |old(particles)| || |particles| == |old(particles)| + 1
      ensures AllOnScreen(particles, c)
    {
      var t := TickAt(lastTime, now, sin);
      lastTime := now;
      next := SpawnOne(c.width, rng, k);
      next := ReversePass(FrameStep(t, c, rng), next);
      FrameInvariant(old(particles), t, c, rng, k);
    }

    /** The spawn at the top of `updateAndDraw`: under the cap, draw the chance,
        and on a hit push one created particle. */
    method SpawnOne(width: Pixels, rng: RandomStream, k: nat) returns (next: nat)
      modifies this`particles
      ensures Drawn(particles, next) == Spawn(old(particles), rng, Creator(width, rng), k)
    {
      next := k;
      if |particles| < MaxParticles {
        var chance := rng(next);
        next := next + 1;
        if chance < SpawnChance {
          var d := CreateParticle(width, rng, next);
          particles := particles + [d.value];
          next := d.next;
        }
      }
    }

    /** The reverse `for` loop of `updateAndDraw`, with the frame's operations `s`:
        move particle i, and if it has left the screen splice it out and, below
        the cap, push a replacement. */
    method ReversePass(s: Step, k: nat) returns (next: nat)
      modifies this`particles
      ensures Drawn(particles, next) == Pass(old(particles), |old(particles)|, s, k)
    {
      next := k;
      var i := |particles| - 1;
      while i >= 0
        invariant -1 <= i < |particles|
        invariant Pass(particles, i + 1, s, next) == Pass(old(particles), |old(particles)|, s, k)
      {
        ghost var visit := Visit(particles, i, s, next);
        var p := s.move(particles[i]);
        particles := particles[i := p];
        if s.exits(p) {
          particles := particles[..i] + particles[i + 1..];
          if |particles| < MaxParticles {
            var d := s.create(next);
            particles := particles + [d.value];
            next := d.next;
          }
        }
        assert Drawn(particles, next) == visit;
        i := i - 1;
      }
    }
  }
}
