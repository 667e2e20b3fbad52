/** The comet list: a comet is `[x, y, angle, speed]`, spawned at random,
    moved along its heading every frame and dropped once it leaves the
    screen rectangle [0, WIDTH) x [0, HEIGHT). */
module Comets {
  import opened Numeric
  import opened Trig

  /** The probability threshold of `random.random() < 0.005`. */
  const SpawnChance: real := 0.005

  datatype Comet = Comet(x: real, y: real, angle: real, speed: real)

  /** The random values one call of `spawn_comet` draws: `random.random()`,
      `random.randint(0, WIDTH)`, `random.randint(0, HEIGHT)`,
      `random.uniform(0, 2 * math.pi)` and `random.uniform(1, 3)`. */
  datatype CometDraw = CometDraw(roll: real, x: int, y: int, angle: real, speed: real)

  /** The ranges Python's `random` module guarantees for those values
      (`randint` and `uniform` include both ends). */
  predicate FromRandom(d: CometDraw, width: nat, height: nat) {
    0.0 <= d.roll < 1.0 &&
    0 <= d.x <= width && 0 <= d.y <= height &&
    0.0 <= d.angle <= 2.0 * Pi &&
    1.0 <= d.speed <= 3.0
  }

  /** The comets `spawn_comet` appends: one when the roll is below the
      spawn chance, none otherwise. */
  function Spawned(d: CometDraw): (new_: seq<Comet>)
    ensures |new_| <= 1
    ensures |new_| == 1 <==> d.roll < SpawnChance
  {
    if d.roll < SpawnChance then [Comet(d.x as real, d.y as real, d.angle, d.speed)] else []
  }

  /** A spawned comet starts on the closed screen rectangle and moves at a
      speed between 1 and 3 pixels per frame. */
  lemma SpawnedInRange(d: CometDraw, width: nat, height: nat)
    requires FromRandom(d, width, height)
    ensures forall c :: c in Spawned(d) ==>
      0.0 <= c.x <= width as real && 0.0 <= c.y <= height as real &&
      1.0 <= c.speed <= 3.0 && c.angle == d.angle
  {
  }

  /** A step of `speed` scaled by a sine or cosine value `v` in [-1, 1]
      moves at most `speed` either way. */
  lemma StepBound(speed: real, v: real)
    ensures 0.0 <= speed && -1.0 <= v <= 1.0 ==> -speed <= v * speed <= speed
  {
    if 0.0 <= speed && -1.0 <= v <= 1.0 {
      ScaledBound(speed, v, v * speed);
    }
  }

  /** One frame of motion of one comet: one step along its heading `angle`
      (radians); heading and speed never change, and with bounded
      trigonometry the comet moves at most `speed` on each axis. */
  function Move(t: Trig, c: Comet): (m: Comet)
    ensures m.angle == c.angle && m.speed == c.speed
    ensures Bounded(t) && c.speed >= 0.0 ==>
      -c.speed <= m.x - c.x <= c.speed && -c.speed <= m.y - c.y <= c.speed
  {
    StepBound(c.speed, t.cos(c.angle));
    StepBound(c.speed, t.sin(c.angle));
    Comet(c.x + t.cos(c.angle) * c.speed, c.y + t.sin(c.angle) * c.speed, c.angle, c.speed)
  }

  /** Every comet of the list after the `for comet in comets` loop: as
      many comets as before, each keeping its heading and speed. */
  function Moved(t: Trig, cs: seq<Comet>): (ms: seq<Comet>)
    ensures |ms| == |cs|
    ensures forall i :: 0 <= i < |cs| ==> ms[i].angle == cs[i].angle && ms[i].speed == cs[i].speed
  {
    seq(|cs|, i requires 0 <= i < |cs| => Move(t, cs[i]))
  }

  /** Each comet moves independently of the others: moving a
      concatenation moves each part. */
  lemma MovedAppend(t: Trig, a: seq<Comet>, b: seq<Comet>)
    ensures Moved(t, a + b) == Moved(t, a) + Moved(t, b)
  {
    var whole, parts := Moved(t, a + b), Moved(t, a) + Moved(t, b);
    forall i | 0 <= i < |whole|
      ensures whole[i] == parts[i]
    {
      if i < |a| {
        assert (a + b)[i] == a[i];
      } else {
        assert (a + b)[i] == b[i - |a|];
      }
    }
  }

  /** `0 <= c[0] < WIDTH and 0 <= c[1] < HEIGHT`; such a comet's pixel
      `(int(x), int(y))` lies inside the screen. */
  predicate OnScreen(c: Comet, width: nat, height: nat): (on: bool)
    ensures on ==> 0 <= Trunc(c.x) < width && 0 <= Trunc(c.y) < height
  {
    0.0 <= c.x < width as real && 0.0 <= c.y < height as real
  }

  /** `[c for c in comets if 0 <= c[0] < WIDTH and 0 <= c[1] < HEIGHT]`:
      only comets on screen remain, none is made up, and every comet on
      screen is kept. */
  function Survivors(cs: seq<Comet>, width: nat, height: nat): (r: seq<Comet>)
    ensures |r| <= |cs|
    ensures forall c :: c in r ==> c in cs && OnScreen(c, width, height)
    ensures forall c :: c in cs && OnScreen(c, width, height) ==> c in r
  {
    if cs == [] then []
    else (if OnScreen(cs[0], width, height) then [cs[0]] else []) + Survivors(cs[1..], width, height)
  }

  /** Filtering distributes over concatenation: the survivors keep their
      original relative order. */
  lemma {:induction false} SurvivorsAppend(a: seq<Comet>, b: seq<Comet>, width: nat, height: nat)
    ensures Survivors(a + b, width, height) == Survivors(a, width, height) + Survivors(b, width, height)
  {
    if a == [] {
      assert a + b == b;
    } else {
      assert (a + b)[0] == a[0];
      assert (a + b)[1..] == a[1..] + b;
      SurvivorsAppend(a[1..], b, width, height);
    }
  }

  /** Each comet is kept as many times as it occurs when it is on screen,
      and not at all otherwise. */
  lemma {:induction false} SurvivorsCount(cs: seq<Comet>, c: Comet, width: nat, height: nat)
    ensures multiset(Survivors(cs, width, height))[c] ==
      if OnScreen(c, width, height) then multiset(cs)[c] else 0
  {
    if cs != [] {
      SurvivorsCount(cs[1..], c, width, height);
      assert cs == [cs[0]] + cs[1..];
    }
  }

  /** Filtering twice changes nothing: a list of on-screen comets is left
      as it is by `update_comets`' filter. */
  lemma {:induction false} SurvivorsIdempotent(cs: seq<Comet>, width: nat, height: nat)
    requires forall c :: c in cs ==> OnScreen(c, width, height)
    ensures Survivors(cs, width, height) == cs
  {
    if cs != [] {
      SurvivorsIdempotent(cs[1..], width, height);
    }
  }

  /** A comet spawned on the right edge (`x == WIDTH`) or the bottom edge
      (`y == HEIGHT`) whose step does not point back inward is culled by
      the update of the same frame. */
  lemma EdgeSpawnCulled(t: Trig, c: Comet, width: nat, height: nat)
    requires (c.x >= width as real && t.cos(c.angle) * c.speed >= 0.0) ||
             (c.y >= height as real && t.sin(c.angle) * c.speed >= 0.0)
    ensures Survivors(Moved(t, [c]), width, height) == []
  {
    assert Moved(t, [c]) == [Move(t, c)];
  }

  /** The converse: a comet, on an edge or not, whose step lands inside
      the screen survives the update of the same frame. */
  lemma InwardSpawnKept(t: Trig, c: Comet, width: nat, height: nat)
    requires OnScreen(Move(t, c), width, height)
    ensures Survivors(Moved(t, [c]), width, height) == [Move(t, c)]
  {
    assert Moved(t, [c]) == [Move(t, c)];
  }

  /** In a frame that spawns a comet on the right or bottom edge heading
      outward, the comet list after the update is the one the frame would
      have left without spawning. */
  lemma EdgeSpawnIgnored(t: Trig, cs: seq<Comet>, d: CometDraw, width: nat, height: nat)
    requires d.roll < SpawnChance
    requires (d.x >= width && t.cos(d.angle) * d.speed >= 0.0) ||
             (d.y >= height && t.sin(d.angle) * d.speed >= 0.0)
    ensures Survivors(Moved(t, cs + Spawned(d)), width, height) == Survivors(Moved(t, cs), width, height)
  {
    var c := Comet(d.x as real, d.y as real, d.angle, d.speed);
    assert c.x >= width as real || c.y >= height as real by {
      if d.x >= width {
        assert d.x as real >= width as real;
      } else {
        assert d.y as real >= height as real;
      }
    }
    EdgeSpawnCulled(t, c, width, height);
    var kept := Survivors(Moved(t, cs), width, height);
    assert Spawned(d) == [c];
    MovedAppend(t, cs, [c]);
    SurvivorsAppend(Moved(t, cs), Moved(t, [c]), width, height);
    assert kept + [] == kept;
  }

  /** One frame's comet handling, `spawn_comet()` then `update_comets()`:
      the list grows by at most the one spawned comet, and every comet left
      lies inside the screen rectangle. */
  lemma FrameComets(t: Trig, cs: seq<Comet>, d: CometDraw, width: nat, height: nat)
    ensures |Survivors(Moved(t, cs + Spawned(d)), width, height)| <= |cs| + 1
    ensures forall c :: c in Survivors(Moved(t, cs + Spawned(d)), width, height) ==> OnScreen(c, width, height)
  {
  }
}
