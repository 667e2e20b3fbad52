/** What one frame draws, as an abstract log of marks. The rendering
    library is not modelled: a filled circle (`Polygon.circle` drawn under a
    translating `Transform`) becomes a `Disc` at its screen centre, and
    `display.pixel` becomes a `Pixel`. The functions here describe the marks
    each drawing routine appends, in order. */
module Render {
  import opened Numeric
  import opened Trig
  import opened Bodies
  import opened Comets

  datatype Body = Sun | Planet(index: nat) | Moon(index: nat)

  datatype Mark = Disc(body: Body, x: int, y: int, radius: nat) | Pixel(x: int, y: int)

  /** The sun's polygon is a circle of radius 25. */
  const SunRadius: nat := 25

  /** `draw_orbits` samples `range(0, 360, 10)`. */
  const OrbitStep: nat := 10
  const OrbitSamples: nat := 36

  /** `int(radius * TABLE[index])`: the screen offset of a point at
      distance `radius` along a table-sampled direction; it never exceeds
      the radius on either side. */
  function Reach(radius: nat, table: seq<real>, index: nat): (d: int)
    requires UnitTable(table) && index < TableSize
    ensures -(radius as int) <= d <= radius
  {
    ScaledTruncBound(radius as real, table[index]);
    Trunc(radius as real * table[index])
  }

  // ---------------------------------------------------------------------
  // draw_moons

  /** The disc of moon `j` at (already advanced) angle `angle` around the
      parent position (`px`, `py`). */
  function MoonDisc(j: nat, angle: real, px: int, py: int, t: Tables): (m: Mark)
    requires j < |Moons| && t.Valid() && 0.0 <= angle < 360.0
    ensures MoonNear(m, px, py) && m.body == Moon(j)
  {
    var index := TableIndex(angle);
    Disc(Moon(j), px + Reach(Moons[j].radius, t.cos, index),
         py + Reach(Moons[j].radius, t.sin, index), Moons[j].size)
  }

  /** `m` is the disc of a moon lying within that moon's orbit radius, on
      each axis, of the point (`px`, `py`). */
  predicate MoonNear(m: Mark, px: int, py: int) {
    m.Disc? && m.body.Moon? && m.body.index < |Moons| &&
    -(Moons[m.body.index].radius as int) <= m.x - px <= Moons[m.body.index].radius &&
    -(Moons[m.body.index].radius as int) <= m.y - py <= Moons[m.body.index].radius
  }

  /** The discs of the moons `js`, in that order, around (`px`, `py`),
      each at its advanced angle and within its orbit radius of that
      point. */
  function MoonDiscs(js: seq<nat>, px: int, py: int, angles: seq<real>, t: Tables): (discs: seq<Mark>)
    requires t.Valid() && |angles| == |Moons|
    requires forall k :: 0 <= k < |js| ==> js[k] < |Moons|
    ensures |discs| == |js|
    ensures forall k :: 0 <= k < |js| ==> MoonNear(discs[k], px, py) && discs[k].body == Moon(js[k])
  {
    seq(|js|, k requires 0 <= k < |js| =>
      MoonDisc(js[k], Wrap360(angles[js[k]] + Moons[js[k]].speed), px, py, t))
  }

  /** Drawing one more moon appends its disc. */
  lemma MoonDiscsAppend(js: seq<nat>, j: nat, px: int, py: int, angles: seq<real>, t: Tables)
    requires t.Valid() && |angles| == |Moons| && j < |Moons|
    requires forall k :: 0 <= k < |js| ==> js[k] < |Moons|
    ensures MoonDiscs(js + [j], px, py, angles, t) ==
      MoonDiscs(js, px, py, angles, t) + [MoonDisc(j, Wrap360(angles[j] + Moons[j].speed), px, py, t)]
  {
    var js' := js + [j];
    var before, after := MoonDiscs(js, px, py, angles, t), MoonDiscs(js', px, py, angles, t);
    var disc := MoonDisc(j, Wrap360(angles[j] + Moons[j].speed), px, py, t);
    forall k | 0 <= k < |after|
      ensures after[k] == (before + [disc])[k]
    {
      if k < |js| {
        assert js'[k] == js[k];
        assert after[k] == before[k];
        assert (before + [disc])[k] == before[k];
      } else {
        assert js'[k] == j;
        assert after[k] == disc;
      }
    }
    assert after == before + [disc];
  }

  /** The marks `draw_moons(i, px, py)` appends after visiting the first
      `n` rows of MOONS, when the moon angles were `angles` before the
      call: one disc per moon of planet `i`, in table order, at its
      advanced angle, each within its orbit radius of the parent position
      (`px`, `py`). */
  function MoonPass(i: nat, px: int, py: int, angles: seq<real>, t: Tables, n: nat): (pass: seq<Mark>)
    requires t.Valid() && |angles| == |Moons| && n <= |Moons|
    ensures |pass| == |MoonsOf(i, n)|
    ensures forall k :: 0 <= k < |pass| ==>
      MoonNear(pass[k], px, py) && pass[k].body == Moon(MoonsOf(i, n)[k]) && Moons[pass[k].body.index].parent == i
  {
    MoonDiscs(MoonsOf(i, n), px, py, angles, t)
  }

  /** Visiting one more row of MOONS appends that moon's disc when its
      parent is `i`, and nothing otherwise. */
  lemma MoonPassStep(i: nat, px: int, py: int, angles: seq<real>, t: Tables, n: nat)
    requires t.Valid() && |angles| == |Moons| && n < |Moons|
    ensures MoonPass(i, px, py, angles, t, n + 1) ==
      MoonPass(i, px, py, angles, t, n) +
      (if Moons[n].parent == i then [MoonDisc(n, Wrap360(angles[n] + Moons[n].speed), px, py, t)] else [])
  {
    MoonsOfStep(i, n);
    if Moons[n].parent == i {
      MoonDiscsAppend(MoonsOf(i, n), n, px, py, angles, t);
    } else {
      var before := MoonPass(i, px, py, angles, t, n);
      assert MoonPass(i, px, py, angles, t, n + 1) == before;
      assert before + [] == before;
    }
  }

  /** `draw_moons(i, ...)` reads only the angles of the moons of planet `i`. */
  lemma MoonPassReadsOwnMoons(i: nat, px: int, py: int, a: seq<real>, b: seq<real>, t: Tables, n: nat)
    requires t.Valid() && |a| == |Moons| && |b| == |Moons| && n <= |Moons|
    requires forall j :: 0 <= j < n && Moons[j].parent == i ==> a[j] == b[j]
    ensures MoonPass(i, px, py, a, t, n) == MoonPass(i, px, py, b, t, n)
  {
    var js := MoonsOf(i, n);
    forall k | 0 <= k < |js|
      ensures MoonPass(i, px, py, a, t, n)[k] == MoonPass(i, px, py, b, t, n)[k]
    {
      assert a[js[k]] == b[js[k]];
    }
  }

  // ---------------------------------------------------------------------
  // draw_planets

  /** The disc of planet `i` at (already advanced) angle `angle` around the
      drifting sun centre (`ox`, `oy`). */
  function PlanetDisc(i: nat, angle: real, ox: int, oy: int, t: Tables): (m: Mark)
    requires i < |Planets| && t.Valid() && 0.0 <= angle < 360.0
    ensures PlanetNear(m, ox, oy) && m.body == Planet(i)
  {
    var index := TableIndex(angle);
    Disc(Planet(i), ox + Reach(Planets[i].radius, t.cos, index),
         oy + Reach(Planets[i].radius, t.sin, index), Planets[i].size)
  }

  /** `m` is the disc of a planet lying within that planet's orbit radius, on
      each axis, of the point (`ox`, `oy`). */
  predicate PlanetNear(m: Mark, ox: int, oy: int) {
    m.Disc? && m.body.Planet? && m.body.index < |Planets| &&
    -(Planets[m.body.index].radius as int) <= m.x - ox <= Planets[m.body.index].radius &&
    -(Planets[m.body.index].radius as int) <= m.y - oy <= Planets[m.body.index].radius
  }

  /** The marks drawn for planet `i` by one iteration of `draw_planets`:
      its moons (when it has any) around its new position, then its own
      disc, which lies near (`ox`, `oy`) and which every earlier mark of
      the segment orbits. */
  function PlanetSegment(i: nat, planetAngles: seq<real>, moonAngles: seq<real>, ox: int, oy: int, t: Tables): (seg: seq<Mark>)
    requires i < |Planets| == |planetAngles| && |moonAngles| == |Moons| && t.Valid()
    ensures |seg| > 0 && PlanetNear(seg[|seg| - 1], ox, oy) && seg[|seg| - 1].body == Planet(i)
    ensures forall k :: 0 <= k < |seg| - 1 ==> Orbits(seg[k], seg[|seg| - 1])
  {
    var disc := PlanetDisc(i, Wrap360(planetAngles[i] + Planets[i].speed), ox, oy, t);
    (if Planets[i].hasMoons then MoonPass(i, disc.x, disc.y, moonAngles, t, |Moons|) else []) + [disc]
  }

  /** The marks the first `n` iterations of `draw_planets` append, given
      the planet and moon angles before the call: at least one disc per
      planet, and only planet and moon discs, never the sun. */
  function PlanetPass(planetAngles: seq<real>, moonAngles: seq<real>, ox: int, oy: int, t: Tables, n: nat): (pass: seq<Mark>)
    requires n <= |Planets| == |planetAngles| && |moonAngles| == |Moons| && t.Valid()
    ensures |pass| >= n
    ensures forall k :: 0 <= k < |pass| ==> pass[k].Disc? && !pass[k].body.Sun?
  {
    if n == 0 then []
    else PlanetPass(planetAngles, moonAngles, ox, oy, t, n - 1) +
         PlanetSegment(n - 1, planetAngles, moonAngles, ox, oy, t)
  }

  /** One more iteration of `draw_planets` appends that planet's segment:
      its moons (if flagged) around its new disc, then the disc. */
  lemma PlanetPassStep(planetAngles: seq<real>, moonAngles: seq<real>, ox: int, oy: int, t: Tables, i: nat)
    requires i < |Planets| == |planetAngles| && |moonAngles| == |Moons| && t.Valid()
    ensures PlanetPass(planetAngles, moonAngles, ox, oy, t, i + 1) ==
      PlanetPass(planetAngles, moonAngles, ox, oy, t, i) + PlanetSegment(i, planetAngles, moonAngles, ox, oy, t)
    ensures var disc := PlanetDisc(i, Wrap360(planetAngles[i] + Planets[i].speed), ox, oy, t);
      PlanetSegment(i, planetAngles, moonAngles, ox, oy, t) ==
        (if Planets[i].hasMoons then MoonPass(i, disc.x, disc.y, moonAngles, t, |Moons|) else []) + [disc]
  {
  }

  /** Marks drawn before `draw_planets` followed by its first `i`
      iterations and then iteration `i` are its first `i + 1` iterations. */
  lemma PlanetPassExtend(before: seq<Mark>, planetAngles: seq<real>, moonAngles: seq<real>, ox: int, oy: int, t: Tables, i: nat)
    requires i < |Planets| == |planetAngles| && |moonAngles| == |Moons| && t.Valid()
    ensures before + PlanetPass(planetAngles, moonAngles, ox, oy, t, i) + PlanetSegment(i, planetAngles, moonAngles, ox, oy, t)
      == before + PlanetPass(planetAngles, moonAngles, ox, oy, t, i + 1)
  {
  }

  /** `moon` is a moon disc drawn within its orbit radius of `planet`, the
      disc of that moon's parent. */
  predicate Orbits(moon: Mark, planet: Mark) {
    MoonNear(moon, planet.x, planet.y) &&
    planet.Disc? && planet.body == Planet(Moons[moon.body.index].parent)
  }

  /** Every moon disc of `marks` is followed, later in `marks`, by the disc
      of its parent planet, which it orbits. */
  predicate MoonsBeforeParents(marks: seq<Mark>) {
    forall k :: 0 <= k < |marks| && marks[k].Disc? && marks[k].body.Moon? ==>
      exists l :: k < l < |marks| && Orbits(marks[k], marks[l])
  }

  /** Every mark is a disc; the planet discs are of planets below `n`, each
      within its orbit radius of (`ox`, `oy`). */
  predicate PlanetsNear(marks: seq<Mark>, ox: int, oy: int, n: nat) {
    forall k :: 0 <= k < |marks| ==>
      marks[k].Disc? && (marks[k].body.Planet? ==> PlanetNear(marks[k], ox, oy) && marks[k].body.index < n)
  }

  /** Appending a segment whose last mark is a disc that every earlier
      mark of the segment orbits keeps every moon ahead of its parent. */
  lemma ExtendOrder(prev: seq<Mark>, seg: seq<Mark>, disc: Mark)
    requires MoonsBeforeParents(prev)
    requires |seg| > 0 && seg[|seg| - 1] == disc && disc.Disc? && disc.body.Planet?
    requires forall k :: 0 <= k < |seg| - 1 ==> Orbits(seg[k], disc)
    ensures MoonsBeforeParents(prev + seg)
  {
    var pass := prev + seg;
    forall k | 0 <= k < |pass| && pass[k].Disc? && pass[k].body.Moon?
      ensures exists l :: k < l < |pass| && Orbits(pass[k], pass[l])
    {
      if k < |prev| {
        var l :| k < l < |prev| && Orbits(prev[k], prev[l]);
        assert pass[k] == prev[k] && pass[l] == prev[l];
      } else {
        assert pass[k] == seg[k - |prev|] && pass[|pass| - 1] == disc;
        assert Orbits(pass[k], pass[|pass| - 1]);
      }
    }
  }

  /** Appending a segment of moons orbiting the disc of planet `n`, which
      ends the segment and lies near (`ox`, `oy`), keeps every planet disc
      near (`ox`, `oy`) and below `n + 1`. */
  lemma ExtendNear(prev: seq<Mark>, seg: seq<Mark>, disc: Mark, ox: int, oy: int, n: nat)
    requires PlanetsNear(prev, ox, oy, n)
    requires |seg| > 0 && seg[|seg| - 1] == disc
    requires PlanetNear(disc, ox, oy) && disc.body == Planet(n)
    requires forall k :: 0 <= k < |seg| - 1 ==> Orbits(seg[k], disc)
    ensures PlanetsNear(prev + seg, ox, oy, n + 1)
  {
    var pass := prev + seg;
    forall k | 0 <= k < |pass|
      ensures pass[k].Disc? && (pass[k].body.Planet? ==> PlanetNear(pass[k], ox, oy) && pass[k].body.index < n + 1)
    {
      if k < |prev| {
        assert pass[k] == prev[k];
      } else if k < |pass| - 1 {
        assert pass[k] == seg[k - |prev|];
        assert Orbits(pass[k], disc);
      } else {
        assert pass[k] == disc;
      }
    }
  }

  /** Draw order of `draw_planets`: every moon is drawn before its parent
      planet, within its orbit radius of the spot where that planet is then
      drawn; every planet lies within its orbit radius of the sun centre. */
  lemma {:induction false} MoonsPrecedeParents(planetAngles: seq<real>, moonAngles: seq<real>, ox: int, oy: int, t: Tables, n: nat)
    requires n <= |Planets| == |planetAngles| && |moonAngles| == |Moons| && t.Valid()
    ensures MoonsBeforeParents(PlanetPass(planetAngles, moonAngles, ox, oy, t, n))
    ensures PlanetsNear(PlanetPass(planetAngles, moonAngles, ox, oy, t, n), ox, oy, n)
  {
    if n > 0 {
      var prev := PlanetPass(planetAngles, moonAngles, ox, oy, t, n - 1);
      var seg := PlanetSegment(n - 1, planetAngles, moonAngles, ox, oy, t);
      var disc := seg[|seg| - 1];
      assert PlanetPass(planetAngles, moonAngles, ox, oy, t, n) == prev + seg;
      MoonsPrecedeParents(planetAngles, moonAngles, ox, oy, t, n - 1);
      ExtendOrder(prev, seg, disc);
      ExtendNear(prev, seg, disc, ox, oy, n - 1);
    }
  }

  /** Some mark of `marks` is the disc of planet `i`. */
  predicate PlanetDrawn(marks: seq<Mark>, i: nat) {
    exists k :: 0 <= k < |marks| && marks[k].Disc? && marks[k].body == Planet(i)
  }

  /** The first `n` iterations of `draw_planets` draw the disc of every
      planet below `n`. */
  lemma {:induction false} EveryPlanetDrawn(planetAngles: seq<real>, moonAngles: seq<real>, ox: int, oy: int, t: Tables, n: nat)
    requires n <= |Planets| == |planetAngles| && |moonAngles| == |Moons| && t.Valid()
    ensures forall i :: 0 <= i < n ==> PlanetDrawn(PlanetPass(planetAngles, moonAngles, ox, oy, t, n), i)
  {
    if n > 0 {
      var prev := PlanetPass(planetAngles, moonAngles, ox, oy, t, n - 1);
      var seg := PlanetSegment(n - 1, planetAngles, moonAngles, ox, oy, t);
      var pass := prev + seg;
      assert PlanetPass(planetAngles, moonAngles, ox, oy, t, n) == pass;
      EveryPlanetDrawn(planetAngles, moonAngles, ox, oy, t, n - 1);
      forall i | 0 <= i < n
        ensures PlanetDrawn(pass, i)
      {
        if i < n - 1 {
          assert PlanetDrawn(prev, i);
          var k :| 0 <= k < |prev| && prev[k].Disc? && prev[k].body == Planet(i);
          assert pass[k] == prev[k];
        } else {
          assert pass[|pass| - 1] == seg[|seg| - 1];
        }
      }
    }
  }

  // ---------------------------------------------------------------------
  // draw_orbits

  /** The first `k` dots of one orbit ring of radius `radius` around the
      screen centre (`cx`, `cy`): one pixel at each sampled degree 0, 10,
      20, ..., each within `radius` of the centre on both axes. */
  function RingDots(radius: nat, cx: int, cy: int, t: Tables, k: nat): (dots: seq<Mark>)
    requires t.Valid() && k <= OrbitSamples
    ensures |dots| == k
    ensures forall m :: 0 <= m < k ==>
      dots[m].Pixel? && -(radius as int) <= dots[m].x - cx <= radius && -(radius as int) <= dots[m].y - cy <= radius
  {
    seq(k, m requires 0 <= m < k =>
      Pixel(cx + Reach(radius, t.cos, OrbitStep * m), cy + Reach(radius, t.sin, OrbitStep * m)))
  }

  /** One more sample appends that sample's dot. */
  lemma RingDotsStep(radius: nat, cx: int, cy: int, t: Tables, k: nat)
    requires t.Valid() && k < OrbitSamples
    ensures RingDots(radius, cx, cy, t, k + 1) ==
      RingDots(radius, cx, cy, t, k) +
      [Pixel(cx + Reach(radius, t.cos, OrbitStep * k), cy + Reach(radius, t.sin, OrbitStep * k))]
  {
  }

  /** The ring dots of the first `p` planets, as `draw_orbits` draws them:
      36 pixels per planet, and nothing but pixels. */
  function OrbitDots(cx: int, cy: int, t: Tables, p: nat): (dots: seq<Mark>)
    requires t.Valid() && p <= |Planets|
    ensures |dots| == OrbitSamples * p
    ensures forall k :: 0 <= k < |dots| ==> dots[k].Pixel?
  {
    if p == 0 then []
    else OrbitDots(cx, cy, t, p - 1) + RingDots(Planets[p - 1].radius, cx, cy, t, OrbitSamples)
  }

  /** `draw_orbits` sets 36 dots per planet; the dots of planet `p` come
      `p`-th, and each lies within that planet's orbit radius of the
      (undrifted) screen centre. */
  lemma {:induction false} OrbitDotsShape(cx: int, cy: int, t: Tables, p: nat)
    requires t.Valid() && p <= |Planets|
    ensures |OrbitDots(cx, cy, t, p)| == OrbitSamples * p
    ensures forall k :: 0 <= k < |OrbitDots(cx, cy, t, p)| ==>
      OrbitDots(cx, cy, t, p)[k].Pixel? &&
      -(Planets[k / OrbitSamples].radius as int) <= OrbitDots(cx, cy, t, p)[k].x - cx <= Planets[k / OrbitSamples].radius &&
      -(Planets[k / OrbitSamples].radius as int) <= OrbitDots(cx, cy, t, p)[k].y - cy <= Planets[k / OrbitSamples].radius
  {
    if p > 0 {
      var prev := OrbitDots(cx, cy, t, p - 1);
      var ring := RingDots(Planets[p - 1].radius, cx, cy, t, OrbitSamples);
      var dots: seq<Mark> := prev + ring;
      OrbitDotsShape(cx, cy, t, p - 1);
      forall k | 0 <= k < |dots|
        ensures dots[k].Pixel? &&
          -(Planets[k / OrbitSamples].radius as int) <= dots[k].x - cx <= Planets[k / OrbitSamples].radius &&
          -(Planets[k / OrbitSamples].radius as int) <= dots[k].y - cy <= Planets[k / OrbitSamples].radius
      {
        if k >= |prev| {
          var m := k - |prev|;
          assert k == OrbitSamples * (p - 1) + m && m < OrbitSamples;
          assert k / OrbitSamples == p - 1;
          assert dots[k] == ring[m];
        } else {
          assert dots[k] == prev[k];
        }
      }
    }
  }

  // ---------------------------------------------------------------------
  // draw_stars and draw_comets

  const StarCount: nat := 50

  /** STARS: fifty `(random.randint(0, WIDTH), random.randint(0, HEIGHT))`
      positions drawn once at start-up. */
  predicate StarField(stars: seq<(int, int)>, width: nat, height: nat) {
    |stars| == StarCount &&
    forall k :: 0 <= k < |stars| ==> 0 <= stars[k].0 <= width && 0 <= stars[k].1 <= height
  }

  /** `draw_stars`: one pixel per fixed star, and every pixel drawn is the
      position of a star. */
  function StarDots(stars: seq<(int, int)>): (dots: seq<Mark>)
    ensures |dots| == |stars|
    ensures forall k :: 0 <= k < |dots| ==> dots[k].Pixel? && (dots[k].x, dots[k].y) in stars
  {
    seq(|stars|, k requires 0 <= k < |stars| => Pixel(stars[k].0, stars[k].1))
  }

  /** The star field is drawn as fifty pixels on the closed screen
      rectangle [0, WIDTH] x [0, HEIGHT]. */
  lemma StarDotsOnCanvas(stars: seq<(int, int)>, width: nat, height: nat)
    requires StarField(stars, width, height)
    ensures |StarDots(stars)| == StarCount
    ensures forall k :: 0 <= k < |StarDots(stars)| ==>
      0 <= StarDots(stars)[k].x <= width && 0 <= StarDots(stars)[k].y <= height
  {
    forall k | 0 <= k < |stars|
      ensures 0 <= StarDots(stars)[k].x <= width && 0 <= StarDots(stars)[k].y <= height
    {
      assert StarDots(stars)[k] == Pixel(stars[k].0, stars[k].1);
    }
  }

  /** `draw_comets`: one pixel per comet, at `(int(x), int(y))`, which is
      less than a pixel away from the comet on each axis. */
  function CometDots(cs: seq<Comet>): (dots: seq<Mark>)
    ensures |dots| == |cs|
    ensures forall k :: 0 <= k < |cs| ==>
      dots[k].Pixel? && -1.0 < cs[k].x - dots[k].x as real < 1.0 && -1.0 < cs[k].y - dots[k].y as real < 1.0
  {
    seq(|cs|, k requires 0 <= k < |cs| => Pixel(Trunc(cs[k].x), Trunc(cs[k].y)))
  }

  /** Comets that passed the screen filter are drawn at pixels inside the
      screen: integer positions in [0, WIDTH) x [0, HEIGHT). */
  lemma CometDotsOnScreen(cs: seq<Comet>, width: nat, height: nat)
    requires forall c :: c in cs ==> OnScreen(c, width, height)
    ensures forall k :: 0 <= k < |CometDots(cs)| ==>
      0 <= CometDots(cs)[k].x < width && 0 <= CometDots(cs)[k].y < height
  {
    forall k | 0 <= k < |cs|
      ensures 0 <= CometDots(cs)[k].x < width && 0 <= CometDots(cs)[k].y < height
    {
      assert cs[k] in cs;
      assert CometDots(cs)[k] == Pixel(Trunc(cs[k].x), Trunc(cs[k].y));
    }
  }

  // ---------------------------------------------------------------------
  // one frame

  /** What a frame draws before any body: comet pixels, star pixels, then
      the orbit-ring dots: one pixel per comet, per star and per orbit
      sample. */
  function BackdropMarks(cs: seq<Comet>, stars: seq<(int, int)>, cx: int, cy: int, t: Tables): (marks: seq<Mark>)
    requires t.Valid()
    ensures |marks| == |cs| + |stars| + OrbitSamples * |Planets|
  {
    CometDots(cs) + StarDots(stars) + OrbitDots(cx, cy, t, |Planets|)
  }

  /** What a frame draws of the bodies: the planets with their moons
      around the sun centre (`ox`, `oy`), then the sun's disc `sun`,
      which is drawn last, after at least one disc per planet. */
  function BodyMarks(planetAngles: seq<real>, moonAngles: seq<real>, ox: int, oy: int, t: Tables, sun: Mark): (marks: seq<Mark>)
    requires |planetAngles| == |Planets| && |moonAngles| == |Moons| && t.Valid()
    ensures |marks| > |Planets| && marks[|marks| - 1] == sun
  {
    PlanetPass(planetAngles, moonAngles, ox, oy, t, |Planets|) + [sun]
  }

  /** Everything one frame draws after `display.clear()`, in the main
      loop's order: comet pixels, star pixels, orbit-ring dots, the planets
      with their moons (around the sun centre (`ox`, `oy`) of the previous
      frame), and last the sun's disc `sun`: the backdrop's pixels, then
      more marks than there are planets, the last being the sun. */
  function FrameMarks(cs: seq<Comet>, stars: seq<(int, int)>, cx: int, cy: int, t: Tables,
                      planetAngles: seq<real>, moonAngles: seq<real>, ox: int, oy: int, sun: Mark): (marks: seq<Mark>)
    requires |planetAngles| == |Planets| && |moonAngles| == |Moons| && t.Valid()
    ensures |marks| > |cs| + |stars| + OrbitSamples * |Planets| + |Planets|
    ensures marks[|marks| - 1] == sun
  {
    BackdropMarks(cs, stars, cx, cy, t) + BodyMarks(planetAngles, moonAngles, ox, oy, t, sun)
  }

  /** Layering of a frame: the marks are first all the pixels (comets,
      stars, orbit rings), then only discs, the sun's being the last and
      the only one of the sun. So no pixel is painted over a body, and the
      sun is painted over everything. */
  lemma FrameLayers(cs: seq<Comet>, stars: seq<(int, int)>, cx: int, cy: int, t: Tables,
                    planetAngles: seq<real>, moonAngles: seq<real>, ox: int, oy: int, sun: Mark)
    requires |planetAngles| == |Planets| && |moonAngles| == |Moons| && t.Valid() && sun.Disc? && sun.body.Sun?
    ensures var marks := FrameMarks(cs, stars, cx, cy, t, planetAngles, moonAngles, ox, oy, sun);
      forall k :: 0 <= k < |marks| ==>
        (marks[k].Pixel? <==> k < |cs| + |stars| + OrbitSamples * |Planets|) &&
        (marks[k].Disc? && marks[k].body.Sun? <==> k == |marks| - 1)
  {
    var comets, starDots, rings := CometDots(cs), StarDots(stars), OrbitDots(cx, cy, t, |Planets|);
    var pass := PlanetPass(planetAngles, moonAngles, ox, oy, t, |Planets|);
    var marks := FrameMarks(cs, stars, cx, cy, t, planetAngles, moonAngles, ox, oy, sun);
    var n := |comets| + |starDots| + |rings|;
    assert marks == comets + starDots + rings + pass + [sun];
    forall k | 0 <= k < |marks|
      ensures (marks[k].Pixel? <==> k < n) && (marks[k].Disc? && marks[k].body.Sun? <==> k == |marks| - 1)
    {
      if k < |comets| {
        assert marks[k] == comets[k];
      } else if k < |comets| + |starDots| {
        assert marks[k] == starDots[k - |comets|];
      } else if k < n {
        assert marks[k] == rings[k - |comets| - |starDots|];
      } else if k < |marks| - 1 {
        assert marks[k] == pass[k - n];
      } else {
        assert marks[k] == sun;
      }
    }
  }
}
