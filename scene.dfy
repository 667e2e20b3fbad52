/** The module-level state of the animation and the routines of the main
    loop that update it: `update_camera`, `spawn_comet`, `update_comets`,
    the drawing routines and one iteration of `while True`. */
module Scene {
  import opened Numeric
  import opened Trig
  import opened Bodies
  import opened Comets
  import opened Render
  import opened Motion

  /** `cam_angle` grows by 0.01 degrees per frame, `sun_angle` by 0.02. */
  const CamStep: real := 0.01
  const SunStep: real := 0.02

  /** Amplitudes of the camera and sun drift offsets, in pixels. */
  const CamAmpX: nat := 12
  const CamAmpY: nat := 7
  const SunAmpX: nat := 5
  const SunAmpY: nat := 3

  class SceneState {
    /** `math.sin` / `math.cos`, and SIN_TABLE / COS_TABLE built from them. */
    const trig: Trig
    const tables: Tables
    /** `display.get_bounds()` and the screen centre `CX, CY`. */
    const width: nat
    const height: nat
    const cx: int
    const cy: int
    const stars: seq<(int, int)>
    /** `planet_angles` and `moon_angles`, one entry per row of PLANETS / MOONS. */
    const planetAngles: array<real>
    const moonAngles: array<real>
    var comets: seq<Comet>
    var sunAngle: real
    var sunX: int
    var sunY: int
    var camAngle: real
    var camX: int
    var camY: int
    /** What has been drawn since the last `display.clear()`. */
    var marks: seq<Mark>

    /** The fixed part of the state: `math.sin` and `math.cos` are bounded
        by [-1, 1], both tables have 360 entries in [-1, 1], the centre is
        half the screen size, and there is one angle per row of PLANETS and
        of MOONS, in two distinct arrays. */
    ghost predicate Fixed() {
      Bounded(trig) && tables.Valid() &&
      cx == width / 2 && cy == height / 2 &&
      planetAngles.Length == |Planets| && moonAngles.Length == |Moons| &&
      planetAngles != moonAngles
    }

    /** Every planet and moon angle is wrapped into [0, 360), so each
        `int(angle)` is an index of the 360-entry tables. */
    ghost predicate AnglesWrapped()
      reads planetAngles, moonAngles
    {
      Wrapped(planetAngles[..]) && Wrapped(moonAngles[..])
    }

    /** The sun and camera angles are wrapped into [0, 360), and the drift
        offsets stay within their amplitudes. */
    ghost predicate DriftBounded()
      reads this`sunAngle, this`sunX, this`sunY, this`camAngle, this`camX, this`camY
    {
      0.0 <= sunAngle < 360.0 && 0.0 <= camAngle < 360.0 &&
      -(SunAmpX as int) <= sunX <= SunAmpX && -(SunAmpY as int) <= sunY <= SunAmpY &&
      -(CamAmpX as int) <= camX <= CamAmpX && -(CamAmpY as int) <= camY <= CamAmpY
    }

    ghost predicate Valid()
      reads this, planetAngles, moonAngles
    {
      Fixed() && AnglesWrapped() && DriftBounded()
    }

    /** The module's start-up: tables precomputed, every angle and offset
        zero, no comets. */
    constructor (trig: Trig, width: nat, height: nat, stars: seq<(int, int)>)
      requires Bounded(trig)
      requires StarField(stars, width, height)
      ensures tables == TablesOf(trig) && Valid() && fresh(planetAngles) && fresh(moonAngles)
      ensures this.trig == trig && this.width == width && this.height == height && this.stars == stars
      ensures planetAngles[..] == seq(|Planets|, _ => 0.0) && moonAngles[..] == seq(|Moons|, _ => 0.0)
      ensures comets == [] && marks == []
      ensures sunAngle == 0.0 && camAngle == 0.0 && sunX == 0 && sunY == 0 && camX == 0 && camY == 0
    {
      this.trig := trig;
      tables := TablesOf(trig);
      this.width := width;
      this.height := height;
      cx := width / 2;
      cy := height / 2;
      this.stars := stars;
      planetAngles := new real[|Planets|](_ => 0.0);
      moonAngles := new real[|Moons|](_ => 0.0);
      comets := [];
      sunAngle, sunX, sunY := 0.0, 0, 0;
      camAngle, camX, camY := 0.0, 0, 0;
      marks := [];
    }

    /** `display.clear()`: nothing drawn yet in this frame. */
    method ClearDisplay()
      modifies this`marks
      ensures marks == []
    {
      marks := [];
    }

    /** `update_camera`: the offsets follow the old camera angle, then the
        angle advances by 0.01 degrees, wrapped. The offsets are never read
        by any drawing routine. */
    method UpdateCamera()
      requires Fixed() && DriftBounded()
      modifies this`camX, this`camY, this`camAngle
      ensures DriftBounded()
      ensures camX == Trunc(CamAmpX as real * trig.sin(Radians(old(camAngle))))
      ensures camY == Trunc(CamAmpY as real * trig.cos(Radians(old(camAngle))))
      ensures camAngle == Wrap360(old(camAngle) + CamStep)
    {
      var s, c := trig.sin(Radians(camAngle)), trig.cos(Radians(camAngle));
      ScaledTruncBound(CamAmpX as real, s);
      ScaledTruncBound(CamAmpY as real, c);
      camX := Trunc(CamAmpX as real * s);
      camY := Trunc(CamAmpY as real * c);
      camAngle := Wrap360(camAngle + CamStep);
    }

    /** The angle and offset part of `draw_sun`, then the sun's disc at the
        drifted centre. */
    method DrawSun()
      requires Fixed() && DriftBounded()
      modifies this`sunX, this`sunY, this`sunAngle, this`marks
      ensures DriftBounded()
      ensures sunX == Trunc(SunAmpX as real * trig.cos(Radians(old(sunAngle))))
      ensures sunY == Trunc(SunAmpY as real * trig.sin(Radians(old(sunAngle))))
      ensures sunAngle == Wrap360(old(sunAngle) + SunStep)
      ensures marks == old(marks) + [Disc(Sun, cx + sunX, cy + sunY, SunRadius)]
    {
      var c, s := trig.cos(Radians(sunAngle)), trig.sin(Radians(sunAngle));
      ScaledTruncBound(SunAmpX as real, c);
      ScaledTruncBound(SunAmpY as real, s);
      sunX := Trunc(SunAmpX as real * c);
      sunY := Trunc(SunAmpY as real * s);
      sunAngle := Wrap360(sunAngle + SunStep);
      marks := marks + [Disc(Sun, cx + sunX, cy + sunY, SunRadius)];
    }

    /** `draw_moons(parent, px, py)`: advances exactly the moons of planet
        `parent` (every other moon angle is unchanged) and draws each of
        them around (`px`, `py`). */
    method DrawMoons(parent: nat, px: int, py: int)
      requires Fixed() && AnglesWrapped()
      modifies this`marks, moonAngles
      ensures AnglesWrapped()
      ensures moonAngles[..] == MoonsOfAdvanced(old(moonAngles[..]), parent, |Moons|)
      ensures marks == old(marks) + MoonPass(parent, px, py, old(moonAngles[..]), tables, |Moons|)
    {
      ghost var moons0 := moonAngles[..];
      ghost var marks0 := marks;
      var j := 0;
      while j < moonAngles.Length
        invariant 0 <= j <= moonAngles.Length
        invariant moonAngles[..] == MoonsOfAdvanced(moons0, parent, j)
        invariant marks == marks0 + MoonPass(parent, px, py, moons0, tables, j)
      {
        VisitMoon(parent, j, px, py, moons0, marks0);
        j := j + 1;
      }
    }

    /** One row `j` of `draw_moons`' loop: when the row's parent is
        `parent`, moon `j` advances by its speed, wrapped, and its disc is
        drawn around (`px`, `py`); otherwise nothing happens. `moons` and
        `before` are the moon angles and the marks when the call began. */
    method VisitMoon(parent: nat, j: nat, px: int, py: int, ghost moons: seq<real>, ghost before: seq<Mark>)
      requires Fixed() && j < |Moons| == |moons|
      requires moonAngles[..] == MoonsOfAdvanced(moons, parent, j)
      requires marks == before + MoonPass(parent, px, py, moons, tables, j)
      modifies this`marks, moonAngles
      ensures moonAngles[..] == MoonsOfAdvanced(moons, parent, j + 1)
      ensures marks == before + MoonPass(parent, px, py, moons, tables, j + 1)
    {
      MoonPassStep(parent, px, py, moons, tables, j);
      MoonsOfAdvancedStep(moons, parent, j);
      ghost var pass := MoonPass(parent, px, py, moons, tables, j);
      ghost var cur := moonAngles[..];
      if Moons[j].parent == parent {
        DrawMoon(j, px, py);
        assert moonAngles[..] == cur[j := Wrap360(moons[j] + Moons[j].speed)];
        assert before + pass + [MoonDisc(j, moonAngles[j], px, py, tables)] ==
               before + (pass + [MoonDisc(j, moonAngles[j], px, py, tables)]);
      } else {
        assert pass + [] == pass;
      }
    }

    /** The body of `draw_moons`' loop for a moon `j` of the planet being
        drawn: its angle advances by its speed, wrapped, and its disc is
        drawn around (`px`, `py`). */
    method DrawMoon(j: nat, px: int, py: int)
      requires Fixed() && j < |Moons|
      modifies this`marks, moonAngles
      ensures moonAngles[..] == old(moonAngles[..])[j := Wrap360(old(moonAngles[j]) + Moons[j].speed)]
      ensures marks == old(marks) + [MoonDisc(j, moonAngles[j], px, py, tables)]
    {
      moonAngles[j] := Wrap360(moonAngles[j] + Moons[j].speed);
      marks := marks + [MoonDisc(j, moonAngles[j], px, py, tables)];
    }

    /** `draw_planets`: every planet angle advances once; each planet flagged
        `has_moons` has its moons advanced and drawn just before its own
        disc, so every moon angle advances exactly once as well. Positions
        are taken around the sun centre as `draw_sun` left it in the
        previous frame. */
    method DrawPlanets()
      requires Fixed() && AnglesWrapped()
      modifies this`marks, planetAngles, moonAngles
      ensures AnglesWrapped()
      ensures planetAngles[..] == PlanetsAdvanced(old(planetAngles[..]), |Planets|)
      ensures moonAngles[..] == MoonsAdvanced(old(moonAngles[..]), |Planets|)
      ensures marks == old(marks) +
        PlanetPass(old(planetAngles[..]), old(moonAngles[..]), cx + old(sunX), cy + old(sunY), tables, |Planets|)
    {
      ghost var planets0 := planetAngles[..];
      ghost var moons0 := moonAngles[..];
      ghost var marks0 := marks;
      var ox, oy := cx + sunX, cy + sunY;
      var i := 0;
      while i < planetAngles.Length
        invariant 0 <= i <= |Planets|
        invariant AnglesWrapped()
        invariant planetAngles[..] == PlanetsAdvanced(planets0, i)
        invariant moonAngles[..] == MoonsAdvanced(moons0, i)
        invariant marks == marks0 + PlanetPass(planets0, moons0, ox, oy, tables, i)
      {
        VisitPlanet(i, ox, oy, planets0, moons0, marks0);
        i := i + 1;
      }
    }

    /** Iteration `i` of `draw_planets`' loop, seen from the loop: after
        it, the first `i + 1` planets and their moons have advanced and
        been drawn. `angles`, `moons` and `before` are the planet angles,
        moon angles and marks when the loop began. */
    method VisitPlanet(i: nat, ox: int, oy: int, ghost angles: seq<real>, ghost moons: seq<real>, ghost before: seq<Mark>)
      requires Fixed() && AnglesWrapped() && i < |Planets| == |angles| && |moons| == |Moons|
      requires planetAngles[..] == PlanetsAdvanced(angles, i)
      requires moonAngles[..] == MoonsAdvanced(moons, i)
      requires marks == before + PlanetPass(angles, moons, ox, oy, tables, i)
      modifies this`marks, planetAngles, moonAngles
      ensures AnglesWrapped()
      ensures planetAngles[..] == PlanetsAdvanced(angles, i + 1)
      ensures moonAngles[..] == MoonsAdvanced(moons, i + 1)
      ensures marks == before + PlanetPass(angles, moons, ox, oy, tables, i + 1)
    {
      PlanetsAdvancedStep(angles, i);
      MoonsAdvancedStep(moons, i);
      assert planetAngles[i] == PlanetsAdvanced(angles, i)[i];
      DrawPlanet(i, ox, oy, angles, moons);
      PlanetPassExtend(before, angles, moons, ox, oy, tables, i);
    }

    /** One iteration of `draw_planets`' loop: planet `i` advances, its
        moons (when it has any) are advanced and drawn around its new
        position, then its own disc is drawn. `angles` and `moons` are the
        angles the frame started from; the moons of planet `i` still hold
        theirs. */
    method DrawPlanet(i: nat, ox: int, oy: int, ghost angles: seq<real>, ghost moons: seq<real>)
      requires Fixed() && AnglesWrapped() && i < |Planets| == |angles| && |moons| == |Moons|
      requires planetAngles[i] == angles[i]
      requires forall j :: 0 <= j < |Moons| && Moons[j].parent == i ==> moonAngles[j] == moons[j]
      modifies this`marks, planetAngles, moonAngles
      ensures AnglesWrapped()
      ensures planetAngles[..] == old(planetAngles[..])[i := Wrap360(angles[i] + Planets[i].speed)]
      ensures moonAngles[..] == MoonsOfAdvanced(old(moonAngles[..]), i, |Moons|)
      ensures marks == old(marks) + PlanetSegment(i, angles, moons, ox, oy, tables)
    {
      planetAngles[i] := Wrap360(planetAngles[i] + Planets[i].speed);
      var disc := PlanetDisc(i, planetAngles[i], ox, oy, tables);
      PlanetPassStep(angles, moons, ox, oy, tables, i);
      ghost var before := marks;
      ghost var drawn := if Planets[i].hasMoons then MoonPass(i, disc.x, disc.y, moons, tables, |Moons|) else [];
      DrawPlanetMoons(i, disc.x, disc.y, moons);
      marks := marks + [disc];
      assert before + drawn + [disc] == before + (drawn + [disc]);
    }

    /** The `if has_moons: draw_moons(i, x, y)` step of `draw_planets`'
        loop: the moons of planet `i` advance and are drawn around
        (`x`, `y`) when the planet is flagged, and nothing happens
        otherwise. `moons` holds the angles those moons still have. */
    method DrawPlanetMoons(i: nat, x: int, y: int, ghost moons: seq<real>)
      requires Fixed() && AnglesWrapped() && i < |Planets| && |moons| == |Moons|
      requires forall j :: 0 <= j < |Moons| && Moons[j].parent == i ==> moonAngles[j] == moons[j]
      modifies this`marks, moonAngles
      ensures AnglesWrapped()
      ensures moonAngles[..] == MoonsOfAdvanced(old(moonAngles[..]), i, |Moons|)
      ensures marks == old(marks) + if Planets[i].hasMoons then MoonPass(i, x, y, moons, tables, |Moons|) else []
    {
      if Planets[i].hasMoons {
        MoonPassReadsOwnMoons(i, x, y, moonAngles[..], moons, tables, |Moons|);
        DrawMoons(i, x, y);
      } else {
        NoMoonsUnchanged(moonAngles[..], i);
        assert marks + [] == marks;
      }
    }

    /** `draw_orbits`: for every planet, a dot at each sampled degree
        0, 10, ..., 350 of its orbit around the undrifted centre. */
    method DrawOrbits()
      requires Fixed()
      modifies this`marks
      ensures marks == old(marks) + OrbitDots(cx, cy, tables, |Planets|)
    {
      ghost var marks0 := marks;
      var p := 0;
      while p < |Planets|
        invariant 0 <= p <= |Planets|
        invariant marks == marks0 + OrbitDots(cx, cy, tables, p)
      {
        var radius := Planets[p].radius;
        ghost var start := marks;
        var angle := 0;
        ghost var k := 0;
        while angle < TableSize
          invariant 0 <= k <= OrbitSamples && angle == OrbitStep * k
          invariant marks == start + RingDots(radius, cx, cy, tables, k)
        {
          RingDotsStep(radius, cx, cy, tables, k);
          var x := cx + Reach(radius, tables.cos, angle);
          var y := cy + Reach(radius, tables.sin, angle);
          marks := marks + [Pixel(x, y)];
          angle, k := angle + OrbitStep, k + 1;
        }
        assert marks0 + OrbitDots(cx, cy, tables, p) + RingDots(radius, cx, cy, tables, OrbitSamples) ==
               marks0 + (OrbitDots(cx, cy, tables, p) + RingDots(radius, cx, cy, tables, OrbitSamples));
        p := p + 1;
      }
    }

    /** `draw_stars`: a pixel at every fixed star. */
    method DrawStars()
      modifies this`marks
      ensures marks == old(marks) + StarDots(stars)
    {
      for k := 0 to |stars|
        invariant marks == old(marks) + StarDots(stars)[..k]
      {
        marks := marks + [Pixel(stars[k].0, stars[k].1)];
      }
      assert StarDots(stars)[..|stars|] == StarDots(stars);
    }

    /** `draw_comets`: a pixel at `(int(x), int(y))` of every comet. */
    method DrawComets()
      modifies this`marks
      ensures marks == old(marks) + CometDots(comets)
    {
      for k := 0 to |comets|
        invariant marks == old(marks) + CometDots(comets)[..k]
      {
        marks := marks + [Pixel(Trunc(comets[k].x), Trunc(comets[k].y))];
      }
      assert CometDots(comets)[..|comets|] == CometDots(comets);
    }

    /** `spawn_comet`, with the random values as the parameter `d`: at most
        one comet is appended, and only when the roll is below 0.005. */
    method SpawnComet(d: CometDraw)
      modifies this`comets
      ensures comets == old(comets) + Spawned(d)
    {
      if d.roll < SpawnChance {
        comets := comets + [Comet(d.x as real, d.y as real, d.angle, d.speed)];
      }
    }

    /** `update_comets`: every comet takes one step along its heading, then
        the list is cut down to the comets on screen. */
    method UpdateComets()
      modifies this`comets
      ensures comets == Survivors(Moved(trig, old(comets)), width, height)
    {
      var i := 0;
      while i < |comets|
        invariant 0 <= i <= |comets| == |old(comets)|
        invariant forall k :: 0 <= k < i ==> comets[k] == Move(trig, old(comets)[k])
        invariant forall k :: i <= k < |comets| ==> comets[k] == old(comets)[k]
      {
        comets := comets[i := Move(trig, comets[i])];
        i := i + 1;
      }
      assert comets == Moved(trig, old(comets));
      comets := Survivors(comets, width, height);
    }

    /** `draw_comets`, `draw_stars` and `draw_orbits`, in that order. */
    method DrawBackdrop()
      requires Fixed()
      modifies this`marks
      ensures marks == old(marks) + BackdropMarks(comets, stars, cx, cy, tables)
    {
      ghost var marks0 := marks;
      DrawComets();
      DrawStars();
      DrawOrbits();
      assert marks0 + CometDots(comets) + StarDots(stars) + OrbitDots(cx, cy, tables, |Planets|) ==
             marks0 + (CometDots(comets) + StarDots(stars) + OrbitDots(cx, cy, tables, |Planets|));
    }

    /** `draw_planets` then `draw_sun`. Planets are placed around the sun
        centre of the previous frame because `draw_sun` comes last. */
    method DrawBodies()
      requires Valid()
      modifies this`marks, this`sunX, this`sunY, this`sunAngle, planetAngles, moonAngles
      ensures Valid()
      ensures sunX == Trunc(SunAmpX as real * trig.cos(Radians(old(sunAngle))))
      ensures sunY == Trunc(SunAmpY as real * trig.sin(Radians(old(sunAngle))))
      ensures sunAngle == Wrap360(old(sunAngle) + SunStep)
      ensures planetAngles[..] == PlanetsAdvanced(old(planetAngles[..]), |Planets|)
      ensures moonAngles[..] == MoonsAdvanced(old(moonAngles[..]), |Planets|)
      ensures marks == old(marks) +
        BodyMarks(old(planetAngles[..]), old(moonAngles[..]), cx + old(sunX), cy + old(sunY), tables,
                  Disc(Sun, cx + sunX, cy + sunY, SunRadius))
    {
      ghost var planets0, moons0 := planetAngles[..], moonAngles[..];
      ghost var marks0, ox, oy := marks, cx + sunX, cy + sunY;
      DrawPlanets();
      DrawSun();
      ghost var sun := Disc(Sun, cx + sunX, cy + sunY, SunRadius);
      assert marks0 + PlanetPass(planets0, moons0, ox, oy, tables, |Planets|) + [sun] ==
             marks0 + (PlanetPass(planets0, moons0, ox, oy, tables, |Planets|) + [sun]);
    }

    /** The drawing half of a frame, on the display `display.clear()` left
        empty: comets, stars, orbit rings, planets with their moons, and
        the sun, in that order, each appending its marks. */
    method DrawScene()
      requires Valid() && marks == []
      modifies this`marks, this`sunX, this`sunY, this`sunAngle, planetAngles, moonAngles
      ensures Valid()
      ensures sunX == Trunc(SunAmpX as real * trig.cos(Radians(old(sunAngle))))
      ensures sunY == Trunc(SunAmpY as real * trig.sin(Radians(old(sunAngle))))
      ensures sunAngle == Wrap360(old(sunAngle) + SunStep)
      ensures planetAngles[..] == PlanetsAdvanced(old(planetAngles[..]), |Planets|)
      ensures moonAngles[..] == MoonsAdvanced(old(moonAngles[..]), |Planets|)
      ensures marks ==
        FrameMarks(comets, stars, cx, cy, tables, old(planetAngles[..]), old(moonAngles[..]),
                   cx + old(sunX), cy + old(sunY), Disc(Sun, cx + sunX, cy + sunY, SunRadius))
    {
      ghost var marks0 := marks;
      DrawBackdrop();
      ghost var backdrop := BackdropMarks(comets, stars, cx, cy, tables);
      DrawBodies();
      ghost var bodies := BodyMarks(old(planetAngles[..]), old(moonAngles[..]), cx + old(sunX), cy + old(sunY), tables,
                                    Disc(Sun, cx + sunX, cy + sunY, SunRadius));
      assert marks0 + backdrop + bodies == backdrop + bodies;
    }

    /** The first half of one iteration of the main loop, with the frame's
        random values as `d`: `display.clear()`, `update_camera()`,
        `spawn_comet()`, then `update_comets()`, so a comet spawned in this
        frame already moves and may already be culled. */
    method UpdateWorld(d: CometDraw)
      requires Fixed() && DriftBounded()
      modifies this`marks, this`camX, this`camY, this`camAngle, this`comets
      ensures DriftBounded()
      ensures marks == []
      ensures camX == Trunc(CamAmpX as real * trig.sin(Radians(old(camAngle))))
      ensures camY == Trunc(CamAmpY as real * trig.cos(Radians(old(camAngle))))
      ensures camAngle == Wrap360(old(camAngle) + CamStep)
      ensures comets == Survivors(Moved(trig, old(comets) + Spawned(d)), width, height)
      ensures planetAngles[..] == old(planetAngles[..]) && moonAngles[..] == old(moonAngles[..])
    {
      ClearDisplay();
      UpdateCamera();
      SpawnComet(d);
      UpdateComets();
    }

    /** One iteration of the main loop, with the frame's random values as
        `d`: the world update, then the drawing of the scene. Presenting
        the frame and sleeping are not modelled. */
    method Frame(d: CometDraw)
      requires Valid()
      modifies this, planetAngles, moonAngles
      ensures Valid()
      ensures comets == Survivors(Moved(trig, old(comets) + Spawned(d)), width, height)
      ensures camX == Trunc(CamAmpX as real * trig.sin(Radians(old(camAngle))))
      ensures camY == Trunc(CamAmpY as real * trig.cos(Radians(old(camAngle))))
      ensures camAngle == Wrap360(old(camAngle) + CamStep)
      ensures sunX == Trunc(SunAmpX as real * trig.cos(Radians(old(sunAngle))))
      ensures sunY == Trunc(SunAmpY as real * trig.sin(Radians(old(sunAngle))))
      ensures sunAngle == Wrap360(old(sunAngle) + SunStep)
      ensures planetAngles[..] == PlanetsAdvanced(old(planetAngles[..]), |Planets|)
      ensures moonAngles[..] == MoonsAdvanced(old(moonAngles[..]), |Planets|)
      ensures marks ==
        FrameMarks(comets, stars, cx, cy, tables, old(planetAngles[..]), old(moonAngles[..]),
                   cx + old(sunX), cy + old(sunY), Disc(Sun, cx + sunX, cy + sunY, SunRadius))
    {
      ghost var planets0, moons0 := planetAngles[..], moonAngles[..];
      UpdateWorld(d);
      assert planetAngles[..] == planets0 && moonAngles[..] == moons0;
      DrawScene();
    }
  }
}
