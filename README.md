# Solar-system animation: per-frame bookkeeping

This project models the animation loop of a small solar-system demo for a
Presto display (`main.py`). Each frame the program:

- clears the screen;
- moves a camera-pan angle;
- may spawn one comet, then moves every comet and drops the ones that left
  the screen;
- draws comets, stars, dotted orbit rings, the planets with their moons,
  and the drifting sun.

The model keeps the program's own state and its own order of work. The
module globals become the fields of a `Scene.SceneState` class:

- `planet_angles` and `moon_angles` are two `array<real>`, updated one
  element at a time;
- `comets` is a `seq<Comet>`, moved in place and then filtered;
- `sun_angle`, `cam_angle` and their offsets are scalar fields.

Every routine of the loop is a method of that class, and `Frame` is one
iteration of `while True`. The PLANETS and MOONS tables are constants
(`Bodies.Planets`, `Bodies.Moons`). SIN_TABLE and COS_TABLE are built from
an abstract sine and cosine (`Trig.TablesOf`).

What the program draws is recorded as a log of marks (`Render.Mark`):

- a filled circle drawn under a translating transform is a `Disc` at its
  centre;
- `display.pixel` is a `Pixel`.

The log lets the model state draw order and positions without the
rendering library.

Modelling choices:

- Floats are exact reals.
- Python's `x % 360` on a float is `Numeric.Wrap360`, a floor-based modulo
  whose result lies in [0, 360) even for negative `x`.
- Python's `int(x)` truncates toward zero: `Numeric.Trunc`. This is not
  the floor for negative offsets.
- `math.sin` and `math.cos` are arbitrary real functions bounded by
  [-1, 1] (`Trig.Bounded`). No claim is made about their values.
- `display.get_bounds()`, the fifty random star positions and the random
  values of `spawn_comet` are parameters: the constructor takes the first
  two, `Frame` and `SpawnComet` take a `Comets.CometDraw`.

Main results:

- Every planet and moon angle stays in [0, 360), so `int(angle)` is always
  a valid index into the 360-entry tables (`SceneState.AnglesWrapped`, kept
  by every method).
- After `draw_planets`, each planet angle is `(old + speed) % 360`. Each
  moon angle is `(old + speed) % 360` exactly once, because every moon's
  parent (Earth, Jupiter, Saturn) carries `has_moons`.
- Each moon is drawn before its parent planet. It lies within its orbit
  radius of the spot where that planet is then drawn.
- The comet list never grows by more than the spawned comet. Its survivors
  are exactly the moved comets inside [0, WIDTH) × [0, HEIGHT), kept in
  their original order.
- An angle advanced by a fixed step for `n` frames equals
  `(start + n * step) % 360`: wrapping every frame never loses a turn.

A comet spawned on the right or bottom edge (`randint` includes WIDTH and
HEIGHT) is culled by the `update_comets` of the same frame when its first
step does not point back inward (`Comets.EdgeSpawnCulled`; for the whole
list, `Comets.EdgeSpawnIgnored`). Whether it survives otherwise depends on
where that step lands: a comet whose moved position is inside the screen
is kept (`Comets.InwardSpawnKept`).

`main.py` draws in flat screen space:

- nothing is projected;
- comets live in pixel coordinates with speeds in [1, 3];
- the orbit rings are dark grey (colours are not drawn in the model).

## Model

| member | source | states |
|---|---|---|
| Trig.TablesOf | main.py:20-21 | each table has 360 entries; when sine and cosine are bounded by [-1, 1], every entry of both tables is in [-1, 1] |
| Numeric.Wrap360 | main.py:102 | `x % 360` lies in [0, 360) and leaves an angle already in range unchanged |
| Numeric.WrapTurns | main.py:102 | `x % 360` differs from `x` by a whole number of full turns |
| Numeric.Trunc | main.py:103 | `int(x)` is the floor for non-negative `x` and the ceiling for negative `x` |
| Numeric.TableIndex | main.py:103 | `int(angle)` of a wrapped angle is an index below 360, within one degree below the angle |
| Numeric.WrapUnique | main.py:102 | a representative of `x` in [0, 360) that differs from it by whole turns is `x % 360` |
| Numeric.WrapAdd | main.py:102 | wrapping before adding a step equals adding then wrapping |
| Numeric.Iterate | main.py:102 | an angle advanced frame by frame with `(a + step) % 360` lies in [0, 360) after the first frame, and throughout when it starts in range |
| Numeric.IterateClosed | main.py:77 | after `n` frames of `(a + step) % 360`, an angle that started in range equals `(a + n*step) % 360` |
| Numeric.FullCycle | main.py:46 | a body moving 1 degree per frame (Earth) is back at its starting angle after 360 frames |
| Numeric.ScaledTruncBound | main.py:75-76 | `int(amp * sin/cos(...))` lies within the amplitude `amp` on either side of zero |
| Bodies.MoonsOf | main.py:122-123 | the rows of MOONS whose parent is planet `i`, all of them, in table order |
| Bodies.TablesConsistent | main.py:46-61 | every moon's parent index names a planet flagged `has_moons` |
| Bodies.NoMoonsWithoutFlag | main.py:108-109 | a planet not flagged `has_moons` owns no moon |
| Bodies.EmptyMoonsOf | main.py:122-123 | a planet that no row of MOONS names has no moons to visit |
| Motion.PlanetsAdvanced | main.py:101-102 | the first `n` iterations of `draw_planets` keep every planet angle in [0, 360) |
| Motion.PlanetsAdvancedStep | main.py:101-102 | iteration `n` of `draw_planets` changes planet `n`'s angle only, to `(old + speed) % 360` |
| Motion.MoonsOfAdvanced | main.py:122-124 | `draw_moons` keeps every moon angle in [0, 360) |
| Motion.MoonsOfAdvancedStep | main.py:122-124 | row `n` of `draw_moons` finds moon `n` not yet advanced and advances it only when its parent matches |
| Motion.MoonsAdvanced | main.py:108-109 | the first `i` iterations of `draw_planets` keep every moon angle in [0, 360) |
| Motion.MoonsAdvancedStep | main.py:108-109 | iteration `i` of `draw_planets` is one full `draw_moons(i, ...)` pass |
| Motion.EveryMoonAdvanced | main.py:108-124 | after a full `draw_planets` pass, every moon angle has advanced exactly once |
| Motion.NoMoonsUnchanged | main.py:108-109 | skipping `draw_moons` for a planet without moons changes no moon angle |
| Comets.Spawned | main.py:162-167 | `spawn_comet` appends at most one comet, and one exactly when the roll is below 0.005 |
| Comets.SpawnedInRange | main.py:163-166 | a spawned comet starts in [0, WIDTH] × [0, HEIGHT] with speed in [1, 3] |
| Comets.Move | main.py:172-173 | a moved comet keeps its heading and speed; with bounded sine and cosine it moves by at most its speed on each axis |
| Comets.Moved | main.py:171-173 | the move loop keeps the list's length, and every comet keeps its heading and speed |
| Comets.MovedAppend | main.py:171-173 | comets move independently: moving a concatenation moves each part |
| Comets.OnScreen | main.py:174 | a comet passing the filter's test has its pixel `(int(x), int(y))` inside [0, WIDTH) × [0, HEIGHT) |
| Comets.Survivors | main.py:174 | the filter never grows the list; exactly the on-screen comets remain, and no comet is made up |
| Comets.SurvivorsAppend | main.py:174 | the filter distributes over concatenation, so survivors keep their relative order |
| Comets.SurvivorsCount | main.py:174 | an on-screen comet is kept as often as it occurs; an off-screen one is dropped |
| Comets.SurvivorsIdempotent | main.py:174 | a list of on-screen comets passes the filter unchanged |
| Comets.EdgeSpawnCulled | main.py:163-174 | a comet at `x >= WIDTH` (or `y >= HEIGHT`) whose step does not point inward is removed by the same frame's update |
| Comets.InwardSpawnKept | main.py:171-174 | a comet whose step lands inside the screen, on an edge or not, is kept by the same frame's update |
| Comets.EdgeSpawnIgnored | main.py:160-174 | a frame that spawns an outward-heading comet on the right or bottom edge leaves the same list as a frame that spawns none |
| Comets.FrameComets | main.py:181-182 | spawn then update grows the list by at most one, and leaves only on-screen comets |
| Render.Reach | main.py:105-106 | `int(radius * TABLE[i])` lies within the radius on either side of zero |
| Render.MoonDisc | main.py:125-137 | a moon's disc lies within its orbit radius of its parent's position on each axis |
| Render.MoonDiscs | main.py:125-137 | the discs of the given moons, one each and in the given order, each within its orbit radius of the parent's position |
| Render.MoonPass | main.py:122-137 | `draw_moons(i, ...)` draws one disc per moon of planet `i`, in table order, each a moon of `i` lying within its orbit radius of the parent |
| Render.MoonPassStep | main.py:122-137 | visiting row `n` of MOONS appends that moon's disc exactly when its parent matches |
| Render.MoonPassReadsOwnMoons | main.py:122-125 | `draw_moons(i, ...)` depends only on the angles of planet `i`'s moons |
| Render.PlanetDisc | main.py:103-118 | a planet's disc lies within its orbit radius of the drifted sun centre |
| Render.PlanetSegment | main.py:101-118 | one iteration's marks end with planet `i`'s disc, near the sun centre; every earlier mark is a moon of `i` orbiting that disc |
| Render.PlanetPass | main.py:99-118 | `draw_planets` draws at least as many marks as planets, and only planet and moon discs, never the sun |
| Render.EveryPlanetDrawn | main.py:99-118 | the first `n` iterations of `draw_planets` draw a disc for every planet below `n` |
| Render.ExtendOrder | main.py:108-118 | appending such an iteration keeps every moon ahead of its parent |
| Render.ExtendNear | main.py:105-118 | appending such an iteration keeps every planet disc near the sun centre |
| Render.MoonsPrecedeParents | main.py:101-118 | in `draw_planets`' marks every moon precedes, and lies near, its parent; every planet lies near the sun centre |
| Render.RingDots | main.py:143-146 | one ring has a pixel per sampled degree, each within the orbit radius of the centre on both axes |
| Render.OrbitDots | main.py:139-146 | `draw_orbits` sets 36 pixels per planet and draws nothing but pixels |
| Render.OrbitDotsShape | main.py:139-146 | the dots of planet `p` come `p`-th, each within that orbit's radius of the undrifted centre |
| Render.StarDots | main.py:148-152 | one pixel per star, and every pixel drawn is the position of a star |
| Render.StarDotsOnCanvas | main.py:148-152 | the fifty STARS positions are drawn as fifty pixels on the closed screen rectangle [0, WIDTH] × [0, HEIGHT] |
| Render.CometDots | main.py:154-158 | one pixel per comet, less than one pixel away from the comet on each axis |
| Render.CometDotsOnScreen | main.py:154-158 | comets that passed the filter are drawn at pixels inside the screen |
| Render.BackdropMarks | main.py:184-186 | comets, stars and orbit rings draw one pixel per comet, per star and per orbit sample |
| Render.BodyMarks | main.py:187-188 | the planets and moons give more marks than there are planets, and the sun's disc comes last |
| Render.FrameMarks | main.py:184-188 | a frame draws the backdrop's pixels, then more marks than there are planets, ending with the sun's disc |
| Render.FrameLayers | main.py:184-188 | every pixel comes before every disc, and the sun's disc is last and unique: nothing is painted over a body, and the sun is on top |
| Scene.SceneState.constructor | main.py:10-69 | tables built from sine and cosine, every angle and offset zero, no comets, centre at half the bounds |
| Scene.SceneState.ClearDisplay | main.py:177-178 | nothing is drawn yet in the frame |
| Scene.SceneState.UpdateCamera | main.py:71-77 | offsets are `int(12 * sin)` and `int(7 * cos)` of the old camera angle, within ±12 and ±7; the angle becomes `(old + 0.01) % 360` |
| Scene.SceneState.DrawSun | main.py:79-97 | offsets are `int(5 * cos)` and `int(3 * sin)` of the old sun angle, within ±5 and ±3; the angle becomes `(old + 0.02) % 360`; the sun's disc is drawn at the drifted centre |
| Scene.SceneState.DrawMoons | main.py:120-137 | exactly the moons of the given planet advance, the rest are unchanged; their discs are appended in table order |
| Scene.SceneState.VisitMoon | main.py:122-137 | one row of `draw_moons`' loop advances and draws moon `j` only when its parent matches |
| Scene.SceneState.DrawMoon | main.py:124-137 | moon `j`'s angle becomes `(old + speed) % 360`, no other angle changes, and its disc is appended |
| Scene.SceneState.DrawPlanets | main.py:99-118 | every planet angle becomes `(old + speed) % 360` and every moon angle advances once; marks are the planets with their moons in order |
| Scene.SceneState.VisitPlanet | main.py:101-118 | one iteration of `draw_planets`' loop extends the advanced angles and the drawn marks by planet `i` |
| Scene.SceneState.DrawPlanet | main.py:101-118 | planet `i`'s angle alone advances; its moons advance and are drawn before its disc |
| Scene.SceneState.DrawPlanetMoons | main.py:108-109 | a flagged planet's moons advance and are drawn; an unflagged planet changes nothing |
| Scene.SceneState.DrawOrbits | main.py:139-146 | appends the dotted rings of all planets around the undrifted centre |
| Scene.SceneState.DrawStars | main.py:148-152 | appends one pixel per star |
| Scene.SceneState.DrawComets | main.py:154-158 | appends one pixel per comet |
| Scene.SceneState.SpawnComet | main.py:160-167 | the list gains the spawned comet when the roll is below 0.005, nothing otherwise |
| Scene.SceneState.UpdateComets | main.py:169-174 | every comet is moved once in place, then the list becomes the moved comets that are on screen |
| Scene.SceneState.DrawBackdrop | main.py:184-186 | comets, stars and orbit rings are drawn in that order |
| Scene.SceneState.DrawBodies | main.py:187-188 | planets (with moons) around the previous frame's sun centre, then the sun; sun offsets and angle as in `draw_sun` |
| Scene.SceneState.DrawScene | main.py:184-188 | on the cleared display, the five drawing routines draw a frame's marks in the loop's order; sun offsets and angle as in `draw_sun`; all angles stay in [0, 360) |
| Scene.SceneState.UpdateWorld | main.py:177-182 | clear, camera update (offsets and angle as in `update_camera`), spawn, then move-and-cull; planet and moon angles untouched |
| Scene.SceneState.Frame | main.py:176-188 | one iteration of the loop: comets, camera offsets and angle, sun offsets and angle, planet and moon angles and the drawn marks as above, with all angles kept in [0, 360) |

## Left out

- Presto and PicoVector: pens, `Polygon`, `Transform`, antialiasing,
  `display.clear`, `display.pixel` and `presto.update` are an external
  rendering library. Draws are recorded as marks; colours are kept only
  as RGB triples in the tables and are not drawn.
- `time.sleep` and the infinite loop: the model is one `Frame` step. The
  long-run angle behaviour is stated by `Numeric.IterateClosed`.
- `random`: the star positions and the five values `spawn_comet` draws
  are parameters. `Render.StarField` (the constructor's precondition)
  states the ranges of STARS (main.py:28), and `Comets.FromRandom` those
  of the spawn values. Spawn frequency is not modelled.
- The values of `math.sin` and `math.cos`, and IEEE rounding: sine and
  cosine are any functions bounded by [-1, 1], and floats are exact
  reals. `math.radians` is modelled exactly (`Trig.Radians`, degrees
  times `math.pi` over 180). No numeric accuracy is claimed.
- `tilt_angle` (main.py:65) is assigned once and never read, so it has no
  counterpart.
- `cam_x_offset` and `cam_y_offset` are computed by `update_camera` but
  never read by any drawing routine. The model keeps them as state and
  proves their bounds, as the program does nothing else with them.
