/** The static description of the scene: the PLANETS and MOONS tables.
    Pens (colours) are rendering details and are kept only as RGB triples. */
module Bodies {

  datatype Rgb = Rgb(r: nat, g: nat, b: nat)

  /** One row of PLANETS: (colour, orbit radius, orbital speed in degrees
      per frame, size, has moons?). */
  datatype PlanetSpec = PlanetSpec(color: Rgb, radius: nat, speed: real, size: nat, hasMoons: bool)

  /** One row of MOONS: (parent planet index, colour, orbit radius,
      orbital speed in degrees per frame, size). */
  datatype MoonSpec = MoonSpec(parent: nat, color: Rgb, radius: nat, speed: real, size: nat)

  const Planets: seq<PlanetSpec> := [
    PlanetSpec(Rgb(255, 165, 0), 30, 4.15, 3, false),     // Mercury
    PlanetSpec(Rgb(255, 255, 0), 50, 1.62, 5, false),     // Venus
    PlanetSpec(Rgb(0, 100, 255), 70, 1.00, 6, true),      // Earth
    PlanetSpec(Rgb(255, 0, 0), 90, 0.53, 5, false),       // Mars
    PlanetSpec(Rgb(255, 200, 100), 120, 0.08, 12, true),  // Jupiter
    PlanetSpec(Rgb(200, 150, 100), 150, 0.03, 10, true),  // Saturn
    PlanetSpec(Rgb(100, 200, 255), 180, 0.011, 8, false), // Uranus
    PlanetSpec(Rgb(50, 50, 255), 210, 0.006, 8, false)    // Neptune
  ]

  const Moons: seq<MoonSpec> := [
    MoonSpec(2, Rgb(200, 200, 200), 10, 5.0, 2),  // Earth's Moon
    MoonSpec(4, Rgb(255, 150, 50), 15, 6.5, 2),   // Io
    MoonSpec(4, Rgb(255, 255, 255), 20, 4.8, 2),  // Europa
    MoonSpec(4, Rgb(150, 150, 150), 25, 2.5, 3),  // Ganymede
    MoonSpec(4, Rgb(120, 100, 90), 30, 1.2, 3),   // Callisto
    MoonSpec(5, Rgb(255, 180, 100), 15, 3.1, 2)   // Titan
  ]

  /** Every moon names an existing planet, and that planet is flagged as
      having moons, so the per-planet pass reaches every moon. */
  predicate ParentsHaveMoons(planets: seq<PlanetSpec>, moons: seq<MoonSpec>) {
    forall j :: 0 <= j < |moons| ==>
      moons[j].parent < |planets| && planets[moons[j].parent].hasMoons
  }

  /** The indices, in table order, of the first `n` moons whose parent is
      planet `i`: the moons `draw_moons(i, ...)` visits. */
  function MoonsOf(i: nat, n: nat): (js: seq<nat>)
    requires n <= |Moons|
    ensures forall k :: 0 <= k < |js| ==> js[k] < n && Moons[js[k]].parent == i
    ensures forall j :: 0 <= j < n && Moons[j].parent == i ==> j in js
    ensures forall k, l :: 0 <= k < l < |js| ==> js[k] < js[l]
  {
    if n == 0 then []
    else
      var prev := MoonsOf(i, n - 1);
      if Moons[n - 1].parent == i then
        assert forall k :: 0 <= k < |prev| ==> prev[k] < n - 1;
        prev + [n - 1]
      else prev
  }

  /** Visiting one more row of MOONS adds that row's index when its
      parent is planet `i`. */
  lemma MoonsOfStep(i: nat, n: nat)
    requires n < |Moons|
    ensures MoonsOf(i, n + 1) == MoonsOf(i, n) + (if Moons[n].parent == i then [n] else [])
  {
    if Moons[n].parent != i {
      assert MoonsOf(i, n) + [] == MoonsOf(i, n);
    }
  }

  /** The tables satisfy `ParentsHaveMoons`: Earth (2), Jupiter (4) and
      Saturn (5) carry `has_moons = True`. */
  lemma TablesConsistent()
    ensures ParentsHaveMoons(Planets, Moons)
  {
  }

  /** A planet not flagged `has_moons` owns no moon. */
  lemma NoMoonsWithoutFlag(i: nat)
    requires i < |Planets| && !Planets[i].hasMoons
    ensures MoonsOf(i, |Moons|) == []
  {
    EmptyMoonsOf(i, |Moons|);
  }

  /** A planet that no moon names has no moons to visit. */
  lemma {:induction false} EmptyMoonsOf(i: nat, n: nat)
    requires n <= |Moons|
    requires forall j :: 0 <= j < n ==> Moons[j].parent != i
    ensures MoonsOf(i, n) == []
  {
    if n > 0 {
      EmptyMoonsOf(i, n - 1);
    }
  }
}
