/** How the planet and moon angles evolve during one frame: `draw_planets`
    advances each planet's angle once, and each `draw_moons` call advances
    the angles of the moons of one planet. The functions give the angle
    lists part-way through those loops. */
module Motion {
  import opened Numeric
  import opened Bodies

  /** Every angle of `s` lies in [0, 360). */
  predicate Wrapped(s: seq<real>) {
    forall k :: 0 <= k < |s| ==> 0.0 <= s[k] < 360.0
  }

  /** The planet angles after the first `n` iterations of `draw_planets`:
      `(angle + speed) % 360` for each planet below `n`, the old angle for
      the rest. */
  function PlanetsAdvanced(angles: seq<real>, n: nat): (r: seq<real>)
    requires |angles| == |Planets| && n <= |Planets|
    ensures |r| == |angles|
    ensures Wrapped(angles) ==> Wrapped(r)
  {
    seq(|angles|, k requires 0 <= k < |angles| =>
      if k < n then Wrap360(angles[k] + Planets[k].speed) else angles[k])
  }

  /** Iteration `n` of `draw_planets` changes planet `n`'s angle only. */
  lemma PlanetsAdvancedStep(angles: seq<real>, n: nat)
    requires |angles| == |Planets| && n < |Planets|
    ensures PlanetsAdvanced(angles, n + 1) ==
      PlanetsAdvanced(angles, n)[n := Wrap360(angles[n] + Planets[n].speed)]
  {
    var a, b := PlanetsAdvanced(angles, n + 1), PlanetsAdvanced(angles, n)[n := Wrap360(angles[n] + Planets[n].speed)];
    forall k | 0 <= k < |a|
      ensures a[k] == b[k]
    {
      if k != n {
        assert b[k] == PlanetsAdvanced(angles, n)[k];
      }
    }
  }

  /** The moon angles after `draw_moons(parent, ...)` has visited the first
      `n` rows of MOONS: the moons of `parent` among them are advanced, every
      other angle is the old one. */
  function MoonsOfAdvanced(angles: seq<real>, parent: nat, n: nat): (r: seq<real>)
    requires |angles| == |Moons| && n <= |Moons|
    ensures |r| == |angles|
    ensures Wrapped(angles) ==> Wrapped(r)
  {
    seq(|angles|, k requires 0 <= k < |angles| =>
      if k < n && Moons[k].parent == parent then Wrap360(angles[k] + Moons[k].speed) else angles[k])
  }

  /** Visiting row `n` of MOONS finds moon `n` not yet advanced, and
      advances it only when its parent is `parent`. */
  lemma MoonsOfAdvancedStep(angles: seq<real>, parent: nat, n: nat)
    requires |angles| == |Moons| && n < |Moons|
    ensures MoonsOfAdvanced(angles, parent, n)[n] == angles[n]
    ensures MoonsOfAdvanced(angles, parent, n + 1) ==
      if Moons[n].parent == parent
      then MoonsOfAdvanced(angles, parent, n)[n := Wrap360(angles[n] + Moons[n].speed)]
      else MoonsOfAdvanced(angles, parent, n)
  {
    var a, b := MoonsOfAdvanced(angles, parent, n + 1), MoonsOfAdvanced(angles, parent, n);
    var c := if Moons[n].parent == parent then b[n := Wrap360(angles[n] + Moons[n].speed)] else b;
    forall k | 0 <= k < |a|
      ensures a[k] == c[k]
    {
      if k != n {
        assert c[k] == b[k];
      }
    }
  }

  /** The moon angles after the first `i` iterations of `draw_planets`:
      the moons of planets below `i` are advanced, the others are not. */
  function MoonsAdvanced(angles: seq<real>, i: nat): (r: seq<real>)
    requires |angles| == |Moons|
    ensures |r| == |angles|
    ensures Wrapped(angles) ==> Wrapped(r)
  {
    seq(|angles|, k requires 0 <= k < |angles| =>
      if Moons[k].parent < i then Wrap360(angles[k] + Moons[k].speed) else angles[k])
  }

  /** Iteration `i` of `draw_planets` is one full `draw_moons(i, ...)` pass
      over the angles the earlier iterations left. */
  lemma MoonsAdvancedStep(angles: seq<real>, i: nat)
    requires |angles| == |Moons|
    ensures MoonsAdvanced(angles, i + 1) == MoonsOfAdvanced(MoonsAdvanced(angles, i), i, |Moons|)
  {
    var a, b := MoonsAdvanced(angles, i + 1), MoonsOfAdvanced(MoonsAdvanced(angles, i), i, |Moons|);
    forall k | 0 <= k < |a|
      ensures a[k] == b[k]
    {
      assert MoonsAdvanced(angles, i)[k] == if Moons[k].parent < i then Wrap360(angles[k] + Moons[k].speed) else angles[k];
    }
  }

  /** Once `draw_planets` has visited every planet, every moon has been
      advanced exactly once, since every moon's parent is a planet. */
  lemma EveryMoonAdvanced(angles: seq<real>)
    requires |angles| == |Moons|
    ensures forall j :: 0 <= j < |Moons| ==>
      MoonsAdvanced(angles, |Planets|)[j] == Wrap360(angles[j] + Moons[j].speed)
  {
    TablesConsistent();
  }

  /** A planet not flagged `has_moons` has no moon for `draw_moons` to
      advance, so skipping the call changes nothing. */
  lemma NoMoonsUnchanged(angles: seq<real>, i: nat)
    requires |angles| == |Moons| && i < |Planets| && !Planets[i].hasMoons
    ensures MoonsOfAdvanced(angles, i, |Moons|) == angles
  {
    TablesConsistent();
    var r := MoonsOfAdvanced(angles, i, |Moons|);
    forall k | 0 <= k < |r|
      ensures r[k] == angles[k]
    {
      assert Moons[k].parent != i;
    }
  }
}
