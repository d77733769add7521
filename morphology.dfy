/**
 * Morphological validation: a detection is kept only when its class is in the
 * profile table and its truncated box has an area and an aspect ratio (long side
 * over short side) inside that class's closed intervals.
 */
module Morphology {

  /** Acceptance envelope of one vehicle class. The display colour is not modelled. */
  datatype Profile = Profile(areaMin: int, areaMax: int, ratioMin: real, ratioMax: real)

  /** Bounding box as the detector reports it: pixel corners, not yet truncated. */
  datatype Box = Box(x1: real, y1: real, x2: real, y2: real)

  /** The invariant every profile is meant to keep: positive area bounds, ratio bounds at least 1. */
  predicate SaneProfiles(table: map<string, Profile>) {
    forall name | name in table ::
      0 < table[name].areaMin <= table[name].areaMax &&
      1.0 <= table[name].ratioMin <= table[name].ratioMax
  }

  /** The monitor's static class table, keyed by lower-case class name. */
  function Profiles(): (table: map<string, Profile>)
    ensures SaneProfiles(table)
    ensures |table| == 4
  {
    map[
      "leve" := Profile(800, 18000, 1.0, 3.5),
      "pesado" := Profile(2000, 60000, 1.5, 6.0),
      "moto" := Profile(100, 2500, 1.2, 4.0),
      "bicicleta" := Profile(150, 1500, 1.8, 5.0)
    ]
  }

  function Min(a: int, b: int): int {
    if a <= b then a else b
  }

  function Max(a: int, b: int): int {
    if a <= b then b else a
  }

  /** Python's `int()` on a float: the integer part, rounding toward zero. */
  function Truncate(x: real): (n: int)
    ensures 0.0 <= x ==> n as real <= x < n as real + 1.0
    ensures x < 0.0 ==> n as real - 1.0 < x <= n as real
  {
    if 0.0 <= x then x.Floor else -((-x).Floor)
  }

  /** Truncation never reverses the order of two coordinates. */
  lemma TruncateMonotone(a: real, b: real)
    requires a <= b
    ensures Truncate(a) <= Truncate(b)
  {
  }

  function Width(box: Box): int {
    Truncate(box.x2) - Truncate(box.x1)
  }

  function Height(box: Box): int {
    Truncate(box.y2) - Truncate(box.y1)
  }

  /**
   * Whether a detection of class `name` whose truncated box is `w` by `h` pixels lies
   * in the class envelope: class known, no zero side, area and long-over-short ratio
   * inside the closed intervals.
   */
  function Admits(table: map<string, Profile>, name: string, w: int, h: int): (ok: bool)
    ensures name !in table ==> !ok
    ensures Min(w, h) == 0 ==> !ok
    ensures ok ==> table[name].areaMin <= w * h <= table[name].areaMax
  {
    if name !in table then false
    else
      var profile := table[name];
      if Min(w, h) == 0 then false
      else
        var area := w * h;
        var ratio := Max(w, h) as real / Min(w, h) as real;
        if area < profile.areaMin || area > profile.areaMax then false
        else if ratio < profile.ratioMin || ratio > profile.ratioMax then false
        else true
  }

  /** Accept or reject one detection of class `name` with box `box`. */
  function Validate(table: map<string, Profile>, box: Box, name: string): (ok: bool)
    ensures name !in table ==> !ok
    ensures Min(Width(box), Height(box)) == 0 ==> !ok
    ensures ok ==> table[name].areaMin <= Width(box) * Height(box) <= table[name].areaMax
  {
    Admits(table, name, Width(box), Height(box))
  }

  /** Comparing a quotient by a positive divisor is comparing the cross product. */
  lemma QuotientBounds(lo: real, hi: real, long: int, short: int)
    requires short > 0
    ensures lo <= long as real / short as real <==> lo * short as real <= long as real
    ensures long as real / short as real <= hi <==> long as real <= hi * short as real
  {
    var q := long as real / short as real;
    assert q * short as real == long as real;
  }

  /** Well-ordered corners give non-negative sides once truncated. */
  lemma OrderedBoxSides(box: Box)
    requires box.x1 <= box.x2 && box.y1 <= box.y2
    ensures Width(box) >= 0 && Height(box) >= 0
  {
    TruncateMonotone(box.x1, box.x2);
    TruncateMonotone(box.y1, box.y2);
  }

  /**
   * For a box with positive sides, validation accepts exactly when the class is known,
   * the area lies in [areaMin, areaMax] and the long side lies between ratioMin and
   * ratioMax times the short side (the ratio test without division).
   */
  lemma ValidateWithinEnvelope(table: map<string, Profile>, box: Box, name: string)
    requires Width(box) > 0 && Height(box) > 0
    ensures Validate(table, box, name) <==>
      name in table &&
      var p, w, h := table[name], Width(box), Height(box);
      p.areaMin <= w * h <= p.areaMax &&
      p.ratioMin * Min(w, h) as real <= Max(w, h) as real <= p.ratioMax * Min(w, h) as real
  {
    AdmitsWithinEnvelope(table, name, Width(box), Height(box));
  }

  lemma AdmitsWithinEnvelope(table: map<string, Profile>, name: string, w: int, h: int)
    requires w > 0 && h > 0
    ensures Admits(table, name, w, h) <==>
      name in table &&
      table[name].areaMin <= w * h <= table[name].areaMax &&
      table[name].ratioMin * Min(w, h) as real <= Max(w, h) as real <= table[name].ratioMax * Min(w, h) as real
  {
    if name in table {
      var p := table[name];
      QuotientBounds(p.ratioMin, p.ratioMax, Max(w, h), Min(w, h));
    }
  }

  /**
   * The zero-side guard does not catch inverted corners. With sane profiles such a
   * box is rejected unless both sides are negative and equal (ratio exactly 1).
   */
  lemma InvertedBoxAcceptedOnlyIfSquare(table: map<string, Profile>, box: Box, name: string)
    requires SaneProfiles(table)
    requires Width(box) < 0 || Height(box) < 0
    ensures Validate(table, box, name) ==> Width(box) == Height(box) < 0
  {
    NegativeSideAdmittedOnlyIfSquare(table, name, Width(box), Height(box));
  }

  lemma NegativeSideAdmittedOnlyIfSquare(table: map<string, Profile>, name: string, w: int, h: int)
    requires SaneProfiles(table)
    requires w < 0 || h < 0
    ensures Admits(table, name, w, h) ==> w == h < 0
  {
    if Admits(table, name, w, h) {
      var p := table[name];
      assert 0 < p.areaMin <= w * h;
      assert w < 0 && h < 0;
      var lo, hi := Min(w, h), Max(w, h);
      var q := hi as real / lo as real;
      assert q * lo as real == hi as real;
      assert 1.0 <= q;
      assert hi <= lo;
    }
  }

  /** A 40 by 50 light-vehicle box (area 2000, ratio 1.25) is accepted. */
  lemma LightVehicleBoxAccepted()
    ensures Validate(Profiles(), Box(100.0, 100.0, 140.0, 150.0), "leve")
  {
    var box := Box(100.0, 100.0, 140.0, 150.0);
    assert Width(box) == 40 && Height(box) == 50;
    AdmitsWithinEnvelope(Profiles(), "leve", 40, 50);
  }

  /** A 1 by 200 light-vehicle box (ratio 200) is rejected. */
  lemma ThinBoxRejected()
    ensures !Validate(Profiles(), Box(100.0, 100.0, 101.0, 300.0), "leve")
  {
    var box := Box(100.0, 100.0, 101.0, 300.0);
    assert Width(box) == 1 && Height(box) == 200;
    AdmitsWithinEnvelope(Profiles(), "leve", 1, 200);
  }
}
