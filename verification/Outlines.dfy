/**
 The outlines of hazards (hazardGeometry and hazardCircleGeometry in
 internal/api/cop/graph_provider.go), and what they are without saying how they are found.
 */
module Outlines {
  import opened Checksum
  import opened Cop

  /** A drawn outline: a polygon, or the ellipse whose 24 points approximate a circle. */
  datatype Outline = Nothing | Polygon(points: seq<GeoPoint>) | Ellipse(center: GeoPoint, latDelta: real, lonDelta: real)

  predicate OnEarth(p: GeoPoint) {
    -90.0 <= p.lat <= 90.0 && -180.0 <= p.lon <= 180.0
  }

  function ValidPoints(points: seq<GeoPoint>): seq<GeoPoint> {
    if points == [] then []
    else (if OnEarth(points[0]) then [points[0]] else []) + ValidPoints(points[1..])
  }

  function FirstPolygon(polygons: seq<seq<GeoPoint>>): Outline {
    if polygons == [] then Nothing
    else if |ValidPoints(polygons[0])| >= 3 then Polygon(ValidPoints(polygons[0]))
    else FirstPolygon(polygons[1..])
  }

  const KM_PER_LAT_DEGREE := 111.32

  /** The cosine of an angle in degrees is a parameter: only its use here is modelled. */
  type Cosine = real -> real

  function CircleOutline(c: GeoCircle, cosine: Cosine): Outline {
    var scale := KM_PER_LAT_DEGREE * cosine(c.center.lat);
    if c.radiusKm <= 0.0 || !OnEarth(c.center) || -0.001 < scale < 0.001 then Nothing
    else Ellipse(c.center, c.radiusKm / KM_PER_LAT_DEGREE, c.radiusKm / scale)
  }

  function FirstCircle(circles: seq<GeoCircle>, cosine: Cosine): Outline {
    if circles == [] then Nothing
    else if CircleOutline(circles[0], cosine) != Nothing then CircleOutline(circles[0], cosine)
    else FirstCircle(circles[1..], cosine)
  }

  function HazardGeometry(d: HazardDocument, cosine: Cosine): Outline {
    if FirstPolygon(d.polygons) != Nothing then FirstPolygon(d.polygons) else FirstCircle(d.circles, cosine)
  }

  method DrawHazard(d: HazardDocument, cosine: Cosine) returns (outline: Outline)
    ensures outline == HazardGeometry(d, cosine)
  {
    hide ValidPoints, CircleOutline;
    assert d.polygons[0..] == d.polygons && d.circles[0..] == d.circles;
    for i := 0 to |d.polygons|
      invariant FirstPolygon(d.polygons[i..]) == FirstPolygon(d.polygons)
    {
      assert d.polygons[i..][0] == d.polygons[i] && d.polygons[i..][1..] == d.polygons[i + 1..];
      var points := PlacesOf(d.polygons[i]);
      if |points| >= 3 {
        return Polygon(points);
      }
    }
    for i := 0 to |d.circles|
      invariant FirstCircle(d.circles[i..], cosine) == FirstCircle(d.circles, cosine)
    {
      assert d.circles[i..][0] == d.circles[i] && d.circles[i..][1..] == d.circles[i + 1..];
      var circle := CircleOutline(d.circles[i], cosine);
      if circle != Nothing {
        return circle;
      }
    }
    return Nothing;
  }

  /** The points that lie on earth. */
  method PlacesOf(points: seq<GeoPoint>) returns (places: seq<GeoPoint>)
    ensures places == ValidPoints(points)
  {
    hide ValidPoints;
    places := [];
    assert points[0..] == points;
    for i := 0 to |points|
      invariant places + ValidPoints(points[i..]) == ValidPoints(points)
    {
      ValidStep(points, i);
      if points[i].lat < -90.0 || points[i].lat > 90.0 || points[i].lon < -180.0 || points[i].lon > 180.0 {
        continue;
      }
      places := places + [points[i]];
    }
    NothingIsValid(points);
  }

  lemma ValidStep(points: seq<GeoPoint>, i: nat)
    requires i < |points|
    ensures ValidPoints(points[i..]) == (if OnEarth(points[i]) then [points[i]] else []) + ValidPoints(points[i + 1..])
  {
    assert points[i..][0] == points[i] && points[i..][1..] == points[i + 1..];
  }

  lemma NothingIsValid(points: seq<GeoPoint>)
    ensures ValidPoints(points[|points|..]) == []
  {}

  // ---------- What is drawn ----------

  predicate IsPlace(p: GeoPoint) {
    -90.0 <= p.lat && p.lat <= 90.0 && -180.0 <= p.lon && p.lon <= 180.0
  }

  /** Ascending indices, not below the given one, at which the kept points stand; every place from there on is kept. */
  ghost predicate Picks(points: seq<GeoPoint>, from: nat, kept: seq<GeoPoint>, at: seq<nat>) {
    |at| == |kept|
    && (forall k :: 0 <= k < |at| ==> from <= at[k] < |points| && points[at[k]] == kept[k] && IsPlace(kept[k]))
    && (forall k, l :: 0 <= k < l < |at| ==> at[k] < at[l])
    && (forall i :: from <= i < |points| && IsPlace(points[i]) ==> i in at)
  }

  /** The kept points are those of the points that lie on earth, in their order. */
  ghost predicate IsReduced(points: seq<GeoPoint>, kept: seq<GeoPoint>) {
    exists at :: Picks(points, 0, kept, at)
  }

  ghost predicate IsSurface(points: seq<GeoPoint>, kept: seq<GeoPoint>) {
    IsReduced(points, kept) && |kept| >= 3
  }

  ghost predicate IsFlat(points: seq<GeoPoint>) {
    forall kept :: !IsSurface(points, kept)
  }

  /** A circle of some size on earth, and not so close to a pole that a degree of longitude is no distance. */
  predicate IsRound(c: GeoCircle, cosine: Cosine) {
    c.radiusKm > 0.0 && IsPlace(c.center)
    && (111.32 * cosine(c.center.lat) >= 0.001 || 111.32 * cosine(c.center.lat) <= -0.001)
  }

  ghost predicate AllFlat(polygons: seq<seq<GeoPoint>>) {
    forall points <- polygons :: IsFlat(points)
  }

  ghost predicate IsFirstSurface(polygons: seq<seq<GeoPoint>>, i: nat, points: seq<GeoPoint>) {
    i < |polygons| && IsSurface(polygons[i], points) && AllFlat(polygons[..i])
  }

  predicate IsFirstRound(circles: seq<GeoCircle>, i: nat, cosine: Cosine) {
    i < |circles| && IsRound(circles[i], cosine) && forall j :: 0 <= j < i ==> !IsRound(circles[j], cosine)
  }

  /** A degree of latitude is 111.32 km, one of longitude shorter by the cosine. */
  predicate Surrounds(c: GeoCircle, center: GeoPoint, latDelta: real, lonDelta: real, cosine: Cosine) {
    center == c.center && latDelta * 111.32 == c.radiusKm && lonDelta * (111.32 * cosine(center.lat)) == c.radiusKm
  }

  /**
   The first polygon with at least three points on earth, reduced to those; failing that an
   ellipse around the first circle that is round; failing that nothing.
   */
  ghost predicate Draws(o: Outline, polygons: seq<seq<GeoPoint>>, circles: seq<GeoCircle>, cosine: Cosine) {
    match o
    case Polygon(points) => exists i: nat :: IsFirstSurface(polygons, i, points)
    case Ellipse(center, latDelta, lonDelta) =>
      AllFlat(polygons)
      && (exists i: nat :: IsFirstRound(circles, i, cosine) && Surrounds(circles[i], center, latDelta, lonDelta, cosine))
    case Nothing => AllFlat(polygons) && (forall c <- circles :: !IsRound(c, cosine))
  }

  lemma {:induction false} PlacesArePicked(points: seq<GeoPoint>, from: nat) returns (at: seq<nat>)
    requires from <= |points|
    ensures Picks(points, from, ValidPoints(points[from..]), at)
    decreases |points| - from
  {
    hide Picks;
    if from == |points| {
      at := [];
      assert points[from..] == [];
      NothingToPick(points);
    } else {
      var rest := PlacesArePicked(points, from + 1);
      var kept := ValidPoints(points[from + 1..]);
      assert points[from..][1..] == points[from + 1..];
      if IsPlace(points[from]) {
        PicksOneMore(points, from, kept, rest);
        at := [from] + rest;
      } else {
        PicksNoMore(points, from, kept, rest);
        assert ValidPoints(points[from..]) == [] + kept == kept;
        at := rest;
      }
    }
  }

  lemma NothingToPick(points: seq<GeoPoint>)
    ensures Picks(points, |points|, [], [])
  {}

  lemma PicksNoMore(points: seq<GeoPoint>, from: nat, kept: seq<GeoPoint>, at: seq<nat>)
    requires from < |points| && !IsPlace(points[from])
    ensures Picks(points, from, kept, at) <==> Picks(points, from + 1, kept, at)
  {
    hide IsPlace;
  }

  lemma PicksOneMore(points: seq<GeoPoint>, from: nat, kept: seq<GeoPoint>, at: seq<nat>)
    requires from < |points| && IsPlace(points[from]) && Picks(points, from + 1, kept, at)
    ensures Picks(points, from, [points[from]] + kept, [from] + at)
  {
    hide IsPlace;
  }

  lemma PicksOneLess(points: seq<GeoPoint>, from: nat, kept: seq<GeoPoint>, at: seq<nat>)
    requires from < |points| && IsPlace(points[from]) && Picks(points, from, kept, at)
    ensures kept != [] && kept[0] == points[from] && Picks(points, from + 1, kept[1..], at[1..])
  {
    hide IsPlace;
    assert from in at;
    assert at[0] == from;
    forall i | from < i < |points| && IsPlace(points[i])
      ensures i in at[1..]
    {
      var k :| 0 <= k < |at| && at[k] == i;
      assert at[1..][k - 1] == i;
    }
  }

  /** There is only one way to keep exactly the places in their order. */
  lemma {:induction false} PickedAre(points: seq<GeoPoint>, from: nat, kept: seq<GeoPoint>, at: seq<nat>)
    requires from <= |points| && Picks(points, from, kept, at)
    ensures kept == ValidPoints(points[from..])
    decreases |points| - from
  {
    if from < |points| {
      assert points[from..][1..] == points[from + 1..];
      if IsPlace(points[from]) {
        PicksOneLess(points, from, kept, at);
        PickedAre(points, from + 1, kept[1..], at[1..]);
      } else {
        PicksNoMore(points, from, kept, at);
        PickedAre(points, from + 1, kept, at);
      }
    }
  }

  lemma ReducedExactly(points: seq<GeoPoint>, kept: seq<GeoPoint>)
    ensures IsReduced(points, kept) <==> kept == ValidPoints(points)
  {
    hide Picks;
    assert points[0..] == points;
    var at := PlacesArePicked(points, 0);
    if IsReduced(points, kept) {
      var other :| Picks(points, 0, kept, other);
      PickedAre(points, 0, kept, other);
    }
  }

  lemma FlatExactly(points: seq<GeoPoint>)
    ensures IsFlat(points) <==> |ValidPoints(points)| < 3
  {
    hide IsReduced, ValidPoints;
    ReducedExactly(points, ValidPoints(points));
    forall kept
      ensures IsSurface(points, kept) <==> kept == ValidPoints(points) && |kept| >= 3
    {
      ReducedExactly(points, kept);
    }
  }

  lemma {:induction false} FirstPolygonIs(polygons: seq<seq<GeoPoint>>) returns (i: nat)
    ensures match FirstPolygon(polygons)
      case Polygon(points) => IsFirstSurface(polygons, i, points)
      case _ => FirstPolygon(polygons) == Nothing && AllFlat(polygons)
  {
    hide IsFlat, IsSurface, ValidPoints;
    i := 0;
    if polygons != [] {
      FlatExactly(polygons[0]);
      SurfaceExactly(polygons[0], ValidPoints(polygons[0]));
      if |ValidPoints(polygons[0])| < 3 {
        var j := FirstPolygonIs(polygons[1..]);
        i := j + 1;
        assert polygons == [polygons[0]] + polygons[1..];
        assert i <= |polygons| ==> polygons[..i] == [polygons[0]] + polygons[1..][..j];
      }
    }
  }

  lemma SurfaceExactly(points: seq<GeoPoint>, kept: seq<GeoPoint>)
    ensures IsSurface(points, kept) <==> kept == ValidPoints(points) && |kept| >= 3
  {
    hide IsReduced, ValidPoints;
    ReducedExactly(points, kept);
  }

  lemma {:induction false} FirstCircleIs(circles: seq<GeoCircle>, cosine: Cosine) returns (i: nat)
    ensures match FirstCircle(circles, cosine)
      case Ellipse(center, latDelta, lonDelta) =>
        IsFirstRound(circles, i, cosine) && Surrounds(circles[i], center, latDelta, lonDelta, cosine)
      case _ => FirstCircle(circles, cosine) == Nothing && forall c <- circles :: !IsRound(c, cosine)
  {
    hide IsRound, CircleOutline, Surrounds;
    i := 0;
    if circles != [] {
      CircleIs(circles[0], cosine);
      if !IsRound(circles[0], cosine) {
        var j := FirstCircleIs(circles[1..], cosine);
        i := j + 1;
      }
    }
  }

  lemma CircleIs(c: GeoCircle, cosine: Cosine)
    ensures match CircleOutline(c, cosine)
      case Ellipse(center, latDelta, lonDelta) => IsRound(c, cosine) && Surrounds(c, center, latDelta, lonDelta, cosine)
      case _ => CircleOutline(c, cosine) == Nothing && !IsRound(c, cosine)
  {}

  lemma OutlineIsDrawn(d: HazardDocument, cosine: Cosine)
    ensures Draws(HazardGeometry(d, cosine), d.polygons, d.circles, cosine)
  {
    hide FirstPolygon, FirstCircle, IsFirstSurface, IsFirstRound, Surrounds, AllFlat;
    var i := FirstPolygonIs(d.polygons);
    var j := FirstCircleIs(d.circles, cosine);
  }

  /** Nothing is drawn exactly if no polygon has three points on earth and no circle is round. */
  lemma NothingExactly(d: HazardDocument, cosine: Cosine)
    ensures HazardGeometry(d, cosine) == Nothing <==> Draws(Nothing, d.polygons, d.circles, cosine)
  {
    hide HazardGeometry, IsReduced, IsRound, Surrounds;
    OutlineIsDrawn(d, cosine);
    match HazardGeometry(d, cosine)
    case Nothing =>
    case Polygon(points) =>
      var i: nat :| IsFirstSurface(d.polygons, i, points);
      assert d.polygons[i] in d.polygons;
    case Ellipse(center, latDelta, lonDelta) =>
      var i: nat :| IsFirstRound(d.circles, i, cosine) && Surrounds(d.circles[i], center, latDelta, lonDelta, cosine);
      assert d.circles[i] in d.circles;
  }
}
