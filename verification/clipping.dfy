/** Spatial selection of features (the feature-clipping helper):
    `findFeaturesWithinBuffer` dispatches on geometry type and isolates
    failures per feature; `getPolygonContainingPoint` returns the first
    containing feature; `filterFeaturesInIsochrone` keeps the Points inside a
    polygon. The buffer, bounding-box clip, line split and point-in-polygon
    test are external geometry operations, passed in as functions that may
    throw. */
module Clipping {
  import opened Base
  import opened Json
  import opened Geo

  /** The geometry operations against one buffer (centre and radius fixed). */
  datatype BufferOps = BufferOps(
    /** `turf.point(coordinates)` then `booleanPointInPolygon(point, buffer)`. */
    pointInBuffer: Value -> Outcome<bool>,
    /** `turf.polygon(coordinates)` then `bboxClip(polygon, bbox(buffer))`. */
    bboxClip: Value -> Outcome<Geometry>,
    /** `turf.lineString(coordinates)` then `lineSplit(line, buffer)`: the segments. */
    lineSplit: Value -> Outcome<seq<Geometry>>)

  /** The copies pushed while handling one feature, and whether handling it
      ended in an exception (the copies pushed before it stay). */
  datatype Pushed = Pushed(features: seq<Feature>, threw: bool)

  /** The start point of a segment can be tested: it exists, and the test does not throw. */
  predicate StartTestable(ops: BufferOps, seg: Geometry) {
    First(seg.coordinates).Some? && ops.pointInBuffer(First(seg.coordinates).value).Ok?
  }

  /** The segments whose start point lies inside the buffer, in order. */
  function InsideSegments(ops: BufferOps, segs: seq<Geometry>): seq<Geometry> {
    if |segs| == 0 then []
    else
      var start := First(segs[0].coordinates);
      (if start.Some? && ops.pointInBuffer(start.value) == Ok(true) then [segs[0]] else [])
      + InsideSegments(ops, segs[1..])
  }

  /** One copy of `f` per geometry, in order. */
  function Copies(f: Feature, geoms: seq<Geometry>): (r: seq<Feature>)
    ensures |r| == |geoms|
    ensures forall i :: 0 <= i < |r| ==> r[i] == WithGeometry(f, geoms[i])
  {
    if |geoms| == 0 then [] else [WithGeometry(f, geoms[0])] + Copies(f, geoms[1..])
  }

  /** `split.features.forEach(...)`: a copy per segment starting inside the buffer. */
  function SegmentCopies(ops: BufferOps, f: Feature, segs: seq<Geometry>): (r: Pushed)
    ensures forall g :: g in r.features ==> g.properties == f.properties
    ensures !r.threw <==> forall i :: 0 <= i < |segs| ==> StartTestable(ops, segs[i])
    ensures !r.threw ==> r.features == Copies(f, InsideSegments(ops, segs))
  {
    if |segs| == 0 then Pushed([], false)
    else
      var start := First(segs[0].coordinates);
      if start.None? then Pushed([], true)
      else
        match ops.pointInBuffer(start.value)
        case Threw => Pushed([], true)
        case Ok(inside) =>
          var rest := SegmentCopies(ops, f, segs[1..]);
          assert (forall i :: 0 <= i < |segs| ==> StartTestable(ops, segs[i])) <==>
                 (forall i :: 0 <= i < |segs[1..]| ==> StartTestable(ops, segs[1..][i])) by {
            assert forall i :: 0 < i < |segs| ==> segs[i] == segs[1..][i - 1];
          }
          Pushed((if inside then [WithGeometry(f, segs[0])] else []) + rest.features, rest.threw)
  }

  /** Copying distributes over concatenation. */
  lemma CopiesAppend(f: Feature, a: seq<Geometry>, b: seq<Geometry>)
    ensures Copies(f, a + b) == Copies(f, a) + Copies(f, b)
  {
    assert forall i :: 0 <= i < |a + b| ==> Copies(f, a + b)[i] == (Copies(f, a) + Copies(f, b))[i];
  }

  /** Selecting inside segments distributes over concatenation. */
  lemma {:induction false} InsideSegmentsAppend(ops: BufferOps, a: seq<Geometry>, b: seq<Geometry>)
    ensures InsideSegments(ops, a + b) == InsideSegments(ops, a) + InsideSegments(ops, b)
    decreases |a|
  {
    if |a| == 0 {
      assert a + b == b;
    } else {
      assert (a + b)[0] == a[0];
      assert (a + b)[1..] == a[1..] + b;
      InsideSegmentsAppend(ops, a[1..], b);
    }
  }

  /** The index of the first segment whose start point cannot be tested,
      or `|segs|` when every one can. */
  function FirstUntestable(ops: BufferOps, segs: seq<Geometry>): (k: nat)
    ensures k <= |segs|
    ensures forall j :: 0 <= j < k ==> StartTestable(ops, segs[j])
    ensures k < |segs| ==> !StartTestable(ops, segs[k])
  {
    if |segs| == 0 || !StartTestable(ops, segs[0]) then 0
    else 1 + FirstUntestable(ops, segs[1..])
  }

  /** A line whose segment tests throw part-way keeps the copies pushed
      before the exception: those of the inside segments ahead of the first
      segment that cannot be tested. */
  lemma {:induction false} SegmentCopiesKeepsPrefix(ops: BufferOps, f: Feature, segs: seq<Geometry>)
    requires SegmentCopies(ops, f, segs).threw
    ensures FirstUntestable(ops, segs) < |segs|
    ensures SegmentCopies(ops, f, segs).features == Copies(f, InsideSegments(ops, segs[..FirstUntestable(ops, segs)]))
    decreases |segs|
  {
    if !StartTestable(ops, segs[0]) {
      assert segs[..0] == [];
    } else {
      var tail := segs[1..];
      SegmentCopiesKeepsPrefix(ops, f, tail);
      var k := FirstUntestable(ops, tail);
      assert FirstUntestable(ops, segs) == k + 1;
      var head := if ops.pointInBuffer(First(segs[0].coordinates).value) == Ok(true) then [segs[0]] else [];
      assert segs[..k + 1] == [segs[0]] + tail[..k];
      SegmentStep(ops, f, segs, head, k);
    }
  }

  /** One step of `SegmentCopiesKeepsPrefix`: a testable first segment adds
      its own copy, if any, ahead of the tail's. */
  lemma SegmentStep(ops: BufferOps, f: Feature, segs: seq<Geometry>, head: seq<Geometry>, k: nat)
    requires |segs| > 0 && StartTestable(ops, segs[0])
    requires head == if ops.pointInBuffer(First(segs[0].coordinates).value) == Ok(true) then [segs[0]] else []
    requires k <= |segs| - 1
    ensures Copies(f, InsideSegments(ops, [segs[0]] + segs[1..][..k])) == Copies(f, head) + Copies(f, InsideSegments(ops, segs[1..][..k]))
    ensures SegmentCopies(ops, f, segs).features == Copies(f, head) + SegmentCopies(ops, f, segs[1..]).features
  {
    InsideSegmentsAppend(ops, [segs[0]], segs[1..][..k]);
    assert InsideSegments(ops, [segs[0]]) == head by {
      assert [segs[0]][1..] == [];
    }
    CopiesAppend(f, head, InsideSegments(ops, segs[1..][..k]));
  }

  /** `for (const lineCoords of lines)`: split each line and keep the inside segments. */
  function LineCopies(ops: BufferOps, f: Feature, lines: seq<Value>): (r: Pushed)
    ensures forall g :: g in r.features ==> g.properties == f.properties
    ensures |lines| == 0 ==> r == Pushed([], false)
    ensures |lines| > 0 && ops.lineSplit(lines[0]).Threw? ==> r == Pushed([], true)
    ensures |lines| > 0 && ops.lineSplit(lines[0]).Ok? && SegmentCopies(ops, f, ops.lineSplit(lines[0]).value).threw ==>
              r == SegmentCopies(ops, f, ops.lineSplit(lines[0]).value)
  {
    if |lines| == 0 then Pushed([], false)
    else
      match ops.lineSplit(lines[0])
      case Threw => Pushed([], true)
      case Ok(segs) =>
        var p := SegmentCopies(ops, f, segs);
        if p.threw then p
        else
          var rest := LineCopies(ops, f, lines[1..]);
          Pushed(p.features + rest.features, rest.threw)
  }

  predicate IsPointKind(k: GeomType) { k == Point || k == MultiPoint }
  predicate IsLineKind(k: GeomType) { k == LineString || k == MultiLineString }

  /** What one feature contributes to `findFeaturesWithinBuffer`'s result.
      Whatever was pushed before an exception stays; the exception itself is
      caught and logged. */
  function Emit(ops: BufferOps, f: Feature): (r: seq<Feature>)
    ensures f.geometry.None? ==> r == []
    ensures forall g :: g in r ==> g.properties == f.properties
    ensures f.geometry.Some? && IsPointKind(f.geometry.value.kind) ==>
              r == (if ops.pointInBuffer(f.geometry.value.coordinates) == Ok(true) then [f] else [])
    ensures f.geometry.Some? && IsPolygonal(f.geometry.value) ==>
              var clip := ops.bboxClip(f.geometry.value.coordinates);
              r == (if clip.Ok? && HasPositiveLength(clip.value.coordinates) then [WithGeometry(f, clip.value)] else [])
    ensures f.geometry.Some? && f.geometry.value.kind.OtherType? ==> r == []
    ensures f.geometry.Some? && f.geometry.value.kind == LineString ==>
              r == LineCopies(ops, f, [f.geometry.value.coordinates]).features
    ensures f.geometry.Some? && f.geometry.value.kind == MultiLineString ==>
              r == (if f.geometry.value.coordinates.Arr? then LineCopies(ops, f, f.geometry.value.coordinates.elems).features else [])
  {
    match f.geometry
    case None => []
    case Some(g) =>
      if IsPointKind(g.kind) then
        if ops.pointInBuffer(g.coordinates) == Ok(true) then [f] else []
      else if IsPolygonal(g) then
        match ops.bboxClip(g.coordinates)
        case Ok(clipped) => if HasPositiveLength(clipped.coordinates) then [WithGeometry(f, clipped)] else []
        case Threw => []
      else if g.kind == LineString then
        LineCopies(ops, f, [g.coordinates]).features
      else if g.kind == MultiLineString then
        if g.coordinates.Arr? then LineCopies(ops, f, g.coordinates.elems).features else []
      else []
  }

  /** A LineString whose split and start-point tests all succeed yields one
      copy per segment that starts inside the buffer, in segment order, each
      carrying the feature's properties and the segment as geometry. */
  lemma LineStringKeepsInsideSegments(ops: BufferOps, f: Feature, segs: seq<Geometry>)
    requires f.geometry.Some? && f.geometry.value.kind == LineString
    requires ops.lineSplit(f.geometry.value.coordinates) == Ok(segs)
    requires forall i :: 0 <= i < |segs| ==> StartTestable(ops, segs[i])
    ensures Emit(ops, f) == Copies(f, InsideSegments(ops, segs))
  {
    var lines := [f.geometry.value.coordinates];
    assert lines[1..] == [];
    assert LineCopies(ops, f, lines).features == SegmentCopies(ops, f, segs).features + [];
  }

  /** A LineString whose segment tests throw part-way keeps, in the result,
      the copies of the inside segments ahead of the first segment that
      cannot be tested. */
  lemma LineStringThrowKeepsPrefix(ops: BufferOps, f: Feature, segs: seq<Geometry>)
    requires f.geometry.Some? && f.geometry.value.kind == LineString
    requires ops.lineSplit(f.geometry.value.coordinates) == Ok(segs)
    requires SegmentCopies(ops, f, segs).threw
    ensures FirstUntestable(ops, segs) < |segs|
    ensures Emit(ops, f) == Copies(f, InsideSegments(ops, segs[..FirstUntestable(ops, segs)]))
  {
    SegmentCopiesKeepsPrefix(ops, f, segs);
  }

  /** The lines are handled in order: once a prefix of the lines went
      through without an exception, the rest continues after its copies; an
      exception in the prefix ends the feature there. */
  lemma LineCopiesAppend(ops: BufferOps, f: Feature, a: seq<Value>, b: seq<Value>)
    ensures !LineCopies(ops, f, a).threw ==>
              LineCopies(ops, f, a + b) == Pushed(LineCopies(ops, f, a).features + LineCopies(ops, f, b).features,
                                                  LineCopies(ops, f, b).threw)
    ensures LineCopies(ops, f, a).threw ==> LineCopies(ops, f, a + b) == LineCopies(ops, f, a)
  {
    if LineCopies(ops, f, a).threw {
      LineCopiesAppendThrew(ops, f, a, b);
    } else {
      LineCopiesAppendOk(ops, f, a, b);
    }
  }

  lemma {:induction false} LineCopiesAppendOk(ops: BufferOps, f: Feature, a: seq<Value>, b: seq<Value>)
    requires !LineCopies(ops, f, a).threw
    ensures LineCopies(ops, f, a + b) == Pushed(LineCopies(ops, f, a).features + LineCopies(ops, f, b).features,
                                                LineCopies(ops, f, b).threw)
    decreases |a|
  {
    if |a| == 0 {
      assert a + b == b;
    } else {
      LineCopiesFirst(ops, f, a);
      assert (a + b)[0] == a[0];
      assert (a + b)[1..] == a[1..] + b;
      LineCopiesFirst(ops, f, a + b);
      LineCopiesAppendOk(ops, f, a[1..], b);
      var p := SegmentCopies(ops, f, ops.lineSplit(a[0]).value);
      var ra := LineCopies(ops, f, a[1..]);
      var rb := LineCopies(ops, f, b);
      assert LineCopies(ops, f, a) == Pushed(p.features + ra.features, ra.threw);
      assert LineCopies(ops, f, (a + b)[1..]) == Pushed(ra.features + rb.features, rb.threw);
      assert LineCopies(ops, f, a + b) == Pushed(p.features + (ra.features + rb.features), rb.threw);
      AppendAssociates(p.features, ra.features, rb.features);
    }
  }

  lemma AppendAssociates<T>(x: seq<T>, y: seq<T>, z: seq<T>)
    ensures x + (y + z) == (x + y) + z
  {
  }

  /** A line that splits and tests without an exception puts its copies
      ahead of those of the lines after it. */
  lemma LineCopiesFirst(ops: BufferOps, f: Feature, lines: seq<Value>)
    requires |lines| > 0
    ensures !LineCopies(ops, f, lines).threw ==>
              ops.lineSplit(lines[0]).Ok? && !SegmentCopies(ops, f, ops.lineSplit(lines[0]).value).threw
    ensures ops.lineSplit(lines[0]).Ok? && !SegmentCopies(ops, f, ops.lineSplit(lines[0]).value).threw ==>
              var p := SegmentCopies(ops, f, ops.lineSplit(lines[0]).value);
              var rest := LineCopies(ops, f, lines[1..]);
              LineCopies(ops, f, lines) == Pushed(p.features + rest.features, rest.threw)
  {
  }

  lemma {:induction false} LineCopiesAppendThrew(ops: BufferOps, f: Feature, a: seq<Value>, b: seq<Value>)
    requires LineCopies(ops, f, a).threw
    ensures LineCopies(ops, f, a + b) == LineCopies(ops, f, a)
    decreases |a|
  {
    assert (a + b)[0] == a[0];
    assert (a + b)[1..] == a[1..] + b;
    if ops.lineSplit(a[0]).Ok? && !SegmentCopies(ops, f, ops.lineSplit(a[0]).value).threw {
      LineCopiesAppendThrew(ops, f, a[1..], b);
    }
  }

  /** When every split and every start-point test succeeds, the lines yield
      one copy per segment starting inside the buffer, line after line and
      segment after segment. */
  lemma {:induction false} LineCopiesAllSucceed(ops: BufferOps, f: Feature, lines: seq<Value>, splits: seq<seq<Geometry>>)
    requires |splits| == |lines|
    requires forall i :: 0 <= i < |lines| ==> ops.lineSplit(lines[i]) == Ok(splits[i])
    requires forall i, j :: 0 <= i < |splits| && 0 <= j < |splits[i]| ==> StartTestable(ops, splits[i][j])
    ensures LineCopies(ops, f, lines) == Pushed(Copies(f, InsideSegments(ops, Flatten(splits))), false)
    decreases |lines|
  {
    if |lines| > 0 {
      LineCopiesAllSucceed(ops, f, lines[1..], splits[1..]);
      var p := SegmentCopies(ops, f, splits[0]);
      assert !p.threw;
      InsideSegmentsAppend(ops, splits[0], Flatten(splits[1..]));
      CopiesAppend(f, InsideSegments(ops, splits[0]), InsideSegments(ops, Flatten(splits[1..])));
    }
  }

  /** A MultiLineString whose splits and start-point tests all succeed
      yields, for each of its lines in order, one copy per segment starting
      inside the buffer. */
  lemma MultiLineStringKeepsInsideSegments(ops: BufferOps, f: Feature, splits: seq<seq<Geometry>>)
    requires f.geometry.Some? && f.geometry.value.kind == MultiLineString && f.geometry.value.coordinates.Arr?
    requires |splits| == |f.geometry.value.coordinates.elems|
    requires forall i :: 0 <= i < |splits| ==> ops.lineSplit(f.geometry.value.coordinates.elems[i]) == Ok(splits[i])
    requires forall i, j :: 0 <= i < |splits| && 0 <= j < |splits[i]| ==> StartTestable(ops, splits[i][j])
    ensures Emit(ops, f) == Copies(f, InsideSegments(ops, Flatten(splits)))
  {
    var g := f.geometry.value;
    LineCopiesAllSucceed(ops, f, g.coordinates.elems, splits);
    assert !IsPointKind(g.kind) && !IsPolygonal(g) && g.kind != LineString;
    assert Emit(ops, f) == LineCopies(ops, f, g.coordinates.elems).features;
  }

  /** `findFeaturesWithinBuffer`: every feature's contribution, in input order. */
  function FindFeaturesWithinBuffer(ops: BufferOps, fs: seq<Feature>): (r: seq<Feature>)
    ensures forall g :: g in r ==> exists i :: 0 <= i < |fs| && g.properties == fs[i].properties
  {
    if |fs| == 0 then []
    else
      var rest := FindFeaturesWithinBuffer(ops, fs[1..]);
      assert forall g :: g in rest ==> exists i :: 0 <= i < |fs| && g.properties == fs[i].properties by {
        forall g | g in rest ensures exists i :: 0 <= i < |fs| && g.properties == fs[i].properties {
          var i :| 0 <= i < |fs[1..]| && g.properties == fs[1..][i].properties;
          assert fs[i + 1] == fs[1..][i];
        }
      }
      Emit(ops, fs[0]) + rest
  }

  /** Features are handled independently and in order: the result for a
      concatenation is the concatenation of the results, so a feature that
      throws never affects the ones after it. */
  lemma {:induction false} WithinBufferIsPerFeature(ops: BufferOps, a: seq<Feature>, b: seq<Feature>)
    ensures FindFeaturesWithinBuffer(ops, a + b) == FindFeaturesWithinBuffer(ops, a) + FindFeaturesWithinBuffer(ops, b)
    decreases |a|
  {
    if |a| == 0 {
      assert a + b == b;
    } else {
      assert (a + b)[0] == a[0];
      assert (a + b)[1..] == a[1..] + b;
      WithinBufferIsPerFeature(ops, a[1..], b);
    }
  }

  /** The contribution of each feature of a list, as a single-feature call. */
  lemma WithinBufferSingle(ops: BufferOps, f: Feature)
    ensures FindFeaturesWithinBuffer(ops, [f]) == Emit(ops, f)
  {
    assert [f][1..] == [];
  }

  /** `getPolygonContainingPoint`: the first feature, in order, containing the
      point, or `null`; the point-in-polygon test may throw, and the
      exception propagates. */
  function GetPolygonContainingPoint(fs: seq<Feature>, contains: Feature -> Outcome<bool>): (r: Outcome<Option<Feature>>)
    ensures r == Ok(None) <==> forall i :: 0 <= i < |fs| ==> contains(fs[i]) == Ok(false)
    ensures r.Ok? && r.value.Some? ==>
              exists i :: 0 <= i < |fs| && fs[i] == r.value.value && contains(fs[i]) == Ok(true)
                          && forall j :: 0 <= j < i ==> contains(fs[j]) == Ok(false)
    ensures r == Threw <==>
              exists i :: 0 <= i < |fs| && contains(fs[i]) == Threw && forall j :: 0 <= j < i ==> contains(fs[j]) == Ok(false)
  {
    if |fs| == 0 then Ok(None)
    else
      match contains(fs[0])
      case Threw => Threw
      case Ok(true) => Ok(Some(fs[0]))
      case Ok(false) =>
        var rest := GetPolygonContainingPoint(fs[1..], contains);
        assert forall i :: 0 < i < |fs| ==> fs[i] == fs[1..][i - 1];
        assert rest.Ok? && rest.value.Some? ==>
                 exists i :: 0 <= i < |fs| && fs[i] == rest.value.value && contains(fs[i]) == Ok(true)
                             && forall j :: 0 <= j < i ==> contains(fs[j]) == Ok(false) by {
          if rest.Ok? && rest.value.Some? {
            var i :| 0 <= i < |fs[1..]| && fs[1..][i] == rest.value.value && contains(fs[1..][i]) == Ok(true)
                     && forall j :: 0 <= j < i ==> contains(fs[1..][j]) == Ok(false);
            assert fs[i + 1] == rest.value.value;
          }
        }
        assert rest == Threw ==>
                 exists i :: 0 <= i < |fs| && contains(fs[i]) == Threw && forall j :: 0 <= j < i ==> contains(fs[j]) == Ok(false) by {
          if rest == Threw {
            var i :| 0 <= i < |fs[1..]| && contains(fs[1..][i]) == Threw && forall j :: 0 <= j < i ==> contains(fs[1..][j]) == Ok(false);
            assert contains(fs[i + 1]) == Threw;
          }
        }
        rest
  }

  /** A feature with a Point geometry. */
  predicate IsPointFeature(f: Feature) {
    f.geometry.Some? && f.geometry.value.kind == Point
  }

  /** The isochrone test of one feature: only Points are tested. */
  function InIsochrone(inside: Feature -> Outcome<bool>, f: Feature): Outcome<bool> {
    if IsPointFeature(f) then inside(f) else Ok(false)
  }

  /** `filterFeaturesInIsochrone`: the Point features inside the polygon, in
      order; other geometries (and missing ones) are dropped without a test.
      A throwing test aborts the whole filter. */
  function FilterFeaturesInIsochrone(inside: Feature -> Outcome<bool>, fs: seq<Feature>): (r: Outcome<seq<Feature>>)
    ensures r.Ok? ==> r.value == Filter(fs, (f: Feature) => IsPointFeature(f) && inside(f) == Ok(true))
    ensures r == Threw <==> exists i :: 0 <= i < |fs| && IsPointFeature(fs[i]) && inside(fs[i]) == Threw
  {
    var test := f => InIsochrone(inside, f);
    FilterCongruent(fs, KeepOk(test), (f: Feature) => IsPointFeature(f) && inside(f) == Ok(true));
    FilterOutcome(fs, test)
  }
}
