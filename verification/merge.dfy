/** Cross-tile stitching of decoded features (`fetchAndProcessTile` and
    `fetchTileData` of the tile helper). Tiles are handled one after another,
    so the merge is a left fold over the decoded tiles. Polygonal features
    with a truthy `geohash_id` are accumulated in an id-keyed map: the first
    sighting is stored as is, and each later sighting replaces only the stored
    geometry by the union of the two. Every other feature goes, in order, to
    a list of other features. The union itself is an external operation. */
module TileMerge {
  import opened Base
  import opened Json
  import opened Geo

  /** What the vector-tile decoder hands back for one tile. */
  datatype DecodeResult = Decoded(features: seq<Feature>) | DecodeError

  /** `fetchAndProcessTile`: a decoder error is logged and becomes an empty collection. */
  function ProcessTile(d: DecodeResult): (r: seq<Feature>)
    ensures d.DecodeError? ==> r == []
    ensures d.Decoded? ==> r == d.features
  {
    match d
    case Decoded(fs) => fs
    case DecodeError => []
  }

  /** The outcome of building two polygons from coordinate arrays and
      calling `turf.union` on them: a merged geometry, a null result, or an
      exception (invalid rings, degenerate input). */
  datatype UnionResult = Merged(geometry: Geometry) | NoUnion | UnionThrew

  type UnionOp = (Value, Value) -> UnionResult

  /** The merge map (keys in first-sighting order) and the other features. */
  datatype MergeState = MergeState(order: seq<Value>, byId: map<Value, Feature>, others: seq<Feature>)

  const Empty: MergeState := MergeState([], map[], [])

  /** The map's keys are exactly the ids listed in `order`, each once. */
  ghost predicate Valid(st: MergeState) {
    && NoDuplicates(st.order)
    && (forall k :: k in st.byId <==> k in st.order)
  }

  /** `feature.properties?.geohash_id`. */
  function IdOf(f: Feature): Option<Value> {
    Get(f.properties, "geohash_id")
  }

  /** A feature that takes part in merging: polygonal, with a truthy id. */
  predicate Mergeable(f: Feature) {
    HasPolygonalGeometry(f) && TruthyOpt(IdOf(f))
  }

  predicate NotMergeable(f: Feature) {
    !Mergeable(f)
  }

  predicate HasGeometry(f: Feature) {
    f.geometry.Some?
  }

  /** The coordinates handed to the union: the first part of a MultiPolygon,
      the whole coordinates of anything else (`undefined` when a
      MultiPolygon has no first part). */
  function UnionPart(g: Geometry): Option<Value> {
    if g.kind == MultiPolygon then First(g.coordinates) else Some(g.coordinates)
  }

  /** A repeat sighting of a stored feature: only the geometry may change,
      and only to the union of the two; if the union throws or has no
      result the stored feature stays as it was. */
  function Combine(stored: Feature, incoming: Feature, union: UnionOp): (r: Feature)
    requires HasGeometry(incoming)
    ensures r.properties == stored.properties
    ensures r != stored ==>
              && stored.geometry.Some?
              && UnionPart(stored.geometry.value).Some?
              && UnionPart(incoming.geometry.value).Some?
              && r.geometry.Some?
              && union(UnionPart(stored.geometry.value).value, UnionPart(incoming.geometry.value).value)
                 == Merged(r.geometry.value)
    ensures stored.geometry.Some? && UnionPart(stored.geometry.value).Some? && UnionPart(incoming.geometry.value).Some? ==>
              var u := union(UnionPart(stored.geometry.value).value, UnionPart(incoming.geometry.value).value);
              u.Merged? ==> r == WithGeometry(stored, u.geometry)
  {
    if stored.geometry.None? then stored
    else
      var left := UnionPart(stored.geometry.value);
      var right := UnionPart(incoming.geometry.value);
      if left.None? || right.None? then stored
      else
        match union(left.value, right.value)
        case Merged(g) => WithGeometry(stored, g)
        case NoUnion => stored
        case UnionThrew => stored
  }

  /** Only the first part of a MultiPolygon reaches the union: two incoming
      MultiPolygons that agree on their first part merge identically. */
  lemma OnlyFirstPartIsUnioned(stored: Feature, a: Feature, b: Feature, union: UnionOp)
    requires HasGeometry(a) && HasGeometry(b)
    requires a.geometry.value.kind == MultiPolygon && b.geometry.value.kind == MultiPolygon
    requires First(a.geometry.value.coordinates) == First(b.geometry.value.coordinates)
    ensures Combine(stored, a, union) == Combine(stored, b, union)
  {
  }

  /** The loop body of `fetchTileData` for one feature that has a geometry. */
  function Step(st: MergeState, f: Feature, union: UnionOp): (r: MergeState)
    requires HasGeometry(f)
    requires Valid(st)
    ensures Valid(r)
    ensures !Mergeable(f) ==> r == st.(others := st.others + [f])
    ensures Mergeable(f) && IdOf(f).value !in st.byId ==>
              r == MergeState(st.order + [IdOf(f).value], st.byId[IdOf(f).value := f], st.others)
    ensures Mergeable(f) && IdOf(f).value in st.byId ==>
              && r.order == st.order && r.others == st.others && r.byId.Keys == st.byId.Keys
              && r.byId == st.byId[IdOf(f).value := Combine(st.byId[IdOf(f).value], f, union)]
              && r.byId[IdOf(f).value].properties == st.byId[IdOf(f).value].properties
              && forall k :: k in st.byId && k != IdOf(f).value ==> r.byId[k] == st.byId[k]
  {
    if Mergeable(f) then
      var id := IdOf(f).value;
      if id in st.byId then st.(byId := st.byId[id := Combine(st.byId[id], f, union)])
      else
        assert NoDuplicates(st.order + [id]) by {
          assert id !in st.order;
        }
        MergeState(st.order + [id], st.byId[id := f], st.others)
    else st.(others := st.others + [f])
  }

  /** One decoded tile. A feature without geometry makes `feature.geometry.type`
      throw; the exception is caught per tile, so the rest of that tile is lost. */
  function MergeTile(st: MergeState, fs: seq<Feature>, union: UnionOp): (r: MergeState)
    requires Valid(st)
    ensures Valid(r)
    decreases |fs|
  {
    if |fs| == 0 || !HasGeometry(fs[0]) then st
    else MergeTile(Step(st, fs[0], union), fs[1..], union)
  }

  /** The tiles in order, each through `fetchAndProcessTile` and the merge. */
  function MergeTiles(st: MergeState, tiles: seq<DecodeResult>, union: UnionOp): (r: MergeState)
    requires Valid(st)
    ensures Valid(r)
    decreases |tiles|
  {
    if |tiles| == 0 then st
    else MergeTiles(MergeTile(st, ProcessTile(tiles[0]), union), tiles[1..], union)
  }

  /** `[...Object.values(featureMap), ...otherFeatures]`, map values in first-sighting order. */
  function Output(st: MergeState): (r: seq<Feature>)
    requires Valid(st)
    ensures |r| == |st.order| + |st.others|
    ensures forall i :: 0 <= i < |st.order| ==> r[i] == st.byId[st.order[i]]
    ensures r[|st.order|..] == st.others
  {
    seq(|st.order|, i requires 0 <= i < |st.order| => st.byId[st.order[i]]) + st.others
  }

  /** `fetchTileData` over the decoded tiles, in order. */
  function FetchTileData(tiles: seq<DecodeResult>, union: UnionOp): seq<Feature> {
    Output(MergeTiles(Empty, tiles, union))
  }

  /** A polygon cut in two by a tile border is stitched back: its halves in
      two neighbouring tiles come out as one feature, with the first half's
      properties and the union of the halves as geometry. */
  lemma SplitPolygonIsStitched(a: Feature, b: Feature, union: UnionOp, g: Geometry)
    requires Mergeable(a) && Mergeable(b) && IdOf(a) == IdOf(b)
    requires UnionPart(a.geometry.value).Some? && UnionPart(b.geometry.value).Some?
    requires union(UnionPart(a.geometry.value).value, UnionPart(b.geometry.value).value) == Merged(g)
    ensures FetchTileData([Decoded([a]), Decoded([b])], union) == [WithGeometry(a, g)]
  {
    var id := IdOf(a).value;
    var st1 := Step(Empty, a, union);
    assert MergeTile(Empty, [a], union) == st1 by {
      assert [a][1..] == [];
    }
    var st2 := Step(st1, b, union);
    assert MergeTile(st1, [b], union) == st2 by {
      assert [b][1..] == [];
    }
    var tiles := [Decoded([a]), Decoded([b])];
    assert tiles[1..] == [Decoded([b])] && tiles[1..][1..] == [];
    assert MergeTiles(st2, tiles[1..][1..], union) == st2;
    assert MergeTiles(st1, tiles[1..], union) == MergeTiles(MergeTile(st1, ProcessTile(tiles[1..][0]), union), tiles[1..][1..], union);
    assert MergeTiles(Empty, tiles, union) == MergeTiles(MergeTile(Empty, ProcessTile(tiles[0]), union), tiles[1..], union);
    assert st2 == MergeState([id], map[id := WithGeometry(a, g)], []);
  }

  // ---------------------------------------------------------------------------
  // Reference view: the features that actually reach the merge, and a fold over them.

  /** The features of a tile before the first one without geometry. */
  function LivePrefix(fs: seq<Feature>): (r: seq<Feature>)
    ensures forall i :: 0 <= i < |r| ==> HasGeometry(r[i])
    ensures |r| <= |fs| && r == fs[..|r|]
    ensures (forall i :: 0 <= i < |fs| ==> HasGeometry(fs[i])) ==> r == fs
  {
    if |fs| == 0 || !HasGeometry(fs[0]) then []
    else [fs[0]] + LivePrefix(fs[1..])
  }

  /** Every feature that reaches the merge, across all tiles, in order. */
  function Processed(tiles: seq<DecodeResult>): (r: seq<Feature>)
    ensures forall i :: 0 <= i < |r| ==> HasGeometry(r[i])
  {
    if |tiles| == 0 then [] else LivePrefix(ProcessTile(tiles[0])) + Processed(tiles[1..])
  }

  predicate AllHaveGeometry(fs: seq<Feature>) {
    forall i :: 0 <= i < |fs| ==> HasGeometry(fs[i])
  }

  /** The merge as a fold over a flat sequence of features, last step outermost. */
  function Fold(st: MergeState, fs: seq<Feature>, union: UnionOp): (r: MergeState)
    requires Valid(st) && AllHaveGeometry(fs)
    ensures Valid(r)
  {
    if |fs| == 0 then st
    else Step(Fold(st, fs[..|fs| - 1], union), fs[|fs| - 1], union)
  }

  /** The ids of the mergeable features, in encounter order (repeats included). */
  function MergeIds(fs: seq<Feature>): seq<Value> {
    if |fs| == 0 then []
    else MergeIds(fs[..|fs| - 1]) + (if Mergeable(fs[|fs| - 1]) then [IdOf(fs[|fs| - 1]).value] else [])
  }

  /** The first mergeable feature carrying id `k`, if any. */
  function FirstSighting(fs: seq<Feature>, k: Value): Option<Feature> {
    if |fs| == 0 then None
    else
      var earlier := FirstSighting(fs[..|fs| - 1], k);
      if earlier.Some? then earlier
      else if Mergeable(fs[|fs| - 1]) && IdOf(fs[|fs| - 1]).value == k then Some(fs[|fs| - 1])
      else None
  }

  lemma {:induction false} FoldAppend(st: MergeState, a: seq<Feature>, b: seq<Feature>, union: UnionOp)
    requires Valid(st) && AllHaveGeometry(a) && AllHaveGeometry(b)
    ensures AllHaveGeometry(a + b)
    ensures Fold(st, a + b, union) == Fold(Fold(st, a, union), b, union)
    decreases |b|
  {
    if |b| == 0 {
      assert a + b == a;
    } else {
      assert (a + b)[..|a + b| - 1] == a + b[..|b| - 1];
      assert (a + b)[|a + b| - 1] == b[|b| - 1];
      FoldAppend(st, a, b[..|b| - 1], union);
    }
  }

  /** Processing one tile is the fold over its live prefix. */
  lemma {:induction false} MergeTileIsFold(st: MergeState, fs: seq<Feature>, union: UnionOp)
    requires Valid(st)
    ensures MergeTile(st, fs, union) == Fold(st, LivePrefix(fs), union)
    decreases |fs|
  {
    if |fs| > 0 && HasGeometry(fs[0]) {
      var st1 := Step(st, fs[0], union);
      MergeTileIsFold(st1, fs[1..], union);
      assert Fold(st, [fs[0]], union) == st1 by {
        assert [fs[0]][..0] == [];
      }
      FoldAppend(st, [fs[0]], LivePrefix(fs[1..]), union);
    }
  }

  /** Processing all tiles is the fold over every processed feature. */
  lemma {:induction false} MergeTilesIsFold(st: MergeState, tiles: seq<DecodeResult>, union: UnionOp)
    requires Valid(st)
    ensures MergeTiles(st, tiles, union) == Fold(st, Processed(tiles), union)
    decreases |tiles|
  {
    if |tiles| > 0 {
      var fs := LivePrefix(ProcessTile(tiles[0]));
      MergeTileIsFold(st, ProcessTile(tiles[0]), union);
      MergeTilesIsFold(Fold(st, fs, union), tiles[1..], union);
      FoldAppend(st, fs, Processed(tiles[1..]), union);
    }
  }

  lemma {:induction false} ProcessedAppend(a: seq<DecodeResult>, b: seq<DecodeResult>)
    ensures Processed(a + b) == Processed(a) + Processed(b)
    decreases |a|
  {
    if |a| == 0 {
      assert a + b == b;
    } else {
      assert (a + b)[1..] == a[1..] + b;
      ProcessedAppend(a[1..], b);
    }
  }

  /** A tile whose decoding fails contributes nothing and does not disturb
      the tiles around it. */
  lemma FailedTileContributesNothing(a: seq<DecodeResult>, b: seq<DecodeResult>, union: UnionOp)
    ensures FetchTileData(a + [DecodeError] + b, union) == FetchTileData(a + b, union)
  {
    ProcessedAppend(a + [DecodeError], b);
    ProcessedAppend(a, [DecodeError]);
    ProcessedAppend(a, b);
    assert Processed([DecodeError]) == [] by {
      assert [DecodeError][1..] == [];
    }
    assert Processed(a + [DecodeError]) == Processed(a);
    MergeTilesIsFold(Empty, a + [DecodeError] + b, union);
    MergeTilesIsFold(Empty, a + b, union);
  }

  /** The fold's content, described without the fold: the other features are
      exactly the non-mergeable ones in order, the keys are the distinct ids
      in first-sighting order, and each stored entry carries the properties
      of the first feature seen with its id. */
  lemma {:induction false} FoldContents(fs: seq<Feature>, union: UnionOp)
    requires AllHaveGeometry(fs)
    ensures Fold(Empty, fs, union).others == Filter(fs, NotMergeable)
    ensures Fold(Empty, fs, union).order == Dedup(MergeIds(fs))
    ensures forall k :: k in Fold(Empty, fs, union).byId <==> FirstSighting(fs, k).Some?
    ensures forall k :: k in Fold(Empty, fs, union).byId ==>
              Fold(Empty, fs, union).byId[k].properties == FirstSighting(fs, k).value.properties
    decreases |fs|
  {
    if |fs| > 0 {
      var init := fs[..|fs| - 1];
      var f := fs[|fs| - 1];
      assert fs == init + [f];
      FoldContents(init, union);
      FilterSnoc(init, f, NotMergeable);
      var st := Fold(Empty, init, union);
      var r := Fold(Empty, fs, union);
      assert r == Step(st, f, union);
      if Mergeable(f) {
        var id := IdOf(f).value;
        assert MergeIds(fs) == MergeIds(init) + [id];
        if id in st.byId {
          assert id in Dedup(MergeIds(init));
        } else {
          assert id !in Dedup(MergeIds(init));
        }
        forall k
          ensures k in r.byId <==> FirstSighting(fs, k).Some?
          ensures k in r.byId ==> r.byId[k].properties == FirstSighting(fs, k).value.properties
        {
          if k != id {
            assert FirstSighting(fs, k) == FirstSighting(init, k);
          }
        }
      } else {
        assert MergeIds(fs) == MergeIds(init);
        forall k
          ensures FirstSighting(fs, k) == FirstSighting(init, k)
        {
        }
      }
    }
  }

  /** Ids seen in the processed features are exactly the keys of the map. */
  lemma {:induction false} FirstSightingIffSeen(fs: seq<Feature>, k: Value)
    ensures FirstSighting(fs, k).Some? <==> k in MergeIds(fs)
    ensures FirstSighting(fs, k).Some? ==> FirstSighting(fs, k).value in fs && Mergeable(FirstSighting(fs, k).value)
                                           && IdOf(FirstSighting(fs, k).value) == Some(k)
  {
    if |fs| > 0 {
      FirstSightingIffSeen(fs[..|fs| - 1], k);
    }
  }

  /** `fetchTileData` returns one entry per distinct id of a mergeable
      feature, in first-sighting order and carrying the first sighting's
      properties, followed by every other feature in encounter order; so its
      length is the number of distinct ids plus the number of other features. */
  lemma FetchTileDataContents(tiles: seq<DecodeResult>, union: UnionOp)
    ensures var fs := Processed(tiles);
            var out := FetchTileData(tiles, union);
            var ids := Dedup(MergeIds(fs));
            && |out| == |ids| + |Filter(fs, NotMergeable)|
            && out[|ids|..] == Filter(fs, NotMergeable)
            && (forall i :: 0 <= i < |ids| ==>
                  FirstSighting(fs, ids[i]).Some?
                  && out[i].properties == FirstSighting(fs, ids[i]).value.properties)
  {
    var fs := Processed(tiles);
    MergeTilesIsFold(Empty, tiles, union);
    FoldContents(fs, union);
  }

  /** A feature seen once per id is output unchanged: with a union that never
      produces a merged geometry, every stored entry is its first sighting. */
  lemma {:induction false} NoUnionKeepsFirstSighting(fs: seq<Feature>, union: UnionOp)
    requires AllHaveGeometry(fs)
    requires forall a, b :: !union(a, b).Merged?
    ensures forall k :: k in Fold(Empty, fs, union).byId ==>
              FirstSighting(fs, k).Some? && Fold(Empty, fs, union).byId[k] == FirstSighting(fs, k).value
    decreases |fs|
  {
    if |fs| > 0 {
      var init := fs[..|fs| - 1];
      var f := fs[|fs| - 1];
      FoldContents(init, union);
      FoldContents(fs, union);
      NoUnionKeepsFirstSighting(init, union);
      var st := Fold(Empty, init, union);
      var r := Fold(Empty, fs, union);
      forall k | k in r.byId
        ensures r.byId[k] == FirstSighting(fs, k).value
      {
        if k in st.byId {
          assert FirstSighting(fs, k) == FirstSighting(init, k);
          if Mergeable(f) && IdOf(f).value == k {
            assert r.byId[k] == Combine(st.byId[k], f, union);
          }
        }
      }
    }
  }
}
