/** The report service: gathering each subgroup's features from the tiles
    around the report point (`getGroupedData`), the per-group spatial step
    and document construction of `generateReport`, the manifest
    `tile-source` rewrite of `updateManifest`, and the two-stage
    property-type cascade of `getPropertyType`. Everything outside the
    service (tile decoding, geometry, metadata requests, the database) is a
    parameter. */
module Propscope {
  import opened Base
  import opened Json
  import opened Geo
  import opened TileGrid
  import opened TileMerge
  import opened Clipping
  import opened PropertyType
  import FeatureFilter

  // ---------------------------------------------------------------------
  // The manifest

  /** A manifest subgroup. `filter` is `None` when the field is absent. */
  datatype Subgroup = Subgroup(
    name: string,
    displayName: string,
    sourceLayer: Option<string>,
    tileSource: Option<string>,
    maxzoom: Option<int>,
    customBuffer: Option<real>,
    filter: Option<FeatureFilter.Filter>,
    metadataFields: Option<seq<string>>,
    overview: Option<Value>,
    features2km: Option<seq<Feature>>)

  /** A manifest group; `subgroups` is `None` when `sub_groups` is absent. */
  datatype Group = Group(name: string, displayName: string, subgroups: Option<seq<Subgroup>>)

  datatype Manifest = Manifest(groups: seq<Group>)

  // ---------------------------------------------------------------------
  // The outside world

  /** One vector-tile request of `fetchTileData`. */
  datatype TileRequest = TileRequest(tileSet: Option<string>, sourceLayer: Option<string>, zoom: int, tile: Tile)

  /** The external services a report depends on, for one report point. */
  datatype Services = Services(
    /** `vector_layers` of a tile-set version, or `Threw` when the request fails. */
    layerMetadata: MetadataSource,
    /** The two corner tiles of the 5 km buffer around the point at a zoom level. */
    bufferCorners: int -> (Tile, Tile),
    /** Fetching and decoding one tile. */
    decode: TileRequest -> DecodeResult,
    /** The polygon union of the merge. */
    union: UnionOp,
    /** Whether a feature contains the report point (`booleanPointInPolygon`). */
    containsPoint: Feature -> Outcome<bool>,
    /** The buffer operations for a buffer of the given radius in km around the point. */
    bufferOps: real -> BufferOps)

  // ---------------------------------------------------------------------
  // getGroupedData

  /** The subgroup's maximum zoom once `getLayerZoom` has run: looked up
      when both the source layer and the tile source are truthy, otherwise
      the manifest's own value. */
  function EffectiveMaxZoom(services: Services, sg: Subgroup): (r: Option<int>)
    ensures TruthyString(sg.sourceLayer) && TruthyString(sg.tileSource) ==>
              r == Some(GetLayerZoom(services.layerMetadata(TileSetVersion(sg.tileSource.value)), sg.sourceLayer.value).maxzoom)
    ensures !(TruthyString(sg.sourceLayer) && TruthyString(sg.tileSource)) ==> r == sg.maxzoom
  {
    if TruthyString(sg.sourceLayer) && TruthyString(sg.tileSource) then
      Some(GetLayerZoom(services.layerMetadata(TileSetVersion(sg.tileSource.value)), sg.sourceLayer.value).maxzoom)
    else sg.maxzoom
  }

  /** `Math.min(zoom, subGroup.maxzoom || zoom)`. */
  function SubgroupZoom(services: Services, sg: Subgroup, zoom: int): (z: int)
    ensures z <= zoom
    ensures var m := EffectiveMaxZoom(services, sg);
            z == zoom || (m.Some? && m.value != 0 && z == m.value)
    ensures var m := EffectiveMaxZoom(services, sg);
            m.Some? && m.value != 0 && m.value <= zoom ==> z == m.value
  {
    Min(zoom, OrDefault(EffectiveMaxZoom(services, sg), zoom))
  }

  /** A looked-up layer that the metadata does not list caps the zoom at 22. */
  lemma UnknownLayerCapsAt22(services: Services, sg: Subgroup, zoom: int)
    requires TruthyString(sg.sourceLayer) && TruthyString(sg.tileSource)
    requires services.layerMetadata(TileSetVersion(sg.tileSource.value)).Threw?
    ensures SubgroupZoom(services, sg, zoom) == Min(zoom, 22)
  {
  }

  /** A layer the metadata lists caps the zoom at its first entry's maximum
      zoom, unless that is missing or 0 (then the cap is 22). */
  lemma MetadataZoomCaps(services: Services, sg: Subgroup, zoom: int, l: VectorLayer)
    requires TruthyString(sg.sourceLayer) && TruthyString(sg.tileSource)
    requires services.layerMetadata(TileSetVersion(sg.tileSource.value)).Ok?
    requires FindLayer(services.layerMetadata(TileSetVersion(sg.tileSource.value)).value, sg.sourceLayer.value) == Some(l)
    ensures l.maxzoom.Some? && l.maxzoom.value != 0 ==> SubgroupZoom(services, sg, zoom) == Min(zoom, l.maxzoom.value)
    ensures l.maxzoom.None? || l.maxzoom.value == 0 ==> SubgroupZoom(services, sg, zoom) == Min(zoom, 22)
  {
  }

  /** The tile set requested: the subgroup's tile source, `maptiler_planet` served as `v3`. */
  function TileSetOf(sg: Subgroup): (r: Option<string>)
    ensures sg.tileSource == Some("maptiler_planet") ==> r == Some("v3")
    ensures sg.tileSource != Some("maptiler_planet") ==> r == sg.tileSource
  {
    match sg.tileSource
    case None => None
    case Some(t) => Some(TileSetVersion(t))
  }

  /** The decoded tiles of the subgroup's buffer at its zoom, in enumeration order. */
  function SubgroupTiles(services: Services, sg: Subgroup, zoom: int): (r: seq<DecodeResult>)
    ensures var z := SubgroupZoom(services, sg, zoom);
            var c := services.bufferCorners(z);
            var tiles := TilesInBuffer(c.0.x, c.0.y, c.1.x, c.1.y);
            |r| == |tiles| && forall i :: 0 <= i < |r| ==> r[i] == services.decode(TileRequest(TileSetOf(sg), sg.sourceLayer, z, tiles[i]))
  {
    var z := SubgroupZoom(services, sg, zoom);
    var c := services.bufferCorners(z);
    var tiles := TilesInBuffer(c.0.x, c.0.y, c.1.x, c.1.y);
    seq(|tiles|, i requires 0 <= i < |tiles| => services.decode(TileRequest(TileSetOf(sg), sg.sourceLayer, z, tiles[i])))
  }

  /** The filter test of `getGroupedData` (`filter || {}`). */
  function Matches(filter: FeatureFilter.Filter): Feature -> Outcome<bool> {
    f => FeatureFilter.FilterFeatures(f, filter)
  }

  /** A subgroup with the features `getGroupedData` selected for it. */
  datatype SubgroupData = SubgroupData(sub: Subgroup, features: seq<Feature>)

  /** One subgroup of `getGroupedData`: the merged tile features that pass
      its filter; a throwing filter rejects the subgroup. */
  function SubgroupFeatures(services: Services, sg: Subgroup, zoom: int): (r: Outcome<seq<Feature>>)
    ensures var merged := FetchTileData(SubgroupTiles(services, sg, zoom), services.union);
            var filter := sg.filter.GetOr([]);
            && (r.Ok? ==> r.value == Filter(merged, KeepOk(Matches(filter))))
            && (r.Threw? <==> exists i :: 0 <= i < |merged| && FeatureFilter.FilterFeatures(merged[i], filter).Threw?)
  {
    FilterOutcome(FetchTileData(SubgroupTiles(services, sg, zoom), services.union), Matches(sg.filter.GetOr([])))
  }

  /** `getGroupedData` over `sub_groups || []`: every subgroup with its
      features, in order, or `Threw` when any subgroup's filtering throws
      (the `Promise.all` rejects). */
  function GetGroupedData(services: Services, sgs: seq<Subgroup>, zoom: int): (r: Outcome<seq<SubgroupData>>)
    ensures r.Threw? <==> exists i :: 0 <= i < |sgs| && SubgroupFeatures(services, sgs[i], zoom).Threw?
    ensures r.Ok? ==> |r.value| == |sgs|
    ensures r.Ok? ==> forall i :: 0 <= i < |sgs| ==>
              r.value[i] == SubgroupData(sgs[i], SubgroupFeatures(services, sgs[i], zoom).value)
  {
    MapOutcome(sgs, (sg: Subgroup) =>
      match SubgroupFeatures(services, sg, zoom)
      case Threw => Threw
      case Ok(fs) => Ok(SubgroupData(sg, fs)))
  }

  // ---------------------------------------------------------------------
  // generateReport: the spatial step

  /** The Overview test: only Polygon/MultiPolygon features are tested against the point. */
  function OverviewTest(services: Services): Feature -> Outcome<bool> {
    f => if HasPolygonalGeometry(f) then services.containsPoint(f) else Ok(false)
  }

  /** One subgroup of the Overview step: its polygons that contain the point. */
  function OverviewOne(services: Services, d: SubgroupData): (r: Outcome<SubgroupData>)
    ensures r.Ok? ==> r.value.sub == d.sub
                      && r.value.features == Filter(d.features, (f: Feature) => HasPolygonalGeometry(f) && services.containsPoint(f) == Ok(true))
    ensures r.Threw? <==> exists j :: 0 <= j < |d.features|
                                      && HasPolygonalGeometry(d.features[j]) && services.containsPoint(d.features[j]).Threw?
  {
    FilterCongruent(d.features, KeepOk(OverviewTest(services)),
                    (f: Feature) => HasPolygonalGeometry(f) && services.containsPoint(f) == Ok(true));
    match FilterOutcome(d.features, OverviewTest(services))
    case Threw => Threw
    case Ok(fs) => Ok(SubgroupData(d.sub, fs))
  }

  /** The Overview step: each subgroup keeps the polygons containing the point. */
  function OverviewStep(services: Services, data: seq<SubgroupData>): (r: Outcome<seq<SubgroupData>>)
    ensures r.Ok? ==> |r.value| == |data|
    ensures r.Ok? ==> forall i :: 0 <= i < |data| ==>
              r.value[i].sub == data[i].sub
              && r.value[i].features == Filter(data[i].features, (f: Feature) => HasPolygonalGeometry(f) && services.containsPoint(f) == Ok(true))
    ensures r.Threw? <==> exists i, j :: 0 <= i < |data| && 0 <= j < |data[i].features|
                                         && HasPolygonalGeometry(data[i].features[j]) && services.containsPoint(data[i].features[j]).Threw?
  {
    MapOutcome(data, (d: SubgroupData) => OverviewOne(services, d))
  }

  /** `subGroup.custom_buffer ?? 5`: only a missing value falls back, so 0 is kept. */
  function BufferRadius(sg: Subgroup): (km: real)
    ensures sg.customBuffer.None? ==> km == 5.0
    ensures sg.customBuffer.Some? ==> km == sg.customBuffer.value
  {
    sg.customBuffer.GetOr(5.0)
  }

  /** The step for every other group: each subgroup's features clipped to its buffer. */
  function BufferStep(services: Services, data: seq<SubgroupData>): (r: seq<SubgroupData>)
    ensures |r| == |data|
    ensures forall i :: 0 <= i < |data| ==>
              r[i] == SubgroupData(data[i].sub, FindFeaturesWithinBuffer(services.bufferOps(BufferRadius(data[i].sub)), data[i].features))
  {
    seq(|data|, i requires 0 <= i < |data| =>
          SubgroupData(data[i].sub, FindFeaturesWithinBuffer(services.bufferOps(BufferRadius(data[i].sub)), data[i].features)))
  }

  /** The spatial step a group gets, chosen by its name: the Overview group
      keeps the polygons containing the point and may throw; every other group
      clips each subgroup to its own buffer and never throws. */
  function SpatialStep(services: Services, groupName: string, data: seq<SubgroupData>): (r: Outcome<seq<SubgroupData>>)
    ensures groupName != "Overview" ==> r.Ok?
    ensures groupName == "Overview" ==>
              (r.Threw? <==> exists i, j :: 0 <= i < |data| && 0 <= j < |data[i].features|
                                            && HasPolygonalGeometry(data[i].features[j]) && services.containsPoint(data[i].features[j]).Threw?)
    ensures r.Ok? ==> |r.value| == |data|
    ensures r.Ok? ==> forall i :: 0 <= i < |data| ==>
              && r.value[i].sub == data[i].sub
              && (groupName == "Overview" ==>
                    r.value[i].features == Filter(data[i].features, (f: Feature) => HasPolygonalGeometry(f) && services.containsPoint(f) == Ok(true)))
              && (groupName != "Overview" ==>
                    r.value[i].features == FindFeaturesWithinBuffer(services.bufferOps(BufferRadius(data[i].sub)), data[i].features))
  {
    if groupName == "Overview" then OverviewStep(services, data) else Ok(BufferStep(services, data))
  }

  // ---------------------------------------------------------------------
  // generateReport: the documents

  /** A `propscope_spatial_features` document. */
  datatype FeatureDoc = FeatureDoc(
    propscopeId: string,
    groupName: string,
    groupDisplayName: string,
    subgroupName: string,
    subgroupDisplayName: string,
    features: seq<Feature>,
    features2km: seq<Feature>,
    overview: Value)

  /** A `propscope_meta` document; `subgroupName` holds the subgroup's display name. */
  datatype MetaDoc = MetaDoc(propscopeId: string, groupName: string, subgroupName: string, metadata: seq<Props>)

  /** `subGroup?.overview || false`. */
  function OverviewFlag(v: Option<Value>): (r: Value)
    ensures TruthyOpt(v) ==> r == v.value
    ensures !TruthyOpt(v) ==> r == Bool(false)
  {
    if TruthyOpt(v) then v.value else Bool(false)
  }

  /** One feature document per subgroup, in subgroup order. */
  function FeatureDocs(id: string, g: Group, data: seq<SubgroupData>): (r: seq<FeatureDoc>)
    ensures |r| == |data|
    ensures forall i :: 0 <= i < |data| ==>
              && r[i].propscopeId == id
              && r[i].groupName == g.name
              && r[i].groupDisplayName == g.displayName
              && r[i].subgroupName == data[i].sub.name
              && r[i].subgroupDisplayName == data[i].sub.displayName
              && r[i].features == data[i].features
              && (data[i].sub.features2km.None? ==> r[i].features2km == [])
              && (data[i].sub.features2km.Some? ==> r[i].features2km == data[i].sub.features2km.value)
              && (!TruthyOpt(data[i].sub.overview) ==> r[i].overview == Bool(false))
              && (TruthyOpt(data[i].sub.overview) ==> r[i].overview == data[i].sub.overview.value)
  {
    seq(|data|, i requires 0 <= i < |data| =>
          FeatureDoc(id, g.name, g.displayName, data[i].sub.name, data[i].sub.displayName,
                     data[i].features, data[i].sub.features2km.GetOr([]), OverviewFlag(data[i].sub.overview)))
  }

  /** The metadata object of one feature: every declared field whose value is truthy. */
  function MetaObject(props: Props, fields: seq<string>): (r: Props)
    ensures forall k :: k in r <==> k in fields && TruthyOpt(Get(props, k))
    ensures forall k :: k in r ==> k in props && r[k] == props[k]
  {
    if |fields| == 0 then map[]
    else
      var obj := MetaObject(props, fields[..|fields| - 1]);
      var field := fields[|fields| - 1];
      assert forall k :: k in fields <==> k in fields[..|fields| - 1] || k == field by {
        assert fields == fields[..|fields| - 1] + [field];
      }
      if TruthyOpt(Get(props, field)) then obj[field := props[field]] else obj
  }

  /** One metadata document per subgroup: one metadata object per feature. */
  function MetaDocs(id: string, g: Group, data: seq<SubgroupData>): (r: seq<MetaDoc>)
    ensures |r| == |data|
    ensures forall i :: 0 <= i < |data| ==>
              && r[i].propscopeId == id
              && r[i].groupName == g.name
              && r[i].subgroupName == data[i].sub.displayName
              && |r[i].metadata| == |data[i].features|
              && forall j :: 0 <= j < |data[i].features| ==>
                   r[i].metadata[j] == MetaObject(data[i].features[j].properties, data[i].sub.metadataFields.GetOr([]))
  {
    seq(|data|, i requires 0 <= i < |data| =>
          MetaDoc(id, g.name, data[i].sub.displayName,
                  seq(|data[i].features|, j requires 0 <= j < |data[i].features| =>
                        MetaObject(data[i].features[j].properties, data[i].sub.metadataFields.GetOr([])))))
  }

  /** The documents a group inserts. */
  datatype Docs = Docs(features: seq<FeatureDoc>, meta: seq<MetaDoc>)

  /** One group of the report loop, or `Threw` when anything in it throws
      (a missing `sub_groups`, a throwing filter, a throwing Overview test). */
  function GroupDocs(services: Services, g: Group, zoom: int, id: string): (r: Outcome<Docs>)
    ensures g.subgroups.None? ==> r.Threw?
    ensures r.Ok? ==> |r.value.features| == |g.subgroups.value| && |r.value.meta| == |g.subgroups.value|
    ensures r.Ok? ==> forall i :: 0 <= i < |r.value.features| ==>
              r.value.features[i].subgroupName == g.subgroups.value[i].name
              && r.value.meta[i].subgroupName == g.subgroups.value[i].displayName
              && |r.value.meta[i].metadata| == |r.value.features[i].features|
    ensures r.Ok? <==> g.subgroups.Some? && GetGroupedData(services, g.subgroups.value, zoom).Ok?
                       && SpatialStep(services, g.name, GetGroupedData(services, g.subgroups.value, zoom).value).Ok?
    ensures r.Ok? ==>
              var spatial := SpatialStep(services, g.name, GetGroupedData(services, g.subgroups.value, zoom).value).value;
              r.value == Docs(FeatureDocs(id, g, spatial), MetaDocs(id, g, spatial))
  {
    match g.subgroups
    case None => Threw
    case Some(sgs) =>
      match GetGroupedData(services, sgs, zoom)
      case Threw => Threw
      case Ok(data) =>
        match SpatialStep(services, g.name, data)
        case Threw => Threw
        case Ok(spatial) =>
          assert forall i :: 0 <= i < |spatial| ==> spatial[i].sub == sgs[i];
          Ok(Docs(FeatureDocs(id, g, spatial), MetaDocs(id, g, spatial)))
  }

  /** One group of the report loop as a step function. */
  function GroupStep(services: Services, zoom: int, id: string): Group -> Outcome<Docs> {
    g => GroupDocs(services, g, zoom, id)
  }

  /** The report loop: every group's documents, in group order; a group
      whose step throws is skipped. With `ReportIsPerGroup`, the cases for no
      group and for one group determine the loop for any list of groups. */
  function CollectDocs(groups: seq<Group>, step: Group -> Outcome<Docs>): (r: Docs)
    ensures |groups| == 0 ==> r == Docs([], [])
    ensures |groups| == 1 && step(groups[0]).Threw? ==> r == Docs([], [])
    ensures |groups| == 1 && step(groups[0]).Ok? ==> r == step(groups[0]).value
  {
    if |groups| == 0 then Docs([], [])
    else
      var rest := CollectDocs(groups[1..], step);
      match step(groups[0])
      case Threw => rest
      case Ok(d) => Docs(d.features + rest.features, d.meta + rest.meta)
  }

  /** Groups are independent: the documents of a concatenation of groups are
      the documents of each part, in order. */
  lemma {:induction false} ReportIsPerGroup(a: seq<Group>, b: seq<Group>, step: Group -> Outcome<Docs>)
    ensures var ra := CollectDocs(a, step);
            var rb := CollectDocs(b, step);
            CollectDocs(a + b, step) == Docs(ra.features + rb.features, ra.meta + rb.meta)
    decreases |a|
  {
    var rb := CollectDocs(b, step);
    if |a| == 0 {
      assert a + b == b;
      assert [] + rb.features == rb.features && [] + rb.meta == rb.meta;
    } else {
      assert (a + b)[0] == a[0];
      assert (a + b)[1..] == a[1..] + b;
      ReportIsPerGroup(a[1..], b, step);
      match step(a[0])
      case Threw =>
      case Ok(d) =>
        var tail := CollectDocs(a[1..], step);
        assert d.features + (tail.features + rb.features) == (d.features + tail.features) + rb.features;
        assert d.meta + (tail.meta + rb.meta) == (d.meta + tail.meta) + rb.meta;
    }
  }

  /** A group whose processing throws contributes nothing and does not stop the others. */
  lemma FailingGroupIsSkipped(services: Services, a: seq<Group>, g: Group, b: seq<Group>, zoom: int, id: string)
    requires GroupDocs(services, g, zoom, id).Threw?
    ensures CollectDocs(a + [g] + b, GroupStep(services, zoom, id)) == CollectDocs(a + b, GroupStep(services, zoom, id))
  {
    var step := GroupStep(services, zoom, id);
    ReportIsPerGroup(a + [g], b, step);
    ReportIsPerGroup(a, [g], step);
    ReportIsPerGroup(a, b, step);
    assert [g][1..] == [];
    var ra := CollectDocs(a, step);
    assert ra.features + [] == ra.features && ra.meta + [] == ra.meta;
  }

  /** A group whose processing succeeds puts exactly its own documents into
      the report, between those of the groups before and after it. */
  lemma SucceedingGroupIsKept(a: seq<Group>, g: Group, b: seq<Group>, step: Group -> Outcome<Docs>)
    requires step(g).Ok?
    ensures var ra := CollectDocs(a, step);
            var rb := CollectDocs(b, step);
            var d := step(g).value;
            CollectDocs(a + [g] + b, step) == Docs(ra.features + d.features + rb.features, ra.meta + d.meta + rb.meta)
  {
    ReportIsPerGroup(a + [g], b, step);
    ReportIsPerGroup(a, [g], step);
  }

  /** What a report run leaves behind: the inserted documents and the final status. */
  datatype Report = Report(docs: Docs, status: bool)

  /** `generateReport`: without a manifest nothing is processed and the
      status stays `false`; otherwise every group is processed and the
      status becomes `true`. */
  function GenerateReport(services: Services, manifest: Option<Manifest>, zoom: int, id: string): (r: Report)
    ensures r.status <==> manifest.Some?
    ensures manifest.None? ==> r.docs == Docs([], [])
    ensures manifest.Some? ==> r.docs == CollectDocs(manifest.value.groups, GroupStep(services, zoom, id))
  {
    match manifest
    case None => Report(Docs([], []), false)
    case Some(m) => Report(CollectDocs(m.groups, GroupStep(services, zoom, id)), true)
  }

  /** A group's feature documents hold, per subgroup, exactly the features its
      spatial step kept from its filtered tile features; for an Overview group
      these are the polygons containing the point. */
  lemma OverviewDocsHoldContainingPolygons(services: Services, g: Group, zoom: int, id: string, i: nat)
    requires g.name == "Overview" && g.subgroups.Some?
    requires i < |g.subgroups.value|
    ensures GroupDocs(services, g, zoom, id).Ok? ==>
            var sg := g.subgroups.value[i];
            var fs := SubgroupFeatures(services, sg, zoom);
            fs.Ok? && GroupDocs(services, g, zoom, id).value.features[i].features
                      == Filter(fs.value, (f: Feature) => HasPolygonalGeometry(f) && services.containsPoint(f) == Ok(true))
  {
  }

  /** For any other group the features are clipped with the subgroup's own
      buffer radius, falling back to 5 km only when none is given. */
  lemma BufferDocsUseSubgroupRadius(services: Services, g: Group, zoom: int, id: string, i: nat)
    requires g.name != "Overview" && g.subgroups.Some?
    requires i < |g.subgroups.value|
    ensures GroupDocs(services, g, zoom, id).Ok? ==>
            var sg := g.subgroups.value[i];
            var fs := SubgroupFeatures(services, sg, zoom);
            fs.Ok? && GroupDocs(services, g, zoom, id).value.features[i].features
                      == FindFeaturesWithinBuffer(services.bufferOps(sg.customBuffer.GetOr(5.0)), fs.value)
  {
  }

  /** A group other than Overview that has `sub_groups` succeeds exactly
      when none of its subgroups' filters throws. */
  lemma BufferGroupSucceedsUnlessFilterThrows(services: Services, g: Group, zoom: int, id: string)
    requires g.name != "Overview" && g.subgroups.Some?
    ensures GroupDocs(services, g, zoom, id).Ok? <==>
              forall i :: 0 <= i < |g.subgroups.value| ==> SubgroupFeatures(services, g.subgroups.value[i], zoom).Ok?
  {
  }

  // ---------------------------------------------------------------------
  // updateManifest

  /** A style layer that maps its source layer to its source: both truthy. */
  predicate MapsSourceLayer(l: MapLayer, key: string) {
    l.sourceLayer == Some(key) && key != "" && l.source != ""
  }

  /** `buildLayerSourceMap`: source layer to source; a later layer overwrites an earlier one. */
  function BuildLayerSourceMap(layers: seq<MapLayer>): (r: map<string, string>)
    ensures forall k :: k in r <==> exists i :: 0 <= i < |layers| && MapsSourceLayer(layers[i], k)
  {
    if |layers| == 0 then map[]
    else
      var p := layers[..|layers| - 1];
      var l := layers[|layers| - 1];
      var m := BuildLayerSourceMap(p);
      assert forall i :: 0 <= i < |p| ==> layers[i] == p[i];
      assert forall k :: (exists i :: 0 <= i < |layers| && MapsSourceLayer(layers[i], k)) <==>
                         (exists i :: 0 <= i < |p| && MapsSourceLayer(p[i], k)) || MapsSourceLayer(l, k) by {
        forall k | exists i :: 0 <= i < |layers| && MapsSourceLayer(layers[i], k)
          ensures (exists i :: 0 <= i < |p| && MapsSourceLayer(p[i], k)) || MapsSourceLayer(l, k)
        {
          var i :| 0 <= i < |layers| && MapsSourceLayer(layers[i], k);
          if i < |p| { assert MapsSourceLayer(p[i], k); }
        }
      }
      if TruthyString(l.sourceLayer) && l.source != "" then m[l.sourceLayer.value := l.source] else m
  }

  /** The position of the last style layer that maps `k`, if any. */
  function LastMapper(layers: seq<MapLayer>, k: string): (r: Option<nat>)
    ensures r.Some? ==> r.value < |layers| && MapsSourceLayer(layers[r.value], k)
                        && forall j :: r.value < j < |layers| ==> !MapsSourceLayer(layers[j], k)
    ensures r.None? ==> forall j :: 0 <= j < |layers| ==> !MapsSourceLayer(layers[j], k)
  {
    if |layers| == 0 then None
    else if MapsSourceLayer(layers[|layers| - 1], k) then Some(|layers| - 1)
    else
      var p := layers[..|layers| - 1];
      assert forall j :: 0 <= j < |p| ==> layers[j] == p[j];
      LastMapper(p, k)
  }

  /** Each mapped source layer gets the source of the last style layer that maps it. */
  lemma {:induction false} LastLayerWins(layers: seq<MapLayer>, k: string)
    requires k in BuildLayerSourceMap(layers)
    ensures LastMapper(layers, k).Some?
    ensures BuildLayerSourceMap(layers)[k] == layers[LastMapper(layers, k).value].source
  {
    var p := layers[..|layers| - 1];
    if !MapsSourceLayer(layers[|layers| - 1], k) {
      LastLayerWins(p, k);
      assert layers[LastMapper(p, k).value] == p[LastMapper(p, k).value];
    }
  }

  /** The rewrite of one subgroup: a truthy source layer that the map knows gets its source as tile source. */
  function RewriteSubgroup(sg: Subgroup, lsm: map<string, string>): (r: Subgroup)
    ensures TruthyString(sg.sourceLayer) && sg.sourceLayer.value in lsm ==>
              r == sg.(tileSource := Some(lsm[sg.sourceLayer.value]))
    ensures !(TruthyString(sg.sourceLayer) && sg.sourceLayer.value in lsm) ==> r == sg
  {
    if TruthyString(sg.sourceLayer) && sg.sourceLayer.value in lsm then
      sg.(tileSource := Some(lsm[sg.sourceLayer.value]))
    else sg
  }

  function RewriteGroup(g: Group, lsm: map<string, string>): (r: Group)
    ensures r.name == g.name && r.displayName == g.displayName
    ensures r.subgroups.Some? <==> g.subgroups.Some?
    ensures g.subgroups.Some? ==>
              (|r.subgroups.value| == |g.subgroups.value|
               && forall i :: 0 <= i < |g.subgroups.value| ==> r.subgroups.value[i] == RewriteSubgroup(g.subgroups.value[i], lsm))
  {
    match g.subgroups
    case None => g
    case Some(sgs) =>
      g.(subgroups := Some(seq(|sgs|, i requires 0 <= i < |sgs| => RewriteSubgroup(sgs[i], lsm))))
  }

  /** The manifest rewrite of `updateManifest`. */
  function RewriteManifest(m: Manifest, lsm: map<string, string>): (r: Manifest)
    ensures |r.groups| == |m.groups|
    ensures forall i :: 0 <= i < |m.groups| ==> r.groups[i] == RewriteGroup(m.groups[i], lsm)
  {
    Manifest(seq(|m.groups|, i requires 0 <= i < |m.groups| => RewriteGroup(m.groups[i], lsm)))
  }

  /** Rewriting twice with the same map changes nothing more. */
  lemma RewriteIdempotent(m: Manifest, lsm: map<string, string>)
    ensures RewriteManifest(RewriteManifest(m, lsm), lsm) == RewriteManifest(m, lsm)
  {
    var once := RewriteManifest(m, lsm);
    forall i | 0 <= i < |m.groups|
      ensures RewriteGroup(once.groups[i], lsm) == once.groups[i]
    {
      var g := once.groups[i];
      if g.subgroups.Some? {
        var sgs := g.subgroups.value;
        assert seq(|sgs|, j requires 0 <= j < |sgs| => RewriteSubgroup(sgs[j], lsm)) == sgs;
      }
    }
  }

  /** After the rewrite, every subgroup whose source layer some style layer
      maps carries the source of the last such style layer as tile source;
      every other subgroup is untouched. */
  lemma RewriteUsesLastStyleLayer(m: Manifest, layers: seq<MapLayer>, gi: nat, si: nat)
    requires gi < |m.groups| && m.groups[gi].subgroups.Some? && si < |m.groups[gi].subgroups.value|
    ensures var sg := m.groups[gi].subgroups.value[si];
            var r := RewriteManifest(m, BuildLayerSourceMap(layers)).groups[gi].subgroups.value[si];
            && (sg.sourceLayer.Some? && LastMapper(layers, sg.sourceLayer.value).Some? ==>
                  r == sg.(tileSource := Some(layers[LastMapper(layers, sg.sourceLayer.value).value].source)))
            && (sg.sourceLayer.None? || LastMapper(layers, sg.sourceLayer.value).None? ==> r == sg)
  {
    var sg := m.groups[gi].subgroups.value[si];
    if sg.sourceLayer.Some? && sg.sourceLayer.value in BuildLayerSourceMap(layers) {
      LastLayerWins(layers, sg.sourceLayer.value);
    }
  }

  /** `updateManifest`: a missing manifest, or a failed style request, throws. */
  function UpdateManifest(manifest: Option<Manifest>, style: Outcome<seq<MapLayer>>): (r: Outcome<Manifest>)
    ensures r.Ok? <==> manifest.Some? && style.Ok?
    ensures r.Ok? ==> r.value == RewriteManifest(manifest.value, BuildLayerSourceMap(style.value))
  {
    match manifest
    case None => Threw
    case Some(m) =>
      match style
      case Threw => Threw
      case Ok(layers) => Ok(RewriteManifest(m, BuildLayerSourceMap(layers)))
  }

  // ---------------------------------------------------------------------
  // getPropertyType

  /** A vector-data request of the classifier: zoom, layer ids, tile set. */
  datatype VectorRequest = VectorRequest(zoom: int, layerIds: seq<Option<string>>, tileSet: Option<string>)

  /** The inputs of `getPropertyType` for one point. */
  datatype ClassifierServices = ClassifierServices(
    /** The map style's layers, or `Threw` when the style request fails. */
    style: Outcome<seq<MapLayer>>,
    /** `fetchVectorData`: the features of the point's tile, or `Threw`. */
    fetchVector: VectorRequest -> Outcome<seq<Feature>>,
    /** Whether a geometry contains the point. */
    contains: Geometry -> Outcome<bool>)

  /** The request of the development-plan stage: the CDP layers' source
      layers, from the first CDP layer's source (`undefined` when there is none). */
  function CDPRequest(layers: seq<MapLayer>): (r: VectorRequest)
    ensures r.zoom == 16
    ensures |r.layerIds| == |CDPLayers(layers)|
    ensures forall i :: 0 <= i < |r.layerIds| ==> r.layerIds[i] == CDPLayers(layers)[i].sourceLayer
    ensures r.tileSet.Some? <==> exists l :: l in layers && l.id == "Proposed-CDP-Map"
    ensures |CDPLayers(layers)| > 0 ==> r.tileSet == Some(CDPLayers(layers)[0].source)
  {
    var cdp := CDPLayers(layers);
    VectorRequest(16, seq(|cdp|, i requires 0 <= i < |cdp| => cdp[i].sourceLayer),
                  if |cdp| > 0 then Some(cdp[0].source) else None)
  }

  /** The development-plan stage: the CDP layers' source layers at zoom 16, from the first CDP layer's source. */
  function CDPStage(cs: ClassifierServices): (r: Outcome<Option<Classification>>)
    ensures cs.style.Threw? ==> r.Threw?
    ensures cs.style.Ok? && cs.fetchVector(CDPRequest(cs.style.value)).Threw? ==> r.Threw?
    ensures cs.style.Ok? && cs.fetchVector(CDPRequest(cs.style.value)).Ok? ==>
              r == ProcessFeatures(cs.fetchVector(CDPRequest(cs.style.value)).value, cs.contains, IsAllowedCDPType)
  {
    match cs.style
    case Threw => Threw
    case Ok(layers) =>
      match cs.fetchVector(CDPRequest(layers))
      case Threw => Threw
      case Ok(fs) => ProcessFeatures(fs, cs.contains, IsAllowedCDPType)
  }

  /** The land-use stage: `landuse` and `building` at zoom 15 from `v3`. */
  function LandUseStage(cs: ClassifierServices): (r: Outcome<Option<Classification>>)
    ensures var req := VectorRequest(15, [Some("landuse"), Some("building")], Some("v3"));
            && (cs.fetchVector(req).Threw? ==> r.Threw?)
            && (cs.fetchVector(req).Ok? ==> r == ProcessFeatures(cs.fetchVector(req).value, cs.contains, IsAllowedLandUseType))
  {
    match cs.fetchVector(VectorRequest(15, [Some("landuse"), Some("building")], Some("v3")))
    case Threw => Threw
    case Ok(fs) => ProcessFeatures(fs, cs.contains, IsAllowedLandUseType)
  }

  const Undetermined: Classification := Classification(false, Str("undetermined"))

  /** `getPropertyType`: the development-plan verdict if there is one (even a
      disallowed one), else the land-use verdict, else undetermined; an
      exception in a stage counts as no verdict. */
  function GetPropertyType(cs: ClassifierServices): (r: Classification)
    ensures CDPStage(cs).Ok? && CDPStage(cs).value.Some? ==> r == CDPStage(cs).value.value
    ensures !(CDPStage(cs).Ok? && CDPStage(cs).value.Some?) && LandUseStage(cs).Ok? && LandUseStage(cs).value.Some? ==>
              r == LandUseStage(cs).value.value
    ensures !(CDPStage(cs).Ok? && CDPStage(cs).value.Some?) && !(LandUseStage(cs).Ok? && LandUseStage(cs).value.Some?) ==>
              r == Undetermined
  {
    match CDPStage(cs)
    case Ok(Some(c)) => c
    case _ =>
      match LandUseStage(cs)
      case Ok(Some(c)) => c
      case _ => Undetermined
  }

  /** Whatever the services return, an allowed verdict names a listed
      development-plan type, a listed land-use class, or a building. */
  lemma AllowedMeansListed(cs: ClassifierServices)
    requires GetPropertyType(cs).allowed
    ensures var k := GetPropertyType(cs).kind;
            Listed(CDPTypes, k) || Listed(LandUseClasses, k) || k == Str("building")
  {
  }
}
