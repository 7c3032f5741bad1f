/** The property-type helper: the two allow-list classifiers, the
    first-match scan over the features of a tile, the style-layer filter for
    the development-plan (CDP) layer, and the grouping of style layers by
    source that `generateLayerMapping` performs before asking each source's
    tile set for its zoom metadata. */
module PropertyType {
  import opened Base
  import opened Json
  import opened Geo
  import opened TileGrid

  /** A layer of the map style (`MapLayer` / `ILayer`). */
  datatype MapLayer = MapLayer(id: string, kind: Option<string>, source: string, sourceLayer: Option<string>)

  /** `{ allowed, type }`; `type` is whatever property value the classifier read. */
  datatype Classification = Classification(allowed: bool, kind: Value)

  const CDPTypes: seq<string> := [
    "Residential Main", "Residential Mixed", "Agricultural Land",
    "Commercial Business", "Commercial Center", "High Tech", "Industrial"]

  const LandUseClasses: seq<string> := ["residential", "industrial", "commercial", "neighbourhood"]

  /** `list.includes(v)` for a list of strings: only a string can match. */
  predicate Listed(list: seq<string>, v: Value) {
    v.Str? && v.s in list
  }

  /** `isAllowedCDPType`: no verdict unless `name` is truthy; then the name,
      and whether it is one of the seven development-plan types. */
  function IsAllowedCDPType(props: Props): (r: Option<Classification>)
    ensures r.None? <==> !TruthyOpt(Get(props, "name"))
    ensures r.Some? ==> Some(r.value.kind) == Get(props, "name")
    ensures r.Some? ==> (r.value.allowed <==> exists i :: 0 <= i < |CDPTypes| && r.value.kind == Str(CDPTypes[i]))
  {
    var name := Get(props, "name");
    if TruthyOpt(name) then Some(Classification(Listed(CDPTypes, name.value), name.value)) else None
  }

  /** `isAllowedLandUseType`: a land-use polygon with a truthy `class` is
      classified by its class; any building is allowed; anything else gives
      no verdict. */
  function IsAllowedLandUseType(props: Props): (r: Option<Classification>)
    ensures Get(props, "vt_layer") == Some(Str("landuse")) && TruthyOpt(Get(props, "class")) ==>
              r.Some? && Some(r.value.kind) == Get(props, "class")
              && (r.value.allowed <==> exists i :: 0 <= i < |LandUseClasses| && r.value.kind == Str(LandUseClasses[i]))
    ensures Get(props, "vt_layer") == Some(Str("building")) ==> r == Some(Classification(true, Str("building")))
    ensures r.Some? <==> (Get(props, "vt_layer") == Some(Str("landuse")) && TruthyOpt(Get(props, "class")))
                         || Get(props, "vt_layer") == Some(Str("building"))
  {
    var layer := Get(props, "vt_layer");
    var landClass := Get(props, "class");
    if layer == Some(Str("landuse")) && TruthyOpt(landClass) then
      Some(Classification(Listed(LandUseClasses, landClass.value), landClass.value))
    else if layer == Some(Str("building")) then
      Some(Classification(true, Str("building")))
    else None
  }

  /** A classifier of feature properties. */
  type Check = Props -> Option<Classification>

  /** What one feature yields inside `processFeatures`' loop: reading the
      type of a missing geometry throws; a Polygon/MultiPolygon containing the
      point is classified; anything else yields nothing. Only polygons are
      tested (`&&` short-circuits). */
  function Verdict(f: Feature, contains: Geometry -> Outcome<bool>, check: Check): Outcome<Option<Classification>> {
    match f.geometry
    case None => Threw
    case Some(g) =>
      if !IsPolygonal(g) then Ok(None)
      else
        match contains(g)
        case Threw => Threw
        case Ok(inside) => if inside then Ok(check(f.properties)) else Ok(None)
  }

  /** `processFeatures`: the verdict of the first feature, in order, that
      yields one (a classification or an exception); `null` when none does. */
  function ProcessFeatures(fs: seq<Feature>, contains: Geometry -> Outcome<bool>, check: Check): (r: Outcome<Option<Classification>>)
    ensures r == Ok(None) <==> forall i :: 0 <= i < |fs| ==> Verdict(fs[i], contains, check) == Ok(None)
    ensures r != Ok(None) ==>
              exists i :: 0 <= i < |fs| && r == Verdict(fs[i], contains, check)
                          && forall j :: 0 <= j < i ==> Verdict(fs[j], contains, check) == Ok(None)
  {
    if |fs| == 0 then Ok(None)
    else
      var v := Verdict(fs[0], contains, check);
      if v != Ok(None) then v
      else
        var rest := ProcessFeatures(fs[1..], contains, check);
        assert forall i :: 0 < i < |fs| ==> fs[i] == fs[1..][i - 1];
        assert rest != Ok(None) ==>
                 exists i :: 0 <= i < |fs| && rest == Verdict(fs[i], contains, check)
                             && forall j :: 0 <= j < i ==> Verdict(fs[j], contains, check) == Ok(None) by {
          if rest != Ok(None) {
            var i :| 0 <= i < |fs[1..]| && rest == Verdict(fs[1..][i], contains, check)
                     && forall j :: 0 <= j < i ==> Verdict(fs[1..][j], contains, check) == Ok(None);
            assert rest == Verdict(fs[i + 1], contains, check);
          }
        }
        rest
  }

  /** A classification found by `processFeatures` is the classifier's
      verdict on a Polygon/MultiPolygon feature that contains the point. */
  lemma ClassificationComesFromContainingPolygon(fs: seq<Feature>, contains: Geometry -> Outcome<bool>, check: Check, c: Classification)
    requires ProcessFeatures(fs, contains, check) == Ok(Some(c))
    ensures exists i :: 0 <= i < |fs| && HasPolygonalGeometry(fs[i]) && contains(fs[i].geometry.value) == Ok(true)
                        && check(fs[i].properties) == Some(c)
  {
  }

  /** `layer.id === 'Proposed-CDP-Map'`. */
  predicate IsCDPLayer(l: MapLayer) {
    l.id == "Proposed-CDP-Map"
  }

  /** `getCDPLayer`: the style layers with the development-plan id, in order. */
  function CDPLayers(layers: seq<MapLayer>): (r: seq<MapLayer>)
    ensures forall l :: l in r <==> l in layers && l.id == "Proposed-CDP-Map"
    ensures r == Filter(layers, IsCDPLayer)
  {
    Filter(layers, IsCDPLayer)
  }

  // ---------------------------------------------------------------------
  // generateLayerMapping

  /** One `layer_id` entry: a source layer and its maximum zoom. */
  datatype LayerZoom = LayerZoom(layer: string, maxzoom: int)

  /** The mapping for one source: the style-layer ids and the distinct source layers. */
  datatype LayerMapping = LayerMapping(ids: seq<string>, layerIds: seq<LayerZoom>)

  /** The result object: its keys in insertion order and the entry per key. */
  datatype Grouping = Grouping(sources: seq<string>, bySource: map<string, LayerMapping>)

  /** A layer the grouping loop does not skip: requested and with a truthy `type`. */
  predicate Admitted(inputIds: seq<string>, l: MapLayer) {
    l.id in inputIds && TruthyString(l.kind)
  }

  function LayerNames(zs: seq<LayerZoom>): (r: seq<string>)
    ensures |r| == |zs|
    ensures forall i :: 0 <= i < |zs| ==> r[i] == zs[i].layer
  {
    seq(|zs|, i requires 0 <= i < |zs| => zs[i].layer)
  }

  /** A source's entry after one more of its layers: the id is appended, and
      the source layer too unless it is falsy or already listed. */
  function ExtendEntry(entry: LayerMapping, l: MapLayer): LayerMapping {
    var zs := if TruthyString(l.sourceLayer) && l.sourceLayer.value !in LayerNames(entry.layerIds)
              then entry.layerIds + [LayerZoom(l.sourceLayer.value, 0)]
              else entry.layerIds;
    LayerMapping(entry.ids + [l.id], zs)
  }

  /** One iteration of the grouping loop for an admitted layer. */
  function AddLayer(g: Grouping, l: MapLayer): Grouping {
    var entry := if l.source in g.bySource then g.bySource[l.source] else LayerMapping([], []);
    Grouping(if l.source in g.bySource then g.sources else g.sources + [l.source],
             g.bySource[l.source := ExtendEntry(entry, l)])
  }

  /** The grouping loop of `generateLayerMapping` over the style layers, in order. */
  function GroupLayers(inputIds: seq<string>, layers: seq<MapLayer>): Grouping {
    if |layers| == 0 then Grouping([], map[])
    else
      var g := GroupLayers(inputIds, layers[..|layers| - 1]);
      var l := layers[|layers| - 1];
      if Admitted(inputIds, l) then AddLayer(g, l) else g
  }

  /** Reference: the sources of the admitted layers, in order, with repeats. */
  function AdmittedSources(inputIds: seq<string>, layers: seq<MapLayer>): seq<string> {
    if |layers| == 0 then []
    else
      var l := layers[|layers| - 1];
      AdmittedSources(inputIds, layers[..|layers| - 1]) + (if Admitted(inputIds, l) then [l.source] else [])
  }

  /** Reference: the ids of the admitted layers of source `s`, in order. */
  function IdsFor(inputIds: seq<string>, layers: seq<MapLayer>, s: string): seq<string> {
    if |layers| == 0 then []
    else
      var l := layers[|layers| - 1];
      IdsFor(inputIds, layers[..|layers| - 1], s) + (if Admitted(inputIds, l) && l.source == s then [l.id] else [])
  }

  /** Reference: the truthy source-layer names of the admitted layers of source `s`, in order, with repeats. */
  function SourceLayersFor(inputIds: seq<string>, layers: seq<MapLayer>, s: string): seq<string> {
    if |layers| == 0 then []
    else
      var l := layers[|layers| - 1];
      SourceLayersFor(inputIds, layers[..|layers| - 1], s)
      + (if Admitted(inputIds, l) && l.source == s && TruthyString(l.sourceLayer) then [l.sourceLayer.value] else [])
  }

  /** A source no admitted layer has contributes no ids and no source layers. */
  lemma {:induction false} UnseenSourceIsEmpty(inputIds: seq<string>, layers: seq<MapLayer>, s: string)
    requires s !in AdmittedSources(inputIds, layers)
    ensures IdsFor(inputIds, layers, s) == []
    ensures SourceLayersFor(inputIds, layers, s) == []
  {
    if |layers| > 0 {
      UnseenSourceIsEmpty(inputIds, layers[..|layers| - 1], s);
    }
  }

  /** The keys the grouping loop creates: one per source of an admitted
      layer, in first-appearance order. */
  lemma {:induction false} GroupLayersKeys(inputIds: seq<string>, layers: seq<MapLayer>)
    ensures GroupLayers(inputIds, layers).sources == Dedup(AdmittedSources(inputIds, layers))
    ensures forall s :: s in GroupLayers(inputIds, layers).bySource <==> s in AdmittedSources(inputIds, layers)
  {
    if |layers| > 0 {
      var p := layers[..|layers| - 1];
      var l := layers[|layers| - 1];
      GroupLayersKeys(inputIds, p);
      var g0 := GroupLayers(inputIds, p);
      if Admitted(inputIds, l) {
        assert GroupLayers(inputIds, layers) == AddLayer(g0, l);
        assert AdmittedSources(inputIds, layers) == AdmittedSources(inputIds, p) + [l.source];
        assert l.source in g0.bySource <==> l.source in Dedup(AdmittedSources(inputIds, p));
        DedupSnoc(AdmittedSources(inputIds, p), l.source);
      } else {
        assert GroupLayers(inputIds, layers) == g0;
        assert AdmittedSources(inputIds, layers) == AdmittedSources(inputIds, p);
      }
    }
  }

  /** Extending an entry keeps its source layers the distinct names seen so
      far, in first-appearance order, each with maximum zoom 0. */
  lemma ExtendEntryNames(entry: LayerMapping, l: MapLayer, names: seq<string>)
    requires LayerNames(entry.layerIds) == Dedup(names)
    requires forall i :: 0 <= i < |entry.layerIds| ==> entry.layerIds[i].maxzoom == 0
    ensures var m := ExtendEntry(entry, l);
            && LayerNames(m.layerIds) == Dedup(names + (if TruthyString(l.sourceLayer) then [l.sourceLayer.value] else []))
            && forall i :: 0 <= i < |m.layerIds| ==> m.layerIds[i].maxzoom == 0
  {
    if TruthyString(l.sourceLayer) {
      var n := l.sourceLayer.value;
      DedupSnoc(names, n);
      if n !in LayerNames(entry.layerIds) {
        assert LayerNames(entry.layerIds + [LayerZoom(n, 0)]) == LayerNames(entry.layerIds) + [n];
      }
    } else {
      assert names + [] == names;
    }
  }

  /** The entry the grouping loop keeps for `s` once `l` is processed. */
  lemma AddLayerEntry(g: Grouping, l: MapLayer, s: string, ids: seq<string>, names: seq<string>)
    requires s in g.bySource ==> g.bySource[s].ids == ids && LayerNames(g.bySource[s].layerIds) == Dedup(names)
                                  && forall i :: 0 <= i < |g.bySource[s].layerIds| ==> g.bySource[s].layerIds[i].maxzoom == 0
    requires s !in g.bySource ==> ids == [] && names == []
    requires l.source == s
    ensures var m := AddLayer(g, l).bySource[s];
            && m.ids == ids + [l.id]
            && LayerNames(m.layerIds) == Dedup(names + (if TruthyString(l.sourceLayer) then [l.sourceLayer.value] else []))
            && forall i :: 0 <= i < |m.layerIds| ==> m.layerIds[i].maxzoom == 0
  {
    var entry := if s in g.bySource then g.bySource[s] else LayerMapping([], []);
    ExtendEntryNames(entry, l, names);
    assert AddLayer(g, l).bySource[s] == ExtendEntry(entry, l);
  }

  /** The entry of one source: the ids of its admitted layers in order, and
      its distinct truthy source layers in first-appearance order, each with
      maximum zoom 0. */
  lemma {:induction false} GroupLayersEntry(inputIds: seq<string>, layers: seq<MapLayer>, s: string)
    ensures s in GroupLayers(inputIds, layers).bySource ==>
            var m := GroupLayers(inputIds, layers).bySource[s];
            && m.ids == IdsFor(inputIds, layers, s)
            && LayerNames(m.layerIds) == Dedup(SourceLayersFor(inputIds, layers, s))
            && forall i :: 0 <= i < |m.layerIds| ==> m.layerIds[i].maxzoom == 0
  {
    if |layers| > 0 {
      var p := layers[..|layers| - 1];
      var l := layers[|layers| - 1];
      var g0 := GroupLayers(inputIds, p);
      GroupLayersEntry(inputIds, p, s);
      if Admitted(inputIds, l) && l.source == s {
        if s !in g0.bySource {
          GroupLayersKeys(inputIds, p);
          UnseenSourceIsEmpty(inputIds, p, s);
        }
        assert GroupLayers(inputIds, layers) == AddLayer(g0, l);
        assert IdsFor(inputIds, layers, s) == IdsFor(inputIds, p, s) + [l.id];
        assert SourceLayersFor(inputIds, layers, s)
            == SourceLayersFor(inputIds, p, s) + (if TruthyString(l.sourceLayer) then [l.sourceLayer.value] else []);
        AddLayerEntry(g0, l, s, IdsFor(inputIds, p, s), SourceLayersFor(inputIds, p, s));
      } else {
        assert IdsFor(inputIds, layers, s) == IdsFor(inputIds, p, s) + [];
        assert SourceLayersFor(inputIds, layers, s) == SourceLayersFor(inputIds, p, s) + [];
        assert SourceLayersFor(inputIds, p, s) + [] == SourceLayersFor(inputIds, p, s);
        assert IdsFor(inputIds, p, s) + [] == IdsFor(inputIds, p, s);
        if Admitted(inputIds, l) {
          assert GroupLayers(inputIds, layers) == AddLayer(g0, l);
        } else {
          assert GroupLayers(inputIds, layers) == g0;
        }
      }
    }
  }

  /** The distinct source layers of every source are unique, as the
      `exists` check in the loop intends. */
  lemma {:induction false} LayerIdsUnique(inputIds: seq<string>, layers: seq<MapLayer>, s: string)
    requires s in GroupLayers(inputIds, layers).bySource
    ensures NoDuplicates(LayerNames(GroupLayers(inputIds, layers).bySource[s].layerIds))
  {
    GroupLayersKeys(inputIds, layers);
    GroupLayersEntry(inputIds, layers, s);
  }

  /** `match?.maxzoom || 0` for the first vector layer named `name`. */
  function MaxZoomOf(vls: seq<VectorLayer>, name: string): (z: int)
    ensures (forall j :: 0 <= j < |vls| ==> vls[j].id != name) ==> z == 0
    ensures z != 0 ==> exists j :: 0 <= j < |vls| && vls[j].id == name && vls[j].maxzoom == Some(z)
                                   && forall k :: 0 <= k < j ==> vls[k].id != name
    ensures FindLayer(vls, name).Some? ==>
              var m := FindLayer(vls, name).value.maxzoom;
              && (m.Some? && m.value != 0 ==> z == m.value)
              && (m.None? || m.value == 0 ==> z == 0)
  {
    match FindLayer(vls, name)
    case None => 0
    case Some(v) => OrDefault(v.maxzoom, 0)
  }

  /** The metadata step for one source: a failed request leaves the entry
      as it was; otherwise every `layer_id` gets its metadata maximum zoom. */
  function Refresh(m: LayerMapping, meta: Outcome<seq<VectorLayer>>): (r: LayerMapping)
    ensures r.ids == m.ids
    ensures LayerNames(r.layerIds) == LayerNames(m.layerIds)
    ensures meta.Threw? ==> r == m
    ensures meta.Ok? ==> forall i :: 0 <= i < |r.layerIds| ==> r.layerIds[i].maxzoom == MaxZoomOf(meta.value, m.layerIds[i].layer)
  {
    match meta
    case Threw => m
    case Ok(vls) =>
      m.(layerIds := seq(|m.layerIds|, i requires 0 <= i < |m.layerIds| =>
                           m.layerIds[i].(maxzoom := MaxZoomOf(vls, m.layerIds[i].layer))))
  }

  /** The tile-set metadata request: `vector_layers` of a tile-set version, or `Threw`. */
  type MetadataSource = string -> Outcome<seq<VectorLayer>>

  /** `generateLayerMapping`: group, then refresh each source from the
      metadata of its tile-set version (`maptiler_planet` is served as `v3`). */
  function GenerateLayerMapping(inputIds: seq<string>, layers: seq<MapLayer>, fetch: MetadataSource): (r: Grouping)
    ensures r.sources == GroupLayers(inputIds, layers).sources
    ensures r.bySource.Keys == GroupLayers(inputIds, layers).bySource.Keys
    ensures forall s :: s in r.bySource ==>
              r.bySource[s] == Refresh(GroupLayers(inputIds, layers).bySource[s], fetch(TileSetVersion(s)))
  {
    var g := GroupLayers(inputIds, layers);
    Grouping(g.sources, map s | s in g.bySource :: Refresh(g.bySource[s], fetch(TileSetVersion(s))))
  }

  /** End to end: each mapped source layer of an admitted layer has the
      metadata maximum zoom of its tile set, or 0 when there is no such
      layer, or when that tile set's metadata could not be fetched. */
  lemma GenerateLayerMappingZooms(inputIds: seq<string>, layers: seq<MapLayer>, fetch: MetadataSource, s: string)
    requires s in AdmittedSources(inputIds, layers)
    ensures var r := GenerateLayerMapping(inputIds, layers, fetch);
            && s in r.bySource
            && r.bySource[s].ids == IdsFor(inputIds, layers, s)
            && LayerNames(r.bySource[s].layerIds) == Dedup(SourceLayersFor(inputIds, layers, s))
            && forall i :: 0 <= i < |r.bySource[s].layerIds| ==>
                 r.bySource[s].layerIds[i].maxzoom ==
                   match fetch(TileSetVersion(s))
                   case Threw => 0
                   case Ok(vls) => MaxZoomOf(vls, r.bySource[s].layerIds[i].layer)
  {
    GroupLayersKeys(inputIds, layers);
    GroupLayersEntry(inputIds, layers, s);
    var g := GroupLayers(inputIds, layers);
    var r := GenerateLayerMapping(inputIds, layers, fetch);
    var e := g.bySource[s];
    var re := r.bySource[s];
    assert re == Refresh(e, fetch(TileSetVersion(s)));
    forall i | 0 <= i < |re.layerIds|
      ensures re.layerIds[i].layer == e.layerIds[i].layer
    {
      assert LayerNames(re.layerIds)[i] == LayerNames(e.layerIds)[i];
    }
  }
}
