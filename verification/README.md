# propscope: a Dafny model of the tile-aggregation core

propscope builds a "property scope" report for a map point. It reads a
manifest of groups and subgroups. For every subgroup it fetches the vector
tiles around the point, then:

- stitches polygons that were split across tiles, using their `geohash_id`;
- filters the features with a declarative attribute filter;
- clips them to a buffer, or keeps those containing the point;
- stores one feature document and one metadata document per subgroup.

A separate entry point classifies the land at a point. It first tries a
development-plan (CDP) layer, then land use.

This project models the sequential decision logic between the external
calls, as pure Dafny functions over immutable data:

| module | file | models |
|---|---|---|
| `Base` | `base.dfy` | optional values, outcomes that may throw, order-preserving filters, deduplication |
| `Json` | `json.dfy` | property values (Str/Num/Bool/Null/Arr/Obj), JavaScript truthiness, `===`, `Array.includes`, `String.includes`, `<=` |
| `Geo` | `geo.dfy` | geometries and features |
| `TileGrid` | `tiles.dfy` | tile enumeration (`getTilesInBuffer`, `getAdjacentTiles`), `isValidPolygon`, `getLayerZoom`, the `maptiler_planet` → `v3` alias |
| `TileMerge` | `merge.dfy` | `fetchAndProcessTile`'s error-to-empty rule and the `fetchTileData` merge fold |
| `FeatureFilter` | `filter.dfy` | `filterFeatures` |
| `Clipping` | `clipping.dfy` | `findFeaturesWithinBuffer`, `getPolygonContainingPoint`, `filterFeaturesInIsochrone` |
| `PropertyType` | `property_type.dfy` | the two allow-list classifiers, `processFeatures`, `getCDPLayer`, `generateLayerMapping` |
| `Propscope` | `propscope.dfy` | `getGroupedData`, `generateReport`, `buildLayerSourceMap`, `updateManifest`, `getPropertyType` |

Outside code is passed in as function-typed parameters. This covers the
geometry kernel (point-in-polygon, bounding-box clip, line split, union),
the vector-tile decoder, and the metadata and style requests. Each
parameter returns `Outcome.Threw` where the original can throw.

Exceptions are explicit. A JavaScript exception is `Threw`, and every
`try`/`catch` in the source becomes a case split on it.

Where the design notes and the code disagree, the model follows the code:

- A subgroup whose filter throws rejects the `Promise.all` of
  `getGroupedData`, so the whole group is skipped, not just that subgroup
  (`Propscope.GetGroupedData`, `Propscope.GroupDocs`).
- In `fetchTileData`, a decoded feature without a geometry throws at
  `feature.geometry.type`. The tile's `catch` then drops the rest of that
  tile, while its earlier features stay merged (`TileMerge.MergeTile`).
- In `findFeaturesWithinBuffer`, a line feature that throws part-way keeps
  the segments it pushed before the exception (`Clipping.SegmentCopiesKeepsPrefix`).
- A missing manifest makes `generateReport` throw before any group runs.
  The report status is then never set to `true` (`Propscope.GenerateReport`).
- A group without `sub_groups` gets through `getGroupedData` (`|| []`), but
  then throws at `groupData.sub_groups.map` and is skipped
  (`Propscope.GroupDocs`).

## Model

| member | source | states |
|---|---|---|
| `Json.OptionalIncludes` | src/core/helpers/featureClipping.helper.ts:166-171 | `target?.includes(x)`: an undefined or null target gives false; a string target with a string argument means substring; an array target means an element strictly equal to `x`; numbers, booleans and objects throw |
| `TileGrid.TilesInBuffer` | src/core/helpers/tile.helper.ts:342-353 | exactly the tiles in the inclusive rectangle between min and max of the corner coordinates, (Δx+1)(Δy+1) of them, in x-major order |
| `TileGrid.CornersInterchangeable` | src/core/helpers/tile.helper.ts:342-353 | swapping the x corners, the y corners or both gives the same tile list |
| `TileGrid.RectangleOrderIsUnique` | src/core/helpers/tile.helper.ts:342-353 | the rectangle has exactly one x-major listing without repeats, and it is the one the loops produce |
| `TileGrid.EnumerateInclusive` | src/core/helpers/tile.helper.ts:347-351 | the nested inclusive loops produce the x-major block of the rectangle |
| `TileGrid.GetTilesInBuffer` | src/core/helpers/tile.helper.ts:334-354 | the loop over min/max-normalised corners returns the rectangle of `TilesInBuffer` |
| `TileGrid.GetAdjacentTiles` | src/core/helpers/tile.helper.ts:93-103 | tile t is in the result iff both offsets t−(x,y) lie in the symmetric ranges; (2·tilesX+1)(2·tilesY+1) tiles with dx outer, each once; empty when a range is negative |
| `TileGrid.IsValidPolygon` | src/core/helpers/tile.helper.ts:16-22 | true iff the input is a non-empty array whose every ring is an array of length at least 4 |
| `TileGrid.TileSetVersion` | src/core/helpers/tile.helper.ts:52-54 | `maptiler_planet` is served as `v3`; every other tile set keeps its name |
| `TileGrid.FindLayer` | src/core/helpers/tile.helper.ts:58-60 | the first vector layer with the requested id, or none when no layer has it |
| `TileGrid.GetLayerZoom` | src/core/helpers/tile.helper.ts:47-71 | a failed request or an unknown layer gives (0, 22); otherwise the first layer with that id decides: its maxzoom, or 22 when missing or 0, and its minzoom, or 0 when missing or 0 |
| `TileMerge.Combine` | src/core/helpers/tile.helper.ts:190-217 | a repeat sighting keeps the stored properties; a successful union of the two parts replaces the stored geometry, and the stored entry stays as it was when the union throws or returns nothing |
| `TileMerge.OnlyFirstPartIsUnioned` | src/core/helpers/tile.helper.ts:192-200 | two MultiPolygons with the same first part merge identically: only `coordinates[0]` reaches the union |
| `TileMerge.Step` | src/core/helpers/tile.helper.ts:184-222 | a non-mergeable feature is appended to the other features; a first sighting is stored unchanged with its id appended to the key order; a repeat sighting replaces only that id's entry, by its combination with the new sighting; the map stays consistent with the key order |
| `TileMerge.SplitPolygonIsStitched` | src/core/helpers/tile.helper.ts:176-232 | a polygon whose halves sit in two neighbouring tiles comes out as one feature with the first half's properties and the union of the halves as geometry |
| `TileMerge.ProcessTile` | src/core/helpers/tile.helper.ts:24-45 | a decoder error gives an empty feature list; otherwise the decoded features, unchanged |
| `TileMerge.MergeTile` | src/core/helpers/tile.helper.ts:183-226 | processing one tile keeps the merge state consistent |
| `TileMerge.MergeTileIsFold` | src/core/helpers/tile.helper.ts:183-226 | one tile is the fold over its features up to the first one without a geometry |
| `TileMerge.MergeTiles` | src/core/helpers/tile.helper.ts:179-227 | processing the tiles in order keeps the merge state consistent |
| `TileMerge.MergeTilesIsFold` | src/core/helpers/tile.helper.ts:179-227 | all tiles are one fold over the concatenation of their processed features |
| `TileMerge.Output` | src/core/helpers/tile.helper.ts:229-232 | the stored features in key order, then the other features |
| `TileMerge.FailedTileContributesNothing` | src/core/helpers/tile.helper.ts:24-45 | a tile whose decoding fails changes nothing: the result equals the result without that tile, and later tiles still count |
| `TileMerge.FoldContents` | src/core/helpers/tile.helper.ts:176-232 | the other features are exactly the non-mergeable ones in order; keys are the distinct ids in first-sighting order; each stored entry keeps its first sighting's properties |
| `TileMerge.FirstSightingIffSeen` | src/core/helpers/tile.helper.ts:187-189 | an id has a first sighting iff it occurs on some mergeable feature, and that sighting is one of them |
| `TileMerge.FetchTileDataContents` | src/core/helpers/tile.helper.ts:168-233 | the output has one entry per distinct id plus every other feature, the other features last and in order, each entry with its first sighting's properties |
| `TileMerge.NoUnionKeepsFirstSighting` | src/core/helpers/tile.helper.ts:187-217 | when the union never yields a geometry, every stored entry is its first sighting, unchanged |
| `FeatureFilter.SplitKey` | src/core/helpers/featureClipping.helper.ts:174 | the property is the text before the first `__`; the operator is the text up to the next one; no separator means no operator |
| `FeatureFilter.SplitJoin` | src/core/helpers/featureClipping.helper.ts:174 | splitting `property + "__" + op` gives back property and op when neither contains `__` and the property does not end in `_` |
| `FeatureFilter.AnyIncludes` | src/core/helpers/featureClipping.helper.ts:167-168 | `values.some(v => target?.includes(v))`: false for no values, a throw on a target without `includes`, otherwise whether some value is included |
| `FeatureFilter.EvalEntry` | src/core/helpers/featureClipping.helper.ts:164-197 | one entry. A null condition throws. `includes` with an array value means some value is included; with a scalar value, that value is included. `prop__lte`/`gte` compare numbers and strings; `eq` is strict equality; any other operator is false. A plain key with an array condition means membership, otherwise strict equality. An array-valued `includes` on a number, boolean or object property throws, unless the array is empty. |
| `FeatureFilter.Every` | src/core/helpers/featureClipping.helper.ts:164 | true iff every entry is true; throws iff the first entry that is not true throws |
| `FeatureFilter.FilterIsConjunction` | src/core/helpers/featureClipping.helper.ts:163-198 | the empty filter is true, and a filter split anywhere is the short-circuit conjunction of its parts |
| `FeatureFilter.PriceAtMost` | src/core/helpers/featureClipping.helper.ts:180-181 | `price__lte` accepts a numeric price iff it is at most the limit, and rejects a feature without a price |
| `FeatureFilter.TagsIncludeAny` | src/core/helpers/featureClipping.helper.ts:166-169 | the condition `{ type: 'includes', value: ['x', 'y'] }` accepts a feature whose `tags` is an array iff the array holds `"x"` or `"y"` |
| `Clipping.SegmentCopies` | src/core/helpers/featureClipping.helper.ts:137-146 | when no start-point test fails, a copy of the feature for each segment whose start lies in the buffer, in order, each with the segment as geometry; it throws iff some segment has no start point or its test throws |
| `Clipping.LineCopies` | src/core/helpers/featureClipping.helper.ts:129-147 | every pushed copy keeps the feature's properties; no lines push nothing; a line whose split throws ends the feature with nothing pushed for it; a line whose segment loop throws ends the feature with exactly the copies that loop pushed; the rest is stated by the lemmas below |
| `Clipping.FirstUntestable` | src/core/helpers/featureClipping.helper.ts:140-142 | the position of the first segment whose start point is missing or throws in the point-in-buffer test; every segment before it can be tested |
| `Clipping.SegmentCopiesKeepsPrefix` | src/core/helpers/featureClipping.helper.ts:137-146 | when a segment's start point cannot be tested, the copies already pushed stay: those of the inside segments ahead of the first untestable one |
| `Clipping.LineCopiesAppend` | src/core/helpers/featureClipping.helper.ts:136-149 | lines are handled in order: after a prefix of lines without an exception, the rest continues after its copies; an exception in the prefix ends the feature there |
| `Clipping.LineCopiesAllSucceed` | src/core/helpers/featureClipping.helper.ts:136-149 | when every split and start-point test succeeds, one copy per segment starting inside the buffer, line after line and segment after segment |
| `Clipping.MultiLineStringKeepsInsideSegments` | src/core/helpers/featureClipping.helper.ts:125-149 | a MultiLineString whose splits and tests succeed yields, for each line in order, one copy per segment starting inside the buffer |
| `Clipping.Emit` | src/core/helpers/featureClipping.helper.ts:101-157 | per feature: none without a geometry; a Point/MultiPoint kept unchanged iff inside; a Polygon/MultiPolygon kept with its clipped geometry iff the clip has non-empty coordinates; other types dropped; properties always kept; a LineString gives its one line's copies and a MultiLineString its lines' copies (none when its coordinates are not an array), even when handling ends in an exception |
| `Clipping.LineStringThrowKeepsPrefix` | src/core/helpers/featureClipping.helper.ts:136-157 | a LineString whose start-point tests throw part-way keeps, in the result, the copies of the inside segments ahead of the first untestable segment |
| `Clipping.LineStringKeepsInsideSegments` | src/core/helpers/featureClipping.helper.ts:125-149 | a LineString whose split and tests succeed yields one copy per segment starting inside the buffer, in order |
| `Clipping.FindFeaturesWithinBuffer` | src/core/helpers/featureClipping.helper.ts:91-161 | every output feature carries the properties of some input feature |
| `Clipping.WithinBufferIsPerFeature` | src/core/helpers/featureClipping.helper.ts:101-158 | the result for a concatenation is the concatenation of the results, so input order is kept and one feature's exception never affects the others |
| `Clipping.GetPolygonContainingPoint` | src/core/helpers/featureClipping.helper.ts:200-215 | the first feature that contains the point; null iff none does; it throws iff the first test that is not false throws |
| `Clipping.FilterFeaturesInIsochrone` | src/core/helpers/featureClipping.helper.ts:217-228 | exactly the Point features inside the polygon, in order; it throws iff some Point's test throws |
| `PropertyType.IsAllowedCDPType` | src/core/helpers/propertyType.helper.ts:150-168 | no verdict iff `name` is falsy; otherwise the type is the name, allowed iff it is one of the seven development-plan types |
| `PropertyType.IsAllowedLandUseType` | src/core/helpers/propertyType.helper.ts:170-195 | land use with a truthy class: the class, allowed iff residential/industrial/commercial/neighbourhood; a building: allowed `building`; no verdict in every other case |
| `PropertyType.ProcessFeatures` | src/core/helpers/propertyType.helper.ts:130-148 | the verdict of the first feature that yields one, in order; null iff no feature does (so null for no features) |
| `PropertyType.ClassificationComesFromContainingPolygon` | src/core/helpers/propertyType.helper.ts:138-143 | a classification found comes from the classifier on a Polygon/MultiPolygon that contains the point |
| `PropertyType.CDPLayers` | src/core/helpers/propertyType.helper.ts:46-49 | exactly the style layers whose id is `Proposed-CDP-Map`, in order |
| `PropertyType.GroupLayersKeys` | src/core/helpers/propertyType.helper.ts:62-69 | one key per source of a requested layer with a truthy type, in first-appearance order |
| `PropertyType.GroupLayersEntry` | src/core/helpers/propertyType.helper.ts:71-80 | per source: the ids of its admitted layers in order, and its distinct truthy source layers in first-appearance order, each with maxzoom 0 |
| `PropertyType.LayerIdsUnique` | src/core/helpers/propertyType.helper.ts:73-79 | a source never lists the same source layer twice |
| `PropertyType.MaxZoomOf` | src/core/helpers/propertyType.helper.ts:96-99 | `match?.maxzoom \|\| 0`: the maxzoom of the first vector layer with that name, or 0 when there is none or its maxzoom is missing or 0 |
| `PropertyType.Refresh` | src/core/helpers/propertyType.helper.ts:90-108 | a failed metadata request leaves the entry unchanged; otherwise ids and layer names stay, and every maxzoom comes from the metadata |
| `PropertyType.GenerateLayerMapping` | src/core/helpers/propertyType.helper.ts:51-113 | the grouping's keys and order, each entry refreshed from the metadata of its tile-set version |
| `PropertyType.GenerateLayerMappingZooms` | src/core/helpers/propertyType.helper.ts:82-101 | for each admitted source: its ids, its distinct source layers, and each layer's metadata maxzoom (0 if unknown or if the request failed) |
| `Propscope.EffectiveMaxZoom` | src/propscope/propscope.service.ts:274-289 | the looked-up maxzoom when both source layer and tile source are truthy, otherwise the manifest's own value |
| `Propscope.SubgroupZoom` | src/propscope/propscope.service.ts:293 | the zoom used never exceeds the report zoom; it is the effective maxzoom when that is non-zero and lower, and the report zoom otherwise |
| `Propscope.UnknownLayerCapsAt22` | src/propscope/propscope.service.ts:279-293 | when the metadata request fails, the zoom is capped at 22 |
| `Propscope.MetadataZoomCaps` | src/propscope/propscope.service.ts:274-293 | a layer the metadata lists caps the subgroup's zoom at its first entry's maxzoom, or at 22 when that is missing or 0 |
| `Propscope.TileSetOf` | src/propscope/propscope.service.ts:302-305 | `maptiler_planet` is requested as `v3`; other tile sources unchanged |
| `Propscope.SubgroupTiles` | src/propscope/propscope.service.ts:293-316 | one decoded tile per buffer tile at the subgroup's zoom, in enumeration order, from its aliased tile set and source layer |
| `Propscope.SubgroupFeatures` | src/propscope/propscope.service.ts:336-341 | the merged tile features that pass `filter \|\| {}`, in order; it throws iff the filter throws on some feature |
| `Propscope.GetGroupedData` | src/propscope/propscope.service.ts:264-346 | each subgroup in order with its selected features; it throws iff some subgroup's filtering throws |
| `Propscope.OverviewStep` | src/propscope/propscope.service.ts:136-151 | each subgroup keeps exactly its Polygon/MultiPolygon features containing the point, in order; it throws iff such a test throws |
| `Propscope.BufferRadius` | src/propscope/propscope.service.ts:179 | `custom_buffer ?? 5`: only a missing value falls back to 5 km, so an explicit 0 is kept |
| `Propscope.BufferStep` | src/propscope/propscope.service.ts:177-194 | each subgroup's features clipped to a buffer of its own radius, subgroups in order |
| `Propscope.OverviewFlag` | src/propscope/propscope.service.ts:204 | `overview \|\| false`: a truthy value is kept, anything else is false |
| `Propscope.FeatureDocs` | src/propscope/propscope.service.ts:196-205 | one document per subgroup, in order, with its names and features; `features_2km` defaults to [] and `overview` is kept when truthy and is false otherwise |
| `Propscope.MetaObject` | src/propscope/propscope.service.ts:208-219 | the object holds a field iff the field is declared and its value is truthy, with the feature's own value |
| `Propscope.MetaDocs` | src/propscope/propscope.service.ts:207-227 | one document per subgroup, named by its display name, with one metadata object per feature |
| `Propscope.GroupDocs` | src/propscope/propscope.service.ts:128-248 | succeeds iff the group has sub_groups, no subgroup's filter throws and its spatial step does not throw; the documents are then the feature and metadata documents built from the spatial step's result |
| `Propscope.SpatialStep` | src/propscope/propscope.service.ts:136-195 | the Overview group keeps each subgroup's polygons containing the point and throws iff a containment test throws; any other group never throws and clips each subgroup with `custom_buffer ?? 5` |
| `Propscope.CollectDocs` | src/propscope/propscope.service.ts:128-249 | no groups give no documents; one group gives its documents when it succeeds and none when it throws |
| `Propscope.SucceedingGroupIsKept` | src/propscope/propscope.service.ts:128-249 | a successful group's documents sit in the report between those of the groups before and after it |
| `Propscope.BufferGroupSucceedsUnlessFilterThrows` | src/propscope/propscope.service.ts:128-195 | a group other than Overview with sub_groups succeeds iff none of its subgroups' filters throws |
| `Propscope.ReportIsPerGroup` | src/propscope/propscope.service.ts:128-249 | the documents of a list of groups are the documents of each group, in order |
| `Propscope.FailingGroupIsSkipped` | src/propscope/propscope.service.ts:244-248 | a group that throws contributes nothing and the following groups are still processed |
| `Propscope.GenerateReport` | src/propscope/propscope.service.ts:118-255 | status true iff there is a manifest; without one, no documents |
| `Propscope.OverviewDocsHoldContainingPolygons` | src/propscope/propscope.service.ts:136-151 | an Overview group's documents hold the filtered polygons that contain the point |
| `Propscope.BufferDocsUseSubgroupRadius` | src/propscope/propscope.service.ts:177-194 | any other group's documents hold the filtered features clipped with `custom_buffer ?? 5` |
| `Propscope.BuildLayerSourceMap` | src/propscope/propscope.service.ts:387-395 | a source layer is a key iff some layer has both a truthy source layer and a truthy source |
| `Propscope.LastMapper` | src/propscope/propscope.service.ts:389-393 | the last style layer that maps a source layer: it maps it and no later layer does; none iff no layer maps it |
| `Propscope.LastLayerWins` | src/propscope/propscope.service.ts:389-393 | each key maps to the source of the last layer that maps it |
| `Propscope.RewriteSubgroup` | src/propscope/propscope.service.ts:366-369 | only a subgroup whose truthy source layer is a key gets that key's source as tile source; any other subgroup is untouched |
| `Propscope.RewriteGroup` | src/propscope/propscope.service.ts:365-370 | a group keeps its names and its number of subgroups; each subgroup is rewritten |
| `Propscope.RewriteManifest` | src/propscope/propscope.service.ts:364-371 | a manifest keeps its groups in order; each group is rewritten |
| `Propscope.RewriteIdempotent` | src/propscope/propscope.service.ts:364-371 | rewriting twice with the same map is the same as rewriting once |
| `Propscope.RewriteUsesLastStyleLayer` | src/propscope/propscope.service.ts:362-371 | after the rewrite, a mapped subgroup has the source of the last style layer that maps its source layer; others are unchanged |
| `Propscope.UpdateManifest` | src/propscope/propscope.service.ts:348-379 | a missing manifest or failed style request throws; otherwise the rewritten manifest |
| `Propscope.CDPRequest` | src/propscope/propscope.service.ts:404-416 | zoom 16, the CDP layers' source layers in order; the first CDP layer's source is the tile set, and there is no tile set when there is no CDP layer |
| `Propscope.CDPStage` | src/propscope/propscope.service.ts:403-425 | throws when the style or the fetch for `CDPRequest` throws; otherwise classifies the fetched features with `isAllowedCDPType` |
| `Propscope.LandUseStage` | src/propscope/propscope.service.ts:429-445 | fetches `landuse` and `building` at zoom 15 from `v3`, throws when that fetch throws, and otherwise classifies the features with `isAllowedLandUseType` |
| `Propscope.GetPropertyType` | src/propscope/propscope.service.ts:397-448 | a CDP verdict wins even when not allowed; otherwise the land-use verdict; otherwise undetermined; an exception in a stage counts as no verdict |
| `Propscope.AllowedMeansListed` | src/propscope/propscope.service.ts:397-448 | an allowed verdict always names a listed development-plan type, a listed land-use class, or `building` |

## Left out

- Floating-point geodesy is not modelled: `destinationPoint`, `getBufferBounds`, `latLonToTile`, `lonLatToTile`, and the tile-size arithmetic of `getAdjacentTiles`. Corner tiles and `tilesX`/`tilesY` are integer inputs instead, and `Services.bufferCorners` returns the corners for a zoom.
- The geometry kernel is not modelled: `booleanPointInPolygon`, `bboxClip`, `lineSplit`, `union`, `buffer`, `bbox`, and the polygon/line/point constructors. They are function parameters that may throw, because they are external geometry code.
- The vector-tile decoder and every HTTP request are not modelled: tile fetches, style JSON, tile-set metadata. They are parameters. `fetchVectorData`'s configuration check is part of its `Threw` result.
- The database is not modelled: manifest lookup, document inserts, status update. A report is the list of documents it would insert plus the final status. Insert failures are caught and logged in the source, and are not modelled.
- Concurrency is not modelled: the `Promise.all` fan-outs and the fire-and-forget report run. They are sequential maps, which gives the same result because each subgroup and source touches only its own entry.
- The gRPC controller, request parsing, Nest modules, configuration, logging and uuid generation are outside the core.
- The commented-out code is not modelled: the isochrone branch of `generateReport`, the old `fetchTileData` and `fetchTileDataForTile`, and the old `findFeaturesWithinBuffer`.
- `createPropscope` and `getPropscopeStatus` are not modelled, because they only read and write the database.
- `FeatureFilter.EvalEntry`: `<=`/`>=` between values of different types, and on booleans or null, follows the model's coercion of booleans and null to numbers; other mixed pairs are false. String-to-number coercion (`"5" <= 10`) and `NaN` are not modelled.
- `FeatureFilter.EvalEntry`: `lte`/`gte` on two strings compares them by Unicode scalar value, while JavaScript compares UTF-16 code units. The two orders differ when a character above U+FFFF meets one in U+E000–U+FFFF, and strings with lone surrogates cannot be expressed at all.
- `Json.OptionalIncludes`: a string target coerces a number or array argument to a string. The model does not produce JavaScript's number and array printing, and treats those arguments as not included.
- `TileMerge.FoldContents`: the merge map is keyed by the id value itself. JavaScript turns keys into strings (so `1` and `"1"` collide) and lists integer-like keys first in `Object.values`; the model keeps first-sighting order and distinct keys.
- `Propscope.GroupDocs`: an `!groupData` check is not modelled, because `getGroupedData` always returns its argument. A buffer whose construction throws is not modelled either: the buffer operations for a radius are given.
- `TileGrid.GetLayerZoom`: the minimum zoom is computed but the service never reads it.
- `Propscope.SubgroupZoom`: zoom levels are integers; a fractional zoom is not modelled.
