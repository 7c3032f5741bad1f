/** Tile-index enumeration and the small pure pieces of the tile helper:
    the rectangle of tiles covering a search box, the block of tiles around
    a centre tile, the polygon shape check, the tile-set alias and the
    per-layer maximum zoom taken from a tile set's metadata. The
    floating-point geodesy that turns a coordinate and a radius into corner
    tiles is not modelled: corner indices and tile counts are inputs. */
module TileGrid {
  import opened Base
  import opened Json

  /** A slippy-map tile index pair (x, y) at some zoom level. */
  datatype Tile = Tile(x: int, y: int)

  function Min(a: int, b: int): int { if a <= b then a else b }
  function Max(a: int, b: int): int { if a <= b then b else a }

  /** Number of integers in the half-open range [lo, end). */
  function Span(lo: int, end: int): nat { if end <= lo then 0 else end - lo }

  /** Row-major order of tiles: by x, then by y. */
  predicate Before(a: Tile, b: Tile) {
    a.x < b.x || (a.x == b.x && a.y < b.y)
  }

  /** Strictly increasing in row-major order (so in particular duplicate-free). */
  predicate RowMajor(s: seq<Tile>) {
    forall i, j :: 0 <= i < j < |s| ==> Before(s[i], s[j])
  }

  /** The tiles (x, y) with yLo <= y < yEnd, by increasing y. */
  function Column(x: int, yLo: int, yEnd: int): seq<Tile>
    decreases yEnd - yLo
  {
    if yEnd <= yLo then [] else Column(x, yLo, yEnd - 1) + [Tile(x, yEnd - 1)]
  }

  /** The tiles with xLo <= x < xEnd and yLo <= y < yEnd, column after column:
      the reference for the nested loops of the tile helper. */
  function Block(xLo: int, xEnd: int, yLo: int, yEnd: int): seq<Tile>
    decreases xEnd - xLo
  {
    if xEnd <= xLo then [] else Block(xLo, xEnd - 1, yLo, yEnd) + Column(xEnd - 1, yLo, yEnd)
  }

  lemma RowMajorAppend(a: seq<Tile>, b: seq<Tile>)
    requires RowMajor(a) && RowMajor(b)
    requires forall i, j :: 0 <= i < |a| && 0 <= j < |b| ==> Before(a[i], b[j])
    ensures RowMajor(a + b)
  {
    forall i, j | 0 <= i < j < |a + b|
      ensures Before((a + b)[i], (a + b)[j])
    {
      if j < |a| {
      } else if i >= |a| {
        assert (a + b)[i] == b[i - |a|] && (a + b)[j] == b[j - |a|];
      } else {
        assert (a + b)[j] == b[j - |a|];
      }
    }
  }

  /** A column holds exactly its tiles, in order. */
  lemma {:induction false} ColumnFacts(x: int, yLo: int, yEnd: int)
    ensures |Column(x, yLo, yEnd)| == Span(yLo, yEnd)
    ensures forall t :: t in Column(x, yLo, yEnd) <==> t.x == x && yLo <= t.y < yEnd
    ensures RowMajor(Column(x, yLo, yEnd))
    decreases yEnd - yLo
  {
    if yEnd > yLo {
      ColumnFacts(x, yLo, yEnd - 1);
      RowMajorAppend(Column(x, yLo, yEnd - 1), [Tile(x, yEnd - 1)]);
    }
  }

  /** A block has one tile per (x, y) pair of its rectangle. */
  lemma {:induction false} BlockLength(xLo: int, xEnd: int, yLo: int, yEnd: int)
    ensures |Block(xLo, xEnd, yLo, yEnd)| == Span(xLo, xEnd) * Span(yLo, yEnd)
    decreases xEnd - xLo
  {
    if xEnd > xLo {
      BlockLength(xLo, xEnd - 1, yLo, yEnd);
      ColumnFacts(xEnd - 1, yLo, yEnd);
      var h := Span(yLo, yEnd);
      assert Span(xLo, xEnd) == Span(xLo, xEnd - 1) + 1;
      assert Span(xLo, xEnd) * h == Span(xLo, xEnd - 1) * h + h by {
        MulSucc(Span(xLo, xEnd - 1), h);
      }
    }
  }

  lemma MulSucc(a: int, b: int)
    ensures (a + 1) * b == a * b + b
  {
  }

  /** A block holds exactly the tiles of its rectangle, in row-major order. */
  lemma {:induction false} BlockFacts(xLo: int, xEnd: int, yLo: int, yEnd: int)
    ensures forall t :: t in Block(xLo, xEnd, yLo, yEnd) <==> xLo <= t.x < xEnd && yLo <= t.y < yEnd
    ensures RowMajor(Block(xLo, xEnd, yLo, yEnd))
    decreases xEnd - xLo
  {
    if xEnd > xLo {
      var prev := Block(xLo, xEnd - 1, yLo, yEnd);
      var col := Column(xEnd - 1, yLo, yEnd);
      BlockFacts(xLo, xEnd - 1, yLo, yEnd);
      ColumnFacts(xEnd - 1, yLo, yEnd);
      forall i, j | 0 <= i < |prev| && 0 <= j < |col|
        ensures Before(prev[i], col[j])
      {
        assert prev[i] in prev && col[j] in col;
      }
      RowMajorAppend(prev, col);
    }
  }

  /** In a row-major sequence the first tile comes before every other one. */
  lemma FirstIsLeast(s: seq<Tile>, t: Tile)
    requires RowMajor(s) && t in s && t != s[0]
    ensures Before(s[0], t)
  {
    var k :| 0 <= k < |s| && s[k] == t;
  }

  lemma Inhabited(s: seq<Tile>)
    requires |s| > 0
    ensures exists t :: t in s
  {
    assert s[0] in s;
  }

  /** Two row-major sequences with the same tiles are the same sequence. */
  lemma {:induction false} RowMajorUnique(a: seq<Tile>, b: seq<Tile>)
    requires RowMajor(a) && RowMajor(b)
    requires forall t :: t in a <==> t in b
    ensures a == b
    decreases |a|
  {
    if |a| > 0 && |b| > 0 {
      assert a[0] in b && b[0] in a;
      if a[0] != b[0] {
        FirstIsLeast(b, a[0]);
        FirstIsLeast(a, b[0]);
      }
      assert a[0] == b[0];
      forall t
        ensures t in a[1..] <==> t in b[1..]
      {
        if t in a[1..] {
          var k :| 1 <= k < |a| && a[k] == t;
          assert t in b && t != b[0];
          var m :| 0 <= m < |b| && b[m] == t;
          assert b[1..][m - 1] == t;
        }
        if t in b[1..] {
          var k :| 1 <= k < |b| && b[k] == t;
          assert t in a && t != a[0];
          var m :| 0 <= m < |a| && a[m] == t;
          assert a[1..][m - 1] == t;
        }
      }
      RowMajorUnique(a[1..], b[1..]);
      assert a == [a[0]] + a[1..] && b == [b[0]] + b[1..];
    } else if |a| > 0 {
      Inhabited(a);
      assert false;
    } else if |b| > 0 {
      Inhabited(b);
      assert false;
    }
  }

  /** The tiles of the inclusive rectangle spanned by two corner tiles,
      whichever corners they are: the result of `getTilesInBuffer` once the
      two corners are known. */
  function TilesInBuffer(xMin: int, yMin: int, xMax: int, yMax: int): (r: seq<Tile>)
    ensures forall t :: t in r <==>
              Min(xMin, xMax) <= t.x <= Max(xMin, xMax) && Min(yMin, yMax) <= t.y <= Max(yMin, yMax)
    ensures |r| == (Max(xMin, xMax) - Min(xMin, xMax) + 1) * (Max(yMin, yMax) - Min(yMin, yMax) + 1)
    ensures RowMajor(r)
  {
    BlockFacts(Min(xMin, xMax), Max(xMin, xMax) + 1, Min(yMin, yMax), Max(yMin, yMax) + 1);
    BlockLength(Min(xMin, xMax), Max(xMin, xMax) + 1, Min(yMin, yMax), Max(yMin, yMax) + 1);
    Block(Min(xMin, xMax), Max(xMin, xMax) + 1, Min(yMin, yMax), Max(yMin, yMax) + 1)
  }

  /** Swapping the roles of the corners, in either axis, gives the same tiles in the same order. */
  lemma CornersInterchangeable(xMin: int, yMin: int, xMax: int, yMax: int)
    ensures TilesInBuffer(xMin, yMin, xMax, yMax) == TilesInBuffer(xMax, yMin, xMin, yMax)
    ensures TilesInBuffer(xMin, yMin, xMax, yMax) == TilesInBuffer(xMin, yMax, xMax, yMin)
    ensures TilesInBuffer(xMin, yMin, xMax, yMax) == TilesInBuffer(xMax, yMax, xMin, yMin)
  {
  }

  /** The rectangle has a single x-major listing: any x-major sequence of
      exactly its tiles is the one `getTilesInBuffer` produces. */
  lemma RectangleOrderIsUnique(xMin: int, yMin: int, xMax: int, yMax: int, s: seq<Tile>)
    requires RowMajor(s)
    requires forall t :: t in s <==>
               Min(xMin, xMax) <= t.x <= Max(xMin, xMax) && Min(yMin, yMax) <= t.y <= Max(yMin, yMax)
    ensures s == TilesInBuffer(xMin, yMin, xMax, yMax)
  {
    RowMajorUnique(s, TilesInBuffer(xMin, yMin, xMax, yMax));
  }

  /** The nested loops `for (x = xLo; x <= xHi; x++) for (y = yLo; y <= yHi; y++) push([x, y])`. */
  method EnumerateInclusive(xLo: int, xHi: int, yLo: int, yHi: int) returns (tiles: seq<Tile>)
    ensures tiles == Block(xLo, xHi + 1, yLo, yHi + 1)
  {
    tiles := [];
    var x := xLo;
    while x <= xHi
      invariant xLo <= x || xHi < xLo
      invariant xLo <= x <= xHi + 1 || (x == xLo && xHi < xLo)
      invariant tiles == Block(xLo, x, yLo, yHi + 1)
      decreases xHi - x
    {
      var y := yLo;
      while y <= yHi
        invariant yLo <= y <= yHi + 1 || (y == yLo && yHi < yLo)
        invariant tiles == Block(xLo, x, yLo, yHi + 1) + Column(x, yLo, y)
        decreases yHi - y
      {
        tiles := tiles + [Tile(x, y)];
        y := y + 1;
      }
      assert Column(x, yLo, y) == Column(x, yLo, yHi + 1);
      x := x + 1;
    }
    assert Block(xLo, x, yLo, yHi + 1) == Block(xLo, xHi + 1, yLo, yHi + 1);
  }

  /** `getTilesInBuffer` from the two corner tiles `latLonToTile(north, west)`
      and `latLonToTile(south, east)`: every tile of the rectangle they span,
      column by column. */
  method GetTilesInBuffer(xMin: int, yMin: int, xMax: int, yMax: int) returns (tiles: seq<Tile>)
    ensures tiles == TilesInBuffer(xMin, yMin, xMax, yMax)
  {
    tiles := EnumerateInclusive(Min(xMin, xMax), Max(xMin, xMax), Min(yMin, yMax), Max(yMin, yMax));
  }

  /** `getAdjacentTiles` around the centre tile (x, y) with `tilesX`/`tilesY`
      tiles of margin: the offsets dx in [-tilesX, tilesX] (outer) and
      dy in [-tilesY, tilesY] (inner), each pair exactly once. A negative
      margin leaves the loop range empty. */
  method GetAdjacentTiles(x: int, y: int, tilesX: int, tilesY: int) returns (tiles: seq<Tile>)
    ensures forall t :: t in tiles <==> -tilesX <= t.x - x <= tilesX && -tilesY <= t.y - y <= tilesY
    ensures tilesX >= 0 && tilesY >= 0 ==> |tiles| == (2 * tilesX + 1) * (2 * tilesY + 1)
    ensures tilesX < 0 || tilesY < 0 ==> tiles == []
    ensures RowMajor(tiles)
  {
    tiles := EnumerateInclusive(x - tilesX, x + tilesX, y - tilesY, y + tilesY);
    BlockFacts(x - tilesX, x + tilesX + 1, y - tilesY, y + tilesY + 1);
    BlockLength(x - tilesX, x + tilesX + 1, y - tilesY, y + tilesY + 1);
    if tilesX >= 0 && tilesY >= 0 {
      assert Span(x - tilesX, x + tilesX + 1) == 2 * tilesX + 1;
      assert Span(y - tilesY, y + tilesY + 1) == 2 * tilesY + 1;
    } else {
      assert Span(x - tilesX, x + tilesX + 1) == 0 || Span(y - tilesY, y + tilesY + 1) == 0;
    }
  }

  /** A polygon ring: an array of at least four positions. */
  predicate IsRing(v: Value) {
    v.Arr? && |v.elems| >= 4
  }

  /** `isValidPolygon`: a non-empty array whose every ring has at least four positions. */
  method IsValidPolygon(coordinates: Value) returns (valid: bool)
    ensures valid <==> coordinates.Arr? && |coordinates.elems| > 0
                       && forall i :: 0 <= i < |coordinates.elems| ==> IsRing(coordinates.elems[i])
  {
    if !coordinates.Arr? || |coordinates.elems| == 0 {
      return false;
    }
    var rings := coordinates.elems;
    var i := 0;
    while i < |rings|
      invariant 0 <= i <= |rings|
      invariant forall k :: 0 <= k < i ==> IsRing(rings[k])
    {
      if !IsRing(rings[i]) {
        return false;
      }
      i := i + 1;
    }
    return true;
  }

  /** The tile-set name used in URLs: the style source `maptiler_planet` is served as `v3`. */
  function TileSetVersion(source: string): (v: string)
    ensures source == "maptiler_planet" ==> v == "v3"
    ensures source != "maptiler_planet" ==> v == source
  {
    if source == "maptiler_planet" then "v3" else source
  }

  /** One entry of a tile set's `vector_layers` metadata. */
  datatype VectorLayer = VectorLayer(id: string, minzoom: Option<int>, maxzoom: Option<int>)

  /** `vectorLayers.find(l => l.id === id)`: the first layer with that id. */
  function FindLayer(layers: seq<VectorLayer>, id: string): (r: Option<VectorLayer>)
    ensures r.None? <==> forall i :: 0 <= i < |layers| ==> layers[i].id != id
    ensures r.Some? ==> exists i :: 0 <= i < |layers| && layers[i] == r.value && layers[i].id == id
                                  && forall j :: 0 <= j < i ==> layers[j].id != id
  {
    if |layers| == 0 then None
    else if layers[0].id == id then Some(layers[0])
    else
      var r := FindLayer(layers[1..], id);
      assert r.Some? ==> exists i :: 0 <= i < |layers[1..]| && layers[1..][i] == r.value && layers[1..][i].id == id
                                  && forall j :: 0 <= j < i ==> layers[1..][j].id != id;
      assert r.Some? ==> exists i :: 0 <= i < |layers| && layers[i] == r.value && layers[i].id == id
                                  && forall j :: 0 <= j < i ==> layers[j].id != id by {
        if r.Some? {
          var i :| 0 <= i < |layers[1..]| && layers[1..][i] == r.value && layers[1..][i].id == id
                   && forall j :: 0 <= j < i ==> layers[1..][j].id != id;
          assert layers[i + 1] == r.value;
          assert forall j :: 0 <= j < i + 1 ==> layers[j].id != id by {
            forall j | 0 <= j < i + 1 ensures layers[j].id != id {
              if j > 0 { assert layers[j] == layers[1..][j - 1]; }
            }
          }
        }
      }
      r
  }

  /** `x || fallback` on an optional number: a missing or zero value gives the fallback. */
  function OrDefault(v: Option<int>, fallback: int): int {
    if v.Some? && v.value != 0 then v.value else fallback
  }

  /** The zoom range `getLayerZoom` reports for one source layer. */
  datatype ZoomRange = ZoomRange(minzoom: int, maxzoom: int)

  /** `getLayerZoom`: the zoom range of `sourceLayer` from the tile set's
      metadata (`Threw` when the metadata request fails); minimum zoom 0 and
      maximum zoom 22 when the layer is unknown, its value is missing or zero,
      or the request failed. */
  function GetLayerZoom(meta: Outcome<seq<VectorLayer>>, sourceLayer: string): (z: ZoomRange)
    ensures meta.Threw? ==> z == ZoomRange(0, 22)
    ensures meta.Ok? && (forall i :: 0 <= i < |meta.value| ==> meta.value[i].id != sourceLayer) ==> z == ZoomRange(0, 22)
    ensures z.maxzoom == 22 || exists l :: l in meta.value && l.id == sourceLayer && l.maxzoom == Some(z.maxzoom)
    ensures z.maxzoom != 0
    ensures meta.Ok? && FindLayer(meta.value, sourceLayer).Some? ==>
              var l := FindLayer(meta.value, sourceLayer).value;
              && (l.maxzoom.Some? && l.maxzoom.value != 0 ==> z.maxzoom == l.maxzoom.value)
              && (l.maxzoom.None? || l.maxzoom.value == 0 ==> z.maxzoom == 22)
              && (l.minzoom.Some? && l.minzoom.value != 0 ==> z.minzoom == l.minzoom.value)
              && (l.minzoom.None? || l.minzoom.value == 0 ==> z.minzoom == 0)
  {
    match meta
    case Threw => ZoomRange(0, 22)
    case Ok(layers) =>
      match FindLayer(layers, sourceLayer)
      case None => ZoomRange(0, 22)
      case Some(l) => ZoomRange(OrDefault(l.minzoom, 0), OrDefault(l.maxzoom, 22))
  }
}
