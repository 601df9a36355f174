/**
  The rasterizer of open_street_map_visualizer.py, modelled as the ordered list of
  draw commands it issues on a canvas (cv2.fillPoly, cv2.line, cv2.polylines),
  followed by the crop back to the requested box. Pixels themselves are not modelled.

  `distance_between_two_gps_points` is an uninterpreted function carried by the
  projection frame.
 */
module Visualizer {
  import opened Wrappers
  import opened DataModels

  /** The drawable class names; "water" and "bridge" appear twice, as in the source. */
  const ClassNames: seq<string> := [
    "wood", "water", "vineyard", "residential", "scrub", "unknown", "farmland", "parking", "construction",
    "park", "retail", "industrial", "commercial", "road", "water", "building", "grass", "bridge",
    "air_conditioning", "bridge", "service", "secondary", "footway", "tertiary", "steps", "cycleway",
    "primary", "fence", "unclassified", "retaining_wall", "wall", "path", "pedestrian", "primary_link",
    "secondary_link", "tertiary_link"]

  const ClassToColor: map<string, int> := map[
    "wood" := 1, "water" := 2, "vineyard" := 3, "residential" := 4, "scrub" := 5, "unknown" := 6,
    "farmland" := 7, "parking" := 8, "construction" := 9, "park" := 10, "grass" := 11, "bridge" := 12,
    "fence" := 13, "wall" := 14, "footway" := 15, "path" := 16, "cycleway" := 17, "pedestrian" := 18,
    "retaining_wall" := 19, "building" := 20, "road" := 255]

  /** distance_between_two_gps_points(lat1, lon1, lat2, lon2), in meters. */
  type Distance = (real, real, real, real) -> real

  /** The pixel frame: the distance function and the reference (inflated top-left) corner. */
  datatype Frame = Frame(dist: Distance, refLat: real, refLon: real)

  datatype Pixel = Pixel(x: int, y: int)

  datatype DrawCommand =
    | FillPoly(points: seq<Pixel>, color: int)
    | Line(p1: Pixel, p2: Pixel, color: int, thickness: int)
    | Polylines(points: seq<Pixel>, isClosed: bool, color: int, thickness: int)

  /** The parsed response; each Python dict of entities is kept as its values in iteration order. */
  datatype ResponseData = ResponseData(
    nodes: map<NodeId, Node>,
    roads: seq<Road>,
    regions: seq<Region>,
    waterways: seq<Road>,
    buildings: seq<Building>)

  /** A canvas slice `canvas[rowStart:rowStop, colStart:colStop, :]`, with bounds already clamped. */
  datatype CroppedCanvas = CroppedCanvas(
    rowStart: int, rowStop: int, colStart: int, colStop: int, channels: nat, strokes: seq<DrawCommand>)

  /** The canvas buffer: a fixed shape, and the draw commands issued on it so far. */
  class Canvas {
    const height: nat
    const width: nat
    const channels: nat
    var commands: seq<DrawCommand>

    constructor (height: nat, width: nat, channels: nat)
      ensures this.height == height && this.width == width && this.channels == channels
      ensures commands == []
    {
      this.height, this.width, this.channels := height, width, channels;
      commands := [];
    }
  }

  // ---------------------------------------------------------------------------
  // The allow-list

  /** `classes_to_be_drawn` is truthy: present and non-empty. */
  predicate Restricts(allow: Option<seq<string>>)
  {
    allow.Some? && allow.value != []
  }

  /** `not classes_to_be_drawn or cls in classes_to_be_drawn`. */
  predicate Allowed(allow: Option<seq<string>>, cls: string)
  {
    !Restricts(allow) || cls in allow.value
  }

  // ---------------------------------------------------------------------------
  // The pixel projection

  /** Python's `int()` on a float: truncation toward zero. */
  function Trunc(v: real): (r: int)
    ensures v >= 0.0 ==> r as real <= v < r as real + 1.0
    ensures v < 0.0 ==> r as real - 1.0 < v <= r as real
  {
    if v >= 0.0 then v.Floor else -((-v).Floor)
  }

  /** East offset of a longitude in meters, and south offset of a latitude. */
  function EastMeters(f: Frame, lon: real): real { f.dist(f.refLat, f.refLon, f.refLat, lon) }
  function SouthMeters(f: Frame, lat: real): real { f.dist(f.refLat, f.refLon, lat, f.refLon) }

  /** The projection every drawing routine applies to a node. */
  function Project(f: Frame, node: Node): Pixel
  {
    var dx := 10.0 * EastMeters(f, node.lon);
    var dy := 10.0 * SouthMeters(f, node.lat);
    Pixel(Trunc(if node.lon < f.refLon then -dx else dx), Trunc(if node.lat > f.refLat then -dy else dy))
  }

  function Pixels(f: Frame, s: seq<Node>): (r: seq<Pixel>)
    ensures |r| == |s|
    ensures forall i :: 0 <= i < |s| ==> r[i] == Project(f, s[i])
  {
    seq(|s|, i requires 0 <= i < |s| => Project(f, s[i]))
  }

  /** Projecting a path piecewise gives the projection of the whole path. */
  lemma PixelsAppend(f: Frame, a: seq<Node>, b: seq<Node>)
    ensures Pixels(f, a + b) == Pixels(f, a) + Pixels(f, b)
  {
  }

  /** The `coords` list built for a path of node ids. */
  function Coords(f: Frame, nodes: map<NodeId, Node>, ids: seq<NodeId>): seq<Pixel>
    requires Resolves(ids, nodes)
  {
    Pixels(f, Lookup(ids, nodes))
  }

  // ---------------------------------------------------------------------------
  // Regions, in descending order of area

  predicate ValidRegion(r: Region, nodes: map<NodeId, Node>)
  {
    |r.nodes| > 0 && Resolves(r.nodes, nodes)
  }

  predicate AllValid(s: seq<Region>, nodes: map<NodeId, Node>)
  {
    forall r :: r in s ==> ValidRegion(r, nodes)
  }

  /** The sort key `get_area`; only valid regions are ever sorted, the 0 is never used by them. */
  function AreaKey(r: Region, nodes: map<NodeId, Node>): real
  {
    if ValidRegion(r, nodes) then ShoelaceArea(r.nodes, nodes) else 0.0
  }

  predicate SortedByArea(s: seq<Region>, nodes: map<NodeId, Node>)
  {
    forall i, j :: 0 <= i < j < |s| ==> AreaKey(s[i], nodes) >= AreaKey(s[j], nodes)
  }

  predicate SortedDesc<T>(s: seq<T>, key: T -> real)
  {
    forall i, j :: 0 <= i < j < |s| ==> key(s[i]) >= key(s[j])
  }

  /** Places x before the first element whose key is not larger, so equal keys keep input order. */
  function InsertDesc<T>(x: T, t: seq<T>, key: T -> real): (r: seq<T>)
    requires SortedDesc(t, key)
    ensures multiset(r) == multiset(t) + multiset{x}
    ensures SortedDesc(r, key)
    ensures r[0] == x || (t != [] && r[0] == t[0])
  {
    if t == [] || key(t[0]) <= key(x) then
      SortedCons(x, t, key);
      [x] + t
    else
      assert SortedDesc(t[1..], key);
      var rest := InsertDesc(x, t[1..], key);
      assert t == [t[0]] + t[1..];
      SortedCons(t[0], rest, key);
      [t[0]] + rest
  }

  /** Putting in front of a sorted sequence an element whose key is at least the head's keeps it sorted. */
  lemma SortedCons<T>(y: T, r: seq<T>, key: T -> real)
    requires SortedDesc(r, key)
    requires r != [] ==> key(y) >= key(r[0])
    ensures SortedDesc([y] + r, key)
  {
    var s := [y] + r;
    forall i, j | 0 <= i < j < |s| ensures key(s[i]) >= key(s[j]) {
      if i == 0 {
        assert s[j] == r[j - 1];
        if j > 1 {
          assert key(r[0]) >= key(r[j - 1]);
        }
      } else {
        assert s[i] == r[i - 1] && s[j] == r[j - 1];
      }
    }
  }

  /** A stable sort by descending key: Python's `sorted(..., key=..., reverse=True)`. */
  function SortDesc<T>(s: seq<T>, key: T -> real): (r: seq<T>)
    ensures multiset(r) == multiset(s)
    ensures SortedDesc(r, key)
  {
    if s == [] then []
    else
      assert s == [s[0]] + s[1..];
      InsertDesc(s[0], SortDesc(s[1..], key), key)
  }

  /** `sorted(regions, key=lambda x: x.get_area(nodes), reverse=True)`. */
  function SortByAreaDesc(s: seq<Region>, nodes: map<NodeId, Node>): (r: seq<Region>)
    ensures multiset(r) == multiset(s)
    ensures SortedByArea(r, nodes)
  {
    SortDesc(s, r => AreaKey(r, nodes))
  }

  /** Sorting keeps the regions, so every region drawn is still valid. */
  lemma SortedRegionsValid(s: seq<Region>, nodes: map<NodeId, Node>)
    requires AllValid(s, nodes)
    ensures AllValid(SortByAreaDesc(s, nodes), nodes)
  {
    var r := SortByAreaDesc(s, nodes);
    forall y | y in r ensures ValidRegion(y, nodes) {
      assert y in multiset(r);
    }
  }

  /** What one region contributes: a filled polygon in its class colour, if it has one and is allowed. */
  function RegionCommand(f: Frame, nodes: map<NodeId, Node>, allow: Option<seq<string>>, region: Region): seq<DrawCommand>
    requires Resolves(region.nodes, nodes)
  {
    if region.kind in ClassToColor && Allowed(allow, region.kind) then
      [FillPoly(Coords(f, nodes, region.nodes), ClassToColor[region.kind])]
    else
      []
  }

  function RegionCommands(f: Frame, nodes: map<NodeId, Node>, allow: Option<seq<string>>, regions: seq<Region>): seq<DrawCommand>
    requires AllValid(regions, nodes)
  {
    if regions == [] then []
    else
      assert regions[|regions| - 1] in regions;
      RegionCommands(f, nodes, allow, regions[..|regions| - 1])
        + RegionCommand(f, nodes, allow, regions[|regions| - 1])
  }

  function RegionsLayer(f: Frame, nodes: map<NodeId, Node>, allow: Option<seq<string>>, regions: seq<Region>): seq<DrawCommand>
    requires AllValid(regions, nodes)
  {
    SortedRegionsValid(regions, nodes);
    RegionCommands(f, nodes, allow, SortByAreaDesc(regions, nodes))
  }

  // ---------------------------------------------------------------------------
  // Roads: segments to the previous node, behind a guard on the current node

  /** The colour of a road: its class colour, or the "road" colour when its type has none. */
  function RoadColor(kind: string): int
  {
    if kind in ClassToColor then ClassToColor[kind] else ClassToColor["road"]
  }

  /** The condition tested at each node before a segment to the previous node is drawn. */
  predicate SegmentGuard(f: Frame, height: int, width: int, node: Node)
  {
    var p := Project(f, node);
    p.y < height && node.lon > f.refLon && p.x < width && node.lat < f.refLat
  }

  /** The segment from node i back to node i - 1. */
  function SegmentAt(f: Frame, color: int, path: seq<Node>, i: int): DrawCommand
    requires 1 <= i < |path|
  {
    Line(Project(f, path[i]), Project(f, path[i - 1]), color, 3)
  }

  function RoadSegments(f: Frame, height: int, width: int, color: int, path: seq<Node>): seq<DrawCommand>
  {
    if |path| <= 1 then []
    else
      RoadSegments(f, height, width, color, path[..|path| - 1])
        + (if SegmentGuard(f, height, width, path[|path| - 1]) then [SegmentAt(f, color, path, |path| - 1)] else [])
  }

  /** Extending a path by node i adds the segment back to node i - 1 when node i passes the guard. */
  lemma RoadSegmentsStep(f: Frame, height: int, width: int, color: int, path: seq<Node>, i: nat)
    requires i < |path|
    ensures RoadSegments(f, height, width, color, path[..i + 1])
      == RoadSegments(f, height, width, color, path[..i])
        + (if i > 0 && SegmentGuard(f, height, width, path[i]) then [Line(Project(f, path[i]), Project(f, path[i - 1]), color, 3)] else [])
  {
    assert path[..i + 1][..i] == path[..i];
  }

  predicate RoadsResolve(nodes: map<NodeId, Node>, allow: Option<seq<string>>, roads: seq<Road>)
  {
    forall r :: r in roads && Allowed(allow, r.kind) ==> Resolves(r.nodes, nodes)
  }

  function RoadCommand(f: Frame, height: int, width: int, nodes: map<NodeId, Node>, allow: Option<seq<string>>, road: Road): seq<DrawCommand>
    requires Allowed(allow, road.kind) ==> Resolves(road.nodes, nodes)
  {
    if Allowed(allow, road.kind) then
      RoadSegments(f, height, width, RoadColor(road.kind), Lookup(road.nodes, nodes))
    else
      []
  }

  function RoadCommands(f: Frame, height: int, width: int, nodes: map<NodeId, Node>, allow: Option<seq<string>>, roads: seq<Road>): seq<DrawCommand>
    requires RoadsResolve(nodes, allow, roads)
  {
    if roads == [] then []
    else
      RoadCommands(f, height, width, nodes, allow, roads[..|roads| - 1])
        + RoadCommand(f, height, width, nodes, allow, roads[|roads| - 1])
  }

  function RoadsLayer(f: Frame, height: int, width: int, nodes: map<NodeId, Node>, allow: Option<seq<string>>, roads: seq<Road>): seq<DrawCommand>
    requires Allowed(allow, "road") ==> RoadsResolve(nodes, allow, roads)
  {
    if Allowed(allow, "road") then RoadCommands(f, height, width, nodes, allow, roads) else []
  }

  // ---------------------------------------------------------------------------
  // Waterways and buildings

  predicate PathsResolve(nodes: map<NodeId, Node>, paths: seq<seq<NodeId>>)
  {
    forall p :: p in paths ==> Resolves(p, nodes)
  }

  /** The node-id paths of a collection of entities, in order. */
  function Paths<T>(entities: seq<T>, nodesOf: T -> seq<NodeId>): (r: seq<seq<NodeId>>)
    ensures |r| == |entities| && forall i :: 0 <= i < |r| ==> r[i] == nodesOf(entities[i])
  {
    seq(|entities|, i requires 0 <= i < |entities| => nodesOf(entities[i]))
  }

  function WaterwayPaths(waterways: seq<Road>): seq<seq<NodeId>>
  {
    Paths(waterways, (w: Road) => w.nodes)
  }

  function BuildingPaths(buildings: seq<Building>): seq<seq<NodeId>>
  {
    Paths(buildings, (b: Building) => b.nodes)
  }

  /** One open polyline per waterway, in the "water" colour, 5 pixels wide. */
  function WaterwayCommands(f: Frame, nodes: map<NodeId, Node>, paths: seq<seq<NodeId>>): seq<DrawCommand>
    requires PathsResolve(nodes, paths)
  {
    if paths == [] then []
    else
      WaterwayCommands(f, nodes, paths[..|paths| - 1])
        + [Polylines(Coords(f, nodes, paths[|paths| - 1]), false, ClassToColor["water"], 5)]
  }

  function WaterwaysLayer(f: Frame, nodes: map<NodeId, Node>, allow: Option<seq<string>>, waterways: seq<Road>): seq<DrawCommand>
    requires Allowed(allow, "water") ==> PathsResolve(nodes, WaterwayPaths(waterways))
  {
    if Allowed(allow, "water") then WaterwayCommands(f, nodes, WaterwayPaths(waterways)) else []
  }

  /** One filled polygon per building, in the "building" colour. */
  function BuildingCommands(f: Frame, nodes: map<NodeId, Node>, paths: seq<seq<NodeId>>): seq<DrawCommand>
    requires PathsResolve(nodes, paths)
  {
    if paths == [] then []
    else
      BuildingCommands(f, nodes, paths[..|paths| - 1])
        + [FillPoly(Coords(f, nodes, paths[|paths| - 1]), ClassToColor["building"])]
  }

  function BuildingsLayer(f: Frame, nodes: map<NodeId, Node>, allow: Option<seq<string>>, buildings: seq<Building>): seq<DrawCommand>
    requires Allowed(allow, "building") ==> PathsResolve(nodes, BuildingPaths(buildings))
  {
    if Allowed(allow, "building") then BuildingCommands(f, nodes, BuildingPaths(buildings)) else []
  }

  // ---------------------------------------------------------------------------
  // The whole scene and the crop

  /** Every node lookup the drawing routines perform succeeds (the source raises KeyError otherwise). */
  predicate Drawable(data: ResponseData, allow: Option<seq<string>>)
  {
    && AllValid(data.regions, data.nodes)
    && (Allowed(allow, "water") ==> PathsResolve(data.nodes, WaterwayPaths(data.waterways)))
    && (Allowed(allow, "road") ==> RoadsResolve(data.nodes, allow, data.roads))
    && (Allowed(allow, "building") ==> PathsResolve(data.nodes, BuildingPaths(data.buildings)))
  }

  /** Regions, then waterways, then roads, then buildings. */
  function SceneCommands(f: Frame, height: int, width: int, data: ResponseData, allow: Option<seq<string>>): seq<DrawCommand>
    requires Drawable(data, allow)
  {
    RegionsLayer(f, data.nodes, allow, data.regions)
      + WaterwaysLayer(f, data.nodes, allow, data.waterways)
      + RoadsLayer(f, height, width, data.nodes, allow, data.roads)
      + BuildingsLayer(f, data.nodes, allow, data.buildings)
  }

  function Min(a: int, b: int): int { if a < b then a else b }
  function Max(a: int, b: int): int { if a < b then b else a }

  /** A Python slice index resolved against a length: negative counts from the end, then clamped. */
  function ClampIndex(i: int, len: nat): (r: int)
    ensures 0 <= r <= len
    ensures 0 <= i ==> r == Min(i, len)
  {
    if i < 0 then Max(0, i + len) else Min(i, len)
  }

  /** The half-open window `[start:stop]` selects from a dimension of length `len`. */
  function SliceBounds(start: int, stop: int, len: nat): (r: (int, int))
    ensures 0 <= r.0 <= r.1 <= len
    ensures 0 <= start && 0 <= stop ==> r.1 - r.0 == Max(0, Min(stop, len) - Min(start, len))
    ensures 0 <= start <= stop <= len ==> r == (start, stop)
  {
    var lo := ClampIndex(start, len);
    var hi := ClampIndex(stop, len);
    (lo, Max(lo, hi))
  }

  /** The crop offsets: unsigned, truncated, 10 pixels per meter. */
  function CropOffset(meters: real): int { Trunc(10.0 * meters) }

  /** `_crop_canvas`: rows `[rel_top:rel_bottom]`, columns `[rel_left:rel_right]`, all channels. */
  function CropCanvas(canvas: Canvas, f: Frame, top: real, left: real, bottom: real, right: real): (r: CroppedCanvas)
    reads canvas
    ensures 0 <= r.rowStop - r.rowStart <= canvas.height
    ensures 0 <= r.colStop - r.colStart <= canvas.width
    ensures r.channels == canvas.channels && r.strokes == canvas.commands
  {
    var rows := SliceBounds(CropOffset(SouthMeters(f, top)), CropOffset(SouthMeters(f, bottom)), canvas.height);
    var cols := SliceBounds(CropOffset(EastMeters(f, left)), CropOffset(EastMeters(f, right)), canvas.width);
    CroppedCanvas(rows.0, rows.1, cols.0, cols.1, canvas.channels, canvas.commands)
  }

  lemma AppendAssoc(a: seq<DrawCommand>, b: seq<DrawCommand>, c: seq<DrawCommand>)
    ensures a + (b + c) == (a + b) + c
  {
  }

  // ---------------------------------------------------------------------------
  // The visualizer object

  class OpenStreetMapVisualizer {
    const nodes: map<NodeId, Node>
    const roads: seq<Road>
    const regions: seq<Region>
    const waterways: seq<Road>
    const buildings: seq<Building>
    const classesToBeDrawn: Option<seq<string>>
    const dist: Distance

    constructor (responseData: ResponseData, classesToBeDrawn: Option<seq<string>>, dist: Distance)
      ensures Data() == responseData && this.classesToBeDrawn == classesToBeDrawn
      ensures this.dist == dist
    {
      nodes := responseData.nodes;
      roads := responseData.roads;
      regions := responseData.regions;
      waterways := responseData.waterways;
      buildings := responseData.buildings;
      this.classesToBeDrawn := classesToBeDrawn;
      this.dist := dist;
    }

    function Data(): ResponseData
    {
      ResponseData(nodes, roads, regions, waterways, buildings)
    }

    /** `draw_on_canvas`: the four layers in order, then the crop to the original box. */
    method DrawOnCanvas(canvas: Canvas, topLeftLat: real, topLeftLon: real,
                        originalTop: real, originalLeft: real, originalBottom: real, originalRight: real)
      returns (cropped: CroppedCanvas)
      requires Drawable(Data(), classesToBeDrawn)
      modifies canvas
      ensures canvas.commands == old(canvas.commands)
        + SceneCommands(Frame(dist, topLeftLat, topLeftLon), canvas.height, canvas.width, Data(), classesToBeDrawn)
      ensures cropped == CropCanvas(canvas, Frame(dist, topLeftLat, topLeftLon), originalTop, originalLeft, originalBottom, originalRight)
    {
      var f := Frame(dist, topLeftLat, topLeftLon);
      ghost var c0 := canvas.commands;
      DrawRegions(canvas, topLeftLat, topLeftLon);
      ghost var r := RegionsLayer(f, nodes, classesToBeDrawn, regions);
      DrawWaterways(canvas, topLeftLat, topLeftLon);
      ghost var w := WaterwaysLayer(f, nodes, classesToBeDrawn, waterways);
      DrawRoads(canvas, topLeftLat, topLeftLon);
      ghost var ro := RoadsLayer(f, canvas.height, canvas.width, nodes, classesToBeDrawn, roads);
      DrawBuildings(canvas, topLeftLat, topLeftLon);
      ghost var b := BuildingsLayer(f, nodes, classesToBeDrawn, buildings);
      assert canvas.commands == (((c0 + r) + w) + ro) + b;
      AppendAssoc(c0, r, w);
      AppendAssoc(c0, r + w, ro);
      AppendAssoc(c0, r + w + ro, b);
      assert SceneCommands(f, canvas.height, canvas.width, Data(), classesToBeDrawn) == r + w + ro + b;
      cropped := CropCanvas(canvas, Frame(dist, topLeftLat, topLeftLon), originalTop, originalLeft, originalBottom, originalRight);
    }

    /** The projection block every drawing loop repeats for a node. */
    method ProjectNode(f: Frame, node: Node) returns (p: Pixel)
      ensures p == Project(f, node)
    {
      var lat := node.lat;
      var lon := node.lon;
      var dx := 10.0 * f.dist(f.refLat, f.refLon, f.refLat, lon);
      if lon < f.refLon {
        dx := -dx;
      }
      var dy := 10.0 * f.dist(f.refLat, f.refLon, lat, f.refLon);
      if lat > f.refLat {
        dy := -dy;
      }
      p := Pixel(Trunc(dx), Trunc(dy));
    }

    /** The node loop shared by regions, waterways and buildings: project every node of the path. */
    method CollectCoords(f: Frame, ids: seq<NodeId>) returns (coords: seq<Pixel>)
      requires Resolves(ids, nodes)
      ensures coords == Coords(f, nodes, ids)
    {
      coords := [];
      for i := 0 to |ids|
        invariant coords == Pixels(f, Lookup(ids[..i], nodes))
      {
        var p := ProjectNode(f, nodes[ids[i]]);
        coords := coords + [p];
        assert Pixels(f, Lookup(ids[..i + 1], nodes)) == Pixels(f, Lookup(ids[..i], nodes)) + [Project(f, nodes[ids[i]])];
      }
      assert ids[..|ids|] == ids;
    }

    method DrawRegions(canvas: Canvas, topLeftLat: real, topLeftLon: real)
      requires AllValid(regions, nodes)
      modifies canvas
      ensures canvas.commands == old(canvas.commands)
        + RegionsLayer(Frame(dist, topLeftLat, topLeftLon), nodes, classesToBeDrawn, regions)
    {
      var sorted := SortByAreaDesc(regions, nodes);
      SortedRegionsValid(regions, nodes);
      DrawSortedRegions(canvas, Frame(dist, topLeftLat, topLeftLon), sorted);
    }

    /** The loop of `_draw_regions` over the regions, already sorted. */
    method DrawSortedRegions(canvas: Canvas, f: Frame, sorted: seq<Region>)
      requires AllValid(sorted, nodes)
      modifies canvas
      ensures canvas.commands == old(canvas.commands) + RegionCommands(f, nodes, classesToBeDrawn, sorted)
    {
      for r := 0 to |sorted|
        invariant canvas.commands == old(canvas.commands) + RegionCommands(f, nodes, classesToBeDrawn, sorted[..r])
      {
        var region := sorted[r];
        assert region in sorted;
        ghost var before := canvas.commands;
        ghost var step := RegionCommand(f, nodes, classesToBeDrawn, region);
        var coords := CollectCoords(f, region.nodes);
        if region.kind in ClassToColor {
          var color := ClassToColor[region.kind];
          if !Restricts(classesToBeDrawn) || region.kind in classesToBeDrawn.value {
            canvas.commands := canvas.commands + [FillPoly(coords, color)];
          }
        }
        assert canvas.commands == before + step;
        assert sorted[..r + 1][..r] == sorted[..r];
        assert RegionCommands(f, nodes, classesToBeDrawn, sorted[..r + 1])
            == RegionCommands(f, nodes, classesToBeDrawn, sorted[..r]) + step;
        AppendAssoc(old(canvas.commands), RegionCommands(f, nodes, classesToBeDrawn, sorted[..r]), step);
      }
      assert sorted[..|sorted|] == sorted;
    }

    method DrawRoads(canvas: Canvas, topLeftLat: real, topLeftLon: real)
      requires Allowed(classesToBeDrawn, "road") ==> RoadsResolve(nodes, classesToBeDrawn, roads)
      modifies canvas
      ensures canvas.commands == old(canvas.commands)
        + RoadsLayer(Frame(dist, topLeftLat, topLeftLon), canvas.height, canvas.width, nodes, classesToBeDrawn, roads)
    {
      if Restricts(classesToBeDrawn) && "road" !in classesToBeDrawn.value {
        return;
      }
      var f := Frame(dist, topLeftLat, topLeftLon);
      var roadI := 0;
      for k := 0 to |roads|
        invariant canvas.commands == old(canvas.commands)
          + RoadCommands(f, canvas.height, canvas.width, nodes, classesToBeDrawn, roads[..k])
      {
        var road := roads[k];
        assert road in roads;
        ghost var before := canvas.commands;
        ghost var step := RoadCommand(f, canvas.height, canvas.width, nodes, classesToBeDrawn, road);
        assert roads[..k + 1][..k] == roads[..k];
        assert RoadCommands(f, canvas.height, canvas.width, nodes, classesToBeDrawn, roads[..k + 1])
            == RoadCommands(f, canvas.height, canvas.width, nodes, classesToBeDrawn, roads[..k]) + step;
        AppendAssoc(old(canvas.commands), RoadCommands(f, canvas.height, canvas.width, nodes, classesToBeDrawn, roads[..k]), step);
        if Restricts(classesToBeDrawn) && road.kind !in classesToBeDrawn.value {
          continue;
        }
        DrawRoadSegments(canvas, f, road);
        roadI := roadI + 1;
      }
      assert roads[..|roads|] == roads;
    }

    /** The node loop of `_draw_roads`: a segment back to `prev_coord` behind the guard on each node. */
    method DrawRoadSegments(canvas: Canvas, f: Frame, road: Road)
      requires Resolves(road.nodes, nodes)
      modifies canvas
      ensures canvas.commands == old(canvas.commands)
        + RoadSegments(f, canvas.height, canvas.width, RoadColor(road.kind), Lookup(road.nodes, nodes))
    {
      ghost var path := Lookup(road.nodes, nodes);
      ghost var color' := RoadColor(road.kind);
      var prevCoord: Option<Pixel> := None;
      for i := 0 to |road.nodes|
        invariant prevCoord == if i == 0 then None else Some(Project(f, path[i - 1]))
        invariant canvas.commands == old(canvas.commands)
          + RoadSegments(f, canvas.height, canvas.width, color', path[..i])
      {
        ghost var before := canvas.commands;
        var node := nodes[road.nodes[i]];
        assert node == path[i];
        var p := ProjectNode(f, node);
        var color := ClassToColor["road"];
        if road.kind in ClassToColor {
          color := ClassToColor[road.kind];
        }
        if p.y < canvas.height && node.lon > f.refLon && p.x < canvas.width && node.lat < f.refLat {
          if prevCoord.Some? {
            canvas.commands := canvas.commands + [Line(p, prevCoord.value, color, 3)];
          }
        }
        prevCoord := Some(p);
        assert color == color';
        ghost var step := if i > 0 && SegmentGuard(f, canvas.height, canvas.width, path[i])
          then [Line(Project(f, path[i]), Project(f, path[i - 1]), color, 3)] else [];
        assert canvas.commands == before + step;
        RoadSegmentsStep(f, canvas.height, canvas.width, color, path, i);
        AppendAssoc(old(canvas.commands), RoadSegments(f, canvas.height, canvas.width, color, path[..i]), step);
      }
      assert path[..|road.nodes|] == path;
    }

    method DrawWaterways(canvas: Canvas, topLeftLat: real, topLeftLon: real)
      requires Allowed(classesToBeDrawn, "water") ==> PathsResolve(nodes, WaterwayPaths(waterways))
      modifies canvas
      ensures canvas.commands == old(canvas.commands)
        + WaterwaysLayer(Frame(dist, topLeftLat, topLeftLon), nodes, classesToBeDrawn, waterways)
    {
      if Restricts(classesToBeDrawn) && "water" !in classesToBeDrawn.value {
        return;
      }
      var f := Frame(dist, topLeftLat, topLeftLon);
      ghost var paths := WaterwayPaths(waterways);
      for k := 0 to |waterways|
        invariant canvas.commands == old(canvas.commands) + WaterwayCommands(f, nodes, paths[..k])
      {
        assert paths[k] in paths;
        var coords := CollectCoords(f, waterways[k].nodes);
        var color := ClassToColor["water"];
        canvas.commands := canvas.commands + [Polylines(coords, false, color, 5)];
        assert paths[..k + 1][..k] == paths[..k];
      }
      assert paths[..|waterways|] == paths;
    }

    method DrawBuildings(canvas: Canvas, topLeftLat: real, topLeftLon: real)
      requires Allowed(classesToBeDrawn, "building") ==> PathsResolve(nodes, BuildingPaths(buildings))
      modifies canvas
      ensures canvas.commands == old(canvas.commands)
        + BuildingsLayer(Frame(dist, topLeftLat, topLeftLon), nodes, classesToBeDrawn, buildings)
    {
      if Restricts(classesToBeDrawn) && "building" !in classesToBeDrawn.value {
        return;
      }
      var f := Frame(dist, topLeftLat, topLeftLon);
      ghost var paths := BuildingPaths(buildings);
      for k := 0 to |buildings|
        invariant canvas.commands == old(canvas.commands) + BuildingCommands(f, nodes, paths[..k])
      {
        assert paths[k] in paths;
        var coords := CollectCoords(f, buildings[k].nodes);
        canvas.commands := canvas.commands + [FillPoly(coords, ClassToColor["building"])];
        assert paths[..k + 1][..k] == paths[..k];
      }
      assert paths[..|buildings|] == paths;
    }
  }
}
