/** What the rasterizer's draw commands are, proved about the specification functions of module Visualizer. */
module VisualizerProperties {
  import opened Wrappers
  import opened DataModels
  import opened Visualizer

  // ---------------------------------------------------------------------------
  // Projection

  /** `int()` truncates toward zero: it commutes with negation, unlike floor. */
  lemma TruncTowardZero(v: real)
    ensures Trunc(-v) == -Trunc(v)
    ensures Trunc(-2.5) == -2 && (-2.5).Floor == -3
  {
  }

  /** The sign flip applies to the truncated offset: x is the east offset, negated west of the reference. */
  lemma ProjectionAxes(f: Frame, node: Node)
    ensures Project(f, node).x == if node.lon < f.refLon then -Trunc(10.0 * EastMeters(f, node.lon)) else Trunc(10.0 * EastMeters(f, node.lon))
    ensures Project(f, node).y == if node.lat > f.refLat then -Trunc(10.0 * SouthMeters(f, node.lat)) else Trunc(10.0 * SouthMeters(f, node.lat))
  {
    TruncTowardZero(10.0 * EastMeters(f, node.lon));
    TruncTowardZero(10.0 * SouthMeters(f, node.lat));
  }

  /** With non-negative distances, x grows eastward and y grows southward, within one pixel of 10 px/m. */
  lemma ProjectionOrientation(f: Frame, node: Node)
    requires EastMeters(f, node.lon) >= 0.0 && SouthMeters(f, node.lat) >= 0.0
    ensures var p := Project(f, node);
      && (node.lon >= f.refLon ==> 0 <= p.x) && (node.lon < f.refLon ==> p.x <= 0)
      && (node.lat <= f.refLat ==> 0 <= p.y) && (node.lat > f.refLat ==> p.y <= 0)
      && (node.lon >= f.refLon ==> p.x as real <= 10.0 * EastMeters(f, node.lon) < p.x as real + 1.0)
      && (node.lon < f.refLon ==> -p.x as real <= 10.0 * EastMeters(f, node.lon) < -p.x as real + 1.0)
      && (node.lat <= f.refLat ==> p.y as real <= 10.0 * SouthMeters(f, node.lat) < p.y as real + 1.0)
      && (node.lat > f.refLat ==> -p.y as real <= 10.0 * SouthMeters(f, node.lat) < -p.y as real + 1.0)
  {
    ProjectionAxes(f, node);
  }

  // ---------------------------------------------------------------------------
  // Regions

  /** A region command is drawn exactly for the regions with a class colour that the allow-list admits. */
  lemma {:induction false} RegionCommandsMembership(f: Frame, nodes: map<NodeId, Node>, allow: Option<seq<string>>, regions: seq<Region>)
    requires AllValid(regions, nodes)
    ensures forall c :: c in RegionCommands(f, nodes, allow, regions) <==>
      exists r :: r in regions && r.kind in ClassToColor && Allowed(allow, r.kind)
        && c == FillPoly(Coords(f, nodes, r.nodes), ClassToColor[r.kind])
  {
    if regions != [] {
      var init, last := regions[..|regions| - 1], regions[|regions| - 1];
      assert regions == init + [last];
      RegionCommandsMembership(f, nodes, allow, init);
    }
  }

  /** The regions are drawn largest first: a permutation of all of them, in non-increasing area. */
  lemma RegionsDrawnLargestFirst(f: Frame, nodes: map<NodeId, Node>, allow: Option<seq<string>>, regions: seq<Region>)
    requires AllValid(regions, nodes)
    ensures var order := SortByAreaDesc(regions, nodes);
      && multiset(order) == multiset(regions)
      && (forall i, j :: 0 <= i < j < |order| ==>
            && ValidRegion(order[i], nodes) && ValidRegion(order[j], nodes)
            && ShoelaceArea(order[i].nodes, nodes) >= ShoelaceArea(order[j].nodes, nodes))
      && RegionsLayer(f, nodes, allow, regions) == RegionCommands(f, nodes, allow, order)
  {
    var order := SortByAreaDesc(regions, nodes);
    SortedRegionsValid(regions, nodes);
    assert forall i :: 0 <= i < |order| ==> order[i] in order;
  }

  /** "retail", "industrial" and "commercial" are valid class names without a colour: never drawn. */
  lemma IgnoredRegionClassesNeverDrawn(f: Frame, nodes: map<NodeId, Node>, allow: Option<seq<string>>, region: Region)
    requires Resolves(region.nodes, nodes)
    requires region.kind == "retail" || region.kind == "industrial" || region.kind == "commercial"
    ensures region.kind in ClassNames
    ensures RegionCommand(f, nodes, allow, region) == []
  {
    IgnoredClassesAreNames(region.kind);
    IgnoredClassesHaveNoColour(region.kind);
  }

  /** The three ignored classes are valid class names... */
  lemma IgnoredClassesAreNames(kind: string)
    requires kind == "retail" || kind == "industrial" || kind == "commercial"
    ensures kind in ClassNames
  {
    if kind == "retail" {
      assert ClassNames[10] == kind;
    } else if kind == "industrial" {
      assert ClassNames[11] == kind;
    } else {
      assert ClassNames[12] == kind;
    }
  }

  /** ...that are absent from the colour table. */
  lemma IgnoredClassesHaveNoColour(kind: string)
    requires kind == "retail" || kind == "industrial" || kind == "commercial"
    ensures kind !in ClassToColor
  {
  }

  // ---------------------------------------------------------------------------
  // Roads

  /** Segments of a shorter path stay with the path extended by one node. */
  lemma SegmentAtPrefix(f: Frame, color: int, path: seq<Node>, i: int, k: int)
    requires 1 <= i < k <= |path|
    ensures SegmentAt(f, color, path[..k], i) == SegmentAt(f, color, path, i)
  {
  }

  /** The first node never emits: a road of n nodes yields at most n - 1 segments. */
  lemma {:induction false} RoadSegmentsCount(f: Frame, height: int, width: int, color: int, path: seq<Node>)
    ensures |path| <= 1 ==> RoadSegments(f, height, width, color, path) == []
    ensures |path| >= 1 ==> |RoadSegments(f, height, width, color, path)| <= |path| - 1
    decreases |path|
  {
    if |path| > 1 {
      RoadSegmentsCount(f, height, width, color, path[..|path| - 1]);
    }
  }

  /** A segment is emitted at node i >= 1 exactly when node i passes the guard; it joins node i to node i - 1. */
  lemma {:induction false} RoadSegmentsExact(f: Frame, height: int, width: int, color: int, path: seq<Node>)
    ensures forall c :: c in RoadSegments(f, height, width, color, path) <==>
      exists i :: 1 <= i < |path| && SegmentGuard(f, height, width, path[i]) && c == SegmentAt(f, color, path, i)
    decreases |path|
  {
    if |path| > 1 {
      var init := path[..|path| - 1];
      RoadSegmentsExact(f, height, width, color, init);
      forall i | 1 <= i < |init| ensures SegmentAt(f, color, init, i) == SegmentAt(f, color, path, i) {
        SegmentAtPrefix(f, color, path, i, |path| - 1);
      }
      assert forall i :: 1 <= i < |init| ==> init[i] == path[i];
    }
  }

  /** Only the current node is checked: a guarded second node draws a line back to any first node. */
  lemma PreviousEndpointUnchecked(f: Frame, height: int, width: int, color: int, first: Node, second: Node)
    requires SegmentGuard(f, height, width, second)
    ensures RoadSegments(f, height, width, color, [first, second]) == [Line(Project(f, second), Project(f, first), color, 3)]
  {
    assert [first, second][..1] == [first];
  }

  /** Every road command is a 3-pixel line in the colour of an allowed road's type. */
  lemma {:induction false} RoadCommandsShape(f: Frame, height: int, width: int, nodes: map<NodeId, Node>, allow: Option<seq<string>>, roads: seq<Road>)
    requires RoadsResolve(nodes, allow, roads)
    ensures forall c :: c in RoadCommands(f, height, width, nodes, allow, roads) ==>
      c.Line? && c.thickness == 3 && exists r :: r in roads && Allowed(allow, r.kind) && c.color == RoadColor(r.kind)
  {
    if roads != [] {
      var init, last := roads[..|roads| - 1], roads[|roads| - 1];
      assert roads == init + [last];
      RoadCommandsShape(f, height, width, nodes, allow, init);
      if Allowed(allow, last.kind) {
        RoadSegmentsExact(f, height, width, RoadColor(last.kind), Lookup(last.nodes, nodes));
      }
    }
  }

  /** An unmapped road type is drawn in the "road" colour, 255. */
  lemma UnmappedRoadTypeUsesRoadColour(kind: string)
    requires kind !in ClassToColor
    ensures RoadColor(kind) == 255
  {
  }

  /** With the allow-list ["road"], no "primary" (or other typed) road is drawn: only colour 255 appears. */
  lemma RoadOnlyAllowList(f: Frame, height: int, width: int, nodes: map<NodeId, Node>, roads: seq<Road>)
    requires RoadsResolve(nodes, Some(["road"]), roads)
    ensures forall c :: c in RoadsLayer(f, height, width, nodes, Some(["road"]), roads) ==> c.color == 255
  {
    RoadCommandsShape(f, height, width, nodes, Some(["road"]), roads);
  }

  /** With the allow-list ["road"], a road whose own type is not "road" (a "primary" road, say) draws nothing. */
  lemma RoadAllowListNeedsOwnType(f: Frame, height: int, width: int, nodes: map<NodeId, Node>, road: Road)
    requires road.kind != "road"
    ensures RoadCommand(f, height, width, nodes, Some(["road"]), road) == []
  {
  }

  /** A non-empty allow-list without "road" draws no road at all. */
  lemma RoadsNeedRoadClass(f: Frame, height: int, width: int, nodes: map<NodeId, Node>, allow: Option<seq<string>>, roads: seq<Road>)
    requires Restricts(allow) && "road" !in allow.value
    ensures RoadsLayer(f, height, width, nodes, allow, roads) == []
  {
  }

  // ---------------------------------------------------------------------------
  // Waterways and buildings

  lemma {:induction false} WaterwayCommandsShape(f: Frame, nodes: map<NodeId, Node>, paths: seq<seq<NodeId>>)
    requires PathsResolve(nodes, paths)
    ensures |WaterwayCommands(f, nodes, paths)| == |paths|
    ensures forall i :: 0 <= i < |paths| ==>
      WaterwayCommands(f, nodes, paths)[i] == Polylines(Coords(f, nodes, paths[i]), false, 2, 5)
    decreases |paths|
  {
    if paths != [] {
      var init := paths[..|paths| - 1];
      WaterwayCommandsShape(f, nodes, init);
    }
  }

  /** Waterways are open polylines, colour 2, 5 pixels wide, one per waterway, iff "water" is allowed. */
  lemma WaterwaysLayerShape(f: Frame, nodes: map<NodeId, Node>, allow: Option<seq<string>>, waterways: seq<Road>)
    requires Allowed(allow, "water") ==> PathsResolve(nodes, WaterwayPaths(waterways))
    ensures !Allowed(allow, "water") ==> WaterwaysLayer(f, nodes, allow, waterways) == []
    ensures Allowed(allow, "water") ==>
      && |WaterwaysLayer(f, nodes, allow, waterways)| == |waterways|
      && forall i :: 0 <= i < |waterways| ==>
        WaterwaysLayer(f, nodes, allow, waterways)[i] == Polylines(Coords(f, nodes, waterways[i].nodes), false, 2, 5)
  {
    if Allowed(allow, "water") {
      WaterwayCommandsShape(f, nodes, WaterwayPaths(waterways));
    }
  }

  lemma {:induction false} BuildingCommandsShape(f: Frame, nodes: map<NodeId, Node>, paths: seq<seq<NodeId>>)
    requires PathsResolve(nodes, paths)
    ensures |BuildingCommands(f, nodes, paths)| == |paths|
    ensures forall i :: 0 <= i < |paths| ==>
      BuildingCommands(f, nodes, paths)[i] == FillPoly(Coords(f, nodes, paths[i]), 20)
    decreases |paths|
  {
    if paths != [] {
      var init := paths[..|paths| - 1];
      BuildingCommandsShape(f, nodes, init);
    }
  }

  /** Buildings are filled polygons in colour 20, one per building, iff "building" is allowed. */
  lemma BuildingsLayerShape(f: Frame, nodes: map<NodeId, Node>, allow: Option<seq<string>>, buildings: seq<Building>)
    requires Allowed(allow, "building") ==> PathsResolve(nodes, BuildingPaths(buildings))
    ensures !Allowed(allow, "building") ==> BuildingsLayer(f, nodes, allow, buildings) == []
    ensures Allowed(allow, "building") ==>
      && |BuildingsLayer(f, nodes, allow, buildings)| == |buildings|
      && forall i :: 0 <= i < |buildings| ==>
        BuildingsLayer(f, nodes, allow, buildings)[i] == FillPoly(Coords(f, nodes, buildings[i].nodes), 20)
  {
    if Allowed(allow, "building") {
      BuildingCommandsShape(f, nodes, BuildingPaths(buildings));
    }
  }

  // ---------------------------------------------------------------------------
  // The scene

  /** With the allow-list ["water"], only the water colour is used: no road, building or other region. */
  lemma WaterOnlyAllowList(f: Frame, height: int, width: int, data: ResponseData)
    requires Drawable(data, Some(["water"]))
    ensures forall c :: c in SceneCommands(f, height, width, data, Some(["water"])) ==> c.color == 2
  {
    var allow := Some(["water"]);
    var order := SortByAreaDesc(data.regions, data.nodes);
    SortedRegionsValid(data.regions, data.nodes);
    var r := RegionsLayer(f, data.nodes, allow, data.regions);
    assert r == RegionCommands(f, data.nodes, allow, order);
    RegionCommandsMembership(f, data.nodes, allow, order);
    assert ClassToColor["water"] == 2;
    assert forall c :: c in r ==> c.color == 2;
    WaterwaysLayerShape(f, data.nodes, allow, data.waterways);
    var w := WaterwaysLayer(f, data.nodes, allow, data.waterways);
    assert forall c :: c in w ==> c.color == 2 by {
      forall c | c in w ensures c.color == 2 {
        var i :| 0 <= i < |w| && w[i] == c;
      }
    }
    assert !Allowed(allow, "road") && !Allowed(allow, "building");
    assert SceneCommands(f, height, width, data, allow) == r + w + [] + [];
  }

  // ---------------------------------------------------------------------------
  // The crop

  /** When the slice bounds lie inside the canvas, the crop is exactly those rows and columns. */
  lemma CropWindowExact(canvas: Canvas, f: Frame, top: real, left: real, bottom: real, right: real)
    ensures var r := CropCanvas(canvas, f, top, left, bottom, right);
      var relTop, relBottom := Trunc(10.0 * SouthMeters(f, top)), Trunc(10.0 * SouthMeters(f, bottom));
      var relLeft, relRight := Trunc(10.0 * EastMeters(f, left)), Trunc(10.0 * EastMeters(f, right));
      && (0 <= relTop <= relBottom <= canvas.height ==> r.rowStart == relTop && r.rowStop == relBottom)
      && (0 <= relLeft <= relRight <= canvas.width ==> r.colStart == relLeft && r.colStop == relRight)
      && (0 <= relTop && 0 <= relBottom ==>
            r.rowStop - r.rowStart == Max(0, Min(relBottom, canvas.height) - Min(relTop, canvas.height)))
      && (0 <= relLeft && 0 <= relRight ==>
            r.colStop - r.colStart == Max(0, Min(relRight, canvas.width) - Min(relLeft, canvas.width)))
  {
    var rows := SliceBounds(CropOffset(SouthMeters(f, top)), CropOffset(SouthMeters(f, bottom)), canvas.height);
    var cols := SliceBounds(CropOffset(EastMeters(f, left)), CropOffset(EastMeters(f, right)), canvas.width);
    assert CropCanvas(canvas, f, top, left, bottom, right) == CroppedCanvas(rows.0, rows.1, cols.0, cols.1, canvas.channels, canvas.commands);
  }

  /** The crop offsets are the unsigned projection: they equal the drawn pixel on the canvas side of the reference. */
  lemma CropMatchesProjection(f: Frame, node: Node)
    ensures var p := Project(f, node);
      && p.x == (if node.lon < f.refLon then -CropOffset(EastMeters(f, node.lon)) else CropOffset(EastMeters(f, node.lon)))
      && p.y == (if node.lat > f.refLat then -CropOffset(SouthMeters(f, node.lat)) else CropOffset(SouthMeters(f, node.lat)))
  {
    ProjectionAxes(f, node);
  }
}
