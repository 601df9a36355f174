# OpenStreetMap tile rasterizer — a Dafny model

The repository fetches OpenStreetMap data for a bounding box and turns it into a
class-label image. It parses the XML response into nodes, roads, regions,
waterways and buildings. It then draws them onto a canvas that covers an inflated
copy of the box, at 10 pixels per meter, and crops the canvas back to the box
that was asked for. The crop is repeated, optionally resized, once per requested
"temporal sample".

This project models the deterministic core of that pipeline and proves
properties of it:

- `DataModels` (`data_models1.py`): the parsed records, and `Region.get_area`,
  the shoelace area loop. The loop is a method proved equal to the closed-ring
  function `ShoelaceArea`. Lemmas about that function show it is non-negative
  and is not changed by rotation, reversal, explicit closing or translation.
- `Visualizer` (`open_street_map_visualizer.py`): the class tables, the pixel
  projection, and the four drawing routines with the crop. The canvas is a
  class whose `commands` field collects the draw commands issued on it:
  `cv2.fillPoly`, `cv2.line` and `cv2.polylines` with their points, colour and
  thickness. Each drawing method is proved to append exactly what a
  specification function describes. `VisualizerProperties` proves what those
  functions mean: which entity is drawn, in which colour, in which order, and
  what window the crop keeps.
- `OsmOverAws` (`OSM_over_aws.py`): allow-list validation with its exact error
  text, `meter_offset_gps`, the area-of-interest inflation, the tile box of
  `fetch_image`, and the image-list loop of `fetch_image_from_bounding_box`.
  `OsmOverAwsProperties` proves properties of these.
- `Wrappers`: `Option` and `Result`.

Foreign calls are parameters:

- `distance_between_two_gps_points` is a function value carried by the
  projection `Frame`.
- `math.cos` is a `Cosine` parameter.
- `cv2.resize` is a `resizeFn` parameter.
- The parsed response, the canvas and its reference corner (the results of the
  HTTP fetch, the XML parser and `create_image_canvas`) are inputs of
  `FetchImageFromBoundingBox`.

Floats are modelled as `real`. Python's `int()` is modelled as truncation toward
zero (`Trunc`). Slicing follows Python's clamping rules (`ClampIndex`,
`SliceBounds`). Each Python dictionary of roads, regions, waterways or buildings
is a sequence of its values in iteration order. The node dictionary is a `map`.

Two behaviours of the code shape the model:

- `_inflate_area_of_interest` multiplies the full extent by 1.5 (`dlat *= 1.5`)
  and adds that on each side of the midpoint, so each extent triples
  (`InflateAreaOfInterest`).
- A missing node id raises `KeyError`, because the drawing code and `get_area`
  index the node dictionary directly. The model makes resolvable ids a
  precondition (`Resolves`, `Drawable`). An empty region makes
  `self.nodes[-1]` raise `IndexError`, so a non-empty region is a precondition
  of `GetArea` and of region drawing.

## Model

| member | source | states |
|---|---|---|
| DataModels.Region.GetArea | data_models1.py:25-43 | the accumulator loop with its rolling predecessor returns exactly the closed-ring shoelace area `ShoelaceArea`, which is ≥ 0; an empty region and a missing node id are excluded, since Python raises for both |
| DataModels.ShoelaceArea | data_models1.py:43 | the area is never negative, because of the `abs` at the return |
| DataModels.AreaIsClosedRingSum | data_models1.py:28-41 | the area is \|Σ_i (lon_i·lat_{i−1} − lon_{i−1}·lat_i)\| / 2 with i−1 taken modulo n, so term 0 pairs the first node with the last |
| DataModels.AreaRotationInvariant | data_models1.py:28-41 | rotating the node list by any k ≤ n leaves the area unchanged |
| DataModels.AreaReversalInvariant | data_models1.py:38-43 | reversing the node list leaves the area unchanged |
| DataModels.AreaOfClosedRing | data_models1.py:28-41 | appending a copy of the first id gives the same area as the open ring |
| DataModels.AreaOfOneOrTwoNodes | data_models1.py:28-43 | a region of one or two nodes has area 0 |
| DataModels.AreaTranslationInvariant | data_models1.py:33-41 | shifting every lon by a and every lat by b leaves the area unchanged |
| Visualizer.Trunc | open_street_map_visualizer.py:91-92 | `int()` truncates toward zero: r ≤ v < r+1 for v ≥ 0, r−1 < v ≤ r for v < 0 |
| Visualizer.PixelsAppend | open_street_map_visualizer.py:77-96 | building the coords list node by node, as the loops do, is compositional: the pixels of a + b are the pixels of a followed by those of b |
| Visualizer.SortDesc | open_street_map_visualizer.py:71 | the result is a permutation of the input, in non-increasing key order |
| Visualizer.SortByAreaDesc | open_street_map_visualizer.py:70-71 | the regions are permuted into non-increasing order of `get_area` |
| Visualizer.ClampIndex | open_street_map_visualizer.py:231 | a slice index resolves into [0, len], and a non-negative index becomes min(i, len) |
| Visualizer.SliceBounds | open_street_map_visualizer.py:231 | a slice window satisfies 0 ≤ lo ≤ hi ≤ len; for non-negative bounds its length is max(0, min(stop, len) − min(start, len)); it is (start, stop) exactly when 0 ≤ start ≤ stop ≤ len |
| Visualizer.CropCanvas | open_street_map_visualizer.py:218-233 | the crop is no taller and no wider than the canvas and keeps every channel and every stroke |
| Visualizer.OpenStreetMapVisualizer.constructor | open_street_map_visualizer.py:43-51 | the visualizer keeps the five entity collections of the response and the allow-list |
| Visualizer.OpenStreetMapVisualizer.DrawOnCanvas | open_street_map_visualizer.py:54-65 | the canvas receives the region, waterway, road and building layers in that order; the result is the crop of the canvas to the original box |
| Visualizer.OpenStreetMapVisualizer.ProjectNode | open_street_map_visualizer.py:80-92 | the projection block repeated in every drawing loop computes exactly `Project` of the node |
| Visualizer.OpenStreetMapVisualizer.CollectCoords | open_street_map_visualizer.py:77-96 | the node loop builds exactly the projected pixels of the path |
| Visualizer.OpenStreetMapVisualizer.DrawRegions | open_street_map_visualizer.py:68-107 | sorts the regions by area and appends exactly `RegionsLayer` |
| Visualizer.OpenStreetMapVisualizer.DrawSortedRegions | open_street_map_visualizer.py:74-107 | for each region in order, appends a filled polygon in the class colour when the class has a colour and is allowed, and nothing otherwise |
| Visualizer.OpenStreetMapVisualizer.DrawRoads | open_street_map_visualizer.py:110-151 | appends exactly `RoadsLayer`: nothing when an active allow-list lacks "road", otherwise the segments of each road whose own type is allowed |
| Visualizer.OpenStreetMapVisualizer.DrawRoadSegments | open_street_map_visualizer.py:122-149 | the `prev_coord` loop appends exactly `RoadSegments`, with `prev_coord` always the projection of the previous node |
| Visualizer.OpenStreetMapVisualizer.DrawWaterways | open_street_map_visualizer.py:154-183 | appends exactly `WaterwaysLayer` |
| Visualizer.OpenStreetMapVisualizer.DrawBuildings | open_street_map_visualizer.py:186-215 | appends exactly `BuildingsLayer` |
| VisualizerProperties.TruncTowardZero | open_street_map_visualizer.py:91-92 | truncation commutes with negation; `int(-2.5)` is −2, not the floor −3 |
| VisualizerProperties.ProjectionAxes | open_street_map_visualizer.py:83-94 | x is the truncated 10·Dist(refLat, refLon, refLat, lon), negated iff lon < refLon; y is the truncated 10·Dist(refLat, refLon, lat, refLon), negated iff lat > refLat |
| VisualizerProperties.ProjectionOrientation | open_street_map_visualizer.py:83-94 | for non-negative distances, x ≥ 0 east of the reference and ≤ 0 west of it, y ≥ 0 south of it and ≤ 0 north of it, each within one pixel of 10·distance |
| VisualizerProperties.CropMatchesProjection | open_street_map_visualizer.py:219-227 | the crop offsets are the projection's magnitudes before their sign flips, so the crop uses unsigned distances |
| VisualizerProperties.RegionCommandsMembership | open_street_map_visualizer.py:98-107 | a command is emitted for the regions iff some region has a class with a colour, is allowed, and the command is its filled polygon in `CLASS_TO_COLOR[type]` |
| VisualizerProperties.RegionsDrawnLargestFirst | open_street_map_visualizer.py:70-74 | the drawing order is a permutation of all regions, in non-increasing `get_area`, and the region layer draws in that order |
| VisualizerProperties.IgnoredRegionClassesNeverDrawn | open_street_map_visualizer.py:98-107 | "retail", "industrial" and "commercial" are valid class names, yet a region of those types draws nothing |
| VisualizerProperties.RoadSegmentsCount | open_street_map_visualizer.py:122-149 | the first node never emits, so a road of n ≥ 1 nodes emits at most n−1 segments |
| VisualizerProperties.RoadSegmentsExact | open_street_map_visualizer.py:122-149 | a segment is emitted iff it joins node i ≥ 1 to node i−1 and node i passes the guard dy < H, lon > refLon, dx < W, lat < refLat |
| VisualizerProperties.PreviousEndpointUnchecked | open_street_map_visualizer.py:145-149 | only the current node is guarded: a two-node road whose second node passes draws its segment whatever the first node is |
| VisualizerProperties.RoadCommandsShape | open_street_map_visualizer.py:116-149 | every road command is a 3-pixel line in the colour of an allowed road |
| VisualizerProperties.UnmappedRoadTypeUsesRoadColour | open_street_map_visualizer.py:139-143 | a road type without a colour is drawn in the "road" colour 255 |
| VisualizerProperties.RoadOnlyAllowList | open_street_map_visualizer.py:112-120 | with the allow-list ["road"], every road command has colour 255 |
| VisualizerProperties.RoadAllowListNeedsOwnType | open_street_map_visualizer.py:119-120 | with the allow-list ["road"], a road of any other type, such as "primary", draws nothing |
| VisualizerProperties.RoadsNeedRoadClass | open_street_map_visualizer.py:112-113 | an active allow-list without "road" draws no road |
| VisualizerProperties.WaterwayCommandsShape | open_street_map_visualizer.py:159-183 | one command per waterway, in order: an open polyline of its pixels with colour 2 and thickness 5 |
| VisualizerProperties.WaterwaysLayerShape | open_street_map_visualizer.py:154-183 | waterways draw nothing when the allow-list is active and lacks "water"; otherwise exactly one open polyline of colour 2 and thickness 5 per waterway, in order |
| VisualizerProperties.BuildingCommandsShape | open_street_map_visualizer.py:191-215 | one command per building, in order: a filled polygon of its pixels with colour 20 |
| VisualizerProperties.BuildingsLayerShape | open_street_map_visualizer.py:186-215 | buildings draw nothing when the allow-list is active and lacks "building"; otherwise exactly one filled polygon of colour 20 per building, in order |
| VisualizerProperties.WaterOnlyAllowList | open_street_map_visualizer.py:54-215 | with the allow-list ["water"], every command of the whole scene has colour 2 |
| VisualizerProperties.CropWindowExact | open_street_map_visualizer.py:218-233 | the crop keeps rows [rel_top:rel_bottom] and columns [rel_left:rel_right] exactly when they fit; for non-negative offsets its height is max(0, min(rel_bottom, H) − min(rel_top, H)), and its width likewise |
| OsmOverAws.ValidateClassesToBeDrawn | OSM_over_aws.py:39-44 | an error is produced iff some name is not in `CLASS_NAMES`, and it is the message for the first such name |
| OsmOverAws.NewOpenStreetMap | OSM_over_aws.py:29-44 | construction fails iff the allow-list is truthy and contains an unknown name, and the error is the message for the first unknown name; otherwise the fetcher keeps the allow-list |
| OsmOverAws.MeterOffsetGps | OSM_over_aws.py:47-57 | the latitude moves by dy meters and the longitude by dx meters along the parallel: (Δlat·π/180)·R = dy and (Δlon·π/180)·R·cos(lat) = dx |
| OsmOverAws.InflateAreaOfInterest | OSM_over_aws.py:60-75 | the inflated box keeps both axis midpoints, has exactly three times each extent, and contains the original box (strictly when it has positive extent) |
| OsmOverAws.TileBox | OSM_over_aws.py:82-86 | the box is top_left = (lat1, lon0), bottom_right = (lat0, lon1): it is centred on the point, its height is tile/R·180/π degrees and its width tile/(R·cos(lat))·180/π degrees, so for a positive tile the top is north of the bottom and, where cos(lat) > 0, the left is west of the right |
| OsmOverAws.ImageList | OSM_over_aws.py:119-125 | produces max(0, temporal_samples) frames; without resize each is the crop, with resize frame k is the crop resized k+1 times |
| OsmOverAws.OpenStreetMap.FetchImageFromBoundingBox | OSM_over_aws.py:91-129 | returns the inflated corners, draws the whole scene on the canvas, and returns max(0, temporal_samples) frames of the crop to the original box |
| OsmOverAws.OpenStreetMap.FetchImage | OSM_over_aws.py:78-88 | fetches the tile box around the point: the returned corners are the inflation of `TileBox` and the frame count is max(0, temporal_samples) |
| OsmOverAwsProperties.InvalidClassMessageListsAllNames | OSM_over_aws.py:41-43 | the error message contains the offending name and every name of `CLASS_NAMES` |
| OsmOverAwsProperties.ValidationDependsOnlyOnMembership | OSM_over_aws.py:39-44 | two allow-lists with the same members validate alike, so order and duplicates do not matter |
| OsmOverAwsProperties.ValidNamesWithoutColour | open_street_map_visualizer.py:13-39 | "primary", repeated or not, passes validation although it has no colour |
| OsmOverAwsProperties.MeterOffsetZeroIsIdentity | OSM_over_aws.py:47-57 | a zero offset returns the original coordinate |
| OsmOverAwsProperties.MeterOffsetLatitudeOnlyFromDy | OSM_over_aws.py:51-54 | the new latitude is lat + dy/R·180/π, whatever dx, the longitude and the cosine |

## Left out

- The HTTP request (`requests.get`), the XML parser and `create_image_canvas`: these are I/O or code that is not part of this model. Their results are parameters of `FetchImageFromBoundingBox`.
- The logger, the timing with `time.time()`, and the `zoom_level` warning: they only produce log output.
- The `__main__` demo and `cv2.imwrite`: I/O.
- `geo_jason`: a repackaging into `geojson` library objects, outside the rasterizing core.
- Pixel rasterization by `cv2.fillPoly`, `cv2.line`, `cv2.polylines` and `cv2.resize`: the model records the commands issued, and treats the resize as an abstract function.
- The body of `distance_between_two_gps_points` and `math.cos`: foreign trigonometry, kept uninterpreted. For the same reason no geodesic round trip is proved, such as "projecting an offset returns the offset" or "the crop is the original box's size within one pixel".
- Floating-point rounding: coordinates and distances are `real`, and no rounding-error claim is made.
- `Railways.type`: it holds the Python built-in `type`, not data, so `Railway` has no kind.
- `road_i` in `_draw_roads`: the model increments it, but nothing reads it.
- `numpy.array` stacking of the frames: the frames are a sequence.
- The extra return values `extracted_data`, `xml_response` and `xml_parser`: they come from the parts of the system that are outside the model.
- `SortByAreaDesc`: the model sorts stably, as Python does, but only the permutation and the descending order are proved, not the stability.
- `GetArea`: an empty region and a missing node id are preconditions, not error results, because Python raises for both.
- `OsmOverAws.OpenStreetMap.FetchImage`: its frames are not stated beyond their count; `FetchImageFromBoundingBox` states them.
- `OpenStreetMap.__init__` with `config=None`: it fails on `None.get`, and the model does not include that case.
- The logger and parser built by `OpenStreetMap.__init__`: only the allow-list is kept.
