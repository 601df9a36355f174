/**
  The orchestrator of OSM_over_aws.py: allow-list validation at construction, the
  meter-offset geodesy, the area-of-interest inflation, the square tile around a
  point, and the list of output frames built after rasterizing.

  The HTTP fetch, the XML parser and `create_image_canvas` are outside the model:
  their results (the parsed response, the canvas and its reference corner) are
  parameters. `math.cos` is an uninterpreted parameter.
 */
module OsmOverAws {
  import opened Wrappers
  import opened DataModels
  import opened Visualizer

  const EarthRadiusMeters: real := 6378137.0

  /** `math.pi` as a double. */
  const Pi: real := 3.141592653589793

  type Cosine = real -> real

  datatype Coordinate = Coordinate(lat: real, lon: real)

  /** A bounding box by its (top, left) and (bottom, right) corners. */
  datatype Corners = Corners(topLeft: Coordinate, bottomRight: Coordinate)

  /** The `resize` argument of cv2.resize: (width, height). */
  datatype Size = Size(width: nat, height: nat)

  /** A constructed OpenStreetMap fetcher; of its configuration only the allow-list is modelled. */
  datatype OpenStreetMap = OpenStreetMap(classesToBeDrawn: Option<seq<string>>)
  {
    /**
      `fetch_image_from_bounding_box` after the network fetch and parse: inflate the box,
      rasterize onto the canvas built for it, crop to the original box, and build the frames.
     */
    method FetchImageFromBoundingBox(
      topLeft: Coordinate, bottomRight: Coordinate, temporalSamples: int,
      resize: Option<Size>, resizeFn: (CroppedCanvas, Size) -> CroppedCanvas,
      extractedData: ResponseData, canvas: Canvas, maxLat: real, maxLon: real, dist: Distance)
      returns (images: seq<CroppedCanvas>, newTopLeft: Coordinate, newBottomRight: Coordinate)
      requires Drawable(extractedData, classesToBeDrawn)
      modifies canvas
      ensures Corners(newTopLeft, newBottomRight)
        == InflateAreaOfInterest(topLeft.lat, topLeft.lon, bottomRight.lat, bottomRight.lon)
      ensures canvas.commands == old(canvas.commands)
        + SceneCommands(Frame(dist, maxLat, maxLon), canvas.height, canvas.width, extractedData, classesToBeDrawn)
      ensures |images| == if temporalSamples < 0 then 0 else temporalSamples
      ensures forall k :: 0 <= k < |images| ==>
        images[k] == OutputFrame(CropCanvas(canvas, Frame(dist, maxLat, maxLon), topLeft.lat, topLeft.lon, bottomRight.lat, bottomRight.lon),
                                 resize, resizeFn, k)
    {
      var inflated := InflateAreaOfInterest(topLeft.lat, topLeft.lon, bottomRight.lat, bottomRight.lon);
      newTopLeft, newBottomRight := inflated.topLeft, inflated.bottomRight;
      var visualizer := new OpenStreetMapVisualizer(extractedData, classesToBeDrawn, dist);
      var outputCanvas := visualizer.DrawOnCanvas(canvas, maxLat, maxLon, topLeft.lat, topLeft.lon, bottomRight.lat, bottomRight.lon);
      images := ImageList(outputCanvas, temporalSamples, resize, resizeFn);
    }

    /** `fetch_image`: the square tile of side `tileSizeMeters` centred on (lat, lon). */
    method FetchImage(
      lat: real, lon: real, temporalSamples: int, tileSizeMeters: real, cos: Cosine,
      resize: Option<Size>, resizeFn: (CroppedCanvas, Size) -> CroppedCanvas,
      extractedData: ResponseData, canvas: Canvas, maxLat: real, maxLon: real, dist: Distance)
      returns (images: seq<CroppedCanvas>, newTopLeft: Coordinate, newBottomRight: Coordinate)
      requires cos(Pi * lat / 180.0) != 0.0
      requires Drawable(extractedData, classesToBeDrawn)
      modifies canvas
      ensures var box := TileBox(cos, lat, lon, tileSizeMeters);
        Corners(newTopLeft, newBottomRight)
          == InflateAreaOfInterest(box.topLeft.lat, box.topLeft.lon, box.bottomRight.lat, box.bottomRight.lon)
      ensures canvas.commands == old(canvas.commands)
        + SceneCommands(Frame(dist, maxLat, maxLon), canvas.height, canvas.width, extractedData, classesToBeDrawn)
      ensures |images| == if temporalSamples < 0 then 0 else temporalSamples
    {
      var box := TileBox(cos, lat, lon, tileSizeMeters);
      images, newTopLeft, newBottomRight := FetchImageFromBoundingBox(
        box.topLeft, box.bottomRight, temporalSamples, resize, resizeFn, extractedData, canvas, maxLat, maxLon, dist);
    }
  }

  // ---------------------------------------------------------------------------
  // Construction and allow-list validation

  /** `", ".join(names)`. */
  function Join(names: seq<string>, sep: string): string
  {
    if |names| == 0 then ""
    else if |names| == 1 then names[0]
    else names[0] + sep + Join(names[1..], sep)
  }

  /** The text of the exception raised for an unknown class name. */
  function InvalidClassMessage(name: string): string
  {
    "The class name '" + name + "' is not a valid drawable class. The valid class names are: \n"
      + Join(ClassNames, ", ") + " ."
  }

  predicate AllKnown(classes: seq<string>)
  {
    forall c :: c in classes ==> c in ClassNames
  }

  /** `_validate_classes_to_be_drawn`: the first unknown name raises; `None` means no exception. */
  method ValidateClassesToBeDrawn(classes: seq<string>) returns (error: Option<string>)
    ensures error.None? <==> AllKnown(classes)
    ensures error.Some? ==> exists i :: (0 <= i < |classes| && classes[i] !in ClassNames
      && AllKnown(classes[..i]) && error.value == InvalidClassMessage(classes[i]))
  {
    for i := 0 to |classes|
      invariant AllKnown(classes[..i])
    {
      if classes[i] !in ClassNames {
        return Some(InvalidClassMessage(classes[i]));
      }
      assert classes[..i + 1] == classes[..i] + [classes[i]];
    }
    assert classes[..|classes|] == classes;
    return None;
  }

  /** `OpenStreetMap.__init__`: validation runs only when the allow-list is truthy. */
  method NewOpenStreetMap(allowedClasses: Option<seq<string>>) returns (r: Result<OpenStreetMap, string>)
    ensures r.Failure? <==> Restricts(allowedClasses) && !AllKnown(allowedClasses.value)
    ensures r.Success? ==> r.value == OpenStreetMap(allowedClasses)
    ensures r.Failure? ==> exists i :: (0 <= i < |allowedClasses.value| && allowedClasses.value[i] !in ClassNames
      && AllKnown(allowedClasses.value[..i]) && r.error == InvalidClassMessage(allowedClasses.value[i]))
  {
    if Restricts(allowedClasses) {
      var error := ValidateClassesToBeDrawn(allowedClasses.value);
      if error.Some? {
        return Failure(error.value);
      }
    }
    return Success(OpenStreetMap(allowedClasses));
  }

  // ---------------------------------------------------------------------------
  // Geodesy and boxes

  /** `meter_offset_gps`: move dx meters east and dy meters north on a sphere. */
  function MeterOffsetGps(cos: Cosine, origLat: real, origLon: real, dx: real, dy: real): (r: Coordinate)
    requires cos(Pi * origLat / 180.0) != 0.0
    ensures (r.lat - origLat) * Pi / 180.0 * EarthRadiusMeters == dy
    ensures (r.lon - origLon) * Pi / 180.0 * (EarthRadiusMeters * cos(Pi * origLat / 180.0)) == dx
  {
    var dLatRadians := dy / EarthRadiusMeters;
    var dLonRadians := dx / (EarthRadiusMeters * cos(Pi * origLat / 180.0));
    Coordinate(origLat + dLatRadians * 180.0 / Pi, origLon + dLonRadians * 180.0 / Pi)
  }

  /** `_inflate_area_of_interest`: around each axis midpoint, 1.5 times the full extent on each side. */
  function InflateAreaOfInterest(originalTop: real, originalLeft: real, originalBottom: real, originalRight: real): (c: Corners)
    ensures (c.topLeft.lat + c.bottomRight.lat) / 2.0 == (originalTop + originalBottom) / 2.0
    ensures (c.topLeft.lon + c.bottomRight.lon) / 2.0 == (originalLeft + originalRight) / 2.0
    ensures c.topLeft.lat - c.bottomRight.lat == 3.0 * (originalTop - originalBottom)
    ensures c.bottomRight.lon - c.topLeft.lon == 3.0 * (originalRight - originalLeft)
    ensures originalTop >= originalBottom ==> c.topLeft.lat >= originalTop && c.bottomRight.lat <= originalBottom
    ensures originalRight >= originalLeft ==> c.topLeft.lon <= originalLeft && c.bottomRight.lon >= originalRight
    ensures originalTop > originalBottom ==> c.topLeft.lat > originalTop && c.bottomRight.lat < originalBottom
    ensures originalRight > originalLeft ==> c.topLeft.lon < originalLeft && c.bottomRight.lon > originalRight
  {
    var avgLat := (originalTop + originalBottom) / 2.0;
    var dlat := (originalTop - originalBottom) * 1.5;
    var avgLon := (originalLeft + originalRight) / 2.0;
    var dlon := (originalRight - originalLeft) * 1.5;
    Corners(Coordinate(avgLat + dlat, avgLon - dlon), Coordinate(avgLat - dlat, avgLon + dlon))
  }

  /** The box `fetch_image` builds: top_left = (lat1, lon0), bottom_right = (lat0, lon1). */
  function TileBox(cos: Cosine, lat: real, lon: real, tileSizeMeters: real): (c: Corners)
    requires cos(Pi * lat / 180.0) != 0.0
    ensures c.topLeft.lat - c.bottomRight.lat == tileSizeMeters / EarthRadiusMeters * 180.0 / Pi
    ensures tileSizeMeters > 0.0 ==> c.topLeft.lat > c.bottomRight.lat
    ensures (c.topLeft.lat + c.bottomRight.lat) / 2.0 == lat
    ensures (c.topLeft.lon + c.bottomRight.lon) / 2.0 == lon
    ensures c.bottomRight.lon - c.topLeft.lon == tileSizeMeters / (EarthRadiusMeters * cos(Pi * lat / 180.0)) * 180.0 / Pi
    ensures tileSizeMeters > 0.0 && cos(Pi * lat / 180.0) > 0.0 ==> c.topLeft.lon < c.bottomRight.lon
  {
    var p0 := MeterOffsetGps(cos, lat, lon, -0.5 * tileSizeMeters, -0.5 * tileSizeMeters);
    var p1 := MeterOffsetGps(cos, lat, lon, 0.5 * tileSizeMeters, 0.5 * tileSizeMeters);
    Corners(Coordinate(p1.lat, p0.lon), Coordinate(p0.lat, p1.lon))
  }

  // ---------------------------------------------------------------------------
  // The output frames

  /** The canvas after k applications of the resize. */
  function ResizedTimes(resizeFn: (CroppedCanvas, Size) -> CroppedCanvas, size: Size, image: CroppedCanvas, k: nat): CroppedCanvas
  {
    if k == 0 then image else resizeFn(ResizedTimes(resizeFn, size, image, k - 1), size)
  }

  /** Frame k of the list: the crop itself, or the crop resized k + 1 times. */
  function OutputFrame(image: CroppedCanvas, resize: Option<Size>, resizeFn: (CroppedCanvas, Size) -> CroppedCanvas, k: nat): CroppedCanvas
  {
    match resize
    case None => image
    case Some(size) => ResizedTimes(resizeFn, size, image, k + 1)
  }

  /** The `for _ in range(temporal_samples)` loop, which reassigns `output_canvas` when resizing. */
  method ImageList(outputCanvas: CroppedCanvas, temporalSamples: int, resize: Option<Size>,
                   resizeFn: (CroppedCanvas, Size) -> CroppedCanvas)
    returns (images: seq<CroppedCanvas>)
    ensures |images| == if temporalSamples < 0 then 0 else temporalSamples
    ensures forall k :: 0 <= k < |images| ==> images[k] == OutputFrame(outputCanvas, resize, resizeFn, k)
  {
    images := [];
    var current := outputCanvas;
    var n := if temporalSamples < 0 then 0 else temporalSamples;
    for k := 0 to n
      invariant |images| == k
      invariant forall j :: 0 <= j < k ==> images[j] == OutputFrame(outputCanvas, resize, resizeFn, j)
      invariant current == if resize.None? then outputCanvas else ResizedTimes(resizeFn, resize.value, outputCanvas, k)
    {
      if resize.Some? {
        current := resizeFn(current, resize.value);
      }
      images := images + [current];
    }
  }
}
