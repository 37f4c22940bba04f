/**
 * The decisions behind the route map: which area features are drawn and
 * as what (a coloured bounding rectangle or a plain marker), whether the
 * area layer and its layer control appear, and what each route marker's
 * popup carries. The drawing itself is reduced to the list of shapes and
 * markers that would be added to the map.
 */
module MapUtils {
  import opened Wrappers
  import opened Text
  import opened Collections
  import opened Media
  import opened UiComponents

  /** The colour list of the rectangles, by priority. */
  const Colors: seq<string> := ["red", "orange", "yellow", "green", "blue", "purple"]

  /**
   * `colors[min(priority - 1, len(colors) - 1)]`: priorities 1 to 6 in list
   * order, anything higher as the last; 0 down to -5 index from the end, as
   * Python's negative indices do. Below -5 the index is out of range.
   */
  function AreaColor(priority: int): (color: string)
    requires priority >= 1 - |Colors|
    ensures 1 <= priority <= |Colors| ==> color == Colors[priority - 1]
    ensures priority >= |Colors| ==> color == "purple"
    ensures priority <= 0 ==> color == Colors[|Colors| + priority - 1]
    ensures color in Colors
  {
    var i := if priority - 1 < |Colors| - 1 then priority - 1 else |Colors| - 1;
    if i < 0 then Colors[|Colors| + i] else Colors[i]
  }

  /** A JSON `true` priority is Python's 1, so red; `false` is 0, so the last colour. */
  lemma BooleanPriorities()
    ensures AreaColor(1) == "red" && AreaColor(0) == "purple"
  {
  }

  /**
   * The `priority` property: absent, an integer (JSON booleans included,
   * `true` as 1 and `false` as 0, since Python's bool is an int), a
   * floating-point number, or a value of any other type (a string, null, a
   * list or an object), where `priority - 1` raises `TypeError`.
   */
  datatype Priority = MissingPriority | IntPriority(value: int) | FloatPriority(number: real) | OtherPriority

  /** A bounding-box property: a value `float()` accepts (its number), or one it rejects. */
  datatype Coordinate = Parses(number: real) | Unparsable

  /**
   * A feature of the areas collection: its geometry type and coordinates
   * (longitude first), its name, its priority and the bounding-box
   * properties it carries, by key.
   */
  datatype Feature = Feature(
    geometryType: string, coordinates: seq<real>, name: string,
    priority: Priority, bounds: map<string, Coordinate>)

  const SouthWestLat := "southWestLat"
  const SouthWestLon := "southWestLon"
  const NorthEastLat := "northEastLat"
  const NorthEastLon := "northEastLon"

  predicate IsPoint(f: Feature)
  {
    f.geometryType == "Point"
  }

  /** All four bounding-box keys are among the feature's properties. */
  predicate HasBoundKeys(f: Feature)
  {
    SouthWestLat in f.bounds && SouthWestLon in f.bounds && NorthEastLat in f.bounds && NorthEastLon in f.bounds
  }

  /** All four bounding-box values parse as numbers. */
  predicate BoundsParse(f: Feature)
    requires HasBoundKeys(f)
  {
    f.bounds[SouthWestLat].Parses? && f.bounds[SouthWestLon].Parses?
    && f.bounds[NorthEastLat].Parses? && f.bounds[NorthEastLon].Parses?
  }

  /**
   * A feature the area loop can handle: a point has both coordinates, and
   * an integer priority that reaches the colour rule indexes the colour
   * list (at least -5).
   */
  predicate Drawable(f: Feature)
  {
    IsPoint(f) ==>
      && |f.coordinates| >= 2
      && (HasBoundKeys(f) && BoundsParse(f) && f.priority.IntPriority? ==> f.priority.value >= 1 - |Colors|)
  }

  /**
   * The colour index of a floating-point priority: `min(priority - 1, 5)`
   * returns the integer 5 when `priority - 1` exceeds it, and otherwise the
   * float itself, which is no list index (`TypeError`).
   */
  predicate FloatPriorityIndexes(number: real)
  {
    number - 1.0 > (|Colors| - 1) as real
  }

  /** What is drawn for an area: its bounding rectangle, or a marker at its point. */
  datatype Shape =
    | Rectangle(southWest: (real, real), northEast: (real, real), color: string, tooltip: string)
    | AreaMarker(latitude: real, longitude: real, tooltip: string)

  /**
   * The shape of a point feature: a rectangle when the four bounds are
   * there and parse and the priority is usable (missing counts as 1, a
   * float above 6 gives the last colour); otherwise, bounds missing or a
   * `ValueError` or `TypeError` on the way, a marker at the point, latitude
   * being the second coordinate.
   */
  function PointShape(f: Feature): Shape
    requires IsPoint(f) && Drawable(f)
  {
    var marker := AreaMarker(f.coordinates[1], f.coordinates[0], f.name);
    if !HasBoundKeys(f) || !BoundsParse(f) then marker
    else
      var southWest := (f.bounds[SouthWestLat].number, f.bounds[SouthWestLon].number);
      var northEast := (f.bounds[NorthEastLat].number, f.bounds[NorthEastLon].number);
      match f.priority
      case MissingPriority => Rectangle(southWest, northEast, AreaColor(1), f.name)
      case IntPriority(p) => Rectangle(southWest, northEast, AreaColor(p), f.name)
      case FloatPriority(x) =>
        if FloatPriorityIndexes(x) then Rectangle(southWest, northEast, Colors[|Colors| - 1], f.name) else marker
      case OtherPriority => marker
  }

  /** The shape of a feature: only points are drawn. */
  function AreaShape(f: Feature): (s: Option<Shape>)
    requires Drawable(f)
    ensures s.Some? <==> IsPoint(f)
  {
    if IsPoint(f) then Some(PointShape(f)) else None
  }

  /** The shapes the area loop adds to the area layer, in feature order. */
  function AreaShapes(features: seq<Feature>): seq<Shape>
    requires forall f :: f in features ==> Drawable(f)
  {
    if features == [] then []
    else
      (match AreaShape(features[0]) case None => [] case Some(s) => [s]) + AreaShapes(features[1..])
  }

  /** The shapes of a list of point features, one each. */
  function PointShapes(points: seq<Feature>): (r: seq<Shape>)
    requires forall f :: f in points ==> IsPoint(f) && Drawable(f)
    ensures |r| == |points|
    ensures forall i :: 0 <= i < |r| ==> r[i] == PointShape(points[i])
  {
    seq(|points|, i requires 0 <= i < |points| => PointShape(points[i]))
  }

  lemma PointShapesCons(head: Feature, rest: seq<Feature>)
    requires IsPoint(head) && Drawable(head)
    requires forall f :: f in rest ==> IsPoint(f) && Drawable(f)
    ensures PointShapes([head] + rest) == [PointShape(head)] + PointShapes(rest)
  {
    assert forall f :: f in [head] + rest ==> f == head || f in rest;
  }

  /** The area layer holds one shape per point feature, in order, and nothing for other geometries. */
  lemma {:induction false} AreaShapesOfPoints(features: seq<Feature>)
    requires forall f :: f in features ==> Drawable(f)
    ensures AreaShapes(features) == PointShapes(Keep(features, IsPoint))
  {
    if features != [] {
      var head, tail := features[0], features[1..];
      assert forall f :: f in tail ==> f in features;
      AreaShapesOfPoints(tail);
      var rest := Keep(tail, IsPoint);
      if IsPoint(head) {
        assert AreaShapes(features) == [PointShape(head)] + AreaShapes(tail);
        assert Keep(features, IsPoint) == [head] + rest;
        PointShapesCons(head, rest);
      } else {
        assert AreaShapes(features) == AreaShapes(tail);
        assert Keep(features, IsPoint) == rest;
      }
    }
  }

  /**
   * A point becomes a rectangle exactly when its four bounds are present
   * and parse and its priority is missing, an integer, or a float above 6;
   * the rectangle spans the parsed corners in the priority's colour (the
   * last one for such a float). Otherwise it becomes a marker at
   * (coordinates[1], coordinates[0]).
   */
  lemma PointShapeCases(f: Feature)
    requires IsPoint(f) && Drawable(f)
    ensures PointShape(f).Rectangle? <==>
      && HasBoundKeys(f) && BoundsParse(f)
      && (f.priority.MissingPriority? || f.priority.IntPriority? || (f.priority.FloatPriority? && f.priority.number > 6.0))
    ensures PointShape(f).Rectangle? ==>
      && PointShape(f).southWest == (f.bounds[SouthWestLat].number, f.bounds[SouthWestLon].number)
      && PointShape(f).northEast == (f.bounds[NorthEastLat].number, f.bounds[NorthEastLon].number)
      && PointShape(f).color == (if f.priority.FloatPriority? then "purple"
                                 else AreaColor(if f.priority.IntPriority? then f.priority.value else 1))
    ensures PointShape(f).AreaMarker? ==>
      PointShape(f).latitude == f.coordinates[1] && PointShape(f).longitude == f.coordinates[0]
    ensures PointShape(f).tooltip == f.name
  {
  }

  /** An area without a priority is drawn red, as priority 1. */
  lemma MissingPriorityIsRed(f: Feature)
    requires IsPoint(f) && Drawable(f) && HasBoundKeys(f) && BoundsParse(f) && f.priority.MissingPriority?
    ensures PointShape(f).Rectangle? && PointShape(f).color == "red"
  {
  }

  // ------------------------------------------------------------ route markers

  const NoMediaText := "This is not showing a video or image"

  /** The popup's media: the video's markup when there is a video, else the image's, else `placeholder`. */
  function PopupMedia(video: Option<VideoInfo>, image: Option<ImageInfo>, placeholder: string): (media: string)
    ensures video.Some? ==> media == CreateVideoHtml(video)
    ensures video.None? && image.Some? ==> media == CreateImageHtml(image)
    ensures video.None? && image.None? ==> media == placeholder
  {
    if video.Some? then CreateVideoHtml(video)
    else if image.Some? then CreateImageHtml(image)
    else placeholder
  }

  /** What a popup shows: a direct video's address, else an image's address, else the placeholder text. */
  lemma PopupMediaShows(video: Option<VideoInfo>, image: Option<ImageInfo>, placeholder: string)
    ensures video.Some? && video.value.kind == Mp4Kind ==> Contains(PopupMedia(video, image, placeholder), SrcAttribute(video.value.url))
    ensures video.Some? && video.value.kind == YouTubeKind ==>
      Contains(PopupMedia(video, image, placeholder), SrcAttribute("https://www.youtube.com/embed/" + YouTubeId(video.value.url)))
    ensures video.None? && image.Some? ==> Contains(PopupMedia(video, image, placeholder), SrcAttribute(image.value.url))
    ensures video.None? && image.None? ==> PopupMedia(video, image, placeholder) == placeholder
  {
  }

  /** The popup is widened for media: 500 when either is found, 300 otherwise. */
  function PopupWidth(video: Option<VideoInfo>, image: Option<ImageInfo>): (width: int)
    ensures width == 500 <==> video.Some? || image.Some?
    ensures width == 300 <==> video.None? && image.None?
  {
    if video.Some? || image.Some? then 500 else 300
  }

  /** A route's marker: its position, the link to its page, the popup's media and width, and its tooltip. */
  datatype RouteMarker = RouteMarker(
    latitude: real, longitude: real, link: string, media: string, popupWidth: int, tooltip: string)

  /** The marker of one route, its media fetched from the route's page. */
  function RouteMarkerOf(row: Route, page: string -> Fetched): (m: RouteMarker)
    requires row.area.Some?
    ensures m.link == PageUrl(row.area.value, row.id)
    ensures m.latitude == row.latitude && m.longitude == row.longitude
    ensures m.tooltip == row.name + " (" + row.grade + ")"
    ensures var media := ExtractMedia(row.area, row.id, page);
      m.popupWidth == 500 <==> media.0.Some? || media.1.Some?
    ensures var media := ExtractMedia(row.area, row.id, page);
      m.popupWidth == 300 <==> media.0.None? && media.1.None?
    ensures var media := ExtractMedia(row.area, row.id, page);
      media.0.None? && media.1.None? ==> m.media == NoMediaText
  {
    var media := ExtractMedia(row.area, row.id, page);
    RouteMarker(row.latitude, row.longitude, PageUrl(row.area.value, row.id),
      PopupMedia(media.0, media.1, NoMediaText), PopupWidth(media.0, media.1), row.name + " (" + row.grade + ")")
  }

  /** The map's content: the area layer (when drawn), whether a layer control is added, and the route markers. */
  datatype MapLayers = MapLayers(areaLayer: Option<seq<Shape>>, layerControl: bool, routeMarkers: seq<RouteMarker>)

  /** The areas are drawn when there is an areas collection and the option is on. */
  predicate ShowsAreas(areas: Option<seq<Feature>>, showAreas: bool)
  {
    areas.Some? && showAreas
  }

  /** The marker of a route with an area name, as a function of the route. */
  function MarkerOfRow(page: string -> Fetched): Route --> RouteMarker
  {
    (row: Route) requires row.area.Some? => RouteMarkerOf(row, page)
  }

  /** One marker per row, in row order. */
  function RouteMarkers(rows: seq<Route>, page: string -> Fetched): (r: seq<RouteMarker>)
    requires forall row :: row in rows ==> row.area.Some?
    ensures |r| == |rows|
    ensures forall i :: 0 <= i < |rows| ==> r[i] == RouteMarkerOf(rows[i], page)
  {
    MapSeq(rows, MarkerOfRow(page))
  }

  /** The specification of `create_map_with_areas`. */
  function MapOf(rows: seq<Route>, areas: Option<seq<Feature>>, showAreas: bool, page: string -> Fetched): (m: MapLayers)
    requires ShowsAreas(areas, showAreas) ==> forall f :: f in areas.value ==> Drawable(f)
    requires forall row :: row in rows ==> row.area.Some?
    ensures m.areaLayer.Some? <==> ShowsAreas(areas, showAreas)
    ensures m.layerControl <==> ShowsAreas(areas, showAreas)
    ensures |m.routeMarkers| == |rows|
  {
    MapLayers(
      if ShowsAreas(areas, showAreas) then Some(AreaShapes(areas.value)) else None,
      ShowsAreas(areas, showAreas),
      RouteMarkers(rows, page))
  }

  /** The area loop: one shape appended per point feature. */
  method DrawAreas(features: seq<Feature>) returns (shapes: seq<Shape>)
    requires forall f :: f in features ==> Drawable(f)
    ensures shapes == AreaShapes(features)
  {
    shapes := [];
    var i := 0;
    while i < |features|
      invariant 0 <= i <= |features|
      invariant shapes + AreaShapes(features[i..]) == AreaShapes(features)
    {
      var f := features[i];
      assert features[i..] == [f] + features[i + 1..];
      if IsPoint(f) {
        shapes := shapes + [PointShape(f)];
      }
      i := i + 1;
    }
  }

  /** The body of the route loop: the route's link, its media fetched, the popup's content and width. */
  method DrawRoute(row: Route, page: string -> Fetched) returns (marker: RouteMarker)
    requires row.area.Some?
    ensures marker == RouteMarkerOf(row, page)
  {
    var link := PageUrl(row.area.value, row.id);
    var media := NoMediaText;
    var video, image := GetMediaFromBleauPage(row.area, row.id, page);
    if video.Some? {
      media := CreateVideoHtml(video);
    } else if image.Some? {
      media := CreateImageHtml(image);
    }
    var width := if video.Some? || image.Some? then 500 else 300;
    marker := RouteMarker(row.latitude, row.longitude, link, media, width, row.name + " (" + row.grade + ")");
  }

  /** The route loop: one marker per row, in row order. */
  method DrawRoutes(rows: seq<Route>, page: string -> Fetched) returns (markers: seq<RouteMarker>)
    requires forall row :: row in rows ==> row.area.Some?
    ensures markers == RouteMarkers(rows, page)
  {
    markers := [];
    var j := 0;
    while j < |rows|
      invariant 0 <= j <= |rows|
      invariant markers == MapSeq(rows[..j], MarkerOfRow(page))
    {
      var marker := DrawRoute(rows[j], page);
      MapSeqStep(rows, j, MarkerOfRow(page));
      markers := markers + [marker];
      j := j + 1;
    }
    assert rows[..j] == rows;
  }

  /**
   * `create_map_with_areas`: the area layer when shown, then the layer
   * control when shown, then one marker per row in row order.
   */
  method CreateMapWithAreas(rows: seq<Route>, areas: Option<seq<Feature>>, showAreas: bool, page: string -> Fetched)
    returns (m: MapLayers)
    requires ShowsAreas(areas, showAreas) ==> forall f :: f in areas.value ==> Drawable(f)
    requires forall row :: row in rows ==> row.area.Some?
    ensures m == MapOf(rows, areas, showAreas, page)
  {
    var areaLayer: Option<seq<Shape>> := None;
    if areas.Some? && showAreas {
      var shapes := DrawAreas(areas.value);
      areaLayer := Some(shapes);
    }
    var layerControl := areas.Some? && showAreas;

    var markers := DrawRoutes(rows, page);
    m := MapLayers(areaLayer, layerControl, markers);
  }
}
