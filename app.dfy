/**
 * The monolithic page script: its own copy of the filter, the map's route
 * markers with a media budget, the 100-route display threshold with its
 * summary fallback, the editable table with images up to 10 rows, the
 * project list kept in the session and the export.
 */
module App {
  import opened Wrappers
  import opened Text
  import opened Collections
  import opened Grades
  import opened Media
  import opened UiComponents
  import opened MapUtils

  // ------------------------------------------------------------ filter

  /** The inline filter block: `filtered_data` narrowed in place, axis by axis. */
  method FilterRoutes(data: seq<Route>, f: Filters) returns (filtered: seq<Route>)
    ensures filtered == ApplyFilters(data, f)
    ensures forall x :: x in filtered <==> x in data && Accepts(f, x)
  {
    filtered := data;
    filtered := Keep(filtered, GradeMask(f.gradeRange));
    if f.steepness != [] {
      filtered := Keep(filtered, SteepnessMask(f.steepness));
    } else {
      KeepEverything(filtered, SteepnessMask(f.steepness));
    }
    if f.areas != [] {
      filtered := Keep(filtered, AreaMask(f.areas));
    } else {
      KeepEverything(filtered, AreaMask(f.areas));
    }
    if f.sitStartOption == SitStartOnly {
      filtered := Keep(filtered, StartTypeMask(f.sitStartOption));
    } else if f.sitStartOption == StandingStartOnly {
      filtered := Keep(filtered, StartTypeMask(f.sitStartOption));
    } else {
      KeepEverything(filtered, StartTypeMask(f.sitStartOption));
    }
    if f.popularity.Some? {
      filtered := Keep(filtered, PopularityMask(f.popularity));
    } else {
      KeepEverything(filtered, PopularityMask(f.popularity));
    }
  }

  // ------------------------------------------------------------ map markers

  /** Media is fetched only for rows whose index label is below this. */
  const MediaBudget := 5

  /**
   * A route's marker on the page's own map: media only within the budget,
   * no placeholder text when nothing is found, and the popup widened only
   * for media.
   */
  function PageMarkerOf(row: Route, page: string -> Fetched): (m: RouteMarker)
    requires row.area.Some?
    ensures m.link == PageUrl(row.area.value, row.id)
    ensures m.latitude == row.latitude && m.longitude == row.longitude
    ensures row.index >= MediaBudget ==> m.media == "" && m.popupWidth == 300
  {
    var media := if row.index < MediaBudget then ExtractMedia(row.area, row.id, page) else (None, None);
    RouteMarker(row.latitude, row.longitude, PageUrl(row.area.value, row.id),
      PopupMedia(media.0, media.1, ""), PopupWidth(media.0, media.1), row.name + " (" + row.grade + ")")
  }

  /** Past the budget a marker does not depend on the route's page at all: nothing is fetched. */
  lemma NoFetchPastBudget(row: Route, page1: string -> Fetched, page2: string -> Fetched)
    requires row.area.Some? && row.index >= MediaBudget
    ensures PageMarkerOf(row, page1) == PageMarkerOf(row, page2)
  {
  }

  /**
   * Within the budget the page's marker is the map module's marker, except
   * that an empty popup stays empty instead of showing the placeholder.
   */
  lemma WithinBudgetAsMapModule(row: Route, page: string -> Fetched)
    requires row.area.Some? && row.index < MediaBudget
    ensures var media := ExtractMedia(row.area, row.id, page);
      if media.0.Some? || media.1.Some? then PageMarkerOf(row, page) == RouteMarkerOf(row, page)
      else PageMarkerOf(row, page) == RouteMarkerOf(row, page).(media := "")
  {
  }

  /** The body of the page's marker loop: the link, the media within the budget, the popup's content and width. */
  method DrawPageRoute(row: Route, page: string -> Fetched) returns (marker: RouteMarker)
    requires row.area.Some?
    ensures marker == PageMarkerOf(row, page)
  {
    var link := PageUrl(row.area.value, row.id);
    var video: Option<VideoInfo> := None;
    var image: Option<ImageInfo> := None;
    var media := "";
    if row.index < MediaBudget {
      video, image := GetMediaFromBleauPage(row.area, row.id, page);
      if video.Some? {
        media := CreateVideoHtml(video);
      } else if image.Some? {
        media := CreateImageHtml(image);
      }
    }
    var width := if video.Some? || image.Some? then 500 else 300;
    marker := RouteMarker(row.latitude, row.longitude, link, media, width, row.name + " (" + row.grade + ")");
  }

  /** The page's marker of a route with an area name, as a function of the route. */
  function PageMarkerOfRow(page: string -> Fetched): Route --> RouteMarker
  {
    (row: Route) requires row.area.Some? => PageMarkerOf(row, page)
  }

  /** The page's markers: one per filtered row, in row order. */
  function PageMarkers(rows: seq<Route>, page: string -> Fetched): (r: seq<RouteMarker>)
    requires forall row :: row in rows ==> row.area.Some?
    ensures |r| == |rows|
    ensures forall i :: 0 <= i < |rows| ==> r[i] == PageMarkerOf(rows[i], page)
  {
    MapSeq(rows, PageMarkerOfRow(page))
  }

  /** The marker loop of the page: one marker per filtered row, in order. */
  method DrawPageMarkers(rows: seq<Route>, page: string -> Fetched) returns (markers: seq<RouteMarker>)
    requires forall row :: row in rows ==> row.area.Some?
    ensures markers == PageMarkers(rows, page)
  {
    markers := [];
    var j := 0;
    while j < |rows|
      invariant 0 <= j <= |rows|
      invariant markers == MapSeq(rows[..j], PageMarkerOfRow(page))
    {
      var marker := DrawPageRoute(rows[j], page);
      MapSeqStep(rows, j, PageMarkerOfRow(page));
      markers := markers + [marker];
      j := j + 1;
    }
    assert rows[..j] == rows;
  }

  // ------------------------------------------------------------ summary

  /** Python's `int()` of a quotient: truncation toward zero. */
  function TruncatedQuotient(a: int, b: int): (q: int)
    requires b > 0
    ensures a >= 0 ==> q == a / b
    ensures a < 0 ==> q == -((-a) / b)
    ensures a >= 0 ==> 0 <= q && q * b <= a < q * b + b
    ensures a < 0 ==> q <= 0 && q * b - b < a <= q * b
  {
    if a >= 0 then
      DivisionBounds(a, b);
      a / b
    else
      DivisionBounds(-a, b);
      -((-a) / b)
  }

  lemma DivisionBounds(n: int, b: int)
    requires n >= 0 && b > 0
    ensures 0 <= n / b && (n / b) * b <= n < (n / b) * b + b
  {
    var q, r := n / b, n % b;
    assert n == q * b + r && 0 <= r < b;
  }

  function OrdinalColumn(rows: seq<Route>): (r: seq<int>)
    ensures |r| == |rows|
    ensures forall i :: 0 <= i < |rows| ==> r[i] == rows[i].gradeNumeric
  {
    seq(|rows|, i requires 0 <= i < |rows| => rows[i].gradeNumeric)
  }

  /** The Average Grade metric: "N/A" for no routes, else the grade of the truncated mean ordinal. */
  function AverageGradeLabel(rows: seq<Route>): (text: string)
    ensures rows == [] ==> text == "N/A"
    ensures rows != [] ==> text == NumericToGrade(TruncatedQuotient(Sum(OrdinalColumn(rows)), |rows|))
  {
    if rows == [] then "N/A"
    else NumericToGrade(TruncatedQuotient(Sum(OrdinalColumn(rows)), |rows|))
  }

  /** With the grade column filled in, the mean ordinal lies between 0 and 34. */
  lemma MeanOrdinalInRange(rows: seq<Route>)
    requires rows != [] && Graded(rows)
    ensures 0 <= Sum(OrdinalColumn(rows))
    ensures 0 <= Sum(OrdinalColumn(rows)) / |rows| <= MaxOrdinal
  {
    var ordinals := OrdinalColumn(rows);
    forall i | 0 <= i < |ordinals| ensures 0 <= ordinals[i] <= MaxOrdinal {
      assert rows[i] in rows;
    }
    SumBounds(ordinals, 0, MaxOrdinal);
    QuotientBounds(Sum(ordinals), |rows|, MaxOrdinal);
  }

  lemma QuotientBounds(total: int, count: int, hi: int)
    requires count > 0 && 0 <= total <= count * hi
    ensures 0 <= total / count <= hi
  {
    var q := total / count;
    assert total == count * q + total % count;
    if q > hi {
      assert count * q >= count * (hi + 1) by {
        MultiplyMonotone(count, hi + 1, q);
      }
    }
  }

  lemma MultiplyMonotone(c: int, a: int, b: int)
    requires c > 0 && a <= b
    ensures c * a <= c * b
  {
  }

  /**
   * With the grade column filled in, the truncated mean is the floor of the
   * mean and a table ordinal, so the metric is that ordinal's grade and
   * leads back to it; it is never "N/A" for a non-empty selection.
   */
  lemma AverageGradeIsTableGrade(rows: seq<Route>)
    requires rows != [] && Graded(rows)
    ensures var mean := Sum(OrdinalColumn(rows)) / |rows|;
      && 0 <= mean <= MaxOrdinal
      && AverageGradeLabel(rows) == NumericToGrade(mean)
      && GradeToNumeric(AverageGradeLabel(rows)) == mean
  {
    var mean := Sum(OrdinalColumn(rows)) / |rows|;
    MeanOrdinalInRange(rows);
    OrdinalRoundTrip(mean);
  }

  /** The summary shown instead of the map and the table: the route count, the average grade and the number of named areas. */
  datatype Summary = Summary(total: int, averageGrade: string, areas: int)

  function AreaNames(rows: seq<Route>): set<string>
  {
    set x | x in rows && x.area.Some? :: x.area.value
  }

  function SummaryOf(rows: seq<Route>): (s: Summary)
    ensures s.total == |rows| && s.averageGrade == AverageGradeLabel(rows) && s.areas == |AreaNames(rows)|
  {
    Summary(|rows|, AverageGradeLabel(rows), |AreaNames(rows)|)
  }

  /**
   * The summary counts the rows, and its average grade is "N/A" for no
   * routes; for graded routes it is a table grade whose ordinal is the
   * floor of the mean ordinal.
   */
  lemma SummaryAverage(rows: seq<Route>)
    ensures SummaryOf(rows).total == |rows|
    ensures rows == [] ==> SummaryOf(rows).averageGrade == "N/A"
    ensures rows != [] && Graded(rows) ==>
      GradeToNumeric(SummaryOf(rows).averageGrade) == Sum(OrdinalColumn(rows)) / |rows|
  {
    if rows != [] && Graded(rows) {
      AverageGradeIsTableGrade(rows);
    }
  }

  // ------------------------------------------------------------ display

  /** The map and the table are shown for at most this many filtered routes. */
  const DisplayLimit := 100

  /** The image column of the page's table is filled for tables of at most 10 rows. */
  const PageImageLimit := 10

  /** What the page shows below the filters: the map and the table, or the summary alone. */
  datatype Screen =
    | MapAndTable(markers: seq<RouteMarker>, table: EditorView)
    | TooManyRoutes(summary: Summary)

  /** Every route the page can show (filtered or a project) has an area name. */
  predicate Displayable(data: seq<Route>, filtered: seq<Route>, projects: set<string>)
  {
    AreasKnown(filtered, data, projects)
  }

  /**
   * The display part of the page: the map's markers and the table for at
   * most 100 filtered routes, the summary otherwise.
   */
  method ShowResults(data: seq<Route>, filtered: seq<Route>, projects: set<string>, page: string -> Fetched)
    returns (screen: Screen)
    requires |filtered| > DisplayLimit || Displayable(data, filtered, projects)
    ensures |filtered| <= DisplayLimit ==> screen.MapAndTable?
    ensures |filtered| <= DisplayLimit ==>
      && screen.markers == PageMarkers(filtered, page)
      && screen.table == DataTable(filtered, data, projects, page, false, PageImageLimit)
    ensures |filtered| > DisplayLimit ==> screen == TooManyRoutes(SummaryOf(filtered))
  {
    if |filtered| <= DisplayLimit {
      var markers := DrawPageMarkers(filtered, page);
      screen := MapAndTable(markers, DataTable(filtered, data, projects, page, false, PageImageLimit));
    } else {
      screen := TooManyRoutes(SummaryOf(filtered));
    }
  }

  /** A table longer than the page's limit shows no images; one of at most 10 rows shows each route's image, if any. */
  lemma PageImagesUpToTen(data: seq<Route>, filtered: seq<Route>, projects: set<string>, page: string -> Fetched)
    requires Displayable(data, filtered, projects)
    ensures var view := DataTable(filtered, data, projects, page, false, PageImageLimit);
      && (|view.rows| > PageImageLimit ==> forall i :: 0 <= i < |view.images| ==> view.images[i].None?)
      && (|view.rows| <= PageImageLimit ==> forall i :: 0 <= i < |view.images| ==>
            (view.images[i].Some? <==> ExtractMedia(view.rows[i].route.area, view.rows[i].route.id, page).1.Some?))
  {
  }

  // ------------------------------------------------------------ session

  /** The project list of the session: the one already there, else a new empty one. */
  method InitProjectList(existing: Option<ProjectList>) returns (list: ProjectList)
    ensures existing.Some? ==> list == existing.value && list.ids == old(existing.value.ids)
    ensures existing.None? ==> fresh(list) && list.ids == {}
  {
    if existing.Some? {
      list := existing.value;
    } else {
      list := new ProjectList();
    }
  }

  /** The Clear All Projects button: offered only with a non-empty list; pressed, it empties the list and asks for a rerun. */
  method ClearButton(list: ProjectList, pressed: bool) returns (rerun: bool)
    modifies list
    ensures rerun <==> pressed && old(|list.ids|) > 0
    ensures rerun ==> list.ids == {}
    ensures !rerun ==> list.ids == old(list.ids)
  {
    rerun := false;
    if |list.ids| > 0 && pressed {
      list.Clear();
      rerun := true;
    }
  }

  /** The Export button: offered only with a non-empty list; pressed, it exports the project routes of the data. */
  method ExportButton(data: seq<Route>, list: ProjectList, pressed: bool, hasPopularity: bool)
    returns (download: Option<(seq<string>, seq<ExportRecord>)>)
    ensures download == if pressed then ExportTable(data, list.ids, hasPopularity) else None
  {
    download := None;
    if |list.ids| > 0 && pressed {
      download := ExportTable(data, list.ids, hasPopularity);
    }
  }

  /** The table's edit handler: the list becomes the ticked ids, with a rerun when that changes it. */
  method EditTable(list: ProjectList, edited: Option<seq<TableRow>>) returns (rerun: bool)
    modifies list
    ensures edited.None? ==> !rerun && list.ids == old(list.ids)
    ensures edited.Some? ==> list.ids == CheckedIds(edited.value) && (rerun <==> old(list.ids) != CheckedIds(edited.value))
  {
    rerun := false;
    if edited.Some? {
      rerun := list.UpdateFromEditor(edited.value);
    }
  }
}
