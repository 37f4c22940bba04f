# Fontainebleau route finder: a verified model of its core

The route finder is a small web application for bouldering in
Fontainebleau. It loads routes with their grade, steepness, area,
sit-start flag and popularity, and lets a user narrow them with sidebar
filters. It draws the remaining routes on a map with area rectangles and
media popups taken from each route's bleau.info page. It also shows them
in an editable table, where a Project checkbox maintains a session-wide
list of kept routes that can be exported.

This project models the decision logic behind those screens in Dafny and
proves what it promises:

- `grades.dfy` (module `Grades`): the grade codec. It is a fixed two-way
  table between the labels `1a` … `9a` (with `+` grades from 6a to 8c+)
  and the ordinals 0 to 34. The empty label maps to 0, and both lookups
  fall back to a default.
- `html.dfy` (module `Html`): the parsed page as a tree of elements.
  `Find` is the first matching descendant in pre-order, and `FindAll`
  lists every matching descendant in pre-order. A class match is
  membership in the element's class list.
- `media.dfy` (module `Media`): the media scraper for a route's page and
  the popup markup builders.
  - The scraper is an imperative method made of the source's loops and
    breaks. It is proved equal to a specification function
    (`ExtractMedia`), and precedence, shape and URL-repair lemmas are
    proved about that function.
  - The markup builders are functions. The YouTube id extraction has
    string lemmas of its own.
- `ui_components.py` is modelled in module `UiComponents`:
  - the filter, as the source's chain of stages, proved to be a single
    conjunction mask;
  - the project routes;
  - the merge of project routes into the filtered table, its sort and the
    checkbox-driven update;
  - the table's links and image column;
  - the export;
  - the sidebar's grade options and default range;
  - the session's project list, as a class `ProjectList` whose `ids` set
    its methods update in place.
- `map_utils.dfy` (module `MapUtils`): which shapes the area loop adds,
  and what each route marker carries (link, popup media, popup width,
  tooltip). These are imperative loops proved against specification
  functions.
- `app.dfy` (module `App`): the monolithic page script. It covers:
  - its inline filter, proved equal to `ApplyFilters`;
  - the map markers, whose media is fetched only for rows whose index
    label is below 5;
  - the 100-route threshold and the summary shown beyond it;
  - the table, with images up to 10 rows and links without the route-name
    query;
  - the Clear, Export and table-edit handlers on the project list;
  - the Average Grade metric.

  The script's own copies of the scraper, the markup builders and the
  grade codec (app.py:30-214) are the same code as media_fetcher.py and
  grade_utils.py. The model therefore uses the `Media` and `Grades`
  modules for both.
- `wrappers.dfy`, `text.dfy` and `collections.dfy` hold the generic
  helpers used by the modules above:
  - `Option`;
  - prefix and suffix tests, substring search, `split`'s first and last
    pieces, and ASCII lower-casing;
  - order-preserving masks, subsequences, dictionary-literal lookup, a
    stable insertion sort by a comparator, and `map` over a sequence.

The network is a parameter, `page: string -> Fetched`. It maps a URL to
no response, or to a status code and the already-parsed page. Everything
else is deterministic.

## Model

| member | source | states |
|---|---|---|
| Grades.GradeToNumeric | grade_utils.py:1-14 | every label, known or not, maps to an ordinal in 0..34 |
| Grades.TableOrdinals | grade_utils.py:3-13 | the table has 35 entries, the i-th non-empty label has ordinal i+1, and the empty label has ordinal 0 |
| Grades.TableRanks | grade_utils.py:3-13 | each label's place on the Fontainebleau scale, read off its characters, is its ordinal |
| Grades.TablesAgree | grade_utils.py:3-29 | the two dictionary literals list the same 35 pairs, in opposite directions and the same order |
| Grades.GradeToNumericAt | grade_utils.py:3-14 | looking up any label of the table gives that label's own ordinal (no earlier entry shadows it) |
| Grades.NumericToGradeAt | grade_utils.py:19-30 | looking up any ordinal of the table gives that ordinal's own label |
| Grades.LabelRoundTrip | grade_utils.py:1-30 | every table label, the empty one included, survives label → ordinal → label |
| Grades.OrdinalRoundTrip | grade_utils.py:1-30 | every ordinal in 0..34 survives ordinal → label → ordinal |
| Grades.OutOfRangeOrdinal | grade_utils.py:30 | an ordinal outside 0..34 gives the empty label |
| Grades.UnknownLabel | grade_utils.py:14 | a label not in the table ranks 0 |
| Grades.NearMissesRankZero | grade_utils.py:3-14 | `6A`, ` 6a` and `6a ` rank 0: the lookup is exact |
| Grades.Injective | grade_utils.py:3-13 | distinct table labels have distinct ordinals |
| Grades.OrdinalsFollowTableOrder | grade_utils.py:4-12 | ordinals rise strictly along the table's written order of non-empty labels |
| Grades.PlusGradeBetween | grade_utils.py:9 | 6a < 6a+ < 6b |
| Grades.DefaultRangeGrades | grade_utils.py:9-10 | 6a ranks 16 and 7c+ ranks 27 |
| Media.PageUrl | media_fetcher.py:10 | the page address starts with `https://bleau.info/` and ends with `<id>.html` |
| Media.ImageFromTag | media_fetcher.py:79-85 | the in-place image branch equals `ImageOf`: a non-empty `http` source is kept, a `/` source is prefixed, anything else gives no image |
| Media.SourceOf | media_fetcher.py:46-50 | only the first `<source>` counts, and it is taken as an mp4 video exactly when its address is non-empty and ends, ignoring case, in .mp4, .webm or .ogg |
| Media.ScanFrames | media_fetcher.py:31-37 | the frame loop with its break returns the first frame whose address names YouTube, in document order |
| Media.ScanPlayers | media_fetcher.py:42-52 | the video.js loop returns the first player whose first video's first source is playable |
| Media.ScanVideos | media_fetcher.py:55-64 | the fallback loop returns the first video element with a playable first source |
| Media.ScanVideoSection | media_fetcher.py:26-64 | the video search equals `PageVideo`: nothing without a `boulder_mp4s` section, else frames, then players, then videos, each stage only when the earlier ones found nothing |
| Media.ScanPhotoSection | media_fetcher.py:69-97 | the image search equals `PageImage`: only the first photo block of the first photo section, its lightbox image first, else its first image |
| Media.GetMediaFromBleauPage | media_fetcher.py:7-107 | the scraper returns exactly `ExtractMedia`: the video and image searches run on the page independently of each other |
| Media.NothingWithoutPage | media_fetcher.py:9-107 | a missing area name (the swallowed failure), no response or a status other than 200 gives (None, None) |
| Media.ServedPage | media_fetcher.py:20-104 | on a page served with 200, the result is the pair of the page's video and the page's image, so both may be present |
| Media.YouTubeFirst | media_fetcher.py:31-40 | whenever some frame names YouTube, the video is a YouTube one, and it comes from the first such frame |
| Media.YouTubeVideoShape | media_fetcher.py:31-37 | a YouTube result is the `src` of a frame of the section, and that address names YouTube |
| Media.PlayerBeatsVideos | media_fetcher.py:40-64 | without a YouTube frame, when some video.js player has a playable video, the result is the first such player's in document order, ahead of any plain video element |
| Media.Mp4VideoShape | media_fetcher.py:40-64 | an mp4 result has a non-empty address with a playable extension; it is chosen only when no frame names YouTube, and it is the first source of some video element of the section |
| Media.NoVideoExactly | media_fetcher.py:26-64 | no video exactly when no frame names YouTube and no video element has a playable first source (both directions) |
| Media.NoCandidatesNoVideo | media_fetcher.py:26-64 | without a YouTube frame or a playable video element, none of the three stages finds a video |
| Media.NoVideoNoCandidates | media_fetcher.py:26-64 | when no stage finds a video, no frame names YouTube and no video element has a playable first source |
| Media.RepairUrlSpec | media_fetcher.py:82-85 | an `http` source is kept unchanged, a `/` source (including `//host`) gets the site prefix, all others give no image, and a repaired address starts with `http` |
| Media.ImageShape | media_fetcher.py:74-97 | a found image is absolute and is the repair of a non-empty `src` of an image element inside the photo block |
| Media.LinkImageFirst | media_fetcher.py:77-89 | the lightbox link's image, when repairable, wins over every other image element |
| Media.YouTubeIdFromEmbed | media_fetcher.py:127-128 | the id of an embed address contains neither `?` nor the marker, and the address contains the marker immediately followed by the id |
| Media.YouTubeIdFromShortLink | media_fetcher.py:129-130 | the same for `youtu.be/` addresses without an embed marker |
| Media.PieceAfterMarker | media_fetcher.py:128-130 | the text after the last marker up to the first `?` is free of both, and it directly follows an occurrence of the marker |
| Media.YouTubeMarkupShowsId | media_fetcher.py:134-137 | the YouTube markup contains `https://www.youtube.com/embed/<id>` |
| Media.EmbedIdExample | media_fetcher.py:126-128 | the id of `https://host/youtube.com/embed/ABC123?x=1` is `ABC123` |
| Media.BareEmbedAddressUsedWhole | media_fetcher.py:131-132 | an address with neither marker (`https://host/embed/ABC123?x=1`) is used whole as the id |
| Media.CreateVideoHtml | media_fetcher.py:110-146 | "" for no video and for a kind other than mp4 or youtube; mp4 markup contains `src="<url>"`; YouTube markup contains `src="https://www.youtube.com/embed/<id>"` |
| Media.CreateImageHtml | media_fetcher.py:149-163 | "" for no image; otherwise the markup contains `src="<url>"` |
| MapUtils.AreaColor | map_utils.py:45-47 | priorities 1..6 get the colour list in order, higher ones purple, 0 down to -5 index from the end of the list, and the colour is always in the list |
| MapUtils.BooleanPriorities | map_utils.py:45-47 | a JSON `true` priority (Python's 1) is red and `false` (0) is purple |
| MapUtils.MissingPriorityIsRed | map_utils.py:45 | a bounded area without a priority is a red rectangle |
| MapUtils.AreaShape | map_utils.py:30 | a feature gives a shape exactly when it is a Point |
| MapUtils.PointShapes | map_utils.py:30-91 | one shape per point feature, each that feature's own shape |
| MapUtils.PointShapeCases | map_utils.py:30-91 | a rectangle exactly when the four bounds are present and parse and the priority is missing, an integer, or a float above 6; it spans the parsed corners in the priority's colour (missing counts as 1, such a float gives purple); otherwise a marker at (coordinates[1], coordinates[0]); the area name is the tooltip |
| MapUtils.AreaShapesOfPoints | map_utils.py:25-91 | the area layer holds one shape per Point feature in feature order, and nothing for other geometries |
| MapUtils.DrawAreas | map_utils.py:25-91 | the feature loop appends exactly `AreaShapes` |
| MapUtils.PopupMediaShows | map_utils.py:109-120 | the popup carries the mp4 address, the YouTube embed address of the id, or the image address, in that precedence; otherwise the placeholder |
| MapUtils.RouteMarkerOf | map_utils.py:103-139 | a marker at the route's position, linking to `PageUrl(area, id)`, with tooltip `name (grade)`; its popup is 500 wide exactly when the page gave a video or an image, else 300 wide with the placeholder text |
| MapUtils.RouteMarkers | map_utils.py:103-139 | one marker per row, in row order, each that row's marker |
| MapUtils.DrawRoute | map_utils.py:104-139 | the loop body builds exactly `RouteMarkerOf` from the scraper's result |
| MapUtils.DrawRoutes | map_utils.py:103-139 | the route loop appends exactly `RouteMarkers` |
| MapUtils.MapOf | map_utils.py:22-139 | the area layer and the layer control are present exactly when there is an areas collection and the option is on, with one route marker per row |
| MapUtils.CreateMapWithAreas | map_utils.py:12-141 | the drawing procedure produces exactly `MapOf` |
| UiComponents.AddGradeColumn | app.py:219 | the `grade_numeric` column is each route's ordinal (0..34), with every other field unchanged |
| UiComponents.GradeStage | ui_components.py:128-131 | a route is kept exactly when it is in the table and its ordinal lies in the inclusive range |
| UiComponents.SteepnessStage | ui_components.py:133-134 | an empty selection keeps everything; otherwise the routes whose steepness is selected |
| UiComponents.AreaStage | ui_components.py:136-137 | an empty selection keeps everything; otherwise the routes with a selected area name (never a route without one) |
| UiComponents.StartStage | ui_components.py:139-142 | sit start only keeps flag 1, standing start only keeps flag 0, any other option keeps all |
| UiComponents.PopularityStage | ui_components.py:144-148 | no range keeps all; otherwise the inclusive popularity range |
| UiComponents.ApplyFilters | ui_components.py:123-150 | a route is kept exactly when it is in the table and passes every axis |
| UiComponents.ApplyFiltersIsOneMask | ui_components.py:123-150 | the stage chain equals a single mask of the conjunction, in the original order |
| UiComponents.FilterIsSubsequence | ui_components.py:123-150 | the result is a subsequence of the input (no reordering, no repeats) |
| UiComponents.FilterIdempotent | ui_components.py:123-150 | filtering a filtered table again with the same settings changes nothing |
| UiComponents.GradeRangeRespected | ui_components.py:128-131 | every kept route lies in the grade range, and an inverted range keeps nothing |
| UiComponents.OpenSettingsFilterByGradeOnly | ui_components.py:123-150 | with no selections, all start types and no popularity bound, only the grade range narrows |
| UiComponents.OpenFullRangeIsIdentity | ui_components.py:123-150 | with open settings and the whole grade range 0..34, a graded table comes back unchanged, in order |
| UiComponents.StartTypeModes | ui_components.py:139-142 | the two start options are "All" narrowed to flag 1 and flag 0; any other option equals "All" |
| UiComponents.FullSteepnessSelection | ui_components.py:133-134 | selecting every steepness that occurs is the same as selecting none |
| UiComponents.GetProjectRoutes | ui_components.py:116-120 | empty for an empty project set; otherwise exactly the routes whose id is a project, in data order |
| UiComponents.ProjectRouteIds | ui_components.py:116-120 | the ids of the project routes are the project ids that some route has |
| UiComponents.Flagged | ui_components.py:159-160 | one row per route with the same checkbox value, and the row ids are the route ids |
| UiComponents.Marked | ui_components.py:163-164 | each route ticked exactly when its id is a project |
| UiComponents.WithoutIds | ui_components.py:169 | the rows whose id is not among the given ids, and their ids are the rest |
| UiComponents.RowIdsConcat | ui_components.py:167-170 | the ids of a concatenation are the union of the ids |
| UiComponents.DropDuplicateIds | ui_components.py:170 | the result is a subsequence of the input (order kept), loses no id, and leaves no id twice |
| UiComponents.DropKeepsFirst | ui_components.py:170 | the row in which an id first appears is the one that survives (`keep='first'`) |
| UiComponents.CombinedIds | ui_components.py:156-173 | the table shows the filtered ids together with the project ids present in the data |
| UiComponents.CombinedFlags | ui_components.py:156-173 | a row is ticked exactly when its id is a project |
| UiComponents.CombinedUnique | ui_components.py:167-170 | with a project route in the data, every id appears once |
| UiComponents.CombinedFromSources | ui_components.py:156-173 | every row is a filtered route or a project route of the data |
| UiComponents.ProjectsFirstIsPreorder | ui_components.py:180 | "project first, then more popular" is a total preorder |
| UiComponents.EditorRowsOrdered | ui_components.py:179-180 | the displayed table is a permutation of the combined rows, sorted project-first then by falling popularity, with no project row below a non-project row |
| UiComponents.CheckedIdsOfPermutation | ui_components.py:262 | reordering the rows keeps the ticked ids |
| UiComponents.CombinedCheckedIds | ui_components.py:156-173 | the combined rows tick exactly the project ids present in the data |
| UiComponents.UntouchedTableKeepsProjects | ui_components.py:156-262 | an unedited table hands back the project ids present in the data |
| UiComponents.ProjectList.constructor | app.py:222-223 | a new session's project list is empty |
| UiComponents.ProjectList.Clear | ui_components.py:74 | the list becomes empty |
| UiComponents.ProjectList.UpdateFromEditor | ui_components.py:260-267 | the list becomes the ticked ids of the edited table, and a rerun is requested exactly when that changes it |
| UiComponents.UpdateUntouched | ui_components.py:156-267 | redrawing an unedited table whose projects all exist requests no rerun and leaves the list unchanged |
| UiComponents.ImageCell | ui_components.py:187-201 | no image past the row limit; within it, an image exactly when the route's page has one, and then that image's address |
| UiComponents.DisplayedAreasKnown | ui_components.py:179-185 | every displayed row has an area name, so every link can be built |
| UiComponents.CreateDataTableShape | ui_components.py:183-204 | in the module's table every link carries `?route_name=<name>`; above 100 rows no image is shown, otherwise each route's image exactly when its page has one |
| UiComponents.ExportColumns | ui_components.py:82-84 | name, grade, steepness, area, then `popularity` as the fifth column exactly when the table has it |
| UiComponents.ExportHeaderOrder | ui_components.py:82-96 | the header is Route Name, Grade, Steepness, Area, and then Popularity when present |
| UiComponents.ExportOrdersArePreorders | ui_components.py:98-102 | falling popularity and route-name order are total preorders |
| UiComponents.ExportRecords | ui_components.py:86 | one line per project route, in table order |
| UiComponents.ExportPresent | ui_components.py:79-80 | there is an export exactly when some route of the data is a project |
| UiComponents.ExportContents | ui_components.py:79-102 | the exported lines are a permutation of the project routes' lines, sorted by falling popularity, or by name without that column |
| UiComponents.NonEmptyGrades | ui_components.py:16 | exactly the non-empty grades that occur, none when every grade is empty |
| UiComponents.GradeOrderIsPreorder | ui_components.py:16 | ordering by ordinal is a total preorder |
| UiComponents.GradeOptionsSpec | ui_components.py:16 | each non-empty grade of the data is offered exactly once, and the options climb the scale |
| UiComponents.DefaultGradeRange | ui_components.py:17-35 | (0, 34) when no grade is offered |
| UiComponents.DefaultGradeRangeUsual | ui_components.py:20-33 | with 6a and 7c+ offered, the range starts as (16, 27) |
| UiComponents.NoGradesKeepsAll | ui_components.py:34-35 | without graded routes the range is the whole scale, so the grade axis keeps every route |
| App.FilterRoutes | app.py:324-347 | the inline filter block equals `ApplyFilters` and keeps exactly the routes passing every axis |
| App.PageMarkerOf | app.py:362-401 | the marker links to the route's page at its position, and past the budget it has no media and width 300 |
| App.NoFetchPastBudget | app.py:371-373 | a row whose index label is 5 or more does not depend on its page at all |
| App.WithinBudgetAsMapModule | app.py:362-401 | within the budget the page's marker is the map module's marker, except that an empty popup stays empty instead of showing the placeholder |
| App.DrawPageRoute | app.py:364-401 | the loop body builds exactly `PageMarkerOf` |
| App.PageMarkers | app.py:362-401 | one marker per filtered row, in order |
| App.DrawPageMarkers | app.py:362-401 | the marker loop appends exactly `PageMarkers` |
| App.TruncatedQuotient | app.py:552 | Python's `int()` of a quotient rounds toward zero: for a non-negative total q·b ≤ a < q·b + b, for a negative one q·b − b < a ≤ q·b |
| App.MeanOrdinalInRange | app.py:551 | with the grade column filled in, the total is non-negative and the mean lies in 0..34 |
| App.AverageGradeIsTableGrade | app.py:551-552 | the metric is the grade of the floor of the mean, a real table grade that leads back to that ordinal |
| App.SummaryAverage | app.py:548-552 | the summary counts the rows; its average grade is "N/A" for no routes, else a label whose ordinal is the floor of the mean ordinal |
| App.ShowResults | app.py:350-559 | up to 100 filtered routes show the page's markers and the table (bare links, images up to 10 rows); otherwise only the summary |
| App.PageImagesUpToTen | app.py:438-455 | a table longer than 10 rows shows no image; a shorter one shows each route's image exactly when its page has one |
| App.InitProjectList | app.py:222-223 | an existing list is kept unchanged, else a new empty one is made |
| App.ClearButton | app.py:280-283 | a rerun happens exactly when the list is non-empty and the button is pressed, and then the list is empty; otherwise it is unchanged |
| App.ExportButton | app.py:280-321 | pressed, the download is the export of the project routes (none for an empty list); unpressed, none |
| App.EditTable | app.py:514-521 | no edit changes nothing; an edit sets the list to the ticked ids, with a rerun exactly when that changes it |

## Left out

- The HTTP request, its headers and timeout, and the HTML parser are not
  modelled. A fetch is a parameter that returns either no response
  (connection failure or timeout, which the source swallows) or a status
  and a parsed tree.
- The one-hour result cache is not modelled. It depends on the clock and
  does not change any result.
- Streamlit widgets, `st.rerun` and the data editor are left out; a
  rerun request is a returned flag. folium and st_folium rendering are
  left out as well, and drawing is the list of shapes and markers that
  would be added.
- data_loader.py is not part of this model. It holds the SQLite and
  GeoJSON loading and the pandas merge.
- Floating point is left out: the map centre as a mean of coordinates,
  the formatting of the average popularity, and `float()` parsing of the
  bounding-box fields. The parsing is abstracted as a value that parses
  to a number or is rejected.
- CSV serialisation and the timestamped file name of the export are not
  modelled. The export is its header and its records.
- `print` logging, the data editor's display-text regular expression and
  the column renaming of the displayed table are not modelled.
- MapUtils.AreaColor: it requires a priority of at least -5. Priorities 0
  to -5 are modelled with Python's negative indexing. Below -5 the source
  raises an uncaught `IndexError`, which is not reproduced.
- MapUtils.Drawable: a Point needs two coordinates. With fewer, the source
  raises an uncaught `IndexError` before its `try`, which is not
  reproduced.
- MapUtils.Feature: every feature has a name, properties and a
  geometry. In the source a missing `properties` or `geometry` key, or a
  Point without `properties['name']`, raises an uncaught `KeyError`
  (map_utils.py:26-27, 58-89), which is not reproduced.
- MapUtils.Priority: a floating-point priority is a real number, so NaN is
  not represented. In the source, NaN gives `TypeError` and hence a
  marker.
- MapUtils.CreateMapWithAreas: it requires every route to have an area
  name. In the source, a missing area name in the route loop raises an
  uncaught error, and so do the table link and the page's marker loop.
  App.ShowResults and UiComponents.DataTable carry the same requirement.
- MapUtils.PointShape: the area popups' HTML text, the marker icon and
  the rectangle's styling are not modelled. Only the tooltip, position,
  corners and colour are.
- MapUtils.RouteMarkerOf: the popup's route header (name, area,
  steepness, popularity) is not modelled. The popup is represented by its
  media fragment and its width.
- UiComponents.ExportContents and UiComponents.EditorRowsOrdered: the
  model's sort is stable, but the contracts claim only a sorted
  permutation, because pandas' `sort_values` does not promise stability.
- UiComponents.CombinedUnique: it is stated only when some project route
  exists. Without one, the table is the filtered routes as given, and the
  filtered data's ids are not known to be distinct.
- Text.Lower: it lower-cases only A-Z. Python's `str.lower` also folds
  non-ASCII letters.
- App.DrawPageMarkers and MapUtils.DrawRoutes: because the fetch is a
  pure function, the order and number of requests are not observable.
  Only which rows' pages can influence a marker is stated
  (App.NoFetchPastBudget).
- UiComponents.Filters: a popularity range that is present always
  narrows the table. The sidebar's slider always returns a non-empty
  pair, which is truthy, so "no range" only models a falsy value.
- The YouTube id of an address such as `https://host/embed/ABC123?x=1`
  is the whole address, because it contains neither `youtube.com/embed/`
  nor `youtu.be/` (Media.BareEmbedAddressUsedWhole). The code is
  followed here, not the reading that would extract `ABC123`.
- Media is fetched on the page's map for rows whose index label in the
  loaded table is below 5, not for the first five displayed rows. The
  model keeps the index label (`Route.index`).
