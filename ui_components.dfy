/**
 * The route table side of the application: the sidebar's grade defaults,
 * the route filter, the project list (the set of route ids a user keeps)
 * and how it is merged into, sorted in and updated from the editable
 * table, and the project export.
 */
module UiComponents {
  import opened Wrappers
  import opened Text
  import opened Collections
  import opened Grades
  import opened Media

  /**
   * A route record as the table holds it. `area` is None where the area
   * name is missing; `gradeNumeric` is the `grade_numeric` column; `index`
   * is the record's index label in the loaded table.
   */
  datatype Route = Route(
    id: string, name: string, grade: string, gradeNumeric: int, steepness: string, sitStart: int,
    popularity: int, latitude: real, longitude: real, area: Option<string>, index: int)

  /** Every route's `grade_numeric` column holds the ordinal of its grade. */
  predicate Graded(rows: seq<Route>)
  {
    forall x :: x in rows ==> x.gradeNumeric == GradeToNumeric(x.grade)
  }

  /** The `grade_numeric` column added to the loaded table: each route's ordinal, nothing else changed. */
  function AddGradeColumn(rows: seq<Route>): (r: seq<Route>)
    ensures |r| == |rows| && Graded(r)
    ensures forall i :: 0 <= i < |r| ==> r[i].(gradeNumeric := rows[i].gradeNumeric) == rows[i]
    ensures forall x :: x in r ==> 0 <= x.gradeNumeric <= MaxOrdinal
  {
    var r := seq(|rows|, i requires 0 <= i < |rows| => rows[i].(gradeNumeric := GradeToNumeric(rows[i].grade)));
    assert forall x :: x in r ==> exists i :: 0 <= i < |rows| && x == rows[i].(gradeNumeric := GradeToNumeric(rows[i].grade));
    r
  }

  // ---------------------------------------------------------------- filters

  const SitStartOnly := "Sit Start Only"
  const StandingStartOnly := "Standing Start Only"

  /**
   * The filter settings: an inclusive grade-ordinal range, the selected
   * steepness labels and area names (empty means no filtering on that
   * axis), the start-type option and the inclusive popularity range
   * (None when the slider value is falsy).
   */
  datatype Filters = Filters(
    gradeRange: (int, int), steepness: seq<string>, areas: seq<string>,
    sitStartOption: string, popularity: Option<(int, int)>)

  predicate InGradeRange(r: Route, range: (int, int))
  {
    range.0 <= r.gradeNumeric <= range.1
  }

  predicate SteepnessAllowed(r: Route, selected: seq<string>)
  {
    selected == [] || r.steepness in selected
  }

  /** A route without an area name is never in a non-empty selection. */
  predicate AreaAllowed(r: Route, selected: seq<string>)
  {
    selected == [] || (r.area.Some? && r.area.value in selected)
  }

  predicate StartTypeAllowed(r: Route, option: string)
  {
    if option == SitStartOnly then r.sitStart == 1
    else if option == StandingStartOnly then r.sitStart == 0
    else true
  }

  predicate PopularityAllowed(r: Route, range: Option<(int, int)>)
  {
    range.None? || range.value.0 <= r.popularity <= range.value.1
  }

  /** The filter as one predicate: a route passes every axis. */
  predicate Accepts(f: Filters, r: Route)
  {
    && InGradeRange(r, f.gradeRange)
    && SteepnessAllowed(r, f.steepness)
    && AreaAllowed(r, f.areas)
    && StartTypeAllowed(r, f.sitStartOption)
    && PopularityAllowed(r, f.popularity)
  }

  function AcceptsMask(f: Filters): Route -> bool
  {
    (r: Route) => Accepts(f, r)
  }

  function GradeMask(range: (int, int)): Route -> bool
  {
    (r: Route) => InGradeRange(r, range)
  }

  function SteepnessMask(selected: seq<string>): Route -> bool
  {
    (r: Route) => SteepnessAllowed(r, selected)
  }

  function AreaMask(selected: seq<string>): Route -> bool
  {
    (r: Route) => AreaAllowed(r, selected)
  }

  function StartTypeMask(option: string): Route -> bool
  {
    (r: Route) => StartTypeAllowed(r, option)
  }

  function PopularityMask(range: Option<(int, int)>): Route -> bool
  {
    (r: Route) => PopularityAllowed(r, range)
  }

  /*
   * The stages of `apply_filters`, each as the source writes it: an
   * optional axis narrows the table only when its setting is given.
   */

  function GradeStage(rows: seq<Route>, range: (int, int)): (r: seq<Route>)
    ensures forall x :: x in r <==> x in rows && range.0 <= x.gradeNumeric <= range.1
  {
    Keep(rows, GradeMask(range))
  }

  function SteepnessStage(rows: seq<Route>, selected: seq<string>): (r: seq<Route>)
    ensures r == Keep(rows, SteepnessMask(selected))
  {
    var inSelection := (x: Route) => x.steepness in selected;
    KeepWhenActive(rows, selected != [], inSelection, SteepnessMask(selected));
    if selected != [] then Keep(rows, inSelection) else rows
  }

  function AreaStage(rows: seq<Route>, selected: seq<string>): (r: seq<Route>)
    ensures r == Keep(rows, AreaMask(selected))
  {
    var inSelection := (x: Route) => x.area.Some? && x.area.value in selected;
    KeepWhenActive(rows, selected != [], inSelection, AreaMask(selected));
    if selected != [] then Keep(rows, inSelection) else rows
  }

  function StartStage(rows: seq<Route>, option: string): (r: seq<Route>)
    ensures r == Keep(rows, StartTypeMask(option))
  {
    var sit := (x: Route) => x.sitStart == 1;
    var standing := (x: Route) => x.sitStart == 0;
    if option == SitStartOnly then
      KeepSameMask(rows, sit, StartTypeMask(option));
      Keep(rows, sit)
    else if option == StandingStartOnly then
      KeepSameMask(rows, standing, StartTypeMask(option));
      Keep(rows, standing)
    else
      KeepEverything(rows, StartTypeMask(option));
      rows
  }

  function PopularityStage(rows: seq<Route>, range: Option<(int, int)>): (r: seq<Route>)
    ensures r == Keep(rows, PopularityMask(range))
  {
    if range.Some? then
      var inRange := (x: Route) => range.value.0 <= x.popularity && x.popularity <= range.value.1;
      KeepSameMask(rows, inRange, PopularityMask(range));
      Keep(rows, inRange)
    else
      KeepEverything(rows, PopularityMask(range));
      rows
  }

  /** `apply_filters`: the table narrowed one axis after another. */
  function ApplyFilters(rows: seq<Route>, f: Filters): (r: seq<Route>)
    ensures forall x :: x in r <==> x in rows && Accepts(f, x)
  {
    var byGrade := GradeStage(rows, f.gradeRange);
    var bySteepness := SteepnessStage(byGrade, f.steepness);
    var byArea := AreaStage(bySteepness, f.areas);
    var byStart := StartStage(byArea, f.sitStartOption);
    PopularityStage(byStart, f.popularity)
  }

  /** The step-by-step filter is one mask over the table: the routes that pass every axis, in their original order. */
  lemma ApplyFiltersIsOneMask(rows: seq<Route>, f: Filters)
    ensures ApplyFilters(rows, f) == Keep(rows, AcceptsMask(f))
  {
    var g := GradeMask(f.gradeRange);
    var gs := (x: Route) => g(x) && SteepnessMask(f.steepness)(x);
    var gsa := (x: Route) => gs(x) && AreaMask(f.areas)(x);
    var gsat := (x: Route) => gsa(x) && StartTypeMask(f.sitStartOption)(x);
    var bySteepness := SteepnessStage(GradeStage(rows, f.gradeRange), f.steepness);
    assert bySteepness == Keep(rows, gs) by {
      KeepThenKeep(rows, g, SteepnessMask(f.steepness), gs);
    }
    var byArea := AreaStage(bySteepness, f.areas);
    assert byArea == Keep(rows, gsa) by {
      KeepThenKeep(rows, gs, AreaMask(f.areas), gsa);
    }
    var byStart := StartStage(byArea, f.sitStartOption);
    assert byStart == Keep(rows, gsat) by {
      KeepThenKeep(rows, gsa, StartTypeMask(f.sitStartOption), gsat);
    }
    assert PopularityStage(byStart, f.popularity) == Keep(rows, AcceptsMask(f)) by {
      KeepThenKeep(rows, gsat, PopularityMask(f.popularity), AcceptsMask(f));
    }
  }

  /** The filter leaves routes out but never reorders or repeats them. */
  lemma FilterIsSubsequence(rows: seq<Route>, f: Filters)
    ensures IsSubsequence(ApplyFilters(rows, f), rows)
    ensures |ApplyFilters(rows, f)| <= |rows|
  {
    ApplyFiltersIsOneMask(rows, f);
    KeepIsSubsequence(rows, AcceptsMask(f));
  }

  /** Filtering a filtered table again with the same settings changes nothing. */
  lemma FilterIdempotent(rows: seq<Route>, f: Filters)
    ensures ApplyFilters(ApplyFilters(rows, f), f) == ApplyFilters(rows, f)
  {
    ApplyFiltersIsOneMask(rows, f);
    ApplyFiltersIsOneMask(ApplyFilters(rows, f), f);
    KeepIdempotent(rows, AcceptsMask(f));
  }

  /** Every kept route lies in the grade range; an inverted range keeps nothing. */
  lemma GradeRangeRespected(rows: seq<Route>, f: Filters)
    ensures forall x :: x in ApplyFilters(rows, f) ==> f.gradeRange.0 <= x.gradeNumeric <= f.gradeRange.1
    ensures f.gradeRange.0 > f.gradeRange.1 ==> ApplyFilters(rows, f) == []
  {
  }

  /**
   * The settings the sidebar starts from apart from the grade range (no
   * steepness or area selection, every start type, no popularity bound)
   * narrow by grade alone.
   */
  lemma OpenSettingsFilterByGradeOnly(rows: seq<Route>, range: (int, int))
    ensures ApplyFilters(rows, Filters(range, [], [], "All", None)) == Keep(rows, GradeMask(range))
  {
    var f := Filters(range, [], [], "All", None);
    ApplyFiltersIsOneMask(rows, f);
    KeepSameMask(rows, AcceptsMask(f), GradeMask(range));
  }

  /** With open settings and the whole grade scale, a graded table is returned unchanged, in order. */
  lemma OpenFullRangeIsIdentity(rows: seq<Route>)
    requires Graded(rows)
    ensures ApplyFilters(rows, Filters((0, MaxOrdinal), [], [], "All", None)) == rows
  {
    OpenSettingsFilterByGradeOnly(rows, (0, MaxOrdinal));
    forall x | x in rows ensures GradeMask((0, MaxOrdinal))(x) {
      assert x.gradeNumeric == GradeToNumeric(x.grade);
    }
    KeepEverything(rows, GradeMask((0, MaxOrdinal)));
  }

  /**
   * "Sit Start Only" and "Standing Start Only" narrow what "All" keeps to
   * the sit-start flag 1 and 0; any other option keeps what "All" keeps.
   */
  lemma StartTypeModes(rows: seq<Route>, f: Filters)
    ensures ApplyFilters(rows, f.(sitStartOption := SitStartOnly))
      == Keep(ApplyFilters(rows, f.(sitStartOption := "All")), (x: Route) => x.sitStart == 1)
    ensures ApplyFilters(rows, f.(sitStartOption := StandingStartOnly))
      == Keep(ApplyFilters(rows, f.(sitStartOption := "All")), (x: Route) => x.sitStart == 0)
    ensures f.sitStartOption != SitStartOnly && f.sitStartOption != StandingStartOnly ==>
      ApplyFilters(rows, f) == ApplyFilters(rows, f.(sitStartOption := "All"))
  {
    var all := f.(sitStartOption := "All");
    ApplyFiltersIsOneMask(rows, all);
    var sit := f.(sitStartOption := SitStartOnly);
    ApplyFiltersIsOneMask(rows, sit);
    KeepThenKeep(rows, AcceptsMask(all), (x: Route) => x.sitStart == 1, AcceptsMask(sit));
    var stand := f.(sitStartOption := StandingStartOnly);
    ApplyFiltersIsOneMask(rows, stand);
    KeepThenKeep(rows, AcceptsMask(all), (x: Route) => x.sitStart == 0, AcceptsMask(stand));
    if f.sitStartOption != SitStartOnly && f.sitStartOption != StandingStartOnly {
      ApplyFiltersIsOneMask(rows, f);
      KeepSameMask(rows, AcceptsMask(f), AcceptsMask(all));
    }
  }

  /** Selecting every steepness label that occurs is the same as selecting none. */
  lemma FullSteepnessSelection(rows: seq<Route>, f: Filters)
    requires forall x :: x in rows ==> x.steepness in f.steepness
    ensures ApplyFilters(rows, f) == ApplyFilters(rows, f.(steepness := []))
  {
    ApplyFiltersIsOneMask(rows, f);
    ApplyFiltersIsOneMask(rows, f.(steepness := []));
    KeepSameMask(rows, AcceptsMask(f), AcceptsMask(f.(steepness := [])));
  }

  // --------------------------------------------------------- project list

  /** `get_project_routes`: nothing for an empty project set, else every route whose id is in it. */
  function GetProjectRoutes(data: seq<Route>, projects: set<string>): (r: seq<Route>)
    ensures projects == {} ==> r == []
    ensures forall x :: x in r <==> x in data && x.id in projects
    ensures IsSubsequence(r, data)
  {
    if projects == {} then []
    else
      KeepIsSubsequence(data, (x: Route) => x.id in projects);
      Keep(data, (x: Route) => x.id in projects)
  }

  function Ids(rows: seq<Route>): set<string>
  {
    set x | x in rows :: x.id
  }

  /** A row of the editable table: a route and its Project checkbox. */
  datatype TableRow = TableRow(route: Route, isProject: bool)

  function RowIds(rows: seq<TableRow>): set<string>
  {
    set x | x in rows :: x.route.id
  }

  predicate NoDuplicateIds(rows: seq<TableRow>)
  {
    forall i, j :: 0 <= i < j < |rows| ==> rows[i].route.id != rows[j].route.id
  }

  /** The project routes found in the data carry exactly the project ids that some route has. */
  lemma ProjectRouteIds(data: seq<Route>, projects: set<string>)
    ensures Ids(GetProjectRoutes(data, projects)) == projects * Ids(data)
  {
    var projectRoutes := GetProjectRoutes(data, projects);
    forall id | id in projects * Ids(data) ensures id in Ids(projectRoutes) {
      var x :| x in data && x.id == id;
      assert x in projectRoutes;
    }
  }

  /** Every route with the same checkbox value. */
  function Flagged(routes: seq<Route>, flag: bool): (r: seq<TableRow>)
    ensures |r| == |routes|
    ensures forall i :: 0 <= i < |r| ==> r[i] == TableRow(routes[i], flag)
    ensures RowIds(r) == Ids(routes)
  {
    var r := seq(|routes|, i requires 0 <= i < |routes| => TableRow(routes[i], flag));
    assert forall x :: x in routes ==> exists i :: 0 <= i < |routes| && routes[i] == x && r[i] in r;
    r
  }

  /** Every route with its checkbox ticked exactly when its id is a project. */
  function Marked(routes: seq<Route>, projects: set<string>): (r: seq<TableRow>)
    ensures |r| == |routes|
    ensures forall i :: 0 <= i < |r| ==> r[i] == TableRow(routes[i], routes[i].id in projects)
    ensures RowIds(r) == Ids(routes)
  {
    var r := seq(|routes|, i requires 0 <= i < |routes| => TableRow(routes[i], routes[i].id in projects));
    assert forall x :: x in routes ==> exists i :: 0 <= i < |routes| && routes[i] == x && r[i] in r;
    r
  }

  /** The rows whose id is not among `ids` (`~isin(ids)`), in order. */
  function WithoutIds(rows: seq<TableRow>, ids: set<string>): (r: seq<TableRow>)
    ensures forall x :: x in r <==> x in rows && x.route.id !in ids
    ensures RowIds(r) == RowIds(rows) - ids
  {
    Keep(rows, (x: TableRow) => x.route.id !in ids)
  }

  lemma RowIdsConcat(a: seq<TableRow>, b: seq<TableRow>)
    ensures RowIds(a + b) == RowIds(a) + RowIds(b)
  {
    assert forall x :: x in a + b <==> x in a || x in b;
  }

  /** pandas' `drop_duplicates(subset=['bleau_info_id'])`: the first row of each id, in order. */
  function DropDuplicateIds(rows: seq<TableRow>): (r: seq<TableRow>)
    ensures forall x :: x in r ==> x in rows
    ensures IsSubsequence(r, rows)
    ensures RowIds(r) == RowIds(rows)
    ensures NoDuplicateIds(r)
    decreases |rows|
  {
    if rows == [] then []
    else
      var front := rows[..|rows| - 1];
      var last := rows[|rows| - 1];
      var rest := DropDuplicateIds(front);
      assert rows == front + [last];
      assert RowIds(rows) == RowIds(front) + {last.route.id};
      SubsequenceExtend(rest, front, last);
      if last.route.id in RowIds(rest) then rest
      else
        var r := rest + [last];
        assert RowIds(r) == RowIds(rest) + {last.route.id};
        assert forall i :: 0 <= i < |rest| ==> rest[i].route.id in RowIds(rest);
        r
  }

  /** The row an id first appears in is the one that survives (`keep='first'`). */
  lemma {:induction false} DropKeepsFirst(rows: seq<TableRow>)
    ensures forall k :: 0 <= k < |rows| && (forall j :: 0 <= j < k ==> rows[j].route.id != rows[k].route.id) ==>
      rows[k] in DropDuplicateIds(rows)
    decreases |rows|
  {
    if rows != [] {
      var front := rows[..|rows| - 1];
      var last := rows[|rows| - 1];
      DropKeepsFirst(front);
      DropKeepsEarlier(rows);
      forall k | 0 <= k < |rows| && (forall j :: 0 <= j < k ==> rows[j].route.id != rows[k].route.id)
        ensures rows[k] in DropDuplicateIds(rows)
      {
        if k < |front| {
          assert front[k] == rows[k];
          assert forall j :: 0 <= j < k ==> front[j].route.id != front[k].route.id;
          assert front[k] in DropDuplicateIds(front);
        } else {
          assert rows[k] == last;
          DropKeepsNewLast(rows);
        }
      }
    }
  }

  /** What survives of all rows but the last also survives of all the rows. */
  lemma DropKeepsEarlier(rows: seq<TableRow>)
    requires rows != []
    ensures forall x :: x in DropDuplicateIds(rows[..|rows| - 1]) ==> x in DropDuplicateIds(rows)
  {
  }

  /** A last row whose id no earlier row has is appended. */
  lemma DropKeepsNewLast(rows: seq<TableRow>)
    requires rows != []
    requires forall j :: 0 <= j < |rows| - 1 ==> rows[j].route.id != rows[|rows| - 1].route.id
    ensures DropDuplicateIds(rows) == DropDuplicateIds(rows[..|rows| - 1]) + [rows[|rows| - 1]]
  {
    var front, last := rows[..|rows| - 1], rows[|rows| - 1];
    forall x | x in front
      ensures x.route.id != last.route.id
    {
      var j :| 0 <= j < |front| && front[j] == x;
    }
    assert last.route.id !in RowIds(front);
    assert last.route.id !in RowIds(DropDuplicateIds(front));
  }

  /**
   * The rows of the editable table: the project routes ticked, followed by
   * the filtered routes that are not among them, each once; or the
   * filtered routes unticked when no route is a project.
   */
  function CombinedRows(filtered: seq<Route>, data: seq<Route>, projects: set<string>): seq<TableRow>
  {
    var projectRoutes := GetProjectRoutes(data, projects);
    if projectRoutes != [] then
      DropDuplicateIds(Flagged(projectRoutes, true) + WithoutIds(Marked(filtered, projects), Ids(projectRoutes)))
    else Flagged(filtered, false)
  }

  /** What the table shows: the filtered routes together with the project routes present in the data. */
  lemma CombinedIds(filtered: seq<Route>, data: seq<Route>, projects: set<string>)
    ensures RowIds(CombinedRows(filtered, data, projects)) == Ids(filtered) + (projects * Ids(data))
  {
    var projectRoutes := GetProjectRoutes(data, projects);
    ProjectRouteIds(data, projects);
    if projectRoutes != [] {
      RowIdsConcat(Flagged(projectRoutes, true), WithoutIds(Marked(filtered, projects), Ids(projectRoutes)));
    }
  }

  /**
   * When the filtered routes come from the data, a row's checkbox is
   * ticked exactly when its id is a project.
   */
  lemma CombinedFlags(filtered: seq<Route>, data: seq<Route>, projects: set<string>)
    requires Ids(filtered) <= Ids(data)
    ensures forall x :: x in CombinedRows(filtered, data, projects) ==> (x.isProject <==> x.route.id in projects)
  {
    var projectRoutes := GetProjectRoutes(data, projects);
    var combined := CombinedRows(filtered, data, projects);
    if projectRoutes != [] {
      var marked := Marked(filtered, projects);
      var flagged := Flagged(projectRoutes, true);
      forall x: TableRow | x in flagged + WithoutIds(marked, Ids(projectRoutes)) ensures x.isProject <==> x.route.id in projects {
        if x in flagged {
          var i :| 0 <= i < |flagged| && flagged[i] == x;
          assert projectRoutes[i] in projectRoutes;
        } else {
          var i :| 0 <= i < |marked| && marked[i] == x;
        }
      }
    } else {
      ProjectRouteIds(data, projects);
      forall x: TableRow | x in combined ensures !x.isProject && x.route.id !in projects {
        var i :| 0 <= i < |combined| && combined[i] == x;
        assert filtered[i].id in Ids(filtered);
      }
    }
  }

  /** With a project route in the data, every id appears once in the table. */
  lemma CombinedUnique(filtered: seq<Route>, data: seq<Route>, projects: set<string>)
    requires GetProjectRoutes(data, projects) != []
    ensures NoDuplicateIds(CombinedRows(filtered, data, projects))
  {
  }

  /** Projects first, then the more popular route first. */
  predicate ProjectsFirst(a: TableRow, b: TableRow)
  {
    (a.isProject && !b.isProject) || (a.isProject == b.isProject && a.route.popularity >= b.route.popularity)
  }

  lemma ProjectsFirstIsPreorder()
    ensures TotalPreorder(ProjectsFirst)
  {
  }

  /** No project row comes after a non-project row. */
  predicate ProjectsOnTop(rows: seq<TableRow>)
  {
    forall i, j :: 0 <= i < j < |rows| && rows[j].isProject ==> rows[i].isProject
  }

  /** The table as displayed: the combined rows sorted by project flag, then popularity, both descending. */
  function EditorRows(filtered: seq<Route>, data: seq<Route>, projects: set<string>): seq<TableRow>
  {
    SortBy(CombinedRows(filtered, data, projects), ProjectsFirst)
  }

  /** The displayed table holds exactly the combined rows, project rows above the others and each group by falling popularity. */
  lemma EditorRowsOrdered(filtered: seq<Route>, data: seq<Route>, projects: set<string>)
    ensures multiset(EditorRows(filtered, data, projects)) == multiset(CombinedRows(filtered, data, projects))
    ensures SortedBy(EditorRows(filtered, data, projects), ProjectsFirst)
    ensures ProjectsOnTop(EditorRows(filtered, data, projects))
  {
    ProjectsFirstIsPreorder();
    SortBySorted(CombinedRows(filtered, data, projects), ProjectsFirst);
  }

  /** The ids whose Project checkbox is ticked in a table. */
  function CheckedIds(rows: seq<TableRow>): set<string>
  {
    set x | x in rows && x.isProject :: x.route.id
  }

  /** Reordering the rows keeps the ticked ids. */
  lemma CheckedIdsOfPermutation(a: seq<TableRow>, b: seq<TableRow>)
    requires multiset(a) == multiset(b)
    ensures CheckedIds(a) == CheckedIds(b)
  {
    SameMembers(a, b);
  }

  /** The combined rows tick exactly the projects that some route of the data has. */
  lemma CombinedCheckedIds(filtered: seq<Route>, data: seq<Route>, projects: set<string>)
    requires Ids(filtered) <= Ids(data)
    ensures CheckedIds(CombinedRows(filtered, data, projects)) == projects * Ids(data)
  {
    var combined := CombinedRows(filtered, data, projects);
    CombinedIds(filtered, data, projects);
    CombinedFlags(filtered, data, projects);
    forall id | id in projects * Ids(data) ensures id in CheckedIds(combined) {
      assert id in RowIds(combined);
      var x :| x in combined && x.route.id == id;
    }
  }

  /**
   * A table nobody edits hands back the projects found in the data: the
   * update changes the project list only by dropping ids no route has.
   */
  lemma UntouchedTableKeepsProjects(filtered: seq<Route>, data: seq<Route>, projects: set<string>)
    requires Ids(filtered) <= Ids(data)
    ensures CheckedIds(EditorRows(filtered, data, projects)) == projects * Ids(data)
  {
    CombinedCheckedIds(filtered, data, projects);
    CheckedIdsOfPermutation(EditorRows(filtered, data, projects), CombinedRows(filtered, data, projects));
  }

  /** The session's project list: the set of kept route ids. */
  class ProjectList {
    var ids: set<string>

    /** The list a new session starts with. */
    constructor()
      ensures ids == {}
    {
      ids := {};
    }

    function Count(): (n: nat)
      reads this
    {
      |ids|
    }

    /** "Clear All Projects". */
    method Clear()
      modifies this
      ensures ids == {}
    {
      ids := {};
    }

    /**
     * The update after an edit: the list becomes the ids ticked in the
     * edited table, and a rerun is requested exactly when that changes it.
     */
    method UpdateFromEditor(edited: seq<TableRow>) returns (rerun: bool)
      modifies this
      ensures ids == CheckedIds(edited)
      ensures rerun <==> old(ids) != CheckedIds(edited)
    {
      var current := CheckedIds(edited);
      rerun := false;
      if current != ids {
        ids := current;
        rerun := true;
      }
    }
  }

  /** Redrawing an unedited table whose projects all exist asks for no rerun and leaves the list alone. */
  method UpdateUntouched(list: ProjectList, filtered: seq<Route>, data: seq<Route>) returns (rerun: bool)
    requires Ids(filtered) <= Ids(data) && list.ids <= Ids(data)
    modifies list
    ensures !rerun && list.ids == old(list.ids)
  {
    UntouchedTableKeepsProjects(filtered, data, list.ids);
    rerun := list.UpdateFromEditor(EditorRows(filtered, data, list.ids));
  }

  // ------------------------------------------------------------ the table's links and images

  /**
   * The Route Name link of the table: the route's page, followed here by
   * the route's name as a query (`withName`); the monolithic page shows the
   * bare page address.
   */
  function TableLink(r: Route, withName: bool): (link: string)
    requires r.area.Some?
    ensures StartsWith(link, PageUrl(r.area.value, r.id))
    ensures withName ==> link == PageUrl(r.area.value, r.id) + "?route_name=" + r.name
    ensures !withName ==> link == PageUrl(r.area.value, r.id)
  {
    var page := PageUrl(r.area.value, r.id);
    var link := if withName then page + "?route_name=" + r.name else page;
    assert link[..|page|] == page;
    link
  }

  /**
   * The Image cell: the address of the image on the route's page, looked
   * up only while the table has at most `limit` rows.
   */
  function ImageCell(tableSize: int, limit: int, r: Route, page: string -> Fetched): (cell: Option<string>)
    ensures tableSize > limit ==> cell.None?
    ensures tableSize <= limit ==> (cell.Some? <==> ExtractMedia(r.area, r.id, page).1.Some?)
    ensures cell.Some? ==> ExtractMedia(r.area, r.id, page).1 == Some(ImageInfo(cell.value))
  {
    if tableSize > limit then None
    else
      match ExtractMedia(r.area, r.id, page).1
      case None => None
      case Some(image) => Some(image.url)
  }

  /** The image column of `create_data_table` is filled for tables of at most 100 rows. */
  const TableImageLimit := 100

  /** Every route the table can show has an area name: the filtered routes and the project routes of the data. */
  predicate AreasKnown(filtered: seq<Route>, data: seq<Route>, projects: set<string>)
  {
    && (forall x :: x in filtered ==> x.area.Some?)
    && (forall x :: x in data && x.id in projects ==> x.area.Some?)
  }

  /** Every row of the table comes from the filtered routes or is a project route of the data. */
  lemma CombinedFromSources(filtered: seq<Route>, data: seq<Route>, projects: set<string>)
    ensures forall x :: x in CombinedRows(filtered, data, projects) ==>
      x.route in filtered || (x.route in data && x.route.id in projects)
  {
    var projectRoutes := GetProjectRoutes(data, projects);
    if projectRoutes != [] {
      var flagged := Flagged(projectRoutes, true);
      var marked := Marked(filtered, projects);
      forall x: TableRow | x in flagged + WithoutIds(marked, Ids(projectRoutes))
        ensures x.route in filtered || (x.route in data && x.route.id in projects)
      {
        if x in flagged {
          var i :| 0 <= i < |flagged| && flagged[i] == x;
          assert projectRoutes[i] in projectRoutes;
        } else {
          var i :| 0 <= i < |marked| && marked[i] == x;
          assert filtered[i] in filtered;
        }
      }
    } else {
      var combined := CombinedRows(filtered, data, projects);
      forall x: TableRow | x in combined ensures x.route in filtered {
        var i :| 0 <= i < |combined| && combined[i] == x;
        assert filtered[i] in filtered;
      }
    }
  }

  predicate RowsHaveAreas(rows: seq<TableRow>)
  {
    forall i :: 0 <= i < |rows| ==> rows[i].route.area.Some?
  }

  lemma DisplayedAreasKnown(filtered: seq<Route>, data: seq<Route>, projects: set<string>)
    requires AreasKnown(filtered, data, projects)
    ensures RowsHaveAreas(EditorRows(filtered, data, projects))
  {
    var rows := EditorRows(filtered, data, projects);
    CombinedFromSources(filtered, data, projects);
    SameMembers(rows, CombinedRows(filtered, data, projects));
    forall i | 0 <= i < |rows| ensures rows[i].route.area.Some? {
      assert rows[i] in rows;
    }
  }

  /** The Route Name column: one link per row. */
  function TableLinks(rows: seq<TableRow>, withName: bool): (links: seq<string>)
    requires RowsHaveAreas(rows)
    ensures |links| == |rows|
    ensures forall i :: 0 <= i < |rows| ==> links[i] == TableLink(rows[i].route, withName)
  {
    seq(|rows|, i requires 0 <= i < |rows| => TableLink(rows[i].route, withName))
  }

  /** The Image column: one cell per row, all empty once the table is longer than `limit`. */
  function ImageColumn(rows: seq<TableRow>, limit: int, page: string -> Fetched): (images: seq<Option<string>>)
    ensures |images| == |rows|
    ensures forall i :: 0 <= i < |rows| ==> images[i] == ImageCell(|rows|, limit, rows[i].route, page)
  {
    seq(|rows|, i requires 0 <= i < |rows| => ImageCell(|rows|, limit, rows[i].route, page))
  }

  /** The editable table as laid out: its rows, their Route Name links and their Image cells. */
  datatype EditorView = EditorView(rows: seq<TableRow>, links: seq<string>, images: seq<Option<string>>)

  /**
   * The table of `create_data_table` (links with the route name, images up
   * to 100 rows) and of the monolithic page (bare links, images up to 10
   * rows): the sorted rows, and per row its link and its image.
   */
  function DataTable(filtered: seq<Route>, data: seq<Route>, projects: set<string>, page: string -> Fetched,
                     withName: bool, imageLimit: int): (view: EditorView)
    requires AreasKnown(filtered, data, projects)
    ensures view.rows == EditorRows(filtered, data, projects)
    ensures RowsHaveAreas(view.rows)
    ensures view.links == TableLinks(view.rows, withName)
    ensures view.images == ImageColumn(view.rows, imageLimit, page)
  {
    var rows := EditorRows(filtered, data, projects);
    DisplayedAreasKnown(filtered, data, projects);
    EditorView(rows, TableLinks(rows, withName), ImageColumn(rows, imageLimit, page))
  }

  /**
   * The table of `create_data_table`: every link is the route's page with
   * its name as the `route_name` query; a table longer than 100 rows shows
   * no image, a shorter one each route's image exactly when its page has one.
   */
  lemma CreateDataTableShape(filtered: seq<Route>, data: seq<Route>, projects: set<string>, page: string -> Fetched)
    requires AreasKnown(filtered, data, projects)
    ensures var view := DataTable(filtered, data, projects, page, true, TableImageLimit);
      && (forall i :: 0 <= i < |view.rows| ==>
            view.links[i] == PageUrl(view.rows[i].route.area.value, view.rows[i].route.id) + "?route_name=" + view.rows[i].route.name)
      && (|view.rows| > TableImageLimit ==> forall i :: 0 <= i < |view.images| ==> view.images[i].None?)
      && (|view.rows| <= TableImageLimit ==> forall i :: 0 <= i < |view.images| ==>
            (view.images[i].Some? <==> ExtractMedia(view.rows[i].route.area, view.rows[i].route.id, page).1.Some?))
  {
  }

  // ------------------------------------------------------------ export

  const ExportBaseColumns := ["name", "grade", "steepness", "area_name"]

  /** The export's renaming of columns, entry by entry. */
  const ColumnMapping: seq<(string, string)> := [
    ("name", "Route Name"), ("grade", "Grade"), ("steepness", "Steepness"),
    ("area_name", "Area"), ("popularity", "Popularity")
  ]

  /** The columns exported: the four fixed ones, then popularity when the table has it. */
  function ExportColumns(hasPopularity: bool): (cols: seq<string>)
    ensures |cols| == if hasPopularity then 5 else 4
    ensures cols[..4] == ExportBaseColumns
    ensures hasPopularity ==> cols[4] == "popularity"
    ensures "popularity" in cols <==> hasPopularity
  {
    ExportBaseColumns + (if hasPopularity then ["popularity"] else [])
  }

  function ColumnLabel(col: string): string
  {
    Lookup(ColumnMapping, col, "")
  }

  /** The header of the export: each exported column renamed. */
  function ExportHeader(hasPopularity: bool): (header: seq<string>)
    ensures |header| == |ExportColumns(hasPopularity)|
    ensures forall i :: 0 <= i < |header| ==> header[i] == ColumnLabel(ExportColumns(hasPopularity)[i])
  {
    var cols := ExportColumns(hasPopularity);
    seq(|cols|, i requires 0 <= i < |cols| => ColumnLabel(cols[i]))
  }

  /** The exported header is Route Name, Grade, Steepness, Area and, when present, Popularity, in that order. */
  lemma ExportHeaderOrder()
    ensures ExportHeader(true) == ["Route Name", "Grade", "Steepness", "Area", "Popularity"]
    ensures ExportHeader(false) == ["Route Name", "Grade", "Steepness", "Area"]
  {
    assert ColumnLabel("name") == "Route Name";
    assert ColumnLabel("grade") == "Grade";
    assert ColumnLabel("steepness") == "Steepness";
    assert ColumnLabel("area_name") == "Area";
    assert ColumnLabel("popularity") == "Popularity";
  }

  /** An exported line: the route's exported fields, popularity only when that column exists. */
  datatype ExportRecord = ExportRecord(name: string, grade: string, steepness: string, area: Option<string>, popularity: Option<int>)

  function ExportRecordOf(r: Route, hasPopularity: bool): ExportRecord
  {
    ExportRecord(r.name, r.grade, r.steepness, r.area, if hasPopularity then Some(r.popularity) else None)
  }

  function PopularityKey(e: ExportRecord): int
  {
    if e.popularity.Some? then e.popularity.value else 0
  }

  /** `sort_values('Popularity', ascending=False)`. */
  predicate MorePopular(a: ExportRecord, b: ExportRecord)
  {
    PopularityKey(a) >= PopularityKey(b)
  }

  /** `sort_values('Route Name')`. */
  predicate NameOrder(a: ExportRecord, b: ExportRecord)
  {
    LexLessEq(a.name, b.name)
  }

  lemma ExportOrdersArePreorders()
    ensures TotalPreorder(MorePopular)
    ensures TotalPreorder(NameOrder)
  {
    forall a: ExportRecord, b: ExportRecord ensures NameOrder(a, b) || NameOrder(b, a) {
      LexTotal(a.name, b.name);
    }
    forall a: ExportRecord, b: ExportRecord, c: ExportRecord | NameOrder(a, b) && NameOrder(b, c)
      ensures NameOrder(a, c)
    {
      LexTransitive(a.name, b.name, c.name);
    }
  }

  /** The exported lines before sorting: one per route, in table order. */
  function ExportRecords(routes: seq<Route>, hasPopularity: bool): (r: seq<ExportRecord>)
    ensures |r| == |routes|
    ensures forall i :: 0 <= i < |r| ==> r[i] == ExportRecordOf(routes[i], hasPopularity)
  {
    seq(|routes|, i requires 0 <= i < |routes| => ExportRecordOf(routes[i], hasPopularity))
  }

  function ExportOrder(hasPopularity: bool): (ExportRecord, ExportRecord) -> bool
  {
    if hasPopularity then MorePopular else NameOrder
  }

  /**
   * The export: nothing without a project route in the data; otherwise the
   * header and one line per project route, most popular first, or by name
   * when there is no popularity column.
   */
  function ExportTable(data: seq<Route>, projects: set<string>, hasPopularity: bool): Option<(seq<string>, seq<ExportRecord>)>
  {
    var projectRoutes := GetProjectRoutes(data, projects);
    if projectRoutes == [] then None
    else Some((ExportHeader(hasPopularity), SortBy(ExportRecords(projectRoutes, hasPopularity), ExportOrder(hasPopularity))))
  }

  /** There is an export exactly when some route of the data is a project. */
  lemma ExportPresent(data: seq<Route>, projects: set<string>, hasPopularity: bool)
    ensures ExportTable(data, projects, hasPopularity).Some? <==> exists x :: x in data && x.id in projects
  {
    if exists x :: x in data && x.id in projects {
      var x :| x in data && x.id in projects;
      assert x in GetProjectRoutes(data, projects);
    }
  }

  /**
   * The exported lines are the project routes of the data, one each, in
   * falling popularity or, without a popularity column, in name order.
   */
  lemma ExportContents(data: seq<Route>, projects: set<string>, hasPopularity: bool)
    requires ExportTable(data, projects, hasPopularity).Some?
    ensures multiset(ExportTable(data, projects, hasPopularity).value.1)
         == multiset(ExportRecords(GetProjectRoutes(data, projects), hasPopularity))
    ensures hasPopularity ==> SortedBy(ExportTable(data, projects, hasPopularity).value.1, MorePopular)
    ensures !hasPopularity ==> SortedBy(ExportTable(data, projects, hasPopularity).value.1, NameOrder)
  {
    ExportOrdersArePreorders();
    SortBySorted(ExportRecords(GetProjectRoutes(data, projects), hasPopularity), ExportOrder(hasPopularity));
  }

  // ------------------------------------------------------------ sidebar defaults

  /** The non-empty grade labels of the data. */
  function NonEmptyGrades(data: seq<Route>): (r: seq<string>)
    ensures forall g :: g in r <==> g != "" && exists x :: x in data && x.grade == g
    ensures (forall x :: x in data ==> x.grade == "") ==> r == []
  {
    var grades := seq(|data|, i requires 0 <= i < |data| => data[i].grade);
    assert forall g :: g in grades <==> exists x :: x in data && x.grade == g by {
      forall g | g in grades ensures exists x :: x in data && x.grade == g {
        var i :| 0 <= i < |grades| && grades[i] == g;
        assert data[i] in data;
      }
      forall g | exists x :: x in data && x.grade == g ensures g in grades {
        var x :| x in data && x.grade == g;
        var i :| 0 <= i < |data| && data[i] == x;
        assert grades[i] == g;
      }
    }
    var nonEmpty := (g: string) => g != "";
    assert (forall x :: x in data ==> x.grade == "") ==> Keep(grades, nonEmpty) == [] by {
      if forall x :: x in data ==> x.grade == "" {
        KeepNothing(grades, nonEmpty);
      }
    }
    Keep(grades, nonEmpty)
  }

  predicate GradeOrder(a: string, b: string)
  {
    GradeToNumeric(a) <= GradeToNumeric(b)
  }

  lemma GradeOrderIsPreorder()
    ensures TotalPreorder(GradeOrder)
  {
  }

  /** The grade options: each non-empty grade once, in grade order. */
  function GradeOptions(data: seq<Route>): seq<string>
  {
    SortBy(Distinct(NonEmptyGrades(data)), GradeOrder)
  }

  /** Every non-empty grade of the data is offered exactly once, and the offers climb the scale. */
  lemma GradeOptionsSpec(data: seq<Route>)
    ensures forall g :: g in GradeOptions(data) <==> g != "" && exists x :: x in data && x.grade == g
    ensures NoDuplicates(GradeOptions(data))
    ensures SortedBy(GradeOptions(data), GradeOrder)
  {
    var distinct := Distinct(NonEmptyGrades(data));
    SameMembers(GradeOptions(data), distinct);
    PermutationNoDuplicates(GradeOptions(data), distinct);
    GradeOrderIsPreorder();
    SortBySorted(distinct, GradeOrder);
  }

  /** The initial grade range: 6a to 7c+ where offered, else the ends of the options; 0 to 34 with no options. */
  function DefaultGradeRange(options: seq<string>): (range: (int, int))
    ensures options == [] ==> range == (0, MaxOrdinal)
  {
    if options == [] then (0, 34)
    else
      var low := if "6a" in options then "6a" else options[0];
      var high := if "7c+" in options then "7c+" else options[|options| - 1];
      (GradeToNumeric(low), GradeToNumeric(high))
  }

  /** With 6a and 7c+ among the options the initial range is their ordinals, 16 to 27. */
  lemma DefaultGradeRangeUsual(options: seq<string>)
    requires "6a" in options && "7c+" in options
    ensures DefaultGradeRange(options) == (16, 27)
  {
    DefaultRangeGrades();
  }

  /** Without any graded route the range spans the whole scale, so the grade axis keeps every route. */
  lemma NoGradesKeepsAll(data: seq<Route>, rows: seq<Route>)
    requires forall x :: x in data ==> x.grade == ""
    requires Graded(rows)
    ensures DefaultGradeRange(GradeOptions(data)) == (0, MaxOrdinal)
    ensures forall x :: x in rows ==> InGradeRange(x, DefaultGradeRange(GradeOptions(data)))
  {
    assert GradeOptions(data) == [];
    forall x | x in rows ensures 0 <= x.gradeNumeric <= MaxOrdinal {
      assert x.gradeNumeric == GradeToNumeric(x.grade);
    }
  }
}
