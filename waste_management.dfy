/**
 * The waste-management report: polygon projects of the waste category,
 * the container points grouped under each polygon by name prefix, the
 * capacity figures, the project selection and the accordion of details.
 */
module WasteManagement {
  import opened Wrappers
  import opened Seqs
  import opened JsText

  /** Kilograms per day one container holds. */
  const ContainerCapacityKg: int := 96

  /** The `typeN` of waste-management records: "Atık Yönetimi". */
  const WasteCategory: string := "At\U{0131}k Y\U{00F6}netimi"

  const PolygonPrefix: string := "POLYGON"
  const PointPrefix: string := "POINT"

  /** A record of `getAllProjects()`; a missing text field is the empty string. */
  datatype ProjectRecord = ProjectRecord(id: Option<int>, name: string, wkt: string, typeN: string)

  /** One line of the report. */
  datatype ProjectData = ProjectData(id: Option<int>, name: string, pointCount: nat, wasteCapacity: int)

  // ---------------------------------------------------------------------
  // Filters

  /** A waste-category record with a name whose WKT starts with `prefix`. */
  predicate IsWasteProject(p: ProjectRecord, prefix: string) {
    p.wkt != "" && StartsWith(p.wkt, prefix) && p.typeN == WasteCategory && p.name != ""
  }

  function IsPolygonProject(): ProjectRecord -> bool {
    (p: ProjectRecord) => IsWasteProject(p, PolygonPrefix)
  }

  function IsPointProject(): ProjectRecord -> bool {
    (p: ProjectRecord) => IsWasteProject(p, PointPrefix)
  }

  /** The polygon projects, in response order. */
  function PolygonProjects(records: seq<ProjectRecord>): (r: seq<ProjectRecord>)
    ensures forall p :: p in r <==>
      p in records && StartsWith(p.wkt, PolygonPrefix) && p.typeN == WasteCategory && p.name != ""
  {
    Filter(records, IsPolygonProject())
  }

  /** The container point projects, in response order. */
  function PointProjects(records: seq<ProjectRecord>): (r: seq<ProjectRecord>)
    ensures forall p :: p in r <==>
      p in records && StartsWith(p.wkt, PointPrefix) && p.typeN == WasteCategory && p.name != ""
  {
    Filter(records, IsPointProject())
  }

  /** No record is both a polygon project and a point project. */
  lemma PolygonsAndPointsDisjoint(records: seq<ProjectRecord>, p: ProjectRecord)
    requires p in PolygonProjects(records)
    ensures p !in PointProjects(records)
  {
    // "POLYGON" and "POINT" differ in their third letter
    assert p.wkt[..|PolygonPrefix|] == PolygonPrefix;
    assert p.wkt[2] == 'L';
    assert p.wkt[..|PointPrefix|][2] == 'L' != PointPrefix[2];
  }

  // ---------------------------------------------------------------------
  // Grouping points under polygons

  /** A point belongs to the polygon named `polygonName` when its name starts with that name and "-". */
  function IsRelatedPoint(polygonName: string): ProjectRecord -> bool {
    (point: ProjectRecord) => point.name != "" && StartsWith(point.name, polygonName + "-")
  }

  /** The points grouped under the polygon named `polygonName`, in order. */
  function RelatedPoints(polygonName: string, points: seq<ProjectRecord>): (r: seq<ProjectRecord>)
    ensures |r| <= |points|
    ensures forall p :: p in r <==> p in points && StartsWith(p.name, polygonName + "-")
  {
    Filter(points, IsRelatedPoint(polygonName))
  }

  /** The report line of one polygon: its points counted, and 96 kg per point. */
  function ProjectLine(polygon: ProjectRecord, points: seq<ProjectRecord>): (d: ProjectData)
    ensures d.id == polygon.id && d.name == polygon.name
    ensures d.pointCount == |RelatedPoints(polygon.name, points)| <= |points|
    ensures d.wasteCapacity == d.pointCount * ContainerCapacityKg
  {
    var count := |RelatedPoints(polygon.name, points)|;
    ProjectData(polygon.id, polygon.name, count, count * ContainerCapacityKg)
  }

  /** `projectData`: one line per polygon, in the polygons' order. */
  function ProjectDataOf(polygons: seq<ProjectRecord>, points: seq<ProjectRecord>): (r: seq<ProjectData>)
    ensures |r| == |polygons|
    ensures forall i :: 0 <= i < |r| ==> r[i] == ProjectLine(polygons[i], points)
    decreases |polygons|
  {
    if polygons == [] then []
    else [ProjectLine(polygons[0], points)] + ProjectDataOf(polygons[1..], points)
  }

  /** Every report line is a polygon's name and id with a capacity of 96 kg per related point. */
  lemma ProjectDataDescribesPolygons(polygons: seq<ProjectRecord>, points: seq<ProjectRecord>, i: nat)
    requires i < |polygons|
    ensures var d := ProjectDataOf(polygons, points)[i];
      d.id == polygons[i].id && d.name == polygons[i].name
      && d.pointCount == |Filter(points, IsRelatedPoint(polygons[i].name))|
      && d.wasteCapacity == 96 * d.pointCount
      && 0 <= d.wasteCapacity <= 96 * |points|
  {
  }

  /**
   * The accordion lists, under a report line, the points with the same
   * name prefix the count used, so the list is as long as `pointCount`.
   */
  lemma AccordionListsCountedPoints(records: seq<ProjectRecord>, i: nat)
    requires i < |PolygonProjects(records)|
    ensures var d := ProjectDataOf(PolygonProjects(records), PointProjects(records))[i];
      |RelatedPoints(d.name, PointProjects(records))| == d.pointCount
  {
  }

  // ---------------------------------------------------------------------
  // Page state after `fetchProjects`

  /** `getAllProjects()`: an array of records, or an error with its message (a non-array response fails the filter). */
  datatype ProjectsResponse = ProjectsReceived(records: seq<ProjectRecord>) | ProjectsFailed(message: string)

  datatype PageState = PageState(
    projects: seq<ProjectData>,
    pointProjects: seq<ProjectRecord>,
    allProjects: seq<ProjectRecord>,
    loading: bool,
    error: Option<string>)

  const InitialPage: PageState := PageState([], [], [], true, None)

  /** The page after `fetchProjects` finishes. */
  function FetchProjects(s: PageState, response: ProjectsResponse): (t: PageState)
    ensures !t.loading
    ensures response.ProjectsReceived? ==>
      t.allProjects == response.records && t.error == s.error
      && t.pointProjects == PointProjects(response.records)
      && t.projects == ProjectDataOf(PolygonProjects(response.records), t.pointProjects)
    ensures response.ProjectsFailed? ==>
      t.error == Some("Projeler y\U{00FC}klenemedi: " + response.message)
      && t.projects == s.projects && t.pointProjects == s.pointProjects && t.allProjects == s.allProjects
  {
    match response
    case ProjectsReceived(records) =>
      var points := PointProjects(records);
      s.(projects := ProjectDataOf(PolygonProjects(records), points), pointProjects := points,
         allProjects := records, loading := false)
    case ProjectsFailed(message) =>
      s.(error := Some("Projeler y\U{00FC}klenemedi: " + message), loading := false)
  }

  /** After a successful fetch each report line is the line of a polygon project of the response. */
  lemma FetchedLinesComeFromPolygons(response: ProjectsResponse, i: nat)
    requires response.ProjectsReceived?
    requires i < |FetchProjects(InitialPage, response).projects|
    ensures var d := FetchProjects(InitialPage, response).projects[i];
      exists p :: p in response.records && IsWasteProject(p, PolygonPrefix) && d.name == p.name && d.id == p.id
  {
    var polygons := PolygonProjects(response.records);
    assert polygons[i] in polygons;
  }

  // ---------------------------------------------------------------------
  // Selection

  /** A `react-select` option: the project name as value and caption. */
  datatype SelectOption = SelectOption(value: string, caption: string)

  /** `projectOptions`: one option per report line. */
  function ProjectOptions(projects: seq<ProjectData>): (r: seq<SelectOption>)
    ensures |r| == |projects|
    ensures forall i :: 0 <= i < |r| ==> r[i] == SelectOption(projects[i].name, projects[i].name)
    decreases |projects|
  {
    if projects == [] then []
    else [SelectOption(projects[0].name, projects[0].name)] + ProjectOptions(projects[1..])
  }

  /** `handleProjectSelection`: the values of the chosen options; a cleared selector (`null`) gives none. */
  function HandleProjectSelection(options: Option<seq<SelectOption>>): (selected: seq<string>)
    ensures options.None? ==> selected == []
    ensures options.Some? ==>
      |selected| == |options.value| && forall i :: 0 <= i < |selected| ==> selected[i] == options.value[i].value
    decreases if options.Some? then |options.value| else 0
  {
    match options
    case None => []
    case Some(opts) =>
      if opts == [] then []
      else [opts[0].value] + HandleProjectSelection(Some(opts[1..]))
  }

  /** A line is shown when nothing is selected or its name is selected. */
  function IsShown(selected: seq<string>): ProjectData -> bool {
    (p: ProjectData) => |selected| == 0 || p.name in selected
  }

  /** The lines the chart, the bars and the average use. */
  function ShownProjects(projects: seq<ProjectData>, selected: seq<string>): (r: seq<ProjectData>)
    ensures selected != [] ==> forall p :: p in r <==> p in projects && p.name in selected
  {
    Filter(projects, IsShown(selected))
  }

  /** An empty selection shows every line. */
  lemma {:induction false} EmptySelectionShowsAll(projects: seq<ProjectData>)
    ensures ShownProjects(projects, []) == projects
  {
    FilterAll(projects, IsShown([]));
  }

  /** Choosing every option shows every line as well. */
  lemma SelectingAllShowsAll(projects: seq<ProjectData>)
    ensures ShownProjects(projects, HandleProjectSelection(Some(ProjectOptions(projects)))) == projects
  {
    var selected := HandleProjectSelection(Some(ProjectOptions(projects)));
    forall i | 0 <= i < |projects| ensures IsShown(selected)(projects[i]) {
      assert selected[i] == projects[i].name;
    }
    FilterAll(projects, IsShown(selected));
  }

  /** Clearing the selector shows every line. */
  lemma ClearingSelectionShowsAll(projects: seq<ProjectData>)
    ensures ShownProjects(projects, HandleProjectSelection(None)) == projects
  {
    EmptySelectionShowsAll(projects);
  }

  // ---------------------------------------------------------------------
  // Average capacity

  function TotalCapacity(projects: seq<ProjectData>): int
    decreases |projects|
  {
    if projects == [] then 0 else projects[0].wasteCapacity + TotalCapacity(projects[1..])
  }

  /** The mean capacity of `shown`, and 0 for no lines. */
  function MeanCapacity(shown: seq<ProjectData>): (avg: real)
    ensures shown == [] ==> avg == 0.0
    ensures shown != [] ==> avg * |shown| as real == TotalCapacity(shown) as real
  {
    if |shown| > 0 then TotalCapacity(shown) as real / |shown| as real else 0.0
  }

  /** `averageWasteCapacity`: the mean capacity of the shown lines, and 0 when none is shown. */
  function AverageWasteCapacity(projects: seq<ProjectData>, selected: seq<string>): (avg: real)
    ensures ShownProjects(projects, selected) == [] ==> avg == 0.0
    ensures ShownProjects(projects, selected) != [] ==>
      avg == TotalCapacity(ShownProjects(projects, selected)) as real / |ShownProjects(projects, selected)| as real
  {
    MeanCapacity(ShownProjects(projects, selected))
  }

  lemma {:induction false} TotalCapacityBounds(projects: seq<ProjectData>, lo: int, hi: int)
    requires forall i :: 0 <= i < |projects| ==> lo <= projects[i].wasteCapacity <= hi
    ensures lo * |projects| <= TotalCapacity(projects) <= hi * |projects|
    decreases |projects|
  {
    if projects != [] {
      TotalCapacityBounds(projects[1..], lo, hi);
    }
  }

  lemma QuotientBounds(total: real, n: real, lo: real, hi: real)
    requires n > 0.0 && lo * n <= total <= hi * n
    ensures lo <= total / n <= hi
  {
    var q := total / n;
    assert q * n == total;
    assert (q - lo) * n >= 0.0;
    assert (hi - q) * n >= 0.0;
  }

  lemma {:induction false} CastProduct(a: int, b: nat)
    ensures (a * b) as real == a as real * b as real
    decreases b
  {
    if b > 0 {
      CastProduct(a, b - 1);
      assert a * b == a * (b - 1) + a;
      assert a as real * b as real == a as real * (b - 1) as real + a as real;
    }
  }

  /** The mean lies between the smallest and the largest capacity of the lines. */
  lemma MeanWithinBounds(shown: seq<ProjectData>, lo: int, hi: int)
    requires shown != []
    requires forall i :: 0 <= i < |shown| ==> lo <= shown[i].wasteCapacity <= hi
    ensures lo as real <= MeanCapacity(shown) <= hi as real
  {
    var total, n := TotalCapacity(shown), |shown|;
    TotalCapacityBounds(shown, lo, hi);
    CastProduct(lo, n);
    CastProduct(hi, n);
    QuotientBounds(total as real, n as real, lo as real, hi as real);
  }

  /** With a non-empty selection the average counts only the selected names; with none it counts every line. */
  lemma AverageOverSelection(projects: seq<ProjectData>, selected: seq<string>)
    ensures selected == [] ==> AverageWasteCapacity(projects, selected) == MeanCapacity(projects)
    ensures selected != [] ==>
      forall p :: p in ShownProjects(projects, selected) <==> p in projects && p.name in selected
  {
    if selected == [] {
      EmptySelectionShowsAll(projects);
    }
  }

  // ---------------------------------------------------------------------
  // Chart rows

  /**
   * A chart row's values: the spread of `reduce` over the shown lines,
   * one key per project name, later lines overwriting earlier ones.
   */
  function ChartValues(shown: seq<ProjectData>, value: ProjectData -> int): (m: map<string, int>)
    ensures m.Keys == set p | p in shown :: p.name
    decreases |shown|
  {
    if shown == [] then map[]
    else
      var init := shown[..|shown| - 1];
      var last := shown[|shown| - 1];
      assert shown == init + [last];
      ChartValues(init, value)[last.name := value(last)]
  }

  /** A name's value is the one of the last shown line with that name. */
  lemma {:induction false} ChartValueOfLastLine(shown: seq<ProjectData>, value: ProjectData -> int, i: nat)
    requires i < |shown|
    requires forall j :: i < j < |shown| ==> shown[j].name != shown[i].name
    ensures ChartValues(shown, value)[shown[i].name] == value(shown[i])
    decreases |shown|
  {
    if i < |shown| - 1 {
      ChartValueOfLastLine(shown[..|shown| - 1], value, i);
    }
  }

  /**
   * The empty-data notice: the first chart row has no key besides
   * `metric`, and loading has ended.
   */
  predicate EmptyChartNotice(shown: seq<ProjectData>, value: ProjectData -> int, loading: bool) {
    |ChartValues(shown, value)| == 0 && !loading
  }

  /** The bar chart: the first chart row has a key besides `metric`, whether or not loading has ended. */
  predicate BarChartShown(shown: seq<ProjectData>, value: ProjectData -> int) {
    |ChartValues(shown, value)| > 0
  }

  /**
   * The notice shows exactly when no line is shown and loading has ended;
   * the bar chart shows exactly when some line is shown; never both.
   */
  lemma ChartEmptyIffNothingShown(shown: seq<ProjectData>, value: ProjectData -> int, loading: bool)
    ensures EmptyChartNotice(shown, value, loading) <==> shown == [] && !loading
    ensures BarChartShown(shown, value) <==> shown != []
    ensures !(EmptyChartNotice(shown, value, loading) && BarChartShown(shown, value))
  {
    if shown != [] {
      assert shown[0].name in ChartValues(shown, value).Keys;
    }
  }

  // ---------------------------------------------------------------------
  // Accordion

  /** The accordion key of a line: `project.id`, or `project-{index}` when the id is missing or 0. */
  datatype AccordionKey = KeyId(id: int) | KeyIndex(index: nat)

  function KeyOf(id: Option<int>, index: nat): (k: AccordionKey)
    ensures k.KeyId? <==> id.Some? && id.value != 0
    ensures k.KeyId? ==> k.id == id.value
    ensures k.KeyIndex? ==> k.index == index
  {
    if id.Some? && id.value != 0 then KeyId(id.value) else KeyIndex(index)
  }

  /** `toggleProject`: closes the line if it is the open one, opens it otherwise. */
  function ToggleProject(open: Option<AccordionKey>, key: AccordionKey): (r: Option<AccordionKey>)
    ensures r == Some(key) <==> open != Some(key)
    ensures r.Some? ==> r.value == key
  {
    if open == Some(key) then None else Some(key)
  }

  /** After a toggle the clicked line's state is flipped and every other line is closed. */
  lemma ToggleLeavesAtMostOneOpen(open: Option<AccordionKey>, key: AccordionKey, other: AccordionKey)
    requires other != key
    ensures ToggleProject(open, key) != Some(other)
    ensures (ToggleProject(open, key) == Some(key)) == (open != Some(key))
  {
  }

  /** Toggling the open line twice reopens it; toggling a closed line twice closes everything. */
  lemma ToggleTwice(open: Option<AccordionKey>, key: AccordionKey)
    ensures ToggleProject(ToggleProject(open, key), key) == (if open == Some(key) then open else None)
  {
  }
}
