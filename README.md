# GEOBelediyeWeb core in Dafny

This project models the client-side logic of GEOBelediyeWeb, a municipal
GIS front end. In it users draw points, lines and polygons on an
OpenLayers map, save them as WKT locations, ask a backend optimizer to
place waste containers inside a polygon, and read planning figures.

The model covers:

- **Sizing formulas** (`ContainerNeeds`, `ParkingCapacity`,
  `ManholeNeeds`, over `JsMath`): the container, parking-space and manhole
  counts as least sufficient `Math.ceil` quotients, including JavaScript's
  `Infinity`/`NaN` when dividing by a zero capacity.
- **Name dialog** (`NameModal`): the trimmed, non-blank name it hands to
  `onSave`, over a model of JavaScript's `trim` (`JsText`).
- **Geometry table** (`GeometryTable`): the rows sorted by id, largest
  first, with the sort proved sorted, a permutation and stable; pagination
  ten to a page; the WKT preview cell; validation; and the save, delete and
  add handlers as a class whose fields are the component's state and whose
  `requests` field logs the backend calls (`Backend`, from the REST client).
- **Waste-management report** (`WasteManagement`): polygon and point
  projects of the waste category, points grouped under polygons by name
  prefix, 96 kg per container point, the project selection, the average
  capacity, the chart rows and the accordion toggle.
- **Map components**, sharing `MapModel`:
  - the feature store (an OpenLayers `VectorSource`) as a class holding a
    sequence of feature objects;
  - the record loops that fill it, specified by a function over the records;
  - the slot holding the current draw interaction.
  - `ProjectionGuess` models `isLikelyEPSG3857`: the first number in a WKT
    text, matched as the regular expression does and read as `parseFloat`
    does, decides whether the text is taken as EPSG:3857.
  - `PolygonMap` models the polygon-drawing map (`cizimpolygon.jsx`):
    - the hand-written WKT serialiser, with a round trip back to ring 0;
    - loading, where an unreadable record stops the loop;
    - optimization of a drawn polygon, which replaces the store;
    - naming and saving other drawings;
    - the modify handler's sequential updates followed by one reload;
    - the popup delete, the Escape key and the drawing-mode effect.
  - `SimpleMap` models the general map (`Map.jsx`):
    - loading, where each record is tried independently;
    - the id label rule;
    - the icon added after a saved drawing;
    - re-installing the draw interaction when the type changes.

Backend outcomes, `prompt` and `confirm` answers, OpenLayers' WKT reader
and writer, the interior point of a polygon, the point nearest the view
centre, and JavaScript's number-to-string conversion cannot be computed
here, so they are parameters. The handlers receive them as inputs, and the
WKT reader and writer are bundled in `MapModel.WktFormat`.

OpenLayers' draw interaction dispatches `drawend` before it adds the drawn
feature to the store. Every store change a handler makes happens after its
first `await` or inside a `setTimeout`. So each draw-end handler is modelled
as "the feature is appended, then the handler's effect applies". The one
exception is a polygon whose WKT cannot be written: the handler throws
before it first waits, so its removal comes before the append.

Where the code behaves in a way a reader may not expect, the model follows
the code:

- The projection guess compares the first number itself with 180. It does
  not take an absolute value, so a large negative first number means
  EPSG:4326.
- `to4326WKT` writes a polygon's map coordinates without reprojecting them,
  and keeps only its first ring.
- An unreadable record in `cizimpolygon.jsx`'s load ends the loop and
  leaves the records already added. Nothing is restored.
- The table's save calls `updateLocation(editingId, updatedData)`. The
  client reads only its first argument, so the request carries the bare id
  and an undefined path id.
- No temporary ids, no deduplication and no busy latches exist in the
  code, so none are modelled.

## Model

| member | source | states |
|---|---|---|
| JsMath.Ceil | src/utils/calculateContainerNeeds.jsx:8-10 | `Math.ceil(x)` is an integer n with x ≤ n < x + 1 |
| JsMath.Round | src/utils/calculateContainerNeeds.jsx:13 | `Math.round(x)` is within half a unit of x, halves going up |
| JsMath.CeilQuotientIsLeastSufficient | src/utils/calculateParkingCapacity.jsx:10 | for a positive divisor b, `Math.ceil(a / b)` units of b cover a and one fewer does not |
| JsMath.CeilQuotient | src/utils/calculateManholeNeeds.jsx:9 | a non-zero divisor gives the finite ceiling; a zero divisor gives Infinity, -Infinity or NaN exactly as a is positive, negative or zero |
| ContainerNeeds.CalculateContainerNeeds | src/utils/calculateContainerNeeds.jsx:1-17 | daily waste is density × area × 0.79 kg; the count is the least number of 96 kg containers covering it; the population is within 0.5 of density × area |
| ContainerNeeds.NoContainersForEmptyArea | src/utils/calculateContainerNeeds.jsx:6-10 | a zero density or a zero area needs no containers |
| ContainerNeeds.ContainersMonotoneInArea | src/utils/calculateContainerNeeds.jsx:6-10 | with a non-negative density, a larger area never needs fewer containers |
| ParkingCapacity.BuildingDensity | src/utils/calculateParkingCapacity.jsx:2-8 | a listed usage type gets its density from the table; any other type gets 1.0 |
| ParkingCapacity.CalculateParkingCapacity | src/utils/calculateParkingCapacity.jsx:9-15 | the spaces are the least count covering the building area at 100 m² each; the building area is reported within 0.5 |
| ParkingCapacity.DensityValues | src/utils/calculateParkingCapacity.jsx:2-8 | residential 0.8, commercial 1.2, mixed 1.0, anything else 1.0 |
| ParkingCapacity.NoSpacesForNoArea | src/utils/calculateParkingCapacity.jsx:9-10 | a plot of no area needs no spaces |
| ParkingCapacity.SpacesMonotoneInArea | src/utils/calculateParkingCapacity.jsx:9-10 | a larger plot of the same usage never needs fewer spaces |
| ManholeNeeds.CalculateManholeNeeds | src/utils/calculateManholeNeeds.jsx:1-14 | the rainwater is area × intensity × duration × runoff, reported within 0.5; the count is `Math.ceil(water / capacity)` with JavaScript's division by zero |
| ManholeNeeds.ManholeCountIsLeastSufficient | src/utils/calculateManholeNeeds.jsx:8-9 | with a positive capacity the count is finite and is the least number of manholes that drain all the water |
| ManholeNeeds.DefaultsApply | src/utils/calculateManholeNeeds.jsx:5-6 | omitted parameters behave as runoff 0.9 and capacity 500 litres |
| ManholeNeeds.NoManholesWithoutRain | src/utils/calculateManholeNeeds.jsx:8-13 | any zero factor gives no rainwater and no manholes |
| ManholeNeeds.ZeroCapacityNoRainIsNaN | src/utils/calculateManholeNeeds.jsx:9 | zero capacity with zero area yields NaN, not 0 |
| ManholeNeeds.LargerCapacityNeverNeedsMore | src/utils/calculateManholeNeeds.jsx:9 | a larger capacity per manhole never needs more manholes |
| JsText.Trim | src/Components/Navbar/NameModal.jsx:8 | `trim()` is never longer than its input and the result neither starts nor ends with whitespace; TrimShape, TrimIdempotent and TrimEmptyIff state the rest |
| JsText.TrimShape | src/Components/Navbar/NameModal.jsx:8 | `trim` removes only leading and trailing whitespace and leaves none at either end |
| JsText.TrimIdempotent | src/Components/Navbar/NameModal.jsx:8-9 | trimming twice is trimming once |
| JsText.TrimEmptyIff | src/Components/Navbar/NameModal.jsx:8 | the trimmed text is empty exactly when the text is all whitespace |
| NameModal.SavedName | src/Components/Navbar/NameModal.jsx:7-12 | a name is passed to `onSave` exactly when the input is not blank, and it is the non-empty trimmed input |
| NameModal.SavedNameStable | src/Components/Navbar/NameModal.jsx:8-9 | saving a saved name again passes the same name |
| NameModal.NameModal.constructor | src/Components/Navbar/NameModal.jsx:5 | the field starts empty |
| NameModal.NameModal.OnChange | src/Components/Navbar/NameModal.jsx:24 | the field holds what was typed |
| NameModal.NameModal.HandleSave | src/Components/Navbar/NameModal.jsx:7-12 | `onSave` receives the saved name and the field is cleared; a blank field sends nothing and is kept |
| NameModal.NameModal.Cancel | src/Components/Navbar/NameModal.jsx:27 | Cancel calls `onClose`; its empty frame is what keeps the typed name |
| NameModal.NameModal.Render | src/Components/Navbar/NameModal.jsx:14-25 | nothing is rendered when closed; otherwise the input shows the field |
| JsText.StartsWith | src/Pages/WasteManagementPage.jsx:128 | `startsWith`; StartsWithIff states what it means |
| JsText.StartsWithIff | src/Pages/WasteManagementPage.jsx:142 | a text starts with a prefix exactly when it is that prefix followed by some text |
| Seqs.Filter | src/Pages/WasteManagementPage.jsx:126 | `filter` keeps exactly the elements satisfying the predicate, never more than the input |
| Seqs.FilterAppend | src/Pages/WasteManagementPage.jsx:126 | filtering a concatenation filters each part |
| Seqs.FilterSingleton | src/Pages/WasteManagementPage.jsx:126 | one element is kept exactly when it satisfies the predicate; with FilterAppend this fixes the result's order as the input's |
| Seqs.FilterMultiplicity | src/Pages/WasteManagementPage.jsx:126 | a kept element occurs in the result exactly as often as in the input, any other element not at all |
| Seqs.Slice | src/Components/GeometryTable/Table.jsx:35 | `slice` clamps both bounds to the length; an in-range slice is the subsequence; an end past the length gives the suffix from the start; an end not after the start, or a start past the length, gives nothing |
| Backend.UpdateLocation | src/Api/api.jsx:7 | the request is an update whose body is the argument; the path id is a location object's own id (absent when it has none), and a bare number gives no path id |
| Backend.GetOptimizedPoints | src/Api/api.jsx:9-12 | the optimizer receives the polygon WKT and the default cover count 5 |
| GeometryTable.InsertByIdDesc | src/Components/GeometryTable/Table.jsx:24 | inserting into rows sorted by decreasing id keeps them sorted and adds exactly the new row |
| GeometryTable.InsertAddsOneRow | src/Components/GeometryTable/Table.jsx:24 | the insertion's multiset is the old rows plus the new one |
| GeometryTable.InsertKeepsOrderOfEqualIds | src/Components/GeometryTable/Table.jsx:24 | the inserted row comes after every row with the same id |
| GeometryTable.SortByIdDesc | src/Components/GeometryTable/Table.jsx:24 | `sort((a, b) => b.id - a.id)` gives rows in non-increasing id order, as many as the input |
| GeometryTable.SortIsPermutation | src/Components/GeometryTable/Table.jsx:24 | the sorted rows are a permutation of the response |
| GeometryTable.SortIsStable | src/Components/GeometryTable/Table.jsx:24 | rows that share an id keep their response order |
| GeometryTable.FetchedRows | src/Components/GeometryTable/Table.jsx:24 | the stored rows are sorted by id, largest first, and are exactly the fetched rows; a failed call or a missing `data` stores nothing |
| GeometryTable.TotalPages | src/Components/GeometryTable/Table.jsx:36 | the page count is the least number of 10-row pages holding every row |
| GeometryTable.CurrentItems | src/Components/GeometryTable/Table.jsx:33-35 | page p shows rows 10(p-1) up to 10p, clamped to the data; at most 10 rows; nothing past the end |
| GeometryTable.PageEmptyIffPastLast | src/Components/GeometryTable/Table.jsx:33-36 | a page is empty exactly when its number exceeds the page count |
| GeometryTable.PagesCoverData | src/Components/GeometryTable/Table.jsx:33-36 | pages 1 to the page count, read in order, are exactly the data |
| GeometryTable.PreviousDisabled | src/Components/GeometryTable/Table.jsx:205 | the "previous" button is disabled on the first page; NavigationStaysInRange states that clicking it keeps the page in range |
| GeometryTable.NextDisabled | src/Components/GeometryTable/Table.jsx:218 | the "next" button is disabled on the last page and when there are no pages; NextEnabledPastLastPage and NavigationStaysInRange state its behaviour |
| GeometryTable.FirstPagesArePrefix | src/Components/GeometryTable/Table.jsx:33-35 | the first k pages are the first 10k rows |
| GeometryTable.NavigationStaysInRange | src/Components/GeometryTable/Table.jsx:204-220 | from a page in range, enabled buttons lead only to pages in range; Next is disabled exactly on the last page |
| GeometryTable.NextEnabledPastLastPage | src/Components/GeometryTable/Table.jsx:218 | on a page past the last, the page is empty and Next stays enabled |
| GeometryTable.WktCell | src/Components/GeometryTable/Table.jsx:176 | a WKT up to 100 characters is shown whole; a longer one as its first 100 characters and "..." |
| GeometryTable.WktCellBounded | src/Components/GeometryTable/Table.jsx:176 | a cell has at most 103 characters and begins with the start of the WKT |
| GeometryTable.AddRejection | src/Components/GeometryTable/Table.jsx:82-90 | an item is accepted exactly when both fields are filled and the name has at most 50 characters; otherwise the alert is "fill all fields" or "name too long" |
| GeometryTable.GeometryTable.constructor | src/Components/GeometryTable/Table.jsx:8-13 | no rows, no row being edited, empty forms, add form hidden, page 1 |
| GeometryTable.GeometryTable.FetchData | src/Components/GeometryTable/Table.jsx:20-30 | one `getData` request; the rows become the sorted response, or nothing when the call fails or has no data; nothing else changes |
| GeometryTable.GeometryTable.HandleEdit | src/Components/GeometryTable/Table.jsx:42-45 | the row's id is being edited and the form holds its name and WKT |
| GeometryTable.GeometryTable.OnFormNameChange | src/Components/GeometryTable/Table.jsx:161 | the edit form's name becomes the typed value and its WKT is kept |
| GeometryTable.GeometryTable.OnFormWktChange | src/Components/GeometryTable/Table.jsx:171 | the edit form's WKT becomes the typed value and its name is kept |
| GeometryTable.GeometryTable.OnNewItemNameChange | src/Components/GeometryTable/Table.jsx:121 | the add form's name becomes the typed value and its WKT is kept |
| GeometryTable.GeometryTable.OnNewItemWktChange | src/Components/GeometryTable/Table.jsx:126 | the add form's WKT becomes the typed value and its name is kept |
| GeometryTable.GeometryTable.ToggleAddForm | src/Components/GeometryTable/Table.jsx:109 | the add form's visibility flips |
| GeometryTable.GeometryTable.HandleSave | src/Components/GeometryTable/Table.jsx:47-68 | a name over 50 characters is refused with no request; otherwise the update carries the bare id; success ends editing and refetches; failure alerts and keeps the state |
| GeometryTable.GeometryTable.HandleDelete | src/Components/GeometryTable/Table.jsx:70-79 | one delete for the id; success refetches; failure alerts and keeps the rows |
| GeometryTable.GeometryTable.HandleAdd | src/Components/GeometryTable/Table.jsx:81-102 | a rejected item sends nothing; an accepted one sends its name and WKT; success empties and hides the form and refetches; failure alerts and keeps it |
| GeometryTable.GeometryTable.ClickPrevious | src/Components/GeometryTable/Table.jsx:204-208 | moves back one page unless on page 1; the page stays at least 1 |
| GeometryTable.GeometryTable.ClickNext | src/Components/GeometryTable/Table.jsx:216-220 | moves forward one page unless on the last page or there are no pages |
| WasteManagement.PolygonProjects | src/Pages/WasteManagementPage.jsx:126-137 | exactly the named waste-category records whose WKT starts with "POLYGON" |
| WasteManagement.PointProjects | src/Pages/WasteManagementPage.jsx:140-151 | exactly the named waste-category records whose WKT starts with "POINT" |
| WasteManagement.PolygonsAndPointsDisjoint | src/Pages/WasteManagementPage.jsx:126-151 | no record is both a polygon project and a point project |
| WasteManagement.RelatedPoints | src/Pages/WasteManagementPage.jsx:155-157 | exactly the points whose name starts with the polygon's name and "-" |
| WasteManagement.ProjectLine | src/Pages/WasteManagementPage.jsx:154-163 | a line has the polygon's id and name, its related-point count, and 96 kg per point |
| WasteManagement.ProjectDataOf | src/Pages/WasteManagementPage.jsx:154-164 | one line per polygon, in order |
| WasteManagement.ProjectDataDescribesPolygons | src/Pages/WasteManagementPage.jsx:154-164 | each line's capacity is 96 × its point count, between 0 and 96 × the number of points |
| WasteManagement.AccordionListsCountedPoints | src/Pages/WasteManagementPage.jsx:24-26 | the accordion lists, under a line, as many points as the line counts |
| WasteManagement.FetchProjects | src/Pages/WasteManagementPage.jsx:120-176 | loading ends; success stores the lines, the points and the response; failure keeps the data and sets "Projeler yüklenemedi: " plus the message |
| WasteManagement.FetchedLinesComeFromPolygons | src/Pages/WasteManagementPage.jsx:126-170 | every fetched line has the name and id of a polygon project of the response |
| WasteManagement.ProjectOptions | src/Pages/WasteManagementPage.jsx:181-184 | one option per line, value and caption its name |
| WasteManagement.HandleProjectSelection | src/Pages/WasteManagementPage.jsx:219-221 | the selection is the chosen options' values in order; a cleared selector selects none |
| WasteManagement.ShownProjects | src/Pages/WasteManagementPage.jsx:191 | with a selection, exactly the lines whose name is selected |
| WasteManagement.EmptySelectionShowsAll | src/Pages/WasteManagementPage.jsx:191 | an empty selection shows every line |
| WasteManagement.SelectingAllShowsAll | src/Pages/WasteManagementPage.jsx:181-191 | choosing every option shows every line |
| WasteManagement.ClearingSelectionShowsAll | src/Pages/WasteManagementPage.jsx:219-221 | clearing the selector shows every line |
| WasteManagement.MeanCapacity | src/Pages/WasteManagementPage.jsx:209-216 | 0 for no lines; otherwise the mean times the count is the total capacity |
| WasteManagement.AverageWasteCapacity | src/Pages/WasteManagementPage.jsx:209-216 | the sum of the shown lines' capacities divided by their number, and 0 when no line is shown; AverageOverSelection and MeanWithinBounds state the rest |
| WasteManagement.TotalCapacityBounds | src/Pages/WasteManagementPage.jsx:214 | the total lies between n × the smallest and n × the largest capacity |
| WasteManagement.MeanWithinBounds | src/Pages/WasteManagementPage.jsx:209-216 | the average lies between the smallest and the largest shown capacity |
| WasteManagement.AverageOverSelection | src/Pages/WasteManagementPage.jsx:209-216 | with no selection the average is over every line; otherwise over the selected names only |
| WasteManagement.ChartValues | src/Pages/WasteManagementPage.jsx:187-206 | a chart row has one key per shown project name |
| WasteManagement.ChartValueOfLastLine | src/Pages/WasteManagementPage.jsx:192-195 | a name's value is that of the last shown line with the name |
| WasteManagement.ChartEmptyIffNothingShown | src/Pages/WasteManagementPage.jsx:307-312 | the empty-data notice shows exactly when no line is shown and loading has ended; the bar chart shows exactly when some line is shown; never both |
| WasteManagement.EmptyChartNotice | src/Pages/WasteManagementPage.jsx:307 | the "no data" notice; ChartEmptyIffNothingShown states it shows exactly when no line is shown and loading is over |
| WasteManagement.BarChartShown | src/Pages/WasteManagementPage.jsx:312 | the bar chart; ChartEmptyIffNothingShown states it shows exactly when some line is shown, never together with the notice |
| WasteManagement.KeyOf | src/Pages/WasteManagementPage.jsx:29 | the key is the id when it is present and non-zero, else the index |
| WasteManagement.ToggleProject | src/Pages/WasteManagementPage.jsx:17-19 | the clicked line opens exactly when it was not the open one |
| WasteManagement.ToggleLeavesAtMostOneOpen | src/Pages/WasteManagementPage.jsx:17-19 | after a toggle no other line is open |
| WasteManagement.ToggleTwice | src/Pages/WasteManagementPage.jsx:17-19 | toggling twice reopens the open line or closes everything |
| MapModel.RecordFeature | src/Components/Map/cizimpolygon.jsx:81-82 | a loaded feature carries the record's id and name on the parsed geometry |
| MapModel.Without | src/Components/Map/cizimpolygon.jsx:155 | `removeFeature` keeps every other feature and drops f; removing an absent feature changes nothing |
| MapModel.AppendThenRemove | src/Components/Map/cizimpolygon.jsx:161 | removing a feature just appended restores the store |
| MapModel.VectorSource.Clear | src/Components/Map/cizimpolygon.jsx:64 | the store is empty |
| MapModel.VectorSource.AddFeature | src/Components/Map/cizimpolygon.jsx:83 | the feature is appended |
| MapModel.VectorSource.RemoveFeature | src/Components/Map/cizimpolygon.jsx:155 | the store loses exactly that feature |
| MapModel.Run | src/Components/Map/cizimpolygon.jsx:72-85 | the `forEach` loops over records: at most one feature per record; RunSnoc, RunStopsAtAbort, RunAppend, RunOnlyKeeps and RunKeepsAll state what it adds |
| MapModel.RunSnoc | src/Components/Map/cizimpolygon.jsx:72-85 | one more record that does not throw adds what its step adds |
| MapModel.RunStopsAtAbort | src/Components/Map/cizimpolygon.jsx:72-85 | a record that throws ends the loop; nothing after it is added |
| MapModel.RunAppend | src/Components/Map/Map.jsx:84-98 | without a throwing record, a loop over two parts adds what each part adds |
| MapModel.RunOnlyKeeps | src/Components/Map/cizimpolygon.jsx:72-85 | every added feature comes from a record whose step keeps it |
| MapModel.RunKeepsAll | src/Components/Map/Map.jsx:84-98 | without a throwing record, every kept record's feature is added |
| MapModel.DrawSlot.constructor | src/Components/Map/cizimpolygon.jsx:32 | no draw interaction is held or installed |
| MapModel.DrawSlot.Install | src/Components/Map/cizimpolygon.jsx:99-109 | the held interaction is removed first; "None" installs nothing and leaves the reference; another type installs one new interaction of that type |
| MapModel.DrawSlot.Uninstall | src/Components/Map/cizimpolygon.jsx:333-336 | no interaction is installed or held |
| MapModel.DrawSlot.Escape | src/Components/Map/cizimpolygon.jsx:310-316 | the drawing is aborted exactly when the key is Escape and an interaction is held |
| ProjectionGuess.DigitRunEnd | src/Components/Map/cizimpolygon.jsx:46 | `\d+` consumes the longest run of digits |
| ProjectionGuess.TokenAt | src/Components/Map/cizimpolygon.jsx:46 | a match has its sign, at least one integer digit, and digit-only parts |
| ProjectionGuess.TokenTextFound | src/Components/Map/cizimpolygon.jsx:46 | `match[0]` is the text at the match position |
| ProjectionGuess.TokenIsGreedy | src/Components/Map/cizimpolygon.jsx:46 | the integer part stops at a non-digit; the fraction is present exactly when a dot and a digit follow |
| ProjectionGuess.FirstTokenFrom | src/Components/Map/cizimpolygon.jsx:46 | the first match at or after a position, or none |
| ProjectionGuess.FirstToken | src/Components/Map/cizimpolygon.jsx:46 | the leftmost match; none exactly when no position can start one |
| ProjectionGuess.FracValue | src/Components/Map/cizimpolygon.jsx:47 | fraction digits read as a value in [0, 1), positive exactly when some digit is not 0 |
| ProjectionGuess.IsLikelyEPSG3857 | src/Components/Map/cizimpolygon.jsx:45-48 | true exactly when a first number exists, is not negative, and exceeds 180 |
| ProjectionGuess.DataProjection | src/Components/Map/cizimpolygon.jsx:74 | EPSG:3857 exactly when the guess holds, else EPSG:4326 (the same rule as Map.jsx:87) |
| ProjectionGuess.NegativeFirstNumberIsGeographic | src/Components/Map/cizimpolygon.jsx:45-48 | a negative first number means EPSG:4326, however large |
| ProjectionGuess.IntegerPartDecides | src/Components/Map/cizimpolygon.jsx:45-48 | an integer part of at least 181 means EPSG:3857; at most 179 means EPSG:4326 |
| PolygonMap.To4326Wkt | src/Components/Map/cizimpolygon.jsx:50-61 | it fails exactly for a polygon without rings; non-polygons go to the writer in EPSG:4326 |
| PolygonMap.JoinCoords | src/Components/Map/cizimpolygon.jsx:54 | the ring's coordinates joined by ", "; JoinCoordsParses states that splitting the text gives the coordinates back |
| PolygonMap.JoinCoordsParses | src/Components/Map/cizimpolygon.jsx:54 | the joined "x y" pairs split back into the printed coordinates, in order |
| PolygonMap.PolygonWktRoundTrip | src/Components/Map/cizimpolygon.jsx:52-55 | a polygon's text reads back as ring 0's printed coordinates, unprojected, x before y |
| PolygonMap.PolygonWktIgnoresOtherRings | src/Components/Map/cizimpolygon.jsx:53 | the text depends on ring 0 alone, whatever the writer |
| PolygonMap.LoadStep | src/Components/Map/cizimpolygon.jsx:73-84 | one record of the load; LoadedFeaturesComeFromRecords and LoadStopsAtUnreadableRecord state that only readable points and polygons are added and an unreadable text ends the loop |
| PolygonMap.LoadedFeaturesComeFromRecords | src/Components/Map/cizimpolygon.jsx:72-85 | each loaded feature is a point or polygon read from a record with a WKT, with its id and name |
| PolygonMap.LoadStopsAtUnreadableRecord | src/Components/Map/cizimpolygon.jsx:72-85 | an unreadable record ends the load; later records are not added |
| PolygonMap.OptimizedStep | src/Components/Map/cizimpolygon.jsx:131-139 | one optimized point; AllKept, OptimizedFeaturesArePoints and OptimizedPointsShowTheirNames state what it adds |
| PolygonMap.AllKept | src/Components/Map/cizimpolygon.jsx:131-140 | when every point reads, the store is the points in order, each read as EPSG:4326 and marked optimized |
| PolygonMap.OptimizedFeaturesArePoints | src/Components/Map/cizimpolygon.jsx:131-140 | the i-th optimized feature has the i-th point's id, name and geometry, and is marked optimized |
| PolygonMap.SaveGeometry | src/Components/Map/cizimpolygon.jsx:263-265 | the update goes to the feature's id, with that id and the WKT in the body and no name |
| PolygonMap.ModifyUpdates | src/Components/Map/cizimpolygon.jsx:260-269 | at most one update per modified feature |
| PolygonMap.ModifyStaysStopped | src/Components/Map/cizimpolygon.jsx:260-269 | after the handler throws, later features send nothing |
| PolygonMap.ModifyUpdatesSaveTruthyFeatures | src/Components/Map/cizimpolygon.jsx:260-269 | the k-th update saves the k-th feature with a truthy id (its id, its EPSG:4326 WKT), up to the first such feature whose WKT cannot be written, which ends the run; the run gets through exactly when every such feature can be written, and then sends one update for each |
| PolygonMap.ModifyUpdatesShape | src/Components/Map/cizimpolygon.jsx:260-269 | every update targets a truthy id; a finished run sends exactly one per feature with a truthy id |
| PolygonMap.FeatureLabel | src/Components/Map/cizimpolygon.jsx:193-224 | points and polygons are labelled with their name; other geometries get no style |
| PolygonMap.OptimizedPointsShowTheirNames | src/Components/Map/cizimpolygon.jsx:193-207 | each optimized point shows the name the optimizer gave it |
| PolygonMap.PolygonMap.constructor | src/Components/Map/cizimpolygon.jsx:28-35 | empty store, no draw interaction, selector at "Polygon", popup hidden |
| PolygonMap.PolygonMap.LoadFeaturesFromApi | src/Components/Map/cizimpolygon.jsx:63-97 | one GetAll; the store is emptied, then filled with the load loop's features; a failure or a non-array leaves it empty |
| PolygonMap.PolygonMap.AddRecords | src/Components/Map/cizimpolygon.jsx:72-85 | the store, empty on entry, ends with the load loop's features in record order, up to the first record the reader rejects; every feature in it is new |
| PolygonMap.PolygonMap.LoadRecord | src/Components/Map/cizimpolygon.jsx:73-84 | one record adds exactly what the load step keeps, as one new feature; it reports a throw exactly when the reader rejects the record's WKT |
| PolygonMap.PolygonMap.AddOptimizedPoints | src/Components/Map/cizimpolygon.jsx:128-140 | the store becomes the optimized points, up to the first unreadable one |
| PolygonMap.PolygonMap.AddOptimizedPoint | src/Components/Map/cizimpolygon.jsx:131-139 | one point adds exactly what the optimized step keeps, as one new feature; it returns no feature exactly when the point's WKT cannot be read |
| PolygonMap.PolygonMap.OnDrawEnd | src/Components/Map/cizimpolygon.jsx:111-173 | a polygon is optimized: success gives the points, failure drops only the drawing, a non-array empties the store; an unnamed drawing is dropped with no request; a failed save drops it; a saved one reloads |
| PolygonMap.PolygonMap.OptimizeDrawnPolygon | src/Components/Map/cizimpolygon.jsx:115-156 | one GetOptimizedPoints request with the polygon's EPSG:4326 WKT; the store then holds the optimized points, or loses only the drawing on failure, or is empty for a non-array; a polygon whose WKT cannot be written stays, with no request |
| PolygonMap.PolygonMap.SaveDrawing | src/Components/Map/cizimpolygon.jsx:157-172 | an empty or cancelled name drops the drawing with no request; otherwise one Add request with the name and WKT, then a reload on success or the drawing dropped on failure |
| PolygonMap.PolygonMap.OnModifyEnd | src/Components/Map/cizimpolygon.jsx:259-272 | the updates are the modify run's, in order; a finished run then reloads once; a thrown run leaves the store |
| PolygonMap.PolygonMap.SendUpdates | src/Components/Map/cizimpolygon.jsx:260-269 | the requests sent are exactly the modify run's updates, and the loop reports completion exactly when the run did not throw |
| PolygonMap.PopupPosition | src/Components/Map/cizimpolygon.jsx:284-289 | the popup opens at a point's own coordinate, at a polygon's interior point, and otherwise at the geometry's point closest to the view centre |
| PolygonMap.PolygonMap.OnSelect | src/Components/Map/cizimpolygon.jsx:276-307 | a selection fills the popup and opens it at the point, the interior point or the closest point; none hides it |
| PolygonMap.PolygonMap.OnDeleteClicked | src/Components/Map/cizimpolygon.jsx:296-305 | after a confirmation one delete for the feature's id; the feature leaves the store and the popup closes only on success |
| PolygonMap.PolygonMap.OnKeyDown | src/Components/Map/cizimpolygon.jsx:310-316 | drawing mode is reported off exactly on Escape with an interaction held |
| PolygonMap.PolygonMap.OnTypeSelectChange | src/Components/Map/cizimpolygon.jsx:353-357 | the selector changes and the interaction is replaced for the new type |
| PolygonMap.PolygonMap.OnDrawingModeChange | src/Components/Map/cizimpolygon.jsx:328-338 | on: selector "Polygon" and one polygon interaction; off: no interaction held or installed |
| JsText.NatText | src/Components/Map/Map.jsx:59 | `String(n)` of a natural is a non-empty run of digits with no leading zero |
| JsText.NatTextValue | src/Components/Map/Map.jsx:59 | reading the digits of `String(n)` back gives `n` |
| JsText.IntText | src/Components/Map/Map.jsx:59 | `String(id)` for an integer: at least one character |
| JsText.IntTextInjective | src/Components/Map/Map.jsx:59 | different ids give different texts |
| JsText.NatTextInjective | src/Components/Map/Map.jsx:59 | different non-negative numbers give different digit strings |
| JsText.IntTextSign | src/Components/Map/Map.jsx:59 | an integer's text starts with a minus sign exactly when the integer is negative |
| SimpleMap.LoadStep | src/Components/Map/Map.jsx:85-97 | one record of the load; UnreadableRecordIsSkipped, ReadableRecordIsLoaded and LoadedFeatureComesFromRecord state that unreadable records are skipped and every readable one is added |
| SimpleMap.UnreadableRecordIsSkipped | src/Components/Map/Map.jsx:84-98 | an unreadable record adds nothing, and the records around it load as if it were absent |
| SimpleMap.ReadableRecordIsLoaded | src/Components/Map/Map.jsx:84-98 | every record with a readable WKT is loaded, whatever its geometry type |
| SimpleMap.LoadedFeatureComesFromRecord | src/Components/Map/Map.jsx:88-94 | every loaded feature is a record's parsed geometry with its id and name |
| SimpleMap.StyleOf | src/Components/Map/Map.jsx:33-68 | point, line and polygon are styled, labelled `String(id)` exactly when the id is defined; another geometry has no style without an id and throws with one |
| SimpleMap.LabelsTellIdsApart | src/Components/Map/Map.jsx:56-65 | features with different ids never share a label |
| SimpleMap.IconText | src/Components/Map/Map.jsx:155-160 | each icon choice's emoji |
| SimpleMap.IconTextsDiffer | src/Components/Map/Map.jsx:155-160 | the four emoji are pairwise different |
| SimpleMap.IconAnchor | src/Components/Map/Map.jsx:172-181 | a point's coordinate, a line's last vertex, a polygon's interior point; no anchor otherwise |
| SimpleMap.IconFeatures | src/Components/Map/Map.jsx:153-186 | at most one icon feature, present exactly when an icon is chosen and an anchor exists |
| SimpleMap.OneIconPerDrawing | src/Components/Map/Map.jsx:172-185 | a drawn point, line or polygon with an icon gets exactly one icon feature, a point with the emoji and no id |
| SimpleMap.SimpleMap.constructor | src/Components/Map/Map.jsx:133-198 | the selector starts at "Point" and one point interaction is installed |
| SimpleMap.SimpleMap.LoadFeaturesFromApi | src/Components/Map/Map.jsx:75-112 | one GetAll; the store is emptied, then filled with every readable record; a failure or a non-array leaves it empty |
| SimpleMap.SimpleMap.AddRecords | src/Components/Map/Map.jsx:84-98 | the store, empty on entry, ends with the features of every readable record in record order; every feature in it is new |
| SimpleMap.SimpleMap.LoadRecord | src/Components/Map/Map.jsx:85-97 | one record adds exactly what the load step keeps, as one new feature; a record the reader rejects adds nothing |
| SimpleMap.SimpleMap.OnDrawEnd | src/Components/Map/Map.jsx:138-192 | an unnamed drawing is dropped with no request; a failed save drops it; a saved one reloads, then the icon feature is appended |
| SimpleMap.SimpleMap.AddIcon | src/Components/Map/Map.jsx:153-190 | the store gains exactly the icon features of the chosen icon at the drawing's anchor, and nothing else changes in its contents |
| SimpleMap.SimpleMap.OnTypeSelectChange | src/Components/Map/Map.jsx:200-203 | the held interaction is removed before the new type's is installed |

## Left out

- Floating point: numbers are exact reals, so IEEE-754 rounding is not modelled. Neither are `toFixed`, `toLocaleString` or the precision of `parseFloat` on long digit strings.
- Strings are sequences of code points, not UTF-16 units. A `length` over astral characters, such as the icon emoji, is not modelled.
- Object keys: the prototype's keys (e.g. `densityByType["constructor"]`) are not modelled. Neither is the chart row's `metric` key colliding with a project named "metric".
- `null` and `undefined` are one missing value (`None` or ""). A `null` feature id is not told apart from an undefined one.
- OpenLayers internals are parameters or left out:
  - WKT parsing and writing, reprojection and interior points;
  - the rejection of duplicate ids in `addFeature`;
  - `view.fit` and extents;
  - style objects, colours and icon images;
  - `updateSize`;
  - the Modify interaction's in-place geometry edit (the modified features are an input).
- Component callbacks are not modelled: `onDataUpdate`, `onDataUpdated`, `onOptimizationComplete`, `onDrawingModeChange` (Escape reports it as a result) and `focusOnFeature`.
- Map.jsx:
  - the blink animation, which is timer-driven styling;
  - the undo button, since the in-progress sketch is not modelled;
  - the select popup, which is display only.
- Other map files, the sidebar, panels, navbar and other presentational components are not part of this model. Neither is the unused `addRange` call.
- HTTP transport, console output, alerts' texts beyond their kind, and input `maxLength` attributes are left out.
- Concurrency: the interleaving of overlapping async handlers is not modelled. Each handler runs to completion, with its awaited outcomes as inputs.
- GeometryTable.SortByIdDesc: the engine's sort algorithm is not in the repository. The sort is modelled as a stable insertion sort, which `Array.prototype.sort` must match for a consistent comparator. Ids are integers, so the NaN comparisons of missing ids are not modelled.
- Seqs.Filter: its own contract states membership and the length bound only. Order and multiplicity are stated by Seqs.FilterSingleton with Seqs.FilterAppend, and by Seqs.FilterMultiplicity; they are lemmas so that every proof mentioning a filter stays small.
- PolygonMap.ModifyUpdates: its own contract states only the bound. Which feature each update saves, in what order, and when the run gets through are stated by PolygonMap.ModifyUpdatesSaveTruthyFeatures.
- WasteManagement.ShownProjects: its own contract covers a non-empty selection only. The empty selection is stated by WasteManagement.EmptySelectionShowsAll.
- ProjectionGuess.TokenAt: its own contract states the token's shape. Its text and greediness are stated by ProjectionGuess.TokenTextFound and ProjectionGuess.TokenIsGreedy.
