/**
 * The polygon-drawing map (src/Components/Map/cizimpolygon.jsx): loads the
 * stored points and polygons, sends a drawn polygon to the optimizer and
 * replaces the map's features with the optimized points, saves other
 * drawings under a prompted name, saves modified features, and deletes a
 * feature from its popup.
 */
module PolygonMap {
  import opened Wrappers
  import opened JsText
  import opened Backend
  import opened MapModel
  import opened ProjectionGuess
  import Seqs

  // ---------------------------------------------------------------------
  // `to4326WKT`

  /** A coordinate pair as the template literal writes it: x, a space, y. */
  function CoordText(c: Coord, show: real -> string): string {
    show(c.x) + " " + show(c.y)
  }

  /** The pairs joined by ", ". */
  function JoinCoords(cs: seq<Coord>, show: real -> string): string
    decreases |cs|
  {
    if cs == [] then ""
    else if |cs| == 1 then CoordText(cs[0], show)
    else CoordText(cs[0], show) + ", " + JoinCoords(cs[1..], show)
  }

  /**
   * `to4326WKT`: a polygon is written by hand from its first ring, with
   * the map coordinates copied as they are (no reprojection); a polygon
   * without rings throws. Any other geometry goes to the WKT writer,
   * which reprojects it to EPSG:4326.
   */
  function To4326Wkt(g: Geometry, fmt: WktFormat, show: real -> string): (r: Option<string>)
    ensures r.None? <==> g.Polygon? && g.rings == []
    ensures !g.Polygon? ==> r == Some(fmt.write(g, EPSG4326))
  {
    match g
    case Polygon(rings) =>
      if rings == [] then None else Some("POLYGON((" + JoinCoords(rings[0], show) + "))")
    case _ => Some(fmt.write(g, EPSG4326))
  }

  // A reader for the text `to4326WKT` writes, used to state what it writes.

  /** `s.split(sep)`. */
  function SplitOn(s: string, sep: string): (parts: seq<string>)
    requires |sep| >= 1
    ensures |parts| >= 1
    decreases |s|
  {
    if |s| == 0 then [""]
    else if |sep| <= |s| && s[..|sep|] == sep then [""] + SplitOn(s[|sep|..], sep)
    else
      var rest := SplitOn(s[1..], sep);
      [[s[0]] + rest[0]] + rest[1..]
  }

  /** No character of `t` is `c`. */
  predicate Avoids(t: string, c: char) {
    forall i :: 0 <= i < |t| ==> t[i] != c
  }

  /** `t` has no space and no comma. */
  predicate PlainText(t: string) {
    Avoids(t, ' ') && Avoids(t, ',')
  }

  lemma {:induction false} SplitOnPlain(a: string, sep: string)
    requires |sep| >= 1 && Avoids(a, sep[0])
    ensures SplitOn(a, sep) == [a]
    decreases |a|
  {
    if a != [] {
      SplitOnPlain(a[1..], sep);
      assert [a[0]] + a[1..] == a;
    }
  }

  lemma {:induction false} SplitOnJoined(a: string, sep: string, b: string)
    requires |sep| >= 1 && Avoids(a, sep[0])
    ensures SplitOn(a + sep + b, sep) == [a] + SplitOn(b, sep)
    decreases |a|
  {
    if a == [] {
      assert a + sep + b == sep + b;
      assert (sep + b)[..|sep|] == sep && (sep + b)[|sep|..] == b;
    } else {
      assert (a + sep + b)[1..] == a[1..] + sep + b;
      SplitOnJoined(a[1..], sep, b);
      assert [a[0]] + a[1..] == a;
    }
  }

  /** Reads "x y" back into its two texts. */
  function ParsePair(piece: string): Option<(string, string)> {
    var parts := SplitOn(piece, " ");
    if |parts| == 2 then Some((parts[0], parts[1])) else None
  }

  function ParsePairs(pieces: seq<string>): Option<seq<(string, string)>>
    decreases |pieces|
  {
    if pieces == [] then Some([])
    else match (ParsePair(pieces[0]), ParsePairs(pieces[1..]))
      case (Some(p), Some(ps)) => Some([p] + ps)
      case _ => None
  }

  /** Reads `POLYGON((x y, x y, …))` into the coordinate texts of its single ring. */
  function ParsePolygonText(s: string): Option<seq<(string, string)>> {
    if |s| >= 11 && s[..9] == "POLYGON((" && s[|s| - 2..] == "))" then
      var body := s[9..|s| - 2];
      if body == "" then Some([]) else ParsePairs(SplitOn(body, ", "))
    else None
  }

  /** The texts of the coordinates, as `show` writes them. */
  function CoordTexts(cs: seq<Coord>, show: real -> string): (ts: seq<(string, string)>)
    ensures |ts| == |cs|
    ensures forall i :: 0 <= i < |cs| ==> ts[i] == (show(cs[i].x), show(cs[i].y))
    decreases |cs|
  {
    if cs == [] then [] else [(show(cs[0].x), show(cs[0].y))] + CoordTexts(cs[1..], show)
  }

  lemma CoordTextParses(c: Coord, show: real -> string)
    requires PlainText(show(c.x)) && PlainText(show(c.y))
    ensures ParsePair(CoordText(c, show)) == Some((show(c.x), show(c.y)))
  {
    SplitOnJoined(show(c.x), " ", show(c.y));
    SplitOnPlain(show(c.y), " ");
  }

  lemma {:induction false} JoinCoordsParses(cs: seq<Coord>, show: real -> string)
    requires cs != []
    requires forall v :: PlainText(show(v))
    ensures ParsePairs(SplitOn(JoinCoords(cs, show), ", ")) == Some(CoordTexts(cs, show))
    decreases |cs|
  {
    var head := CoordText(cs[0], show);
    assert Avoids(head, ',') by {
      assert PlainText(show(cs[0].x)) && PlainText(show(cs[0].y));
      forall i | 0 <= i < |head| ensures head[i] != ',' {
        if i < |show(cs[0].x)| {
          assert head[i] == show(cs[0].x)[i];
        } else if i > |show(cs[0].x)| {
          assert head[i] == show(cs[0].y)[i - |show(cs[0].x)| - 1];
        }
      }
    }
    CoordTextParses(cs[0], show);
    if |cs| == 1 {
      SplitOnPlain(head, ", ");
    } else {
      SplitOnJoined(head, ", ", JoinCoords(cs[1..], show));
      JoinCoordsParses(cs[1..], show);
    }
  }

  /**
   * What `to4326WKT` writes for a polygon reads back as the coordinates of
   * its first ring only, in order, x before y, each exactly as the number
   * is printed: the ring is not reprojected and other rings are dropped.
   * This holds for any number printer that writes no spaces or commas.
   */
  lemma PolygonWktRoundTrip(rings: seq<seq<Coord>>, fmt: WktFormat, show: real -> string)
    requires rings != []
    requires forall v :: PlainText(show(v))
    ensures To4326Wkt(Polygon(rings), fmt, show).Some?
    ensures ParsePolygonText(To4326Wkt(Polygon(rings), fmt, show).value) == Some(CoordTexts(rings[0], show))
  {
    var body := JoinCoords(rings[0], show);
    var s := "POLYGON((" + body + "))";
    assert s[..9] == "POLYGON((" && s[|s| - 2..] == "))" && s[9..|s| - 2] == body;
    if rings[0] != [] {
      JoinCoordsParses(rings[0], show);
      assert body != [] by {
        assert |CoordText(rings[0][0], show)| >= 1;
      }
    }
  }

  /** The text of a polygon depends on its first ring alone, whatever the WKT writer does. */
  lemma PolygonWktIgnoresOtherRings(rings1: seq<seq<Coord>>, rings2: seq<seq<Coord>>, fmt1: WktFormat, fmt2: WktFormat, show: real -> string)
    requires rings1 != [] && rings2 != [] && rings1[0] == rings2[0]
    ensures To4326Wkt(Polygon(rings1), fmt1, show) == To4326Wkt(Polygon(rings2), fmt2, show)
  {
  }

  // ---------------------------------------------------------------------
  // The record loops

  /**
   * One record of `loadFeaturesFromAPI`: no WKT is skipped; a text the
   * reader rejects throws out of the loop; only points and polygons are
   * added, with the record's id and name.
   */
  function LoadStep(fmt: WktFormat): Record -> Step {
    (r: Record) =>
      if r.wkt == "" then Skip
      else match fmt.read(r.wkt, DataProjection(r.wkt))
        case None => Abort
        case Some(g) => if g.Point? || g.Polygon? then Keep(RecordFeature(r, g, false)) else Skip
  }

  /** One point of an optimization response: read as EPSG:4326, marked optimized; a rejected text throws. */
  function OptimizedStep(fmt: WktFormat): Record -> Step {
    (r: Record) =>
      match fmt.read(r.wkt, EPSG4326)
      case None => Abort
      case Some(g) => Keep(RecordFeature(r, g, true))
  }

  /** The features a load leaves: nothing after a failure or a non-array, the loop's features otherwise. */
  function LoadedData(response: LoadResponse, fmt: WktFormat): seq<FeatureData> {
    if response.LoadRecords? then Run(response.records, LoadStep(fmt)) else []
  }

  /** A loaded feature is a point or polygon read from a record with a WKT, with that record's id and name. */
  lemma LoadedFeaturesComeFromRecords(records: seq<Record>, fmt: WktFormat, d: FeatureData)
    requires d in Run(records, LoadStep(fmt))
    ensures exists i :: (0 <= i < |records| && records[i].wkt != ""
      && fmt.read(records[i].wkt, DataProjection(records[i].wkt)) == Some(d.geometry)
      && (d.geometry.Point? || d.geometry.Polygon?)
      && d.id == records[i].id && d.name == records[i].name && !d.optimized)
  {
    RunOnlyKeeps(records, LoadStep(fmt), d);
    var i :| 0 <= i < |records| && LoadStep(fmt)(records[i]) == Keep(d);
    var r := records[i];
    assert r.wkt != "" && fmt.read(r.wkt, DataProjection(r.wkt)).Some?;
    assert d == RecordFeature(r, fmt.read(r.wkt, DataProjection(r.wkt)).value, false);
  }

  /** A record whose WKT the reader rejects stops the load: no later record is added. */
  lemma LoadStopsAtUnreadableRecord(before: seq<Record>, bad: Record, after: seq<Record>, fmt: WktFormat)
    requires NoAbort(before, LoadStep(fmt))
    requires bad.wkt != "" && fmt.read(bad.wkt, DataProjection(bad.wkt)).None?
    ensures LoadedData(LoadRecords(before + [bad] + after), fmt) == Run(before, LoadStep(fmt))
  {
    RunStopsAtAbort(before, bad, after, LoadStep(fmt));
  }

  /** The outcome of `getOptimizedPoints`: a failure, a `data` that is not an array, or the points. */
  datatype OptimizeResponse = OptimizeFailed | OptimizeNotArray | OptimizePoints(points: seq<Record>)

  /** The optimized points, in response order, each with its id and name and marked optimized. */
  lemma OptimizedFeaturesArePoints(points: seq<Record>, fmt: WktFormat, i: nat)
    requires NoAbort(points, OptimizedStep(fmt)) && i < |points|
    ensures |Run(points, OptimizedStep(fmt))| == |points|
    ensures var d := Run(points, OptimizedStep(fmt))[i];
      d.id == points[i].id && d.name == points[i].name && d.optimized
      && Some(d.geometry) == fmt.read(points[i].wkt, EPSG4326)
  {
    AllKept(points, fmt);
  }

  lemma {:induction false} AllKept(points: seq<Record>, fmt: WktFormat)
    requires NoAbort(points, OptimizedStep(fmt))
    ensures |Run(points, OptimizedStep(fmt))| == |points|
    ensures forall i :: 0 <= i < |points| ==>
      Run(points, OptimizedStep(fmt))[i] == RecordFeature(points[i], fmt.read(points[i].wkt, EPSG4326).value, true)
    decreases |points|
  {
    if points != [] {
      assert !OptimizedStep(fmt)(points[0]).Abort?;
      AllKept(points[1..], fmt);
    }
  }

  // ---------------------------------------------------------------------
  // `modifyend`

  /** A feature id JavaScript treats as true: present and not 0. */
  predicate TruthyId(id: Option<int>) {
    id.Some? && id.value != 0
  }

  /** The update requests the handler sends, and whether it got through every feature. */
  datatype ModifyRun = ModifyRun(updates: seq<Request>, completed: bool)

  /** `updateLocation({ id, wkt })`: the id goes into the path and the body, and there is no name. */
  function SaveGeometry(id: int, wkt: string): (r: Request)
    ensures r.Update? && r.pathId == Some(id) && r.body == LocationArg(Some(id), None, wkt)
  {
    UpdateLocation(LocationArg(Some(id), None, wkt))
  }

  /**
   * The loop of `modifyend` over `features`: features without a truthy id
   * are skipped; a feature whose WKT cannot be written throws and ends the
   * handler; every other feature sends one update, whatever its outcome.
   */
  function ModifyUpdates(features: seq<FeatureData>, fmt: WktFormat, show: real -> string): (m: ModifyRun)
    ensures |m.updates| <= |features|
    decreases |features|
  {
    if features == [] then ModifyRun([], true)
    else
      var before := ModifyUpdates(features[..|features| - 1], fmt, show);
      var d := features[|features| - 1];
      if !before.completed || !TruthyId(d.id) then before
      else match To4326Wkt(d.geometry, fmt, show)
        case None => ModifyRun(before.updates, false)
        case Some(wkt) => ModifyRun(before.updates + [SaveGeometry(d.id.value, wkt)], true)
  }

  /** Once the handler has thrown, later features send nothing. */
  lemma {:induction false} ModifyStaysStopped(features: seq<FeatureData>, k: nat, fmt: WktFormat, show: real -> string)
    requires k <= |features| && !ModifyUpdates(features[..k], fmt, show).completed
    ensures ModifyUpdates(features, fmt, show) == ModifyUpdates(features[..k], fmt, show)
    decreases |features| - k
  {
    if k < |features| {
      assert features[..k + 1][..k] == features[..k];
      ModifyStaysStopped(features, k + 1, fmt, show);
    } else {
      assert features[..k] == features;
    }
  }

  predicate HasTruthyId(d: FeatureData) {
    TruthyId(d.id)
  }

  /** The modified features the loop tries to save, in order; `if (!id) continue` passes over the others. */
  function TruthyFeatures(features: seq<FeatureData>): seq<FeatureData> {
    Seqs.Filter(features, HasTruthyId)
  }

  /** A feature whose geometry `to4326WKT` can write. */
  predicate Writable(d: FeatureData, fmt: WktFormat, show: real -> string) {
    To4326Wkt(d.geometry, fmt, show).Some?
  }

  /** `u` is the update that saves `d`: to its id, with its EPSG:4326 WKT. */
  predicate Saves(u: Request, d: FeatureData, fmt: WktFormat, show: real -> string) {
    TruthyId(d.id) && Writable(d, fmt, show)
    && u == SaveGeometry(d.id.value, To4326Wkt(d.geometry, fmt, show).value)
  }

  /**
   * What the loop sends: the k-th update saves the k-th feature with a
   * truthy id, for every such feature up to the first one whose WKT
   * cannot be written; the handler gets through exactly when every such
   * feature can be written, and then it sends one update for each.
   */
  lemma {:induction false} ModifyUpdatesSaveTruthyFeatures(features: seq<FeatureData>, fmt: WktFormat, show: real -> string)
    ensures var t, m := TruthyFeatures(features), ModifyUpdates(features, fmt, show);
      && |m.updates| <= |t|
      && (forall k :: 0 <= k < |m.updates| ==> Saves(m.updates[k], t[k], fmt, show))
      && (m.completed ==> |m.updates| == |t|)
      && (!m.completed ==> |m.updates| < |t| && !Writable(t[|m.updates|], fmt, show))
      && (m.completed <==> forall d :: d in t ==> Writable(d, fmt, show))
    decreases |features|
  {
    if features != [] {
      var init, d := features[..|features| - 1], features[|features| - 1];
      assert features == init + [d];
      ModifyUpdatesSaveTruthyFeatures(init, fmt, show);
      Seqs.FilterAppend(init, [d], HasTruthyId);
      Seqs.FilterSingleton(d, HasTruthyId);
      var t0 := TruthyFeatures(init);
      if HasTruthyId(d) {
        assert TruthyFeatures(features) == t0 + [d];
        assert (t0 + [d])[|t0|] == d;
      } else {
        assert TruthyFeatures(features) == t0;
      }
    }
  }

  /**
   * Every request is the save of one feature with a truthy id, sent to
   * that id; when the handler gets through, there is exactly one request
   * per feature with a truthy id.
   */
  lemma ModifyUpdatesShape(features: seq<FeatureData>, fmt: WktFormat, show: real -> string)
    ensures var m := ModifyUpdates(features, fmt, show);
      (forall k :: 0 <= k < |m.updates| ==>
        m.updates[k].Update? && m.updates[k].pathId.Some? && m.updates[k].pathId.value != 0
        && m.updates[k].body.LocationArg? && m.updates[k].body.id == m.updates[k].pathId
        && m.updates[k].body.name == None)
      && (m.completed ==> |m.updates| == |TruthyFeatures(features)|)
  {
    ModifyUpdatesSaveTruthyFeatures(features, fmt, show);
  }

  // ---------------------------------------------------------------------
  // `styleFunction`

  /**
   * The text the layer style shows: the `name` property of a point or a
   * polygon (`name || ''`), and no style at all for other geometries.
   */
  function FeatureLabel(d: FeatureData): (caption: Option<string>)
    ensures caption.Some? <==> d.geometry.Point? || d.geometry.Polygon?
    ensures caption.Some? ==> caption.value == d.name
  {
    if d.geometry.Point? || d.geometry.Polygon? then Some(d.name) else None
  }

  /** Every optimized point is shown with the name the optimizer gave it. */
  lemma OptimizedPointsShowTheirNames(points: seq<Record>, fmt: WktFormat, i: nat)
    requires NoAbort(points, OptimizedStep(fmt)) && i < |points|
    requires forall k :: 0 <= k < |points| ==> fmt.read(points[k].wkt, EPSG4326).value.Point?
    ensures |Run(points, OptimizedStep(fmt))| == |points|
    ensures FeatureLabel(Run(points, OptimizedStep(fmt))[i]) == Some(points[i].name)
  {
    AllKept(points, fmt);
    assert !OptimizedStep(fmt)(points[i]).Abort?;
  }

  // ---------------------------------------------------------------------
  // The component

  /** Where the popup opens: at a point, at a polygon's interior point, or at the closest point to the view centre. */
  function PopupPosition(g: Geometry, interior: Coord, closest: Coord): (pos: Coord)
    ensures g.Point? ==> pos == g.at
    ensures g.Polygon? ==> pos == interior
    ensures !g.Point? && !g.Polygon? ==> pos == closest
  {
    match g
    case Point(at) => at
    case Polygon(_) => interior
    case _ => closest
  }

  class PolygonMap {
    const source: VectorSource
    const slot: DrawSlot
    const fmt: WktFormat
    /** JavaScript's `String` for a coordinate. */
    const show: real -> string
    /** The value of the geometry-type selector. */
    var typeSelect: DrawType
    /** The feature the popup was last filled with, and where it is shown (`None`: hidden). */
    var popupFeature: Feature?
    var popupAt: Option<Coord>
    /** The backend requests issued so far, oldest first. */
    var requests: seq<Request>

    ghost predicate Valid()
      reads this, slot
    {
      slot.Valid()
    }

    constructor(fmt: WktFormat, show: real -> string)
      ensures Valid() && fresh(source) && fresh(slot)
      ensures source.features == [] && slot.drawRef == null && slot.mapDraws == []
      ensures this.fmt == fmt && this.show == show
      ensures typeSelect == DrawPolygon && popupFeature == null && popupAt == None && requests == []
    {
      source := new VectorSource();
      slot := new DrawSlot();
      this.fmt := fmt;
      this.show := show;
      typeSelect := DrawPolygon;
      popupFeature := null;
      popupAt := None;
      requests := [];
    }

    /**
     * `loadFeaturesFromAPI`: the store is emptied before the request; a
     * failure or a non-array response leaves it empty; otherwise the
     * records are added in order until one cannot be read.
     */
    method LoadFeaturesFromApi(response: LoadResponse)
      modifies source, this`requests
      ensures source.Data() == LoadedData(response, fmt)
      ensures forall k :: 0 <= k < |source.features| ==> fresh(source.features[k])
      ensures requests == old(requests) + [GetAll]
    {
      source.Clear();
      requests := requests + [GetAll];
      if !response.LoadRecords? {
        return;
      }
      AddRecords(response.records);
    }

    /** Adds the records' features in order, stopping at the first record that cannot be read. */
    method AddRecords(records: seq<Record>)
      requires source.features == []
      modifies source
      ensures source.Data() == Run(records, LoadStep(fmt))
      ensures forall k :: 0 <= k < |source.features| ==> fresh(source.features[k])
    {
      var step := LoadStep(fmt);
      ghost var added: seq<Feature> := [];
      var i := 0;
      while i < |records|
        invariant 0 <= i <= |records|
        invariant NoAbort(records[..i], step)
        invariant source.features == added
        invariant source.Data() == Run(records[..i], step)
        invariant forall k :: 0 <= k < |added| ==> fresh(added[k])
      {
        var r := records[i];
        assert records[..i + 1] == records[..i] + [r];
        var thrown, feature := LoadRecord(r);
        if thrown {
          // the exception leaves the loop; the remaining records are not read
          assert records == records[..i] + [r] + records[i + 1..];
          RunStopsAtAbort(records[..i], r, records[i + 1..], step);
          return;
        }
        if feature != null {
          added := added + [feature];
        }
        RunSnoc(records[..i], r, step);
        i := i + 1;
      }
      assert records[..i] == records;
    }

    /**
     * One record of the load loop: a record without WKT is passed over, a
     * WKT the reader rejects throws, and a point or polygon becomes a new
     * feature.
     */
    method LoadRecord(r: Record) returns (thrown: bool, feature: Feature?)
      modifies source
      ensures thrown <==> LoadStep(fmt)(r).Abort?
      ensures source.Data() == old(source.Data()) + Out(LoadStep(fmt)(r))
      ensures feature == null ==> source.features == old(source.features)
      ensures feature != null ==> fresh(feature) && source.features == old(source.features) + [feature]
    {
      thrown, feature := false, null;
      if r.wkt != "" {
        var g := fmt.read(r.wkt, DataProjection(r.wkt));
        if g.None? {
          return true, null;
        }
        if g.value.Point? || g.value.Polygon? {
          feature := new Feature(RecordFeature(r, g.value, false));
          source.AddFeature(feature);
        }
      }
    }

    /** Replaces the store with the optimized points, stopping at one that cannot be read. */
    method AddOptimizedPoints(points: seq<Record>)
      modifies source
      ensures source.Data() == Run(points, OptimizedStep(fmt))
      ensures forall k :: 0 <= k < |source.features| ==> fresh(source.features[k])
    {
      source.Clear();
      var step := OptimizedStep(fmt);
      ghost var added: seq<Feature> := [];
      var i := 0;
      while i < |points|
        invariant 0 <= i <= |points|
        invariant NoAbort(points[..i], step)
        invariant source.features == added
        invariant source.Data() == Run(points[..i], step)
        invariant forall k :: 0 <= k < |added| ==> fresh(added[k])
      {
        var p := points[i];
        assert points[..i + 1] == points[..i] + [p];
        var feature := AddOptimizedPoint(p);
        if feature == null {
          assert points == points[..i] + [p] + points[i + 1..];
          RunStopsAtAbort(points[..i], p, points[i + 1..], step);
          return;
        }
        added := added + [feature];
        RunSnoc(points[..i], p, step);
        i := i + 1;
      }
      assert points[..i] == points;
    }

    /** One optimized point: a new feature for it is added when its WKT can be read. */
    method AddOptimizedPoint(p: Record) returns (feature: Feature?)
      modifies source
      ensures feature == null <==> OptimizedStep(fmt)(p).Abort?
      ensures source.Data() == old(source.Data()) + Out(OptimizedStep(fmt)(p))
      ensures feature == null ==> source.features == old(source.features)
      ensures feature != null ==> fresh(feature) && source.features == old(source.features) + [feature]
    {
      var g := fmt.read(p.wkt, EPSG4326);
      if g.None? {
        return null;
      }
      feature := new Feature(RecordFeature(p, g.value, true));
      source.AddFeature(feature);
    }

    /**
     * The `drawend` handler for the drawn feature `f`, which the draw
     * interaction adds to the store once the handler first waits: a
     * polygon goes to the optimizer, any other drawing is named and saved.
     */
    method OnDrawEnd(f: Feature, optimize: OptimizeResponse, name: Option<string>, addOk: bool, reload: LoadResponse)
      requires f !in source.features
      modifies source, this`requests
      ensures f.geometry.Polygon? && To4326Wkt(f.geometry, fmt, show).None? ==>
        source.features == old(source.features) + [f] && requests == old(requests)
      ensures f.geometry.Polygon? && To4326Wkt(f.geometry, fmt, show).Some? ==>
        requests == old(requests) + [GetOptimizedPoints(To4326Wkt(f.geometry, fmt, show).value)]
        && match optimize
           case OptimizeFailed => source.features == old(source.features)
           case OptimizeNotArray => source.features == []
           case OptimizePoints(points) => source.Data() == Run(points, OptimizedStep(fmt))
      ensures !f.geometry.Polygon? && (name.None? || name == Some("")) ==>
        source.features == old(source.features) && requests == old(requests)
      ensures !f.geometry.Polygon? && name.Some? && name.value != "" && !addOk ==>
        source.features == old(source.features)
        && requests == old(requests) + [Add(name.value, fmt.write(f.geometry, EPSG4326))]
      ensures !f.geometry.Polygon? && name.Some? && name.value != "" && addOk ==>
        source.Data() == LoadedData(reload, fmt)
        && requests == old(requests) + [Add(name.value, fmt.write(f.geometry, EPSG4326)), GetAll]
    {
      if f.geometry.Polygon? {
        OptimizeDrawnPolygon(f, optimize);
      } else {
        SaveDrawing(f, name, addOk, reload);
      }
    }

    /**
     * The polygon branch of `drawend`: the polygon is written with
     * `to4326WKT` and sent to the optimizer. On success the store is
     * emptied and refilled with the returned points (a point that cannot
     * be read ends the refill); on failure only `f` is removed; when
     * `data` is not an array the store is left empty. A polygon whose WKT
     * cannot be written is removed before it is added, so it stays.
     */
    method OptimizeDrawnPolygon(f: Feature, optimize: OptimizeResponse)
      requires f !in source.features
      modifies source, this`requests
      ensures To4326Wkt(f.geometry, fmt, show).None? ==>
        source.features == old(source.features) + [f] && requests == old(requests)
      ensures To4326Wkt(f.geometry, fmt, show).Some? ==>
        requests == old(requests) + [GetOptimizedPoints(To4326Wkt(f.geometry, fmt, show).value)]
        && match optimize
           case OptimizeFailed => source.features == old(source.features)
           case OptimizeNotArray => source.features == []
           case OptimizePoints(points) => source.Data() == Run(points, OptimizedStep(fmt))
    {
      var wkt := To4326Wkt(f.geometry, fmt, show);
      if wkt.None? {
        // thrown before the handler waits: the removal precedes the addition
        source.RemoveFeature(f);
        source.AddFeature(f);
        return;
      }
      source.AddFeature(f);
      requests := requests + [GetOptimizedPoints(wkt.value)];
      match optimize {
        case OptimizeFailed =>
          source.RemoveFeature(f);
          AppendThenRemove(old(source.features), f);
        case OptimizeNotArray =>
          source.Clear();
          source.RemoveFeature(f);
        case OptimizePoints(points) =>
          AddOptimizedPoints(points);
          // a point that cannot be read throws into the handler's catch
          source.RemoveFeature(f);
      }
    }

    /**
     * The branch of `drawend` for other geometries: the drawing is named
     * with `prompt`; an empty or cancelled name removes `f` without a
     * request; a saved name reloads the store; a failed save removes `f`.
     */
    method SaveDrawing(f: Feature, name: Option<string>, addOk: bool, reload: LoadResponse)
      requires f !in source.features
      modifies source, this`requests
      ensures name.None? || name == Some("") ==>
        source.features == old(source.features) && requests == old(requests)
      ensures name.Some? && name.value != "" && !addOk ==>
        source.features == old(source.features)
        && requests == old(requests) + [Add(name.value, fmt.write(f.geometry, EPSG4326))]
      ensures name.Some? && name.value != "" && addOk ==>
        source.Data() == LoadedData(reload, fmt)
        && requests == old(requests) + [Add(name.value, fmt.write(f.geometry, EPSG4326)), GetAll]
    {
      var wkt := fmt.write(f.geometry, EPSG4326);
      source.AddFeature(f);
      if name.None? || name == Some("") {
        // the removal is scheduled after the draw interaction has added `f`
        source.RemoveFeature(f);
        AppendThenRemove(old(source.features), f);
        return;
      }
      requests := requests + [Add(name.value, wkt)];
      if addOk {
        LoadFeaturesFromApi(reload);
      } else {
        source.RemoveFeature(f);
        AppendThenRemove(old(source.features), f);
      }
    }

    /**
     * The `modifyend` handler: one update per modified feature with a
     * truthy id, in order, each failure ignored; then one reload. A
     * feature whose WKT cannot be written throws out of the handler before
     * the reload.
     */
    method OnModifyEnd(modified: seq<Feature>, reload: LoadResponse)
      modifies source, this`requests
      ensures var m := ModifyUpdates(DataOf(modified), fmt, show);
        (m.completed ==> requests == old(requests) + m.updates + [GetAll] && source.Data() == LoadedData(reload, fmt))
        && (!m.completed ==> requests == old(requests) + m.updates && source.features == old(source.features))
    {
      var completed := SendUpdates(modified);
      if completed {
        LoadFeaturesFromApi(reload);
      }
    }

    /** The loop of `modifyend`: it reports whether it ran to the end without throwing. */
    method SendUpdates(modified: seq<Feature>) returns (completed: bool)
      modifies this`requests
      ensures var m := ModifyUpdates(DataOf(modified), fmt, show);
        completed == m.completed && requests == old(requests) + m.updates
    {
      ghost var ds := DataOf(modified);
      var i := 0;
      while i < |modified|
        invariant 0 <= i <= |modified|
        invariant ModifyUpdates(ds[..i], fmt, show).completed
        invariant requests == old(requests) + ModifyUpdates(ds[..i], fmt, show).updates
      {
        var f := modified[i];
        assert ds[..i + 1][..i] == ds[..i] && ds[..i + 1][i] == f.Data();
        if TruthyId(f.id) {
          var wkt := To4326Wkt(f.geometry, fmt, show);
          if wkt.None? {
            ModifyStaysStopped(ds, i + 1, fmt, show);
            return false;
          }
          requests := requests + [SaveGeometry(f.id.value, wkt.value)];
        }
        i := i + 1;
      }
      assert ds[..i] == ds;
      return true;
    }

    /** The `select` handler: a selected feature fills the popup and opens it; no selection hides it. */
    method OnSelect(selected: Feature?, interior: Coord, closest: Coord)
      modifies this`popupFeature, this`popupAt
      ensures selected == null ==> popupAt == None && popupFeature == old(popupFeature)
      ensures selected != null ==>
        popupFeature == selected && popupAt == Some(PopupPosition(selected.geometry, interior, closest))
    {
      if selected == null {
        popupAt := None;
        return;
      }
      popupFeature := selected;
      popupAt := Some(PopupPosition(selected.geometry, interior, closest));
    }

    /**
     * The popup's delete button: after a confirmation one delete request is
     * sent for the feature's id; the feature is removed and the popup hidden
     * only when the request succeeds.
     */
    method OnDeleteClicked(confirmed: bool, deleteOk: bool)
      modifies source, this`requests, this`popupAt
      ensures old(popupFeature) == null || !confirmed ==>
        source.features == old(source.features) && requests == old(requests) && popupAt == old(popupAt)
      ensures old(popupFeature) != null && confirmed ==>
        requests == old(requests) + [Delete(popupFeature.id)]
        && (deleteOk ==> source.features == Without(old(source.features), popupFeature) && popupAt == None)
        && (!deleteOk ==> source.features == old(source.features) && popupAt == old(popupAt))
    {
      if popupFeature == null || !confirmed {
        return;
      }
      var ft := popupFeature;
      requests := requests + [Delete(ft.id)];
      if deleteOk {
        source.RemoveFeature(ft);
        popupAt := None;
      }
    }

    /** The Escape key: aborts the drawing and reports drawing mode off when `drawRef` is set. */
    method OnKeyDown(key: string) returns (drawingModeOff: bool)
      ensures drawingModeOff <==> key == "Escape" && slot.drawRef != null
    {
      drawingModeOff := slot.Escape(key);
    }

    /** The geometry-type selector's change: the draw interaction is replaced for the new type. */
    method OnTypeSelectChange(t: DrawType)
      requires Valid()
      modifies this`typeSelect, slot
      ensures Valid() && typeSelect == t
      ensures old(slot.drawRef) != null ==> old(slot.drawRef) !in slot.mapDraws
      ensures t == NoDraw ==> slot.mapDraws == [] && slot.drawRef == old(slot.drawRef)
      ensures t != NoDraw ==> slot.drawRef != null && slot.drawRef.drawType == t && slot.mapDraws == [slot.drawRef]
    {
      typeSelect := t;
      slot.Install(t);
    }

    /**
     * The `drawingMode` effect: turning it on selects "Polygon" and installs
     * a polygon draw interaction; turning it off removes the interaction and
     * forgets it.
     */
    method OnDrawingModeChange(drawingMode: bool)
      requires Valid()
      modifies this`typeSelect, slot
      ensures Valid()
      ensures drawingMode ==>
        typeSelect == DrawPolygon && slot.drawRef != null && slot.drawRef.drawType == DrawPolygon
        && slot.mapDraws == [slot.drawRef]
        && (old(slot.drawRef) != null ==> old(slot.drawRef) !in slot.mapDraws)
      ensures !drawingMode ==> typeSelect == old(typeSelect) && slot.drawRef == null && slot.mapDraws == []
    {
      if drawingMode {
        typeSelect := DrawPolygon;
        slot.Install(DrawPolygon);
      } else {
        slot.Uninstall();
      }
    }
  }
}
