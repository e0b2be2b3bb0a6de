/**
 * The general map (src/Components/Map/Map.jsx): loads every stored
 * geometry, labels features with their ids, saves a drawing under a
 * prompted name and marks it with the chosen icon, and replaces the draw
 * interaction when the geometry type changes.
 */
module SimpleMap {
  import opened Wrappers
  import opened JsText
  import opened Backend
  import opened MapModel
  import opened ProjectionGuess

  // ---------------------------------------------------------------------
  // `loadFeaturesFromAPI`

  /**
   * One record of the load: no WKT is skipped; a text the reader rejects
   * is caught and skipped; every other geometry is added, of any type,
   * with the record's id and name.
   */
  function LoadStep(fmt: WktFormat): Record -> Step {
    (r: Record) =>
      if r.wkt == "" then Skip
      else match fmt.read(r.wkt, DataProjection(r.wkt))
        case None => Skip
        case Some(g) => Keep(RecordFeature(r, g, false))
  }

  /** The features a load leaves: nothing after a failure or a non-array, the loop's features otherwise. */
  function LoadedData(response: LoadResponse, fmt: WktFormat): seq<FeatureData> {
    if response.LoadRecords? then Run(response.records, LoadStep(fmt)) else []
  }

  lemma LoadNeverStops(records: seq<Record>, fmt: WktFormat)
    ensures NoAbort(records, LoadStep(fmt))
  {
  }

  /** A record that cannot be read changes nothing about the records around it. */
  lemma UnreadableRecordIsSkipped(before: seq<Record>, bad: Record, after: seq<Record>, fmt: WktFormat)
    requires fmt.read(bad.wkt, DataProjection(bad.wkt)).None?
    ensures LoadedData(LoadRecords(before + [bad] + after), fmt)
      == LoadedData(LoadRecords(before), fmt) + LoadedData(LoadRecords(after), fmt)
  {
    LoadNeverStops(before, fmt);
    LoadNeverStops(before + [bad], fmt);
    RunAppend(before + [bad], after, LoadStep(fmt));
    RunSnoc(before, bad, LoadStep(fmt));
  }

  /** Every record with a WKT the reader accepts is loaded, whatever its geometry type. */
  lemma ReadableRecordIsLoaded(records: seq<Record>, fmt: WktFormat, i: nat)
    requires i < |records| && records[i].wkt != ""
    requires fmt.read(records[i].wkt, DataProjection(records[i].wkt)).Some?
    ensures RecordFeature(records[i], fmt.read(records[i].wkt, DataProjection(records[i].wkt)).value, false)
      in LoadedData(LoadRecords(records), fmt)
  {
    LoadNeverStops(records, fmt);
    RunKeepsAll(records, LoadStep(fmt), i);
  }

  /** Every loaded feature is a geometry read from a record with a WKT, carrying that record's id and name. */
  lemma LoadedFeatureComesFromRecord(records: seq<Record>, fmt: WktFormat, d: FeatureData)
    requires d in LoadedData(LoadRecords(records), fmt)
    ensures exists i :: (0 <= i < |records| && records[i].wkt != ""
      && fmt.read(records[i].wkt, DataProjection(records[i].wkt)) == Some(d.geometry)
      && d == RecordFeature(records[i], d.geometry, false))
  {
    RunOnlyKeeps(records, LoadStep(fmt), d);
  }

  // ---------------------------------------------------------------------
  // `styleFunction`

  /** The layer style: a label, no style, or an exception (a geometry without a base style but with an id). */
  datatype StyleResult = Styled(caption: Option<string>) | NoStyle | StyleError

  /**
   * Points, line strings and polygons get a base style, labelled with
   * `String(id)` when the feature has an id. Any other geometry has no
   * base style: without an id nothing is drawn, with one the label cannot
   * be set on it.
   */
  function StyleOf(d: FeatureData): (s: StyleResult)
    ensures s.Styled? <==> !d.geometry.OtherGeometry?
    ensures s.StyleError? <==> d.geometry.OtherGeometry? && d.id.Some?
    ensures s.Styled? ==> (s.caption.Some? <==> d.id.Some?)
    ensures s.Styled? && s.caption.Some? ==> s.caption.value == IntText(d.id.value)
  {
    if d.geometry.OtherGeometry? then
      if d.id.Some? then StyleError else NoStyle
    else
      Styled(if d.id.Some? then Some(IntText(d.id.value)) else None)
  }

  /** Features with different ids never show the same label. */
  lemma LabelsTellIdsApart(d1: FeatureData, d2: FeatureData)
    requires StyleOf(d1).Styled? && StyleOf(d1).caption.Some?
    requires StyleOf(d2).Styled? && StyleOf(d2).caption.Some?
    requires d1.id != d2.id
    ensures StyleOf(d1).caption != StyleOf(d2).caption
  {
    if StyleOf(d1).caption == StyleOf(d2).caption {
      IntTextInjective(d1.id.value, d2.id.value);
    }
  }

  // ---------------------------------------------------------------------
  // Icons

  /** The value of the icon selector. */
  datatype IconChoice = NoIcon | Flag | Star | Plane | Pin

  /** The emoji of an icon choice other than "none". */
  function IconText(icon: IconChoice): (t: string)
    requires icon != NoIcon
    ensures |t| >= 1
  {
    match icon
    case Flag => "\U{1F6A9}"
    case Star => "\U{2B50}"
    case Plane => "\U{2708}\U{FE0F}"
    case Pin => "\U{1F4CD}"
  }

  /** The four icons are told apart by their text. */
  lemma IconTextsDiffer(a: IconChoice, b: IconChoice)
    requires a != NoIcon && b != NoIcon && a != b
    ensures IconText(a) != IconText(b)
  {
    assert IconText(a)[0] != IconText(b)[0];
  }

  /**
   * Where the icon goes: on a point, at its coordinate; on a line string,
   * at its last vertex; on a polygon, at its interior point. A line
   * string without vertices and any other geometry get no icon.
   */
  function IconAnchor(g: Geometry, interior: Coord): (c: Option<Coord>)
    ensures g.Point? ==> c == Some(g.at)
    ensures g.LineString? ==> (c.Some? <==> g.path != []) && (g.path != [] ==> c.value == g.path[|g.path| - 1])
    ensures g.Polygon? ==> c == Some(interior)
    ensures g.OtherGeometry? ==> c.None?
  {
    match g
    case Point(at) => Some(at)
    case LineString(path) => if path == [] then None else Some(path[|path| - 1])
    case Polygon(_) => Some(interior)
    case OtherGeometry(_) => None
  }

  /** The icon feature: a point at the anchor with the icon's text, and no id or name. */
  function IconFeature(at: Coord, text: string): FeatureData {
    FeatureData(None, "", Point(at), false, Some(text))
  }

  /** The features the icon step adds after the reload. */
  function IconFeatures(icon: IconChoice, g: Geometry, interior: Coord): (ds: seq<FeatureData>)
    ensures |ds| <= 1
    ensures |ds| == 1 <==> icon != NoIcon && IconAnchor(g, interior).Some?
    ensures |ds| == 1 ==> ds[0] == IconFeature(IconAnchor(g, interior).value, IconText(icon))
  {
    if icon == NoIcon then []
    else match IconAnchor(g, interior)
      case None => []
      case Some(at) => [IconFeature(at, IconText(icon))]
  }

  /** A drawn point, line or polygon with an icon chosen gets exactly one icon feature: a point with the icon's text and no id. */
  lemma OneIconPerDrawing(icon: IconChoice, g: Geometry, interior: Coord)
    requires icon != NoIcon
    requires g.Point? || g.Polygon? || (g.LineString? && g.path != [])
    ensures |IconFeatures(icon, g, interior)| == 1
    ensures var d := IconFeatures(icon, g, interior)[0];
      d.geometry.Point? && d.id.None? && d.icon == Some(IconText(icon))
  {
  }

  // ---------------------------------------------------------------------
  // The component

  class SimpleMap {
    const source: VectorSource
    const slot: DrawSlot
    const fmt: WktFormat
    /** The value of the geometry-type selector. */
    var typeSelect: DrawType
    /** The backend requests issued so far, oldest first. */
    var requests: seq<Request>

    ghost predicate Valid()
      reads this, slot
    {
      slot.Valid()
    }

    /** Mounting: the selector starts at "Point" and a point draw interaction is installed. */
    constructor(fmt: WktFormat)
      ensures Valid() && fresh(source) && fresh(slot)
      ensures source.features == [] && requests == [] && this.fmt == fmt
      ensures typeSelect == DrawPoint
      ensures slot.drawRef != null && slot.drawRef.drawType == DrawPoint && slot.mapDraws == [slot.drawRef]
    {
      source := new VectorSource();
      slot := new DrawSlot();
      this.fmt := fmt;
      typeSelect := DrawPoint;
      requests := [];
      new;
      slot.Install(DrawPoint);
    }

    /**
     * `loadFeaturesFromAPI`: the store is emptied before the request; a
     * failure or a non-array response leaves it empty; otherwise every
     * record is tried in turn and the readable ones are added.
     */
    method LoadFeaturesFromApi(response: LoadResponse)
      modifies source, this`requests
      ensures source.Data() == LoadedData(response, fmt)
      ensures forall k :: 0 <= k < |source.features| ==> fresh(source.features[k])
      ensures requests == old(requests) + [GetAll]
    {
      source.Clear();
      requests := requests + [GetAll];
      if !response.LoadRecords? {
        return;
      }
      AddRecords(response.records);
    }

    /** Adds the features of every readable record, in order. */
    method AddRecords(records: seq<Record>)
      requires source.features == []
      modifies source
      ensures source.Data() == Run(records, LoadStep(fmt))
      ensures forall k :: 0 <= k < |source.features| ==> fresh(source.features[k])
    {
      var step := LoadStep(fmt);
      ghost var added: seq<Feature> := [];
      var i := 0;
      while i < |records|
        invariant 0 <= i <= |records|
        invariant source.features == added
        invariant source.Data() == Run(records[..i], step)
        invariant forall k :: 0 <= k < |added| ==> fresh(added[k])
      {
        var r := records[i];
        assert records[..i + 1] == records[..i] + [r];
        var feature := LoadRecord(r);
        if feature != null {
          added := added + [feature];
        }
        LoadNeverStops(records[..i], fmt);
        RunSnoc(records[..i], r, step);
        i := i + 1;
      }
      assert records[..i] == records;
    }

    /**
     * One record of the load loop: a record without WKT is passed over, a
     * WKT the reader rejects is caught and passed over, and any other
     * geometry becomes a new feature.
     */
    method LoadRecord(r: Record) returns (feature: Feature?)
      modifies source
      ensures source.Data() == old(source.Data()) + Out(LoadStep(fmt)(r))
      ensures feature == null ==> source.features == old(source.features)
      ensures feature != null ==> fresh(feature) && source.features == old(source.features) + [feature]
    {
      feature := null;
      if r.wkt != "" {
        var g := fmt.read(r.wkt, DataProjection(r.wkt));
        if g.Some? {
          feature := new Feature(RecordFeature(r, g.value, false));
          source.AddFeature(feature);
        }
      }
    }

    /**
     * The `drawend` handler for the drawn feature `f`, which the draw
     * interaction adds to the store once the handler first waits. An empty
     * or cancelled name removes `f` without a request; a failed save
     * removes `f`; a saved drawing reloads the store and then adds the
     * chosen icon's feature at the drawing's anchor.
     */
    method OnDrawEnd(f: Feature, name: Option<string>, addOk: bool, reload: LoadResponse, icon: IconChoice, interior: Coord)
      requires f !in source.features
      modifies source, this`requests
      ensures name.None? || name == Some("") ==>
        source.features == old(source.features) && requests == old(requests)
      ensures name.Some? && name.value != "" && !addOk ==>
        source.features == old(source.features)
        && requests == old(requests) + [Add(name.value, fmt.write(f.geometry, EPSG3857))]
      ensures name.Some? && name.value != "" && addOk ==>
        source.Data() == LoadedData(reload, fmt) + IconFeatures(icon, f.geometry, interior)
        && requests == old(requests) + [Add(name.value, fmt.write(f.geometry, EPSG3857)), GetAll]
    {
      var wkt := fmt.write(f.geometry, EPSG3857);
      source.AddFeature(f);
      if name.None? || name == Some("") {
        // the removal is scheduled after the draw interaction has added `f`
        source.RemoveFeature(f);
        AppendThenRemove(old(source.features), f);
        return;
      }
      requests := requests + [Add(name.value, wkt)];
      if !addOk {
        source.RemoveFeature(f);
        AppendThenRemove(old(source.features), f);
        return;
      }
      LoadFeaturesFromApi(reload);
      AddIcon(f, icon, interior);
    }

    /**
     * The icon step after a saved drawing's reload: with an icon chosen, a
     * new point feature showing it is added at the drawing's anchor.
     */
    method AddIcon(f: Feature, icon: IconChoice, interior: Coord)
      requires f !in source.features
      modifies source
      ensures source.Data() == old(source.Data()) + IconFeatures(icon, f.geometry, interior)
    {
      if icon == NoIcon {
        return;
      }
      var anchor := IconAnchor(f.geometry, interior);
      if anchor.Some? {
        var iconFeature := new Feature(IconFeature(anchor.value, IconText(icon)));
        source.AddFeature(iconFeature);
      } else if f.geometry.LineString? {
        // a line string without vertices throws; the catch removes `f`, which the reload already dropped
        source.RemoveFeature(f);
      }
    }

    /**
     * The geometry-type selector's change: the draw interaction `drawRef`
     * holds is removed before a new one is installed; "None" installs none.
     */
    method OnTypeSelectChange(t: DrawType)
      requires Valid()
      modifies this`typeSelect, slot
      ensures Valid() && typeSelect == t
      ensures old(slot.drawRef) != null ==> old(slot.drawRef) !in slot.mapDraws
      ensures t == NoDraw ==> slot.mapDraws == [] && slot.drawRef == old(slot.drawRef)
      ensures t != NoDraw ==> slot.drawRef != null && slot.drawRef.drawType == t && slot.mapDraws == [slot.drawRef]
    {
      typeSelect := t;
      slot.Install(t);
    }
  }
}
