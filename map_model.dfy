/**
 * What the two map components share: geometries, features, the
 * OpenLayers vector source as an in-memory list of features, the record
 * loops that fill it, and the slot holding the current draw interaction.
 */
module MapModel {
  import opened Wrappers

  datatype Coord = Coord(x: real, y: real)

  datatype Geometry =
    | Point(at: Coord)
    | LineString(path: seq<Coord>)
    | Polygon(rings: seq<seq<Coord>>)
    | OtherGeometry(kind: string)

  /** The projection a WKT text is written in; the map itself shows EPSG:3857. */
  datatype Projection = EPSG3857 | EPSG4326

  /**
   * OpenLayers' WKT format, left uninterpreted: `read` parses a text
   * written in the given projection into map coordinates (`None` when it
   * throws); `write` writes a geometry in the given projection.
   */
  datatype WktFormat = WktFormat(
    read: (string, Projection) -> Option<Geometry>,
    write: (Geometry, Projection) -> string)

  /** A location record of the backend; a missing name or WKT is the empty string. */
  datatype Record = Record(id: Option<int>, name: string, wkt: string)

  /** What a feature carries: its id, its `name` property, its geometry, the `optimized` flag and an icon text. */
  datatype FeatureData = FeatureData(
    id: Option<int>,
    name: string,
    geometry: Geometry,
    optimized: bool,
    icon: Option<string>)

  /** The feature loaded from a record: the record's id and name on the parsed geometry. */
  function RecordFeature(r: Record, g: Geometry, optimized: bool): (d: FeatureData)
    ensures d.id == r.id && d.name == r.name && d.geometry == g && d.optimized == optimized && d.icon == None
  {
    FeatureData(r.id, r.name, g, optimized, None)
  }

  /** An OpenLayers feature; the stores hold them by identity. */
  class Feature {
    const id: Option<int>
    const name: string
    const geometry: Geometry
    const optimized: bool
    const icon: Option<string>

    constructor(d: FeatureData)
      ensures Data() == d
    {
      id := d.id;
      name := d.name;
      geometry := d.geometry;
      optimized := d.optimized;
      icon := d.icon;
    }

    function Data(): FeatureData {
      FeatureData(id, name, geometry, optimized, icon)
    }
  }

  function DataOf(fs: seq<Feature>): (ds: seq<FeatureData>)
    ensures |ds| == |fs|
    ensures forall i :: 0 <= i < |fs| ==> ds[i] == fs[i].Data()
    decreases |fs|
  {
    if fs == [] then [] else DataOf(fs[..|fs| - 1]) + [fs[|fs| - 1].Data()]
  }

  /** The list without every occurrence of `f`. */
  function Without(fs: seq<Feature>, f: Feature): (r: seq<Feature>)
    ensures forall i :: 0 <= i < |r| ==> r[i] in fs && r[i] != f
    ensures forall i :: 0 <= i < |fs| && fs[i] != f ==> fs[i] in r
    ensures f !in fs ==> r == fs
    decreases |fs|
  {
    if fs == [] then []
    else if fs[|fs| - 1] == f then Without(fs[..|fs| - 1], f)
    else
      assert fs == fs[..|fs| - 1] + [fs[|fs| - 1]];
      Without(fs[..|fs| - 1], f) + [fs[|fs| - 1]]
  }

  /** Removing a feature that was just appended restores the list it was appended to. */
  lemma AppendThenRemove(fs: seq<Feature>, f: Feature)
    requires f !in fs
    ensures Without(fs + [f], f) == fs
  {
    assert (fs + [f])[..|fs|] == fs;
  }

  /** `VectorSource`: the features shown on the map, in insertion order. */
  class VectorSource {
    var features: seq<Feature>

    constructor()
      ensures features == []
    {
      features := [];
    }

    function Data(): seq<FeatureData>
      reads this
    {
      DataOf(features)
    }

    method Clear()
      modifies this
      ensures features == []
    {
      features := [];
    }

    method AddFeature(f: Feature)
      modifies this
      ensures features == old(features) + [f]
      ensures Data() == old(Data()) + [f.Data()]
    {
      features := features + [f];
    }

    /** `removeFeature(f)`: nothing happens when `f` is not in the source. */
    method RemoveFeature(f: Feature)
      modifies this
      ensures features == Without(old(features), f)
    {
      features := Without(features, f);
    }
  }

  // ---------------------------------------------------------------------
  // The record loops

  /** What one record does in a load loop: add a feature, be skipped, or throw out of the loop. */
  datatype Step = Keep(feature: FeatureData) | Skip | Abort

  function Out(s: Step): seq<FeatureData> {
    if s.Keep? then [s.feature] else []
  }

  /** The features a loop over `records` adds, up to the first record that throws. */
  function Run(records: seq<Record>, step: Record -> Step): (r: seq<FeatureData>)
    ensures |r| <= |records|
    decreases |records|
  {
    if records == [] then []
    else match step(records[0])
      case Abort => []
      case Skip => Run(records[1..], step)
      case Keep(d) => [d] + Run(records[1..], step)
  }

  predicate NoAbort(records: seq<Record>, step: Record -> Step) {
    forall i :: 0 <= i < |records| ==> !step(records[i]).Abort?
  }

  /** One more record that does not throw adds what its step adds. */
  lemma {:induction false} RunSnoc(records: seq<Record>, r: Record, step: Record -> Step)
    requires NoAbort(records, step)
    ensures Run(records + [r], step) == Run(records, step) + Out(step(r))
    decreases |records|
  {
    if records == [] {
      assert Run([r], step) == Out(step(r)) + Run([], step);
    } else {
      assert (records + [r])[1..] == records[1..] + [r];
      RunSnoc(records[1..], r, step);
    }
  }

  /** A record that throws ends the loop: nothing after it is added. */
  lemma {:induction false} RunStopsAtAbort(before: seq<Record>, r: Record, after: seq<Record>, step: Record -> Step)
    requires NoAbort(before, step) && step(r).Abort?
    ensures Run(before + [r] + after, step) == Run(before, step)
    decreases |before|
  {
    if before == [] {
      assert (before + [r] + after)[0] == r;
    } else {
      assert (before + [r] + after)[1..] == before[1..] + [r] + after;
      RunStopsAtAbort(before[1..], r, after, step);
    }
  }

  /** Without a record that throws, the loop over two parts adds what each part adds. */
  lemma {:induction false} RunAppend(xs: seq<Record>, ys: seq<Record>, step: Record -> Step)
    requires NoAbort(xs, step)
    ensures Run(xs + ys, step) == Run(xs, step) + Run(ys, step)
    decreases |xs|
  {
    if xs == [] {
      assert xs + ys == ys;
    } else {
      assert (xs + ys)[1..] == xs[1..] + ys;
      RunAppend(xs[1..], ys, step);
    }
  }

  /** Every feature the loop adds comes from a record whose step keeps it. */
  lemma {:induction false} RunOnlyKeeps(records: seq<Record>, step: Record -> Step, d: FeatureData)
    requires d in Run(records, step)
    ensures exists i :: 0 <= i < |records| && step(records[i]) == Keep(d)
    decreases |records|
  {
    if step(records[0]) != Keep(d) {
      RunOnlyKeeps(records[1..], step, d);
      var i :| 0 <= i < |records[1..]| && step(records[1..][i]) == Keep(d);
      assert step(records[i + 1]) == Keep(d);
    }
  }

  /** When no record throws, every record the step keeps is added. */
  lemma {:induction false} RunKeepsAll(records: seq<Record>, step: Record -> Step, i: nat)
    requires NoAbort(records, step) && i < |records| && step(records[i]).Keep?
    ensures step(records[i]).feature in Run(records, step)
    decreases |records|
  {
    if i > 0 {
      RunKeepsAll(records[1..], step, i - 1);
    }
  }

  /** The outcome of `getData()` in a load: a failure, a value that is not an array, or the records. */
  datatype LoadResponse = LoadFailed | LoadNotArray | LoadRecords(records: seq<Record>)

  // ---------------------------------------------------------------------
  // Draw interaction

  /** The value of the geometry-type selector. */
  datatype DrawType = NoDraw | DrawPoint | DrawLineString | DrawPolygon

  /** A draw interaction, for one geometry type. */
  class Draw {
    const drawType: DrawType

    constructor(t: DrawType)
      ensures drawType == t
    {
      drawType := t;
    }
  }

  /**
   * `drawRef` and the draw interactions installed on the map. Choosing
   * "None" removes the interaction but leaves `drawRef` pointing at it.
   */
  class DrawSlot {
    var drawRef: Draw?
    var mapDraws: seq<Draw>

    /** At most one draw interaction is installed, and it is the one `drawRef` holds. */
    ghost predicate Valid()
      reads this
    {
      mapDraws == [] || (drawRef != null && mapDraws == [drawRef])
    }

    constructor()
      ensures Valid() && drawRef == null && mapDraws == []
    {
      drawRef := null;
      mapDraws := [];
    }

    /**
     * `addDrawInteraction` (and the type selector's change handler): the
     * interaction `drawRef` holds is removed first; a new one is installed
     * and remembered unless the type is "None".
     */
    method Install(t: DrawType)
      requires Valid()
      modifies this
      ensures Valid()
      ensures old(drawRef) != null ==> old(drawRef) !in mapDraws
      ensures t == NoDraw ==> mapDraws == [] && drawRef == old(drawRef)
      ensures t != NoDraw ==> drawRef != null && fresh(drawRef) && drawRef.drawType == t && mapDraws == [drawRef]
    {
      if drawRef != null {
        mapDraws := [];
      }
      if t == NoDraw {
        return;
      }
      var draw := new Draw(t);
      mapDraws := [draw];
      drawRef := draw;
    }

    /** Removes the interaction `drawRef` holds, if any, and forgets it. */
    method Uninstall()
      requires Valid()
      modifies this
      ensures Valid() && drawRef == null && mapDraws == []
    {
      if drawRef != null {
        mapDraws := [];
        drawRef := null;
      }
    }

    /** The Escape key aborts the current drawing and turns drawing mode off when `drawRef` is set. */
    method Escape(key: string) returns (aborted: bool)
      ensures aborted <==> key == "Escape" && drawRef != null
    {
      aborted := key == "Escape" && drawRef != null;
    }
  }
}
