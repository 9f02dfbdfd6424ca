/**
 * The browser's 3D path planner (PathPlanner3D.jsx): how waypoints stored
 * by older versions are normalised, how a user point is placed in the
 * three.js scene, how a click on the ground becomes a snapped waypoint,
 * and the planner's handlers, each of which computes a new points array
 * for the parent and the planner's own new state. Rendering is outside
 * the model; JavaScript's number-to-text and text-to-number conversions
 * are parameters.
 */
module PathPlanner3DJsx {
  import opened Json
  import opened Geometry

  /** A coordinate as a JavaScript point object may hold it. */
  datatype Coord = Undefined | Null | NaN | Num(value: real)

  /** The values `||` treats as false. */
  predicate Falsy(c: Coord) {
    c.Undefined? || c.Null? || c.NaN? || c == Num(0.0)
  }

  /** `c || 0` */
  function OrZero(c: Coord): (r: real)
    ensures Falsy(c) ==> r == 0.0
    ensures !Falsy(c) ==> c.Num? && r == c.value
  {
    if c.Num? then c.value else 0.0
  }

  /** A waypoint in user coordinates (z is the height). */
  datatype Point = Point(x: Coord, y: Coord, z: Coord)

  /** normalizedPoints, for one point: a falsy x or y reads as 0, and a
    * missing z (older 2D points) as 0. */
  function Normalized(p: Point): Point {
    Point(Num(OrZero(p.x)), Num(OrZero(p.y)), if p.z.Undefined? then Num(0.0) else p.z)
  }

  function NormalizedPoints(points: seq<Point>): (r: seq<Point>)
    ensures |r| == |points|
    ensures forall k :: 0 <= k < |points| ==> r[k] == Normalized(points[k])
  {
    seq(|points|, k requires 0 <= k < |points| => Normalized(points[k]))
  }

  /** PathLine's placement: user (x, y, z) is drawn at three.js (y, z, x),
    * so the user's height is three.js's vertical axis. */
  function Rendered(p: Point): Vec3 {
    Vec3(OrZero(p.y), OrZero(p.z), OrZero(p.x))
  }

  /** Normalisation turns falsy x and y into 0 and keeps numbers; it
    * replaces only an undefined z, so a null or NaN height survives it;
    * normalising twice changes nothing; and a normalised point is drawn
    * where the original would have been. */
  lemma NormalizedFacts(p: Point)
    ensures Falsy(p.x) ==> Normalized(p).x == Num(0.0)
    ensures !Falsy(p.x) ==> Normalized(p).x == p.x
    ensures Falsy(p.y) ==> Normalized(p).y == Num(0.0)
    ensures !Falsy(p.y) ==> Normalized(p).y == p.y
    ensures Normalized(p).z == (if p.z == Undefined then Num(0.0) else p.z)
    ensures Normalized(Normalized(p)) == Normalized(p)
    ensures Rendered(Normalized(p)) == Rendered(p)
  {
  }

  /** Normalising a whole array twice is normalising it once. */
  lemma NormalizedPointsIdempotent(points: seq<Point>)
    ensures NormalizedPoints(NormalizedPoints(points)) == NormalizedPoints(points)
  {
    var once := NormalizedPoints(points);
    forall k | 0 <= k < |points|
      ensures NormalizedPoints(once)[k] == once[k]
    {
      NormalizedFacts(points[k]);
    }
  }

  /** Math.round: to the nearest integer, halves upwards. */
  function Round(x: real): (n: int)
    ensures x - 0.5 < n as real <= x + 0.5
  {
    (x + 0.5).Floor
  }

  const SnapSize: real := 0.5

  /** Math.round(v / snapSize) * snapSize */
  function Snapped(v: real): real {
    Round(v / SnapSize) as real * SnapSize
  }

  /** Snapping moves a value by at most a quarter unit, onto the half-unit
    * grid, and a value already on the grid stays put. */
  lemma SnappedFacts(v: real)
    ensures v - 0.25 < Snapped(v) <= v + 0.25
    ensures Snapped(v) == (Round(v / SnapSize) as real) / 2.0
    ensures Snapped(Snapped(v)) == Snapped(v)
  {
    var n := Round(v / SnapSize);
    assert Snapped(v) / SnapSize == n as real;
    assert Round(n as real) == n;
  }

  /** GroundPlane's click handler: the scene point (x, y, z) becomes the
    * user point (z, x, y), each snapped, a zero height raised to 1. */
  function GroundClick(hit: Vec3): Point {
    var height := Snapped(hit.y);
    Point(Num(Snapped(hit.z)), Num(Snapped(hit.x)), Num(if height == 0.0 then 1.0 else height))
  }

  /** A clicked waypoint is drawn within a quarter unit of the click across
    * the ground and never on the ground itself. */
  lemma GroundClickLandsNearHit(hit: Vec3)
    ensures var drawn := Rendered(GroundClick(hit));
      && hit.x - 0.25 < drawn.x <= hit.x + 0.25
      && hit.z - 0.25 < drawn.z <= hit.z + 0.25
      && drawn.y != 0.0
      && (Snapped(hit.y) != 0.0 ==> drawn.y == Snapped(hit.y))
  {
    SnappedFacts(hit.x);
    SnappedFacts(hit.z);
  }

  /** The three text boxes of the manual entry form. */
  datatype Inputs = Inputs(x: string, y: string, z: string)

  const EmptyInputs: Inputs := Inputs("", "", "")

  /** The planner's own state: the name typed, the selected waypoint and
    * the manual entry form. */
  datatype Planner = Planner(pathName: string, selected: Option<int>, manual: Inputs)

  /** handleAddPoint: the normalised points with the new one after them. */
  function AddPoint(points: seq<Point>, x: real, y: real, z: real): (r: seq<Point>)
    ensures |r| == |points| + 1
    ensures r[..|points|] == NormalizedPoints(points)
    ensures r[|points|] == Point(Num(x), Num(y), Num(z))
  {
    NormalizedPoints(points) + [Point(Num(x), Num(y), Num(z))]
  }

  /** handleAddManualPoint: each box read as a number (an unreadable or
    * empty one as 0), the point added and the form emptied. */
  function AddManualPoint(points: seq<Point>, planner: Planner, parseFloat: string -> Coord): (r: (seq<Point>, Planner))
    ensures r.0 == AddPoint(points, OrZero(parseFloat(planner.manual.x)), OrZero(parseFloat(planner.manual.y)), OrZero(parseFloat(planner.manual.z)))
    ensures r.1 == planner.(manual := EmptyInputs)
  {
    var x := OrZero(parseFloat(planner.manual.x));
    var y := OrZero(parseFloat(planner.manual.y));
    var z := OrZero(parseFloat(planner.manual.z));
    (AddPoint(points, x, y, z), planner.(manual := EmptyInputs))
  }

  /** handleUndo: with points, all but the last and no selection; without,
    * nothing happens. */
  function Undo(points: seq<Point>, planner: Planner): (r: (Option<seq<Point>>, Planner))
    ensures points == [] ==> r == (None, planner)
    ensures points != [] ==>
      && r.0 == Some(NormalizedPoints(points)[..|points| - 1])
      && r.1 == planner.(selected := None)
  {
    if |points| > 0 then (Some(NormalizedPoints(points)[..|points| - 1]), planner.(selected := None))
    else (None, planner)
  }

  /** Undo takes back exactly the point just added. */
  lemma UndoAfterAdd(points: seq<Point>, planner: Planner, x: real, y: real, z: real)
    ensures Undo(AddPoint(points, x, y, z), planner).0 == Some(NormalizedPoints(points))
  {
    var added := AddPoint(points, x, y, z);
    NormalizedPointsIdempotent(points);
    assert NormalizedPoints(added)[..|points|] == NormalizedPoints(added[..|points|]);
  }

  /** handleClear: no points, no name, no selection. */
  function Clear(planner: Planner): (r: (seq<Point>, Planner))
    ensures r.0 == [] && r.1.pathName == "" && r.1.selected.None? && r.1.manual == planner.manual
  {
    ([], planner.(pathName := "", selected := None))
  }

  /** What handleSave does: an alert and nothing else, or onSavePath with
    * the name and points, then handleClear, which hands the parent an
    * empty list through onPointsChange and clears the planner. */
  datatype SaveOutcome =
    | Refused
    | Saved(name: string, points: seq<Point>, handed: seq<Point>, cleared: Planner)

  /** handleSave: an empty path is refused (with an alert); otherwise the
    * name and the normalised points are saved, the parent's points
    * emptied and the planner cleared. */
  function Save(points: seq<Point>, planner: Planner): (r: SaveOutcome)
    ensures r.Refused? <==> points == []
    ensures r.Saved? ==> r.name == planner.pathName && r.points == NormalizedPoints(points) && |r.points| > 0
    ensures r.Saved? ==> r.handed == [] && r.cleared == Clear(planner).1
  {
    if |points| == 0 then Refused
    else
      var (handed, cleared) := Clear(planner);
      Saved(planner.pathName, NormalizedPoints(points), handed, cleared)
  }

  /** Once saved, the parent holds no points, so saving again is refused. */
  lemma SaveThenSaveRefused(points: seq<Point>, planner: Planner)
    requires points != []
    ensures var first := Save(points, planner);
      first.Saved? && Save(first.handed, first.cleared) == Refused
  {
  }

  /** filter((_, i) => i !== index): every element but the one at index. */
  function Without(points: seq<Point>, index: int): (r: seq<Point>)
    ensures 0 <= index < |points| ==> |r| == |points| - 1
    ensures !(0 <= index < |points|) ==> r == points
    ensures 0 <= index < |points| ==>
      forall k :: 0 <= k < |r| ==> r[k] == points[if k < index then k else k + 1]
  {
    if 0 <= index < |points| then points[..index] + points[index + 1..] else points
  }

  /** handleDeleteSelected: the selected waypoint removed, the others kept
    * in order, and the selection cleared. */
  function DeleteSelected(points: seq<Point>, planner: Planner): (r: (Option<seq<Point>>, Planner))
    ensures planner.selected.None? ==> r == (None, planner)
    ensures planner.selected.Some? ==>
      r.0 == Some(Without(NormalizedPoints(points), planner.selected.value)) && r.1 == planner.(selected := None)
  {
    match planner.selected
    case None => (None, planner)
    case Some(i) => (Some(Without(NormalizedPoints(points), i)), planner.(selected := None))
  }

  /** Whether every box of the form has text. */
  predicate Filled(manual: Inputs) {
    manual.x != "" && manual.y != "" && manual.z != ""
  }

  /** handleUpdateSelected: with a selection and all three boxes filled,
    * the selected waypoint takes the typed coordinates, nothing else
    * changes, and the form and selection are cleared. */
  function UpdateSelected(points: seq<Point>, planner: Planner, parseFloat: string -> Coord): (r: (Option<seq<Point>>, Planner))
    requires planner.selected.Some? && Filled(planner.manual) ==> 0 <= planner.selected.value < |points|
    ensures !(planner.selected.Some? && Filled(planner.manual)) ==> r == (None, planner)
    ensures planner.selected.Some? && Filled(planner.manual) ==>
      var i := planner.selected.value;
      && r.0.Some? && |r.0.value| == |points|
      && r.0.value[i] == Point(Num(OrZero(parseFloat(planner.manual.x))), Num(OrZero(parseFloat(planner.manual.y))), Num(OrZero(parseFloat(planner.manual.z))))
      && (forall k :: 0 <= k < |points| && k != i ==> r.0.value[k] == Normalized(points[k]))
      && r.1 == planner.(selected := None, manual := EmptyInputs)
  {
    if planner.selected.Some? && Filled(planner.manual) then
      var p := Point(Num(OrZero(parseFloat(planner.manual.x))), Num(OrZero(parseFloat(planner.manual.y))), Num(OrZero(parseFloat(planner.manual.z))));
      (Some(NormalizedPoints(points)[planner.selected.value := p]), planner.(selected := None, manual := EmptyInputs))
    else (None, planner)
  }

  /** handleSelectPoint: clicking the selected waypoint deselects it and
    * empties the form; clicking another selects it and fills the form with
    * its coordinates as text. */
  function SelectPoint(points: seq<Point>, planner: Planner, index: int, toText: Coord -> string): (r: Planner)
    requires 0 <= index < |points|
    ensures planner.selected == Some(index) ==> r == planner.(selected := None, manual := EmptyInputs)
    ensures planner.selected != Some(index) ==>
      var p := Normalized(points[index]);
      r == planner.(selected := Some(index), manual := Inputs(toText(p.x), toText(p.y), toText(p.z)))
  {
    if planner.selected == Some(index) then planner.(selected := None, manual := EmptyInputs)
    else
      var p := NormalizedPoints(points)[index];
      planner.(selected := Some(index), manual := Inputs(toText(p.x), toText(p.y), toText(p.z)))
  }

  /** Clicking a waypoint that is not selected, then clicking it again,
    * leaves nothing selected and the form empty. */
  lemma SelectTwiceDeselects(points: seq<Point>, planner: Planner, index: int, toText: Coord -> string)
    requires 0 <= index < |points| && planner.selected != Some(index)
    ensures var twice := SelectPoint(points, SelectPoint(points, planner, index, toText), index, toText);
      twice.selected.None? && twice.manual == EmptyInputs && twice.pathName == planner.pathName
  {
  }
}
