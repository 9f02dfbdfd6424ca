/**
 * The browser's flat path planner (PathPlanner.jsx): the points belong to
 * the parent, which the handlers hand a new array, and the path name is
 * the planner's own state. Each handler is a function from the points and
 * the name to the array passed to the parent (none when the parent is not
 * called) and the new name. The SVG's screen-to-drawing transform is
 * outside the model: the transformed click point is a parameter.
 */
module PathPlannerJsx {
  import opened Json

  /** A waypoint in SVG drawing coordinates. */
  datatype SvgPoint = SvgPoint(x: real, y: real)

  /** What a handler does: the array handed to onPointsChange, if it is
    * called, and the path name afterwards. */
  datatype Update = Update(points: Option<seq<SvgPoint>>, pathName: string)

  /** handleSvgClick: before the drawing is mounted nothing happens;
    * afterwards the clicked point is added after the others. */
  function SvgClick(points: seq<SvgPoint>, pathName: string, svgMounted: bool, clicked: SvgPoint): (r: Update)
    ensures r.pathName == pathName
    ensures !svgMounted ==> r.points.None?
    ensures svgMounted ==>
      && r.points.Some?
      && |r.points.value| == |points| + 1
      && r.points.value[..|points|] == points
      && r.points.value[|points|] == clicked
  {
    if !svgMounted then Update(None, pathName)
    else Update(Some(points + [clicked]), pathName)
  }

  /** handleUndo: with points, all but the last; without, nothing. */
  function Undo(points: seq<SvgPoint>, pathName: string): (r: Update)
    ensures r.pathName == pathName
    ensures points == [] <==> r.points.None?
    ensures points != [] ==>
      && r.points.Some?
      && |r.points.value| == |points| - 1
      && r.points.value + [points[|points| - 1]] == points
  {
    if |points| > 0 then Update(Some(points[..|points| - 1]), pathName)
    else Update(None, pathName)
  }

  /** handleClear: no points and no name. */
  function Clear(): (r: Update)
    ensures r.points == Some([]) && r.pathName == ""
  {
    Update(Some([]), "")
  }

  /** What handleSave does: an alert and nothing else, or onSavePath with
    * the name and the points followed by a clear. */
  datatype SaveOutcome =
    | Refused
    | Saved(name: string, points: seq<SvgPoint>, after: Update)

  function Save(points: seq<SvgPoint>, pathName: string): (r: SaveOutcome)
    ensures r.Refused? <==> points == []
    ensures r.Saved? ==> r.name == pathName && r.points == points && r.after == Clear()
  {
    if |points| == 0 then Refused
    else Saved(pathName, points, Clear())
  }

  /** Undo takes back exactly the point a click added, and a click after an
    * undo of the last point puts it back. */
  lemma UndoAfterClick(points: seq<SvgPoint>, pathName: string, clicked: SvgPoint)
    ensures Undo(SvgClick(points, pathName, true, clicked).points.value, pathName).points == Some(points)
    ensures points != [] ==>
      SvgClick(Undo(points, pathName).points.value, pathName, true, points[|points| - 1]).points == Some(points)
  {
  }

  /** A save hands over the planner's points and leaves the planner
    * empty, so saving again at once is refused. */
  lemma SaveThenSaveRefused(points: seq<SvgPoint>, pathName: string)
    requires points != []
    ensures var first := Save(points, pathName);
      first.Saved? && first.points == points
      && Save(first.after.points.value, first.after.pathName) == Refused
  {
  }

  /** Clicks add their points in the order they were made. */
  function Clicks(points: seq<SvgPoint>, pathName: string, clicks: seq<SvgPoint>): (r: seq<SvgPoint>)
    decreases |clicks|
  {
    if clicks == [] then points
    else SvgClick(Clicks(points, pathName, clicks[..|clicks| - 1]), pathName, true, clicks[|clicks| - 1]).points.value
  }

  /** Clicking on a mounted drawing appends the clicked points, in order,
    * to the ones already there. */
  lemma {:induction false} ClicksAppend(points: seq<SvgPoint>, pathName: string, clicks: seq<SvgPoint>)
    ensures Clicks(points, pathName, clicks) == points + clicks
    decreases |clicks|
  {
    if clicks != [] {
      var n := |clicks| - 1;
      ClicksAppend(points, pathName, clicks[..n]);
      assert clicks == clicks[..n] + [clicks[n]];
      assert points + clicks == (points + clicks[..n]) + [clicks[n]];
    }
  }
}
