/**
 * The drone path planner (pathplannerwidget.cpp): the 3D view's waypoint
 * list and selection, its hit test and ground-plane click mapping, and the
 * panel around it (waypoint buttons, the coordinate spin boxes, saving,
 * the path length label, the path animation). Drawing is outside the model.
 */
module PathPlannerWidget {
  import opened Json
  import opened Geometry
  import opened Numeric

  /** The list without the element at index. */
  function Removed<T>(s: seq<T>, index: int): (r: seq<T>)
    requires 0 <= index < |s|
    ensures |r| == |s| - 1
    ensures forall k :: 0 <= k < index ==> r[k] == s[k]
    ensures forall k :: index <= k < |r| ==> r[k] == s[k + 1]
  {
    s[..index] + s[index + 1..]
  }

  /** The selection after the element at index is removed. */
  function SelectionAfterRemoval(selected: int, index: int): int {
    if selected == index then -1
    else if selected > index then selected - 1
    else selected
  }

  /** Removing another waypoint leaves the selection on the same waypoint;
    * removing the selected one clears the selection. */
  lemma RemovalKeepsSelection(waypoints: seq<Vec3>, selected: int, index: int)
    requires 0 <= index < |waypoints|
    ensures selected == index ==> SelectionAfterRemoval(selected, index) == -1
    ensures 0 <= selected < |waypoints| && selected != index ==>
      var after := SelectionAfterRemoval(selected, index);
      0 <= after < |waypoints| - 1 && Removed(waypoints, index)[after] == waypoints[selected]
    ensures selected < 0 ==> SelectionAfterRemoval(selected, index) == selected
  {
  }

  /** Where a waypoint is drawn on a width x height view (the simplified
    * projection the hit test uses: x to the right, z up the screen). */
  function Projected(width: nat, height: nat, wp: Vec3): (int, int) {
    (ProjectAxis(width, wp.x), ProjectAxis(height, -wp.z))
  }

  /** One screen coordinate: the centre (size / 2, by integer division)
    * plus the coordinate at size / 20 pixels per unit, truncated. */
  function ProjectAxis(size: nat, coordinate: real): int {
    Truncate((size / 2) as real + coordinate * size as real / 20.0)
  }

  /** A click at (sx, sy) is within Manhattan distance 20 of the waypoint. */
  predicate Hits(width: nat, height: nat, wp: Vec3, sx: int, sy: int) {
    var p := Projected(width, height, wp);
    Abs(p.0 - sx) + Abs(p.1 - sy) < 20
  }

  /** screenToWorld: a click mapped onto the ground plane y = depth. */
  function ScreenToWorld(width: nat, height: nat, sx: int, sy: int, depth: real): (p: Vec3)
    requires width > 0 && height > 0
    ensures p.y == depth
  {
    var x := (sx as real - width as real / 2.0) / (width as real / 20.0);
    var z := (sy as real - height as real / 2.0) / (height as real / 20.0);
    Vec3(x, depth, -z)
  }

  lemma Rescaled(a: real, size: real)
    requires size > 0.0
    ensures (a / (size / 20.0)) * size / 20.0 == a
  {
  }

  /** Along one axis, a click mapped to the plane and projected back lands
    * within a pixel of where it was made. */
  lemma AxisRoundTrip(size: nat, click: int, v: real)
    requires size > 0
    requires v == (click as real - size as real / 2.0) / (size as real / 20.0)
    ensures Abs(ProjectAxis(size, v) - click) <= 1
  {
    var n := size as real;
    Rescaled(click as real - n / 2.0, n);
    assert v * n / 20.0 == click as real - n / 2.0;
    var shift := (size / 2) as real - n / 2.0;
    assert -1.0 < shift <= 0.0;
    assert (size / 2) as real + v * n / 20.0 == click as real + shift;
  }

  /** A point placed by a click is hit by a click on the same spot: the
    * projection misses it by at most a pixel per axis (the projection
    * halves the size with integer division, the mapping does not). */
  lemma ClickedPointIsHit(width: nat, height: nat, sx: int, sy: int, depth: real)
    requires width > 0 && height > 0
    ensures Hits(width, height, ScreenToWorld(width, height, sx, sy, depth), sx, sy)
  {
    var wp := ScreenToWorld(width, height, sx, sy, depth);
    AxisRoundTrip(width, sx, wp.x);
    AxisRoundTrip(height, sy, -wp.z);
  }

  /** Whitespace as QChar::isSpace sees it. */
  predicate IsSpace(c: char) {
    || c == ' ' || ('\t' <= c <= '\r') || c == '\U{85}' || c == '\U{A0}' || c == '\U{1680}'
    || ('\U{2000}' <= c <= '\U{200A}') || c == '\U{2028}' || c == '\U{2029}' || c == '\U{202F}'
    || c == '\U{205F}' || c == '\U{3000}'
  }

  /** The number of leading whitespace characters. */
  function LeadingSpaces(s: string): (k: nat)
    ensures k <= |s|
    ensures forall i :: 0 <= i < k ==> IsSpace(s[i])
    ensures k < |s| ==> !IsSpace(s[k])
  {
    if s == [] || !IsSpace(s[0]) then 0 else 1 + LeadingSpaces(s[1..])
  }

  /** The number of trailing whitespace characters. */
  function TrailingSpaces(s: string): (k: nat)
    ensures k <= |s|
    ensures forall i :: |s| - k <= i < |s| ==> IsSpace(s[i])
    ensures k < |s| ==> !IsSpace(s[|s| - k - 1])
  {
    if s == [] || !IsSpace(s[|s| - 1]) then 0 else 1 + TrailingSpaces(s[..|s| - 1])
  }

  /** QString::trimmed */
  function Trimmed(s: string): string {
    var lead := LeadingSpaces(s);
    if lead == |s| then "" else s[lead..|s| - TrailingSpaces(s)]
  }

  /** The trimmed text is empty exactly when the text is all whitespace;
    * otherwise it starts and ends with a non-space character of the text. */
  lemma TrimmedShape(s: string)
    ensures Trimmed(s) == "" <==> forall i :: 0 <= i < |s| ==> IsSpace(s[i])
    ensures Trimmed(s) != "" ==> !IsSpace(Trimmed(s)[0]) && !IsSpace(Trimmed(s)[|Trimmed(s)| - 1])
    ensures forall c :: c in Trimmed(s) ==> c in s
  {
    var lead := LeadingSpaces(s);
    if lead < |s| {
      assert !IsSpace(s[lead]);
    }
  }

  /** The name a path is saved under. */
  function SaveName(text: string): (name: string)
    ensures name != ""
  {
    var name := Trimmed(text);
    if name == "" then "Untitled Path" else name
  }

  /** QVector3D::distanceToPoint */
  function Distance(m: Math, a: Vec3, b: Vec3): real {
    Length(m, Sub(a, b))
  }

  /** The length label: the sum of the distances between consecutive
    * waypoints. */
  function PathLength(m: Math, waypoints: seq<Vec3>): (len: real)
    ensures |waypoints| < 2 ==> len == 0.0
    decreases |waypoints|
  {
    if |waypoints| < 2 then 0.0
    else
      var n := |waypoints|;
      PathLength(m, waypoints[..n - 1]) + Distance(m, waypoints[n - 2], waypoints[n - 1])
  }

  lemma DistanceFacts(m: Math, a: Vec3, b: Vec3)
    requires Sound(m)
    ensures 0.0 <= Distance(m, a, b)
    ensures a == b ==> Distance(m, a, b) == 0.0
  {
    var d := Sub(a, b);
    LengthSquaredNonNegative(d);
    SqrtNonNegative(m, LengthSquared(d));
    if a == b {
      assert LengthSquared(d) == 0.0;
      SqrtZero(m);
    }
  }

  /** With a proper square root the length is never negative. */
  lemma {:induction false} PathLengthNonNegative(m: Math, waypoints: seq<Vec3>)
    requires Sound(m)
    ensures 0.0 <= PathLength(m, waypoints)
    decreases |waypoints|
  {
    if |waypoints| >= 2 {
      var n := |waypoints|;
      PathLengthNonNegative(m, waypoints[..n - 1]);
      DistanceFacts(m, waypoints[n - 2], waypoints[n - 1]);
    }
  }

  /** A path whose waypoints all coincide has length 0. */
  lemma {:induction false} StationaryPathLength(m: Math, waypoints: seq<Vec3>, p: Vec3)
    requires Sound(m)
    requires forall k :: 0 <= k < |waypoints| ==> waypoints[k] == p
    ensures PathLength(m, waypoints) == 0.0
    decreases |waypoints|
  {
    if |waypoints| >= 2 {
      var n := |waypoints|;
      StationaryPathLength(m, waypoints[..n - 1], p);
      DistanceFacts(m, waypoints[n - 2], waypoints[n - 1]);
    }
  }

  /** The loop of updateWaypointList that sums the path length. */
  method ComputePathLength(m: Math, waypoints: seq<Vec3>) returns (total: real)
    ensures total == PathLength(m, waypoints)
  {
    total := 0.0;
    var i := 0;
    while i < |waypoints| - 1
      invariant 0 <= i <= if |waypoints| == 0 then 0 else |waypoints| - 1
      invariant |waypoints| == 0 ==> total == 0.0
      invariant |waypoints| > 0 ==> total == PathLength(m, waypoints[..i + 1])
    {
      assert waypoints[..i + 2][..i + 1] == waypoints[..i + 1];
      total := total + Distance(m, waypoints[i], waypoints[i + 1]);
      i := i + 1;
    }
    if |waypoints| > 0 {
      assert waypoints[..i + 1] == waypoints;
    }
  }

  /** What a left click on the view emits. */
  datatype ViewSignal = NoSignal | WaypointSelected(index: int) | WaypointAdded(point: Vec3)

  /** PathPlannerOpenGLWidget: the waypoints and the highlighted one. */
  class PlannerView {
    var waypoints: seq<Vec3>
    var selected: int

    constructor ()
      ensures waypoints == [] && selected == -1
    {
      waypoints := [];
      selected := -1;
    }

    method SetWaypoints(points: seq<Vec3>)
      modifies this
      ensures waypoints == points && selected == old(selected)
    {
      waypoints := points;
    }

    method AddWaypoint(point: Vec3)
      modifies this
      ensures waypoints == old(waypoints) + [point] && selected == old(selected)
    {
      waypoints := waypoints + [point];
    }

    /** An index out of range changes nothing; otherwise that waypoint
      * goes and the selection follows the waypoint it named. */
    method RemoveWaypoint(index: int)
      modifies this
      ensures !(0 <= index < |old(waypoints)|) ==> waypoints == old(waypoints) && selected == old(selected)
      ensures 0 <= index < |old(waypoints)| ==>
        waypoints == Removed(old(waypoints), index) && selected == SelectionAfterRemoval(old(selected), index)
    {
      if 0 <= index < |waypoints| {
        waypoints := waypoints[..index] + waypoints[index + 1..];
        if selected == index {
          selected := -1;
        } else if selected > index {
          selected := selected - 1;
        }
      }
    }

    method ClearWaypoints()
      modifies this
      ensures waypoints == [] && selected == -1
    {
      waypoints := [];
      selected := -1;
    }

    method SetSelectedWaypoint(index: int)
      modifies this
      ensures waypoints == old(waypoints) && selected == index
    {
      selected := index;
    }

    /** findWaypointAt: the first waypoint the click hits, or -1. */
    method FindWaypointAt(width: nat, height: nat, sx: int, sy: int) returns (index: int)
      ensures -1 <= index < |waypoints|
      ensures index >= 0 ==> Hits(width, height, waypoints[index], sx, sy)
      ensures index >= 0 ==> forall k :: 0 <= k < index ==> !Hits(width, height, waypoints[k], sx, sy)
      ensures index == -1 ==> forall k :: 0 <= k < |waypoints| ==> !Hits(width, height, waypoints[k], sx, sy)
    {
      var i := 0;
      while i < |waypoints|
        invariant 0 <= i <= |waypoints|
        invariant forall k :: 0 <= k < i ==> !Hits(width, height, waypoints[k], sx, sy)
      {
        var p := Projected(width, height, waypoints[i]);
        if Abs(p.0 - sx) + Abs(p.1 - sy) < 20 {
          return i;
        }
        i := i + 1;
      }
      return -1;
    }

    /** A left click selects the first waypoint it hits and emits
      * waypointSelected; missing them all with Control held adds a
      * waypoint on the ground plane there and emits waypointAdded. */
    method LeftClick(width: nat, height: nat, sx: int, sy: int, control: bool) returns (signal: ViewSignal)
      requires width > 0 && height > 0
      modifies this
      ensures var hit := exists k :: 0 <= k < |old(waypoints)| && Hits(width, height, old(waypoints)[k], sx, sy);
        && (hit ==> waypoints == old(waypoints) && 0 <= selected < |waypoints|
                    && Hits(width, height, waypoints[selected], sx, sy)
                    && (forall k :: 0 <= k < selected ==> !Hits(width, height, waypoints[k], sx, sy))
                    && signal == WaypointSelected(selected))
        && (!hit && control ==> waypoints == old(waypoints) + [ScreenToWorld(width, height, sx, sy, 0.0)]
                                && selected == old(selected)
                                && signal == WaypointAdded(ScreenToWorld(width, height, sx, sy, 0.0)))
        && (!hit && !control ==> waypoints == old(waypoints) && selected == old(selected) && signal == NoSignal)
    {
      var index := FindWaypointAt(width, height, sx, sy);
      if index >= 0 {
        SetSelectedWaypoint(index);
        signal := WaypointSelected(index);
      } else if control {
        var point := ScreenToWorld(width, height, sx, sy, 0.0);
        AddWaypoint(point);
        signal := WaypointAdded(point);
      } else {
        signal := NoSignal;
      }
    }
  }

  /** PathPlannerWidget: the panel's own selection and path animation
    * around the view. listRow is the waypoint list's current row: every
    * change of it runs onWaypointSelected (the currentRowChanged
    * connection), and clear() in updateWaypointList moves it to -1. */
  class PathPlannerWidget {
    const view: PlannerView
    var selected: int
    var listRow: int
    var currentAnimationWaypoint: int
    var animationProgress: real
    var isPlayingPath: bool

    /** The selection names a waypoint or nothing, and the list marks it. */
    predicate Valid()
      reads this, view
    {
      -1 <= selected < |view.waypoints| && listRow == selected
    }

    constructor ()
      ensures Valid()
      ensures fresh(view) && view.waypoints == [] && view.selected == -1
      ensures selected == -1 && listRow == -1 && currentAnimationWaypoint == 0
      ensures animationProgress == 0.0 && !isPlayingPath
    {
      view := new PlannerView();
      selected := -1;
      listRow := -1;
      currentAnimationWaypoint := 0;
      animationProgress := 0.0;
      isPlayingPath := false;
    }

    /** onWaypointSelected: panel and view select the index, then the list
      * is moved to it. For a row of the list, the list's own
      * currentRowChanged comes back with the same index and changes
      * nothing more. For any other index the list is left without a
      * current row; when it had one, currentRowChanged(-1) runs this
      * handler again, and panel and view end with no selection. */
    method OnWaypointSelected(index: int)
      modifies this, view
      ensures view.waypoints == old(view.waypoints)
      ensures 0 <= index < |view.waypoints| ==> selected == index && view.selected == index && listRow == index
      ensures !(0 <= index < |view.waypoints|) ==> listRow == -1
      ensures !(0 <= index < |view.waypoints|) && old(listRow) != -1 ==> selected == -1 && view.selected == -1
      ensures !(0 <= index < |view.waypoints|) && old(listRow) == -1 ==> selected == index && view.selected == index
      ensures old(Valid()) && -1 <= index < |view.waypoints| ==> Valid()
      ensures currentAnimationWaypoint == old(currentAnimationWaypoint)
      ensures animationProgress == old(animationProgress) && isPlayingPath == old(isPlayingPath)
    {
      selected := index;
      view.SetSelectedWaypoint(index);
      if 0 <= index < |view.waypoints| {
        listRow := index;
      } else if listRow != -1 {
        listRow := -1;
        selected := -1;
        view.SetSelectedWaypoint(-1);
      }
    }

    /** The clear() at the top of updateWaypointList: when the list had a
      * current row, currentRowChanged(-1) runs onWaypointSelected(-1)
      * before the rows are refilled. The rows, the count and the length
      * labels are display only. */
    method UpdateWaypointList()
      modifies this, view
      ensures listRow == -1 && view.waypoints == old(view.waypoints)
      ensures old(listRow) != -1 ==> selected == -1 && view.selected == -1
      ensures old(listRow) == -1 ==> selected == old(selected) && view.selected == old(view.selected)
      ensures currentAnimationWaypoint == old(currentAnimationWaypoint)
      ensures animationProgress == old(animationProgress) && isPlayingPath == old(isPlayingPath)
    {
      if listRow != -1 {
        OnWaypointSelected(-1);
      }
    }

    /** onAddWaypoint: a waypoint at (0, 2, 0) is appended and selected. */
    method OnAddWaypoint()
      modifies this, view
      ensures view.waypoints == old(view.waypoints) + [Vec3(0.0, 2.0, 0.0)]
      ensures selected == |old(view.waypoints)| && view.selected == selected && listRow == selected
      ensures Valid()
      ensures currentAnimationWaypoint == old(currentAnimationWaypoint)
      ensures animationProgress == old(animationProgress) && isPlayingPath == old(isPlayingPath)
    {
      view.AddWaypoint(Vec3(0.0, 2.0, 0.0));
      UpdateWaypointList();
      OnWaypointSelected(|view.waypoints| - 1);
    }

    /** A left click on the view, and the panel's answer to the signal it
      * emits: a hit waypoint is selected in the panel too; an added one
      * is listed and selected as the last. */
    method OnViewLeftClick(width: nat, height: nat, sx: int, sy: int, control: bool)
      requires width > 0 && height > 0
      modifies this, view
      ensures var hit := exists k :: 0 <= k < |old(view.waypoints)| && Hits(width, height, old(view.waypoints)[k], sx, sy);
        && (hit ==> view.waypoints == old(view.waypoints) && 0 <= selected < |view.waypoints|
                    && view.selected == selected && listRow == selected
                    && Hits(width, height, view.waypoints[selected], sx, sy)
                    && (forall k :: 0 <= k < selected ==> !Hits(width, height, view.waypoints[k], sx, sy)))
        && (!hit && control ==> view.waypoints == old(view.waypoints) + [ScreenToWorld(width, height, sx, sy, 0.0)]
                                && selected == |old(view.waypoints)| && view.selected == selected && listRow == selected)
        && (!hit && !control ==> view.waypoints == old(view.waypoints) && selected == old(selected)
                                 && view.selected == old(view.selected) && listRow == old(listRow))
      ensures old(Valid()) ==> Valid()
      ensures currentAnimationWaypoint == old(currentAnimationWaypoint)
      ensures animationProgress == old(animationProgress) && isPlayingPath == old(isPlayingPath)
    {
      var signal := view.LeftClick(width, height, sx, sy, control);
      match signal {
        case WaypointSelected(index) =>
          OnWaypointSelected(index);
        case WaypointAdded(_) =>
          UpdateWaypointList();
          OnWaypointSelected(|view.waypoints| - 1);
        case NoSignal =>
      }
    }

    /** onRemoveWaypoint: only with a selection. The view drops the
      * waypoint, the list refresh deselects when a row was current, and
      * the panel's selection is cleared. */
    method OnRemoveWaypoint()
      modifies this, view
      ensures old(selected) < 0 ==>
        view.waypoints == old(view.waypoints) && view.selected == old(view.selected)
        && selected == old(selected) && listRow == old(listRow)
      ensures 0 <= old(selected) < |old(view.waypoints)| ==> view.waypoints == Removed(old(view.waypoints), old(selected))
      ensures old(selected) >= |old(view.waypoints)| ==> view.waypoints == old(view.waypoints)
      ensures old(selected) >= 0 && old(listRow) != -1 ==> view.selected == -1
      ensures 0 <= old(selected) < |old(view.waypoints)| && old(listRow) == -1 ==>
        view.selected == SelectionAfterRemoval(old(view.selected), old(selected))
      ensures old(selected) >= |old(view.waypoints)| && old(listRow) == -1 ==> view.selected == old(view.selected)
      ensures old(selected) >= 0 ==> selected == -1 && listRow == -1
      ensures old(Valid()) ==> Valid()
      ensures currentAnimationWaypoint == old(currentAnimationWaypoint)
      ensures animationProgress == old(animationProgress) && isPlayingPath == old(isPlayingPath)
    {
      if selected >= 0 {
        view.RemoveWaypoint(selected);
        UpdateWaypointList();
        selected := -1;
      }
    }

    /** onClearPath */
    method OnClearPath()
      modifies this, view
      ensures view.waypoints == [] && view.selected == -1 && selected == -1 && listRow == -1
      ensures Valid()
      ensures currentAnimationWaypoint == old(currentAnimationWaypoint)
      ensures animationProgress == old(animationProgress) && isPlayingPath == old(isPlayingPath)
    {
      view.ClearWaypoints();
      UpdateWaypointList();
      selected := -1;
    }

    /** onSavePath: the path to emit, if any (an empty path is not saved). */
    method OnSavePath(nameText: string) returns (saved: Option<(string, seq<Vec3>)>)
      ensures view.waypoints == [] ==> saved.None?
      ensures view.waypoints != [] ==> saved == Some((SaveName(nameText), view.waypoints))
    {
      var name := Trimmed(nameText);
      if name == "" {
        name := "Untitled Path";
      }
      if view.waypoints != [] {
        return Some((name, view.waypoints));
      }
      return None;
    }

    /** onWaypointPositionChanged, as written: the spin boxes' values
      * replace the selected waypoint, and the list refresh that follows
      * deselects it whenever its row was current, which it is in every
      * valid state: the edited waypoint loses its selection, and the spin
      * boxes are disabled. */
    method OnWaypointPositionChanged(x: real, y: real, z: real)
      modifies this, view
      ensures 0 <= old(selected) < |old(view.waypoints)| ==>
        view.waypoints == old(view.waypoints)[old(selected) := Vec3(x, y, z)] && listRow == -1
      ensures 0 <= old(selected) < |old(view.waypoints)| && old(listRow) != -1 ==> selected == -1 && view.selected == -1
      ensures 0 <= old(selected) < |old(view.waypoints)| && old(listRow) == -1 ==>
        selected == old(selected) && view.selected == old(view.selected)
      ensures !(0 <= old(selected) < |old(view.waypoints)|) ==>
        view.waypoints == old(view.waypoints) && selected == old(selected)
        && view.selected == old(view.selected) && listRow == old(listRow)
      ensures old(Valid()) && old(selected) >= 0 ==> selected == -1 && view.selected == -1
      ensures old(Valid()) ==> Valid()
      ensures currentAnimationWaypoint == old(currentAnimationWaypoint)
      ensures animationProgress == old(animationProgress) && isPlayingPath == old(isPlayingPath)
    {
      if selected >= 0 {
        var waypoints := view.waypoints;
        if selected < |waypoints| {
          waypoints := waypoints[selected := Vec3(x, y, z)];
          view.SetWaypoints(waypoints);
          UpdateWaypointList();
        }
      }
    }

    /** onWaypointPositionChanged as evidently intended: the edited
      * waypoint stays selected after the list refresh, so it can be
      * edited again. */
    method OnWaypointPositionChangedKeepingSelection(x: real, y: real, z: real)
      modifies this, view
      ensures 0 <= old(selected) < |old(view.waypoints)| ==>
        view.waypoints == old(view.waypoints)[old(selected) := Vec3(x, y, z)]
        && selected == old(selected) && view.selected == selected && listRow == selected
      ensures !(0 <= old(selected) < |old(view.waypoints)|) ==>
        view.waypoints == old(view.waypoints) && selected == old(selected)
        && view.selected == old(view.selected) && listRow == old(listRow)
      ensures old(Valid()) ==> Valid()
      ensures currentAnimationWaypoint == old(currentAnimationWaypoint)
      ensures animationProgress == old(animationProgress) && isPlayingPath == old(isPlayingPath)
    {
      if selected >= 0 {
        var waypoints := view.waypoints;
        if selected < |waypoints| {
          var edited := selected;
          waypoints := waypoints[edited := Vec3(x, y, z)];
          view.SetWaypoints(waypoints);
          UpdateWaypointList();
          OnWaypointSelected(edited);
        }
      }
    }

    /** onPlayPath: playback starts from the first waypoint when idle and
      * there is a path. */
    method OnPlayPath()
      modifies this
      ensures !old(isPlayingPath) && view.waypoints != [] ==>
        isPlayingPath && currentAnimationWaypoint == 0 && animationProgress == 0.0
      ensures old(isPlayingPath) || view.waypoints == [] ==>
        isPlayingPath == old(isPlayingPath) && currentAnimationWaypoint == old(currentAnimationWaypoint)
        && animationProgress == old(animationProgress)
      ensures selected == old(selected) && listRow == old(listRow)
    {
      if !isPlayingPath && view.waypoints != [] {
        isPlayingPath := true;
        currentAnimationWaypoint := 0;
        animationProgress := 0.0;
      }
    }

    /** onStopPath */
    method OnStopPath()
      modifies this
      ensures !isPlayingPath && selected == old(selected) && listRow == old(listRow)
      ensures currentAnimationWaypoint == old(currentAnimationWaypoint) && animationProgress == old(animationProgress)
    {
      if isPlayingPath {
        isPlayingPath := false;
      }
    }

    /** onPathAnimationTimer: progress grows by 0.02; on reaching 1 it
      * restarts at 0 for the next waypoint, and playback stops once every
      * waypoint has been passed. */
    method OnPathAnimationTimer()
      modifies this
      ensures old(animationProgress) + 0.02 < 1.0 ==>
        animationProgress == old(animationProgress) + 0.02
        && currentAnimationWaypoint == old(currentAnimationWaypoint) && isPlayingPath == old(isPlayingPath)
      ensures old(animationProgress) + 0.02 >= 1.0 ==>
        animationProgress == 0.0 && currentAnimationWaypoint == old(currentAnimationWaypoint) + 1
        && isPlayingPath == (old(isPlayingPath) && currentAnimationWaypoint < |view.waypoints|)
      ensures 0.0 <= old(animationProgress) < 1.0 ==> 0.0 <= animationProgress < 1.0
      ensures selected == old(selected) && listRow == old(listRow)
    {
      animationProgress := animationProgress + 0.02;
      if animationProgress >= 1.0 {
        animationProgress := 0.0;
        currentAnimationWaypoint := currentAnimationWaypoint + 1;
        if currentAnimationWaypoint >= |view.waypoints| {
          isPlayingPath := false;
          return;
        }
      }
    }


    /** loadPoints: the view shows the points, the list refresh deselects
      * when a row was current, and the first point is selected when there
      * is one. */
    method LoadPoints(points: seq<Vec3>)
      modifies this, view
      ensures view.waypoints == points
      ensures points != [] ==> selected == 0 && view.selected == 0 && listRow == 0
      ensures points == [] && old(listRow) != -1 ==> selected == -1 && view.selected == -1
      ensures points == [] && old(listRow) == -1 ==> selected == old(selected) && view.selected == old(view.selected)
      ensures points == [] ==> listRow == -1
      ensures old(Valid()) ==> Valid()
      ensures currentAnimationWaypoint == old(currentAnimationWaypoint)
      ensures animationProgress == old(animationProgress) && isPlayingPath == old(isPlayingPath)
    {
      view.SetWaypoints(points);
      UpdateWaypointList();
      if points != [] {
        OnWaypointSelected(0);
      }
    }
  }
}
