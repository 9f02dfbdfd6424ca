/**
 * The saved flight paths panel (recordedpathswidget.cpp): a flight path's
 * JSON form, the document the list is stored in, and the list operations
 * (add, load, select, delete, import, edit, duplicate). Files, dialogs,
 * clocks and identifier generation are outside the model: what a file
 * held, the user's answer, the current time and a new identifier are
 * parameters.
 */
module RecordedPathsWidget {
  import opened Json
  import opened Geometry

  datatype FlightPath = FlightPath(id: string, name: string, points: seq<Vec3>, createdAt: int, description: string)

  function PointJson(p: Vec3): Json {
    JObj(map["x" := JNum(p.x), "y" := JNum(p.y), "z" := JNum(p.z)])
  }

  /** A point read back from a JSON value; missing coordinates read as 0. */
  function PointFromJson(v: Json): Vec3 {
    var o := ToObj(v);
    Vec3(ToDouble(Get(o, "x")), ToDouble(Get(o, "y")), ToDouble(Get(o, "z")))
  }

  /** FlightPath::toJson */
  function ToJson(path: FlightPath): Json {
    JObj(map[
      "id" := JStr(path.id),
      "name" := JStr(path.name),
      "createdAt" := JNum(path.createdAt as real),
      "description" := JStr(path.description),
      "points" := JArr(seq(|path.points|, k requires 0 <= k < |path.points| => PointJson(path.points[k])))])
  }

  /** FlightPath::fromJson */
  function FromJson(o: map<string, Json>): (path: FlightPath)
    ensures |path.points| == |ToArr(Get(o, "points"))|
    ensures forall k :: 0 <= k < |path.points| ==> path.points[k] == PointFromJson(ToArr(Get(o, "points"))[k])
  {
    var items := ToArr(Get(o, "points"));
    FlightPath(
      ToStr(Get(o, "id")), ToStr(Get(o, "name")),
      seq(|items|, k requires 0 <= k < |items| => PointFromJson(items[k])),
      ToLongLong(Get(o, "createdAt")), ToStr(Get(o, "description")))
  }

  /** Reading a path back restores every field and the points in order. */
  lemma PathRoundTrip(path: FlightPath)
    ensures ToJson(path).JObj? && FromJson(ToJson(path).fields) == path
  {
    var back := FromJson(ToJson(path).fields);
    assert back.points == path.points;
  }

  /** The document savePaths writes. */
  function PathsDocument(paths: seq<FlightPath>, savedAt: int): Json {
    JObj(map[
      "paths" := JArr(seq(|paths|, k requires 0 <= k < |paths| => ToJson(paths[k]))),
      "version" := JStr("1.0"),
      "savedAt" := JNum(savedAt as real)])
  }

  /** The paths a loaded document holds (each entry read as an object). */
  function PathsFromDocument(root: map<string, Json>): (paths: seq<FlightPath>)
    ensures |paths| == |ToArr(Get(root, "paths"))|
    ensures forall k :: 0 <= k < |paths| ==> paths[k] == FromJson(ToObj(ToArr(Get(root, "paths"))[k]))
  {
    var items := ToArr(Get(root, "paths"));
    seq(|items|, k requires 0 <= k < |items| => FromJson(ToObj(items[k])))
  }

  /** Loading what savePaths wrote gives the same list back. */
  lemma DocumentRoundTrip(paths: seq<FlightPath>, savedAt: int)
    ensures PathsDocument(paths, savedAt).JObj?
    ensures PathsFromDocument(PathsDocument(paths, savedAt).fields) == paths
  {
    var back := PathsFromDocument(PathsDocument(paths, savedAt).fields);
    forall k | 0 <= k < |paths|
      ensures back[k] == paths[k]
    {
      PathRoundTrip(paths[k]);
    }
  }

  /** The suffix a duplicate's name gets. */
  const CopySuffix: string := " (Copy)"

  class RecordedPathsWidget {
    var paths: seq<FlightPath>
    var selectedPathIndex: int

    constructor ()
      ensures paths == [] && selectedPathIndex == -1
    {
      paths := [];
      selectedPathIndex := -1;
    }

    /** addPath: a new path with that name and those points, created now,
      * with no description; the list then selects it, and its row change
      * makes it the selection. */
    method AddPath(name: string, points: seq<Vec3>, newId: string, now: int)
      modifies this
      ensures paths == old(paths) + [FlightPath(newId, name, points, now, "")]
      ensures selectedPathIndex == |old(paths)|
    {
      paths := paths + [FlightPath(newId, name, points, now, "")];
      OnPathSelectionChanged(|paths| - 1);
    }

    /** loadPaths: the list is replaced only when the file was read and
      * holds a JSON object. */
    method LoadPaths(document: Option<Json>)
      modifies this
      ensures document.Some? && document.value.JObj? ==> paths == PathsFromDocument(document.value.fields)
      ensures !(document.Some? && document.value.JObj?) ==> paths == old(paths)
      ensures selectedPathIndex == old(selectedPathIndex)
    {
      if document.None? || !document.value.JObj? {
        return;
      }
      var items := ToArr(Get(document.value.fields, "paths"));
      var loaded := [];
      var i := 0;
      while i < |items|
        invariant 0 <= i <= |items|
        invariant |loaded| == i
        invariant forall k :: 0 <= k < i ==> loaded[k] == FromJson(ToObj(items[k]))
      {
        loaded := loaded + [FromJson(ToObj(items[i]))];
        i := i + 1;
      }
      paths := loaded;
    }

    /** getSelectedPath: none unless the index is in range. */
    function SelectedPath(): (path: Option<FlightPath>)
      reads this
      ensures path.Some? <==> 0 <= selectedPathIndex < |paths|
      ensures path.Some? ==> path.value == paths[selectedPathIndex]
    {
      if 0 <= selectedPathIndex < |paths| then Some(paths[selectedPathIndex]) else None
    }

    /** onPathSelectionChanged as written: the current row becomes the
      * selection, but the refresh that follows clears the list, which
      * drops the current row and so runs this handler again with row -1
      * (its own refresh then finds no current row). Every selection ends
      * with no path selected, and with Load, Delete, Duplicate, Export and
      * Edit disabled. */
    method OnPathSelectionChangedAsWritten(row: int)
      modifies this
      ensures selectedPathIndex == -1 && paths == old(paths)
      ensures SelectedPath().None?
    {
      selectedPathIndex := row;
      if row != -1 {
        selectedPathIndex := -1;
      }
    }

    /** onPathSelectionChanged as intended: the list's current row becomes
      * the selection and stays it. */
    method OnPathSelectionChanged(row: int)
      modifies this
      ensures selectedPathIndex == row && paths == old(paths)
      ensures 0 <= row < |paths| ==> SelectedPath() == Some(paths[row])
    {
      selectedPathIndex := row;
    }

    /** onLoadPath: the selected path's points go to the planner. */
    method OnLoadPath() returns (requested: Option<seq<Vec3>>)
      ensures requested.Some? <==> SelectedPath().Some?
      ensures requested.Some? ==> requested.value == SelectedPath().value.points
    {
      var path := SelectedPath();
      if path.Some? {
        return Some(path.value.points);
      }
      return None;
    }

    /** onDeletePath: with a selection and the user's confirmation, that
      * path is removed, the selection cleared and its id reported. */
    method OnDeletePath(confirmed: bool) returns (deleted: Option<string>)
      modifies this
      ensures 0 <= old(selectedPathIndex) < |old(paths)| && confirmed ==>
        && paths == old(paths)[..old(selectedPathIndex)] + old(paths)[old(selectedPathIndex) + 1..]
        && selectedPathIndex == -1
        && deleted == Some(old(paths)[old(selectedPathIndex)].id)
      ensures !(0 <= old(selectedPathIndex) < |old(paths)| && confirmed) ==>
        paths == old(paths) && selectedPathIndex == old(selectedPathIndex) && deleted.None?
    {
      var path := SelectedPath();
      if path.None? {
        return None;
      }
      if confirmed {
        paths := paths[..selectedPathIndex] + paths[selectedPathIndex + 1..];
        selectedPathIndex := -1;
        return Some(path.value.id);
      }
      return None;
    }

    /** onImportPath: an object read from the chosen file is appended
      * under a newly generated id, whatever id it carried, and selected. */
    method OnImportPath(document: Option<Json>, newId: string)
      modifies this
      ensures document.Some? && document.value.JObj? ==>
        && paths == old(paths) + [FromJson(document.value.fields).(id := newId)]
        && selectedPathIndex == |old(paths)|
      ensures !(document.Some? && document.value.JObj?) ==>
        paths == old(paths) && selectedPathIndex == old(selectedPathIndex)
    {
      if document.Some? && document.value.JObj? {
        var path := FromJson(document.value.fields);
        path := path.(id := newId);
        paths := paths + [path];
        OnPathSelectionChanged(|paths| - 1);
      }
    }

    /** onEditPath: the selected path takes the edited description. */
    method OnEditPath(text: string)
      modifies this
      ensures 0 <= selectedPathIndex < |old(paths)| ==>
        paths == old(paths)[selectedPathIndex := old(paths)[selectedPathIndex].(description := text)]
      ensures !(0 <= selectedPathIndex < |old(paths)|) ==> paths == old(paths)
      ensures selectedPathIndex == old(selectedPathIndex)
    {
      if 0 <= selectedPathIndex < |paths| {
        paths := paths[selectedPathIndex := paths[selectedPathIndex].(description := text)];
      }
    }

    /** onDuplicatePath: a copy of the selected path with the same points
      * and description, a new id, the name marked as a copy, created now;
      * the copy is then selected. */
    method OnDuplicatePath(newId: string, now: int)
      modifies this
      ensures 0 <= old(selectedPathIndex) < |old(paths)| ==>
        var original := old(paths)[old(selectedPathIndex)];
        && paths == old(paths) + [FlightPath(newId, original.name + CopySuffix, original.points, now, original.description)]
        && selectedPathIndex == |old(paths)|
      ensures !(0 <= old(selectedPathIndex) < |old(paths)|) ==>
        paths == old(paths) && selectedPathIndex == old(selectedPathIndex)
    {
      var path := SelectedPath();
      if path.None? {
        return;
      }
      var copy := path.value;
      copy := copy.(id := newId);
      copy := copy.(name := path.value.name + CopySuffix);
      copy := copy.(createdAt := now);
      paths := paths + [copy];
      OnPathSelectionChanged(|paths| - 1);
    }
  }
}
