/**
 * The browser application's shell (App.jsx): the saved paths, the saved
 * recordings, the planner's draft and which view is shown, and the
 * handlers the views call. Every handler replaces an array by a new one
 * (`[...prev, x]` or `prev.filter(...)`), so each is a function from the
 * application state to the next. The fresh id (crypto.randomUUID) and the
 * time (Date.now) are parameters; revoking a blob URL is returned as the
 * URL revoked.
 */
module AppJsx {
  import opened Json
  import Planner = PathPlanner3DJsx
  import Videos = RecordedVideosJsx

  /** A saved path object. */
  datatype SavedPath = SavedPath(id: string, name: string, points: seq<Planner.Point>, createdAt: int)

  /** The shell's state. */
  datatype AppState = AppState(
    drawerOpen: bool,
    activeView: string,
    paths: seq<SavedPath>,
    recordings: seq<Videos.Recording>,
    draftPoints: seq<Planner.Point>)

  const InitialState: AppState := AppState(false, "home", [], [], [])

  /** xs.filter(keep): the elements keep accepts, in their order. */
  function Keep<T>(xs: seq<T>, keep: T -> bool): (r: seq<T>)
    ensures |r| <= |xs|
    decreases |xs|
  {
    if xs == [] then []
    else
      var rest := Keep(xs[..|xs| - 1], keep);
      var last := xs[|xs| - 1];
      if keep(last) then rest + [last] else rest
  }

  /** The filter keeps exactly the elements it accepts. */
  lemma {:induction false} KeepMembers<T>(xs: seq<T>, keep: T -> bool)
    ensures forall x :: x in Keep(xs, keep) ==> x in xs && keep(x)
    ensures forall k :: 0 <= k < |xs| && keep(xs[k]) ==> xs[k] in Keep(xs, keep)
    decreases |xs|
  {
    if xs != [] {
      var front := xs[..|xs| - 1];
      KeepMembers(front, keep);
      assert forall x :: x in front ==> x in xs;
      assert forall k :: 0 <= k < |front| ==> front[k] == xs[k];
    }
  }

  /** Filtering splits over a concatenation, so the kept elements keep
    * their order. */
  lemma {:induction false} KeepAppend<T>(a: seq<T>, b: seq<T>, keep: T -> bool)
    ensures Keep(a + b, keep) == Keep(a, keep) + Keep(b, keep)
    decreases |b|
  {
    if b == [] {
      assert a + b == a;
    } else {
      var n := |b| - 1;
      KeepAppend(a, b[..n], keep);
      var ab := a + b;
      assert ab[..|ab| - 1] == a + b[..n];
      assert ab[|ab| - 1] == b[n];
      var tail := if keep(b[n]) then [b[n]] else [];
      assert Keep(ab, keep) == Keep(a + b[..n], keep) + tail;
      assert Keep(b, keep) == Keep(b[..n], keep) + tail;
      assert Keep(a, keep) + Keep(b[..n], keep) + tail == Keep(a, keep) + (Keep(b[..n], keep) + tail);
    }
  }

  /** A filter that accepts everything changes nothing. */
  lemma {:induction false} KeepEverything<T>(xs: seq<T>, keep: T -> bool)
    requires forall k :: 0 <= k < |xs| ==> keep(xs[k])
    ensures Keep(xs, keep) == xs
    decreases |xs|
  {
    if xs != [] {
      KeepEverything(xs[..|xs| - 1], keep);
    }
  }

  /** Filtering twice is filtering once. */
  lemma {:induction false} KeepTwice<T>(xs: seq<T>, keep: T -> bool)
    ensures Keep(Keep(xs, keep), keep) == Keep(xs, keep)
  {
    var once := Keep(xs, keep);
    KeepMembers(xs, keep);
    assert forall k :: 0 <= k < |once| ==> once[k] in once;
    KeepEverything(once, keep);
  }

  /** `name || 'Untitled Path'` */
  function PathName(name: string): (r: string)
    ensures r != ""
    ensures name != "" ==> r == name
  {
    if name == "" then "Untitled Path" else name
  }

  /** handleSavePath: one path is added after the others, under its name or
    * "Untitled Path", holding the points. */
  function SavePath(state: AppState, name: string, points: seq<Planner.Point>, id: string, now: int): (r: AppState)
    ensures r.paths == state.paths + [SavedPath(id, PathName(name), points, now)]
    ensures r.(paths := state.paths) == state
  {
    state.(paths := state.paths + [SavedPath(id, PathName(name), points, now)])
  }

  predicate OtherPath(id: string, p: SavedPath) {
    p.id != id
  }

  /** handleDeletePath: every path with that id is removed, the others are
    * kept in order. */
  function DeletePath(state: AppState, id: string): (r: AppState)
    ensures forall p :: p in r.paths ==> p in state.paths && p.id != id
    ensures forall k :: 0 <= k < |state.paths| && state.paths[k].id != id ==> state.paths[k] in r.paths
    ensures r.(paths := state.paths) == state
  {
    KeepMembers(state.paths, p => OtherPath(id, p));
    state.(paths := Keep(state.paths, p => OtherPath(id, p)))
  }

  /** Deleting a path just saved under a fresh id gives back the paths
    * there were before, and deleting twice is deleting once. */
  lemma DeleteAfterSave(state: AppState, name: string, points: seq<Planner.Point>, id: string, now: int)
    requires forall k :: 0 <= k < |state.paths| ==> state.paths[k].id != id
    ensures DeletePath(SavePath(state, name, points, id, now), id) == state
    ensures DeletePath(DeletePath(state, id), id) == DeletePath(state, id)
  {
    var keep := p => OtherPath(id, p);
    var added := SavedPath(id, PathName(name), points, now);
    KeepAppend(state.paths, [added], keep);
    KeepEverything(state.paths, keep);
    assert Keep([added], keep) == [];
    KeepTwice(state.paths, keep);
  }

  /** handleLoadToPlanner: the draft becomes the path's points and the
    * planner is shown. */
  function LoadToPlanner(state: AppState, points: seq<Planner.Point>): (r: AppState)
    ensures r.draftPoints == points && r.activeView == "planner"
    ensures r.(draftPoints := state.draftPoints, activeView := state.activeView) == state
  {
    state.(draftPoints := points, activeView := "planner")
  }

  /** A path saved from the planner and loaded back gives the planner the
    * same points. */
  lemma LoadSavedPath(state: AppState, name: string, points: seq<Planner.Point>, id: string, now: int)
    ensures var saved := SavePath(state, name, points, id, now);
      LoadToPlanner(saved, saved.paths[|saved.paths| - 1].points).draftPoints == points
  {
  }

  /** handleSaveRecording: one recording is added after the others. */
  function SaveRecording(state: AppState, recording: Videos.Recording): (r: AppState)
    ensures r.recordings == state.recordings + [recording]
    ensures r.(recordings := state.recordings) == state
  {
    state.(recordings := state.recordings + [recording])
  }

  /** prev.find(r => r.id === id), as the position of the first match
    * (the length when there is none). */
  function FirstWithId(recordings: seq<Videos.Recording>, id: string): (i: nat)
    ensures i <= |recordings|
    ensures forall j :: 0 <= j < i ==> recordings[j].id != id
    ensures i < |recordings| ==> recordings[i].id == id
    decreases |recordings|
  {
    if recordings == [] then 0
    else if recordings[0].id == id then 0
    else 1 + FirstWithId(recordings[1..], id)
  }

  predicate OtherRecording(id: string, r: Videos.Recording) {
    r.id != id
  }

  predicate SameRecording(id: string, r: Videos.Recording) {
    r.id == id
  }

  /** handleDeleteRecording: the first recording with that id has its blob
    * URL revoked when it has one, and every recording with that id is
    * removed. */
  function DeleteRecording(state: AppState, id: string): (r: (AppState, Option<string>))
    ensures forall v :: v in r.0.recordings ==> v in state.recordings && v.id != id
    ensures forall k :: 0 <= k < |state.recordings| && state.recordings[k].id != id ==> state.recordings[k] in r.0.recordings
    ensures r.0.(recordings := state.recordings) == state
    ensures var i := FirstWithId(state.recordings, id);
      r.1.Some? <==> (exists k :: 0 <= k < |state.recordings| && state.recordings[k].id == id) && state.recordings[i].blobUrl != ""
    ensures var i := FirstWithId(state.recordings, id);
      r.1.Some? ==> r.1.value != "" && i < |state.recordings| && state.recordings[i].id == id && r.1.value == state.recordings[i].blobUrl
  {
    var i := FirstWithId(state.recordings, id);
    var revoked := if i < |state.recordings| && state.recordings[i].blobUrl != "" then Some(state.recordings[i].blobUrl) else None;
    KeepMembers(state.recordings, v => OtherRecording(id, v));
    (state.(recordings := Keep(state.recordings, v => OtherRecording(id, v))), revoked)
  }

  /** The totals under the list drop by exactly the recordings removed. */
  lemma {:induction false} DeleteRecordingTotals(recordings: seq<Videos.Recording>, id: string)
    ensures var kept := Keep(recordings, v => OtherRecording(id, v));
      var gone := Keep(recordings, v => SameRecording(id, v));
      && Videos.TotalDuration(kept) + Videos.TotalDuration(gone) == Videos.TotalDuration(recordings)
      && Videos.TotalSize(kept) + Videos.TotalSize(gone) == Videos.TotalSize(recordings)
    decreases |recordings|
  {
    if recordings != [] {
      var n := |recordings| - 1;
      var front := recordings[..n];
      DeleteRecordingTotals(front, id);
      var kept := Keep(front, v => OtherRecording(id, v));
      var gone := Keep(front, v => SameRecording(id, v));
      Videos.TotalsAppend(kept, [recordings[n]]);
      Videos.TotalsAppend(gone, [recordings[n]]);
      assert [recordings[n]][..0] == [];
    }
  }

  /** Saving a recording adds its length and size to the totals, and
    * deleting it again under a fresh id gives the list back. */
  lemma SaveRecordingTotals(state: AppState, recording: Videos.Recording)
    ensures var saved := SaveRecording(state, recording).recordings;
      && Videos.TotalDuration(saved) == Videos.TotalDuration(state.recordings) + recording.duration
      && Videos.TotalSize(saved) == Videos.TotalSize(state.recordings) + recording.size
    ensures (forall k :: 0 <= k < |state.recordings| ==> state.recordings[k].id != recording.id) ==>
      DeleteRecording(SaveRecording(state, recording), recording.id).0 == state
  {
    var saved := state.recordings + [recording];
    assert saved[..|saved| - 1] == state.recordings;
    var keep := v => OtherRecording(recording.id, v);
    KeepAppend(state.recordings, [recording], keep);
    assert Keep([recording], keep) == [];
    if forall k :: 0 <= k < |state.recordings| ==> state.recordings[k].id != recording.id {
      KeepEverything(state.recordings, keep);
    }
  }

  /** switchView: the view is shown and the drawer closes. */
  function SwitchView(state: AppState, view: string): (r: AppState)
    ensures r.activeView == view && !r.drawerOpen
    ensures r.(activeView := state.activeView, drawerOpen := state.drawerOpen) == state
  {
    state.(activeView := view, drawerOpen := false)
  }
}
