/**
 * The replay controller (replay_controller.cpp): it replays saved frames
 * one at a time, loads takes from JSON, and saves the recorded frames, the
 * id/name maps and the renderer's assets as a take document.
 *
 * The timer, the clock, the file system and the objects the controller
 * talks to are outside the model: the time a frame took is a parameter,
 * what loadJsonFile read is an `Option<Json>`, what the data processor and
 * the renderer return are parameters, and every signal sent or file
 * written is recorded in a log.
 */
module ReplayController {
  import opened Json
  import opened Geometry
  import opened Frames
  import opened TakeJson
  import Collections

  // ---------------------------------------------------------------------
  // Playspeed: "12.5%" -> 12.5 -> a frame interval of 8 ms

  /** QString::remove('%') */
  function WithoutPercent(s: string): (r: string)
    ensures forall k :: 0 <= k < |r| ==> r[k] != '%'
    ensures (forall k :: 0 <= k < |s| ==> s[k] != '%') ==> r == s
    decreases |s|
  {
    if s == [] then []
    else WithoutPercent(s[..|s| - 1]) + (if s[|s| - 1] == '%' then [] else [s[|s| - 1]])
  }

  function Pow10(n: nat): (p: nat)
    ensures p >= 1
  {
    if n == 0 then 1 else 10 * Pow10(n - 1)
  }

  /** Index of the first '.', or |s| when there is none. */
  function DotIndex(s: string): (d: nat)
    ensures d <= |s|
    ensures forall k :: 0 <= k < d ==> s[k] != '.'
    ensures d < |s| ==> s[d] == '.'
    decreases |s|
  {
    if s == [] then 0
    else if s[0] == '.' then 0
    else 1 + DotIndex(s[1..])
  }

  /** QString::toDouble() on an unsigned decimal: digits, optionally a
    * point and more digits, at least one digit in all. */
  function ParseDecimal(s: string): Option<real> {
    var d := DotIndex(s);
    var whole := s[..d];
    var fraction := if d < |s| then s[d + 1..] else [];
    if AllDigits(whole) && AllDigits(fraction) && |whole| + |fraction| > 0 then
      Some(DigitsValue(whole) as real + DigitsValue(fraction) as real / Pow10(|fraction|) as real)
    else None
  }

  /** The playspeed in percent, when the text is a plain decimal. */
  function Playspeed(text: string): Option<real> {
    ParseDecimal(WithoutPercent(text))
  }

  /** static_cast<int>(1 / (percent / 100)): the cast truncates, which for a
    * positive quotient is the floor. */
  function IntervalFor(percent: real): (ms: int)
    requires percent > 0.0
    ensures ms >= 0
    ensures ms as real <= 100.0 / percent < ms as real + 1.0
  {
    (1.0 / (percent / 100.0)).Floor
  }

  /** A playspeed the loaders accept: it reads as a positive number whose
    * interval fits an int. */
  predicate ValidPlayspeed(text: string) {
    Playspeed(text).Some? && Playspeed(text).value > 0.0 && IsInt32(IntervalFor(Playspeed(text).value))
  }

  /** The playspeed choices offered in the replay panel give 1, 2, 4, 8,
    * 10 and 20 ms between frames. */
  lemma PlayspeedIntervals()
    ensures Playspeed("100%") == Some(100.0) && IntervalFor(100.0) == 1
    ensures Playspeed("50%") == Some(50.0) && IntervalFor(50.0) == 2
    ensures Playspeed("25%") == Some(25.0) && IntervalFor(25.0) == 4
    ensures Playspeed("12.5%") == Some(12.5) && IntervalFor(12.5) == 8
    ensures Playspeed("10%") == Some(10.0) && IntervalFor(10.0) == 10
    ensures Playspeed("5%") == Some(5.0) && IntervalFor(5.0) == 20
  {
    WholeChoices();
    HalfChoice();
  }

  lemma WholeChoices()
    ensures Playspeed("100%") == Some(100.0) && Playspeed("50%") == Some(50.0)
    ensures Playspeed("25%") == Some(25.0) && Playspeed("10%") == Some(10.0) && Playspeed("5%") == Some(5.0)
  {
    Hundred();
    TwoDigits();
    SingleDigits();
  }

  lemma TwoDigits()
    ensures Playspeed("50%") == Some(50.0) && Playspeed("25%") == Some(25.0)
  {
    TwoDigitPercent('5', '0', 50);
    TwoDigitPercent('2', '5', 25);
  }

  lemma TwoDigitPercent(tens: char, ones: char, value: nat)
    requires IsDigit(tens) && IsDigit(ones)
    requires DigitValue(tens) * 10 + DigitValue(ones) == value
    ensures Playspeed([tens, ones, '%']) == Some(value as real)
  {
    var digits := [tens, ones];
    assert digits[..1] == [tens];
    assert [tens][..0] == [];
    assert DigitsValue([tens]) == DigitValue(tens);
    assert DigitsValue(digits) == DigitsValue([tens]) * 10 + DigitValue(ones);
    WholePercent([tens, ones, '%'], digits, value);
  }

  lemma Hundred()
    ensures Playspeed("100%") == Some(100.0)
  {
    assert "100"[..2] == "10" && "10"[..1] == "1";
    WholePercent("100%", "100", 100);
  }

  lemma SingleDigits()
    ensures Playspeed("10%") == Some(10.0) && Playspeed("5%") == Some(5.0)
  {
    WholePercent("10%", "10", 10);
    WholePercent("5%", "5", 5);
  }

  lemma HalfChoice()
    ensures Playspeed("12.5%") == Some(12.5)
  {
    var text := "12.5";
    assert "12.5%"[..4] == text;
    assert WithoutPercent("12.5%") == text;
    assert text[1..] == "2.5" && "2.5"[1..] == ".5";
    assert DotIndex(".5") == 0;
    assert DotIndex(text) == 2;
    assert text[..2] == "12" && "12"[..1] == "1" && "1"[..0] == [];
    assert DigitsValue("12") == 12;
    assert text[3..] == "5" && "5"[..0] == [];
    assert DigitsValue("5") == 5;
    assert ParseDecimal(text) == Some(12.0 + 5.0 / 10.0);
  }

  /** A whole-number choice, "<digits>%". */
  lemma WholePercent(text: string, digits: string, value: nat)
    requires |text| >= 2 && text == digits + "%"
    requires AllDigits(digits) && DigitsValue(digits) == value
    ensures Playspeed(text) == Some(value as real)
  {
    assert text[..|text| - 1] == digits;
    assert WithoutPercent(text) == digits;
    assert DotIndex(digits) == |digits|;
    assert digits[..|digits|] == digits;
  }

  /** Dividing by more gives less. */
  lemma QuotientShrinks(slow: real, fast: real)
    requires 0.0 < slow <= fast
    ensures 100.0 / fast <= 100.0 / slow
  {
    var qs := 100.0 / slow;
    var qf := 100.0 / fast;
    assert qf * fast == 100.0 && qs * slow == 100.0;
    assert qf * slow <= qf * fast by { ScaleLeq(slow, fast, qf); }
    assert qf * slow <= qs * slow;
    if qf > qs {
      ScaleLess(qs, qf, slow);
      assert false;
    }
  }

  lemma ScaleLeq(x: real, y: real, c: real)
    requires x <= y && 0.0 <= c
    ensures c * x <= c * y
  {
  }

  lemma ScaleLess(x: real, y: real, c: real)
    requires x < y && 0.0 < c
    ensures x * c < y * c
  {
  }

  /** A faster playspeed never gives a longer interval. */
  lemma FasterNeverSlower(slow: real, fast: real)
    requires 0.0 < slow <= fast
    ensures IntervalFor(fast) <= IntervalFor(slow)
  {
    QuotientShrinks(slow, fast);
  }

  // ---------------------------------------------------------------------
  // The loops of parseFrames and parseGLAssets

  method ReadBodies(items: seq<Json>) returns (bodies: seq<RigidBodyData>)
    ensures bodies == ParseBodies(items)
  {
    bodies := [];
    var i := 0;
    while i < |items|
      invariant 0 <= i <= |items|
      invariant bodies == ParseBodies(items[..i])
    {
      assert items[..i + 1][..i] == items[..i];
      bodies := bodies + [ParseBody(items[i])];
      i := i + 1;
    }
    assert items[..i] == items;
  }

  method ReadSkeletons(items: seq<Json>) returns (skeletons: seq<SkeletonData>)
    ensures skeletons == ParseSkeletons(items)
  {
    skeletons := [];
    var i := 0;
    while i < |items|
      invariant 0 <= i <= |items|
      invariant skeletons == ParseSkeletons(items[..i])
    {
      assert items[..i + 1][..i] == items[..i];
      var o := ToObj(items[i]);
      var bones := ReadBodies(ToArr(Get(o, "bones")));
      skeletons := skeletons + [SkeletonData(ToInt(Get(o, "id")), bones)];
      i := i + 1;
    }
    assert items[..i] == items;
  }

  method ReadFrames(items: seq<Json>) returns (frames: seq<FrameData>)
    ensures frames == ParseFrameList(items)
  {
    frames := [];
    var i := 0;
    while i < |items|
      invariant 0 <= i <= |items|
      invariant frames == ParseFrameList(items[..i])
    {
      assert items[..i + 1][..i] == items[..i];
      var o := ToObj(items[i]);
      var bodies := ReadBodies(ToArr(Get(o, "rigidBodies")));
      var skeletons := ReadSkeletons(ToArr(Get(o, "skeletons")));
      frames := frames + [FrameData(ToInt(Get(o, "frameNumber")), ToDouble(Get(o, "timestamp")), bodies, skeletons)];
      i := i + 1;
    }
    assert items[..i] == items;
  }

  method ReadPairs(items: seq<Json>) returns (pairs: seq<(int, int)>)
    ensures pairs == ParsePairs(items)
  {
    pairs := [];
    var i := 0;
    while i < |items|
      invariant 0 <= i <= |items|
      invariant pairs == ParsePairs(items[..i])
    {
      assert items[..i + 1][..i] == items[..i];
      var a := ToArr(items[i]);
      if |a| == 2 {
        pairs := pairs + [(ToInt(a[0]), ToInt(a[1]))];
      }
      i := i + 1;
    }
    assert items[..i] == items;
  }

  method ReadVectors(items: seq<Json>) returns (vs: seq<Vec3>)
    ensures vs == ParseVectors(items)
  {
    vs := [];
    var i := 0;
    while i < |items|
      invariant 0 <= i <= |items|
      invariant vs == ParseVectors(items[..i])
    {
      assert items[..i + 1][..i] == items[..i];
      var a := ToArr(items[i]);
      if |a| == 3 {
        vs := vs + [Vec3(ToDouble(a[0]), ToDouble(a[1]), ToDouble(a[2]))];
      }
      i := i + 1;
    }
    assert items[..i] == items;
  }

  method ReadGLAssets(obj: map<string, Json>) returns (assets: GLWidgetAssets)
    ensures assets == ParseGLAssets(obj)
  {
    var skeletons := ReadSkeletonPairs(ToArr(Get(obj, "skeletons")));
    var offsets := ReadOffsets(ToArr(Get(obj, "rbOffsets")));
    assets := GLWidgetAssets(skeletons, offsets);
  }

  /** The "skeletons" loop of parseGLAssets. */
  method ReadSkeletonPairs(items: seq<Json>) returns (skeletons: seq<seq<(int, int)>>)
    ensures skeletons == ParseSkeletonPairs(items)
  {
    skeletons := [];
    var i := 0;
    while i < |items|
      invariant 0 <= i <= |items|
      invariant skeletons == ParseSkeletonPairs(items[..i])
    {
      assert items[..i + 1][..i] == items[..i];
      var pairs := ReadPairs(ToArr(items[i]));
      skeletons := skeletons + [pairs];
      i := i + 1;
    }
    assert items[..i] == items;
  }

  /** The "rbOffsets" loop of parseGLAssets. */
  method ReadOffsets(items: seq<Json>) returns (offsets: seq<RigidBodyOffsets>)
    ensures offsets == ParseOffsets(items)
  {
    offsets := [];
    var i := 0;
    while i < |items|
      invariant 0 <= i <= |items|
      invariant offsets == ParseOffsets(items[..i])
    {
      assert items[..i + 1][..i] == items[..i];
      var o := ToObj(items[i]);
      var markers := ReadVectors(ToArr(Get(o, "markerOffsets")));
      offsets := offsets + [RigidBodyOffsets(ToInt(Get(o, "bodyID")), markers)];
      i := i + 1;
    }
    assert items[..i] == items;
  }

  // ---------------------------------------------------------------------
  // The key loops of parseIdMaps

  /** One id -> name object: every key, read as an int, maps to its text. */
  method ReadNameMap(obj: map<string, Json>) returns (r: map<int, string>)
    ensures ParsedNameMap(obj, r)
  {
    r := map[];
    var remaining := obj.Keys;
    while remaining != {}
      invariant remaining <= obj.Keys
      invariant forall key :: key in obj && key !in remaining ==> ParseInt(key) in r
      invariant forall id :: id in r ==>
        exists key :: key in obj && key !in remaining && ParseInt(key) == id && r[id] == ToStr(obj[key])
      decreases remaining
    {
      Collections.SomeString(remaining);
      var key :| key in remaining;
      ghost var before := r;
      r := r[ParseInt(key) := ToStr(obj[key])];
      remaining := remaining - {key};
      forall id | id in r
        ensures exists k :: k in obj && k !in remaining && ParseInt(k) == id && r[id] == ToStr(obj[k])
      {
        if id != ParseInt(key) {
          var k :| k in obj && k !in remaining + {key} && ParseInt(k) == id && before[id] == ToStr(obj[k]);
          assert k in obj && k !in remaining && ParseInt(k) == id && r[id] == ToStr(obj[k]);
        } else {
          assert key in obj && key !in remaining && ParseInt(key) == id && r[id] == ToStr(obj[key]);
        }
      }
    }
  }

  /** The bone object: one id -> name object per skeleton key. */
  method ReadBoneMap(obj: map<string, Json>) returns (r: map<int, map<int, string>>)
    ensures ParsedBoneMap(obj, r)
  {
    r := map[];
    var remaining := obj.Keys;
    while remaining != {}
      invariant remaining <= obj.Keys
      invariant forall key :: key in obj && key !in remaining ==> ParseInt(key) in r
      invariant forall id :: id in r ==>
        exists key :: key in obj && key !in remaining && ParseInt(key) == id && ParsedNameMap(ToObj(obj[key]), r[id])
      decreases remaining
    {
      Collections.SomeString(remaining);
      var key :| key in remaining;
      var sub := ReadNameMap(ToObj(obj[key]));
      ghost var before := r;
      r := r[ParseInt(key) := sub];
      remaining := remaining - {key};
      forall id | id in r
        ensures exists k :: k in obj && k !in remaining && ParseInt(k) == id && ParsedNameMap(ToObj(obj[k]), r[id])
      {
        if id != ParseInt(key) {
          var k :| k in obj && k !in remaining + {key} && ParseInt(k) == id && ParsedNameMap(ToObj(obj[k]), before[id]);
          assert k in obj && k !in remaining && ParseInt(k) == id && ParsedNameMap(ToObj(obj[k]), r[id]);
        } else {
          assert key in obj && key !in remaining && ParseInt(key) == id && ParsedNameMap(ToObj(obj[key]), r[id]);
        }
      }
    }
  }

  // ---------------------------------------------------------------------
  // The loops of saveTake

  method WriteNameMap(m: map<int, string>) returns (j: Json)
    ensures j == NameMapJson(m)
  {
    var entries: map<string, Json> := map[];
    var done: set<int> := {};
    var remaining := m.Keys;
    assert NameEntries(m, {}) == map[];
    while remaining != {}
      invariant remaining <= m.Keys && done == m.Keys - remaining
      invariant entries == NameEntries(m, done)
      decreases remaining
    {
      Collections.SomeInt(remaining);
      var id :| id in remaining;
      NameEntriesStep(m, done, id);
      entries := entries[IntToString(id) := JStr(m[id])];
      done := done + {id};
      remaining := remaining - {id};
    }
    assert done == m.Keys;
    j := JObj(entries);
  }

  method WriteBoneMap(m: map<int, map<int, string>>) returns (j: Json)
    ensures j == BoneMapJson(m)
  {
    var entries: map<string, Json> := map[];
    var done: set<int> := {};
    var remaining := m.Keys;
    assert BoneEntries(m, {}) == map[];
    while remaining != {}
      invariant remaining <= m.Keys && done == m.Keys - remaining
      invariant entries == BoneEntries(m, done)
      decreases remaining
    {
      Collections.SomeInt(remaining);
      var sid :| sid in remaining;
      entries := AddBoneEntry(m, done, entries, sid);
      done := done + {sid};
      remaining := remaining - {sid};
    }
    assert done == m.Keys;
    j := JObj(entries);
  }

  /** The body of the skeleton loop: one skeleton's bone object. */
  method AddBoneEntry(m: map<int, map<int, string>>, done: set<int>, entries: map<string, Json>, sid: int)
    returns (r: map<string, Json>)
    requires sid in m && entries == BoneEntries(m, done)
    ensures r == BoneEntries(m, done + {sid})
  {
    var bones := WriteNameMap(m[sid]);
    BoneEntriesStep(m, done, sid);
    r := entries[IntToString(sid) := bones];
  }

  method WriteBodies(bodies: seq<RigidBodyData>) returns (items: seq<Json>)
    ensures items == BodiesJson(bodies)
  {
    items := [];
    var i := 0;
    while i < |bodies|
      invariant 0 <= i <= |bodies|
      invariant items == BodiesJson(bodies[..i])
    {
      assert bodies[..i + 1][..i] == bodies[..i];
      var b := bodies[i];
      items := items + [JObj(map[
        "id" := IntValue(b.id),
        "parentId" := IntValue(b.parentId),
        "position" := VectorJson(b.position),
        "orientation" := OrientationJson(b.orientation)])];
      i := i + 1;
    }
    assert bodies[..i] == bodies;
  }

  method WriteSkeletons(skeletons: seq<SkeletonData>) returns (items: seq<Json>)
    ensures items == SkeletonsJson(skeletons)
  {
    items := [];
    var i := 0;
    while i < |skeletons|
      invariant 0 <= i <= |skeletons|
      invariant items == SkeletonsJson(skeletons[..i])
    {
      assert skeletons[..i + 1][..i] == skeletons[..i];
      var bones := WriteBodies(skeletons[i].bones);
      items := items + [JObj(map["id" := IntValue(skeletons[i].id), "bones" := JArr(bones)])];
      i := i + 1;
    }
    assert skeletons[..i] == skeletons;
  }

  /** The frame loop: the first `count` frames. */
  method WriteFrames(frames: seq<FrameData>, count: nat) returns (items: seq<Json>)
    requires count <= |frames|
    ensures items == FramesJson(frames[..count])
  {
    items := [];
    var i := 0;
    while i < count
      invariant 0 <= i <= count
      invariant items == FramesJson(frames[..i])
    {
      var item := WriteFrame(frames[i]);
      FramesJsonSnoc(frames, i);
      items := items + [item];
      i := i + 1;
    }
  }

  lemma FramesJsonSnoc(frames: seq<FrameData>, i: nat)
    requires i < |frames|
    ensures FramesJson(frames[..i + 1]) == FramesJson(frames[..i]) + [FrameJson(frames[i])]
  {
    assert frames[..i + 1][..i] == frames[..i];
  }

  /** One frame's object: its number, time, bodies and skeletons. */
  method WriteFrame(f: FrameData) returns (item: Json)
    ensures item == FrameJson(f)
  {
    var bodies := WriteBodies(f.rigidBodies);
    var skeletons := WriteSkeletons(f.skeletons);
    item := JObj(map[
      "frameNumber" := IntValue(f.frameNumber),
      "timestamp" := JNum(f.timestamp),
      "rigidBodies" := JArr(bodies),
      "skeletons" := JArr(skeletons)]);
  }

  /** One skeleton's bone pairs, each as a two-element array. */
  method WritePairs(bonePairs: seq<(int, int)>) returns (pairs: seq<Json>)
    ensures pairs == PairsJson(bonePairs)
  {
    pairs := [];
    var k := 0;
    while k < |bonePairs|
      invariant 0 <= k <= |bonePairs|
      invariant pairs == PairsJson(bonePairs[..k])
    {
      assert bonePairs[..k + 1][..k] == bonePairs[..k];
      pairs := pairs + [JArr([IntValue(bonePairs[k].0), IntValue(bonePairs[k].1)])];
      k := k + 1;
    }
    assert bonePairs[..k] == bonePairs;
  }

  method WriteSkeletonPairs(skeletons: seq<seq<(int, int)>>) returns (items: seq<Json>)
    ensures items == SkeletonPairsJson(skeletons)
  {
    items := [];
    var i := 0;
    while i < |skeletons|
      invariant 0 <= i <= |skeletons|
      invariant items == SkeletonPairsJson(skeletons[..i])
    {
      assert skeletons[..i + 1][..i] == skeletons[..i];
      var pairs := WritePairs(skeletons[i]);
      items := items + [JArr(pairs)];
      i := i + 1;
    }
    assert skeletons[..i] == skeletons;
  }

  /** One body's marker offsets, each as an [x, y, z] array. */
  method WriteVectors(vs: seq<Vec3>) returns (items: seq<Json>)
    ensures items == VectorsJson(vs)
  {
    items := [];
    var k := 0;
    while k < |vs|
      invariant 0 <= k <= |vs|
      invariant items == VectorsJson(vs[..k])
    {
      assert vs[..k + 1][..k] == vs[..k];
      items := items + [VectorJson(vs[k])];
      k := k + 1;
    }
    assert vs[..k] == vs;
  }

  method WriteOffsets(offsets: seq<RigidBodyOffsets>) returns (items: seq<Json>)
    ensures items == OffsetsJson(offsets)
  {
    items := [];
    var i := 0;
    while i < |offsets|
      invariant 0 <= i <= |offsets|
      invariant items == OffsetsJson(offsets[..i])
    {
      assert offsets[..i + 1][..i] == offsets[..i];
      var markers := WriteVectors(offsets[i].markerOffsets);
      items := items + [JObj(map["bodyID" := IntValue(offsets[i].bodyId), "markerOffsets" := JArr(markers)])];
      i := i + 1;
    }
    assert offsets[..i] == offsets;
  }

  // ---------------------------------------------------------------------
  // The controller

  /** Which loader ran: its ready signal differs. */
  datatype TakeKind = CommonTake | SavedTake

  function Min(a: int, b: int): int {
    if a < b then a else b
  }

  function Max(a: int, b: int): int {
    if a < b then b else a
  }

  class ReplayController {
    var savedFrames: seq<FrameData>
    var currentIndex: nat
    var isReplaying: bool
    var intervalMs: int
    var isRecording: bool
    /** Whether a renderer has been attached (setOpenGLWidget). */
    var hasGLWidget: bool
    /** replayFrame signals. */
    var replayed: seq<FrameData>
    /** Delays, in ms, of the single-shot timers started for emitNextFrame. */
    var scheduled: seq<int>
    /** loadReplayMaps signals. */
    var loadedMaps: seq<NameMaps>
    /** Assets handed to the renderer by parseGLAssets. */
    var appliedAssets: seq<GLWidgetAssets>
    /** commonTakeReady / savedTakeReady signals. */
    var readySignals: seq<TakeKind>
    /** The documents saveTake wrote, one per newSavedTake signal. */
    var savedTakes: seq<Json>
    /** Where in `replayed` the current replay run began. */
    ghost var runStart: nat

    /** While a replay runs, the frames it has sent are exactly the saved
      * frames before the current index, in order. */
    ghost predicate Valid()
      reads this
    {
      && runStart <= |replayed|
      && (isReplaying ==> currentIndex <= |savedFrames| && replayed[runStart..] == savedFrames[..currentIndex])
    }

    constructor ()
      ensures Valid()
      ensures savedFrames == [] && currentIndex == 0 && !isReplaying && !isRecording && !hasGLWidget
      ensures intervalMs == 1
      ensures replayed == [] && scheduled == [] && loadedMaps == [] && appliedAssets == []
      ensures readySignals == [] && savedTakes == []
    {
      savedFrames := [];
      currentIndex := 0;
      isReplaying := false;
      intervalMs := 1;
      isRecording := false;
      hasGLWidget := false;
      replayed := [];
      scheduled := [];
      loadedMaps := [];
      appliedAssets := [];
      readySignals := [];
      savedTakes := [];
      runStart := 0;
    }

    method SetOpenGLWidget()
      modifies this`hasGLWidget
      ensures hasGLWidget
    {
      hasGLWidget := true;
    }

    method SetSavedFrames(frames: seq<FrameData>)
      modifies this`savedFrames, this`currentIndex, this`runStart
      ensures savedFrames == frames && currentIndex == 0
      ensures Valid()
    {
      savedFrames := frames;
      currentIndex := 0;
      runStart := |replayed|;
    }

    /** With no frames nothing happens; otherwise the replay restarts from
      * the first frame, which is sent at once. */
    method StartReplay()
      modifies this`currentIndex, this`isReplaying, this`scheduled, this`runStart
      ensures savedFrames == [] ==> currentIndex == old(currentIndex) && isReplaying == old(isReplaying)
      ensures savedFrames == [] ==> scheduled == old(scheduled)
      ensures savedFrames != [] ==> currentIndex == 0 && isReplaying && scheduled == old(scheduled) + [0]
      ensures savedFrames != [] ==> runStart == |replayed| && Valid()
      ensures old(Valid()) ==> Valid()
    {
      if |savedFrames| == 0 {
        return;
      }
      currentIndex := 0;
      isReplaying := true;
      runStart := |replayed|;
      scheduled := scheduled + [0];
    }

    method StopReplay()
      modifies this`isReplaying
      ensures !isReplaying
      ensures old(Valid()) ==> Valid()
    {
      isReplaying := false;
    }

    /** emitNextFrame, given the time in ms since the previous frame. Past
      * the last frame, or once stopped, the replay stops; otherwise the
      * next frame is sent and the following call is scheduled so that
      * frames are `intervalMs` apart, never with a negative delay. A take
      * loaded during a replay is simply carried on from the current index;
      * the run's record of what it sent holds only while no load has
      * intervened. */
    method EmitNextFrame(elapsed: int)
      requires 0 <= elapsed && IsInt32(elapsed)
      modifies this`currentIndex, this`isReplaying, this`replayed, this`scheduled
      ensures old(Valid()) ==> Valid()
      ensures !old(isReplaying) || old(currentIndex) >= |savedFrames| ==>
        && !isReplaying && currentIndex == old(currentIndex)
        && replayed == old(replayed) && scheduled == old(scheduled)
      ensures old(isReplaying) && old(currentIndex) < |savedFrames| ==>
        && isReplaying && currentIndex == old(currentIndex) + 1
        && replayed == old(replayed) + [savedFrames[old(currentIndex)]]
        && scheduled == old(scheduled) + [Max(0, intervalMs - elapsed)]
      ensures old(Valid()) && old(isReplaying) && !isReplaying ==> replayed[runStart..] == savedFrames
    {
      if !isReplaying || currentIndex >= |savedFrames| {
        if isReplaying && Valid() {
          assert savedFrames[..currentIndex] == savedFrames;
        }
        StopReplay();
        return;
      }
      ghost var wasValid := Valid();
      replayed := replayed + [savedFrames[currentIndex]];
      currentIndex := currentIndex + 1;
      if wasValid {
        assert savedFrames[..currentIndex] == savedFrames[..currentIndex - 1] + [savedFrames[currentIndex - 1]];
      }
      var delay := Max(0, intervalMs - elapsed);
      if isReplaying {
        scheduled := scheduled + [delay];
      }
    }

    method RecordStream(recording: bool)
      modifies this`isRecording
      ensures isRecording == recording
    {
      isRecording := recording;
    }

    method RecordReplay(recording: bool)
      modifies this`isRecording
      ensures isRecording == recording
    {
      isRecording := recording;
    }

    /** parseIdMaps: the three maps are read and sent on together. */
    method ParseIdMaps(root: map<string, Json>)
      modifies this`loadedMaps
      ensures |loadedMaps| == |old(loadedMaps)| + 1 && loadedMaps[..|old(loadedMaps)|] == old(loadedMaps)
      ensures ParsedNameMap(ToObj(Get(root, "rigidBodies")), loadedMaps[|old(loadedMaps)|].rigidBodies)
      ensures ParsedNameMap(ToObj(Get(root, "skeletons")), loadedMaps[|old(loadedMaps)|].skeletons)
      ensures ParsedBoneMap(ToObj(Get(root, "bones")), loadedMaps[|old(loadedMaps)|].bones)
    {
      var rigidBodies := ReadNameMap(ToObj(Get(root, "rigidBodies")));
      var skeletons := ReadNameMap(ToObj(Get(root, "skeletons")));
      var bones := ReadBoneMap(ToObj(Get(root, "bones")));
      loadedMaps := loadedMaps + [NameMaps(rigidBodies, skeletons, bones)];
    }

    /** parseFrames: the saved frames are replaced; the index is kept. */
    method ParseFrames(items: seq<Json>)
      modifies this`savedFrames
      ensures savedFrames == ParseFrameList(items)
      ensures old(Valid()) && !isReplaying ==> Valid()
    {
      savedFrames := ReadFrames(items);
    }

    /** parseGLAssets: the assets reach the renderer only if one is set. */
    method ParseGLAssets(obj: map<string, Json>)
      modifies this`appliedAssets
      ensures hasGLWidget ==> appliedAssets == old(appliedAssets) + [TakeJson.ParseGLAssets(obj)]
      ensures !hasGLWidget ==> appliedAssets == old(appliedAssets)
    {
      var assets := ReadGLAssets(obj);
      if hasGLWidget {
        appliedAssets := appliedAssets + [assets];
      }
    }

    /** The part of loadCommonTake and loadSavedTake that reads a JSON
      * object: id maps, frames and assets, then the ready signal. */
    method LoadDocument(kind: TakeKind, root: map<string, Json>)
      modifies this`loadedMaps, this`savedFrames, this`appliedAssets, this`readySignals
      ensures |loadedMaps| == |old(loadedMaps)| + 1 && loadedMaps[..|old(loadedMaps)|] == old(loadedMaps)
      ensures ParsedNameMap(ToObj(Get(root, "rigidBodies")), loadedMaps[|old(loadedMaps)|].rigidBodies)
      ensures ParsedNameMap(ToObj(Get(root, "skeletons")), loadedMaps[|old(loadedMaps)|].skeletons)
      ensures ParsedBoneMap(ToObj(Get(root, "bones")), loadedMaps[|old(loadedMaps)|].bones)
      ensures savedFrames == ParseFrameList(ToArr(Get(root, "frames")))
      ensures hasGLWidget ==> appliedAssets == old(appliedAssets) + [TakeJson.ParseGLAssets(ToObj(Get(root, "glAssets")))]
      ensures !hasGLWidget ==> appliedAssets == old(appliedAssets)
      ensures readySignals == old(readySignals) + [kind]
    {
      ParseIdMaps(root);
      ParseFrames(ToArr(Get(root, "frames")));
      ParseGLAssets(ToObj(Get(root, "glAssets")));
      readySignals := readySignals + [kind];
    }

    /** loadCommonTake and loadSavedTake, which differ only in where the
      * file is and which ready signal they send. The interval is set even
      * when the file cannot be read; a file that is missing, not JSON or
      * not an object changes nothing else. */
    method LoadTake(kind: TakeKind, playspeed: string, loaded: Option<Json>)
      requires ValidPlayspeed(playspeed)
      modifies this`intervalMs, this`loadedMaps, this`savedFrames, this`appliedAssets, this`readySignals
      ensures intervalMs == IntervalFor(Playspeed(playspeed).value)
      ensures !(loaded.Some? && loaded.value.JObj?) ==>
        && loadedMaps == old(loadedMaps) && savedFrames == old(savedFrames)
        && appliedAssets == old(appliedAssets) && readySignals == old(readySignals)
      ensures loaded.Some? && loaded.value.JObj? ==>
        var root := loaded.value.fields;
        && |loadedMaps| == |old(loadedMaps)| + 1 && loadedMaps[..|old(loadedMaps)|] == old(loadedMaps)
        && ParsedNameMap(ToObj(Get(root, "rigidBodies")), loadedMaps[|old(loadedMaps)|].rigidBodies)
        && ParsedNameMap(ToObj(Get(root, "skeletons")), loadedMaps[|old(loadedMaps)|].skeletons)
        && ParsedBoneMap(ToObj(Get(root, "bones")), loadedMaps[|old(loadedMaps)|].bones)
        && savedFrames == ParseFrameList(ToArr(Get(root, "frames")))
        && (hasGLWidget ==> appliedAssets == old(appliedAssets) + [TakeJson.ParseGLAssets(ToObj(Get(root, "glAssets")))])
        && (!hasGLWidget ==> appliedAssets == old(appliedAssets))
        && readySignals == old(readySignals) + [kind]
      ensures old(Valid()) && !isReplaying ==> Valid()
    {
      intervalMs := IntervalFor(Playspeed(playspeed).value);
      if !(loaded.Some? && loaded.value.JObj?) {
        return;
      }
      LoadDocument(kind, loaded.value.fields);
    }

    /** saveTake, given the data processor's maps and the renderer's
      * assets: the frames up to the current index are written, and
      * recording ends. */
    method SaveTake(names: NameMaps, assets: GLWidgetAssets)
      modifies this`savedTakes, this`isRecording
      ensures savedTakes == old(savedTakes) + [TakeDocument(names, savedFrames[..Min(currentIndex, |savedFrames|)], assets)]
      ensures !isRecording
      ensures old(Valid()) ==> Valid()
    {
      var rigidBodies := WriteNameMap(names.rigidBodies);
      var skeletons := WriteNameMap(names.skeletons);
      var bones := WriteBoneMap(names.bones);
      var frames := WriteFrames(savedFrames, Min(currentIndex, |savedFrames|));
      var skeletonPairs := WriteSkeletonPairs(assets.skeletons);
      var offsets := WriteOffsets(assets.rbOffsets);
      var glAssets := JObj(map["skeletons" := JArr(skeletonPairs), "rbOffsets" := JArr(offsets)]);
      var root := map[
        "rigidBodies" := rigidBodies,
        "skeletons" := skeletons,
        "bones" := bones,
        "frames" := JArr(frames),
        "glAssets" := glAssets];
      savedTakes := savedTakes + [JObj(root)];
      isRecording := false;
    }

    /** saveStream: when recording, the streamed frames become the saved
      * frames, all of them are written, and recording ends. */
    method SaveStream(streamed: seq<FrameData>, names: NameMaps, assets: GLWidgetAssets)
      modifies this`savedFrames, this`currentIndex, this`savedTakes, this`isRecording
      ensures !old(isRecording) ==>
        savedFrames == old(savedFrames) && currentIndex == old(currentIndex) && savedTakes == old(savedTakes) && !isRecording
      ensures old(isRecording) ==>
        && savedFrames == streamed && currentIndex == |streamed| && !isRecording
        && savedTakes == old(savedTakes) + [TakeDocument(names, streamed, assets)]
      ensures old(Valid()) && !isReplaying ==> Valid()
    {
      if isRecording {
        savedFrames := streamed;
        currentIndex := |streamed|;
        SaveTake(names, assets);
        assert savedFrames[..Min(currentIndex, |savedFrames|)] == streamed;
      }
    }

    /** saveReplay: the replay stops; when recording, the frames replayed
      * so far are written and recording ends. */
    method SaveReplay(names: NameMaps, assets: GLWidgetAssets)
      modifies this`isReplaying, this`savedTakes, this`isRecording
      ensures !isReplaying
      ensures old(Valid()) ==> Valid()
      ensures !old(isRecording) ==> savedTakes == old(savedTakes) && !isRecording
      ensures old(isRecording) ==>
        && !isRecording
        && savedTakes == old(savedTakes) + [TakeDocument(names, savedFrames[..Min(currentIndex, |savedFrames|)], assets)]
    {
      StopReplay();
      if isRecording {
        SaveTake(names, assets);
      }
    }
  }

  /** A take saved from a replay holds exactly the frames the replay sent
    * in its current run. */
  lemma SavedReplayHoldsReplayed(c: ReplayController)
    requires c.Valid() && c.isReplaying
    ensures c.savedFrames[..Min(c.currentIndex, |c.savedFrames|)] == c.replayed[c.runStart..]
  {
  }
}
