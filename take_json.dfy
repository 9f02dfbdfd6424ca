/**
 * The JSON form of a take (replay_controller.cpp): what saveTake writes
 * and what parseFrames, parseIdMaps and parseGLAssets read back. Ids are
 * C++ ints, so the round trips hold for values in the int range; positions
 * and orientations are exact reals.
 */
module TakeJson {
  import opened Json
  import opened Geometry
  import opened Frames
  import Collections

  // ---------------------------------------------------------------------
  // Writing (saveTake)

  function VectorJson(v: Vec3): Json {
    JArr([JNum(v.x), JNum(v.y), JNum(v.z)])
  }

  /** An orientation is written as [x, y, z, scalar]. */
  function OrientationJson(q: Quat): Json {
    JArr([JNum(q.x), JNum(q.y), JNum(q.z), JNum(q.w)])
  }

  function BodyJson(b: RigidBodyData): Json {
    JObj(map[
      "id" := IntValue(b.id),
      "parentId" := IntValue(b.parentId),
      "position" := VectorJson(b.position),
      "orientation" := OrientationJson(b.orientation)])
  }

  function BodiesJson(bodies: seq<RigidBodyData>): (r: seq<Json>)
    ensures |r| == |bodies|
    ensures forall k :: 0 <= k < |bodies| ==> r[k] == BodyJson(bodies[k])
    decreases |bodies|
  {
    if bodies == [] then []
    else BodiesJson(bodies[..|bodies| - 1]) + [BodyJson(bodies[|bodies| - 1])]
  }

  function SkeletonJson(s: SkeletonData): Json {
    JObj(map["id" := IntValue(s.id), "bones" := JArr(BodiesJson(s.bones))])
  }

  function SkeletonsJson(skeletons: seq<SkeletonData>): (r: seq<Json>)
    ensures |r| == |skeletons|
    ensures forall k :: 0 <= k < |skeletons| ==> r[k] == SkeletonJson(skeletons[k])
    decreases |skeletons|
  {
    if skeletons == [] then []
    else SkeletonsJson(skeletons[..|skeletons| - 1]) + [SkeletonJson(skeletons[|skeletons| - 1])]
  }

  function FrameJson(f: FrameData): Json {
    JObj(map[
      "frameNumber" := IntValue(f.frameNumber),
      "timestamp" := JNum(f.timestamp),
      "rigidBodies" := JArr(BodiesJson(f.rigidBodies)),
      "skeletons" := JArr(SkeletonsJson(f.skeletons))])
  }

  function FramesJson(frames: seq<FrameData>): (r: seq<Json>)
    ensures |r| == |frames|
    ensures forall k :: 0 <= k < |frames| ==> r[k] == FrameJson(frames[k])
    decreases |frames|
  {
    if frames == [] then []
    else FramesJson(frames[..|frames| - 1]) + [FrameJson(frames[|frames| - 1])]
  }

  /** The entries of an id -> name map for the ids in `ids`, keyed by the
    * decimal id. */
  function NameEntries(m: map<int, string>, ids: set<int>): map<string, Json> {
    IntToStringInjectiveAll();
    map id | id in ids && id in m :: IntToString(id) := JStr(m[id])
  }

  /** An id -> name map as an object keyed by the decimal id. */
  function NameMapJson(m: map<int, string>): Json {
    JObj(NameEntries(m, m.Keys))
  }

  function BoneEntries(m: map<int, map<int, string>>, ids: set<int>): map<string, Json> {
    IntToStringInjectiveAll();
    map sid | sid in ids && sid in m :: IntToString(sid) := NameMapJson(m[sid])
  }

  /** The per-skeleton bone maps, keyed by the decimal skeleton id. */
  function BoneMapJson(m: map<int, map<int, string>>): Json {
    JObj(BoneEntries(m, m.Keys))
  }

  /** Writing one more id adds its entry and nothing else. */
  lemma NameEntriesStep(m: map<int, string>, ids: set<int>, id: int)
    requires id in m
    ensures NameEntries(m, ids)[IntToString(id) := JStr(m[id])] == NameEntries(m, ids + {id})
  {
    var before := NameEntries(m, ids)[IntToString(id) := JStr(m[id])];
    var after := NameEntries(m, ids + {id});
    NameEntriesStepKeys(m, ids, id);
    NameEntriesStepValues(m, ids, id);
    assert forall key :: key in before <==> key in after;
    assert forall key :: key in before ==> before[key] == after[key];
  }

  lemma NameEntriesStepKeys(m: map<int, string>, ids: set<int>, id: int)
    requires id in m
    ensures forall key :: key in NameEntries(m, ids)[IntToString(id) := JStr(m[id])] <==> key in NameEntries(m, ids + {id})
  {
    IntToStringInjectiveAll();
  }

  lemma NameEntriesStepValues(m: map<int, string>, ids: set<int>, id: int)
    requires id in m
    ensures forall key :: key in NameEntries(m, ids)[IntToString(id) := JStr(m[id])] && key in NameEntries(m, ids + {id}) ==>
      NameEntries(m, ids)[IntToString(id) := JStr(m[id])][key] == NameEntries(m, ids + {id})[key]
  {
    IntToStringInjectiveAll();
  }

  lemma BoneEntriesStep(m: map<int, map<int, string>>, ids: set<int>, sid: int)
    requires sid in m
    ensures BoneEntries(m, ids)[IntToString(sid) := NameMapJson(m[sid])] == BoneEntries(m, ids + {sid})
  {
    var before := BoneEntries(m, ids)[IntToString(sid) := NameMapJson(m[sid])];
    var after := BoneEntries(m, ids + {sid});
    BoneEntriesStepKeys(m, ids, sid);
    BoneEntriesStepValues(m, ids, sid);
    assert forall key :: key in before <==> key in after;
    assert forall key :: key in before ==> before[key] == after[key];
  }

  lemma BoneEntriesStepKeys(m: map<int, map<int, string>>, ids: set<int>, sid: int)
    requires sid in m
    ensures forall key :: key in BoneEntries(m, ids)[IntToString(sid) := NameMapJson(m[sid])] <==> key in BoneEntries(m, ids + {sid})
  {
    IntToStringInjectiveAll();
  }

  lemma BoneEntriesStepValues(m: map<int, map<int, string>>, ids: set<int>, sid: int)
    requires sid in m
    ensures forall key :: key in BoneEntries(m, ids)[IntToString(sid) := NameMapJson(m[sid])] && key in BoneEntries(m, ids + {sid}) ==>
      BoneEntries(m, ids)[IntToString(sid) := NameMapJson(m[sid])][key] == BoneEntries(m, ids + {sid})[key]
  {
    IntToStringInjectiveAll();
  }

  function PairJson(p: (int, int)): Json {
    JArr([IntValue(p.0), IntValue(p.1)])
  }

  function PairsJson(pairs: seq<(int, int)>): (r: seq<Json>)
    ensures |r| == |pairs|
    ensures forall k :: 0 <= k < |pairs| ==> r[k] == PairJson(pairs[k])
    decreases |pairs|
  {
    if pairs == [] then []
    else PairsJson(pairs[..|pairs| - 1]) + [PairJson(pairs[|pairs| - 1])]
  }

  function SkeletonPairsJson(skeletons: seq<seq<(int, int)>>): (r: seq<Json>)
    ensures |r| == |skeletons|
    ensures forall k :: 0 <= k < |skeletons| ==> r[k] == JArr(PairsJson(skeletons[k]))
    decreases |skeletons|
  {
    if skeletons == [] then []
    else SkeletonPairsJson(skeletons[..|skeletons| - 1]) + [JArr(PairsJson(skeletons[|skeletons| - 1]))]
  }

  function VectorsJson(vs: seq<Vec3>): (r: seq<Json>)
    ensures |r| == |vs|
    ensures forall k :: 0 <= k < |vs| ==> r[k] == VectorJson(vs[k])
    decreases |vs|
  {
    if vs == [] then [] else VectorsJson(vs[..|vs| - 1]) + [VectorJson(vs[|vs| - 1])]
  }

  function OffsetJson(o: RigidBodyOffsets): Json {
    JObj(map["bodyID" := IntValue(o.bodyId), "markerOffsets" := JArr(VectorsJson(o.markerOffsets))])
  }

  function OffsetsJson(offsets: seq<RigidBodyOffsets>): (r: seq<Json>)
    ensures |r| == |offsets|
    ensures forall k :: 0 <= k < |offsets| ==> r[k] == OffsetJson(offsets[k])
    decreases |offsets|
  {
    if offsets == [] then []
    else OffsetsJson(offsets[..|offsets| - 1]) + [OffsetJson(offsets[|offsets| - 1])]
  }

  function GLAssetsJson(a: GLWidgetAssets): Json {
    JObj(map["skeletons" := JArr(SkeletonPairsJson(a.skeletons)), "rbOffsets" := JArr(OffsetsJson(a.rbOffsets))])
  }

  /** The whole take document. */
  function TakeDocument(names: NameMaps, frames: seq<FrameData>, assets: GLWidgetAssets): Json {
    JObj(map[
      "rigidBodies" := NameMapJson(names.rigidBodies),
      "skeletons" := NameMapJson(names.skeletons),
      "bones" := BoneMapJson(names.bones),
      "frames" := JArr(FramesJson(frames)),
      "glAssets" := GLAssetsJson(assets)])
  }

  // ---------------------------------------------------------------------
  // Reading (parseFrames, parseIdMaps, parseGLAssets)

  /** A position is read only from an array of exactly three numbers;
    * otherwise it keeps the default (0, 0, 0). */
  function PositionFrom(a: seq<Json>): Vec3 {
    if |a| == 3 then Vec3(ToDouble(a[0]), ToDouble(a[1]), ToDouble(a[2])) else Origin
  }

  /** An orientation is read only from an [x, y, z, scalar] array of four;
    * otherwise it keeps the default identity. */
  function OrientationFrom(a: seq<Json>): Quat {
    if |a| == 4 then Quat(ToDouble(a[3]), ToDouble(a[0]), ToDouble(a[1]), ToDouble(a[2])) else Identity
  }

  function ParseBody(v: Json): RigidBodyData {
    var o := ToObj(v);
    RigidBodyData(
      ToInt(Get(o, "id")),
      ToInt(Get(o, "parentId")),
      PositionFrom(ToArr(Get(o, "position"))),
      OrientationFrom(ToArr(Get(o, "orientation"))))
  }

  function ParseBodies(items: seq<Json>): (r: seq<RigidBodyData>)
    ensures |r| == |items|
    ensures forall k :: 0 <= k < |items| ==> r[k] == ParseBody(items[k])
    decreases |items|
  {
    if items == [] then [] else ParseBodies(items[..|items| - 1]) + [ParseBody(items[|items| - 1])]
  }

  function ParseSkeleton(v: Json): SkeletonData {
    var o := ToObj(v);
    SkeletonData(ToInt(Get(o, "id")), ParseBodies(ToArr(Get(o, "bones"))))
  }

  function ParseSkeletons(items: seq<Json>): (r: seq<SkeletonData>)
    ensures |r| == |items|
    ensures forall k :: 0 <= k < |items| ==> r[k] == ParseSkeleton(items[k])
    decreases |items|
  {
    if items == [] then [] else ParseSkeletons(items[..|items| - 1]) + [ParseSkeleton(items[|items| - 1])]
  }

  function ParseFrame(v: Json): FrameData {
    var o := ToObj(v);
    FrameData(
      ToInt(Get(o, "frameNumber")),
      ToDouble(Get(o, "timestamp")),
      ParseBodies(ToArr(Get(o, "rigidBodies"))),
      ParseSkeletons(ToArr(Get(o, "skeletons"))))
  }

  function ParseFrameList(items: seq<Json>): (r: seq<FrameData>)
    ensures |r| == |items|
    ensures forall k :: 0 <= k < |items| ==> r[k] == ParseFrame(items[k])
    decreases |items|
  {
    if items == [] then [] else ParseFrameList(items[..|items| - 1]) + [ParseFrame(items[|items| - 1])]
  }

  /** `r` is what the key loop of parseIdMaps builds from `obj`: every key's
    * integer value is an id, and each id carries the text of one of the
    * keys reading as that id. Which one, when several keys read as the
    * same id, is left open. */
  ghost predicate ParsedNameMap(obj: map<string, Json>, r: map<int, string>) {
    && (forall key :: key in obj ==> ParseInt(key) in r)
    && (forall id :: id in r ==> exists key :: key in obj && ParseInt(key) == id && r[id] == ToStr(obj[key]))
  }

  /** The same for the per-skeleton bone maps. */
  ghost predicate ParsedBoneMap(obj: map<string, Json>, r: map<int, map<int, string>>) {
    && (forall key :: key in obj ==> ParseInt(key) in r)
    && (forall id :: id in r ==> exists key :: key in obj && ParseInt(key) == id && ParsedNameMap(ToObj(obj[key]), r[id]))
  }

  /** A bone pair is read only from an array of exactly two elements;
    * anything else is skipped. */
  function ParsePairs(items: seq<Json>): seq<(int, int)>
    decreases |items|
  {
    if items == [] then []
    else
      var a := ToArr(items[|items| - 1]);
      ParsePairs(items[..|items| - 1]) + (if |a| == 2 then [(ToInt(a[0]), ToInt(a[1]))] else [])
  }

  function ParseSkeletonPairs(items: seq<Json>): (r: seq<seq<(int, int)>>)
    ensures |r| == |items|
    ensures forall k :: 0 <= k < |items| ==> r[k] == ParsePairs(ToArr(items[k]))
    decreases |items|
  {
    if items == [] then []
    else ParseSkeletonPairs(items[..|items| - 1]) + [ParsePairs(ToArr(items[|items| - 1]))]
  }

  /** A marker offset is read only from an array of exactly three
    * elements; anything else is skipped. */
  function ParseVectors(items: seq<Json>): seq<Vec3>
    decreases |items|
  {
    if items == [] then []
    else
      var a := ToArr(items[|items| - 1]);
      ParseVectors(items[..|items| - 1]) + (if |a| == 3 then [Vec3(ToDouble(a[0]), ToDouble(a[1]), ToDouble(a[2]))] else [])
  }

  function ParseOffset(v: Json): RigidBodyOffsets {
    var o := ToObj(v);
    RigidBodyOffsets(ToInt(Get(o, "bodyID")), ParseVectors(ToArr(Get(o, "markerOffsets"))))
  }

  function ParseOffsets(items: seq<Json>): (r: seq<RigidBodyOffsets>)
    ensures |r| == |items|
    ensures forall k :: 0 <= k < |items| ==> r[k] == ParseOffset(items[k])
    decreases |items|
  {
    if items == [] then [] else ParseOffsets(items[..|items| - 1]) + [ParseOffset(items[|items| - 1])]
  }

  function ParseGLAssets(obj: map<string, Json>): GLWidgetAssets {
    GLWidgetAssets(ParseSkeletonPairs(ToArr(Get(obj, "skeletons"))), ParseOffsets(ToArr(Get(obj, "rbOffsets"))))
  }

  // ---------------------------------------------------------------------
  // Round trips

  predicate BodyInt32(b: RigidBodyData) {
    IsInt32(b.id) && IsInt32(b.parentId)
  }

  predicate SkeletonInt32(s: SkeletonData) {
    IsInt32(s.id) && forall k :: 0 <= k < |s.bones| ==> BodyInt32(s.bones[k])
  }

  /** Every int of a frame fits a C++ int, as it does in the program. */
  predicate FrameInt32(f: FrameData) {
    && IsInt32(f.frameNumber)
    && (forall k :: 0 <= k < |f.rigidBodies| ==> BodyInt32(f.rigidBodies[k]))
    && (forall k :: 0 <= k < |f.skeletons| ==> SkeletonInt32(f.skeletons[k]))
  }

  predicate NamesInt32(names: NameMaps) {
    && (forall id :: id in names.rigidBodies ==> IsInt32(id))
    && (forall id :: id in names.skeletons ==> IsInt32(id))
    && (forall sid :: sid in names.bones ==> IsInt32(sid) && forall id :: id in names.bones[sid] ==> IsInt32(id))
  }

  predicate PairsInt32(pairs: seq<(int, int)>) {
    forall k :: 0 <= k < |pairs| ==> IsInt32(pairs[k].0) && IsInt32(pairs[k].1)
  }

  predicate AssetsInt32(a: GLWidgetAssets) {
    && (forall s :: 0 <= s < |a.skeletons| ==> PairsInt32(a.skeletons[s]))
    && (forall k :: 0 <= k < |a.rbOffsets| ==> IsInt32(a.rbOffsets[k].bodyId))
  }

  lemma BodyRoundTrip(b: RigidBodyData)
    requires BodyInt32(b)
    ensures ParseBody(BodyJson(b)) == b
  {
    IntValueRoundTrip(b.id);
    IntValueRoundTrip(b.parentId);
  }

  lemma BodiesRoundTrip(bodies: seq<RigidBodyData>)
    requires forall k :: 0 <= k < |bodies| ==> BodyInt32(bodies[k])
    ensures ParseBodies(BodiesJson(bodies)) == bodies
  {
    forall k | 0 <= k < |bodies|
      ensures ParseBodies(BodiesJson(bodies))[k] == bodies[k]
    {
      BodyRoundTrip(bodies[k]);
    }
  }

  lemma SkeletonRoundTrip(s: SkeletonData)
    requires SkeletonInt32(s)
    ensures ParseSkeleton(SkeletonJson(s)) == s
  {
    var o := ToObj(SkeletonJson(s));
    assert Get(o, "id") == IntValue(s.id);
    assert Get(o, "bones") == JArr(BodiesJson(s.bones));
    IntValueRoundTrip(s.id);
    BodiesRoundTrip(s.bones);
  }

  lemma SkeletonsRoundTrip(skeletons: seq<SkeletonData>)
    requires forall k :: 0 <= k < |skeletons| ==> SkeletonInt32(skeletons[k])
    ensures ParseSkeletons(SkeletonsJson(skeletons)) == skeletons
  {
    forall k | 0 <= k < |skeletons|
      ensures ParseSkeletons(SkeletonsJson(skeletons))[k] == skeletons[k]
    {
      SkeletonRoundTrip(skeletons[k]);
    }
  }

  lemma FrameRoundTrip(f: FrameData)
    requires FrameInt32(f)
    ensures ParseFrame(FrameJson(f)) == f
  {
    var o := ToObj(FrameJson(f));
    assert Get(o, "frameNumber") == IntValue(f.frameNumber);
    assert Get(o, "timestamp") == JNum(f.timestamp);
    assert Get(o, "rigidBodies") == JArr(BodiesJson(f.rigidBodies));
    assert Get(o, "skeletons") == JArr(SkeletonsJson(f.skeletons));
    IntValueRoundTrip(f.frameNumber);
    BodiesRoundTrip(f.rigidBodies);
    SkeletonsRoundTrip(f.skeletons);
  }

  /** parseFrames reads back exactly the frames saveTake wrote. */
  lemma FramesRoundTrip(frames: seq<FrameData>)
    requires forall k :: 0 <= k < |frames| ==> FrameInt32(frames[k])
    ensures ParseFrameList(FramesJson(frames)) == frames
  {
    forall k | 0 <= k < |frames|
      ensures ParseFrameList(FramesJson(frames))[k] == frames[k]
    {
      FrameRoundTrip(frames[k]);
    }
  }

  /** The written object has one key per id, its decimal text. */
  lemma NameMapEntry(m: map<int, string>, id: int)
    requires id in m
    ensures IntToString(id) in ToObj(NameMapJson(m))
    ensures ToObj(NameMapJson(m))[IntToString(id)] == JStr(m[id])
  {
    IntToStringInjectiveAll();
  }

  lemma NameMapKey(m: map<int, string>, key: string) returns (id: int)
    requires key in ToObj(NameMapJson(m))
    ensures id in m && key == IntToString(id)
  {
    IntToStringInjectiveAll();
    id :| id in m && key == IntToString(id);
  }

  /** Reading a key written for an id gives back that id and its name. */
  lemma NameMapReadBack(m: map<int, string>, key: string) returns (id: int)
    requires forall i :: i in m ==> IsInt32(i)
    requires key in ToObj(NameMapJson(m))
    ensures id in m && ParseInt(key) == id
    ensures ToStr(ToObj(NameMapJson(m))[key]) == m[id]
  {
    id := NameMapKey(m, key);
    NameMapEntry(m, id);
    IntToStringRoundTrip(id);
  }

  lemma NameMapCovers(m: map<int, string>, r: map<int, string>, id: int)
    requires forall i :: i in m ==> IsInt32(i)
    requires ParsedNameMap(ToObj(NameMapJson(m)), r)
    requires id in m
    ensures id in r && r[id] == m[id]
  {
    var obj := ToObj(NameMapJson(m));
    NameMapEntry(m, id);
    IntToStringRoundTrip(id);
    assert IntToString(id) in obj;
    assert ParseInt(IntToString(id)) in r;
    var key :| key in obj && ParseInt(key) == id && r[id] == ToStr(obj[key]);
    var other := NameMapReadBack(m, key);
  }

  lemma NameMapWithin(m: map<int, string>, r: map<int, string>, id: int)
    requires forall i :: i in m ==> IsInt32(i)
    requires ParsedNameMap(ToObj(NameMapJson(m)), r)
    requires id in r
    ensures id in m
  {
    var obj := ToObj(NameMapJson(m));
    var key :| key in obj && ParseInt(key) == id && r[id] == ToStr(obj[key]);
    var other := NameMapReadBack(m, key);
  }

  /** parseIdMaps reads back exactly the map saveTake wrote. */
  lemma NameMapRoundTrip(m: map<int, string>, r: map<int, string>)
    requires forall id :: id in m ==> IsInt32(id)
    requires ParsedNameMap(ToObj(NameMapJson(m)), r)
    ensures r == m
  {
    forall id | id in m
      ensures id in r && r[id] == m[id]
    {
      NameMapCovers(m, r, id);
    }
    forall id | id in r
      ensures id in m
    {
      NameMapWithin(m, r, id);
    }
    assert forall id :: id in r <==> id in m;
    assert forall id :: id in r ==> r[id] == m[id];
  }

  lemma BoneMapEntry(m: map<int, map<int, string>>, sid: int)
    requires sid in m
    ensures IntToString(sid) in ToObj(BoneMapJson(m))
    ensures ToObj(BoneMapJson(m))[IntToString(sid)] == NameMapJson(m[sid])
  {
    IntToStringInjectiveAll();
  }

  lemma BoneMapReadBack(m: map<int, map<int, string>>, key: string) returns (sid: int)
    requires forall i :: i in m ==> IsInt32(i)
    requires key in ToObj(BoneMapJson(m))
    ensures sid in m && ParseInt(key) == sid
    ensures ToObj(BoneMapJson(m))[key] == NameMapJson(m[sid])
  {
    IntToStringInjectiveAll();
    sid :| sid in m && key == IntToString(sid);
    BoneMapEntry(m, sid);
    IntToStringRoundTrip(sid);
  }

  lemma BoneMapCovers(m: map<int, map<int, string>>, r: map<int, map<int, string>>, sid: int)
    requires forall i :: i in m ==> IsInt32(i) && forall id :: id in m[i] ==> IsInt32(id)
    requires ParsedBoneMap(ToObj(BoneMapJson(m)), r)
    requires sid in m
    ensures sid in r && r[sid] == m[sid]
  {
    var obj := ToObj(BoneMapJson(m));
    BoneMapEntry(m, sid);
    IntToStringRoundTrip(sid);
    assert IntToString(sid) in obj;
    assert ParseInt(IntToString(sid)) in r;
    var key :| key in obj && ParseInt(key) == sid && ParsedNameMap(ToObj(obj[key]), r[sid]);
    var other := BoneMapReadBack(m, key);
    NameMapRoundTrip(m[sid], r[sid]);
  }

  lemma BoneMapWithin(m: map<int, map<int, string>>, r: map<int, map<int, string>>, sid: int)
    requires forall i :: i in m ==> IsInt32(i)
    requires ParsedBoneMap(ToObj(BoneMapJson(m)), r)
    requires sid in r
    ensures sid in m
  {
    var obj := ToObj(BoneMapJson(m));
    var key :| key in obj && ParseInt(key) == sid && ParsedNameMap(ToObj(obj[key]), r[sid]);
    var other := BoneMapReadBack(m, key);
  }

  lemma BoneMapCoversAll(m: map<int, map<int, string>>, r: map<int, map<int, string>>)
    requires forall sid :: sid in m ==> IsInt32(sid) && forall id :: id in m[sid] ==> IsInt32(id)
    requires ParsedBoneMap(ToObj(BoneMapJson(m)), r)
    ensures forall sid :: sid in m ==> sid in r && r[sid] == m[sid]
  {
    forall sid | sid in m
      ensures sid in r && r[sid] == m[sid]
    {
      BoneMapCovers(m, r, sid);
    }
  }

  lemma BoneMapWithinAll(m: map<int, map<int, string>>, r: map<int, map<int, string>>)
    requires forall sid :: sid in m ==> IsInt32(sid)
    requires ParsedBoneMap(ToObj(BoneMapJson(m)), r)
    ensures forall sid :: sid in r ==> sid in m
  {
    forall sid | sid in r
      ensures sid in m
    {
      BoneMapWithin(m, r, sid);
    }
  }

  /** parseIdMaps reads back exactly the bone maps saveTake wrote. */
  lemma BoneMapRoundTrip(m: map<int, map<int, string>>, r: map<int, map<int, string>>)
    requires forall sid :: sid in m ==> IsInt32(sid) && forall id :: id in m[sid] ==> IsInt32(id)
    requires ParsedBoneMap(ToObj(BoneMapJson(m)), r)
    ensures r == m
  {
    BoneMapCoversAll(m, r);
    BoneMapWithinAll(m, r);
    Collections.SameEntries(r, m);
  }

  lemma {:induction false} PairsRoundTrip(pairs: seq<(int, int)>)
    requires PairsInt32(pairs)
    ensures ParsePairs(PairsJson(pairs)) == pairs
    decreases |pairs|
  {
    if pairs != [] {
      var n := |pairs| - 1;
      var written := PairsJson(pairs);
      assert written[..n] == PairsJson(pairs[..n]);
      PairsRoundTrip(pairs[..n]);
      IntValueRoundTrip(pairs[n].0);
      IntValueRoundTrip(pairs[n].1);
      assert pairs == pairs[..n] + [pairs[n]];
    }
  }

  lemma {:induction false} VectorsRoundTrip(vs: seq<Vec3>)
    ensures ParseVectors(VectorsJson(vs)) == vs
    decreases |vs|
  {
    if vs != [] {
      var n := |vs| - 1;
      assert VectorsJson(vs) == VectorsJson(vs[..n]) + [VectorJson(vs[n])];
      VectorsRoundTrip(vs[..n]);
      ParseVectorsSnoc(VectorsJson(vs[..n]), vs[n]);
      assert vs == vs[..n] + [vs[n]];
    }
  }

  /** A written marker offset appended to a list is read back after it. */
  lemma ParseVectorsSnoc(items: seq<Json>, v: Vec3)
    ensures ParseVectors(items + [VectorJson(v)]) == ParseVectors(items) + [v]
  {
    var all := items + [VectorJson(v)];
    assert all[..|all| - 1] == items;
    assert ToArr(all[|all| - 1]) == [JNum(v.x), JNum(v.y), JNum(v.z)];
  }

  lemma {:induction false} SkeletonPairsRoundTrip(skeletons: seq<seq<(int, int)>>)
    requires forall s :: 0 <= s < |skeletons| ==> PairsInt32(skeletons[s])
    ensures ParseSkeletonPairs(SkeletonPairsJson(skeletons)) == skeletons
  {
    var written := SkeletonPairsJson(skeletons);
    var read := ParseSkeletonPairs(written);
    forall s | 0 <= s < |skeletons|
      ensures read[s] == skeletons[s]
    {
      assert written[s] == JArr(PairsJson(skeletons[s]));
      assert read[s] == ParsePairs(ToArr(written[s]));
      PairsRoundTrip(skeletons[s]);
    }
    assert |read| == |skeletons|;
  }

  lemma OffsetRoundTrip(o: RigidBodyOffsets)
    requires IsInt32(o.bodyId)
    ensures ParseOffset(OffsetJson(o)) == o
  {
    var obj := ToObj(OffsetJson(o));
    assert Get(obj, "bodyID") == IntValue(o.bodyId);
    assert Get(obj, "markerOffsets") == JArr(VectorsJson(o.markerOffsets));
    IntValueRoundTrip(o.bodyId);
    VectorsRoundTrip(o.markerOffsets);
  }

  lemma {:induction false} OffsetsRoundTrip(offsets: seq<RigidBodyOffsets>)
    requires forall k :: 0 <= k < |offsets| ==> IsInt32(offsets[k].bodyId)
    ensures ParseOffsets(OffsetsJson(offsets)) == offsets
  {
    var written := OffsetsJson(offsets);
    var back := ParseOffsets(written);
    forall k | 0 <= k < |offsets|
      ensures back[k] == offsets[k]
    {
      assert written[k] == OffsetJson(offsets[k]);
      assert back[k] == ParseOffset(written[k]);
      OffsetRoundTrip(offsets[k]);
    }
    assert |back| == |offsets|;
  }

  /** parseGLAssets reads back exactly the assets saveTake wrote. */
  lemma GLAssetsRoundTrip(a: GLWidgetAssets)
    requires AssetsInt32(a)
    ensures ParseGLAssets(ToObj(GLAssetsJson(a))) == a
  {
    var obj := ToObj(GLAssetsJson(a));
    assert Get(obj, "skeletons") == JArr(SkeletonPairsJson(a.skeletons));
    assert Get(obj, "rbOffsets") == JArr(OffsetsJson(a.rbOffsets));
    SkeletonPairsRoundTrip(a.skeletons);
    OffsetsRoundTrip(a.rbOffsets);
  }

  /** What each top-level key of the take document holds. */
  lemma TakeFields(names: NameMaps, frames: seq<FrameData>, assets: GLWidgetAssets)
    ensures var root := ToObj(TakeDocument(names, frames, assets));
      && Get(root, "rigidBodies") == NameMapJson(names.rigidBodies)
      && Get(root, "skeletons") == NameMapJson(names.skeletons)
      && Get(root, "bones") == BoneMapJson(names.bones)
      && Get(root, "frames") == JArr(FramesJson(frames))
      && Get(root, "glAssets") == GLAssetsJson(assets)
  {
    DocumentFields(NameMapJson(names.rigidBodies), NameMapJson(names.skeletons), BoneMapJson(names.bones),
      JArr(FramesJson(frames)), GLAssetsJson(assets));
  }

  lemma DocumentFields(rigidBodies: Json, skeletons: Json, bones: Json, frames: Json, glAssets: Json)
    ensures var root := map["rigidBodies" := rigidBodies, "skeletons" := skeletons, "bones" := bones,
                            "frames" := frames, "glAssets" := glAssets];
      && Get(root, "rigidBodies") == rigidBodies && Get(root, "skeletons") == skeletons
      && Get(root, "bones") == bones && Get(root, "frames") == frames && Get(root, "glAssets") == glAssets
  {
  }

  /** Loading a saved take gives back its maps, frames and assets. */
  lemma TakeRoundTrip(names: NameMaps, frames: seq<FrameData>, assets: GLWidgetAssets, parsed: NameMaps)
    requires NamesInt32(names) && AssetsInt32(assets)
    requires forall k :: 0 <= k < |frames| ==> FrameInt32(frames[k])
    requires var root := ToObj(TakeDocument(names, frames, assets));
      && ParsedNameMap(ToObj(Get(root, "rigidBodies")), parsed.rigidBodies)
      && ParsedNameMap(ToObj(Get(root, "skeletons")), parsed.skeletons)
      && ParsedBoneMap(ToObj(Get(root, "bones")), parsed.bones)
    ensures parsed == names
    ensures ParseFrameList(ToArr(Get(ToObj(TakeDocument(names, frames, assets)), "frames"))) == frames
    ensures ParseGLAssets(ToObj(Get(ToObj(TakeDocument(names, frames, assets)), "glAssets"))) == assets
  {
    TakeFields(names, frames, assets);
    NameMapRoundTrip(names.rigidBodies, parsed.rigidBodies);
    NameMapRoundTrip(names.skeletons, parsed.skeletons);
    BoneMapRoundTrip(names.bones, parsed.bones);
    FramesRoundTrip(frames);
    GLAssetsRoundTrip(assets);
  }

  /** A body whose position or orientation array has the wrong length
    * keeps the default for it. */
  lemma MalformedArraysKeepDefaults(v: Json)
    requires |ToArr(Get(ToObj(v), "position"))| != 3
    requires |ToArr(Get(ToObj(v), "orientation"))| != 4
    ensures ParseBody(v).position == Origin && ParseBody(v).orientation == Identity
  {
  }
}
