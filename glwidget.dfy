/**
 * The 3D view (glwidget.cpp): the skeleton bone pairs and rigid-body marker
 * offsets derived from the data descriptions, the assets exchanged with the
 * replay controller, the per-frame bone, joint and rigid-body line data
 * handed to the draw calls, and the camera's zoom and pitch bounds.
 * Drawing, shaders, view matrices and the pan (which needs trigonometry)
 * are outside the model.
 */
module GLWidget {
  import opened Json
  import opened Geometry
  import opened Frames
  import opened NatNetConnection
  import MeshGenerator

  /** (parent bone index, child bone index) within one skeleton. */
  type BonePair = (int, int)

  // ------------------------------------------------------------ bone pairs

  /** What boneIDtoIndex.value(id, -1) gives once every bone has been
    * entered: the index of the LAST bone carrying that id, or -1. */
  function BoneIndex(bones: seq<SdkRigidBodyDescription>, id: int): (j: int)
    ensures -1 <= j < |bones|
    ensures j >= 0 ==> bones[j].id == id && forall k :: j < k < |bones| ==> bones[k].id != id
    ensures j == -1 ==> forall k :: 0 <= k < |bones| ==> bones[k].id != id
    decreases |bones|
  {
    if bones == [] then -1
    else if bones[|bones| - 1].id == id then |bones| - 1
    else BoneIndex(bones[..|bones| - 1], id)
  }

  /** The pair bone j contributes: its parent's index when it has a parent
    * id other than -1 and that id is a bone of the same skeleton. */
  function ChildPair(bones: seq<SdkRigidBodyDescription>, j: int): seq<BonePair>
    requires 0 <= j < |bones|
  {
    var parentId := bones[j].parentId;
    if parentId != -1 && BoneIndex(bones, parentId) != -1 then [(BoneIndex(bones, parentId), j)] else []
  }

  function PairsUpTo(bones: seq<SdkRigidBodyDescription>, n: int): seq<BonePair>
    requires 0 <= n <= |bones|
    decreases n
  {
    if n == 0 then [] else PairsUpTo(bones, n - 1) + ChildPair(bones, n - 1)
  }

  /** The (parent, child) pairs of one skeleton description. */
  function BonePairs(bones: seq<SdkRigidBodyDescription>): seq<BonePair> {
    PairsUpTo(bones, |bones|)
  }

  /** A pair is listed exactly when its child has a parent id other than -1
    * that names a bone of the skeleton, and its parent is that bone (the
    * last one, should ids repeat); children come in increasing order. */
  lemma PairsUpToExact(bones: seq<SdkRigidBodyDescription>, n: int)
    requires 0 <= n <= |bones|
    ensures forall p, c :: (p, c) in PairsUpTo(bones, n) <==>
      0 <= c < n && bones[c].parentId != -1 && p == BoneIndex(bones, bones[c].parentId) && p != -1
    ensures forall a, b :: 0 <= a < b < |PairsUpTo(bones, n)| ==> PairsUpTo(bones, n)[a].1 < PairsUpTo(bones, n)[b].1
    ensures forall a :: 0 <= a < |PairsUpTo(bones, n)| ==> PairsUpTo(bones, n)[a].1 < n
  {
    PairsUpToMembers(bones, n);
    PairsUpToOrdered(bones, n);
  }

  lemma {:induction false} PairsUpToMembers(bones: seq<SdkRigidBodyDescription>, n: int)
    requires 0 <= n <= |bones|
    ensures forall p, c :: (p, c) in PairsUpTo(bones, n) <==>
      0 <= c < n && bones[c].parentId != -1 && p == BoneIndex(bones, bones[c].parentId) && p != -1
    decreases n
  {
    if n > 0 {
      PairsUpToMembers(bones, n - 1);
      var prev := PairsUpTo(bones, n - 1);
      var step := ChildPair(bones, n - 1);
      assert PairsUpTo(bones, n) == prev + step;
      forall p, c
        ensures (p, c) in prev + step <==> (p, c) in prev || (p, c) in step
      {
      }
    }
  }

  lemma {:induction false} PairsUpToBound(bones: seq<SdkRigidBodyDescription>, n: int)
    requires 0 <= n <= |bones|
    ensures forall a :: 0 <= a < |PairsUpTo(bones, n)| ==> PairsUpTo(bones, n)[a].1 < n
    decreases n
  {
    if n > 0 {
      PairsUpToBound(bones, n - 1);
      assert PairsUpTo(bones, n) == PairsUpTo(bones, n - 1) + ChildPair(bones, n - 1);
    }
  }

  lemma {:induction false} PairsUpToOrdered(bones: seq<SdkRigidBodyDescription>, n: int)
    requires 0 <= n <= |bones|
    ensures forall a, b :: 0 <= a < b < |PairsUpTo(bones, n)| ==> PairsUpTo(bones, n)[a].1 < PairsUpTo(bones, n)[b].1
    ensures forall a :: 0 <= a < |PairsUpTo(bones, n)| ==> PairsUpTo(bones, n)[a].1 < n
    decreases n
  {
    PairsUpToBound(bones, n);
    if n > 0 {
      PairsUpToOrdered(bones, n - 1);
      PairsUpToBound(bones, n - 1);
      assert PairsUpTo(bones, n) == PairsUpTo(bones, n - 1) + ChildPair(bones, n - 1);
    }
  }

  lemma BonePairsExact(bones: seq<SdkRigidBodyDescription>)
    ensures forall p, c :: (p, c) in BonePairs(bones) <==>
      && 0 <= c < |bones| && bones[c].parentId != -1
      && 0 <= p < |bones| && bones[p].id == bones[c].parentId
      && forall k :: p < k < |bones| ==> bones[k].id != bones[c].parentId
    ensures forall a, b :: 0 <= a < b < |BonePairs(bones)| ==> BonePairs(bones)[a].1 < BonePairs(bones)[b].1
  {
    var pairs := BonePairs(bones);
    assert pairs == PairsUpTo(bones, |bones|);
    PairsUpToExact(bones, |bones|);
    forall p, c
      ensures (p, c) in pairs <==>
        && 0 <= c < |bones| && bones[c].parentId != -1
        && 0 <= p < |bones| && bones[p].id == bones[c].parentId
        && forall k :: p < k < |bones| ==> bones[k].id != bones[c].parentId
    {
      if 0 <= c < |bones| && 0 <= p < |bones| && bones[p].id == bones[c].parentId
         && (forall k :: p < k < |bones| ==> bones[k].id != bones[c].parentId) {
        LastWithId(bones, bones[c].parentId, p);
      }
    }
  }

  /** The last bone with an id is the one BoneIndex finds. */
  lemma LastWithId(bones: seq<SdkRigidBodyDescription>, id: int, p: int)
    requires 0 <= p < |bones| && bones[p].id == id
    requires forall k :: p < k < |bones| ==> bones[k].id != id
    ensures BoneIndex(bones, id) == p
  {
    var j := BoneIndex(bones, id);
    assert j >= p;
  }

  /** The QMap<int,int> boneIDtoIndex built by entering every bone in turn. */
  method IndexById(bones: seq<SdkRigidBodyDescription>) returns (index: map<int, int>)
    ensures forall id :: id in index <==> BoneIndex(bones, id) != -1
    ensures forall id :: id in index ==> index[id] == BoneIndex(bones, id)
  {
    index := map[];
    var j := 0;
    while j < |bones|
      invariant 0 <= j <= |bones|
      invariant forall id :: id in index <==> BoneIndex(bones[..j], id) != -1
      invariant forall id :: id in index ==> index[id] == BoneIndex(bones[..j], id)
    {
      assert bones[..j + 1][..j] == bones[..j];
      index := index[bones[j].id := j];
      j := j + 1;
    }
    assert bones[..j] == bones;
  }

  /** The pair loop of initSceneDescriptions for one skeleton. */
  method SkeletonBonePairs(bones: seq<SdkRigidBodyDescription>) returns (pairs: seq<BonePair>)
    ensures pairs == BonePairs(bones)
  {
    var index := IndexById(bones);
    pairs := [];
    var j := 0;
    while j < |bones|
      invariant 0 <= j <= |bones|
      invariant pairs == PairsUpTo(bones, j)
    {
      var parentId := bones[j].parentId;
      if parentId != -1 {
        var parentIndex := if parentId in index then index[parentId] else -1;
        if parentIndex != -1 {
          pairs := pairs + [(parentIndex, j)];
        }
      }
      j := j + 1;
    }
  }

  // --------------------------------------------------------- marker offsets

  function Scale(v: Vec3, k: real): Vec3 {
    Vec3(v.x * k, v.y * k, v.z * k)
  }

  function Sum(vs: seq<Vec3>): Vec3
    decreases |vs|
  {
    if vs == [] then Origin else Add(Sum(vs[..|vs| - 1]), vs[|vs| - 1])
  }

  /** The mean of the marker positions. */
  function Centroid(markers: seq<Vec3>): Vec3
    requires |markers| > 0
  {
    Scale(Sum(markers), 1.0 / |markers| as real)
  }

  /** Every marker relative to c; adding c back gives the marker. */
  function OffsetsFrom(markers: seq<Vec3>, c: Vec3): (r: seq<Vec3>)
    ensures |r| == |markers|
    ensures forall k :: 0 <= k < |r| ==> Add(r[k], c) == markers[k]
    decreases |markers|
  {
    if markers == [] then []
    else OffsetsFrom(markers[..|markers| - 1], c) + [Sub(markers[|markers| - 1], c)]
  }

  /** The offsets stored for a rigid body: marker minus centroid. With no
    * markers there are no offsets (the centroid is never used). */
  function MarkerOffsets(markers: seq<Vec3>): seq<Vec3> {
    if markers == [] then [] else OffsetsFrom(markers, Centroid(markers))
  }

  /** Summing the offsets from c is summing the markers less |markers| c. */
  lemma {:induction false} OffsetsFromSum(markers: seq<Vec3>, c: Vec3)
    ensures Sum(OffsetsFrom(markers, c)) == Sub(Sum(markers), Scale(c, |markers| as real))
    decreases |markers|
  {
    if markers != [] {
      var n := |markers| - 1;
      var prefix := markers[..n];
      var last := markers[n];
      OffsetsFromSum(prefix, c);
      var offs := OffsetsFrom(markers, c);
      assert offs == OffsetsFrom(prefix, c) + [Sub(last, c)];
      assert offs[..n] == OffsetsFrom(prefix, c);
      assert Sum(offs) == Add(Sum(OffsetsFrom(prefix, c)), Sub(last, c));
      assert Sum(markers) == Add(Sum(prefix), last);
      ScaleStep(c, n as real);
    }
  }

  lemma ScaleStep(c: Vec3, k: real)
    ensures Scale(c, k + 1.0) == Add(Scale(c, k), c)
  {
    assert c.x * (k + 1.0) == c.x * k + c.x;
    assert c.y * (k + 1.0) == c.y * k + c.y;
    assert c.z * (k + 1.0) == c.z * k + c.z;
  }

  /** The offsets are centred: they sum to the zero vector. */
  lemma MarkerOffsetsCentred(markers: seq<Vec3>)
    ensures |MarkerOffsets(markers)| == |markers|
    ensures Sum(MarkerOffsets(markers)) == Origin
  {
    if markers != [] {
      var c := Centroid(markers);
      OffsetsFromSum(markers, c);
      var n := |markers| as real;
      var s := Sum(markers);
      assert (s.x * (1.0 / n)) * n == s.x;
      assert (s.y * (1.0 / n)) * n == s.y;
      assert (s.z * (1.0 / n)) * n == s.z;
    }
  }

  /** The offset loop of initSceneDescriptions for one rigid body. */
  method ComputeOffsets(rb: SdkRigidBodyDescription) returns (ro: RigidBodyOffsets)
    ensures ro == RigidBodyOffsets(rb.id, MarkerOffsets(rb.markers))
  {
    var nM := |rb.markers|;
    var sum := Origin;
    var m := 0;
    while m < nM
      invariant 0 <= m <= nM
      invariant sum == Sum(rb.markers[..m])
    {
      assert rb.markers[..m + 1][..m] == rb.markers[..m];
      sum := Add(sum, rb.markers[m]);
      m := m + 1;
    }
    assert rb.markers[..nM] == rb.markers;
    var centroid := Origin;
    if nM > 0 {
      centroid := Scale(sum, 1.0 / nM as real);
    }
    var offsets: seq<Vec3> := [];
    m := 0;
    while m < nM
      invariant 0 <= m <= nM
      invariant offsets == OffsetsFrom(rb.markers[..m], centroid)
    {
      assert rb.markers[..m + 1][..m] == rb.markers[..m];
      offsets := offsets + [Sub(rb.markers[m], centroid)];
      m := m + 1;
    }
    ro := RigidBodyOffsets(rb.id, offsets);
  }

  // ------------------------------------------------------ scene descriptions

  /** The skeleton descriptions, in descriptor order. */
  function SkeletonDescriptions(descs: seq<DataDescription>): seq<SdkSkeletonDescription>
    decreases |descs|
  {
    if descs == [] then []
    else
      var rest := SkeletonDescriptions(descs[..|descs| - 1]);
      match descs[|descs| - 1]
      case SkeletonDescriptor(sk) => rest + [sk]
      case _ => rest
  }

  /** The rigid-body descriptions, in descriptor order. */
  function RigidBodyDescriptions(descs: seq<DataDescription>): seq<SdkRigidBodyDescription>
    decreases |descs|
  {
    if descs == [] then []
    else
      var rest := RigidBodyDescriptions(descs[..|descs| - 1]);
      match descs[|descs| - 1]
      case RigidBodyDescriptor(rb) => rest + [rb]
      case _ => rest
  }

  /** One pair list per skeleton descriptor, in descriptor order. */
  function SceneBones(descs: seq<DataDescription>): (r: seq<seq<BonePair>>)
    ensures |r| == |SkeletonDescriptions(descs)|
    ensures forall k :: 0 <= k < |r| ==> r[k] == BonePairs(SkeletonDescriptions(descs)[k].bones)
    decreases |descs|
  {
    if descs == [] then []
    else
      var rest := SceneBones(descs[..|descs| - 1]);
      match descs[|descs| - 1]
      case SkeletonDescriptor(sk) => rest + [BonePairs(sk.bones)]
      case _ => rest
  }

  /** One offsets record per rigid-body descriptor, in descriptor order. */
  function SceneOffsets(descs: seq<DataDescription>): (r: seq<RigidBodyOffsets>)
    ensures |r| == |RigidBodyDescriptions(descs)|
    ensures forall k :: 0 <= k < |r| ==>
      r[k] == RigidBodyOffsets(RigidBodyDescriptions(descs)[k].id, MarkerOffsets(RigidBodyDescriptions(descs)[k].markers))
    decreases |descs|
  {
    if descs == [] then []
    else
      var rest := SceneOffsets(descs[..|descs| - 1]);
      match descs[|descs| - 1]
      case RigidBodyDescriptor(rb) => rest + [RigidBodyOffsets(rb.id, MarkerOffsets(rb.markers))]
      case _ => rest
  }

  /** m_skeletonBones.resize(n): the first n old lists are kept and empty
    * lists are added up to n. */
  function Resized(lists: seq<seq<BonePair>>, n: nat): (r: seq<seq<BonePair>>)
    ensures |r| == n
    ensures forall k :: 0 <= k < n && k < |lists| ==> r[k] == lists[k]
    ensures forall k :: |lists| <= k < n ==> r[k] == []
  {
    seq(n, k requires 0 <= k < n => if k < |lists| then lists[k] else [])
  }

  /** The bone lists initSceneDescriptions leaves AS WRITTEN: each
    * skeleton's pairs are appended to whatever the resized list held. */
  function SceneBonesAsWritten(before: seq<seq<BonePair>>, descs: seq<DataDescription>): (r: seq<seq<BonePair>>)
    ensures |r| == |SkeletonDescriptions(descs)|
    ensures forall k :: 0 <= k < |r| && k < |before| ==> r[k] == before[k] + SceneBones(descs)[k]
    ensures forall k :: |before| <= k < |r| ==> r[k] == SceneBones(descs)[k]
  {
    var built := SceneBones(descs);
    var kept := Resized(before, |built|);
    seq(|built|, k requires 0 <= k < |built| => kept[k] + built[k])
  }

  /** On a widget that holds no lists yet, the code as written gives the
    * intended lists. */
  lemma FirstInitAsWrittenIsFresh(descs: seq<DataDescription>)
    ensures SceneBonesAsWritten([], descs) == SceneBones(descs)
  {
    var r := SceneBonesAsWritten([], descs);
    var built := SceneBones(descs);
    forall k | 0 <= k < |r|
      ensures r[k] == built[k]
    {
      assert Resized([], |built|)[k] == [];
    }
  }

  /** A skeleton "s" with bone 1 as the root and bone 2 as its child. */
  const TwoBoneSkeleton: seq<DataDescription> := [SkeletonDescriptor(SdkSkeletonDescription(1, "s", [
    SdkRigidBodyDescription(1, "root", -1, []),
    SdkRigidBodyDescription(2, "tip", 1, [])]))]

  /** A second initialisation with the same descriptions (the sendMaps
    * signal and then paintGL's lazy initialisation, which runs because
    * initSceneDescriptions never sets m_skeletonReady) lists every pair
    * twice. */
  lemma SecondInitDuplicatesPairs()
    ensures SceneBones(TwoBoneSkeleton) == [[(0, 1)]]
    ensures SceneBonesAsWritten(SceneBonesAsWritten([], TwoBoneSkeleton), TwoBoneSkeleton) == [[(0, 1), (0, 1)]]
  {
    var bones := TwoBoneSkeleton[0].skeleton.bones;
    assert BoneIndex(bones, 1) == 0 by {
      assert bones[..1][0].id == 1;
    }
    assert BonePairs(bones) == [(0, 1)] by {
      assert ChildPair(bones, 0) == [];
      assert ChildPair(bones, 1) == [(0, 1)];
    }
    assert TwoBoneSkeleton[..0] == [];
    assert SceneBones(TwoBoneSkeleton) == [[(0, 1)]];
    FirstInitAsWrittenIsFresh(TwoBoneSkeleton);
    var once := SceneBonesAsWritten([], TwoBoneSkeleton);
    var twice := SceneBonesAsWritten(once, TwoBoneSkeleton);
    assert once == [[(0, 1)]];
    assert |twice| == 1;
    assert twice[0] == [(0, 1)] + [(0, 1)] == [(0, 1), (0, 1)];
    assert twice == [twice[0]];
  }

  /** The lists a second initialisation gives, with the lists cleared
    * before the resize, are the same lists again. */
  lemma SecondInitIsIdempotent(before: seq<seq<BonePair>>, descs: seq<DataDescription>)
    ensures SceneBonesAsWritten([], descs) == SceneBones(descs)
    ensures SceneBonesAsWritten(before, descs) == SceneBones(descs) <==>
      forall k :: 0 <= k < |SceneBones(descs)| && k < |before| ==> before[k] == []
  {
    FirstInitAsWrittenIsFresh(descs);
    var built := SceneBones(descs);
    var r := SceneBonesAsWritten(before, descs);
    if forall k :: 0 <= k < |built| && k < |before| ==> before[k] == [] {
      forall k | 0 <= k < |r|
        ensures r[k] == built[k]
      {
        if k < |before| {
          assert before[k] == [];
        }
      }
    }
    if r == built {
      forall k | 0 <= k < |built| && k < |before|
        ensures before[k] == []
      {
        assert r[k] == before[k] + built[k];
        assert |r[k]| == |before[k]| + |built[k]|;
      }
    }
  }

  // ----------------------------------------------------- skeleton line data

  /** Bone `index` of frame skeleton `skeleton`. */
  datatype BoneRef = BoneRef(skeleton: int, index: int)

  /** The bones one pair list touches, parent then child, pair by pair. */
  function PairRefs(s: int, pairs: seq<BonePair>): (r: seq<BoneRef>)
    ensures |r| == 2 * |pairs|
    decreases |pairs|
  {
    if pairs == [] then []
    else
      var p := pairs[|pairs| - 1];
      PairRefs(s, pairs[..|pairs| - 1]) + [BoneRef(s, p.0), BoneRef(s, p.1)]
  }

  /** The bones every skeleton's pair list touches, skeleton by skeleton. */
  function SkeletonRefs(lists: seq<seq<BonePair>>): seq<BoneRef>
    decreases |lists|
  {
    if lists == [] then []
    else SkeletonRefs(lists[..|lists| - 1]) + PairRefs(|lists| - 1, lists[|lists| - 1])
  }

  function TotalPairs(lists: seq<seq<BonePair>>): nat
    decreases |lists|
  {
    if lists == [] then 0 else TotalPairs(lists[..|lists| - 1]) + |lists[|lists| - 1]|
  }

  function RefIndices(refs: seq<BoneRef>): set<int> {
    set r | r in refs :: r.index
  }

  /** The refs whose bone index has not been seen before: the shared
    * addedJoints set is keyed by the index alone, across all skeletons. */
  function FirstSeen(refs: seq<BoneRef>): seq<BoneRef>
    decreases |refs|
  {
    if refs == [] then []
    else
      var prefix := refs[..|refs| - 1];
      var last := refs[|refs| - 1];
      if last.index in RefIndices(prefix) then FirstSeen(prefix) else FirstSeen(prefix) + [last]
  }

  /** Every bone index appears once among the first-seen refs, and each of
    * them is one of the refs. */
  lemma {:induction false} FirstSeenDistinct(refs: seq<BoneRef>)
    ensures RefIndices(FirstSeen(refs)) == RefIndices(refs)
    ensures forall a, b :: 0 <= a < b < |FirstSeen(refs)| ==> FirstSeen(refs)[a].index != FirstSeen(refs)[b].index
    ensures forall r :: r in FirstSeen(refs) ==> r in refs
    decreases |refs|
  {
    if refs != [] {
      var prefix := refs[..|refs| - 1];
      var last := refs[|refs| - 1];
      FirstSeenDistinct(prefix);
      assert refs == prefix + [last];
      RefIndicesSnoc(prefix, last);
      RefIndicesSnoc(FirstSeen(prefix), last);
    }
  }

  lemma RefIndicesSnoc(refs: seq<BoneRef>, r: BoneRef)
    ensures RefIndices(refs + [r]) == RefIndices(refs) + {r.index}
  {
    assert forall x :: x in refs + [r] <==> x in refs || x == r;
  }

  lemma {:induction false} SkeletonRefsCount(lists: seq<seq<BonePair>>)
    ensures |SkeletonRefs(lists)| == 2 * TotalPairs(lists)
    decreases |lists|
  {
    if lists != [] {
      SkeletonRefsCount(lists[..|lists| - 1]);
    }
  }

  /** The position a ref names, or the origin for one the frame does not
    * have (the requires of PrepareSkeletonData rule those out). */
  function BonePosition(frame: FrameData, r: BoneRef): Vec3 {
    if 0 <= r.skeleton < |frame.skeletons| && 0 <= r.index < |frame.skeletons[r.skeleton].bones|
    then frame.skeletons[r.skeleton].bones[r.index].position
    else Origin
  }

  function Positions(frame: FrameData, refs: seq<BoneRef>): (r: seq<Vec3>)
    ensures |r| == |refs|
    ensures forall k :: 0 <= k < |refs| ==> r[k] == BonePosition(frame, refs[k])
    decreases |refs|
  {
    if refs == [] then [] else Positions(frame, refs[..|refs| - 1]) + [BonePosition(frame, refs[|refs| - 1])]
  }

  /** Every pair of the first |frame.skeletons| lists names bones of the
    * frame's skeleton with the same position in the list. */
  predicate PairsInFrame(frame: FrameData, lists: seq<seq<BonePair>>) {
    && |frame.skeletons| <= |lists|
    && forall s, k :: 0 <= s < |frame.skeletons| && 0 <= k < |lists[s]| ==>
         0 <= lists[s][k].0 < |frame.skeletons[s].bones| && 0 <= lists[s][k].1 < |frame.skeletons[s].bones|
  }

  /** Two points per bone pair; one joint point per distinct bone index. */
  lemma SkeletonDataShape(frame: FrameData, lists: seq<seq<BonePair>>)
    ensures |Positions(frame, SkeletonRefs(lists))| == 2 * TotalPairs(lists)
    ensures |Positions(frame, FirstSeen(SkeletonRefs(lists)))| == |RefIndices(SkeletonRefs(lists))|
  {
    SkeletonRefsCount(lists);
    var refs := SkeletonRefs(lists);
    var first := FirstSeen(refs);
    FirstSeenDistinct(refs);
    DistinctIndicesCount(first);
  }

  /** Refs with pairwise distinct indices have as many indices as refs. */
  lemma {:induction false} DistinctIndicesCount(refs: seq<BoneRef>)
    requires forall a, b :: 0 <= a < b < |refs| ==> refs[a].index != refs[b].index
    ensures |RefIndices(refs)| == |refs|
    decreases |refs|
  {
    if refs != [] {
      var prefix := refs[..|refs| - 1];
      var last := refs[|refs| - 1];
      DistinctIndicesCount(prefix);
      assert refs == prefix + [last];
      assert RefIndices(refs) == RefIndices(prefix) + {last.index};
      assert last.index !in RefIndices(prefix);
    }
  }

  // ------------------------------------------------------ rigid-body lines

  /** QQuaternion::rotatedVector: the vector part of q (0,v) q*. */
  function Rotated(q: Quat, v: Vec3): Vec3 {
    var r := Mul(Mul(q, Quat(0.0, v.x, v.y, v.z)), Conjugated(q));
    Vec3(r.x, r.y, r.z)
  }

  /** The identity orientation leaves an offset as it is. */
  lemma RotatedByIdentity(v: Vec3)
    ensures Rotated(Identity, v) == v
  {
    var p := Quat(0.0, v.x, v.y, v.z);
    assert Mul(Identity, p) == p;
    assert Conjugated(Identity) == Identity;
    assert Mul(p, Identity) == p;
  }

  /** Each offset rotated into the body's orientation and moved to its
    * position. */
  function WorldPoints(body: RigidBodyData, offsets: seq<Vec3>): (r: seq<Vec3>)
    ensures |r| == |offsets|
    ensures forall k :: 0 <= k < |r| ==> r[k] == Add(body.position, Rotated(body.orientation, offsets[k]))
    decreases |offsets|
  {
    if offsets == [] then []
    else WorldPoints(body, offsets[..|offsets| - 1]) + [Add(body.position, Rotated(body.orientation, offsets[|offsets| - 1]))]
  }

  /** The index of the first frame body with that id, or -1. */
  function FirstWithId(bodies: seq<RigidBodyData>, id: int): (k: int)
    ensures -1 <= k < |bodies|
    ensures k >= 0 ==> bodies[k].id == id && forall j :: 0 <= j < k ==> bodies[j].id != id
    ensures k == -1 ==> forall j :: 0 <= j < |bodies| ==> bodies[j].id != id
    decreases |bodies|
  {
    if bodies == [] then -1
    else if bodies[0].id == id then 0
    else
      var k := FirstWithId(bodies[1..], id);
      if k == -1 then -1 else k + 1
  }

  /** The pairs (i, j) with i < j < n for row i, first count of them. */
  function RowPairs(i: int, n: int, count: int): seq<BonePair>
    decreases if count > 0 then count else 0
  {
    if count <= 0 then [] else RowPairs(i, n, count - 1) + [(i, i + count)]
  }

  /** Rows 0 .. rows-1 of the all-pairs list over n markers. */
  function PairRows(n: int, rows: int): seq<BonePair>
    decreases if rows > 0 then rows else 0
  {
    if rows <= 0 then [] else PairRows(n, rows - 1) + RowPairs(rows - 1, n, n - rows)
  }

  /** Every pair (i, j) with i < j < n, i increasing and then j. */
  function AllPairs(n: int): seq<BonePair> {
    PairRows(n, n)
  }

  /** The flat index list pushed for a pair list: i, j, i, j, ... */
  function LineIndices(pairs: seq<BonePair>): (r: seq<int>)
    ensures |r| == 2 * |pairs|
    decreases |pairs|
  {
    if pairs == [] then []
    else LineIndices(pairs[..|pairs| - 1]) + [pairs[|pairs| - 1].0, pairs[|pairs| - 1].1]
  }

  /** Pair k sits at positions 2k and 2k + 1 of the index list. */
  lemma {:induction false} LineIndicesAt(pairs: seq<BonePair>)
    ensures forall k :: 0 <= k < |pairs| ==>
      LineIndices(pairs)[2 * k] == pairs[k].0 && LineIndices(pairs)[2 * k + 1] == pairs[k].1
    decreases |pairs|
  {
    if pairs != [] {
      var init := pairs[..|pairs| - 1];
      LineIndicesAt(init);
      assert forall k :: 0 <= k < |init| ==> init[k] == pairs[k];
    }
  }

  lemma {:induction false} RowPairsExact(i: int, n: int, count: int)
    ensures forall a, b :: (a, b) in RowPairs(i, n, count) <==> a == i && i < b <= i + count
    ensures |RowPairs(i, n, count)| == if count > 0 then count else 0
    decreases if count > 0 then count else 0
  {
    if count > 0 {
      RowPairsExact(i, n, count - 1);
    }
  }

  lemma {:induction false} PairRowsMembers(n: int, rows: int)
    requires rows <= n
    ensures forall a, b :: (a, b) in PairRows(n, rows) <==> 0 <= a < rows && a < b < n
    decreases if rows > 0 then rows else 0
  {
    if rows > 0 {
      PairRowsMembers(n, rows - 1);
      RowPairsExact(rows - 1, n, n - rows);
      var prev := PairRows(n, rows - 1);
      var row := RowPairs(rows - 1, n, n - rows);
      assert PairRows(n, rows) == prev + row;
      forall a, b
        ensures (a, b) in prev + row <==> (a, b) in prev || (a, b) in row
      {
      }
    }
  }

  lemma {:induction false} PairRowsLength(n: int, rows: int)
    requires 0 <= rows <= n
    ensures 2 * |PairRows(n, rows)| == rows * (2 * n - rows - 1)
    decreases rows
  {
    if rows > 0 {
      PairRowsLength(n, rows - 1);
      RowPairsLength(rows - 1, n, n - rows);
      assert PairRows(n, rows) == PairRows(n, rows - 1) + RowPairs(rows - 1, n, n - rows);
      RowsArithmetic(n, rows, |PairRows(n, rows - 1)|);
    }
  }

  lemma {:induction false} RowPairsLength(i: int, n: int, count: nat)
    ensures |RowPairs(i, n, count)| == count
    decreases count
  {
    if count > 0 {
      RowPairsLength(i, n, count - 1);
    }
  }

  /** Adding row r - 1, of n - r pairs, to the first r - 1 rows. */
  lemma RowsArithmetic(n: int, r: int, before: int)
    requires 2 * before == (r - 1) * (2 * n - (r - 1) - 1)
    ensures 2 * (before + (n - r)) == r * (2 * n - r - 1)
  {
    assert (r - 1) * (2 * n - r) == r * (2 * n - r) - (2 * n - r);
    assert r * (2 * n - r - 1) == r * (2 * n - r) - r;
  }

  lemma LineIndicesSnoc(pairs: seq<BonePair>, p: BonePair)
    ensures LineIndices(pairs + [p]) == LineIndices(pairs) + [p.0, p.1]
  {
    assert (pairs + [p])[..|pairs|] == pairs;
  }

  lemma {:induction false} LineIndicesAppend(a: seq<BonePair>, b: seq<BonePair>)
    ensures LineIndices(a + b) == LineIndices(a) + LineIndices(b)
    decreases |b|
  {
    if b != [] {
      var init := b[..|b| - 1];
      var p := b[|b| - 1];
      LineIndicesAppend(a, init);
      assert b == init + [p];
      assert a + b == (a + init) + [p];
      LineIndicesSnoc(a + init, p);
      LineIndicesSnoc(init, p);
      calc {
        LineIndices(a + b);
        LineIndices((a + init) + [p]);
        LineIndices(a + init) + [p.0, p.1];
        (LineIndices(a) + LineIndices(init)) + [p.0, p.1];
        LineIndices(a) + (LineIndices(init) + [p.0, p.1]);
        LineIndices(a) + LineIndices(init + [p]);
      }
    } else {
      assert a + b == a;
    }
  }

  /** The wireframe joins every two markers once: exactly the pairs
    * i < j < n, n(n-1)/2 of them, with indices below n. */
  lemma AllPairsExact(n: nat)
    ensures forall a, b :: (a, b) in AllPairs(n) <==> 0 <= a < b < n
    ensures 2 * |AllPairs(n)| == n * (n - 1)
    ensures MeshGenerator.IndicesBelow(LineIndices(AllPairs(n)), n)
  {
    PairRowsMembers(n, n);
    PairRowsLength(n, n);
    var pairs := AllPairs(n);
    var idx := LineIndices(pairs);
    LineIndicesAt(pairs);
    forall k | 0 <= k < |idx|
      ensures 0 <= idx[k] < n
    {
      var q := k / 2;
      assert k == 2 * q || k == 2 * q + 1;
      assert pairs[q] in pairs;
    }
  }

  /** The inner all-pairs loop of prepareRigidBodies: row i. */
  method RowIndexList(i: int, n: int) returns (row: seq<int>)
    requires i < n
    ensures row == LineIndices(RowPairs(i, n, n - i - 1))
  {
    row := [];
    var j := i + 1;
    while j < n
      invariant i + 1 <= j <= n
      invariant row == LineIndices(RowPairs(i, n, j - i - 1))
    {
      assert RowPairs(i, n, j - i) == RowPairs(i, n, j - i - 1) + [(i, j)];
      LineIndicesSnoc(RowPairs(i, n, j - i - 1), (i, j));
      row := row + [i, j];
      j := j + 1;
    }
  }

  /** The all-pairs loops of prepareRigidBodies over n markers. */
  method PairIndexList(n: int) returns (idx: seq<int>)
    ensures idx == LineIndices(AllPairs(n))
  {
    idx := [];
    var i := 0;
    while i < n
      invariant 0 <= i <= MeshGenerator.Max0(n)
      invariant idx == LineIndices(PairRows(n, i))
    {
      var row := RowIndexList(i, n);
      PairRowsIndices(n, i);
      idx := idx + row;
      i := i + 1;
    }
  }

  /** One more row adds that row's index list at the end. */
  lemma PairRowsIndices(n: int, i: int)
    requires 0 <= i
    ensures LineIndices(PairRows(n, i + 1)) == LineIndices(PairRows(n, i)) + LineIndices(RowPairs(i, n, n - i - 1))
  {
    LineIndicesAppend(PairRows(n, i), RowPairs(i, n, n - i - 1));
  }

  /** A rigid-body mesh: the frame body's id and its line mesh. */
  datatype BodyMesh = BodyMesh(id: int, mesh: MeshGenerator.MeshData)

  /** The mesh for one offsets record when the frame has its body. */
  function BodyMeshFor(ro: RigidBodyOffsets, body: RigidBodyData): BodyMesh {
    BodyMesh(body.id, MeshGenerator.Wireframe(WorldPoints(body, ro.markerOffsets), LineIndices(AllPairs(|ro.markerOffsets|))))
  }

  /** The meshes prepareRigidBodies builds: one per offsets record whose
    * body is in the frame, in offsets order; the others are skipped. */
  function RigidBodyMeshes(offsets: seq<RigidBodyOffsets>, bodies: seq<RigidBodyData>): seq<BodyMesh>
    decreases |offsets|
  {
    if offsets == [] then []
    else
      var rest := RigidBodyMeshes(offsets[..|offsets| - 1], bodies);
      var ro := offsets[|offsets| - 1];
      var k := FirstWithId(bodies, ro.bodyId);
      if k == -1 then rest else rest + [BodyMeshFor(ro, bodies[k])]
  }

  /** How many offsets records have a body in the frame. */
  function Matched(offsets: seq<RigidBodyOffsets>, bodies: seq<RigidBodyData>): nat
    decreases |offsets|
  {
    if offsets == [] then 0
    else
      Matched(offsets[..|offsets| - 1], bodies)
      + (if FirstWithId(bodies, offsets[|offsets| - 1].bodyId) == -1 then 0 else 1)
  }

  /** One mesh per matched body, with the body's id, one point per marker,
    * and every line index naming one of those points. */
  lemma {:induction false} RigidBodyMeshesShape(offsets: seq<RigidBodyOffsets>, bodies: seq<RigidBodyData>)
    ensures |RigidBodyMeshes(offsets, bodies)| == Matched(offsets, bodies)
    ensures forall m :: m in RigidBodyMeshes(offsets, bodies) ==>
      && (exists b :: b in bodies && b.id == m.id)
      && |m.mesh.normals| == |m.mesh.positions|
      && MeshGenerator.IndicesBelow(m.mesh.indices, |m.mesh.positions|)
    decreases |offsets|
  {
    if offsets != [] {
      RigidBodyMeshesShape(offsets[..|offsets| - 1], bodies);
      var ro := offsets[|offsets| - 1];
      var k := FirstWithId(bodies, ro.bodyId);
      if k != -1 {
        AllPairsExact(|ro.markerOffsets|);
        assert bodies[k] in bodies;
      }
    }
  }

  // ------------------------------------------------------------------ camera

  /** qBound(lo, v, hi) */
  function Bound(lo: real, v: real, hi: real): (r: real)
    requires lo <= hi
    ensures lo <= r <= hi
    ensures lo <= v <= hi ==> r == v
    ensures v < lo ==> r == lo
    ensures v > hi ==> r == hi
  {
    if v < lo then lo else if v > hi then hi else v
  }

  const RotationSpeed: real := 0.2
  const MinZoom: real := 0.1
  const MaxZoom: real := 10.0
  const MaxPitch: real := 89.0

  datatype MouseButton = LeftButton | RightButton | MiddleButton

  class GLWidget {
    var skeletonBones: seq<seq<BonePair>>
    var rbOffsets: seq<RigidBodyOffsets>
    var skeletonReady: bool
    var latestFrame: FrameData
    var zoom: real
    var yaw: real
    var pitch: real
    var rotating: bool
    var panning: bool

    /** Zoom and pitch within the bounds the handlers keep. */
    predicate CameraBounded()
      reads this
    {
      MinZoom <= zoom <= MaxZoom && -MaxPitch <= pitch <= MaxPitch
    }

    constructor ()
      ensures skeletonBones == [] && rbOffsets == [] && !skeletonReady
      ensures latestFrame == DefaultFrame
      ensures zoom == 1.0 && yaw == 0.0 && pitch == 0.0
      ensures !rotating && !panning
      ensures CameraBounded()
    {
      skeletonBones := [];
      rbOffsets := [];
      skeletonReady := false;
      latestFrame := DefaultFrame;
      zoom := 1.0;
      yaw := 0.0;
      pitch := 0.0;
      rotating := false;
      panning := false;
    }

    /** The camera placement initializeGL sets. */
    method InitializeCamera()
      modifies this`zoom, this`yaw, this`pitch
      ensures zoom == 4.0 && yaw == 30.0 && pitch == 20.0
      ensures CameraBounded()
    {
      zoom := 4.0;
      yaw := 30.0;
      pitch := 20.0;
    }

    /** getAssets */
    method GetAssets() returns (assets: GLWidgetAssets)
      ensures assets == GLWidgetAssets(skeletonBones, rbOffsets)
    {
      assets := GLWidgetAssets(skeletonBones, rbOffsets);
    }

    /** setAssets: both lists replaced and the widget marked ready, so the
      * lazy initialisation in paintGL does not run. */
    method SetAssets(assets: GLWidgetAssets)
      modifies this`skeletonBones, this`rbOffsets, this`skeletonReady
      ensures skeletonBones == assets.skeletons && rbOffsets == assets.rbOffsets
      ensures skeletonReady
    {
      rbOffsets := [];
      skeletonBones := assets.skeletons;
      rbOffsets := assets.rbOffsets;
      skeletonReady := true;
    }

    /** onFramesUpdated (with a controller set). */
    method OnFramesUpdated(frame: FrameData)
      modifies this`latestFrame
      ensures latestFrame == frame
    {
      latestFrame := frame;
    }

    /** initSceneDescriptions with the bone lists cleared before they are
      * resized: one list per skeleton descriptor and one offsets record
      * per rigid-body descriptor, whatever the widget held before. Without
      * descriptions nothing changes. */
    method InitSceneDescriptions(desc: Option<seq<DataDescription>>)
      modifies this`skeletonBones, this`rbOffsets
      ensures desc.None? ==> skeletonBones == old(skeletonBones) && rbOffsets == old(rbOffsets)
      ensures desc.Some? ==> skeletonBones == SceneBones(desc.value) && rbOffsets == SceneOffsets(desc.value)
    {
      if desc.None? {
        return;
      }
      var descs := desc.value;
      skeletonBones := [];
      rbOffsets := [];
      var i := 0;
      while i < |descs|
        invariant 0 <= i <= |descs|
        invariant skeletonBones == SceneBones(descs[..i])
        invariant rbOffsets == SceneOffsets(descs[..i])
      {
        assert descs[..i + 1][..i] == descs[..i];
        match descs[i] {
          case SkeletonDescriptor(sk) =>
            var pairs := SkeletonBonePairs(sk.bones);
            skeletonBones := skeletonBones + [pairs];
          case RigidBodyDescriptor(rb) =>
            var ro := ComputeOffsets(rb);
            rbOffsets := rbOffsets + [ro];
          case OtherDescriptor =>
        }
        i := i + 1;
      }
      assert descs[..i] == descs;
    }

    /** The lazy initialisation at the top of paintGL: the descriptions
      * are read once, when the widget is not ready yet and they exist;
      * drawing goes on only when the widget is ready. */
    method PaintInit(desc: Option<seq<DataDescription>>) returns (draws: bool)
      modifies this`skeletonBones, this`rbOffsets, this`skeletonReady
      ensures draws <==> old(skeletonReady) || desc.Some?
      ensures skeletonReady == draws
      ensures !old(skeletonReady) && desc.Some? ==>
        skeletonBones == SceneBones(desc.value) && rbOffsets == SceneOffsets(desc.value)
      ensures old(skeletonReady) || desc.None? ==>
        skeletonBones == old(skeletonBones) && rbOffsets == old(rbOffsets)
    {
      if !skeletonReady {
        if desc.Some? {
          InitSceneDescriptions(desc);
          skeletonReady := true;
        } else {
          return false;
        }
      }
      return true;
    }

    /** prepareSkeletonData: for every frame skeleton s and every pair of
      * m_skeletonBones[s], the parent and child positions go to the bone
      * data, and each bone index not seen before (in any skeleton) to the
      * joint data. Both vectors are appended to. */
    method PrepareSkeletonData(boneData: seq<Vec3>, jointData: seq<Vec3>) returns (bones: seq<Vec3>, joints: seq<Vec3>)
      requires PairsInFrame(latestFrame, skeletonBones)
      ensures bones == boneData + Positions(latestFrame, SkeletonRefs(skeletonBones[..|latestFrame.skeletons|]))
      ensures joints == jointData + Positions(latestFrame, FirstSeen(SkeletonRefs(skeletonBones[..|latestFrame.skeletons|])))
    {
      bones, joints := SkeletonLines(latestFrame, skeletonBones, boneData, jointData);
    }

    /** prepareRigidBodies: the mesh list is rebuilt from the offsets and
      * the latest frame. */
    method PrepareRigidBodies() returns (meshes: seq<BodyMesh>)
      ensures meshes == RigidBodyMeshes(rbOffsets, latestFrame.rigidBodies)
    {
      meshes := RigidBodyMeshList(rbOffsets, latestFrame.rigidBodies);
    }

    /** mousePressEvent: the right button starts rotating, the middle
      * button panning; the left button does nothing. */
    method MousePress(button: MouseButton)
      modifies this`rotating, this`panning
      ensures rotating == (old(rotating) || button == RightButton)
      ensures panning == (old(panning) || button == MiddleButton)
    {
      if button == RightButton {
        rotating := true;
      } else if button == MiddleButton {
        panning := true;
      }
    }

    /** mouseReleaseEvent */
    method MouseRelease(button: MouseButton)
      modifies this`rotating, this`panning
      ensures rotating == (old(rotating) && button != RightButton)
      ensures panning == (old(panning) && button != MiddleButton)
    {
      if button == RightButton {
        rotating := false;
      } else if button == MiddleButton {
        panning := false;
      }
    }

    /** mouseMoveEvent by (dx, dy) pixels from the last position: panning
      * takes precedence (and moves only the pan, which is not modelled);
      * rotating turns the yaw and the pitch, the pitch held to [-89, 89]. */
    method MouseMove(dx: int, dy: int)
      modifies this`yaw, this`pitch
      ensures panning || !rotating ==> yaw == old(yaw) && pitch == old(pitch)
      ensures !panning && rotating ==> yaw == old(yaw) - dx as real * RotationSpeed
      ensures !panning && rotating ==> pitch == Bound(-MaxPitch, old(pitch) + dy as real * RotationSpeed, MaxPitch)
      ensures old(CameraBounded()) ==> CameraBounded()
    {
      if panning {
      } else if rotating {
        yaw := yaw - dx as real * RotationSpeed;
        pitch := Bound(-MaxPitch, pitch + dy as real * RotationSpeed, MaxPitch);
      }
    }

    /** wheelEvent, with step = pow(1.1, angleDelta / 120) (always
      * positive): the zoom is divided by the step and held to [0.1, 10]. */
    method Wheel(step: real)
      requires step > 0.0
      modifies this`zoom
      ensures zoom == Bound(MinZoom, old(zoom) / step, MaxZoom)
      ensures old(CameraBounded()) ==> CameraBounded()
      ensures MinZoom <= zoom <= MaxZoom
      ensures MinZoom <= old(zoom) && step >= 1.0 ==> zoom <= old(zoom)
    {
      zoom := Bound(MinZoom, zoom / step, MaxZoom);
      if MinZoom <= old(zoom) && step >= 1.0 {
        assert old(zoom) / step <= old(zoom);
      }
    }
  }

  /** Bookkeeping for PrepareSkeletonData: appending a ref extends the
    * positions by its position, adds its index to the seen set, and adds
    * it to the first-seen refs exactly when its index was not seen. */
  lemma AppendRef(refs: seq<BoneRef>, r: BoneRef, seen: set<int>)
    requires seen == RefIndices(refs)
    ensures RefIndices(refs + [r]) == seen + {r.index}
    ensures (refs + [r])[..|refs|] == refs
    ensures r.index in seen ==> FirstSeen(refs + [r]) == FirstSeen(refs)
    ensures r.index !in seen ==> FirstSeen(refs + [r]) == FirstSeen(refs) + [r]
  {
    assert (refs + [r])[..|refs|] == refs;
  }

  lemma PositionsSnoc(frame: FrameData, refs: seq<BoneRef>, r: BoneRef)
    ensures Positions(frame, refs + [r]) == Positions(frame, refs) + [BonePosition(frame, r)]
  {
    assert (refs + [r])[..|refs|] == refs;
  }

  lemma PairRefsStep(s: int, pairs: seq<BonePair>, k: int, refs0: seq<BoneRef>, refs: seq<BoneRef>)
    requires 0 <= k < |pairs|
    requires refs == refs0 + PairRefs(s, pairs[..k])
    ensures refs + [BoneRef(s, pairs[k].0)] + [BoneRef(s, pairs[k].1)] == refs0 + PairRefs(s, pairs[..k + 1])
  {
    assert pairs[..k + 1][..k] == pairs[..k];
    assert PairRefs(s, pairs[..k + 1]) == PairRefs(s, pairs[..k]) + [BoneRef(s, pairs[k].0), BoneRef(s, pairs[k].1)];
  }

  lemma JointStep(frame: FrameData, refs: seq<BoneRef>, r: BoneRef, jointData: seq<Vec3>, joints: seq<Vec3>)
    requires joints == jointData + Positions(frame, FirstSeen(refs))
    ensures r.index in RefIndices(refs) ==> jointData + Positions(frame, FirstSeen(refs + [r])) == joints
    ensures r.index !in RefIndices(refs) ==>
      jointData + Positions(frame, FirstSeen(refs + [r])) == joints + [BonePosition(frame, r)]
  {
    assert (refs + [r])[..|refs|] == refs;
    if r.index !in RefIndices(refs) {
      PositionsSnoc(frame, FirstSeen(refs), r);
    }
  }

  /** One `if (!addedJoints.contains(i))` step of prepareSkeletonData for
    * the bone r at position pos. */
  method AddJoint(frame: FrameData, r: BoneRef, pos: Vec3, joints: seq<Vec3>, added: set<int>,
                  ghost refs: seq<BoneRef>, ghost jointData: seq<Vec3>)
    returns (joints': seq<Vec3>, added': set<int>)
    requires pos == BonePosition(frame, r)
    requires added == RefIndices(refs)
    requires joints == jointData + Positions(frame, FirstSeen(refs))
    ensures added' == RefIndices(refs + [r])
    ensures joints' == jointData + Positions(frame, FirstSeen(refs + [r]))
  {
    AppendRef(refs, r, added);
    JointStep(frame, refs, r, jointData, joints);
    if r.index !in added {
      joints' := joints + [pos];
      added' := added + {r.index};
    } else {
      joints' := joints;
      added' := added;
    }
  }

  /** One pair of prepareSkeletonData: both positions to the bone data,
    * then the parent and the child joint when not seen yet. */
  method AddPairLines(frame: FrameData, s: int, pair: BonePair,
                      bones0: seq<Vec3>, joints0: seq<Vec3>, added0: set<int>, ghost refs0: seq<BoneRef>,
                      ghost boneData: seq<Vec3>, ghost jointData: seq<Vec3>)
    returns (bones: seq<Vec3>, joints: seq<Vec3>, added: set<int>, ghost refs: seq<BoneRef>)
    requires 0 <= s < |frame.skeletons|
    requires 0 <= pair.0 < |frame.skeletons[s].bones| && 0 <= pair.1 < |frame.skeletons[s].bones|
    requires added0 == RefIndices(refs0)
    requires bones0 == boneData + Positions(frame, refs0)
    requires joints0 == jointData + Positions(frame, FirstSeen(refs0))
    ensures refs == refs0 + [BoneRef(s, pair.0)] + [BoneRef(s, pair.1)]
    ensures added == RefIndices(refs)
    ensures bones == boneData + Positions(frame, refs)
    ensures joints == jointData + Positions(frame, FirstSeen(refs))
  {
    var skel := frame.skeletons[s];
    var parentPos := skel.bones[pair.0].position;
    var childPos := skel.bones[pair.1].position;
    var parent := BoneRef(s, pair.0);
    var child := BoneRef(s, pair.1);
    assert BonePosition(frame, parent) == parentPos;
    assert BonePosition(frame, child) == childPos;
    PositionsSnoc(frame, refs0, parent);
    PositionsSnoc(frame, refs0 + [parent], child);
    ghost var withParent := Positions(frame, refs0 + [parent]);
    assert withParent == Positions(frame, refs0) + [parentPos];
    assert Positions(frame, refs0 + [parent] + [child]) == withParent + [childPos];
    bones := bones0 + [parentPos, childPos];
    assert bones == boneData + (withParent + [childPos]);
    joints, added := AddJoint(frame, parent, parentPos, joints0, added0, refs0, jointData);
    refs := refs0 + [parent];
    joints, added := AddJoint(frame, child, childPos, joints, added, refs, jointData);
    refs := refs + [child];
  }

  /** The inner loop of prepareSkeletonData over skeleton s's pairs. */
  method AppendSkeletonLines(frame: FrameData, s: int, pairs: seq<BonePair>,
                             bones0: seq<Vec3>, joints0: seq<Vec3>, added0: set<int>, ghost refs0: seq<BoneRef>,
                             ghost boneData: seq<Vec3>, ghost jointData: seq<Vec3>)
    returns (bones: seq<Vec3>, joints: seq<Vec3>, added: set<int>, ghost refs: seq<BoneRef>)
    requires 0 <= s < |frame.skeletons|
    requires forall k :: 0 <= k < |pairs| ==>
      0 <= pairs[k].0 < |frame.skeletons[s].bones| && 0 <= pairs[k].1 < |frame.skeletons[s].bones|
    requires added0 == RefIndices(refs0)
    requires bones0 == boneData + Positions(frame, refs0)
    requires joints0 == jointData + Positions(frame, FirstSeen(refs0))
    ensures refs == refs0 + PairRefs(s, pairs)
    ensures added == RefIndices(refs)
    ensures bones == boneData + Positions(frame, refs)
    ensures joints == jointData + Positions(frame, FirstSeen(refs))
  {
    var skel := frame.skeletons[s];
    bones, joints, added, refs := bones0, joints0, added0, refs0;
    var k := 0;
    while k < |pairs|
      invariant 0 <= k <= |pairs|
      invariant refs == refs0 + PairRefs(s, pairs[..k])
      invariant added == RefIndices(refs)
      invariant bones == boneData + Positions(frame, refs)
      invariant joints == jointData + Positions(frame, FirstSeen(refs))
    {
      var pair := pairs[k];
      PairRefsStep(s, pairs, k, refs0, refs);
      bones, joints, added, refs := AddPairLines(frame, s, pair, bones, joints, added, refs, boneData, jointData);
      k := k + 1;
    }
    assert pairs[..k] == pairs;
  }

  lemma SkeletonRefsSnoc(lists: seq<seq<BonePair>>, s: int)
    requires 0 <= s < |lists|
    ensures SkeletonRefs(lists[..s + 1]) == SkeletonRefs(lists[..s]) + PairRefs(s, lists[s])
  {
    assert lists[..s + 1][..s] == lists[..s];
  }

  /** The outer loop of prepareSkeletonData, over the frame's skeletons. */
  method SkeletonLines(frame: FrameData, lists: seq<seq<BonePair>>, boneData: seq<Vec3>, jointData: seq<Vec3>)
    returns (bones: seq<Vec3>, joints: seq<Vec3>)
    requires PairsInFrame(frame, lists)
    ensures bones == boneData + Positions(frame, SkeletonRefs(lists[..|frame.skeletons|]))
    ensures joints == jointData + Positions(frame, FirstSeen(SkeletonRefs(lists[..|frame.skeletons|])))
  {
    var added: set<int> := {};
    bones := boneData;
    joints := jointData;
    ghost var refs: seq<BoneRef> := [];
    var s := 0;
    while s < |frame.skeletons|
      invariant 0 <= s <= |frame.skeletons|
      invariant refs == SkeletonRefs(lists[..s])
      invariant added == RefIndices(refs)
      invariant bones == boneData + Positions(frame, refs)
      invariant joints == jointData + Positions(frame, FirstSeen(refs))
    {
      var pairs := lists[s];
      assert forall k :: 0 <= k < |pairs| ==>
        0 <= pairs[k].0 < |frame.skeletons[s].bones| && 0 <= pairs[k].1 < |frame.skeletons[s].bones|;
      bones, joints, added, refs := AppendSkeletonLines(frame, s, pairs, bones, joints, added, refs, boneData, jointData);
      SkeletonRefsSnoc(lists, s);
      s := s + 1;
    }
  }

  /** The loop of prepareRigidBodies over the offsets records. */
  method RigidBodyMeshList(offsets: seq<RigidBodyOffsets>, bodies: seq<RigidBodyData>) returns (meshes: seq<BodyMesh>)
    ensures meshes == RigidBodyMeshes(offsets, bodies)
  {
    meshes := [];
    var r := 0;
    while r < |offsets|
      invariant 0 <= r <= |offsets|
      invariant meshes == RigidBodyMeshes(offsets[..r], bodies)
    {
      var ro := offsets[r];
      RigidBodyMeshesSnoc(offsets, bodies, r);
      var found := FindBody(bodies, ro.bodyId);
      if found != -1 {
        var mesh := MeshFor(ro, bodies[found]);
        meshes := meshes + [mesh];
      }
      r := r + 1;
    }
    assert offsets[..r] == offsets;
  }

  lemma RigidBodyMeshesSnoc(offsets: seq<RigidBodyOffsets>, bodies: seq<RigidBodyData>, r: nat)
    requires r < |offsets|
    ensures FirstWithId(bodies, offsets[r].bodyId) == -1 ==>
      RigidBodyMeshes(offsets[..r + 1], bodies) == RigidBodyMeshes(offsets[..r], bodies)
    ensures FirstWithId(bodies, offsets[r].bodyId) != -1 ==>
      RigidBodyMeshes(offsets[..r + 1], bodies) ==
        RigidBodyMeshes(offsets[..r], bodies) + [BodyMeshFor(offsets[r], bodies[FirstWithId(bodies, offsets[r].bodyId)])]
  {
    assert offsets[..r + 1][..r] == offsets[..r];
  }

  /** One body's wireframe: its marker positions in the world joined
    * pairwise. */
  method MeshFor(ro: RigidBodyOffsets, body: RigidBodyData) returns (mesh: BodyMesh)
    ensures mesh == BodyMeshFor(ro, body)
  {
    var points := BodyWorldPoints(body, ro.markerOffsets);
    var idx := PairIndexList(|ro.markerOffsets|);
    mesh := BodyMesh(body.id, MeshGenerator.Wireframe(points, idx));
  }

  method FindBody(bodies: seq<RigidBodyData>, id: int) returns (k: int)
    ensures k == FirstWithId(bodies, id)
  {
    k := 0;
    while k < |bodies|
      invariant 0 <= k <= |bodies|
      invariant forall j :: 0 <= j < k ==> bodies[j].id != id
    {
      if bodies[k].id == id {
        FirstWithIdIsFirst(bodies, id, k);
        return;
      }
      k := k + 1;
    }
    FirstWithIdIsFirst(bodies, id, -1);
    k := -1;
  }

  /** FirstWithId is the only index with its two properties. */
  lemma FirstWithIdIsFirst(bodies: seq<RigidBodyData>, id: int, k: int)
    requires -1 <= k < |bodies|
    requires k >= 0 ==> bodies[k].id == id && forall j :: 0 <= j < k ==> bodies[j].id != id
    requires k == -1 ==> forall j :: 0 <= j < |bodies| ==> bodies[j].id != id
    ensures k == FirstWithId(bodies, id)
  {
    var f := FirstWithId(bodies, id);
    if k >= 0 && f >= 0 {
      assert !(f < k) && !(k < f);
    }
  }

  /** The marker loop of prepareRigidBodies. */
  method BodyWorldPoints(body: RigidBodyData, offsets: seq<Vec3>) returns (points: seq<Vec3>)
    ensures points == WorldPoints(body, offsets)
  {
    points := [];
    var m := 0;
    while m < |offsets|
      invariant 0 <= m <= |offsets|
      invariant points == WorldPoints(body, offsets[..m])
    {
      assert offsets[..m + 1][..m] == offsets[..m];
      points := points + [Add(body.position, Rotated(body.orientation, offsets[m]))];
      m := m + 1;
    }
    assert offsets[..m] == offsets;
  }
}
