/**
 * The NatNet client's frame buffer and asset-name maps
 * (natnet_connection.cpp). The NatNet SDK's structs are plain records; the
 * SDK's connect/disconnect calls and its receive thread are outside the
 * model, and a callback registered with the connection is represented by a
 * flag and a count of its invocations.
 */
module NatNetConnection {
  import opened Geometry
  import opened Frames

  /** sRigidBodyData: position and quaternion as the SDK sends them. */
  datatype SdkRigidBody = SdkRigidBody(
    id: int, x: real, y: real, z: real,
    qx: real, qy: real, qz: real, qw: real)

  /** sSkeletonData */
  datatype SdkSkeleton = SdkSkeleton(skeletonId: int, bones: seq<SdkRigidBody>)

  /** sFrameOfMocapData */
  datatype SdkFrame = SdkFrame(
    frameNumber: int, timestamp: real,
    rigidBodies: seq<SdkRigidBody>, skeletons: seq<SdkSkeleton>)

  /** sRigidBodyDescription: also the description of a skeleton bone. */
  datatype SdkRigidBodyDescription = SdkRigidBodyDescription(
    id: int, name: string, parentId: int, markers: seq<Vec3>)

  /** sSkeletonDescription */
  datatype SdkSkeletonDescription = SdkSkeletonDescription(
    skeletonId: int, name: string, bones: seq<SdkRigidBodyDescription>)

  /** One entry of sDataDescriptions; the descriptor types the client does
    * not use (markersets, force plates, cameras, ...) are `Other`. */
  datatype DataDescription =
    | RigidBodyDescriptor(rigidBody: SdkRigidBodyDescription)
    | SkeletonDescriptor(skeleton: SdkSkeletonDescription)
    | OtherDescriptor

  datatype ConnectionType = Multicast | Unicast

  // ---------------------------------------------------------------------
  // Conversion of an SDK frame

  /** A streamed rigid body or bone: the quaternion is built scalar first
    * and the parent id keeps its default. */
  function BodyOf(rb: SdkRigidBody): RigidBodyData {
    RigidBodyData(rb.id, -1, Vec3(rb.x, rb.y, rb.z), Quat(rb.qw, rb.qx, rb.qy, rb.qz))
  }

  predicate BodiesOf(sdk: seq<SdkRigidBody>, bodies: seq<RigidBodyData>) {
    |bodies| == |sdk| && forall i :: 0 <= i < |sdk| ==> bodies[i] == BodyOf(sdk[i])
  }

  predicate SkeletonOf(sdk: SdkSkeleton, skeleton: SkeletonData) {
    skeleton.id == sdk.skeletonId && BodiesOf(sdk.bones, skeleton.bones)
  }

  /** `frame` is the conversion of `data`: same number and timestamp, and
    * the rigid bodies and skeletons converted one by one, in SDK order. */
  predicate FrameOf(data: SdkFrame, frame: FrameData) {
    && frame.frameNumber == data.frameNumber
    && frame.timestamp == data.timestamp
    && BodiesOf(data.rigidBodies, frame.rigidBodies)
    && |frame.skeletons| == |data.skeletons|
    && (forall i :: 0 <= i < |data.skeletons| ==> SkeletonOf(data.skeletons[i], frame.skeletons[i]))
  }

  /** At most one frame satisfies FrameOf for given SDK data. */
  lemma {:induction false} FrameOfUnique(data: SdkFrame, f: FrameData, g: FrameData)
    requires FrameOf(data, f) && FrameOf(data, g)
    ensures f == g
  {
    assert f.rigidBodies == g.rigidBodies;
    forall i | 0 <= i < |f.skeletons|
      ensures f.skeletons[i] == g.skeletons[i]
    {
      assert f.skeletons[i].bones == g.skeletons[i].bones;
    }
    assert f.skeletons == g.skeletons;
  }

  method ConvertBodies(sdk: seq<SdkRigidBody>) returns (bodies: seq<RigidBodyData>)
    ensures BodiesOf(sdk, bodies)
  {
    bodies := [];
    var i := 0;
    while i < |sdk|
      invariant 0 <= i <= |sdk|
      invariant BodiesOf(sdk[..i], bodies)
    {
      bodies := bodies + [BodyOf(sdk[i])];
      i := i + 1;
    }
    assert sdk[..i] == sdk;
  }

  /** The loops of processFrameData that build a FrameData. */
  method ConvertFrame(data: SdkFrame) returns (frame: FrameData)
    ensures FrameOf(data, frame)
  {
    var rigidBodies := ConvertBodies(data.rigidBodies);
    var skeletons: seq<SkeletonData> := [];
    var i := 0;
    while i < |data.skeletons|
      invariant 0 <= i <= |data.skeletons|
      invariant |skeletons| == i
      invariant forall k :: 0 <= k < i ==> SkeletonOf(data.skeletons[k], skeletons[k])
    {
      var bones := ConvertBodies(data.skeletons[i].bones);
      skeletons := skeletons + [SkeletonData(data.skeletons[i].skeletonId, bones)];
      i := i + 1;
    }
    frame := FrameData(data.frameNumber, data.timestamp, rigidBodies, skeletons);
  }

  // ---------------------------------------------------------------------
  // The frame buffer

  /** No two neighbouring buffered frames carry the same frame number. */
  ghost predicate NoRepeats(frames: seq<FrameData>) {
    forall i :: 0 < i < |frames| ==> frames[i].frameNumber != frames[i - 1].frameNumber
  }

  /** The buffer after processFrameData: a frame whose number equals the
    * last buffered frame's number is dropped, any other is appended. */
  ghost predicate Buffered(before: seq<FrameData>, data: SdkFrame, after: seq<FrameData>) {
    if |before| > 0 && data.frameNumber == before[|before| - 1].frameNumber then after == before
    else |after| == |before| + 1 && after[..|before|] == before && FrameOf(data, after[|before|])
  }

  /** Buffering keeps neighbouring frame numbers distinct. */
  lemma {:induction false} BufferedKeepsNoRepeats(before: seq<FrameData>, data: SdkFrame, after: seq<FrameData>)
    requires NoRepeats(before) && Buffered(before, data, after)
    ensures NoRepeats(after)
  {
    if !(|before| > 0 && data.frameNumber == before[|before| - 1].frameNumber) {
      forall i | 0 < i < |after|
        ensures after[i].frameNumber != after[i - 1].frameNumber
      {
        if i < |before| {
          assert after[i] == before[i] && after[i - 1] == before[i - 1];
        } else {
          assert after[i - 1] == before[i - 1];
        }
      }
    }
  }

  /** The same SDK frame delivered twice in a row is buffered once. */
  lemma {:induction false} RepeatedFrameBufferedOnce(s0: seq<FrameData>, data: SdkFrame, s1: seq<FrameData>, s2: seq<FrameData>)
    requires Buffered(s0, data, s1) && Buffered(s1, data, s2)
    ensures s2 == s1
    ensures |s1| <= |s0| + 1
  {
    if !(|s0| > 0 && data.frameNumber == s0[|s0| - 1].frameNumber) {
      assert s1[|s1| - 1].frameNumber == data.frameNumber;
    }
  }

  // ---------------------------------------------------------------------
  // Descriptor processing

  /** The bones of one skeleton description written into that skeleton's
    * bone-name map, one after the other. */
  function NameBones(names: map<int, string>, bones: seq<SdkRigidBodyDescription>): map<int, string>
    decreases |bones|
  {
    if bones == [] then names
    else NameBones(names, bones[..|bones| - 1])[bones[|bones| - 1].id := bones[|bones| - 1].name]
  }

  /** One descriptor applied to the maps. */
  function DescribeOne(m: NameMaps, d: DataDescription): NameMaps {
    match d
    case RigidBodyDescriptor(rb) => m.(rigidBodies := m.rigidBodies[rb.id := rb.name])
    case SkeletonDescriptor(sk) =>
      if sk.bones == [] then m.(skeletons := m.skeletons[sk.skeletonId := sk.name])
      else
        var inner := if sk.skeletonId in m.bones then m.bones[sk.skeletonId] else map[];
        m.(skeletons := m.skeletons[sk.skeletonId := sk.name],
           bones := m.bones[sk.skeletonId := NameBones(inner, sk.bones)])
    case OtherDescriptor => m
  }

  /** The descriptors applied in order. */
  function Describe(m: NameMaps, descriptions: seq<DataDescription>): NameMaps
    decreases |descriptions|
  {
    if descriptions == [] then m
    else DescribeOne(Describe(m, descriptions[..|descriptions| - 1]), descriptions[|descriptions| - 1])
  }

  lemma {:induction false} NameBonesKeeps(names: map<int, string>, bones: seq<SdkRigidBodyDescription>)
    ensures names.Keys <= NameBones(names, bones).Keys
    ensures forall k :: 0 <= k < |bones| ==> bones[k].id in NameBones(names, bones)
    decreases |bones|
  {
    if bones != [] {
      NameBonesKeeps(names, bones[..|bones| - 1]);
      var prefix := bones[..|bones| - 1];
      assert forall k :: 0 <= k < |bones| - 1 ==> bones[k] == prefix[k];
    }
  }

  /** Descriptor processing never removes an entry. */
  lemma {:induction false} DescribeKeepsEntries(m: NameMaps, descriptions: seq<DataDescription>)
    ensures m.rigidBodies.Keys <= Describe(m, descriptions).rigidBodies.Keys
    ensures m.skeletons.Keys <= Describe(m, descriptions).skeletons.Keys
    ensures m.bones.Keys <= Describe(m, descriptions).bones.Keys
    ensures forall s :: s in m.bones ==> m.bones[s].Keys <= Describe(m, descriptions).bones[s].Keys
    decreases |descriptions|
  {
    if descriptions != [] {
      var before := Describe(m, descriptions[..|descriptions| - 1]);
      DescribeKeepsEntries(m, descriptions[..|descriptions| - 1]);
      match descriptions[|descriptions| - 1]
      case RigidBodyDescriptor(rb) =>
      case SkeletonDescriptor(sk) =>
        if sk.bones != [] && sk.skeletonId in before.bones {
          NameBonesKeeps(before.bones[sk.skeletonId], sk.bones);
        }
      case OtherDescriptor =>
    }
  }

  /** Bone j of skeleton description `sk` has an entry in the maps. */
  ghost predicate NamesBone(m: NameMaps, sk: SdkSkeletonDescription, j: int)
    requires 0 <= j < |sk.bones|
  {
    sk.skeletonId in m.bones && sk.bones[j].id in m.bones[sk.skeletonId]
  }

  /** Every rigid body, skeleton and skeleton bone that is described ends
    * up in its map. */
  lemma {:induction false} DescribeNamesEvery(m: NameMaps, descriptions: seq<DataDescription>)
    ensures forall i :: 0 <= i < |descriptions| && descriptions[i].RigidBodyDescriptor? ==>
              descriptions[i].rigidBody.id in Describe(m, descriptions).rigidBodies
    ensures forall i :: 0 <= i < |descriptions| && descriptions[i].SkeletonDescriptor? ==>
              descriptions[i].skeleton.skeletonId in Describe(m, descriptions).skeletons
    ensures forall i, j :: 0 <= i < |descriptions| && descriptions[i].SkeletonDescriptor? && 0 <= j < |descriptions[i].skeleton.bones| ==>
              NamesBone(Describe(m, descriptions), descriptions[i].skeleton, j)
    decreases |descriptions|
  {
    if descriptions != [] {
      var n := |descriptions| - 1;
      var prefix := descriptions[..n];
      var before := Describe(m, prefix);
      var after := Describe(m, descriptions);
      DescribeNamesEvery(m, prefix);
      DescribeKeepsEntries(before, [descriptions[n]]);
      assert Describe(before, [descriptions[n]]) == after by {
        assert [descriptions[n]][..0] == [];
      }
      forall i, j | 0 <= i < |descriptions| && descriptions[i].SkeletonDescriptor? && 0 <= j < |descriptions[i].skeleton.bones|
        ensures NamesBone(after, descriptions[i].skeleton, j)
      {
        var sk := descriptions[i].skeleton;
        if i < n {
          assert descriptions[i] == prefix[i];
          assert NamesBone(before, prefix[i].skeleton, j);
        } else {
          var inner := if sk.skeletonId in before.bones then before.bones[sk.skeletonId] else map[];
          NameBonesKeeps(inner, sk.bones);
        }
      }
      forall i | 0 <= i < n
        ensures descriptions[i] == prefix[i]
      {
      }
    }
  }

  /** Descriptors of unused types change nothing: the maps are those of
    * the rigid-body and skeleton descriptors alone. */
  lemma {:induction false} DescribeIgnoresOthers(m: NameMaps, descriptions: seq<DataDescription>)
    ensures Describe(m, descriptions) == Describe(m, UsedDescriptions(descriptions))
    decreases |descriptions|
  {
    if descriptions != [] {
      var n := |descriptions| - 1;
      DescribeIgnoresOthers(m, descriptions[..n]);
      if !descriptions[n].OtherDescriptor? {
        var used := UsedDescriptions(descriptions);
        assert used[..|used| - 1] == UsedDescriptions(descriptions[..n]);
      }
    }
  }

  function UsedDescriptions(descriptions: seq<DataDescription>): (used: seq<DataDescription>)
    ensures forall i :: 0 <= i < |used| ==> !used[i].OtherDescriptor?
    ensures |used| <= |descriptions|
    decreases |descriptions|
  {
    if descriptions == [] then []
    else
      var n := |descriptions| - 1;
      if descriptions[n].OtherDescriptor? then UsedDescriptions(descriptions[..n])
      else UsedDescriptions(descriptions[..n]) + [descriptions[n]]
  }

  // ---------------------------------------------------------------------

  class NatNetConnection {
    var frames: seq<FrameData>
    var rigidBodyIdToName: map<int, string>
    var skeletonIdToName: map<int, string>
    var boneIdToName: map<int, map<int, string>>
    var connectionType: ConnectionType
    var connected: bool
    var hasFrameCallback: bool
    var hasAssetCallback: bool
    var frameCallbacks: nat
    var assetCallbacks: nat

    ghost predicate Valid()
      reads this
    {
      NoRepeats(frames)
    }

    function Names(): NameMaps
      reads this
    {
      NameMaps(rigidBodyIdToName, skeletonIdToName, boneIdToName)
    }

    constructor ()
      ensures Valid()
      ensures frames == [] && Names() == NoNames
      ensures connectionType == Multicast && !connected
      ensures !hasFrameCallback && !hasAssetCallback
      ensures frameCallbacks == 0 && assetCallbacks == 0
    {
      frames := [];
      rigidBodyIdToName, skeletonIdToName, boneIdToName := map[], map[], map[];
      connectionType := Multicast;
      connected := false;
      hasFrameCallback, hasAssetCallback := false, false;
      frameCallbacks, assetCallbacks := 0, 0;
    }

    method SetFrameUpdateCallback()
      modifies this`hasFrameCallback
      ensures hasFrameCallback
    {
      hasFrameCallback := true;
    }

    method SetAssetUpdateCallback()
      modifies this`hasAssetCallback
      ensures hasAssetCallback
    {
      hasAssetCallback := true;
    }

    /** processFrameData */
    method ProcessFrameData(data: SdkFrame)
      requires Valid()
      modifies this`frames, this`frameCallbacks
      ensures Valid()
      ensures Buffered(old(frames), data, frames)
      ensures frameCallbacks == old(frameCallbacks) + (if |frames| > |old(frames)| && hasFrameCallback then 1 else 0)
    {
      if |frames| > 0 && data.frameNumber == frames[|frames| - 1].frameNumber {
        return;
      }
      var frame := ConvertFrame(data);
      frames := frames + [frame];
      BufferedKeepsNoRepeats(old(frames), data, frames);
      if hasFrameCallback {
        frameCallbacks := frameCallbacks + 1;
      }
    }

    /** getLatestFrame */
    function LatestFrame(): (f: FrameData)
      reads this
      ensures frames == [] ==> f == DefaultFrame
      ensures frames != [] ==> f == frames[|frames| - 1] && f in frames
    {
      if frames == [] then DefaultFrame else frames[|frames| - 1]
    }

    /** processDataDescriptions */
    method ProcessDataDescriptions(descriptions: seq<DataDescription>)
      modifies this`rigidBodyIdToName, this`skeletonIdToName, this`boneIdToName, this`assetCallbacks
      ensures Names() == Describe(old(Names()), descriptions)
      ensures assetCallbacks == old(assetCallbacks) + (if hasAssetCallback then 1 else 0)
    {
      var i := 0;
      while i < |descriptions|
        invariant 0 <= i <= |descriptions|
        invariant Names() == Describe(old(Names()), descriptions[..i])
        invariant assetCallbacks == old(assetCallbacks)
      {
        assert descriptions[..i + 1][..i] == descriptions[..i];
        ghost var before := Names();
        match descriptions[i] {
        case RigidBodyDescriptor(rb) =>
          rigidBodyIdToName := rigidBodyIdToName[rb.id := rb.name];
        case SkeletonDescriptor(sk) =>
          skeletonIdToName := skeletonIdToName[sk.skeletonId := sk.name];
          ghost var inner := if sk.skeletonId in before.bones then before.bones[sk.skeletonId] else map[];
          var j := 0;
          while j < |sk.bones|
            invariant 0 <= j <= |sk.bones|
            invariant rigidBodyIdToName == before.rigidBodies && assetCallbacks == old(assetCallbacks)
            invariant skeletonIdToName == before.skeletons[sk.skeletonId := sk.name]
            invariant j == 0 ==> boneIdToName == before.bones
            invariant j > 0 ==> boneIdToName == before.bones[sk.skeletonId := NameBones(inner, sk.bones[..j])]
          {
            assert sk.bones[..j + 1][..j] == sk.bones[..j];
            var names := if sk.skeletonId in boneIdToName then boneIdToName[sk.skeletonId] else map[];
            boneIdToName := boneIdToName[sk.skeletonId := names[sk.bones[j].id := sk.bones[j].name]];
            j := j + 1;
          }
          assert sk.bones[..j] == sk.bones;
        case OtherDescriptor =>
        }
        i := i + 1;
      }
      assert descriptions[..i] == descriptions;
      if hasAssetCallback {
        assetCallbacks := assetCallbacks + 1;
      }
    }

    /** setConnectionType */
    method SetConnectionType(name: string)
      modifies this`connectionType
      ensures name == "Multicast" ==> connectionType == Multicast
      ensures name == "Unicast" ==> connectionType == Unicast
      ensures name != "Multicast" && name != "Unicast" ==> connectionType == old(connectionType)
    {
      if name == "Multicast" {
        connectionType := Multicast;
      } else if name == "Unicast" {
        connectionType := Unicast;
      }
    }
  }
}
