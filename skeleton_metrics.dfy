/**
 * The skeleton metric calculator (skeleton_metrics.cpp): joint angles and
 * horizontal bone distances of the first skeleton in a frame, driven by the
 * sport's metric definitions ("class", "ids", "labels"), together with the
 * asset name maps and the joint configuration read from a JSON file.
 */
module SkeletonMetrics {
  import opened Json
  import opened Geometry
  import opened Frames
  import Collections

  // ---------------------------------------------------------------------
  // The formulas

  /** computeJointAngle: the rotation angle, in degrees, of the relative
    * rotation conj(q1) * q2 after normalisation. */
  function JointAngle(m: Math, q1: Quat, q2: Quat): real {
    Degrees(2.0 * m.acos(Normalized(m, Mul(Conjugated(q1), q2)).w))
  }

  /** conj(q) * q is the real quaternion |q|^2. */
  lemma ConjugateProduct(q: Quat)
    ensures Mul(Conjugated(q), q) == Quat(NormSquared(q), 0.0, 0.0, 0.0)
  {
    var p := Mul(Conjugated(q), q);
    assert p.x == q.w * q.x - q.x * q.w - q.y * q.z + q.z * q.y;
    assert p.y == q.w * q.y + q.x * q.z - q.y * q.w - q.z * q.x;
    assert p.z == q.w * q.z - q.x * q.y + q.y * q.x - q.z * q.w;
  }

  /** A positive real quaternion normalises to the identity. */
  lemma NormalizeReal(m: Math, n: real)
    requires Sound(m) && 0.0 < n
    ensures Normalized(m, Quat(n, 0.0, 0.0, 0.0)) == Identity
  {
    var relative := Quat(n, 0.0, 0.0, 0.0);
    assert NormSquared(relative) == n * n;
    SqrtOfSquare(m, n);
    assert n / n == 1.0;
  }

  /** A bone has no angle to itself: two identical non-zero orientations
    * give a joint angle of 0 degrees. */
  lemma SameOrientationNoAngle(m: Math, q: Quat)
    requires Sound(m) && NormSquared(q) != 0.0
    ensures JointAngle(m, q, q) == 0.0
  {
    ConjugateProduct(q);
    SquareNonNegative(q.w);
    SquareNonNegative(q.x);
    SquareNonNegative(q.y);
    SquareNonNegative(q.z);
    NormalizeReal(m, NormSquared(q));
  }

  /** computeForwardTilt: the horizontal (x, z) distance between two
    * positions, in centimetres. */
  function ForwardTilt(m: Math, p1: Vec3, p2: Vec3): (t: real)
    ensures Sound(m) ==> 0.0 <= t
  {
    SquareNonNegative(p2.x - p1.x);
    SquareNonNegative(p2.z - p1.z);
    m.sqrt(SumOfSquares(p2.x - p1.x, p2.z - p1.z)) * 100.0
  }

  /** The height (y) of either position does not matter. */
  lemma ForwardTiltIgnoresHeight(m: Math, p1: Vec3, p2: Vec3, y1: real, y2: real)
    ensures ForwardTilt(m, p1.(y := y1), p2.(y := y2)) == ForwardTilt(m, p1, p2)
  {
  }

  /** The distance is the same whichever bone comes first. */
  lemma ForwardTiltSymmetric(m: Math, p1: Vec3, p2: Vec3)
    ensures ForwardTilt(m, p1, p2) == ForwardTilt(m, p2, p1)
  {
    assert SumOfSquares(p2.x - p1.x, p2.z - p1.z) == SumOfSquares(p1.x - p2.x, p1.z - p2.z);
  }

  // ---------------------------------------------------------------------
  // The metric definitions

  function ClassOf(setting: Json): string {
    ToStr(Get(ToObj(setting), "class"))
  }

  function IdsOf(setting: Json): seq<Json> {
    ToArr(Get(ToObj(setting), "ids"))
  }

  function LabelsOf(setting: Json): seq<Json> {
    ToArr(Get(ToObj(setting), "labels"))
  }

  /** A definition that produces a value: an "angle" or "distance" with at
    * least two bone ids and at least one label. */
  predicate Measures(setting: Json) {
    (ClassOf(setting) == "angle" || ClassOf(setting) == "distance")
    && |IdsOf(setting)| >= 2 && LabelsOf(setting) != []
  }

  /** The bone ids are used as indices into the skeleton's bones, so they
    * must be in range whenever the definition produces a value. */
  predicate BonesInRange(setting: Json, skeleton: SkeletonData) {
    Measures(setting) ==>
      && 0 <= ToInt(IdsOf(setting)[0]) < |skeleton.bones|
      && 0 <= ToInt(IdsOf(setting)[1]) < |skeleton.bones|
  }

  /** getJointAngle */
  function BoneAngle(m: Math, id1: int, id2: int, skeleton: SkeletonData): real
    requires 0 <= id1 < |skeleton.bones| && 0 <= id2 < |skeleton.bones|
  {
    JointAngle(m, skeleton.bones[id1].orientation, skeleton.bones[id2].orientation)
  }

  /** computeForwardTilt on two bones of a skeleton, in either order. */
  function BoneDistance(m: Math, id1: int, id2: int, skeleton: SkeletonData): (d: real)
    requires 0 <= id1 < |skeleton.bones| && 0 <= id2 < |skeleton.bones|
    ensures Sound(m) ==> 0.0 <= d
    ensures d == ForwardTilt(m, skeleton.bones[id2].position, skeleton.bones[id1].position)
  {
    ForwardTiltSymmetric(m, skeleton.bones[id1].position, skeleton.bones[id2].position);
    ForwardTilt(m, skeleton.bones[id1].position, skeleton.bones[id2].position)
  }

  /** The value a producing definition computes. */
  function Measure(m: Math, skeleton: SkeletonData, setting: Json): real
    requires Measures(setting) && BonesInRange(setting, skeleton)
  {
    var id1 := ToInt(IdsOf(setting)[0]);
    var id2 := ToInt(IdsOf(setting)[1]);
    if ClassOf(setting) == "angle" then BoneAngle(m, id1, id2, skeleton)
    else BoneDistance(m, id1, id2, skeleton)
  }

  /** One definition evaluated into the metrics hash. */
  function ApplyDefinition(m: Math, skeleton: SkeletonData, metrics: map<string, real>, setting: Json): (r: map<string, real>)
    requires BonesInRange(setting, skeleton)
    ensures Measures(setting) ==> r == metrics[ToStr(LabelsOf(setting)[0]) := Measure(m, skeleton, setting)]
    ensures !Measures(setting) ==> r == metrics
  {
    var cls := ClassOf(setting);
    var ids := IdsOf(setting);
    var labels := LabelsOf(setting);
    if cls == "angle" && |ids| >= 2 && labels != [] then
      metrics[ToStr(labels[0]) := BoneAngle(m, ToInt(ids[0]), ToInt(ids[1]), skeleton)]
    else if cls == "distance" && |ids| >= 2 && labels != [] then
      metrics[ToStr(labels[0]) := BoneDistance(m, ToInt(ids[0]), ToInt(ids[1]), skeleton)]
    else metrics
  }

  predicate AllInRange(settings: seq<Json>, skeleton: SkeletonData) {
    forall s :: 0 <= s < |settings| ==> BonesInRange(settings[s], skeleton)
  }

  /** The definitions evaluated in order; a later label overwrites an
    * earlier one. */
  function ApplyDefinitions(m: Math, skeleton: SkeletonData, settings: seq<Json>): map<string, real>
    requires AllInRange(settings, skeleton)
    decreases |settings|
  {
    if settings == [] then map[]
    else ApplyDefinition(m, skeleton, ApplyDefinitions(m, skeleton, settings[..|settings| - 1]), settings[|settings| - 1])
  }

  /** What computeMetricsForFrame needs to return a value: with a subject
    * selected, the frame has a skeleton, and every producing definition
    * names bones of the first one. */
  predicate Computable(selected: int, settings: seq<Json>, current: FrameData) {
    selected == -1 || (|current.skeletons| > 0 && AllInRange(settings, current.skeletons[0]))
  }

  /** The result of computeMetricsForFrame: the definitions evaluated on the
    * first skeleton of the frame, whatever its id. */
  function FrameMetrics(m: Math, selected: int, settings: seq<Json>, current: FrameData): MetricsData
    requires Computable(selected, settings, current)
  {
    if selected == -1 then EmptyMetrics
    else MetricsData(current.frameNumber, ApplyDefinitions(m, current.skeletons[0], settings))
  }

  /** The labels a list of definitions writes. */
  function AllWritten(settings: seq<Json>): set<string>
    decreases |settings|
  {
    if settings == [] then {}
    else
      var last := settings[|settings| - 1];
      AllWritten(settings[..|settings| - 1]) + (if Measures(last) then {ToStr(LabelsOf(last)[0])} else {})
  }

  /** The metrics of a frame hold exactly the labels the producing
    * definitions name. */
  lemma {:induction false} ApplyDefinitionsKeys(m: Math, skeleton: SkeletonData, settings: seq<Json>)
    requires AllInRange(settings, skeleton)
    ensures ApplyDefinitions(m, skeleton, settings).Keys == AllWritten(settings)
    decreases |settings|
  {
    if settings != [] {
      ApplyDefinitionsKeys(m, skeleton, settings[..|settings| - 1]);
    }
  }

  /** The last definition naming a label decides its value. */
  lemma {:induction false} LastDefinitionWins(m: Math, skeleton: SkeletonData, settings: seq<Json>, s: nat)
    requires AllInRange(settings, skeleton)
    requires s < |settings| && Measures(settings[s])
    requires forall t :: s < t < |settings| && Measures(settings[t]) ==>
               ToStr(LabelsOf(settings[t])[0]) != ToStr(LabelsOf(settings[s])[0])
    ensures ToStr(LabelsOf(settings[s])[0]) in ApplyDefinitions(m, skeleton, settings)
    ensures ApplyDefinitions(m, skeleton, settings)[ToStr(LabelsOf(settings[s])[0])] == Measure(m, skeleton, settings[s])
    decreases |settings|
  {
    var n := |settings| - 1;
    if s < n {
      assert AllInRange(settings[..n], skeleton);
      LastDefinitionWins(m, skeleton, settings[..n], s);
    }
  }

  /** Only the first skeleton is read: frames that agree on it and on the
    * frame number have the same metrics. */
  lemma OnlyFirstSkeleton(m: Math, selected: int, settings: seq<Json>, current: FrameData, other: FrameData)
    requires Computable(selected, settings, current)
    requires current.frameNumber == other.frameNumber
    requires |current.skeletons| > 0 && |other.skeletons| > 0 && current.skeletons[0] == other.skeletons[0]
    ensures Computable(selected, settings, other)
    ensures FrameMetrics(m, selected, settings, other) == FrameMetrics(m, selected, settings, current)
  {
  }

  // ---------------------------------------------------------------------
  // The joint configuration

  /** The text of each element of a JSON array. */
  function Texts(items: seq<Json>): (r: seq<string>)
    ensures |r| == |items|
    ensures forall k :: 0 <= k < |items| ==> r[k] == ToStr(items[k])
    decreases |items|
  {
    if items == [] then [] else Texts(items[..|items| - 1]) + [ToStr(items[|items| - 1])]
  }

  /** The "joints" object of a naming convention in the configuration
    * document. */
  function JointsOf(doc: Json, convention: string): map<string, Json> {
    ToObj(Get(ToObj(Get(ToObj(doc), convention)), "joints"))
  }

  /** joint name -> names of its bones, from root[convention].joints. */
  function JointMappings(doc: Json, convention: string): (r: map<string, seq<string>>)
    ensures r.Keys == JointsOf(doc, convention).Keys
    ensures forall joint :: joint in r ==> r[joint] == Texts(ToArr(JointsOf(doc, convention)[joint]))
  {
    var joints := JointsOf(doc, convention);
    map joint | joint in joints :: Texts(ToArr(joints[joint]))
  }

  /** A bone-name list as a JSON array of strings. */
  function NamesJson(names: seq<string>): (r: seq<Json>)
    ensures |r| == |names|
    ensures forall k :: 0 <= k < |names| ==> r[k] == JStr(names[k])
  {
    seq(|names|, k requires 0 <= k < |names| => JStr(names[k]))
  }

  /** A configuration document holding one naming convention whose joints
    * are the given joint -> bone names map. */
  function ConventionDocument(convention: string, joints: map<string, seq<string>>): Json {
    JObj(map[convention := JObj(map["joints" := JObj(map joint | joint in joints :: JArr(NamesJson(joints[joint])))])])
  }

  /** The bone names of a joint, written as an array of strings, read back
    * unchanged. */
  lemma NamesRoundTrip(names: seq<string>)
    ensures Texts(NamesJson(names)) == names
  {
    var r := Texts(NamesJson(names));
    forall k | 0 <= k < |names|
      ensures r[k] == names[k]
    {
      assert NamesJson(names)[k] == JStr(names[k]);
    }
  }

  /** Reading the joints of a convention from a document that holds them
    * gives back exactly the joint -> bone names map. */
  lemma JointMappingsRoundTrip(convention: string, joints: map<string, seq<string>>)
    ensures JointMappings(ConventionDocument(convention, joints), convention) == joints
  {
    var doc := ConventionDocument(convention, joints);
    var written := map joint | joint in joints :: JArr(NamesJson(joints[joint]));
    assert JointsOf(doc, convention) == written;
    var r := JointMappings(doc, convention);
    forall joint | joint in r
      ensures r[joint] == joints[joint]
    {
      NamesRoundTrip(joints[joint]);
    }
    assert forall joint :: joint in r <==> joint in joints;
    assert forall joint :: joint in r ==> r[joint] == joints[joint];
  }

  /** A convention missing from the document gives no joints at all. */
  lemma UnknownConventionNoJoints(doc: Json, convention: string)
    requires convention !in ToObj(doc)
    ensures JointMappings(doc, convention) == map[]
  {
  }

  // ---------------------------------------------------------------------

  class SkeletonMetrics {
    const math: Math
    var selectedAsset: int
    var metricSettings: seq<Json>
    var namingConvention: string
    var jointMappings: map<string, seq<string>>
    var skeletons: map<int, string>
    var bones: map<int, map<int, string>>
    var skeletonNameToId: map<string, int>
    var boneNameToId: map<int, map<string, int>>

    constructor (math: Math)
      ensures this.math == math
      ensures selectedAsset == 0 && metricSettings == [] && namingConvention == ""
      ensures jointMappings == map[] && skeletons == map[] && bones == map[]
      ensures skeletonNameToId == map[] && boneNameToId == map[]
    {
      this.math := math;
      selectedAsset := 0;
      metricSettings := [];
      namingConvention := "";
      jointMappings := map[];
      skeletons := map[];
      bones := map[];
      skeletonNameToId := map[];
      boneNameToId := map[];
    }

    /** computeMetricsForFrame */
    method ComputeMetricsForFrame(current: FrameData) returns (data: MetricsData)
      requires Computable(selectedAsset, metricSettings, current)
      ensures data == FrameMetrics(math, selectedAsset, metricSettings, current)
      ensures selectedAsset == -1 ==> data == EmptyMetrics
      ensures selectedAsset != -1 ==> data.id == current.frameNumber && data.metrics.Keys == AllWritten(metricSettings)
    {
      data := EmptyMetrics;
      if selectedAsset == -1 {
        return;
      }
      var skeleton := current.skeletons[0];
      var metrics := map[];
      var s := 0;
      while s < |metricSettings|
        invariant 0 <= s <= |metricSettings|
        invariant AllInRange(metricSettings[..s], skeleton)
        invariant metrics == ApplyDefinitions(math, skeleton, metricSettings[..s])
      {
        assert metricSettings[..s + 1][..s] == metricSettings[..s];
        metrics := EvaluateDefinition(math, skeleton, metrics, metricSettings[s]);
        s := s + 1;
      }
      assert metricSettings[..s] == metricSettings;
      ApplyDefinitionsKeys(math, skeleton, metricSettings);
      data := MetricsData(current.frameNumber, metrics);
    }

    /** createInverseMaps: the skeleton names are added to the reverse map,
      * which is not cleared; each skeleton's bone reverse map is built
      * afresh and replaces the one stored under its id. */
    method CreateInverseMaps()
      modifies this`skeletonNameToId, this`boneNameToId
      ensures Reversed(skeletons, old(skeletonNameToId), skeletonNameToId)
      ensures boneNameToId.Keys == old(boneNameToId).Keys + bones.Keys
      ensures forall sid :: sid in bones ==> Reversed(bones[sid], map[], boneNameToId[sid])
      ensures forall sid :: sid in old(boneNameToId) && sid !in bones ==> boneNameToId[sid] == old(boneNameToId)[sid]
    {
      skeletonNameToId := AddReversed(skeletons, skeletonNameToId);
      var remaining := bones.Keys;
      while remaining != {}
        invariant remaining <= bones.Keys
        invariant Reversed(skeletons, old(skeletonNameToId), skeletonNameToId)
        invariant boneNameToId.Keys == old(boneNameToId).Keys + (bones.Keys - remaining)
        invariant forall sid :: sid in bones && sid !in remaining ==> Reversed(bones[sid], map[], boneNameToId[sid])
        invariant forall sid :: sid in old(boneNameToId) && sid !in bones ==> boneNameToId[sid] == old(boneNameToId)[sid]
        decreases remaining
      {
        Collections.SomeInt(remaining);
        var sid :| sid in remaining;
        var reversed := AddReversed(bones[sid], map[]);
        boneNameToId := boneNameToId[sid := reversed];
        remaining := remaining - {sid};
      }
    }

    /** setSkeletonMap */
    method SetSkeletonMap(names: map<int, string>)
      modifies this`skeletons
      ensures skeletons == names
    {
      skeletons := names;
    }

    /** setBoneMap */
    method SetBoneMap(names: map<int, map<int, string>>)
      modifies this`bones
      ensures bones == names
    {
      bones := names;
    }

    /** setAsset: a known name selects its id, an unknown one deselects. */
    method SetAsset(name: string)
      modifies this`selectedAsset
      ensures name in skeletonNameToId ==> selectedAsset == skeletonNameToId[name]
      ensures name !in skeletonNameToId ==> selectedAsset == -1
    {
      if name in skeletonNameToId {
        selectedAsset := skeletonNameToId[name];
      } else {
        selectedAsset := -1;
      }
    }

    /** loadConfiguration, given what reading and parsing the configuration
      * file gave (None for a parse error, which is also what an unreadable
      * file gives). */
    method LoadConfiguration(parsed: Option<Json>) returns (ok: bool)
      modifies this`jointMappings
      ensures ok <==> parsed.Some?
      ensures parsed.None? ==> jointMappings == old(jointMappings)
      ensures parsed.Some? ==> jointMappings == JointMappings(parsed.value, namingConvention)
    {
      if parsed.None? {
        return false;
      }
      jointMappings := map[];
      var joints := JointsOf(parsed.value, namingConvention);
      var remaining := joints.Keys;
      while remaining != {}
        invariant remaining <= joints.Keys
        invariant jointMappings.Keys == joints.Keys - remaining
        invariant forall joint :: joint in jointMappings ==> jointMappings[joint] == Texts(ToArr(joints[joint]))
        decreases remaining
      {
        Collections.SomeString(remaining);
        var joint :| joint in remaining;
        var boneArray := ToArr(joints[joint]);
        var boneNames := [];
        var k := 0;
        while k < |boneArray|
          invariant 0 <= k <= |boneArray|
          invariant boneNames == Texts(boneArray[..k])
        {
          assert boneArray[..k + 1][..k] == boneArray[..k];
          boneNames := boneNames + [ToStr(boneArray[k])];
          k := k + 1;
        }
        assert boneArray[..k] == boneArray;
        jointMappings := jointMappings[joint := boneNames];
        remaining := remaining - {joint};
      }
      return true;
    }

    /** setNamingConvention: store the convention and reload the joint
      * configuration for it. */
    method SetNamingConvention(convention: string, parsed: Option<Json>)
      modifies this`namingConvention, this`jointMappings
      ensures namingConvention == convention
      ensures parsed.None? ==> jointMappings == old(jointMappings)
      ensures parsed.Some? ==> jointMappings == JointMappings(parsed.value, convention)
    {
      namingConvention := convention;
      var _ := LoadConfiguration(parsed);
    }

    /** setMetricSettings */
    method SetMetricSettings(settings: seq<Json>)
      modifies this`metricSettings
      ensures metricSettings == settings
    {
      metricSettings := settings;
    }
  }

  /** One pass of the loop over the metric definitions. */
  method EvaluateDefinition(m: Math, skeleton: SkeletonData, metrics: map<string, real>, setting: Json) returns (r: map<string, real>)
    requires BonesInRange(setting, skeleton)
    ensures r == ApplyDefinition(m, skeleton, metrics, setting)
  {
    var obj := ToObj(setting);
    var cls := ToStr(Get(obj, "class"));
    var ids := ToArr(Get(obj, "ids"));
    var labels := ToArr(Get(obj, "labels"));
    r := metrics;
    if cls == "angle" && |ids| >= 2 && labels != [] {
      var angle := BoneAngle(m, ToInt(ids[0]), ToInt(ids[1]), skeleton);
      r := r[ToStr(labels[0]) := angle];
    } else if cls == "distance" && |ids| >= 2 && labels != [] {
      var distance := BoneDistance(m, ToInt(ids[0]), ToInt(ids[1]), skeleton);
      r := r[ToStr(labels[0]) := distance];
    }
  }
}
