/**
 * The rigid-body metric calculator (rigid_body_metrics.cpp): for the
 * selected rigid body it evaluates the sport's metric definitions (a JSON
 * array of objects with a "class" and "labels") over the current frame and
 * the two before it.
 */
module RigidBodyMetrics {
  import opened Json
  import opened Geometry
  import opened Frames

  // ---------------------------------------------------------------------
  // The formulas

  /** computeVelocity: the distance travelled over the time step, and 0
    * when the time step is not positive. */
  function Velocity(m: Math, current: Vec3, previous: Vec3, dt: real): (v: real)
    ensures dt <= 0.0 ==> v == 0.0
    ensures Sound(m) ==> 0.0 <= v
    ensures Sound(m) && current == previous ==> v == 0.0
  {
    if dt <= 0.0 then 0.0
    else
      var distance := Length(m, Sub(current, previous));
      LengthFacts(m, Sub(current, previous));
      NonNegativeQuotient(distance, dt);
      distance / dt
  }

  lemma NonNegativeQuotient(a: real, b: real)
    requires 0.0 < b
    ensures 0.0 <= a ==> 0.0 <= a / b
  {
  }

  lemma LengthFacts(m: Math, v: Vec3)
    ensures Sound(m) ==> 0.0 <= Length(m, v)
    ensures Sound(m) && v == Origin ==> Length(m, v) == 0.0
  {
    if Sound(m) {
      LengthSquaredNonNegative(v);
      if v == Origin {
        assert LengthSquared(v) == 0.0 * 0.0;
        SqrtOfSquare(m, 0.0);
      }
    }
  }

  /** computeAcceleration: the change of speed (a difference of speed
    * magnitudes) over the current time step; 0 when that step is not
    * positive. The earlier speed is itself 0 when its step is not positive. */
  function Acceleration(m: Math, current: Vec3, previous: Vec3, secondPrevious: Vec3, dt: real, previousDt: real): (a: real)
    ensures dt <= 0.0 ==> a == 0.0
    ensures 0.0 < dt ==> a * dt == Velocity(m, current, previous, dt) - Velocity(m, previous, secondPrevious, previousDt)
    ensures 0.0 < dt && previousDt <= 0.0 ==> a * dt == Velocity(m, current, previous, dt)
  {
    if dt <= 0.0 then 0.0
    else
      var change := Velocity(m, current, previous, dt) - Velocity(m, previous, secondPrevious, previousDt);
      QuotientTimes(change, dt);
      change / dt
  }

  lemma QuotientTimes(x: real, d: real)
    requires d != 0.0
    ensures (x / d) * d == x
  {
  }

  /** computeTilt: the magnitude of the pitch and roll angles. */
  function Tilt(m: Math, euler: Vec3): (t: real)
    ensures Sound(m) ==> 0.0 <= t && t * t == SumOfSquares(euler.x, euler.z)
  {
    SquareNonNegative(euler.x);
    SquareNonNegative(euler.z);
    m.sqrt(SumOfSquares(euler.x, euler.z))
  }

  /** The tilt does not depend on the yaw (y) angle. */
  lemma TiltIgnoresYaw(m: Math, euler: Vec3, yaw: real)
    ensures Tilt(m, euler.(y := yaw)) == Tilt(m, euler)
  {
  }

  /** A body moving by the same displacement over two equal steps has no
    * acceleration. */
  lemma SteadyMotion(m: Math, current: Vec3, previous: Vec3, secondPrevious: Vec3, dt: real)
    requires 0.0 < dt && Sub(current, previous) == Sub(previous, secondPrevious)
    ensures Acceleration(m, current, previous, secondPrevious, dt, dt) == 0.0
  {
    assert Velocity(m, current, previous, dt) == Velocity(m, previous, secondPrevious, dt);
  }

  // ---------------------------------------------------------------------
  // Selection of the body

  predicate HasBody(bodies: seq<RigidBodyData>, id: int) {
    exists k :: 0 <= k < |bodies| && bodies[k].id == id
  }

  /** The index of the first body with the given id. */
  function FirstMatch(bodies: seq<RigidBodyData>, id: int): (k: nat)
    requires HasBody(bodies, id)
    ensures k < |bodies| && bodies[k].id == id
    ensures forall j :: 0 <= j < k ==> bodies[j].id != id
    decreases |bodies|
  {
    if bodies[0].id == id then 0
    else
      assert HasBody(bodies[1..], id) by {
        var k :| 0 <= k < |bodies| && bodies[k].id == id;
        assert bodies[1..][k - 1].id == id;
      }
      1 + FirstMatch(bodies[1..], id)
  }

  /** What computeMetricsForFrame needs to return a value: with a subject
    * selected, some body of the current frame carries its id, and both
    * earlier frames have a body at the index of the first such body. */
  predicate Computable(selected: int, current: FrameData, previous: FrameData, secondPrevious: FrameData) {
    selected == -1 ||
    (HasBody(current.rigidBodies, selected)
     && FirstMatch(current.rigidBodies, selected) < |previous.rigidBodies|
     && FirstMatch(current.rigidBodies, selected) < |secondPrevious.rigidBodies|)
  }

  // ---------------------------------------------------------------------
  // The metric definitions

  /** The inputs of one evaluation: the selected body in the three frames,
    * its Euler angles now, and the two time steps. */
  datatype Motion = Motion(
    current: RigidBodyData, previous: RigidBodyData, secondPrevious: RigidBodyData,
    euler: Vec3, dt: real, previousDt: real)

  function Component(v: Vec3, j: int): real
    requires 0 <= j < 3
  {
    if j == 0 then v.x else if j == 1 then v.y else v.z
  }

  /** `labels[j]` -> component j of v, for j < n, in order. */
  function LabelComponents(metrics: map<string, real>, labels: seq<Json>, v: Vec3, n: nat): map<string, real>
    requires n <= |labels| && n <= 3
  {
    if n == 0 then metrics
    else LabelComponents(metrics, labels, v, n - 1)[ToStr(labels[n - 1]) := Component(v, n - 1)]
  }

  function Min(a: int, b: int): int {
    if a < b then a else b
  }

  function ClassOf(setting: Json): string {
    ToStr(Get(ToObj(setting), "class"))
  }

  function LabelsOf(setting: Json): seq<Json> {
    ToArr(Get(ToObj(setting), "labels"))
  }

  /** One metric definition evaluated into the metrics hash. */
  function ApplyDefinition(m: Math, w: Motion, metrics: map<string, real>, setting: Json): map<string, real> {
    var cls := ClassOf(setting);
    var labels := LabelsOf(setting);
    if cls == "tilt" then
      if labels != [] then metrics[ToStr(labels[0]) := Tilt(m, w.euler)] else metrics
    else if cls == "velocity" then
      if labels != [] then metrics[ToStr(labels[0]) := Velocity(m, w.current.position, w.previous.position, w.dt)] else metrics
    else if cls == "acceleration" then
      if labels != [] then
        metrics[ToStr(labels[0]) := Acceleration(m, w.current.position, w.previous.position, w.secondPrevious.position, w.dt, w.previousDt)]
      else metrics
    else if cls == "position" then LabelComponents(metrics, labels, w.current.position, Min(|labels|, 3))
    else if cls == "orientation" then LabelComponents(metrics, labels, w.euler, Min(|labels|, 3))
    else metrics
  }

  /** The definitions evaluated in order; a later label overwrites an
    * earlier one. */
  function ApplyDefinitions(m: Math, w: Motion, settings: seq<Json>): map<string, real>
    decreases |settings|
  {
    if settings == [] then map[]
    else ApplyDefinition(m, w, ApplyDefinitions(m, w, settings[..|settings| - 1]), settings[|settings| - 1])
  }

  /** The result of computeMetricsForFrame. */
  function FrameMetrics(m: Math, selected: int, settings: seq<Json>, current: FrameData, previous: FrameData, secondPrevious: FrameData): MetricsData
    requires Computable(selected, current, previous, secondPrevious)
  {
    if selected == -1 then EmptyMetrics
    else
      var k := FirstMatch(current.rigidBodies, selected);
      var body := current.rigidBodies[k];
      var w := Motion(body, previous.rigidBodies[k], secondPrevious.rigidBodies[k],
                      m.eulerAngles(body.orientation),
                      current.timestamp - previous.timestamp,
                      previous.timestamp - secondPrevious.timestamp);
      MetricsData(current.frameNumber, ApplyDefinitions(m, w, settings))
  }

  // ---------------------------------------------------------------------
  // Which labels a definition writes

  /** The labels a definition writes: `labels[0]` for the scalar classes
    * (when there is one), `labels[j]` for j < min(|labels|, 3) for the
    * vector classes, nothing for any other class. */
  function WrittenLabels(setting: Json): set<string> {
    var cls := ClassOf(setting);
    var labels := LabelsOf(setting);
    if cls == "tilt" || cls == "velocity" || cls == "acceleration" then
      if labels != [] then {ToStr(labels[0])} else {}
    else if cls == "position" || cls == "orientation" then
      set j | 0 <= j < Min(|labels|, 3) :: ToStr(labels[j])
    else {}
  }

  lemma {:induction false} LabelComponentsKeys(metrics: map<string, real>, labels: seq<Json>, v: Vec3, n: nat)
    requires n <= |labels| && n <= 3
    ensures LabelComponents(metrics, labels, v, n).Keys == metrics.Keys + set j | 0 <= j < n :: ToStr(labels[j])
    ensures forall key :: key in metrics && key !in (set j | 0 <= j < n :: ToStr(labels[j])) ==>
              LabelComponents(metrics, labels, v, n)[key] == metrics[key]
  {
    if n > 0 {
      LabelComponentsKeys(metrics, labels, v, n - 1);
      var before := set j | 0 <= j < n - 1 :: ToStr(labels[j]);
      var after := set j | 0 <= j < n :: ToStr(labels[j]);
      assert after == before + {ToStr(labels[n - 1])};
    }
  }

  /** A definition adds exactly its written labels and leaves every other
    * entry as it was. */
  lemma ApplyDefinitionWrites(m: Math, w: Motion, metrics: map<string, real>, setting: Json)
    ensures ApplyDefinition(m, w, metrics, setting).Keys == metrics.Keys + WrittenLabels(setting)
    ensures forall key :: key in metrics && key !in WrittenLabels(setting) ==>
              ApplyDefinition(m, w, metrics, setting)[key] == metrics[key]
  {
    var labels := LabelsOf(setting);
    LabelComponentsKeys(metrics, labels, w.current.position, Min(|labels|, 3));
    LabelComponentsKeys(metrics, labels, w.euler, Min(|labels|, 3));
  }

  /** With distinct labels, `labels[j]` carries component j. */
  lemma {:induction false} LabelComponentsValues(metrics: map<string, real>, labels: seq<Json>, v: Vec3, n: nat, j: nat)
    requires n <= |labels| && n <= 3 && j < n
    requires forall a, b :: 0 <= a < b < n ==> ToStr(labels[a]) != ToStr(labels[b])
    ensures ToStr(labels[j]) in LabelComponents(metrics, labels, v, n)
    ensures LabelComponents(metrics, labels, v, n)[ToStr(labels[j])] == Component(v, j)
  {
    if j < n - 1 {
      LabelComponentsValues(metrics, labels, v, n - 1, j);
    }
  }

  /** A "position" definition with distinct labels writes x, y and z under
    * its first three labels, in that order. */
  lemma PositionLabels(m: Math, w: Motion, metrics: map<string, real>, setting: Json, j: nat)
    requires ClassOf(setting) == "position"
    requires j < |LabelsOf(setting)| && j < 3
    requires forall a, b :: 0 <= a < b < |LabelsOf(setting)| ==> ToStr(LabelsOf(setting)[a]) != ToStr(LabelsOf(setting)[b])
    ensures ToStr(LabelsOf(setting)[j]) in ApplyDefinition(m, w, metrics, setting)
    ensures ApplyDefinition(m, w, metrics, setting)[ToStr(LabelsOf(setting)[j])] == Component(w.current.position, j)
  {
    var labels := LabelsOf(setting);
    LabelComponentsValues(metrics, labels, w.current.position, Min(|labels|, 3), j);
  }

  /** The same for "orientation", with the Euler angles. */
  lemma OrientationLabels(m: Math, w: Motion, metrics: map<string, real>, setting: Json, j: nat)
    requires ClassOf(setting) == "orientation"
    requires j < |LabelsOf(setting)| && j < 3
    requires forall a, b :: 0 <= a < b < |LabelsOf(setting)| ==> ToStr(LabelsOf(setting)[a]) != ToStr(LabelsOf(setting)[b])
    ensures ToStr(LabelsOf(setting)[j]) in ApplyDefinition(m, w, metrics, setting)
    ensures ApplyDefinition(m, w, metrics, setting)[ToStr(LabelsOf(setting)[j])] == Component(w.euler, j)
  {
    var labels := LabelsOf(setting);
    LabelComponentsValues(metrics, labels, w.euler, Min(|labels|, 3), j);
  }

  /** The labels written by a list of definitions. */
  function AllWritten(settings: seq<Json>): set<string>
    decreases |settings|
  {
    if settings == [] then {}
    else AllWritten(settings[..|settings| - 1]) + WrittenLabels(settings[|settings| - 1])
  }

  /** The labels of a frame's metrics are exactly those the definitions
    * write. */
  lemma {:induction false} ApplyDefinitionsKeys(m: Math, w: Motion, settings: seq<Json>)
    ensures ApplyDefinitions(m, w, settings).Keys == AllWritten(settings)
    decreases |settings|
  {
    if settings != [] {
      var n := |settings| - 1;
      ApplyDefinitionsKeys(m, w, settings[..n]);
      ApplyDefinitionWrites(m, w, ApplyDefinitions(m, w, settings[..n]), settings[n]);
    }
  }

  // ---------------------------------------------------------------------

  class RigidBodyMetrics {
    const math: Math
    var selectedAsset: int
    var metricSettings: seq<Json>
    var rigidBodies: map<int, string>
    var rigidBodyNameToId: map<string, int>

    constructor (math: Math)
      ensures this.math == math
      ensures selectedAsset == 0 && metricSettings == []
      ensures rigidBodies == map[] && rigidBodyNameToId == map[]
    {
      this.math := math;
      selectedAsset := 0;
      metricSettings := [];
      rigidBodies := map[];
      rigidBodyNameToId := map[];
    }

    /** computeMetricsForFrame */
    method ComputeMetricsForFrame(current: FrameData, previous: FrameData, secondPrevious: FrameData) returns (data: MetricsData)
      requires Computable(selectedAsset, current, previous, secondPrevious)
      ensures data == FrameMetrics(math, selectedAsset, metricSettings, current, previous, secondPrevious)
      ensures selectedAsset == -1 ==> data == EmptyMetrics
      ensures selectedAsset != -1 ==> data.id == current.frameNumber
    {
      data := EmptyMetrics;
      if selectedAsset == -1 {
        return;
      }
      ghost var k := FirstMatch(current.rigidBodies, selectedAsset);
      var i := 0;
      while current.rigidBodies[i].id != selectedAsset
        invariant 0 <= i <= k
        decreases k - i
      {
        i := i + 1;
      }
      var body := current.rigidBodies[i];
      var euler := math.eulerAngles(body.orientation);
      var w := Motion(body, previous.rigidBodies[i], secondPrevious.rigidBodies[i], euler,
                      current.timestamp - previous.timestamp,
                      previous.timestamp - secondPrevious.timestamp);
      var metrics := EvaluateDefinitions(math, w, metricSettings);
      data := MetricsData(current.frameNumber, metrics);
    }

    /** createInverseMaps */
    method CreateInverseMaps()
      modifies this`rigidBodyNameToId
      ensures Reversed(rigidBodies, old(rigidBodyNameToId), rigidBodyNameToId)
    {
      rigidBodyNameToId := AddReversed(rigidBodies, rigidBodyNameToId);
    }

    /** setRigidBodyMap */
    method SetRigidBodyMap(names: map<int, string>)
      modifies this`rigidBodies
      ensures rigidBodies == names
    {
      rigidBodies := names;
    }

    /** setAsset: a known name selects its id; an unknown one sets the
      * selection to 0 (NULL), which is a valid rigid-body id, not -1. */
    method SetAsset(name: string)
      modifies this`selectedAsset
      ensures name in rigidBodyNameToId ==> selectedAsset == rigidBodyNameToId[name]
      ensures name !in rigidBodyNameToId ==> selectedAsset == 0
    {
      if name in rigidBodyNameToId {
        selectedAsset := rigidBodyNameToId[name];
      } else {
        selectedAsset := 0;
      }
    }

    /** setMetricSettings */
    method SetMetricSettings(settings: seq<Json>)
      modifies this`metricSettings
      ensures metricSettings == settings
    {
      metricSettings := settings;
    }
  }

  /** The loop over the metric settings in computeMetricsForFrame: each
    * definition is applied in order to the map built so far. */
  method EvaluateDefinitions(m: Math, w: Motion, settings: seq<Json>) returns (metrics: map<string, real>)
    ensures metrics == ApplyDefinitions(m, w, settings)
  {
    metrics := map[];
    var s := 0;
    while s < |settings|
      invariant 0 <= s <= |settings|
      invariant metrics == ApplyDefinitions(m, w, settings[..s])
    {
      assert settings[..s + 1][..s] == settings[..s];
      metrics := EvaluateDefinition(m, w, metrics, settings[s]);
      s := s + 1;
    }
    assert settings[..s] == settings;
  }

  /** One pass of the loop over the metric definitions, with the inner
    * loop over the labels of a vector class. */
  method EvaluateDefinition(m: Math, w: Motion, metrics: map<string, real>, setting: Json) returns (r: map<string, real>)
    ensures r == ApplyDefinition(m, w, metrics, setting)
  {
    var obj := ToObj(setting);
    var cls := ToStr(Get(obj, "class"));
    var labels := ToArr(Get(obj, "labels"));
    r := metrics;
    if cls == "tilt" {
      if labels != [] {
        r := r[ToStr(labels[0]) := Tilt(m, w.euler)];
      }
    } else if cls == "velocity" {
      if labels != [] {
        r := r[ToStr(labels[0]) := Velocity(m, w.current.position, w.previous.position, w.dt)];
      }
    } else if cls == "acceleration" {
      if labels != [] {
        r := r[ToStr(labels[0]) := Acceleration(m, w.current.position, w.previous.position, w.secondPrevious.position, w.dt, w.previousDt)];
      }
    } else if cls == "position" || cls == "orientation" {
      var v := if cls == "position" then w.current.position else w.euler;
      var j := 0;
      while j < |labels| && j < 3
        invariant 0 <= j <= Min(|labels|, 3)
        invariant r == LabelComponents(metrics, labels, v, j)
      {
        r := r[ToStr(labels[j]) := Component(v, j)];
        j := j + 1;
      }
    }
  }
}
