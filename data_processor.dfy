/**
 * The data processor (data_processor.cpp): it keeps the two frames before
 * the current one, runs both metric calculators once that window is full,
 * and forwards asset maps, asset choices and metric definitions to the
 * calculators. Emitted signals are recorded in logs.
 */
module DataProcessor {
  import opened Json
  import opened Frames
  import RB = RigidBodyMetrics
  import SK = SkeletonMetrics

  /** The sliding window: the previous frame and the one before it. */
  datatype Window = Window(previous: Option<FrameData>, secondPrevious: Option<FrameData>)

  const EmptyWindow: Window := Window(None, None)

  /** Metrics are computed only when both slots hold a frame. */
  predicate Full(w: Window) {
    w.previous.Some? && w.secondPrevious.Some?
  }

  /** Every call moves the window on by the new frame. */
  function Shift(w: Window, frame: FrameData): Window {
    Window(Some(frame), w.previous)
  }

  /** The window after a run of frames, starting empty. */
  function WindowAfter(frames: seq<FrameData>): Window
    decreases |frames|
  {
    if frames == [] then EmptyWindow
    else Shift(WindowAfter(frames[..|frames| - 1]), frames[|frames| - 1])
  }

  /** The window holds the last two frames seen, and is full exactly from
    * the second frame on. */
  lemma {:induction false} WindowHoldsLastTwo(frames: seq<FrameData>)
    ensures |frames| >= 1 ==> WindowAfter(frames).previous == Some(frames[|frames| - 1])
    ensures |frames| >= 2 ==> WindowAfter(frames).secondPrevious == Some(frames[|frames| - 2])
    ensures |frames| < 2 ==> WindowAfter(frames).secondPrevious == None
    ensures |frames| == 0 ==> WindowAfter(frames).previous == None
    ensures Full(WindowAfter(frames)) <==> |frames| >= 2
    decreases |frames|
  {
    if frames != [] {
      var n := |frames| - 1;
      WindowHoldsLastTwo(frames[..n]);
      if n >= 1 {
        assert frames[..n][n - 1] == frames[n - 1];
      }
    }
  }

  /** How many of the calls for a run of frames, from an empty window,
    * compute metrics. */
  function Emitting(frames: seq<FrameData>): nat
    decreases |frames|
  {
    if frames == [] then 0
    else
      var n := |frames| - 1;
      Emitting(frames[..n]) + (if Full(WindowAfter(frames[..n])) then 1 else 0)
  }

  /** Nothing is computed for the first two frames and one result is
    * computed for every later frame. */
  lemma {:induction false} MetricsFromThirdFrame(frames: seq<FrameData>)
    ensures Emitting(frames) == if |frames| <= 2 then 0 else |frames| - 2
    decreases |frames|
  {
    if frames != [] {
      var n := |frames| - 1;
      MetricsFromThirdFrame(frames[..n]);
      WindowHoldsLastTwo(frames[..n]);
    }
  }

  /** A computed frame's metrics are taken over that frame and the two
    * frames before it. */
  lemma ComputedFromLastThree(frames: seq<FrameData>, frame: FrameData)
    requires |frames| >= 2
    ensures Full(WindowAfter(frames))
    ensures WindowAfter(frames).previous.value == frames[|frames| - 1]
    ensures WindowAfter(frames).secondPrevious.value == frames[|frames| - 2]
  {
    WindowHoldsLastTwo(frames);
  }

  class DataProcessor {
    const rigid: RB.RigidBodyMetrics
    const skeleton: SK.SkeletonMetrics
    var previousFrame: Option<FrameData>
    var secondPreviousFrame: Option<FrameData>
    /** The metricsComputed signals sent, rigid-body result first. */
    var computed: seq<(MetricsData, MetricsData)>
    /** The sendAssets signals sent: skeleton name -> id, rigid-body name -> id. */
    var sentAssets: seq<(map<string, int>, map<string, int>)>

    function CurrentWindow(): Window
      reads this
    {
      Window(previousFrame, secondPreviousFrame)
    }

    constructor (rigid: RB.RigidBodyMetrics, skeleton: SK.SkeletonMetrics)
      ensures this.rigid == rigid && this.skeleton == skeleton
      ensures CurrentWindow() == EmptyWindow
      ensures computed == [] && sentAssets == []
    {
      this.rigid := rigid;
      this.skeleton := skeleton;
      previousFrame := None;
      secondPreviousFrame := None;
      computed := [];
      sentAssets := [];
    }

    /** onFramesUpdated. With a full window both calculators must be able
      * to return a value for the frame. */
    method OnFramesUpdated(frame: FrameData)
      requires Full(CurrentWindow()) ==>
        && RB.Computable(rigid.selectedAsset, frame, previousFrame.value, secondPreviousFrame.value)
        && SK.Computable(skeleton.selectedAsset, skeleton.metricSettings, frame)
      modifies this`previousFrame, this`secondPreviousFrame, this`computed
      ensures CurrentWindow() == Shift(old(CurrentWindow()), frame)
      ensures !Full(old(CurrentWindow())) ==> computed == old(computed)
      ensures Full(old(CurrentWindow())) ==> computed == old(computed) + [(
        RB.FrameMetrics(rigid.math, rigid.selectedAsset, rigid.metricSettings, frame, old(previousFrame).value, old(secondPreviousFrame).value),
        SK.FrameMetrics(skeleton.math, skeleton.selectedAsset, skeleton.metricSettings, frame))]
    {
      if !(previousFrame.Some? && secondPreviousFrame.Some?) {
        secondPreviousFrame := previousFrame;
        previousFrame := Some(frame);
        return;
      }
      var rbMetrics := rigid.ComputeMetricsForFrame(frame, previousFrame.value, secondPreviousFrame.value);
      var skelMetrics := skeleton.ComputeMetricsForFrame(frame);
      computed := computed + [(rbMetrics, skelMetrics)];
      secondPreviousFrame := previousFrame;
      previousFrame := Some(frame);
    }

    /** receiveMaps: the forward maps are stored before the reverse maps are
      * rebuilt from them, and the reverse maps are then sent on. */
    method ReceiveMaps(rigidBodies: map<int, string>, skeletons: map<int, string>, bones: map<int, map<int, string>>)
      modifies rigid`rigidBodies, rigid`rigidBodyNameToId
      modifies skeleton`skeletons, skeleton`bones, skeleton`skeletonNameToId, skeleton`boneNameToId
      modifies this`sentAssets
      ensures rigid.rigidBodies == rigidBodies
      ensures Reversed(rigidBodies, old(rigid.rigidBodyNameToId), rigid.rigidBodyNameToId)
      ensures skeleton.skeletons == skeletons && skeleton.bones == bones
      ensures Reversed(skeletons, old(skeleton.skeletonNameToId), skeleton.skeletonNameToId)
      ensures skeleton.boneNameToId.Keys == old(skeleton.boneNameToId).Keys + bones.Keys
      ensures forall sid :: sid in bones ==> Reversed(bones[sid], map[], skeleton.boneNameToId[sid])
      ensures forall sid :: sid in old(skeleton.boneNameToId) && sid !in bones ==>
                skeleton.boneNameToId[sid] == old(skeleton.boneNameToId)[sid]
      ensures sentAssets == old(sentAssets) + [(skeleton.skeletonNameToId, rigid.rigidBodyNameToId)]
    {
      rigid.SetRigidBodyMap(rigidBodies);
      rigid.CreateInverseMaps();
      skeleton.SetSkeletonMap(skeletons);
      skeleton.SetBoneMap(bones);
      skeleton.CreateInverseMaps();
      sentAssets := sentAssets + [(skeleton.skeletonNameToId, rigid.rigidBodyNameToId)];
    }

    /** receiveAssets: each name goes to its own calculator. */
    method ReceiveAssets(skeletonAsset: string, rigidBodyAsset: string)
      modifies skeleton`selectedAsset, rigid`selectedAsset
      ensures skeletonAsset in skeleton.skeletonNameToId ==> skeleton.selectedAsset == skeleton.skeletonNameToId[skeletonAsset]
      ensures skeletonAsset !in skeleton.skeletonNameToId ==> skeleton.selectedAsset == -1
      ensures rigidBodyAsset in rigid.rigidBodyNameToId ==> rigid.selectedAsset == rigid.rigidBodyNameToId[rigidBodyAsset]
      ensures rigidBodyAsset !in rigid.rigidBodyNameToId ==> rigid.selectedAsset == 0
    {
      skeleton.SetAsset(skeletonAsset);
      rigid.SetAsset(rigidBodyAsset);
    }

    /** receiveNamingConvention, with what reading the joint configuration
      * file gave. */
    method ReceiveNamingConvention(convention: string, parsed: Option<Json>)
      modifies skeleton`namingConvention, skeleton`jointMappings
      ensures skeleton.namingConvention == convention
      ensures parsed.None? ==> skeleton.jointMappings == old(skeleton.jointMappings)
      ensures parsed.Some? ==> skeleton.jointMappings == SK.JointMappings(parsed.value, convention)
    {
      skeleton.SetNamingConvention(convention, parsed);
    }

    /** receiveMetricSettings: both definition lists are replaced. */
    method ReceiveMetricSettings(rigidSettings: seq<Json>, bodySettings: seq<Json>)
      modifies rigid`metricSettings, skeleton`metricSettings
      ensures rigid.metricSettings == rigidSettings
      ensures skeleton.metricSettings == bodySettings
    {
      rigid.SetMetricSettings(rigidSettings);
      skeleton.SetMetricSettings(bodySettings);
    }
  }
}
