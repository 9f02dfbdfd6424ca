/**
 * The records exchanged between the NatNet client, the metric calculators,
 * the replay controller and the renderer (frame_data.h, metrics_data.h),
 * with the defaults their constructors give, and the id/name maps of the
 * streamed assets.
 */
module Frames {
  import opened Geometry
  import Collections

  /** A rigid body or a skeleton bone in one frame. */
  datatype RigidBodyData = RigidBodyData(id: int, parentId: int, position: Vec3, orientation: Quat)

  const DefaultRigidBody: RigidBodyData := RigidBodyData(-1, -1, Origin, Identity)

  datatype SkeletonData = SkeletonData(id: int, bones: seq<RigidBodyData>)

  const DefaultSkeleton: SkeletonData := SkeletonData(-1, [])

  datatype FrameData = FrameData(
    frameNumber: int,
    timestamp: real,
    rigidBodies: seq<RigidBodyData>,
    skeletons: seq<SkeletonData>)

  const DefaultFrame: FrameData := FrameData(0, 0.0, [], [])

  /** Labelled values computed for one frame; `id` is the frame number. */
  datatype MetricsData = MetricsData(id: int, metrics: map<string, real>)

  const EmptyMetrics: MetricsData := MetricsData(-1, map[])

  /** Marker offsets of a rigid body, relative to its centre. */
  datatype RigidBodyOffsets = RigidBodyOffsets(bodyId: int, markerOffsets: seq<Vec3>)

  /** The renderer's assets: per skeleton the (parent index, child index)
    * bone pairs, and per rigid body its marker offsets. */
  datatype GLWidgetAssets = GLWidgetAssets(skeletons: seq<seq<(int, int)>>, rbOffsets: seq<RigidBodyOffsets>)

  /** The id -> name maps of the streamed assets: rigid bodies, skeletons,
    * and for each skeleton id its bones. */
  datatype NameMaps = NameMaps(
    rigidBodies: map<int, string>,
    skeletons: map<int, string>,
    bones: map<int, map<int, string>>)

  const NoNames: NameMaps := NameMaps(map[], map[], map[])

  /** `after` is `before` with every name of `forward` mapped back to one of
    * its ids; names that `forward` does not carry keep their old entry.
    * Which id a name shared by several ids gets is left open, as the
    * iteration order of the forward map decides it. */
  ghost predicate Reversed(forward: map<int, string>, before: map<string, int>, after: map<string, int>) {
    && (forall name :: name in after <==> name in before || name in forward.Values)
    && (forall name :: name in after && name !in forward.Values ==> after[name] == before[name])
    && (forall name :: name in forward.Values ==> after[name] in forward && forward[after[name]] == name)
  }

  /** The loop of createInverseMaps: insert name -> id for every forward
    * entry into `reverse`, which is not cleared first. */
  method AddReversed(forward: map<int, string>, reverse: map<string, int>) returns (r: map<string, int>)
    ensures Reversed(forward, reverse, r)
  {
    r := reverse;
    var remaining := forward.Keys;
    ghost var names: set<string> := {};
    while remaining != {}
      invariant remaining <= forward.Keys
      invariant names <= forward.Values
      invariant forall id :: id in forward && id !in remaining ==> forward[id] in names
      invariant forall name :: name in r <==> name in reverse || name in names
      invariant forall name :: name in r && name !in names ==> r[name] == reverse[name]
      invariant forall name :: name in names ==> r[name] in forward && forward[r[name]] == name
      decreases remaining
    {
      Collections.SomeInt(remaining);
      var id :| id in remaining;
      r := r[forward[id] := id];
      names := names + {forward[id]};
      remaining := remaining - {id};
    }
    forall name | name in forward.Values
      ensures name in names
    {
      Collections.NamedId(forward, name);
    }
  }
}
