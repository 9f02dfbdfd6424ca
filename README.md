# Drone-Calibration, modelled in Dafny

This project models the core of the Drone-Calibration repository and
proves properties about it. The core comes from three programs.

- **sports-data-metric-client** (C++/Qt). It takes motion-capture frames
  from a NatNet server, keeps a window of recent frames, and computes
  rigid-body metrics (velocity, acceleration, tilt, position, orientation)
  and skeleton metrics (joint angles, forward tilt). It also records and
  replays takes as JSON, draws the scene in OpenGL (bone pairs, marker
  offsets, meshes), and plots a metric over time.
- **qt-drone-ui** (C++/Qt). It is the ground station for a VOXL drone:
  the path planner's waypoints, the saved flight paths and recordings,
  the status panel (battery, controls, message log, simulation), the
  drone controller's connection state, and the camera feed panel.
- **drone-ui** (React). It is the browser version: the 3D and flat path
  planners, the application shell with its saved paths and recordings,
  the recordings list, and the camera view.

Each source file has its own Dafny module.

- Widgets and controllers whose members update fields become classes
  with `modifies` clauses. Their methods state the whole new state.
- Code that only computes becomes functions. Properties relating several
  calls are lemmas.
- Qt signals, commands sent to the drone, and requests become values the
  methods return.
- Platform numerics are parameters: square roots, trigonometry, Qt's and
  JavaScript's number-to-text conversions, and the wall clock.
- Floating-point numbers are exact reals. C++ and JavaScript integer
  division and remainder are written out explicitly (`Numeric.CDiv`,
  `Numeric.CMod`). 32-bit wrap-around appears where it matters
  (`Numeric.ToInt32`).

Shared modules:

- `Json` models QJsonValue and its accessors with their defaults.
- `Geometry` holds vectors, quaternions and a record of the platform's
  numerics.
- `Frames` holds frame records.
- `Collections` holds small facts about sets and maps.

## Model

| member | source | states |
|---|---|---|
| RigidBodyMetrics.Velocity | sports-data-metric-client/src/data/rigid_body_metrics.cpp:76-85 | the speed is 0 for a non-positive time step, never negative, and 0 for a body that did not move |
| RigidBodyMetrics.Acceleration | sports-data-metric-client/src/data/rigid_body_metrics.cpp:87-102 | 0 for a non-positive step; otherwise times the step it is the change between the two speeds, the earlier speed counting as 0 when its own step is not positive |
| RigidBodyMetrics.Tilt | sports-data-metric-client/src/data/rigid_body_metrics.cpp:104-111 | the tilt is the non-negative root of the sum of the squared pitch and roll |
| RigidBodyMetrics.TiltIgnoresYaw | sports-data-metric-client/src/data/rigid_body_metrics.cpp:104-111 | the yaw angle does not change the tilt |
| RigidBodyMetrics.SteadyMotion | sports-data-metric-client/src/data/rigid_body_metrics.cpp:87-102 | equal displacements over equal steps give no acceleration |
| RigidBodyMetrics.FirstMatch | sports-data-metric-client/src/data/rigid_body_metrics.cpp:18-27 | the loop stops at the first body carrying the selected id: that body has the id and no earlier one does |
| RigidBodyMetrics.LabelComponentsKeys | sports-data-metric-client/src/data/rigid_body_metrics.cpp:56-66 | a vector class adds exactly `labels[j]` for j below min(size, 3) and keeps every other entry |
| RigidBodyMetrics.LabelComponentsValues | sports-data-metric-client/src/data/rigid_body_metrics.cpp:56-66 | with distinct labels, `labels[j]` holds component j |
| RigidBodyMetrics.ApplyDefinitionWrites | sports-data-metric-client/src/data/rigid_body_metrics.cpp:33-68 | one definition adds exactly the labels it writes (first label for tilt, velocity and acceleration; up to three for position and orientation; none for another class) and keeps the rest |
| RigidBodyMetrics.PositionLabels | sports-data-metric-client/src/data/rigid_body_metrics.cpp:56-60 | a position definition with distinct labels stores x, y and z under its first three labels |
| RigidBodyMetrics.OrientationLabels | sports-data-metric-client/src/data/rigid_body_metrics.cpp:62-66 | an orientation definition stores the Euler angles the same way |
| RigidBodyMetrics.ApplyDefinitionsKeys | sports-data-metric-client/src/data/rigid_body_metrics.cpp:33-68 | the labels of a frame's metrics are exactly those the definitions write |
| RigidBodyMetrics.RigidBodyMetrics.constructor | sports-data-metric-client/src/data/rigid_body_metrics.cpp:5-7 | nothing is selected yet (id 0), no definitions, empty maps |
| RigidBodyMetrics.FrameMetrics | sports-data-metric-client/src/data/rigid_body_metrics.cpp:9-74 | the specification of computeMetricsForFrame: empty for -1, else the definitions on the first body with the selected id; ComputeMetricsForFrame is proved to compute it and ApplyDefinitionsKeys and ApplyDefinitionWrites state its labels |
| RigidBodyMetrics.RigidBodyMetrics.ComputeMetricsForFrame | sports-data-metric-client/src/data/rigid_body_metrics.cpp:9-74 | the result is the specification FrameMetrics; with no subject selected (-1) it is the empty result with id -1; otherwise its id is the frame number |
| RigidBodyMetrics.RigidBodyMetrics.CreateInverseMaps | sports-data-metric-client/src/data/rigid_body_metrics.cpp:117-122 | every id's name maps back to the id; entries already in the reverse map stay |
| RigidBodyMetrics.RigidBodyMetrics.SetRigidBodyMap | sports-data-metric-client/src/data/rigid_body_metrics.cpp:113-115 | the forward map is replaced |
| RigidBodyMetrics.RigidBodyMetrics.SetAsset | sports-data-metric-client/src/data/rigid_body_metrics.cpp:124-133 | a known name selects its id; an unknown name selects 0, not -1 |
| RigidBodyMetrics.RigidBodyMetrics.SetMetricSettings | sports-data-metric-client/src/data/rigid_body_metrics.cpp:143-146 | the definitions are replaced |
| RigidBodyMetrics.EvaluateDefinitions | sports-data-metric-client/src/data/rigid_body_metrics.cpp:32-67 | the loop over the metric settings applies every definition in order, giving ApplyDefinitions |
| RigidBodyMetrics.EvaluateDefinition | sports-data-metric-client/src/data/rigid_body_metrics.cpp:33-68 | one pass of the definition loop, with its inner label loop, computes ApplyDefinition |
| SkeletonMetrics.JointAngle | sports-data-metric-client/src/data/skeleton_metrics.cpp:61-76 | the angle of the relative rotation in degrees; SameOrientationNoAngle proves equal non-zero orientations give 0 |
| SkeletonMetrics.BoneAngle | sports-data-metric-client/src/data/skeleton_metrics.cpp:53-59 | getJointAngle: JointAngle of the two bones' orientations, so a bone against itself gives 0 (SameOrientationNoAngle) |
| SkeletonMetrics.SameOrientationNoAngle | sports-data-metric-client/src/data/skeleton_metrics.cpp:61-76 | two equal non-zero bone orientations make a joint angle of 0 degrees |
| SkeletonMetrics.ForwardTilt | sports-data-metric-client/src/data/skeleton_metrics.cpp:78-86 | the forward tilt (horizontal distance between two bones, in centimetres) is never negative |
| SkeletonMetrics.ForwardTiltIgnoresHeight | sports-data-metric-client/src/data/skeleton_metrics.cpp:78-86 | the bones' heights do not change the forward tilt |
| SkeletonMetrics.BoneDistance | sports-data-metric-client/src/data/skeleton_metrics.cpp:78-86 | computeForwardTilt on two bones: never negative, and the same with the bones swapped |
| SkeletonMetrics.ForwardTiltSymmetric | sports-data-metric-client/src/data/skeleton_metrics.cpp:78-86 | swapping the two bones gives the same forward tilt |
| SkeletonMetrics.ApplyDefinition | sports-data-metric-client/src/data/skeleton_metrics.cpp:33-47 | an angle or distance definition with two ids and a label stores its value under its first label; any other definition changes nothing |
| SkeletonMetrics.ApplyDefinitionsKeys | sports-data-metric-client/src/data/skeleton_metrics.cpp:28-47 | a frame's metrics hold exactly the first labels of the producing definitions |
| SkeletonMetrics.LastDefinitionWins | sports-data-metric-client/src/data/skeleton_metrics.cpp:28-47 | when several definitions share a label, the last one's value is kept |
| SkeletonMetrics.OnlyFirstSkeleton | sports-data-metric-client/src/data/skeleton_metrics.cpp:25-50 | only the first skeleton is read: frames agreeing on it and on the frame number get the same metrics, whatever the selected id |
| SkeletonMetrics.Texts | sports-data-metric-client/src/data/skeleton_metrics.cpp:180-183 | each element of the bone array becomes its text, in order |
| SkeletonMetrics.JointMappings | sports-data-metric-client/src/data/skeleton_metrics.cpp:171-189 | the joints are exactly the keys of root[convention].joints, each mapped to its bone names |
| SkeletonMetrics.UnknownConventionNoJoints | sports-data-metric-client/src/data/skeleton_metrics.cpp:171-189 | a convention missing from the document gives no joints |
| SkeletonMetrics.NamesRoundTrip | sports-data-metric-client/src/data/skeleton_metrics.cpp:176-183 | a joint's bone names written as an array of strings read back unchanged |
| SkeletonMetrics.JointMappingsRoundTrip | sports-data-metric-client/src/data/skeleton_metrics.cpp:165-186 | a document whose convention holds a joint -> bone names map reads back as exactly that map |
| SkeletonMetrics.SkeletonMetrics.constructor | sports-data-metric-client/src/data/skeleton_metrics.cpp:11-14 | nothing is selected (id 0), no definitions, no convention, empty maps |
| SkeletonMetrics.FrameMetrics | sports-data-metric-client/src/data/skeleton_metrics.cpp:16-51 | the specification of computeMetricsForFrame: empty for -1, else the definitions on the first skeleton; ComputeMetricsForFrame is proved to compute it and OnlyFirstSkeleton, ApplyDefinitionsKeys and LastDefinitionWins state its properties |
| SkeletonMetrics.SkeletonMetrics.ComputeMetricsForFrame | sports-data-metric-client/src/data/skeleton_metrics.cpp:16-51 | the result is FrameMetrics; with no subject (-1) it is the empty result; otherwise its id is the frame number and its labels are those the definitions write |
| SkeletonMetrics.SkeletonMetrics.CreateInverseMaps | sports-data-metric-client/src/data/skeleton_metrics.cpp:102-116 | skeleton names map back to their ids and old entries stay; each skeleton's bone reverse map is rebuilt and replaces the old one; skeletons with no bones keep theirs |
| SkeletonMetrics.SkeletonMetrics.SetSkeletonMap | sports-data-metric-client/src/data/skeleton_metrics.cpp:118-120 | the skeleton map is replaced |
| SkeletonMetrics.SkeletonMetrics.SetBoneMap | sports-data-metric-client/src/data/skeleton_metrics.cpp:122-124 | the bone map is replaced |
| SkeletonMetrics.SkeletonMetrics.SetAsset | sports-data-metric-client/src/data/skeleton_metrics.cpp:126-135 | a known name selects its id; an unknown name deselects (-1) |
| SkeletonMetrics.SkeletonMetrics.LoadConfiguration | sports-data-metric-client/src/data/skeleton_metrics.cpp:145-189 | it succeeds exactly when the document parses; a parse error keeps the old joints; otherwise the joints are replaced by those of the current convention |
| SkeletonMetrics.SkeletonMetrics.SetNamingConvention | sports-data-metric-client/src/data/skeleton_metrics.cpp:137-143 | the convention is stored and the joints reloaded for it |
| SkeletonMetrics.SkeletonMetrics.SetMetricSettings | sports-data-metric-client/src/data/skeleton_metrics.cpp:191-194 | the definitions are replaced |
| SkeletonMetrics.EvaluateDefinition | sports-data-metric-client/src/data/skeleton_metrics.cpp:28-47 | one pass of the definition loop computes ApplyDefinition |
| DataProcessor.WindowHoldsLastTwo | sports-data-metric-client/src/data/data_processor.cpp:19-44 | after a run of frames the window holds the last frame and the one before it, and is full exactly from the second frame on |
| DataProcessor.MetricsFromThirdFrame | sports-data-metric-client/src/data/data_processor.cpp:19-44 | the first two frames compute nothing, and every later frame computes exactly one result |
| DataProcessor.ComputedFromLastThree | sports-data-metric-client/src/data/data_processor.cpp:19-44 | a computed frame's metrics use that frame and the two frames before it |
| DataProcessor.DataProcessor.constructor | sports-data-metric-client/src/data/data_processor.cpp:8-16 | the window is empty and nothing has been computed or sent |
| DataProcessor.DataProcessor.OnFramesUpdated | sports-data-metric-client/src/data/data_processor.cpp:19-44 | the window always moves on by the frame; a frame arriving at a full window adds the rigid-body and skeleton metrics of that frame over the window; otherwise nothing is computed |
| DataProcessor.DataProcessor.ReceiveMaps | sports-data-metric-client/src/data/data_processor.cpp:46-65 | both calculators store the forward maps, rebuild their reverse maps, and the reverse maps are sent on |
| DataProcessor.DataProcessor.ReceiveAssets | sports-data-metric-client/src/data/data_processor.cpp:67-74 | each asset name goes to its calculator: the skeleton deselects an unknown name (-1) and the rigid body selects 0 |
| DataProcessor.DataProcessor.ReceiveNamingConvention | sports-data-metric-client/src/data/data_processor.cpp:76-79 | the skeleton calculator stores the convention and reloads its joints |
| DataProcessor.DataProcessor.ReceiveMetricSettings | sports-data-metric-client/src/data/data_processor.cpp:81-86 | both definition lists are replaced |
| ReplayController.IntervalFor | sports-data-metric-client/src/data/replay_controller.cpp:85-90 | the truncated interval 1 / (percent / 100) is the whole number of milliseconds not above 100 / percent |
| ReplayController.Playspeed | sports-data-metric-client/src/data/replay_controller.cpp:89 | the percentage a playspeed text reads as after removing "%"; PlayspeedIntervals gives the six panel choices |
| ReplayController.PlayspeedIntervals | sports-data-metric-client/src/data/replay_controller.cpp:85-90 | the playspeed texts 100%, 50%, 25%, 12.5%, 10% and 5% read as those percentages and give 1, 2, 4, 8, 10 and 20 ms |
| ReplayController.FasterNeverSlower | sports-data-metric-client/src/data/replay_controller.cpp:85-90 | a faster playspeed never gives a longer interval |
| ReplayController.ReadBodies | sports-data-metric-client/src/data/replay_controller.cpp:168-185 | the rigid-body loop of parseFrames reads each element with ParseBody, in order |
| ReplayController.ReadSkeletons | sports-data-metric-client/src/data/replay_controller.cpp:187-209 | the skeleton loop reads each skeleton and its bones, in order |
| ReplayController.ReadFrames | sports-data-metric-client/src/data/replay_controller.cpp:156-218 | the frame loop reads each frame, in order |
| ReplayController.ReadPairs | sports-data-metric-client/src/data/replay_controller.cpp:259-266 | a bone pair is read only from an array of exactly two elements |
| ReplayController.ReadVectors | sports-data-metric-client/src/data/replay_controller.cpp:275-282 | a marker offset is read only from an array of exactly three elements |
| ReplayController.ReadGLAssets | sports-data-metric-client/src/data/replay_controller.cpp:249-294 | the skeleton pairs and rigid-body offsets are read as ParseGLAssets states |
| ReplayController.ReadSkeletonPairs | sports-data-metric-client/src/data/replay_controller.cpp:255-266 | the loop reads one pair list per skeleton, in order, keeping only the two-element pairs |
| ReplayController.ReadOffsets | sports-data-metric-client/src/data/replay_controller.cpp:269-284 | the loop reads one body id and its three-element marker offsets per entry, in order |
| ReplayController.ReadNameMap | sports-data-metric-client/src/data/replay_controller.cpp:223-233 | every key, read as an int, maps to its text |
| ReplayController.ReadBoneMap | sports-data-metric-client/src/data/replay_controller.cpp:235-244 | each skeleton key's object is read as one id-to-name map |
| ReplayController.WriteNameMap | sports-data-metric-client/src/data/replay_controller.cpp:321-331 | each id is written under its decimal text with its name |
| ReplayController.WriteBoneMap | sports-data-metric-client/src/data/replay_controller.cpp:333-341 | each skeleton's bone map is written under its decimal id |
| ReplayController.WriteBodies | sports-data-metric-client/src/data/replay_controller.cpp:354-368 | each rigid body is written as id, position [x, y, z] and orientation [x, y, z, scalar] |
| ReplayController.WriteSkeletons | sports-data-metric-client/src/data/replay_controller.cpp:370-394 | each skeleton is written with its bones |
| ReplayController.WriteFrames | sports-data-metric-client/src/data/replay_controller.cpp:345-397 | the first count frames are written, in order |
| ReplayController.WritePairs | sports-data-metric-client/src/data/replay_controller.cpp:408-414 | one skeleton's bone pairs are written in order, each as a two-element array |
| ReplayController.WriteSkeletonPairs | sports-data-metric-client/src/data/replay_controller.cpp:406-417 | each skeleton's bone pairs are written as two-element arrays |
| ReplayController.WriteVectors | sports-data-metric-client/src/data/replay_controller.cpp:426-429 | one body's marker offsets are written in order, each as a three-element array |
| ReplayController.WriteOffsets | sports-data-metric-client/src/data/replay_controller.cpp:419-431 | each rigid body's marker offsets are written as three-element arrays |
| ReplayController.ReplayController.constructor | sports-data-metric-client/src/data/replay_controller.cpp:14-18 | no frames, index 0, not replaying, not recording, interval 1 ms |
| ReplayController.ReplayController.SetOpenGLWidget | sports-data-metric-client/src/data/replay_controller.cpp:71-73 | a renderer is set |
| ReplayController.ReplayController.SetSavedFrames | sports-data-metric-client/src/data/replay_controller.cpp:20-24 | the frames are replaced and the index reset |
| ReplayController.ReplayController.StartReplay | sports-data-metric-client/src/data/replay_controller.cpp:26-38 | with no frames nothing happens; otherwise the replay restarts at frame 0 and the first step is scheduled at once |
| ReplayController.ReplayController.StopReplay | sports-data-metric-client/src/data/replay_controller.cpp:40-44 | the replay stops |
| ReplayController.ReplayController.EmitNextFrame | sports-data-metric-client/src/data/replay_controller.cpp:46-65 | past the end, or once stopped, the replay stops and sends nothing; otherwise the next frame is sent, the index moves on, and the next step is scheduled after max(0, interval - elapsed); when no load has intervened during the run, a finished run has sent exactly the saved frames |
| ReplayController.ReplayController.RecordStream | sports-data-metric-client/src/data/replay_controller.cpp:75-78 | the recording flag is set |
| ReplayController.ReplayController.RecordReplay | sports-data-metric-client/src/data/replay_controller.cpp:80-83 | the recording flag is set |
| ReplayController.ReplayController.ParseIdMaps | sports-data-metric-client/src/data/replay_controller.cpp:220-247 | the rigid-body, skeleton and bone maps are read and sent on together |
| ReplayController.ReplayController.ParseFrames | sports-data-metric-client/src/data/replay_controller.cpp:156-218 | the saved frames are replaced by the frames read |
| ReplayController.ReplayController.ParseGLAssets | sports-data-metric-client/src/data/replay_controller.cpp:249-294 | the assets reach the renderer only when one is set |
| ReplayController.ReplayController.LoadDocument | sports-data-metric-client/src/data/replay_controller.cpp:100-104 | from a take object, one set of id maps is added, the frames are replaced by the parsed frames, the assets are applied only when a renderer is set, and the ready signal for the take's kind is sent |
| ReplayController.ReplayController.LoadTake | sports-data-metric-client/src/data/replay_controller.cpp:85-127 | the interval comes from the playspeed even when the file cannot be read; a missing or non-object file changes nothing else; otherwise maps, frames and assets are loaded and readiness is signalled |
| ReplayController.ReplayController.SaveTake | sports-data-metric-client/src/data/replay_controller.cpp:313-465 | the document holds the maps, the frames before the current index and the assets; recording ends |
| ReplayController.ReplayController.SaveStream | sports-data-metric-client/src/data/replay_controller.cpp:296-303 | when recording, the streamed frames become the saved frames and are all written; otherwise nothing changes |
| ReplayController.ReplayController.SaveReplay | sports-data-metric-client/src/data/replay_controller.cpp:305-311 | the replay stops; when recording, the frames replayed so far are written |
| ReplayController.SavedReplayHoldsReplayed | sports-data-metric-client/src/data/replay_controller.cpp:26-65 | while a replay runs, the frames a save would write are exactly the frames sent in the current run |
| TakeJson.VectorJson | sports-data-metric-client/src/data/replay_controller.cpp:360-361 | a position as [x, y, z]; PositionFrom reads it back (BodyRoundTrip) |
| TakeJson.OrientationJson | sports-data-metric-client/src/data/replay_controller.cpp:363-364 | an orientation as [x, y, z, scalar]; OrientationFrom reads it back with the scalar first (BodyRoundTrip) |
| TakeJson.BodyJson | sports-data-metric-client/src/data/replay_controller.cpp:356-366 | a body as id, parentId, position and orientation; BodyRoundTrip proves ParseBody reads it back for 32-bit ids |
| TakeJson.PositionFrom | sports-data-metric-client/src/data/replay_controller.cpp:175-177 | exactly a three-element array sets the position, else the origin stays (MalformedArraysKeepDefaults) |
| TakeJson.OrientationFrom | sports-data-metric-client/src/data/replay_controller.cpp:179-181 | exactly a four-element array sets the orientation, scalar last, else the identity stays (MalformedArraysKeepDefaults) |
| TakeJson.ParseBody | sports-data-metric-client/src/data/replay_controller.cpp:170-183 | a body read from its object; BodyRoundTrip proves it inverts BodyJson |
| TakeJson.BodyRoundTrip | sports-data-metric-client/src/data/replay_controller.cpp:168-185 | a rigid body written by saveTake reads back unchanged (with 32-bit ids) |
| TakeJson.BodiesJson | sports-data-metric-client/src/data/replay_controller.cpp:354-368 | one object per body, in order; BodiesRoundTrip proves ParseBodies reads them back |
| TakeJson.ParseBodies | sports-data-metric-client/src/data/replay_controller.cpp:168-184 | one body per element, in order |
| TakeJson.BodiesRoundTrip | sports-data-metric-client/src/data/replay_controller.cpp:168-185 | a list of rigid bodies reads back unchanged |
| TakeJson.SkeletonJson | sports-data-metric-client/src/data/replay_controller.cpp:372-390 | a skeleton as its id and bones; SkeletonRoundTrip proves ParseSkeleton reads it back |
| TakeJson.ParseSkeleton | sports-data-metric-client/src/data/replay_controller.cpp:189-211 | a skeleton read from its id and bones |
| TakeJson.SkeletonRoundTrip | sports-data-metric-client/src/data/replay_controller.cpp:187-209 | a skeleton reads back unchanged |
| TakeJson.SkeletonsJson | sports-data-metric-client/src/data/replay_controller.cpp:370-392 | one object per skeleton, in order; SkeletonsRoundTrip proves ParseSkeletons reads them back |
| TakeJson.ParseSkeletons | sports-data-metric-client/src/data/replay_controller.cpp:187-212 | one skeleton per element, in order |
| TakeJson.SkeletonsRoundTrip | sports-data-metric-client/src/data/replay_controller.cpp:187-209 | a list of skeletons reads back unchanged |
| TakeJson.FrameJson | sports-data-metric-client/src/data/replay_controller.cpp:348-394 | a frame as number, timestamp, bodies and skeletons; FrameRoundTrip proves ParseFrame reads it back |
| TakeJson.ParseFrame | sports-data-metric-client/src/data/replay_controller.cpp:161-214 | a frame read from its object |
| TakeJson.FrameRoundTrip | sports-data-metric-client/src/data/replay_controller.cpp:160-215 | a frame reads back unchanged |
| TakeJson.FramesJson | sports-data-metric-client/src/data/replay_controller.cpp:345-397 | one object per frame, in order; FramesRoundTrip proves ParseFrameList reads them back |
| TakeJson.ParseFrameList | sports-data-metric-client/src/data/replay_controller.cpp:156-215 | one frame per element, in order |
| TakeJson.FramesRoundTrip | sports-data-metric-client/src/data/replay_controller.cpp:156-218 | parseFrames reads back exactly the frames saveTake wrote |
| TakeJson.NameMapJson | sports-data-metric-client/src/data/replay_controller.cpp:321-331 | one decimal key per id holding its name (NameMapEntry); NameMapRoundTrip proves parseIdMaps reads the map back |
| TakeJson.NameMapEntry | sports-data-metric-client/src/data/replay_controller.cpp:321-331 | the written object has a key per id, its decimal text, holding the name |
| TakeJson.NameMapReadBack | sports-data-metric-client/src/data/replay_controller.cpp:223-233 | a written key reads back as its id, with its name |
| TakeJson.NameMapRoundTrip | sports-data-metric-client/src/data/replay_controller.cpp:220-247 | parseIdMaps reads back exactly the id-to-name map saveTake wrote |
| TakeJson.BoneMapJson | sports-data-metric-client/src/data/replay_controller.cpp:333-341 | one decimal key per skeleton holding its bone map; BoneMapRoundTrip proves parseIdMaps reads it back |
| TakeJson.BoneMapRoundTrip | sports-data-metric-client/src/data/replay_controller.cpp:235-244 | parseIdMaps reads back exactly the bone maps saveTake wrote |
| TakeJson.PairJson | sports-data-metric-client/src/data/replay_controller.cpp:410-413 | a bone pair as a two-element array |
| TakeJson.PairsJson | sports-data-metric-client/src/data/replay_controller.cpp:408-414 | one two-element array per pair, in order; PairsRoundTrip proves ParsePairs reads them back |
| TakeJson.ParsePairs | sports-data-metric-client/src/data/replay_controller.cpp:259-264 | only two-element arrays become pairs, in order |
| TakeJson.PairsRoundTrip | sports-data-metric-client/src/data/replay_controller.cpp:259-266 | bone pairs read back unchanged |
| TakeJson.VectorsJson | sports-data-metric-client/src/data/replay_controller.cpp:425-427 | one three-element array per marker offset, in order; VectorsRoundTrip proves ParseVectors reads them back |
| TakeJson.ParseVectors | sports-data-metric-client/src/data/replay_controller.cpp:276-281 | only three-element arrays become marker offsets, in order |
| TakeJson.VectorsRoundTrip | sports-data-metric-client/src/data/replay_controller.cpp:275-282 | marker offsets read back unchanged |
| TakeJson.SkeletonPairsJson | sports-data-metric-client/src/data/replay_controller.cpp:406-416 | one pair array per skeleton, in order; SkeletonPairsRoundTrip proves ParseSkeletonPairs reads them back |
| TakeJson.ParseSkeletonPairs | sports-data-metric-client/src/data/replay_controller.cpp:255-266 | one pair list per element, in order |
| TakeJson.SkeletonPairsRoundTrip | sports-data-metric-client/src/data/replay_controller.cpp:255-267 | each skeleton's bone pairs read back unchanged |
| TakeJson.OffsetJson | sports-data-metric-client/src/data/replay_controller.cpp:421-430 | a body's id and marker offsets; OffsetRoundTrip proves ParseOffset reads it back |
| TakeJson.ParseOffset | sports-data-metric-client/src/data/replay_controller.cpp:271-283 | a body's id and its well-formed marker offsets |
| TakeJson.OffsetRoundTrip | sports-data-metric-client/src/data/replay_controller.cpp:270-291 | one rigid body's offsets read back unchanged |
| TakeJson.OffsetsJson | sports-data-metric-client/src/data/replay_controller.cpp:419-431 | one object per body, in order; OffsetsRoundTrip proves ParseOffsets reads them back |
| TakeJson.ParseOffsets | sports-data-metric-client/src/data/replay_controller.cpp:269-284 | one offsets record per element, in order |
| TakeJson.OffsetsRoundTrip | sports-data-metric-client/src/data/replay_controller.cpp:269-291 | the offsets of all rigid bodies read back unchanged |
| TakeJson.GLAssetsJson | sports-data-metric-client/src/data/replay_controller.cpp:405-439 | the pairs and offsets under "skeletons" and "rbOffsets"; GLAssetsRoundTrip proves ParseGLAssets reads them back |
| TakeJson.ParseGLAssets | sports-data-metric-client/src/data/replay_controller.cpp:249-284 | the assets read from "skeletons" and "rbOffsets" |
| TakeJson.GLAssetsRoundTrip | sports-data-metric-client/src/data/replay_controller.cpp:249-294 | parseGLAssets reads back exactly the assets saveTake wrote |
| TakeJson.TakeDocument | sports-data-metric-client/src/data/replay_controller.cpp:313-439 | the saved take: the three maps, the frames and the assets (TakeFields); TakeRoundTrip proves loading it gives them back |
| TakeJson.TakeFields | sports-data-metric-client/src/data/replay_controller.cpp:313-439 | the take document's five keys hold the maps, the frames and the assets |
| TakeJson.TakeRoundTrip | sports-data-metric-client/src/data/replay_controller.cpp:85-127 | loading a saved take gives back its maps, frames and assets |
| TakeJson.MalformedArraysKeepDefaults | sports-data-metric-client/src/data/replay_controller.cpp:175-183 | a position or orientation array of the wrong length leaves the default origin or identity |
| NatNetConnection.FrameOfUnique | sports-data-metric-client/src/connection/natnet_connection.cpp:203-258 | the conversion of one SDK frame is unique |
| NatNetConnection.ConvertBodies | sports-data-metric-client/src/connection/natnet_connection.cpp:214-227 | each streamed rigid body becomes a FrameData body, in SDK order, with its quaternion built scalar first |
| NatNetConnection.ConvertFrame | sports-data-metric-client/src/connection/natnet_connection.cpp:203-258 | the frame keeps the SDK number and timestamp, and converts its rigid bodies and skeletons one by one |
| NatNetConnection.BufferedKeepsNoRepeats | sports-data-metric-client/src/connection/natnet_connection.cpp:203-269 | buffering never puts two frames with the same number next to each other |
| NatNetConnection.RepeatedFrameBufferedOnce | sports-data-metric-client/src/connection/natnet_connection.cpp:207-212 | the same SDK frame delivered twice in a row is buffered once |
| NatNetConnection.NameBonesKeeps | sports-data-metric-client/src/connection/natnet_connection.cpp:175-183 | naming a skeleton's bones keeps the existing entries and adds each bone id |
| NatNetConnection.DescribeKeepsEntries | sports-data-metric-client/src/connection/natnet_connection.cpp:145-196 | processing descriptors never removes a name |
| NatNetConnection.DescribeNamesEvery | sports-data-metric-client/src/connection/natnet_connection.cpp:149-186 | every described rigid body, skeleton and skeleton bone ends up in its map |
| NatNetConnection.DescribeIgnoresOthers | sports-data-metric-client/src/connection/natnet_connection.cpp:149-186 | descriptors of other types change nothing |
| NatNetConnection.NatNetConnection.constructor | sports-data-metric-client/src/connection/natnet_connection.h:121-125 | no frames, no names, multicast, not connected, no callbacks |
| NatNetConnection.NatNetConnection.SetFrameUpdateCallback | sports-data-metric-client/src/connection/natnet_connection.cpp:296-299 | a frame callback is registered |
| NatNetConnection.NatNetConnection.SetAssetUpdateCallback | sports-data-metric-client/src/connection/natnet_connection.cpp:301-304 | an asset callback is registered |
| NatNetConnection.NatNetConnection.ProcessFrameData | sports-data-metric-client/src/connection/natnet_connection.cpp:203-269 | a frame repeating the last buffered number is dropped, any other appended; the callback runs once per appended frame when registered |
| NatNetConnection.NatNetConnection.LatestFrame | sports-data-metric-client/src/connection/natnet_connection.cpp:276-279 | the last buffered frame, or the default frame when there is none |
| NatNetConnection.NatNetConnection.ProcessDataDescriptions | sports-data-metric-client/src/connection/natnet_connection.cpp:145-196 | the name maps become the descriptors applied in order; the asset callback runs once when registered |
| NatNetConnection.NatNetConnection.SetConnectionType | sports-data-metric-client/src/connection/natnet_connection.cpp:316-325 | "Multicast" and "Unicast" select their type; any other text keeps the old one |
| Frames.AddReversed | sports-data-metric-client/src/data/rigid_body_metrics.cpp:117-122 | every forward name maps back to one of its ids in the reverse map, which is not cleared first |
| MeshGenerator.CylinderPositionsShape | sports-data-metric-client/src/rendering/meshGenerator.cpp:37-45 | the cylinder has two vertices per segment, bottom (y = -0.5) and top (y = 0.5) at the segment's angle, with outward horizontal normals |
| MeshGenerator.CylinderQuadInRange | sports-data-metric-client/src/rendering/meshGenerator.cpp:47-60 | one segment's two triangles index vertices below 2 * segments, wrapping round at the last segment |
| MeshGenerator.CylinderIndicesInRange | sports-data-metric-client/src/rendering/meshGenerator.cpp:47-60 | six indices per segment, all below the vertex count |
| MeshGenerator.CylinderMeshShape | sports-data-metric-client/src/rendering/meshGenerator.cpp:30-61 | the whole cylinder: 2n vertices and normals, 6n indices, every index names a vertex |
| MeshGenerator.GenerateCylinder | sports-data-metric-client/src/rendering/meshGenerator.cpp:30-61 | the loops build exactly the specified positions, normals and indices |
| MeshGenerator.SphereRingLength | sports-data-metric-client/src/rendering/meshGenerator.cpp:70-80 | each latitude ring has slices + 1 vertices |
| MeshGenerator.SpherePositionsLength | sports-data-metric-client/src/rendering/meshGenerator.cpp:70-80 | the sphere has (stacks + 1) * (slices + 1) vertices |
| MeshGenerator.SphereQuadInRange | sports-data-metric-client/src/rendering/meshGenerator.cpp:82-94 | one quad's two triangles index vertices below (stacks + 1) * (slices + 1) |
| MeshGenerator.SphereBandInRange | sports-data-metric-client/src/rendering/meshGenerator.cpp:82-94 | six indices per quad of a band, all in range |
| MeshGenerator.SphereIndicesInRange | sports-data-metric-client/src/rendering/meshGenerator.cpp:82-94 | 6 * stacks * slices indices, all in range |
| MeshGenerator.SphereMeshShape | sports-data-metric-client/src/rendering/meshGenerator.cpp:63-95 | the whole sphere: vertex and index counts, every index names a vertex |
| MeshGenerator.GenerateSphere | sports-data-metric-client/src/rendering/meshGenerator.cpp:63-95 | the loops build exactly the specified positions and indices, and the normals are the positions |
| MeshGenerator.Wireframe | sports-data-metric-client/src/rendering/meshGenerator.cpp:22-28 | the mesh keeps the points and line indices and gives every point the normal (0, 1, 0) |
| GLWidget.BoneIndex | sports-data-metric-client/src/rendering/glwidget.cpp:404-408 | the bone-id map's lookup: the index of the last bone with that id, or -1 when no bone has it |
| GLWidget.IndexById | sports-data-metric-client/src/rendering/glwidget.cpp:404-408 | the map built by the loop holds exactly the ids of the skeleton, each mapped to its last bone |
| GLWidget.PairsUpToExact | sports-data-metric-client/src/rendering/glwidget.cpp:410-422 | after n bones, a (parent, child) pair is listed exactly when the child's parent id is not -1 and names a bone, that bone being the parent; children in increasing order |
| GLWidget.BonePairsExact | sports-data-metric-client/src/rendering/glwidget.cpp:410-422 | the pairs of a whole skeleton, stated over bone ids: both directions of the membership, children increasing |
| GLWidget.SkeletonBonePairs | sports-data-metric-client/src/rendering/glwidget.cpp:404-422 | the two loops build exactly the skeleton's bone pairs |
| GLWidget.OffsetsFrom | sports-data-metric-client/src/rendering/glwidget.cpp:438-446 | one offset per marker, and adding the centroid back to an offset gives the marker |
| GLWidget.Centroid | sports-data-metric-client/src/rendering/glwidget.cpp:429-436 | the mean marker position; MarkerOffsetsCentred proves the offsets from it sum to the origin |
| GLWidget.OffsetsFromSum | sports-data-metric-client/src/rendering/glwidget.cpp:429-446 | the offsets from c sum to the markers' sum less n times c |
| GLWidget.MarkerOffsetsCentred | sports-data-metric-client/src/rendering/glwidget.cpp:429-446 | one offset per marker, and the offsets from the centroid sum to the origin |
| GLWidget.ComputeOffsets | sports-data-metric-client/src/rendering/glwidget.cpp:427-448 | the loops over the markers build the body's id and its marker offsets from the centroid |
| GLWidget.SceneBones | sports-data-metric-client/src/rendering/glwidget.cpp:395-424 | one pair list per skeleton description, in order, each the bone pairs of that skeleton |
| GLWidget.SceneOffsets | sports-data-metric-client/src/rendering/glwidget.cpp:425-449 | one offsets record per rigid-body description, in order, with its id and centred offsets |
| GLWidget.Resized | sports-data-metric-client/src/rendering/glwidget.cpp:386 | QVector::resize: n lists, the existing ones kept and the new ones empty |
| GLWidget.SceneBonesAsWritten | sports-data-metric-client/src/rendering/glwidget.cpp:386-424 | as written, a reload appends each skeleton's pairs to the list it already had |
| GLWidget.FirstInitAsWrittenIsFresh | sports-data-metric-client/src/rendering/glwidget.cpp:386-424 | the first load, from no lists, gives exactly the scene's bone pairs |
| GLWidget.SecondInitDuplicatesPairs | sports-data-metric-client/src/rendering/glwidget.cpp:386-424 | a second load of a two-bone skeleton lists its one pair twice |
| GLWidget.SecondInitIsIdempotent | sports-data-metric-client/src/rendering/glwidget.cpp:386-424 | a load gives the scene's pairs from scratch, and from earlier lists exactly when those lists are empty |
| GLWidget.FirstSeenDistinct | sports-data-metric-client/src/rendering/glwidget.cpp:456-489 | the joints added keep the first reference to each bone index: every index once, none new |
| GLWidget.SkeletonRefsCount | sports-data-metric-client/src/rendering/glwidget.cpp:469-479 | two bone points per pair |
| GLWidget.SkeletonDataShape | sports-data-metric-client/src/rendering/glwidget.cpp:454-492 | the bone data holds two points per pair, the joint data one point per distinct bone index |
| GLWidget.DistinctIndicesCount | sports-data-metric-client/src/rendering/glwidget.cpp:480-489 | references with distinct indices count their index set |
| GLWidget.RotatedByIdentity | sports-data-metric-client/src/rendering/glwidget.cpp:580-587 | rotating by the identity quaternion leaves an offset unchanged |
| GLWidget.WorldPoints | sports-data-metric-client/src/rendering/glwidget.cpp:586-589 | one world point per offset: the body's position plus the offset rotated by its orientation |
| GLWidget.FirstWithId | sports-data-metric-client/src/rendering/glwidget.cpp:568-576 | the first body with that id, or -1 when none has it |
| GLWidget.LineIndices | sports-data-metric-client/src/rendering/glwidget.cpp:594-599 | the index list holds each pair's two indices, in pair order |
| GLWidget.AllPairsExact | sports-data-metric-client/src/rendering/glwidget.cpp:594-599 | the pairs are exactly those with i < j < n, there are n(n-1)/2 of them, and every index is below n |
| GLWidget.RigidBodyMeshesShape | sports-data-metric-client/src/rendering/glwidget.cpp:551-605 | one mesh per offsets record whose body is in the frame; each mesh is of a body in the frame, has a normal per point and indices that name its points |
| GLWidget.Bound | sports-data-metric-client/src/rendering/glwidget.cpp:112 | qBound: the value inside the range, the nearer end outside it |
| GLWidget.GLWidget.constructor | sports-data-metric-client/src/rendering/glwidget.h:200-207 | no bone lists or offsets, not ready, the default frame, zoom 1, yaw and pitch 0, no drag |
| GLWidget.GLWidget.InitializeCamera | sports-data-metric-client/src/rendering/glwidget.cpp:226-228 | zoom 4, yaw 30, pitch 20, within the camera bounds |
| GLWidget.GLWidget.GetAssets | sports-data-metric-client/src/rendering/glwidget.cpp:26-29 | the assets are the current bone lists and offsets |
| GLWidget.GLWidget.SetAssets | sports-data-metric-client/src/rendering/glwidget.cpp:31-38 | the bone lists and offsets become the assets' and the scene is ready |
| GLWidget.GLWidget.OnFramesUpdated | sports-data-metric-client/src/rendering/glwidget.cpp:354-362 | the latest frame is the one received |
| GLWidget.GLWidget.InitSceneDescriptions | sports-data-metric-client/src/rendering/glwidget.cpp:364-451 | without descriptions nothing changes; with them the bone lists and offsets are the scene's, rebuilt from scratch |
| GLWidget.GLWidget.PaintInit | sports-data-metric-client/src/rendering/glwidget.cpp:309-328 | the scene is drawn when it was ready or descriptions exist; a first load builds the scene and marks it ready; otherwise nothing changes |
| GLWidget.GLWidget.PrepareSkeletonData | sports-data-metric-client/src/rendering/glwidget.cpp:454-492 | bone data gains both points of every pair of every skeleton in the frame; joint data gains the first point for each new bone index |
| GLWidget.GLWidget.PrepareRigidBodies | sports-data-metric-client/src/rendering/glwidget.cpp:551-605 | the meshes are exactly the specified rigid-body meshes, in offsets order |
| GLWidget.GLWidget.MousePress | sports-data-metric-client/src/rendering/glwidget.cpp:59-75 | the right button starts rotating, the middle button starts panning, the left button changes nothing |
| GLWidget.GLWidget.MouseRelease | sports-data-metric-client/src/rendering/glwidget.cpp:125-137 | the right button stops rotating, the middle button stops panning |
| GLWidget.GLWidget.MouseMove | sports-data-metric-client/src/rendering/glwidget.cpp:77-123 | rotation moves yaw by -dx times the speed and pitch by dy times the speed, clamped to ±89; panning or no drag leaves them; the bounds are kept |
| GLWidget.GLWidget.Wheel | sports-data-metric-client/src/rendering/glwidget.cpp:139-152 | zoom divided by the step and clamped to [0.1, 10]; a zoom-in step never increases it; the bounds are kept |
| GLWidget.FindBody | sports-data-metric-client/src/rendering/glwidget.cpp:568-576 | the index found is the position of the first body with the id, or -1 when no body has it |
| GLWidget.BodyWorldPoints | sports-data-metric-client/src/rendering/glwidget.cpp:586-589 | the points are the body's marker offsets, each rotated by the body's orientation and moved by its position, in order |
| GraphWidget.WindowYs | sports-data-metric-client/src/widgets/graphwidget.cpp:94-99 | the y values taken into the range are exactly those whose x lies in the scrolled window |
| GraphWidget.ExtremesAreBounds | sports-data-metric-client/src/widgets/graphwidget.cpp:91-99 | over accepted values the loop yields the least and greatest of them, and an empty range (min > max) for none |
| GraphWidget.YRangeContainsWindow | sports-data-metric-client/src/widgets/graphwidget.cpp:91-114 | the plot's y range is never inverted, holds every in-window y, and stays a proper interval after padding |
| GraphWidget.GraphWidget.constructor | sports-data-metric-client/src/widgets/graphwidget.h:23-27 | no data and a zero scroll offset |
| GraphWidget.GraphWidget.AddData | sports-data-metric-client/src/widgets/graphwidget.cpp:16-36 | NaN and values beyond ±1e6 are ignored; an x before the last restarts the series; the point is appended and the window scrolls to show it |
| GraphWidget.GraphWidget.GetData | sports-data-metric-client/src/widgets/graphwidget.cpp:38-44 | the x series followed by the y series |
| GraphWidget.GraphWidget.PaintRange | sports-data-metric-client/src/widgets/graphwidget.cpp:86-114 | no range without data; otherwise the padded range of the in-window y values |
| FileUtils.LoadJson | sports-data-metric-client/src/utils/fileutils.cpp:13-37 | the root object of a document that opens, parses and is an object; an empty object for an unopenable file, a parse error or a non-object document |
| FileUtils.ObjectsOf | sports-data-metric-client/src/utils/fileutils.cpp:47-51 | the object elements of the array, and only those |
| FileUtils.NamesOf | sports-data-metric-client/src/utils/fileutils.cpp:60-64 | the string names of the sports that have one, and only those |
| FileUtils.SportsOfDocument | sports-data-metric-client/src/utils/fileutils.cpp:39-67 | no "sports" array gives no sports and no names; otherwise the sports are its objects and the names theirs |
| FileUtils.FirstWithSettings | sports-data-metric-client/src/utils/fileutils.cpp:73-79 | the first sport with that name and an array under the metric type, or -1 when none has both |
| FileUtils.SettingsSkipSportsWithoutArray | sports-data-metric-client/src/utils/fileutils.cpp:69-82 | an earlier sport of that name without the array does not stop the search: the first sport with both supplies the settings |
| FileUtils.ParseSportObjects | sports-data-metric-client/src/utils/fileutils.cpp:39-53 | the loop keeps exactly the object elements of the "sports" array |
| FileUtils.ParseSportTypes | sports-data-metric-client/src/utils/fileutils.cpp:55-67 | the loop collects the sport names |
| FileUtils.ParseSportMetricSettings | sports-data-metric-client/src/utils/fileutils.cpp:69-82 | the loop returns the first matching sport's array, or an empty array |
| PathPlannerWidget.Removed | qt-drone-ui/src/widgets/pathplannerwidget.cpp:413 | QVector::removeAt: one element fewer, those before the index unchanged, those after moved down by one |
| PathPlannerWidget.RemovalKeepsSelection | qt-drone-ui/src/widgets/pathplannerwidget.cpp:412-420 | removing the selected waypoint clears the selection; removing another leaves the selection naming the same waypoint; no selection stays none |
| PathPlannerWidget.ScreenToWorld | qt-drone-ui/src/widgets/pathplannerwidget.cpp:372-379 | the click lands on the ground plane at the given depth |
| PathPlannerWidget.ClickedPointIsHit | qt-drone-ui/src/widgets/pathplannerwidget.cpp:372-396 | a waypoint added by a click is hit by that same click |
| PathPlannerWidget.LeadingSpaces | qt-drone-ui/src/widgets/pathplannerwidget.cpp:670 | the length of the run of whitespace at the front |
| PathPlannerWidget.TrailingSpaces | qt-drone-ui/src/widgets/pathplannerwidget.cpp:670 | the length of the run of whitespace at the back |
| PathPlannerWidget.TrimmedShape | qt-drone-ui/src/widgets/pathplannerwidget.cpp:670 | the trimmed name is empty exactly when the text is all whitespace, otherwise it starts and ends with a non-space character of the text |
| PathPlannerWidget.SaveName | qt-drone-ui/src/widgets/pathplannerwidget.cpp:670-673 | the saved name is never empty |
| PathPlannerWidget.PathLength | qt-drone-ui/src/widgets/pathplannerwidget.cpp:786-791 | fewer than two waypoints give length 0 |
| PathPlannerWidget.DistanceFacts | qt-drone-ui/src/widgets/pathplannerwidget.cpp:789 | a distance is non-negative and zero between equal points |
| PathPlannerWidget.PathLengthNonNegative | qt-drone-ui/src/widgets/pathplannerwidget.cpp:786-791 | the path length is never negative |
| PathPlannerWidget.StationaryPathLength | qt-drone-ui/src/widgets/pathplannerwidget.cpp:786-791 | a path that never moves has length 0 |
| PathPlannerWidget.ComputePathLength | qt-drone-ui/src/widgets/pathplannerwidget.cpp:786-791 | the loop sums exactly the consecutive distances |
| PathPlannerWidget.PlannerView.constructor | qt-drone-ui/src/widgets/pathplannerwidget.cpp:39-52 | no waypoints and no selection |
| PathPlannerWidget.PlannerView.SetWaypoints | qt-drone-ui/src/widgets/pathplannerwidget.cpp:398-402 | the waypoints are replaced, the selection kept |
| PathPlannerWidget.PlannerView.AddWaypoint | qt-drone-ui/src/widgets/pathplannerwidget.cpp:404-408 | the point is appended, the earlier waypoints and the selection kept |
| PathPlannerWidget.PlannerView.RemoveWaypoint | qt-drone-ui/src/widgets/pathplannerwidget.cpp:410-421 | an index out of range changes nothing; otherwise exactly that waypoint goes and the selection follows |
| PathPlannerWidget.PlannerView.ClearWaypoints | qt-drone-ui/src/widgets/pathplannerwidget.cpp:423-428 | no waypoints and no selection |
| PathPlannerWidget.PlannerView.SetSelectedWaypoint | qt-drone-ui/src/widgets/pathplannerwidget.cpp:430-434 | the selection is the index, the waypoints kept |
| PathPlannerWidget.PlannerView.FindWaypointAt | qt-drone-ui/src/widgets/pathplannerwidget.cpp:381-396 | the first waypoint whose projection is within Manhattan distance 20 of the click, or -1 when none is |
| PathPlannerWidget.PlannerView.LeftClick | qt-drone-ui/src/widgets/pathplannerwidget.cpp:317-334 | a click on a waypoint selects the first waypoint it hits and emits waypointSelected with that index; a Control-click that hits none appends the ground point and emits waypointAdded with it; any other click changes nothing and emits nothing |
| PathPlannerWidget.PathPlannerWidget.constructor | qt-drone-ui/src/widgets/pathplannerwidget.cpp:437-458 | an empty view, no selection in panel, view or list, animation at waypoint 0 with no progress, not playing |
| PathPlannerWidget.PathPlannerWidget.OnWaypointSelected | qt-drone-ui/src/widgets/pathplannerwidget.cpp:694-700 | a row of the list is selected in panel, view and list; any other index leaves the list without a current row, and when it had one, currentRowChanged(-1) re-enters and deselects panel and view; otherwise they hold the index; the waypoints and the animation are kept |
| PathPlannerWidget.PathPlannerWidget.UpdateWaypointList | qt-drone-ui/src/widgets/pathplannerwidget.cpp:769-772 | clear() leaves the list without a current row; when it had one, currentRowChanged(-1) deselects panel and view; otherwise the selections are kept |
| PathPlannerWidget.PathPlannerWidget.OnAddWaypoint | qt-drone-ui/src/widgets/pathplannerwidget.cpp:642-648 | (0, 2, 0) is appended and ends selected in panel, view and list |
| PathPlannerWidget.PathPlannerWidget.OnViewLeftClick | qt-drone-ui/src/widgets/pathplannerwidget.cpp:480-487 | the panel's answer to a click: a hit selects the first hit waypoint in view, panel and list; a Control-click that hits nothing appends the ground point and selects it as the last; any other click changes nothing |
| PathPlannerWidget.PathPlannerWidget.OnRemoveWaypoint | qt-drone-ui/src/widgets/pathplannerwidget.cpp:650-658 | with a selection, that waypoint is removed through the view, the refresh deselects the view when a row was current, and the panel's selection is cleared; without one nothing changes |
| PathPlannerWidget.PathPlannerWidget.OnClearPath | qt-drone-ui/src/widgets/pathplannerwidget.cpp:660-666 | no waypoints and no selection in panel, view or list |
| PathPlannerWidget.PathPlannerWidget.OnSavePath | qt-drone-ui/src/widgets/pathplannerwidget.cpp:668-679 | nothing for an empty path; otherwise the trimmed name, or "Untitled Path", with the waypoints |
| PathPlannerWidget.PathPlannerWidget.OnWaypointPositionChanged | qt-drone-ui/src/widgets/pathplannerwidget.cpp:702-716 | as written: only the selected waypoint is replaced, and only with the selection in range; the list refresh then deselects it in panel and view whenever its row was current, which every valid state has |
| PathPlannerWidget.PathPlannerWidget.OnWaypointPositionChangedKeepingSelection | qt-drone-ui/src/widgets/pathplannerwidget.cpp:702-716 | as intended: the selected waypoint is replaced and stays selected in panel, view and list, so it can be edited again |
| PathPlannerWidget.PathPlannerWidget.OnPlayPath | qt-drone-ui/src/widgets/pathplannerwidget.cpp:724-729 | a stopped planner with waypoints starts playing from waypoint 0 with no progress; otherwise nothing changes |
| PathPlannerWidget.PathPlannerWidget.OnStopPath | qt-drone-ui/src/widgets/pathplannerwidget.cpp:731-736 | playback stops; the animation position is kept |
| PathPlannerWidget.PathPlannerWidget.OnPathAnimationTimer | qt-drone-ui/src/widgets/pathplannerwidget.cpp:738-755 | progress grows by 0.02; on reaching 1 it resets, the waypoint index advances and playback stops past the last waypoint; progress stays in [0, 1) |
| PathPlannerWidget.PathPlannerWidget.LoadPoints | qt-drone-ui/src/widgets/pathplannerwidget.cpp:840-847 | the view shows the points and the first one is selected in panel, view and list when there is one; with no points the refresh deselects panel and view when a row was current |
| RecordedPathsWidget.ToJson | qt-drone-ui/src/widgets/recordedpathswidget.cpp:15-34 | FlightPath::toJson; PathRoundTrip and DocumentRoundTrip prove FlightPath::fromJson reads it back as the same path |
| RecordedPathsWidget.FromJson | qt-drone-ui/src/widgets/recordedpathswidget.cpp:36-56 | one point per element of the "points" array, each read from its x, y and z |
| RecordedPathsWidget.PathRoundTrip | qt-drone-ui/src/widgets/recordedpathswidget.cpp:15-56 | reading back a path's JSON gives the same path |
| RecordedPathsWidget.PathsFromDocument | qt-drone-ui/src/widgets/recordedpathswidget.cpp:269-278 | one path per element of the "paths" array, each read from that element as an object |
| RecordedPathsWidget.DocumentRoundTrip | qt-drone-ui/src/widgets/recordedpathswidget.cpp:283-306 | the saved document is an object, and loading it gives back the saved paths |
| RecordedPathsWidget.RecordedPathsWidget.constructor | qt-drone-ui/src/widgets/recordedpathswidget.cpp:59-86 | no paths and no selection |
| RecordedPathsWidget.RecordedPathsWidget.AddPath | qt-drone-ui/src/widgets/recordedpathswidget.cpp:240-255 | the new path, with that id, name, points and time and no description, is appended and selected |
| RecordedPathsWidget.RecordedPathsWidget.LoadPaths | qt-drone-ui/src/widgets/recordedpathswidget.cpp:257-281 | a read object document replaces the list by its paths; an unreadable or non-object file changes nothing |
| RecordedPathsWidget.RecordedPathsWidget.SelectedPath | qt-drone-ui/src/widgets/recordedpathswidget.cpp:382-388 | the selected path exactly when the index is in range |
| RecordedPathsWidget.RecordedPathsWidget.OnPathSelectionChangedAsWritten | qt-drone-ui/src/widgets/recordedpathswidget.cpp:395-400 | as written: the handler's own list refresh clears the current row and runs it again with row -1, so every selection ends with no path selected |
| RecordedPathsWidget.RecordedPathsWidget.OnPathSelectionChanged | qt-drone-ui/src/widgets/recordedpathswidget.cpp:395-400 | as intended: the list's row becomes the selection, and a row in range selects that path |
| RecordedPathsWidget.RecordedPathsWidget.OnLoadPath | qt-drone-ui/src/widgets/recordedpathswidget.cpp:402-408 | the selected path's points are requested exactly when there is a selected path |
| RecordedPathsWidget.RecordedPathsWidget.OnDeletePath | qt-drone-ui/src/widgets/recordedpathswidget.cpp:410-430 | with a selection and a confirmation exactly that path is removed, the selection cleared and its id reported; otherwise nothing changes |
| RecordedPathsWidget.RecordedPathsWidget.OnImportPath | qt-drone-ui/src/widgets/recordedpathswidget.cpp:454-486 | an object document's path is appended under a new id and selected; otherwise nothing changes |
| RecordedPathsWidget.RecordedPathsWidget.OnEditPath | qt-drone-ui/src/widgets/recordedpathswidget.cpp:488-496 | only the selected path's description changes, and only with a selection |
| RecordedPathsWidget.RecordedPathsWidget.OnDuplicatePath | qt-drone-ui/src/widgets/recordedpathswidget.cpp:498-514 | a copy of the selected path with a new id, " (Copy)" after the name and the current time is appended and selected; without a selection nothing changes |
| RecordedVideosWidget.ToJson | qt-drone-ui/src/widgets/recordedvideoswidget.cpp:18-30 | Recording::toJson writes an object that Recording::fromJson reads back as the same recording |
| RecordedVideosWidget.RecordingRoundTrip | qt-drone-ui/src/widgets/recordedvideoswidget.cpp:18-45 | reading back a recording's JSON restores all eight fields |
| RecordedVideosWidget.RecordingItems | qt-drone-ui/src/widgets/recordedvideoswidget.cpp:309-333 | one JSON object per recording, in order |
| RecordedVideosWidget.KeptRecordings | qt-drone-ui/src/widgets/recordedvideoswidget.cpp:294-303 | only entries whose file exists are kept, each with the size the file has now |
| RecordedVideosWidget.SavedRecordingsReload | qt-drone-ui/src/widgets/recordedvideoswidget.cpp:277-333 | reloading the saved list while every file is still there with its size gives back the same recordings |
| RecordedVideosWidget.KeepSaved | qt-drone-ui/src/widgets/recordedvideoswidget.cpp:294-303 | an entry whose file is still there with its size is kept at the end |
| RecordedVideosWidget.FormatFileSize | qt-drone-ui/src/widgets/recordedvideoswidget.cpp:419-430 | whole bytes under 1 KiB, one decimal of KiB under 1 MiB, one decimal of MiB under 1 GiB, two decimals of GiB above |
| RecordedVideosWidget.SmallSizeRoundTrip | qt-drone-ui/src/widgets/recordedvideoswidget.cpp:421-422 | a size under 1 KiB reads back from its label |
| RecordedVideosWidget.Pad2Reads | qt-drone-ui/src/widgets/recordedvideoswidget.cpp:443-445 | a two-digit padded field reads back as its number |
| RecordedVideosWidget.FormatDuration | qt-drone-ui/src/widgets/recordedvideoswidget.cpp:432-447 | formatDuration: "Unknown" for 0; for a positive length, PositiveDurationText gives its H:MM:SS or M:SS shape and DurationRoundTrip proves the label reads back as the length |
| RecordedVideosWidget.PositiveDurationText | qt-drone-ui/src/widgets/recordedvideoswidget.cpp:432-447 | a positive length is shown as H:MM:SS from one hour on and as M:SS below |
| RecordedVideosWidget.HoursLabelReads | qt-drone-ui/src/widgets/recordedvideoswidget.cpp:438-443 | a label with hours has three fields and reads back as the seconds |
| RecordedVideosWidget.MinutesLabelReads | qt-drone-ui/src/widgets/recordedvideoswidget.cpp:438-445 | a label under one hour has two fields and reads back as the seconds |
| RecordedVideosWidget.DurationRoundTrip | qt-drone-ui/src/widgets/recordedvideoswidget.cpp:432-447 | every positive length whose hours fit an int reads back from its label |
| RecordedVideosWidget.TotalSize | qt-drone-ui/src/widgets/recordedvideoswidget.cpp:360-363 | the storage total of updateRecordingList; TotalSizeAppend and TotalSizeAfterRemoval prove it adds over concatenation and drops by exactly a deleted recording's size, and StorageTotal computes it |
| RecordedVideosWidget.TotalSizeAppend | qt-drone-ui/src/widgets/recordedvideoswidget.cpp:360-363 | the total over two lists is the sum of their totals |
| RecordedVideosWidget.TotalSizeAfterRemoval | qt-drone-ui/src/widgets/recordedvideoswidget.cpp:483-487 | removing a recording lowers the total by exactly its size |
| RecordedVideosWidget.UsagePercent | qt-drone-ui/src/widgets/recordedvideoswidget.cpp:368-370 | the integer percentage of the 10 GiB capacity; UsageWithinCapacity proves it is the floor of the share and lies in [0, 100] within the capacity |
| RecordedVideosWidget.UsageBar | qt-drone-ui/src/widgets/recordedvideoswidget.cpp:371 | the bar never shows more than 100 |
| RecordedVideosWidget.UsageWithinCapacity | qt-drone-ui/src/widgets/recordedvideoswidget.cpp:368-372 | within 10 GiB the percentage is the floor of the share, between 0 and 100, and the bar shows it uncapped |
| RecordedVideosWidget.FileName | qt-drone-ui/src/widgets/recordedvideoswidget.cpp:529 | QFileInfo::fileName: the part after the last '/', a suffix of the path |
| RecordedVideosWidget.BaseName | qt-drone-ui/src/widgets/recordedvideoswidget.cpp:254 | QFileInfo::baseName: a prefix of the file name with no '.' |
| RecordedVideosWidget.Suffix | qt-drone-ui/src/widgets/recordedvideoswidget.cpp:259 | QFileInfo::suffix: no '.', and empty when the file name has none |
| RecordedVideosWidget.ToLower | qt-drone-ui/src/widgets/recordedvideoswidget.cpp:259 | every ASCII capital lowered, every other character kept |
| RecordedVideosWidget.RecordedVideosWidget.constructor | qt-drone-ui/src/widgets/recordedvideoswidget.cpp:47-80 | no recordings and no selection |
| RecordedVideosWidget.RecordedVideosWidget.AddRecording | qt-drone-ui/src/widgets/recordedvideoswidget.cpp:248-275 | the recording, named by its base name, sized by its data, of duration 0, suffix format and "high" quality, is appended and selected |
| RecordedVideosWidget.RecordedVideosWidget.UpdateRecordingList | qt-drone-ui/src/widgets/recordedvideoswidget.cpp:334-336 | the refresh leaves no recording selected: clear() drops the current row, which deselects through the selection handler; the recordings are kept |
| RecordedVideosWidget.RecordedVideosWidget.LoadRecordings | qt-drone-ui/src/widgets/recordedvideoswidget.cpp:277-307 | a read object document replaces the list by its entries whose files exist, otherwise the list is kept; once the file has opened the refresh deselects, so a Refresh (556-558) with a recording selected ends with none; an unopenable file changes nothing |
| RecordedVideosWidget.RecordedVideosWidget.StorageTotal | qt-drone-ui/src/widgets/recordedvideoswidget.cpp:360-363 | the loop sums the file sizes |
| RecordedVideosWidget.RecordedVideosWidget.SelectedRecording | qt-drone-ui/src/widgets/recordedvideoswidget.cpp:406-412 | the selected recording exactly when the index is in range |
| RecordedVideosWidget.RecordedVideosWidget.OnRecordingSelectionChangedAsWritten | qt-drone-ui/src/widgets/recordedvideoswidget.cpp:449-454 | as written: the handler's own list refresh clears the current row and runs it again with row -1, so every selection ends with no recording selected |
| RecordedVideosWidget.RecordedVideosWidget.OnRecordingSelectionChanged | qt-drone-ui/src/widgets/recordedvideoswidget.cpp:449-454 | as intended: the list's row becomes the selection, and a row in range selects that recording |
| RecordedVideosWidget.RecordedVideosWidget.OnPlayRecording | qt-drone-ui/src/widgets/recordedvideoswidget.cpp:456-465 | the selected recording's file is played exactly when there is a selection |
| RecordedVideosWidget.RecordedVideosWidget.OnDeleteRecording | qt-drone-ui/src/widgets/recordedvideoswidget.cpp:467-493 | with a selection and a confirmation exactly that recording is removed, the selection cleared and its id and file reported; otherwise nothing changes |
| RecordedVideosWidget.RecordedVideosWidget.OnImportRecording | qt-drone-ui/src/widgets/recordedvideoswidget.cpp:515-554 | a copied file is appended and selected as an "imported" recording stored under the recordings folder; otherwise nothing changes |
| DroneStatusWidget.BatteryLevelOf | qt-drone-ui/src/widgets/dronestatuswidget.cpp:446-467 | Good above 50 %, Warning above 25 % up to 50 %, Critical at 25 % or less, each in both directions |
| DroneStatusWidget.BatteryLevelMonotone | qt-drone-ui/src/widgets/dronestatuswidget.cpp:446-467 | more charge never reads as a worse battery level |
| DroneStatusWidget.BatteryColor | qt-drone-ui/src/widgets/dronestatuswidget.cpp:446-467 | green, amber or red for Good, Warning and Critical |
| DroneStatusWidget.BarValue | qt-drone-ui/src/widgets/dronestatuswidget.cpp:440 | the bar shows the whole part of a non-negative percentage |
| DroneStatusWidget.BarValueInRange | qt-drone-ui/src/widgets/dronestatuswidget.cpp:440 | a percentage in [0, 100] gives a bar value in [0, 100] |
| DroneStatusWidget.ControlsFor | qt-drone-ui/src/widgets/dronestatuswidget.cpp:532-563 | the enable state updateControlsDisplay sets: nothing without a connection, takeoff exactly when connected, armed and GPS-locked, never the flight mode and landing together; ControlsSafety states the remaining rules |
| DroneStatusWidget.ControlsSafety | qt-drone-ui/src/widgets/dronestatuswidget.cpp:532-563 | without a connection nothing is enabled; takeoff exactly when connected, armed and GPS-locked, and then landing, return-to-launch, arming and the emergency stop too; landing exactly when return-to-launch; never flight-mode change and landing together |
| DroneStatusWidget.MessageColor | qt-drone-ui/src/widgets/dronestatuswidget.cpp:571-583 | red for errors, amber for warnings, blue for info, grey for any other type |
| DroneStatusWidget.Entry | qt-drone-ui/src/widgets/dronestatuswidget.cpp:585-588 | the entry takes its type's colour |
| DroneStatusWidget.Capped | qt-drone-ui/src/widgets/dronestatuswidget.cpp:592-595 | at most 100 entries, the oldest ones dropped from the bottom |
| DroneStatusWidget.Reversed | qt-drone-ui/src/widgets/dronestatuswidget.cpp:590 | the reversal of a list |
| DroneStatusWidget.Pushed | qt-drone-ui/src/widgets/dronestatuswidget.cpp:590-595 | the new entry is on top, followed by the newest earlier entries, at most 100 in all |
| DroneStatusWidget.PushCapped | qt-drone-ui/src/widgets/dronestatuswidget.cpp:590-595 | capping before adding a message changes nothing |
| DroneStatusWidget.PushedAllNewestFirst | qt-drone-ui/src/widgets/dronestatuswidget.cpp:565-596 | after several messages the list shows them newest first above the earlier ones, capped at 100 |
| DroneStatusWidget.CappedPrefix | qt-drone-ui/src/widgets/dronestatuswidget.cpp:592-595 | capping the tail before prepending and capping again is capping once |
| DroneStatusWidget.Drained | qt-drone-ui/src/widgets/dronestatuswidget.cpp:87-88 | a tick drains 0.01 % and wraps an empty battery to 100 %, staying within [0, 100] |
| DroneStatusWidget.DrainIsLinear | qt-drone-ui/src/widgets/dronestatuswidget.cpp:84-113 | n ticks without wrapping drain exactly n times 0.01 % |
| DroneStatusWidget.SimulatedStatus | qt-drone-ui/src/widgets/dronestatuswidget.cpp:90-110 | the simulated drone is connected with GPS lock and 12 satellites, carries the battery level, a voltage between 11.1 and 12.6 V, the armed state and flight mode, and is ACTIVE exactly when armed |
| DroneStatusWidget.DroneStatusWidget.constructor | qt-drone-ui/src/widgets/dronestatuswidget.cpp:7-120 | the initial status, simulation mode with 85 % battery, disarmed, STABILIZE, and the two start-up messages, newest first |
| DroneStatusWidget.DroneStatusWidget.Display | qt-drone-ui/src/widgets/dronestatuswidget.cpp:435-563 | the battery level shown is that of the current percentage, and takeoff is offered only when connected, armed and GPS-locked |
| DroneStatusWidget.DroneStatusWidget.AddMessage | qt-drone-ui/src/widgets/dronestatuswidget.cpp:565-596 | the entry goes on top of the list, which keeps at most 100; nothing else changes |
| DroneStatusWidget.DroneStatusWidget.UpdateDroneStatus | qt-drone-ui/src/widgets/dronestatuswidget.cpp:410-418 | the status is replaced, nothing else changes |
| DroneStatusWidget.DroneStatusWidget.SetConnectionStatus | qt-drone-ui/src/widgets/dronestatuswidget.cpp:420-433 | the connected flag is set, simulation runs exactly when disconnected, and the matching message is added |
| DroneStatusWidget.DroneStatusWidget.SimulationTick | qt-drone-ui/src/widgets/dronestatuswidget.cpp:84-114 | in simulation the battery drains and the status becomes the simulated one; otherwise nothing changes |
| DroneStatusWidget.DroneStatusWidget.OnArmDisarmClicked | qt-drone-ui/src/widgets/dronestatuswidget.cpp:603-623 | arming needs confirmation, disarming does not; a request is the opposite of the armed state, and in simulation it takes effect with a message |
| DroneStatusWidget.DroneStatusWidget.OnTakeoffClicked | qt-drone-ui/src/widgets/dronestatuswidget.cpp:625-634 | a confirmed takeoff is requested and logged; otherwise nothing happens |
| DroneStatusWidget.DroneStatusWidget.OnLandClicked | qt-drone-ui/src/widgets/dronestatuswidget.cpp:636-645 | a confirmed landing is requested and logged; otherwise nothing happens |
| DroneStatusWidget.DroneStatusWidget.OnRTLClicked | qt-drone-ui/src/widgets/dronestatuswidget.cpp:647-656 | a confirmed return to launch is requested and logged; otherwise nothing happens |
| DroneStatusWidget.DroneStatusWidget.OnEmergencyStopClicked | qt-drone-ui/src/widgets/dronestatuswidget.cpp:658-667 | a confirmed emergency stop is requested and logged as an error; otherwise nothing happens |
| DroneStatusWidget.DroneStatusWidget.OnFlightModeChanged | qt-drone-ui/src/widgets/dronestatuswidget.cpp:669-680 | only when connected is the mode requested and logged, and in simulation applied |
| DroneStatusWidget.DroneStatusWidget.OnStatusUpdateTimer | qt-drone-ui/src/widgets/dronestatuswidget.cpp:682-689 | a connected drone's heartbeat time is refreshed; otherwise nothing changes |
| DroneStatusWidget.DroneStatusWidget.OnClearMessages | qt-drone-ui/src/widgets/dronestatuswidget.cpp:691-695 | the list holds only the "Messages cleared" entry |
| DroneController.AnnouncementsAlternate | qt-drone-ui/src/controllers/dronecontroller.cpp:120-140 | connection changes are announced only when the state differs: announcements alternate starting from the opposite of the start state, never outnumber the reports, and an odd number leaves the state flipped |
| DroneController.ApplyStatusData | qt-drone-ui/src/controllers/dronecontroller.cpp:173-189 | "battery" sets the percentage and voltage, "position" sets the position and altitude, absent keys leave those fields, absent numbers read as 0 |
| DroneController.ApplyStatusDataIdempotent | qt-drone-ui/src/controllers/dronecontroller.cpp:173-189 | applying the same status payload twice is applying it once |
| DroneController.ApplyStatusDataKeepsTheRest | qt-drone-ui/src/controllers/dronecontroller.cpp:173-189 | a payload with neither key changes nothing, and no payload touches the connection, armed state or flight mode |
| DroneController.DroneController.constructor | qt-drone-ui/src/controllers/dronecontroller.cpp:11-49 | disconnected with the initial status, drone at 192.168.1.10:14550, SIL mode on at 127.0.0.1:14550 |
| DroneController.DroneController.UpdateConnectionStatus | qt-drone-ui/src/controllers/dronecontroller.cpp:120-140 | only a change of state does anything: it sets both flags, starts or stops the timers and announces the state and status |
| DroneController.DroneController.OnVOXLConnectionStatusChanged | qt-drone-ui/src/controllers/dronecontroller.cpp:199-202 | the link's report goes through the same change rule |
| DroneController.DroneController.ConnectToDrone | qt-drone-ui/src/controllers/dronecontroller.cpp:85-108 | the address is remembered; the SIL address is dialled in SIL mode; the announcement names the dialled address and the outcome message follows the link's answer |
| DroneController.DroneController.DisconnectFromDrone | qt-drone-ui/src/controllers/dronecontroller.cpp:110-118 | disconnected with every timer stopped, the change announced only if it was connected, then the disconnection message |
| DroneController.DroneController.SendCommand | qt-drone-ui/src/controllers/dronecontroller.cpp:142-147 | the command reaches the link exactly when connected |
| DroneController.DroneController.OnHeartbeatTimer | qt-drone-ui/src/controllers/dronecontroller.cpp:149-155 | a heartbeat with no parameters is sent exactly when connected |
| DroneController.DroneController.OnStatusUpdateTimer | qt-drone-ui/src/controllers/dronecontroller.cpp:157-165 | status is requested exactly when connected |
| DroneController.DroneController.OnVOXLDataReceived | qt-drone-ui/src/controllers/dronecontroller.cpp:167-197 | a status message updates the status from its payload and announces it; error and info messages are passed on; other types do nothing |
| DroneController.DroneController.OnVOXLError | qt-drone-ui/src/controllers/dronecontroller.cpp:204-206 | the error is passed on prefixed with "VOXL Error: " |
| CameraFeedWidget.NextSource | qt-drone-ui/src/widgets/camerafeedwidget.cpp:371-424 | the source button always moves to another source |
| CameraFeedWidget.SourceCycle | qt-drone-ui/src/widgets/camerafeedwidget.cpp:371-424 | three presses come back to the start, different sources lead to different next ones, and two presses never do |
| CameraFeedWidget.RecordingLabel | qt-drone-ui/src/widgets/camerafeedwidget.cpp:506-508 | the "MM:SS" clock; RecordingLabelRoundTrip proves it reads back as the seconds, past 99 minutes too |
| CameraFeedWidget.StreamUrl | qt-drone-ui/src/widgets/camerafeedwidget.cpp:437 | the address http://host:port/camera/stream that ToVoxl requests (no further property: a string format) |
| CameraFeedWidget.RecordingPath | qt-drone-ui/src/widgets/camerafeedwidget.cpp:325-327 | the file moviesDir/drone_recording_<time>.<format> that OnToggleRecording records under (no further property: a string format) |
| CameraFeedWidget.RecordingLabelRoundTrip | qt-drone-ui/src/widgets/camerafeedwidget.cpp:503-509 | the "MM:SS" recording clock reads back as the seconds recorded, past 99 minutes too |
| CameraFeedWidget.CameraFeedWidget.constructor | qt-drone-ui/src/widgets/camerafeedwidget.cpp:15-66 | the demo feed and its status, no camera, reply or recording, not fullscreen, the default settings and VOXL at 192.168.1.10:8080 |
| CameraFeedWidget.CameraFeedWidget.OnToggleFeedSource | qt-drone-ui/src/widgets/camerafeedwidget.cpp:371-424 | demo goes live, or on to VOXL when the camera throws; live goes to VOXL with a stream request; VOXL goes back to demo |
| CameraFeedWidget.CameraFeedWidget.ToVoxl | qt-drone-ui/src/widgets/camerafeedwidget.cpp:401-442 | the VOXL source with its "Connecting" status and a pending request for the stream URL; nothing else changes |
| CameraFeedWidget.CameraFeedWidget.OnNetworkReplyFinishedAsWritten | qt-drone-ui/src/widgets/camerafeedwidget.cpp:444-464 | as written, a failed reply's notice is overwritten by the demo status, and a camera started since the request keeps running on the demo source |
| CameraFeedWidget.CameraFeedWidget.OnNetworkReplyFinished | qt-drone-ui/src/widgets/camerafeedwidget.cpp:444-464 | a good reply connects VOXL; a failed one falls back to demo, stops the camera and keeps the failure notice |
| CameraFeedWidget.CameraFeedWidget.OnCameraErrorAsWritten | qt-drone-ui/src/widgets/camerafeedwidget.cpp:537-542 | as written, a camera error ends on the live camera or on VOXL, never on demo |
| CameraFeedWidget.CameraFeedWidget.OnCameraError | qt-drone-ui/src/widgets/camerafeedwidget.cpp:537-542 | a camera error ends on the demo feed with the camera off; recording and settings are kept |
| CameraFeedWidget.CameraFeedWidget.OnToggleRecording | qt-drone-ui/src/widgets/camerafeedwidget.cpp:318-369 | starting records from now with a zero clock under a path built from the time and format; stopping saves the dummy data for the current path |
| CameraFeedWidget.CameraFeedWidget.OnRecordingTimer | qt-drone-ui/src/widgets/camerafeedwidget.cpp:503-509 | the clock advances one second, wrapping as a 32-bit int, and the label reads back as the new duration |
| CameraFeedWidget.CameraFeedWidget.OnToggleFullscreen | qt-drone-ui/src/widgets/camerafeedwidget.cpp:466-477 | fullscreen flips |
| CameraFeedWidget.CameraFeedWidget.OnZoomChanged | qt-drone-ui/src/widgets/camerafeedwidget.cpp:479-485 | only the zoom setting changes |
| CameraFeedWidget.CameraFeedWidget.OnQualityChanged | qt-drone-ui/src/widgets/camerafeedwidget.cpp:487-490 | only the quality setting changes |
| CameraFeedWidget.CameraFeedWidget.OnFormatChanged | qt-drone-ui/src/widgets/camerafeedwidget.cpp:492-495 | only the format setting changes; the current recording keeps its path |
| CameraFeedWidget.CameraFeedWidget.OnFramerateChanged | qt-drone-ui/src/widgets/camerafeedwidget.cpp:497-501 | only the frame-rate setting changes |
| PathPlanner3DJsx.OrZero | drone-ui/ui/src/PathPlanner3D.jsx:287-288 | the "or 0" fallback: 0 for a falsy coordinate (undefined, null, NaN or 0), the number otherwise |
| PathPlanner3DJsx.NormalizedPoints | drone-ui/ui/src/PathPlanner3D.jsx:285-291 | one normalised point per point, in order |
| PathPlanner3DJsx.NormalizedFacts | drone-ui/ui/src/PathPlanner3D.jsx:59-62 | falsy x and y become 0 and numbers are kept; only an undefined z becomes 0; normalising twice changes nothing; a normalised point is drawn where the original was |
| PathPlanner3DJsx.NormalizedPointsIdempotent | drone-ui/ui/src/PathPlanner3D.jsx:285-291 | normalising the points twice is normalising them once |
| PathPlanner3DJsx.Round | drone-ui/ui/src/PathPlanner3D.jsx:87-89 | Math.round: the integer within half a unit, halves rounding up |
| PathPlanner3DJsx.SnappedFacts | drone-ui/ui/src/PathPlanner3D.jsx:86-89 | snapping moves a value by at most a quarter unit onto the half-unit grid, and a snapped value stays put |
| PathPlanner3DJsx.GroundClick | drone-ui/ui/src/PathPlanner3D.jsx:79-92 | the ground click's point with swapped axes and snapped coordinates; GroundClickLandsNearHit proves it is drawn within a quarter unit of the click and never at height 0 |
| PathPlanner3DJsx.GroundClickLandsNearHit | drone-ui/ui/src/PathPlanner3D.jsx:79-92 | a clicked waypoint is drawn within a quarter unit of the click across the ground, never at height 0, and at the snapped height when that is not 0 |
| PathPlanner3DJsx.AddPoint | drone-ui/ui/src/PathPlanner3D.jsx:293-295 | the new point follows the normalised points, which are otherwise unchanged |
| PathPlanner3DJsx.AddManualPoint | drone-ui/ui/src/PathPlanner3D.jsx:297-303 | the typed coordinates, each parsed or else 0, are added and the form is emptied |
| PathPlanner3DJsx.Undo | drone-ui/ui/src/PathPlanner3D.jsx:305-310 | nothing for no points; otherwise all but the last normalised point, and the selection is cleared |
| PathPlanner3DJsx.UndoAfterAdd | drone-ui/ui/src/PathPlanner3D.jsx:293-310 | undo takes back exactly the point just added |
| PathPlanner3DJsx.Clear | drone-ui/ui/src/PathPlanner3D.jsx:312-316 | no points, no name and no selection; the form is kept |
| PathPlanner3DJsx.Save | drone-ui/ui/src/PathPlanner3D.jsx:312-325 | an empty path is refused; otherwise the name and the normalised points are saved, the parent is handed an empty point list through onPointsChange, and the planner is cleared |
| PathPlanner3DJsx.SaveThenSaveRefused | drone-ui/ui/src/PathPlanner3D.jsx:312-325 | after a save the parent holds no points, so a second save is refused |
| PathPlanner3DJsx.Without | drone-ui/ui/src/PathPlanner3D.jsx:329 | the filter drops exactly the element at the index, keeping the rest in order; an index out of range drops nothing |
| PathPlanner3DJsx.DeleteSelected | drone-ui/ui/src/PathPlanner3D.jsx:327-333 | without a selection nothing happens; otherwise the selected point is removed and the selection cleared |
| PathPlanner3DJsx.UpdateSelected | drone-ui/ui/src/PathPlanner3D.jsx:335-347 | only with a selection and three filled boxes: the selected point alone takes the typed coordinates, and the form and selection are cleared |
| PathPlanner3DJsx.SelectPoint | drone-ui/ui/src/PathPlanner3D.jsx:349-362 | selecting the selected point deselects it and empties the form; otherwise it is selected and its coordinates fill the form |
| PathPlanner3DJsx.SelectTwiceDeselects | drone-ui/ui/src/PathPlanner3D.jsx:349-362 | selecting the same point twice leaves nothing selected and the form empty |
| RecordedVideosJsx.FormatDuration | drone-ui/ui/src/RecordedVideos.jsx:12-16 | formatDuration, floor minutes and padded seconds; DurationReadsBack proves its two fields read back as the duration, and ZeroDurationLabel gives "0:00" |
| RecordedVideosJsx.DurationReadsBack | drone-ui/ui/src/RecordedVideos.jsx:12-16 | a duration label has two fields and reads back as the duration, however many minutes there are |
| RecordedVideosJsx.Pow1024 | drone-ui/ui/src/RecordedVideos.jsx:20-23 | every power of 1024 is at least 1 |
| RecordedVideosJsx.UnitIndex | drone-ui/ui/src/RecordedVideos.jsx:22 | the unit is the largest power of 1024 not above the size |
| RecordedVideosJsx.FormatFileSize | drone-ui/ui/src/RecordedVideos.jsx:18-24 | formatFileSize: "0 B" for nothing, and FileSizeScaled proves a positive size is shown as a number in [1, 1024) of the largest unit that fits |
| RecordedVideosJsx.FileSizeScaled | drone-ui/ui/src/RecordedVideos.jsx:18-24 | a positive size is shown in the largest unit that fits, as a number from 1 up to 1024, and a size under 1024 in bytes |
| RecordedVideosJsx.TotalDuration | drone-ui/ui/src/RecordedVideos.jsx:160 | the summed duration; TotalsAppend proves it adds over concatenation |
| RecordedVideosJsx.TotalSize | drone-ui/ui/src/RecordedVideos.jsx:166 | the summed size; TotalsAppend proves it adds over concatenation |
| RecordedVideosJsx.TotalsAppend | drone-ui/ui/src/RecordedVideos.jsx:160-166 | the summed duration and size of two lists are the sums of their totals |
| RecordedVideosJsx.Statistics | drone-ui/ui/src/RecordedVideos.jsx:155-166 | the count, the summed duration's label and the summed size's label |
| RecordedVideosJsx.ZeroDurationLabel | drone-ui/ui/src/RecordedVideos.jsx:12-16 | no time reads "0:00" |
| RecordedVideosJsx.EmptyStatistics | drone-ui/ui/src/RecordedVideos.jsx:155-166 | no recordings show 0, "0:00" and "0 B" |
| CameraFeedJsx.InitialSettings | drone-ui/ui/src/CameraFeed.jsx:11-16 | each of quality, format and frame rate is the prop's when given and high, mp4 or 30 otherwise |
| CameraFeedJsx.Bitrate | drone-ui/ui/src/CameraFeed.jsx:148-156 | 8, 4, 2 or 1 Mbit/s for ultra, high, medium and low, and the high rate for any other quality |
| CameraFeedJsx.BitrateFacts | drone-ui/ui/src/CameraFeed.jsx:148-156 | every quality gets one of the four rates, between the low and the ultra rate, and the default's rate exactly when it is not ultra, medium or low |
| CameraFeedJsx.ClampZoom | drone-ui/ui/src/CameraFeed.jsx:210-212 | the zoom lies in [0.5, 3]: a request inside is kept, one below or above gives the nearer end |
| CameraFeedJsx.ClampZoomFacts | drone-ui/ui/src/CameraFeed.jsx:210-212 | clamping twice is clamping once, and a larger request never gives a smaller zoom |
| CameraFeedJsx.ToggleSource | drone-ui/ui/src/CameraFeed.jsx:218 | the button always switches the source |
| CameraFeedJsx.ToggleTwice | drone-ui/ui/src/CameraFeed.jsx:218 | two presses give back the source |
| CameraFeedJsx.InitializeFeed | drone-ui/ui/src/CameraFeed.jsx:30-51 | the demo source changes nothing; an opened camera clears the error; a failure shows the notice and switches to demo |
| CameraFeedJsx.FallbackIsStable | drone-ui/ui/src/CameraFeed.jsx:30-51 | without a camera the feed ends on demo, the re-run changes nothing more, and going live again falls straight back |
| CameraFeedJsx.EffectDuration | drone-ui/ui/src/CameraFeed.jsx:74-86 | the clock resets to 0 unless recording with a truthy start time, when it is kept until the first tick |
| CameraFeedJsx.TickDuration | drone-ui/ui/src/CameraFeed.jsx:78 | the clock shows the whole seconds since the start |
| CameraFeedJsx.TickDurationFacts | drone-ui/ui/src/CameraFeed.jsx:77-79 | the clock is never negative after the start, never goes backwards and moves by one per 1000 ms |
| CameraFeedJsx.SavedRecording | drone-ui/ui/src/CameraFeed.jsx:158-175 | the recording carries the blob's URL and size, the clock's duration, the time, and the settings' format and quality |
| PathPlannerJsx.SvgClick | drone-ui/ui/src/PathPlanner.jsx:7-21 | before the drawing is mounted nothing happens; afterwards exactly the clicked point is appended, the earlier points unchanged |
| PathPlannerJsx.Undo | drone-ui/ui/src/PathPlanner.jsx:23-27 | the parent is called exactly when there are points, with all but the last |
| PathPlannerJsx.Clear | drone-ui/ui/src/PathPlanner.jsx:29-32 | no points and no name |
| PathPlannerJsx.Save | drone-ui/ui/src/PathPlanner.jsx:34-41 | refused exactly for no points; otherwise the name and points are saved and the planner cleared |
| PathPlannerJsx.UndoAfterClick | drone-ui/ui/src/PathPlanner.jsx:7-27 | undo takes back exactly the point a click added, and clicking the undone point puts it back |
| PathPlannerJsx.SaveThenSaveRefused | drone-ui/ui/src/PathPlanner.jsx:34-41 | a save hands over the points and leaves the planner empty, so a second save is refused |
| PathPlannerJsx.ClicksAppend | drone-ui/ui/src/PathPlanner.jsx:7-21 | a series of clicks appends the clicked points in order |
| AppJsx.KeepMembers | drone-ui/ui/src/App.jsx:25 | the filter keeps exactly the elements it accepts, in both directions |
| AppJsx.KeepAppend | drone-ui/ui/src/App.jsx:25 | filtering splits over a concatenation, so the kept elements keep their order |
| AppJsx.KeepEverything | drone-ui/ui/src/App.jsx:25 | a filter that accepts every element changes nothing |
| AppJsx.KeepTwice | drone-ui/ui/src/App.jsx:25 | filtering twice is filtering once |
| AppJsx.PathName | drone-ui/ui/src/App.jsx:17 | the saved name is never empty and is the given name when that is not empty |
| AppJsx.SavePath | drone-ui/ui/src/App.jsx:14-22 | the new path, with the fresh id, name or "Untitled Path", the points and the time, is added after the others; nothing else changes |
| AppJsx.DeletePath | drone-ui/ui/src/App.jsx:24-26 | the paths kept are exactly those with another id; nothing else changes |
| AppJsx.DeleteAfterSave | drone-ui/ui/src/App.jsx:14-26 | deleting a path just saved under a fresh id gives back the state before, and deleting twice is deleting once |
| AppJsx.LoadToPlanner | drone-ui/ui/src/App.jsx:28-31 | the draft becomes the points and the planner is shown; nothing else changes |
| AppJsx.LoadSavedPath | drone-ui/ui/src/App.jsx:14-31 | loading a saved path gives the planner the points it was saved with |
| AppJsx.SaveRecording | drone-ui/ui/src/App.jsx:33-35 | the recording is added after the others; nothing else changes |
| AppJsx.FirstWithId | drone-ui/ui/src/App.jsx:39 | the position of the first recording with the id, or the length when there is none |
| AppJsx.DeleteRecording | drone-ui/ui/src/App.jsx:37-45 | the recordings kept are exactly those with another id; a URL is revoked exactly when some recording has the id and the first of them has a non-empty blob URL, and it is that URL |
| AppJsx.DeleteRecordingTotals | drone-ui/ui/src/App.jsx:37-45 | the kept and the removed recordings together account for the whole duration and size |
| AppJsx.SaveRecordingTotals | drone-ui/ui/src/App.jsx:33-45 | saving a recording adds its duration and size to the totals, and deleting it under a fresh id gives the state back |
| AppJsx.SwitchView | drone-ui/ui/src/App.jsx:52-55 | the view is shown and the drawer closed; nothing else changes |

## Left out

Outside the model, and why:

- Qt timers, intervals and the event loop. A timer's tick is a method call, and the elapsed time is a parameter.
- File and network I/O, file dialogs and message boxes. The loaded document, whether a file exists, its size and the user's answer to a confirmation are parameters. Saving is modelled by the functions that build the saved document.
- OpenGL drawing (paintGL, the grid, the meshes on screen) and QPainter drawing. What is modelled is the data handed to the drawing code.
- The NatNet SDK itself: connecting, the receive thread and its callbacks. A received frame is an argument of the handler, and the scene descriptions are a parameter.
- Signal and slot wiring, and the mutexes around shared frames. Emitted signals are values that the methods return or record.
- Floating point. `float` and `double` are exact reals, so rounding is not modelled. For example, the simulated battery drain of 0.01 per tick is exact.
- Square roots, trigonometry, `acos`, `pow` and the quaternion-to-Euler conversion. They are parameters, and the `Sound` predicate states the only facts used about them.
- Number-to-text conversions: Qt's `QString::number(x, 'f', n)`, JavaScript's `toString`, `toFixed` and `parseFloat`. They are parameters. Integer text (`QString::number`, `toInt`, `toLongLong`) is modelled for decimal digits only.
- Json.ToLongLong: a JSON string holding a number, which `QVariant::toLongLong` parses, reads as 0. The files the widgets write store sizes and times as numbers.
- Lower-casing covers ASCII letters only, not the full Unicode case mapping Qt applies.
- 64-bit overflow of `qint64` sizes and times is not modelled. 32-bit `int` ranges are stated where a round trip depends on them.
- Icon glyphs and style sheets (`loadStyleSheet`), layout, fonts and colours.
- The drone controller's header declares arming, mission and manual-control operations that `dronecontroller.cpp` does not define. Only the defined operations are modelled.
- The path planner view's camera: `mouseMoveEvent` rotation, `wheelEvent`, `paintEvent` and `animationTime` only change what is drawn.
- `onCameraReset`, `onGridSizeChanged` and `onCoordinateSystemChanged` in the path planner only change drawing settings.
- The GL widget's pan (`panX`, `panY`, `panZ`) is only used for drawing.
- `QListWidget::clear()` inside `updatePathList` and `updateRecordingList` drops the list's current row and so runs the selection handler again with row -1 (see Findings). RecordedPathsWidget.RecordedPathsWidget.AddPath, RecordedPathsWidget.RecordedPathsWidget.OnImportPath, RecordedPathsWidget.RecordedPathsWidget.OnDuplicatePath, RecordedVideosWidget.RecordedVideosWidget.AddRecording and RecordedVideosWidget.RecordedVideosWidget.OnImportRecording select through the corrected handlers, so they end with the new row selected. As written, each of them ends with nothing selected and the action buttons disabled. RecordedPathsWidget.RecordedPathsWidget.LoadPaths keeps the selection, because the widget calls it only from its constructor, while nothing is selected. RecordedVideosWidget.RecordedVideosWidget.LoadRecordings, which Refresh also calls, deselects once its file opens.
- `onExportPath` and `onExportRecording` only copy a file.
- `onRefreshRecordings` is `LoadRecordings` again, followed by a message box.
- The detail labels (`updatePathDetails`, the recording's detail panel) are not modelled. Their texts are built by the modelled formatting functions.
- `onLoadPath` in the saved-paths widget only shows a message box.
- `setCompactMode` and `setShowControls` in the camera feed and status panels only change the layout.
- The reuse and deletion of the `QNetworkReply` object are not modelled.
- `fetchResourceFileNames` and `fetchSavedTakeFileNames` only list a directory.
- In CameraFeed.jsx, the camera stream, `MediaRecorder`, `handleRecord` and `handleScreenshot` are left out. Browser media is outside the model; the blob's URL and size are parameters of `CameraFeedJsx.SavedRecording`.
- `toggleFullscreen` in CameraFeed.jsx uses the browser's fullscreen API.
- CameraFeedJsx.ClampZoom: a NaN zoom is not modelled.
- CameraFeedJsx.Bitrate: quality keys inherited from `Object.prototype` (such as `"toString"`) are not modelled. The model treats them as unknown qualities.
- CameraFeedJsx.InitialSettings: keys of `recordingSettings` other than quality, format and framerate are dropped, because the view never reads them.
- `handleDownload` and `formatDate` in RecordedVideos.jsx depend on the DOM and on the locale.
- RecordedVideosJsx.UnitIndex: the logarithm quotient is computed exactly, as the largest power of 1024 not above the size. Floating-point rounding of `Math.log` near a power of 1024 is not modelled.
- `handlePlayRecording` in App.jsx only opens a browser window.
- PathPlanner3DJsx.UpdateSelected requires the selected index to lie inside the points. JavaScript would write past the end of the array and leave a sparse array, which the model does not represent.
- PathPlanner3DJsx.SelectPoint requires an index inside the points. The view only calls it for a drawn waypoint, and a missing waypoint would make `toString` throw. Normalisation keeps a null `z` (PathPlanner3DJsx.NormalizedFacts), and `point.z.toString()` would throw on it. The model reads it as the text of null instead. App.jsx never stores such a point.
- PathPlannerWidget.ScreenToWorld and PathPlannerWidget.PlannerView.LeftClick require a widget of positive size. A zero-sized widget divides by zero in floating point.
- GLWidget.GLWidget.Wheel requires a positive step. The source's step is `pow(1.1, ...)`, which is always positive.
- GLWidget.GLWidget.PrepareSkeletonData requires every stored bone pair to index bones of the current frame. The source reads out of range otherwise, which is undefined behaviour.
- GLWidget.Centroid requires at least one marker. The source divides by the marker count.
- RigidBodyMetrics.FrameMetrics and RigidBodyMetrics.RigidBodyMetrics.ComputeMetricsForFrame require that the selected body is present in the frames. The source's search falls off the end of a function returning a value otherwise, which is undefined behaviour.
- SkeletonMetrics.FrameMetrics and SkeletonMetrics.SkeletonMetrics.ComputeMetricsForFrame require a skeleton in the frame and bone ids in range, for the same reason.
- DataProcessor.DataProcessor.OnFramesUpdated requires that both calculators can compute the frame, for the reason given above.
- ReplayController.ReplayController.EmitNextFrame requires the elapsed time to fit the `int` the source stores it in.
- ReplayController.ReplayController.LoadTake requires a playspeed text that reads as a positive decimal. The source divides by it. An unreadable text reads as 0, and casting the infinite quotient to `int` is undefined behaviour, as is any quotient too large for an `int`.
- ReplayController.IntervalFor requires a positive playspeed, for the same reason.

## Findings

| source | as written | input that shows it | evidently intended | confidence | as-written member | corrected member |
|---|---|---|---|---|---|---|
| qt-drone-ui/src/widgets/camerafeedwidget.cpp:444-464 | A failed reply sets "Status: VOXL Connection Failed - Using Demo", then calls loadDemoImage, which sets "Status: Demo Mode"; a camera started while the request was pending is not stopped | any reply that ends with an error | the failure notice stays on the status line while the demo image is shown | medium, not executed | CameraFeedWidget.CameraFeedWidget.OnNetworkReplyFinishedAsWritten | CameraFeedWidget.CameraFeedWidget.OnNetworkReplyFinished |
| qt-drone-ui/src/widgets/camerafeedwidget.cpp:537-542 | onCameraError sets the source to demo, then calls onToggleFeedSource, which moves demo on to the live camera (or to VOXL when the camera fails again) | any invocation of the slot | the feed ends on the demo source, as the warning says | high, not executed | CameraFeedWidget.CameraFeedWidget.OnCameraErrorAsWritten | CameraFeedWidget.CameraFeedWidget.OnCameraError |
| sports-data-metric-client/src/rendering/glwidget.cpp:386-424 | resize keeps each skeleton's old bone-pair list, and the loop appends the pairs again, so a second load lists every pair twice | a skeleton whose bone 2 has parent bone 1, loaded twice, gives the pairs [(0, 1), (0, 1)] instead of [(0, 1)] | every load rebuilds each skeleton's list from the scene alone | high, not executed | GLWidget.SecondInitDuplicatesPairs | GLWidget.GLWidget.InitSceneDescriptions |
| qt-drone-ui/src/widgets/pathplannerwidget.cpp:702-716 | onWaypointPositionChanged stores the edited waypoint, then calls updateWaypointList, whose clear() emits currentRowChanged(-1) and so deselects the waypoint in panel and view | select waypoint 1, then change its X value | the edited waypoint stays selected, so its other coordinates can be edited next | medium, not executed | PathPlannerWidget.PathPlannerWidget.OnWaypointPositionChanged | PathPlannerWidget.PathPlannerWidget.OnWaypointPositionChangedKeepingSelection |
| qt-drone-ui/src/widgets/recordedpathswidget.cpp:395-400 | onPathSelectionChanged calls updatePathList, whose clear() emits currentRowChanged(-1), which runs the handler again and leaves no path selected | click any path in the list | the clicked path stays selected and the action buttons are enabled | medium, not executed | RecordedPathsWidget.RecordedPathsWidget.OnPathSelectionChangedAsWritten | RecordedPathsWidget.RecordedPathsWidget.OnPathSelectionChanged |
| qt-drone-ui/src/widgets/recordedvideoswidget.cpp:449-454 | onRecordingSelectionChanged calls updateRecordingList, whose clear() emits currentRowChanged(-1), which runs the handler again and leaves no recording selected | click any recording in the list | the clicked recording stays selected and the action buttons are enabled | medium, not executed | RecordedVideosWidget.RecordedVideosWidget.OnRecordingSelectionChangedAsWritten | RecordedVideosWidget.RecordedVideosWidget.OnRecordingSelectionChanged |
