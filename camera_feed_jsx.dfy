/**
 * The browser's camera view (CameraFeed.jsx): the capture settings and the
 * bitrate they select, the zoom clamp, the live/demo source with its
 * fallback when the camera cannot be opened, the running recording clock,
 * and the recording object handed to the parent. The camera stream, the
 * MediaRecorder, blobs, timers and the wall clock are outside the model:
 * whether the camera opened, the time and the blob's URL and size are
 * parameters.
 */
module CameraFeedJsx {
  import opened Json
  import RecordedVideosJsx

  /** The settings object; only the three keys the view reads. */
  datatype Settings = Settings(quality: string, format: string, framerate: int)

  /** The recordingSettings prop: a key it holds replaces the default. */
  datatype SettingsProp = SettingsProp(quality: Option<string>, format: Option<string>, framerate: Option<int>)

  /** `{ quality: 'high', format: 'mp4', framerate: 30, ...recordingSettings }` */
  function InitialSettings(prop: SettingsProp): (s: Settings)
    ensures prop.quality.None? ==> s.quality == "high"
    ensures prop.quality.Some? ==> s.quality == prop.quality.value
    ensures prop.format.None? ==> s.format == "mp4"
    ensures prop.format.Some? ==> s.format == prop.format.value
    ensures prop.framerate.None? ==> s.framerate == 30
    ensures prop.framerate.Some? ==> s.framerate == prop.framerate.value
  {
    Settings(
      if prop.quality.Some? then prop.quality.value else "high",
      if prop.format.Some? then prop.format.value else "mp4",
      if prop.framerate.Some? then prop.framerate.value else 30)
  }

  /** getVideoBitrate: the table's entry for a known quality, else the
    * entry for "high". */
  function Bitrate(quality: string): (bits: int)
    ensures quality == "ultra" ==> bits == 8000000
    ensures quality == "high" ==> bits == 4000000
    ensures quality == "medium" ==> bits == 2000000
    ensures quality == "low" ==> bits == 1000000
    ensures quality !in {"ultra", "high", "medium", "low"} ==> bits == 4000000
  {
    if quality == "ultra" then 8000000
    else if quality == "medium" then 2000000
    else if quality == "low" then 1000000
    else 4000000
  }

  /** Every quality gets one of the four rates, a better quality never a
    * lower one, and an unknown quality the same rate as the default. */
  lemma BitrateFacts(quality: string)
    ensures Bitrate(quality) in {8000000, 4000000, 2000000, 1000000}
    ensures Bitrate(quality) >= Bitrate("low")
    ensures Bitrate(quality) <= Bitrate("ultra")
    ensures Bitrate(quality) == Bitrate(InitialSettings(SettingsProp(None, None, None)).quality)
      <==> quality !in {"ultra", "medium", "low"}
  {
  }

  /** handleZoomChange: Math.max(0.5, Math.min(3, z)). */
  function ClampZoom(z: real): (r: real)
    ensures 0.5 <= r <= 3.0
    ensures 0.5 <= z <= 3.0 ==> r == z
    ensures z < 0.5 ==> r == 0.5
    ensures z > 3.0 ==> r == 3.0
  {
    var low := if 3.0 < z then 3.0 else z;
    if 0.5 < low then low else 0.5
  }

  /** Clamping twice is clamping once, and a larger request never gives a
    * smaller zoom. */
  lemma ClampZoomFacts(z: real, w: real)
    ensures ClampZoom(ClampZoom(z)) == ClampZoom(z)
    ensures z <= w ==> ClampZoom(z) <= ClampZoom(w)
  {
  }

  /** feedSource ("live" or "demo"). */
  datatype Source = Live | Demo

  /** The source button. */
  function ToggleSource(s: Source): (t: Source)
    ensures t != s
  {
    if s == Live then Demo else Live
  }

  /** Pressing the button twice changes nothing. */
  lemma ToggleTwice(s: Source)
    ensures ToggleSource(ToggleSource(s)) == s
  {
  }

  const CameraMissing: string := "Camera not available - showing demo image"

  /** initializeFeed: for the live source, an opened camera clears the
    * error and a failure shows the notice and switches to demo; for the
    * demo source nothing changes. */
  function InitializeFeed(source: Source, error: Option<string>, cameraOpens: bool): (r: (Source, Option<string>))
    ensures source == Demo ==> r == (source, error)
    ensures source == Live && cameraOpens ==> r == (Live, None)
    ensures source == Live && !cameraOpens ==> r == (Demo, Some(CameraMissing))
  {
    if source == Live then
      if cameraOpens then (Live, None) else (Demo, Some(CameraMissing))
    else (source, error)
  }

  /** Without a camera the view always ends on the demo feed, and the
    * re-run the source change causes changes nothing more; pressing the
    * button to go live again falls straight back. */
  lemma FallbackIsStable(source: Source, error: Option<string>)
    ensures InitializeFeed(source, error, false).0 == Demo
    ensures var after := InitializeFeed(source, error, false);
      InitializeFeed(after.0, after.1, false) == after
    ensures var after := InitializeFeed(source, error, false);
      InitializeFeed(ToggleSource(after.0), after.1, false) == (Demo, Some(CameraMissing))
  {
  }

  /** The clock's effect runs its timer only while recording with a truthy
    * start time (0 and null are falsy). */
  predicate TimerRuns(isRecording: bool, startTime: Option<int>) {
    isRecording && startTime.Some? && startTime.value != 0
  }

  /** The duration after the effect: reset to 0 when the timer does not
    * run, unchanged until its first tick when it does. */
  function EffectDuration(isRecording: bool, startTime: Option<int>, duration: int): (d: int)
    ensures !TimerRuns(isRecording, startTime) ==> d == 0
    ensures TimerRuns(isRecording, startTime) ==> d == duration
  {
    if TimerRuns(isRecording, startTime) then duration else 0
  }

  /** A tick: Math.floor((now - start) / 1000). */
  function TickDuration(startTime: int, now: int): (d: int)
    ensures 1000 * d <= now - startTime < 1000 * (d + 1)
  {
    (now - startTime) / 1000
  }

  /** The clock shows the whole seconds since the start, never counts
    * backwards and moves by one second per 1000 ms. */
  lemma TickDurationFacts(startTime: int, now: int, later: int)
    ensures startTime <= now ==> TickDuration(startTime, now) >= 0
    ensures now <= later ==> TickDuration(startTime, now) <= TickDuration(startTime, later)
    ensures TickDuration(startTime, now + 1000) == TickDuration(startTime, now) + 1
  {
  }

  /** saveRecording's object: the size and URL of the blob, the duration
    * on the clock, and the format and quality of the settings. */
  function SavedRecording(id: string, name: string, blobUrl: string, blobSize: int,
                          duration: int, settings: Settings, now: int): (r: RecordedVideosJsx.Recording)
    ensures r.id == id && r.name == name && r.blobUrl == blobUrl && r.size == blobSize
    ensures r.duration == duration && r.createdAt == now
    ensures r.format == settings.format && r.quality == settings.quality
  {
    RecordedVideosJsx.Recording(id, name, blobUrl, blobSize, duration, settings.format, settings.quality, now)
  }
}
