/**
 * The camera feed panel (camerafeedwidget.cpp): which feed is shown and
 * how the source button cycles through them, the VOXL stream request and
 * its reply, recording start/stop with its running clock label, and the
 * capture settings. Cameras, the network, pixmaps and the wall clock are
 * outside the model: whether the camera failed to start, whether the
 * reply carried an error, the time and the movies directory are
 * parameters, and the stream request is returned as its URL.
 */
module CameraFeedWidget {
  import opened Json
  import opened Numeric
  import opened RecordedVideosWidget

  /** m_feedSource ("demo", "live" or "voxl"). */
  datatype FeedSource = Demo | Live | Voxl

  /** struct CameraSettings */
  datatype CameraSettings = CameraSettings(quality: string, format: string, framerate: int, zoom: int)

  const DefaultSettings: CameraSettings := CameraSettings("high", "mp4", 30, 1)

  /** The source button's cycle: demo, then the live camera, then VOXL,
    * then demo again. */
  function NextSource(source: FeedSource): (next: FeedSource)
    ensures next != source
  {
    match source
    case Demo => Live
    case Live => Voxl
    case Voxl => Demo
  }

  /** Three presses bring every source back, and each source is reached
    * from exactly one other. */
  lemma SourceCycle(source: FeedSource, other: FeedSource)
    ensures NextSource(NextSource(NextSource(source))) == source
    ensures NextSource(source) == NextSource(other) ==> source == other
    ensures NextSource(NextSource(source)) != source
  {
  }

  const DemoStatus: string := "Status: Demo Mode"
  const ReplyFailedStatus: string := "Status: VOXL Connection Failed - Using Demo"

  /** The stream URL connectToVOXL requests. */
  function StreamUrl(host: string, port: int): string {
    "http://" + host + ":" + IntToString(port) + "/camera/stream"
  }

  /** The file a recording started at that time is saved under. */
  function RecordingPath(moviesDir: string, timestamp: string, format: string): string {
    moviesDir + "/drone_recording_" + timestamp + "." + format
  }

  /** The recording clock "MM:SS": whole minutes and the seconds left,
    * each padded to two digits. */
  function RecordingLabel(duration: int): string {
    Pad2(CDiv(duration, 60)) + ":" + Pad2(CMod(duration, 60))
  }

  /** The recording clock reads back as the number of seconds, also past
    * 99 minutes, where the minutes field grows. */
  lemma RecordingLabelRoundTrip(duration: int)
    requires 0 <= duration
    ensures ReadClock(RecordingLabel(duration)) == Some(duration)
    ensures |Fields(RecordingLabel(duration))| == 2
  {
    var q, r := CDiv(duration, 60), CMod(duration, 60);
    assert 0 <= q && 0 <= r && q * 60 + r == duration;
    var minutes, seconds := Pad2(q), Pad2(r);
    assert RecordingLabel(duration) == minutes + ":" + seconds;
    Pad2Reads(q);
    Pad2Reads(r);
    SplitTwoFields(minutes, seconds);
    ReadTwoFields(minutes, seconds);
    assert ReadClock(minutes + ":" + seconds) == Some(q * 60 + r);
  }

  class CameraFeedWidget {
    var feedSource: FeedSource
    var statusText: string
    var cameraActive: bool
    var replyPending: bool
    var isRecording: bool
    var recordingTimerRunning: bool
    var recordingDuration: int
    var recordingStartTime: int
    var currentRecordingPath: string
    var isFullscreen: bool
    var settings: CameraSettings
    var voxlHost: string
    var voxlPort: int

    /** The recording clock runs exactly while recording. (The camera can
      * outlive the live feed: a VOXL reply that fails after the user has
      * cycled back to the live camera switches the source to demo without
      * stopping it.) */
    predicate Valid()
      reads this
    {
      recordingTimerRunning == isRecording
    }

    /** The panel starts on the demo feed, not recording, with the default
      * settings and the default VOXL address. */
    constructor ()
      ensures Valid()
      ensures feedSource == Demo && statusText == DemoStatus && !cameraActive && !replyPending
      ensures !isRecording && recordingDuration == 0 && recordingStartTime == 0 && !isFullscreen
      ensures settings == DefaultSettings
      ensures voxlHost == "192.168.1.10" && voxlPort == 8080
    {
      feedSource := Demo;
      statusText := DemoStatus;
      cameraActive := false;
      replyPending := false;
      isRecording := false;
      recordingTimerRunning := false;
      recordingDuration := 0;
      recordingStartTime := 0;
      currentRecordingPath := "";
      isFullscreen := false;
      settings := DefaultSettings;
      voxlHost := "192.168.1.10";
      voxlPort := 8080;
    }

    /** onToggleFeedSource: one step round the cycle. Demo goes live and
      * starts the camera; should the start throw, the handler toggles
      * once more, on to VOXL. Going to VOXL stops the camera and requests
      * the stream; going to demo stops the camera and shows the demo
      * picture. */
    method OnToggleFeedSource(cameraThrows: bool) returns (request: Option<string>)
      modifies this
      ensures cameraActive ==> feedSource == Live
      ensures old(feedSource) == Demo && !cameraThrows ==>
        feedSource == Live && cameraActive && statusText == "Status: Live Camera Active" && request.None?
      ensures old(feedSource) == Demo && cameraThrows ==>
        feedSource == NextSource(NextSource(old(feedSource))) && request.Some?
      ensures feedSource == Voxl ==>
        !cameraActive && statusText == "Status: Connecting to VOXL..." && replyPending
        && request == Some(StreamUrl(voxlHost, voxlPort))
      ensures old(feedSource) != Demo ==> feedSource == NextSource(old(feedSource))
      ensures feedSource == Demo ==> !cameraActive && statusText == DemoStatus && request.None?
      ensures feedSource != Voxl ==> replyPending == old(replyPending)
      ensures isRecording == old(isRecording) && recordingTimerRunning == old(recordingTimerRunning)
      ensures recordingDuration == old(recordingDuration) && settings == old(settings)
      ensures voxlHost == old(voxlHost) && voxlPort == old(voxlPort)
      ensures recordingStartTime == old(recordingStartTime) && currentRecordingPath == old(currentRecordingPath)
      ensures isFullscreen == old(isFullscreen)
    {
      if feedSource == Demo {
        feedSource := Live;
        statusText := "Status: Connecting to camera...";
        if !cameraThrows {
          cameraActive := true;
          statusText := "Status: Live Camera Active";
          return None;
        }
        request := ToVoxl();
      } else if feedSource == Live {
        request := ToVoxl();
      } else {
        feedSource := Demo;
        cameraActive := false;
        statusText := DemoStatus;
        return None;
      }
    }

    /** The live-to-VOXL step of the cycle, with connectToVOXL. */
    method ToVoxl() returns (request: Option<string>)
      modifies this
      ensures feedSource == Voxl && !cameraActive && replyPending
      ensures statusText == "Status: Connecting to VOXL..."
      ensures request == Some(StreamUrl(voxlHost, voxlPort))
      ensures isRecording == old(isRecording) && recordingTimerRunning == old(recordingTimerRunning)
      ensures recordingDuration == old(recordingDuration) && settings == old(settings)
      ensures voxlHost == old(voxlHost) && voxlPort == old(voxlPort)
      ensures recordingStartTime == old(recordingStartTime) && currentRecordingPath == old(currentRecordingPath)
      ensures isFullscreen == old(isFullscreen)
    {
      feedSource := Voxl;
      statusText := "Status: Connecting to VOXL...";
      cameraActive := false;
      replyPending := true;
      request := Some(StreamUrl(voxlHost, voxlPort));
    }

    /** onNetworkReplyFinished as written: a good reply keeps the VOXL feed;
      * an error falls back to demo, but the failure notice it sets is
      * replaced at once by the demo picture's own status text, and a
      * camera started since the request keeps running. */
    method OnNetworkReplyFinishedAsWritten(noError: bool)
      requires Valid() && replyPending
      modifies this
      ensures Valid() && !replyPending
      ensures cameraActive == old(cameraActive)
      ensures noError ==> feedSource == old(feedSource) && statusText == "Status: VOXL Connected"
      ensures !noError ==> feedSource == Demo && statusText == DemoStatus && statusText != ReplyFailedStatus
      ensures !noError && old(cameraActive) ==> cameraActive && feedSource != Live
      ensures isRecording == old(isRecording) && recordingDuration == old(recordingDuration) && settings == old(settings)
    {
      if noError {
        statusText := "Status: VOXL Connected";
      } else {
        statusText := ReplyFailedStatus;
        feedSource := Demo;
        statusText := DemoStatus;
      }
      replyPending := false;
    }

    /** onNetworkReplyFinished with the failure notice left visible: an
      * error sends the panel back to demo, stops the camera and says why. */
    method OnNetworkReplyFinished(noError: bool)
      requires Valid() && replyPending
      modifies this
      ensures Valid() && !replyPending
      ensures noError ==> feedSource == old(feedSource) && statusText == "Status: VOXL Connected"
      ensures !noError ==> feedSource == Demo && !cameraActive && statusText == ReplyFailedStatus
      ensures isRecording == old(isRecording) && recordingTimerRunning == old(recordingTimerRunning)
      ensures recordingDuration == old(recordingDuration) && settings == old(settings)
      ensures recordingStartTime == old(recordingStartTime) && currentRecordingPath == old(currentRecordingPath)
    {
      if noError {
        statusText := "Status: VOXL Connected";
      } else {
        feedSource := Demo;
        cameraActive := false;
        statusText := ReplyFailedStatus;
      }
      replyPending := false;
    }

    /** onCameraError as written: after warning that it is switching to
      * demo it sets demo and then toggles, which moves on to the live
      * camera again. */
    method OnCameraErrorAsWritten(cameraThrows: bool) returns (request: Option<string>)
      requires Valid()
      modifies this
      ensures Valid()
      ensures !cameraThrows ==> feedSource == Live && cameraActive && feedSource != Demo
      ensures cameraThrows ==> feedSource == Voxl && request == Some(StreamUrl(voxlHost, voxlPort))
    {
      feedSource := Demo;
      request := OnToggleFeedSource(cameraThrows);
    }

    /** onCameraError as its warning describes it: the panel falls back to
      * the demo feed with the camera stopped. */
    method OnCameraError()
      requires Valid()
      modifies this
      ensures Valid()
      ensures feedSource == Demo && !cameraActive && statusText == DemoStatus
      ensures isRecording == old(isRecording) && recordingTimerRunning == old(recordingTimerRunning)
      ensures recordingDuration == old(recordingDuration) && settings == old(settings)
      ensures replyPending == old(replyPending)
    {
      feedSource := Demo;
      cameraActive := false;
      statusText := DemoStatus;
    }

    /** onToggleRecording: starting notes the time, zeroes the clock, names
      * the file and starts the clock; stopping stops the clock and hands
      * over the recording (placeholder data naming the file). */
    method OnToggleRecording(nowMs: int, timestamp: string, moviesDir: string)
      returns (saved: Option<(string, string)>)
      requires Valid()
      modifies this
      ensures Valid()
      ensures isRecording == !old(isRecording)
      ensures !old(isRecording) ==>
        && recordingStartTime == nowMs && recordingDuration == 0
        && currentRecordingPath == RecordingPath(moviesDir, timestamp, settings.format)
        && saved.None?
      ensures old(isRecording) ==>
        && saved == Some((currentRecordingPath, "Dummy recording data for " + currentRecordingPath))
        && currentRecordingPath == old(currentRecordingPath)
        && recordingDuration == old(recordingDuration) && recordingStartTime == old(recordingStartTime)
      ensures feedSource == old(feedSource) && cameraActive == old(cameraActive) && statusText == old(statusText)
      ensures settings == old(settings) && replyPending == old(replyPending) && isFullscreen == old(isFullscreen)
    {
      if !isRecording {
        recordingStartTime := nowMs;
        recordingDuration := 0;
        currentRecordingPath := RecordingPath(moviesDir, timestamp, settings.format);
        isRecording := true;
        recordingTimerRunning := true;
        return None;
      }
      isRecording := false;
      recordingTimerRunning := false;
      saved := Some((currentRecordingPath, "Dummy recording data for " + currentRecordingPath));
    }

    /** onRecordingTimer: one more second (an int counter), shown as the
      * recording clock. */
    method OnRecordingTimer() returns (clock: string)
      modifies this
      ensures recordingDuration == ToInt32(old(recordingDuration) + 1)
      ensures clock == RecordingLabel(recordingDuration)
      ensures 0 <= old(recordingDuration) < INT32_MAX ==>
        recordingDuration == old(recordingDuration) + 1 && ReadClock(clock) == Some(recordingDuration)
      ensures isRecording == old(isRecording) && recordingTimerRunning == old(recordingTimerRunning)
      ensures feedSource == old(feedSource) && cameraActive == old(cameraActive) && settings == old(settings)
    {
      recordingDuration := ToInt32(recordingDuration + 1);
      clock := RecordingLabel(recordingDuration);
      if 0 <= recordingDuration {
        RecordingLabelRoundTrip(recordingDuration);
      }
    }

    /** onToggleFullscreen */
    method OnToggleFullscreen()
      modifies this
      ensures isFullscreen == !old(isFullscreen)
      ensures feedSource == old(feedSource) && isRecording == old(isRecording) && settings == old(settings)
    {
      isFullscreen := !isFullscreen;
    }

    /** onZoomChanged: only the zoom changes. */
    method OnZoomChanged(value: int)
      modifies this
      ensures settings == old(settings).(zoom := value)
      ensures feedSource == old(feedSource) && isRecording == old(isRecording) && recordingDuration == old(recordingDuration)
    {
      settings := settings.(zoom := value);
    }

    /** onQualityChanged: only the quality changes. */
    method OnQualityChanged(quality: string)
      modifies this
      ensures settings == old(settings).(quality := quality)
      ensures feedSource == old(feedSource) && isRecording == old(isRecording) && recordingDuration == old(recordingDuration)
    {
      settings := settings.(quality := quality);
    }

    /** onFormatChanged: only the format changes; a recording already
      * started keeps the file name it was given. */
    method OnFormatChanged(format: string)
      modifies this
      ensures settings == old(settings).(format := format)
      ensures currentRecordingPath == old(currentRecordingPath)
      ensures feedSource == old(feedSource) && isRecording == old(isRecording) && recordingDuration == old(recordingDuration)
    {
      settings := settings.(format := format);
    }

    /** onFramerateChanged: only the frame rate changes. */
    method OnFramerateChanged(framerate: int)
      modifies this
      ensures settings == old(settings).(framerate := framerate)
      ensures feedSource == old(feedSource) && isRecording == old(isRecording) && recordingDuration == old(recordingDuration)
    {
      settings := settings.(framerate := framerate);
    }
  }
}
