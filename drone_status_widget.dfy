/**
 * The drone status panel (dronestatuswidget.cpp): the DroneStatus record,
 * the battery classification, which flight controls are enabled, the
 * bounded message list, and the slots that change the panel's state,
 * including the simulated drone it shows until a real one connects.
 * Dialog answers, the wall clock and the sine waves the simulation draws
 * from the clock are parameters.
 */
module DroneStatusWidget {
  import opened Json
  import opened Geometry
  import opened Numeric

  /** struct DroneStatus */
  datatype DroneStatus = DroneStatus(
    connected: bool,
    batteryPercentage: real,
    batteryVoltage: real,
    flightMode: string,
    armed: bool,
    gpsLock: bool,
    gpsNumSats: int,
    altitude: real,
    groundSpeed: real,
    verticalSpeed: real,
    position: Vec3,
    velocity: Vec3,
    attitude: Vec3,
    lastHeartbeat: string,
    systemStatus: string,
    errors: seq<string>,
    warnings: seq<string>)

  /** The status a panel (and a controller) starts from. */
  const InitialStatus: DroneStatus := DroneStatus(
    false, 0.0, 0.0, "UNKNOWN", false, false, 0, 0.0, 0.0, 0.0,
    Origin, Origin, Origin, "", "STANDBY", [], [])

  // ---------------------------------------------------------------------
  // Battery display

  datatype BatteryLevel = Good | Warning | Critical

  /** The battery label: Good above 50%, Warning above 25%, else Critical. */
  function BatteryLevelOf(percentage: real): (level: BatteryLevel)
    ensures level == Good <==> percentage > 50.0
    ensures level == Warning <==> 25.0 < percentage <= 50.0
    ensures level == Critical <==> percentage <= 25.0
  {
    if percentage > 50.0 then Good
    else if percentage > 25.0 then Warning
    else Critical
  }

  /** How bad a level is: 0 for Good up to 2 for Critical. */
  function Severity(level: BatteryLevel): nat {
    match level
    case Good => 0
    case Warning => 1
    case Critical => 2
  }

  /** More charge never reads as a worse battery. */
  lemma BatteryLevelMonotone(p: real, q: real)
    requires p <= q
    ensures Severity(BatteryLevelOf(q)) <= Severity(BatteryLevelOf(p))
  {
  }

  /** The colour of the status text and of the bar's chunk. */
  function BatteryColor(level: BatteryLevel): (color: string)
    ensures level == Good ==> color == "#10b981"
    ensures level == Warning ==> color == "#f59e0b"
    ensures level == Critical ==> color == "#ef4444"
  {
    match level
    case Good => "#10b981"
    case Warning => "#f59e0b"
    case Critical => "#ef4444"
  }

  /** The progress bar's value: the percentage cast to int. */
  function BarValue(percentage: real): (value: int)
    ensures 0.0 <= percentage ==> 0 <= value && value as real <= percentage < value as real + 1.0
  {
    Truncate(percentage)
  }

  /** A charge within 0..100 shows a bar within the bar's range. */
  lemma BarValueInRange(percentage: real)
    requires 0.0 <= percentage <= 100.0
    ensures 0 <= BarValue(percentage) <= 100
  {
  }

  // ---------------------------------------------------------------------
  // Flight controls

  datatype Controls = Controls(
    flightModeEnabled: bool,
    armText: string,
    armEnabled: bool,
    takeoffEnabled: bool,
    landEnabled: bool,
    rtlEnabled: bool,
    emergencyStopEnabled: bool)

  /** updateControlsDisplay: without a connection nothing is enabled;
    * takeoff needs arming and a GPS lock; the flight mode and landing are
    * never offered together. */
  function ControlsFor(status: DroneStatus): (c: Controls)
    ensures !status.connected ==>
      !c.flightModeEnabled && !c.armEnabled && !c.takeoffEnabled
      && !c.landEnabled && !c.rtlEnabled && !c.emergencyStopEnabled
    ensures c.takeoffEnabled <==> status.connected && status.armed && status.gpsLock
    ensures !(c.flightModeEnabled && c.landEnabled)
  {
    var connected := status.connected;
    var armed := status.armed;
    Controls(
      connected && !armed,
      if armed then "DISARM" else "ARM",
      connected,
      connected && armed && status.gpsLock,
      connected && armed,
      connected && armed,
      connected)
  }

  /** What the enable rules guarantee: nothing but nothing is enabled
    * without a connection; takeoff also needs arming and a GPS lock, and
    * then landing, return-to-launch, disarming and the emergency stop are
    * all available; the flight mode can only be changed while disarmed,
    * so never while landing is offered; the arm button offers the
    * opposite of the current state. */
  lemma ControlsSafety(status: DroneStatus)
    ensures var c := ControlsFor(status);
      && (!status.connected ==>
            !c.flightModeEnabled && !c.armEnabled && !c.takeoffEnabled
            && !c.landEnabled && !c.rtlEnabled && !c.emergencyStopEnabled)
      && (c.takeoffEnabled <==> status.connected && status.armed && status.gpsLock)
      && (c.takeoffEnabled ==> c.landEnabled && c.rtlEnabled && c.armEnabled && c.emergencyStopEnabled)
      && (c.landEnabled <==> c.rtlEnabled)
      && !(c.flightModeEnabled && c.landEnabled)
      && (c.flightModeEnabled || c.landEnabled <==> status.connected)
      && (c.armText == "DISARM" <==> status.armed)
  {
  }

  // ---------------------------------------------------------------------
  // Messages

  /** A line of the message list: its text and its colour. */
  datatype LogEntry = LogEntry(text: string, color: string)

  const MaxMessages: nat := 100

  function MessageColor(kind: string): (color: string)
    ensures kind == "error" ==> color == "#ef4444"
    ensures kind == "warning" ==> color == "#f59e0b"
    ensures kind == "info" ==> color == "#3b82f6"
    ensures kind !in {"error", "warning", "info"} ==> color == "#9ca3af"
  {
    if kind == "error" then "#ef4444"
    else if kind == "warning" then "#f59e0b"
    else if kind == "info" then "#3b82f6"
    else "#9ca3af"
  }

  /** The icons, as the characters the source file holds for them (the
    * emoji are stored mis-encoded there). */
  function MessageIcon(kind: string): string {
    if kind == "error" then "\U{E2}\U{152}"
    else if kind == "warning" then "\U{E2}\U{161}\U{A0}\U{EF}\U{B8}"
    else if kind == "info" then "\U{E2}\U{201E}\U{B9}\U{EF}\U{B8}"
    else "\U{F0}\U{178}\U{201C}"
  }

  /** "[timestamp] icon message" in the type's colour. */
  function Entry(message: string, kind: string, timestamp: string): (e: LogEntry)
    ensures e.color == MessageColor(kind)
  {
    LogEntry("[" + timestamp + "] " + MessageIcon(kind) + " " + message, MessageColor(kind))
  }

  /** The list kept to its first MaxMessages lines. */
  function Capped(entries: seq<LogEntry>): (r: seq<LogEntry>)
    ensures |r| == if |entries| <= MaxMessages then |entries| else MaxMessages
    ensures r == entries[..|r|]
  {
    if |entries| <= MaxMessages then entries else entries[..MaxMessages]
  }

  /** The list after one message is inserted at the top and trimmed. */
  function Pushed(messages: seq<LogEntry>, e: LogEntry): (r: seq<LogEntry>)
    ensures 1 <= |r| <= MaxMessages && |r| <= |messages| + 1
    ensures r[0] == e && r[1..] == messages[..|r| - 1]
  {
    Capped([e] + messages)
  }

  /** The list after several messages, in the order they were added. */
  function PushedAll(messages: seq<LogEntry>, es: seq<LogEntry>): seq<LogEntry>
    decreases |es|
  {
    if es == [] then messages else PushedAll(Pushed(messages, es[0]), es[1..])
  }

  function Reversed(es: seq<LogEntry>): (r: seq<LogEntry>)
    ensures |r| == |es|
    ensures forall k :: 0 <= k < |es| ==> r[k] == es[|es| - 1 - k]
    decreases |es|
  {
    if es == [] then [] else Reversed(es[1..]) + [es[0]]
  }

  /** Trimming before an insertion loses nothing the later trim keeps. */
  lemma PushCapped(messages: seq<LogEntry>, e: LogEntry)
    ensures Pushed(Capped(messages), e) == Capped([e] + messages)
  {
    if |messages| > MaxMessages {
      assert ([e] + messages[..MaxMessages])[..MaxMessages] == ([e] + messages)[..MaxMessages];
    }
  }

  /** After any run of messages the list holds the newest MaxMessages of
    * everything shown, newest first. */
  lemma {:induction false} PushedAllNewestFirst(messages: seq<LogEntry>, es: seq<LogEntry>)
    requires |messages| <= MaxMessages
    ensures PushedAll(messages, es) == Capped(Reversed(es) + messages)
    decreases |es|
  {
    if es == [] {
      assert Reversed(es) + messages == messages;
    } else {
      var rest := es[1..];
      calc {
        PushedAll(messages, es);
        PushedAll(Pushed(messages, es[0]), rest);
        { PushedAllNewestFirst(Pushed(messages, es[0]), rest); }
        Capped(Reversed(rest) + Capped([es[0]] + messages));
        { CappedPrefix(Reversed(rest), [es[0]] + messages); }
        Capped(Reversed(rest) + ([es[0]] + messages));
        { assert Reversed(rest) + ([es[0]] + messages) == Reversed(es) + messages; }
        Capped(Reversed(es) + messages);
      }
    }
  }

  /** Capping what comes after a prefix changes nothing the cap keeps. */
  lemma CappedPrefix(front: seq<LogEntry>, back: seq<LogEntry>)
    ensures Capped(front + Capped(back)) == Capped(front + back)
  {
    if |back| > MaxMessages {
      var n := |front + Capped(back)|;
      if n > MaxMessages {
        assert (front + Capped(back))[..MaxMessages] == (front + back)[..MaxMessages];
      }
    }
  }

  // ---------------------------------------------------------------------
  // The simulated drone

  /** One tick's battery drain: 0.01% less, back to 100% once below 0. */
  function Drained(level: real): (r: real)
    ensures 0.0 <= level <= 100.0 ==> 0.0 <= r <= 100.0
    ensures 0.01 <= level ==> r == level - 0.01
    ensures level < 0.01 ==> r == 100.0
  {
    if level - 0.01 < 0.0 then 100.0 else level - 0.01
  }

  /** The level after n ticks. */
  function DrainedTimes(level: real, n: nat): real
    decreases n
  {
    if n == 0 then level else DrainedTimes(Drained(level), n - 1)
  }

  /** While the charge lasts it falls by exactly 0.01% a tick. */
  lemma {:induction false} DrainIsLinear(level: real, n: nat)
    requires n as real * 0.01 <= level
    ensures DrainedTimes(level, n) == level - n as real * 0.01
    decreases n
  {
    if n > 0 {
      assert 0.01 <= level;
      DrainIsLinear(level - 0.01, n - 1);
    }
  }

  /** The clock-driven values of one simulation tick: the sines and the
    * cosine the simulated altitude, climb rate and attitude follow, and
    * the time of day as text. */
  datatype Waves = Waves(altitude: real, vertical: real, roll: real, pitch: real, clock: string)

  /** The status the simulation reports for a battery level. */
  function SimulatedStatus(level: real, flightMode: string, armed: bool, w: Waves): (s: DroneStatus)
    ensures s.connected && s.gpsLock && s.gpsNumSats == 12
    ensures s.batteryPercentage == level
    ensures 0.0 <= level <= 100.0 ==> 11.1 <= s.batteryVoltage <= 12.6
    ensures s.armed == armed && s.flightMode == flightMode
    ensures s.systemStatus == (if armed then "ACTIVE" else "STANDBY")
  {
    var altitude := 10.5 + w.altitude * 2.0;
    var groundSpeed := if armed then 2.5 else 0.0;
    var verticalSpeed := w.vertical * 0.5;
    DroneStatus(
      true, level, 11.1 + (level / 100.0) * 1.5, flightMode, armed, true, 12,
      altitude, groundSpeed, verticalSpeed,
      Vec3(37.7749, -122.4194, altitude),
      Vec3(groundSpeed, 0.0, verticalSpeed),
      Vec3(w.roll * 5.0, w.pitch * 3.0, 45.0),
      w.clock, if armed then "ACTIVE" else "STANDBY", [], [])
  }

  class DroneStatusWidget {
    var currentStatus: DroneStatus
    var simulationMode: bool
    var simBatteryLevel: real
    var simArmed: bool
    var simFlightMode: string
    /** The message list, newest first. */
    var messages: seq<LogEntry>

    /** The simulated charge stays a percentage and the list stays bounded. */
    predicate Valid()
      reads this
    {
      0.0 <= simBatteryLevel <= 100.0 && |messages| <= MaxMessages
    }

    /** The panel starts disconnected, simulating an 85% battery, with its
      * two start-up messages. */
    constructor (timestamp: string)
      ensures Valid()
      ensures currentStatus == InitialStatus
      ensures simulationMode && simBatteryLevel == 85.0 && !simArmed && simFlightMode == "STABILIZE"
      ensures messages == [
        Entry("Running in simulation mode - Connect to real drone to see live data", "warning", timestamp),
        Entry("Drone Status Widget initialized", "info", timestamp)]
    {
      currentStatus := InitialStatus;
      simulationMode := true;
      simBatteryLevel := 85.0;
      simArmed := false;
      simFlightMode := "STABILIZE";
      messages := [];
      new;
      AddMessage("Drone Status Widget initialized", "info", timestamp);
      AddMessage("Running in simulation mode - Connect to real drone to see live data", "warning", timestamp);
    }

    /** The battery level, bar value and controls the panel shows. */
    function Display(): (d: (BatteryLevel, int, Controls))
      reads this
      ensures d.0 == BatteryLevelOf(currentStatus.batteryPercentage)
      ensures d.2.takeoffEnabled ==> currentStatus.connected && currentStatus.armed && currentStatus.gpsLock
    {
      (BatteryLevelOf(currentStatus.batteryPercentage), BarValue(currentStatus.batteryPercentage), ControlsFor(currentStatus))
    }

    /** addMessage: the entry goes on top and the oldest lines are dropped
      * until at most MaxMessages remain. */
    method AddMessage(message: string, kind: string, timestamp: string)
      modifies this
      ensures messages == Pushed(old(messages), Entry(message, kind, timestamp))
      ensures |messages| <= MaxMessages
      ensures messages[0] == Entry(message, kind, timestamp)
      ensures currentStatus == old(currentStatus) && simulationMode == old(simulationMode)
      ensures simBatteryLevel == old(simBatteryLevel) && simArmed == old(simArmed) && simFlightMode == old(simFlightMode)
    {
      var list := [Entry(message, kind, timestamp)] + messages;
      ghost var full := list;
      while |list| > MaxMessages
        invariant MaxMessages <= |list| <= |full| || list == full
        invariant list == full[..|list|]
        decreases |list|
      {
        list := list[..|list| - 1];
      }
      messages := list;
    }

    /** updateDroneStatus */
    method UpdateDroneStatus(status: DroneStatus)
      modifies this
      ensures currentStatus == status
      ensures simulationMode == old(simulationMode) && simBatteryLevel == old(simBatteryLevel)
      ensures simArmed == old(simArmed) && simFlightMode == old(simFlightMode) && messages == old(messages)
    {
      currentStatus := status;
    }

    /** setConnectionStatus: a connection ends the simulation, losing it
      * starts the simulation again. */
    method SetConnectionStatus(connected: bool, timestamp: string)
      modifies this
      ensures currentStatus == old(currentStatus).(connected := connected)
      ensures simulationMode == !connected
      ensures messages == Pushed(old(messages),
        if connected then Entry("Connected to drone", "info", timestamp)
        else Entry("Disconnected from drone", "warning", timestamp))
      ensures simBatteryLevel == old(simBatteryLevel) && simArmed == old(simArmed) && simFlightMode == old(simFlightMode)
    {
      currentStatus := currentStatus.(connected := connected);
      if connected {
        AddMessage("Connected to drone", "info", timestamp);
        simulationMode := false;
      } else {
        AddMessage("Disconnected from drone", "warning", timestamp);
        simulationMode := true;
      }
    }

    /** The simulation timer: in simulation mode the battery drains one
      * step and the panel shows the simulated status. */
    method SimulationTick(w: Waves)
      requires Valid()
      modifies this
      ensures Valid()
      ensures old(simulationMode) ==>
        && simBatteryLevel == Drained(old(simBatteryLevel))
        && currentStatus == SimulatedStatus(simBatteryLevel, simFlightMode, simArmed, w)
      ensures !old(simulationMode) ==> simBatteryLevel == old(simBatteryLevel) && currentStatus == old(currentStatus)
      ensures simulationMode == old(simulationMode) && simArmed == old(simArmed)
      ensures simFlightMode == old(simFlightMode) && messages == old(messages)
    {
      if simulationMode {
        simBatteryLevel := simBatteryLevel - 0.01;
        if simBatteryLevel < 0.0 {
          simBatteryLevel := 100.0;
        }
        UpdateDroneStatus(SimulatedStatus(simBatteryLevel, simFlightMode, simArmed, w));
      }
    }

    /** onArmDisarmClicked: arming asks first, disarming does not; the
      * request carries the opposite of the current state, and in
      * simulation mode the simulated drone follows at once. */
    method OnArmDisarmClicked(confirmed: bool, timestamp: string) returns (requested: Option<bool>)
      modifies this
      ensures requested.None? <==> !old(currentStatus).armed && !confirmed
      ensures requested.Some? ==> requested.value == !old(currentStatus).armed
      ensures requested.Some? && old(simulationMode) ==>
        && simArmed == requested.value
        && messages == Pushed(old(messages),
             Entry(if requested.value then "Drone armed" else "Drone disarmed", "info", timestamp))
      ensures !(requested.Some? && old(simulationMode)) ==> simArmed == old(simArmed) && messages == old(messages)
      ensures currentStatus == old(currentStatus) && simulationMode == old(simulationMode)
      ensures simBatteryLevel == old(simBatteryLevel) && simFlightMode == old(simFlightMode)
    {
      var shouldArm := !currentStatus.armed;
      if shouldArm && !confirmed {
        return None;
      }
      requested := Some(shouldArm);
      if simulationMode {
        simArmed := shouldArm;
        AddMessage(if shouldArm then "Drone armed" else "Drone disarmed", "info", timestamp);
      }
    }

    /** A confirmed command button: the request goes out and is logged. */
    method ConfirmedCommand(confirmed: bool, message: string, kind: string, timestamp: string) returns (requested: bool)
      modifies this
      ensures requested == confirmed
      ensures confirmed ==> messages == Pushed(old(messages), Entry(message, kind, timestamp))
      ensures !confirmed ==> messages == old(messages)
      ensures currentStatus == old(currentStatus) && simulationMode == old(simulationMode)
      ensures simBatteryLevel == old(simBatteryLevel) && simArmed == old(simArmed) && simFlightMode == old(simFlightMode)
    {
      if confirmed {
        AddMessage(message, kind, timestamp);
      }
      return confirmed;
    }

    /** onTakeoffClicked */
    method OnTakeoffClicked(confirmed: bool, timestamp: string) returns (requested: bool)
      modifies this
      ensures requested == confirmed
      ensures confirmed ==> messages == Pushed(old(messages), Entry("Takeoff initiated", "info", timestamp))
      ensures !confirmed ==> messages == old(messages)
      ensures currentStatus == old(currentStatus) && simulationMode == old(simulationMode)
      ensures simBatteryLevel == old(simBatteryLevel) && simArmed == old(simArmed) && simFlightMode == old(simFlightMode)
    {
      requested := ConfirmedCommand(confirmed, "Takeoff initiated", "info", timestamp);
    }

    /** onLandClicked */
    method OnLandClicked(confirmed: bool, timestamp: string) returns (requested: bool)
      modifies this
      ensures requested == confirmed
      ensures confirmed ==> messages == Pushed(old(messages), Entry("Landing initiated", "info", timestamp))
      ensures !confirmed ==> messages == old(messages)
      ensures currentStatus == old(currentStatus) && simulationMode == old(simulationMode)
      ensures simBatteryLevel == old(simBatteryLevel) && simArmed == old(simArmed) && simFlightMode == old(simFlightMode)
    {
      requested := ConfirmedCommand(confirmed, "Landing initiated", "info", timestamp);
    }

    /** onRTLClicked */
    method OnRTLClicked(confirmed: bool, timestamp: string) returns (requested: bool)
      modifies this
      ensures requested == confirmed
      ensures confirmed ==> messages == Pushed(old(messages), Entry("Return to launch initiated", "info", timestamp))
      ensures !confirmed ==> messages == old(messages)
      ensures currentStatus == old(currentStatus) && simulationMode == old(simulationMode)
      ensures simBatteryLevel == old(simBatteryLevel) && simArmed == old(simArmed) && simFlightMode == old(simFlightMode)
    {
      requested := ConfirmedCommand(confirmed, "Return to launch initiated", "info", timestamp);
    }

    /** onEmergencyStopClicked: logged as an error. */
    method OnEmergencyStopClicked(confirmed: bool, timestamp: string) returns (requested: bool)
      modifies this
      ensures requested == confirmed
      ensures confirmed ==> messages == Pushed(old(messages), Entry("EMERGENCY STOP ACTIVATED", "error", timestamp))
      ensures !confirmed ==> messages == old(messages)
      ensures currentStatus == old(currentStatus) && simulationMode == old(simulationMode)
      ensures simBatteryLevel == old(simBatteryLevel) && simArmed == old(simArmed) && simFlightMode == old(simFlightMode)
    {
      requested := ConfirmedCommand(confirmed, "EMERGENCY STOP ACTIVATED", "error", timestamp);
    }

    /** onFlightModeChanged: acted on only while connected; the simulated
      * drone takes the mode at once. */
    method OnFlightModeChanged(mode: string, timestamp: string) returns (requested: Option<string>)
      modifies this
      ensures requested.Some? <==> old(currentStatus).connected
      ensures requested.Some? ==> requested.value == mode
      ensures old(currentStatus).connected ==>
        messages == Pushed(old(messages), Entry("Flight mode change requested: " + mode, "info", timestamp))
      ensures !old(currentStatus).connected ==> messages == old(messages)
      ensures simFlightMode == (if old(currentStatus).connected && old(simulationMode) then mode else old(simFlightMode))
      ensures currentStatus == old(currentStatus) && simulationMode == old(simulationMode)
      ensures simBatteryLevel == old(simBatteryLevel) && simArmed == old(simArmed)
    {
      if !currentStatus.connected {
        return None;
      }
      requested := Some(mode);
      AddMessage("Flight mode change requested: " + mode, "info", timestamp);
      if simulationMode {
        simFlightMode := mode;
      }
    }

    /** onStatusUpdateTimer: while connected the heartbeat time is now. */
    method OnStatusUpdateTimer(clock: string)
      modifies this
      ensures currentStatus == (if old(currentStatus).connected then old(currentStatus).(lastHeartbeat := clock) else old(currentStatus))
      ensures simulationMode == old(simulationMode) && simBatteryLevel == old(simBatteryLevel)
      ensures simArmed == old(simArmed) && simFlightMode == old(simFlightMode) && messages == old(messages)
    {
      if currentStatus.connected {
        currentStatus := currentStatus.(lastHeartbeat := clock);
      }
    }

    /** onClearMessages: only the note that the list was cleared remains. */
    method OnClearMessages(timestamp: string)
      modifies this
      ensures messages == [Entry("Messages cleared", "info", timestamp)]
      ensures currentStatus == old(currentStatus) && simulationMode == old(simulationMode)
      ensures simBatteryLevel == old(simBatteryLevel) && simArmed == old(simArmed) && simFlightMode == old(simFlightMode)
    {
      messages := [];
      AddMessage("Messages cleared", "info", timestamp);
    }
  }
}
