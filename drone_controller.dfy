/**
 * The drone controller (dronecontroller.cpp): the connection state with
 * its timers, the address it dials, the command guard, and how telemetry
 * messages from the VOXL link update the drone's status. The link itself
 * is outside the model: whether a dial was accepted is a parameter, and
 * what the controller sends or emits is returned.
 */
module DroneController {
  import opened Json
  import opened Geometry
  import opened DroneStatusWidget

  /** The controller's signals. */
  datatype Signal =
    | ConnectionStatusChanged(connected: bool)
    | StatusUpdated(status: DroneStatus)
    | MessageReceived(message: string)
    | ErrorOccurred(error: string)

  /** A command handed to the link. */
  datatype Command = Command(name: string, params: map<string, Json>)

  /** The values connectionStatusChanged announces while the link reports
    * a series of states, starting from the given state: only a report
    * that differs from the current state is announced. */
  function Announcements(connected: bool, reports: seq<bool>): seq<bool>
    decreases |reports|
  {
    if reports == [] then []
    else if reports[0] == connected then Announcements(connected, reports[1..])
    else [reports[0]] + Announcements(reports[0], reports[1..])
  }

  /** The state after a series of reports: the last one, if any. */
  function Settled(connected: bool, reports: seq<bool>): bool {
    if reports == [] then connected else reports[|reports| - 1]
  }

  /** Announcements never repeat: they alternate, the first one being the
    * opposite of the starting state, and there are never more of them than
    * reports; an odd number of them leaves the state flipped. */
  lemma {:induction false} AnnouncementsAlternate(connected: bool, reports: seq<bool>)
    ensures var a := Announcements(connected, reports);
      && |a| <= |reports|
      && (forall k :: 0 <= k < |a| ==> a[k] == (if k % 2 == 0 then !connected else connected))
      && (Settled(connected, reports) != connected <==> |a| % 2 == 1)
    decreases |reports|
  {
    if reports != [] {
      var rest := reports[1..];
      AnnouncementsAlternate(reports[0], rest);
      assert Settled(connected, reports) == Settled(reports[0], rest);
      if reports[0] != connected {
        var a := Announcements(connected, reports);
        var tail := Announcements(reports[0], rest);
        assert a == [reports[0]] + tail;
        forall k | 0 <= k < |a|
          ensures a[k] == (if k % 2 == 0 then !connected else connected)
        {
          if k > 0 {
            assert a[k] == tail[k - 1];
          }
        }
      }
    }
  }

  /** How a "status" message's payload changes the status: the battery
    * fields when it has "battery", the position and altitude when it has
    * "position"; absent numbers read as 0. */
  function ApplyStatusData(status: DroneStatus, statusData: map<string, Json>): (s: DroneStatus)
    ensures "battery" in statusData ==>
      var battery := ToObj(statusData["battery"]);
      s.batteryPercentage == ToDouble(Get(battery, "percentage")) && s.batteryVoltage == ToDouble(Get(battery, "voltage"))
    ensures "battery" !in statusData ==>
      s.batteryPercentage == status.batteryPercentage && s.batteryVoltage == status.batteryVoltage
    ensures "position" in statusData ==>
      var pos := ToObj(statusData["position"]);
      && s.position == Vec3(ToDouble(Get(pos, "lat")), ToDouble(Get(pos, "lon")), ToDouble(Get(pos, "alt")))
      && s.altitude == s.position.z
    ensures "position" !in statusData ==> s.position == status.position && s.altitude == status.altitude
    ensures s == status.(batteryPercentage := s.batteryPercentage, batteryVoltage := s.batteryVoltage,
                         position := s.position, altitude := s.altitude)
  {
    var withBattery :=
      if "battery" in statusData then
        var battery := ToObj(statusData["battery"]);
        status.(batteryPercentage := ToDouble(Get(battery, "percentage")), batteryVoltage := ToDouble(Get(battery, "voltage")))
      else status;
    if "position" in statusData then
      var pos := ToObj(statusData["position"]);
      var alt := ToDouble(Get(pos, "alt"));
      withBattery.(position := Vec3(ToDouble(Get(pos, "lat")), ToDouble(Get(pos, "lon")), alt), altitude := alt)
    else withBattery
  }

  /** The same telemetry applied twice is the same as applied once. */
  lemma ApplyStatusDataIdempotent(status: DroneStatus, statusData: map<string, Json>)
    ensures ApplyStatusData(ApplyStatusData(status, statusData), statusData) == ApplyStatusData(status, statusData)
  {
  }

  /** Telemetry without "battery" and "position" changes nothing, and
    * telemetry never touches the connection, arming or flight mode. */
  lemma ApplyStatusDataKeepsTheRest(status: DroneStatus, statusData: map<string, Json>)
    ensures "battery" !in statusData && "position" !in statusData ==> ApplyStatusData(status, statusData) == status
    ensures var s := ApplyStatusData(status, statusData);
      s.connected == status.connected && s.armed == status.armed && s.flightMode == status.flightMode
  {
  }

  class DroneController {
    var connected: bool
    var currentStatus: DroneStatus
    var droneHost: string
    var dronePort: int
    var silMode: bool
    var silHost: string
    var silPort: int
    var heartbeatRunning: bool
    var statusTimerRunning: bool
    var manualControlTimerRunning: bool

    /** The status mirrors the connection, both periodic timers run exactly
      * while connected, and manual control never runs disconnected. */
    predicate Valid()
      reads this
    {
      && currentStatus.connected == connected
      && heartbeatRunning == connected
      && statusTimerRunning == connected
      && (!connected ==> !manualControlTimerRunning)
    }

    /** Disconnected, in software-in-the-loop mode against the local
      * simulator, with the real drone's default address remembered. */
    constructor ()
      ensures Valid()
      ensures !connected && currentStatus == InitialStatus
      ensures droneHost == "192.168.1.10" && dronePort == 14550
      ensures silMode && silHost == "127.0.0.1" && silPort == 14550
    {
      connected := false;
      currentStatus := InitialStatus;
      droneHost := "192.168.1.10";
      dronePort := 14550;
      silMode := true;
      silHost := "127.0.0.1";
      silPort := 14550;
      heartbeatRunning := false;
      statusTimerRunning := false;
      manualControlTimerRunning := false;
    }

    /** updateConnectionStatus: a report equal to the current state does
      * nothing; a change sets both flags, starts or stops the timers (and
      * stops manual control on a disconnect) and is announced once,
      * followed by the new status. */
    method UpdateConnectionStatus(c: bool) returns (signals: seq<Signal>)
      requires Valid()
      modifies this
      ensures Valid()
      ensures connected == c
      ensures signals == (if old(connected) == c then [] else [ConnectionStatusChanged(c), StatusUpdated(currentStatus)])
      ensures signals != [] <==> Announcements(old(connected), [c]) == [c]
      ensures old(connected) == c ==> currentStatus == old(currentStatus) && manualControlTimerRunning == old(manualControlTimerRunning)
      ensures old(connected) != c ==> currentStatus == old(currentStatus).(connected := c)
      ensures old(connected) != c ==> manualControlTimerRunning == (c && old(manualControlTimerRunning))
      ensures droneHost == old(droneHost) && dronePort == old(dronePort)
      ensures silMode == old(silMode) && silHost == old(silHost) && silPort == old(silPort)
    {
      if connected == c {
        return [];
      }
      connected := c;
      currentStatus := currentStatus.(connected := c);
      if c {
        heartbeatRunning := true;
        statusTimerRunning := true;
      } else {
        heartbeatRunning := false;
        statusTimerRunning := false;
        if manualControlTimerRunning {
          manualControlTimerRunning := false;
        }
      }
      signals := [ConnectionStatusChanged(c), StatusUpdated(currentStatus)];
    }

    /** onVOXLConnectionStatusChanged */
    method OnVOXLConnectionStatusChanged(c: bool) returns (signals: seq<Signal>)
      requires Valid()
      modifies this
      ensures Valid()
      ensures connected == c
      ensures signals == (if old(connected) == c then [] else [ConnectionStatusChanged(c), StatusUpdated(currentStatus)])
      ensures currentStatus == old(currentStatus).(connected := c)
      ensures droneHost == old(droneHost) && dronePort == old(dronePort)
      ensures silMode == old(silMode) && silHost == old(silHost) && silPort == old(silPort)
    {
      signals := UpdateConnectionStatus(c);
    }

    /** connectToDrone: the address given is remembered, but in SIL mode
      * the simulator's address is dialled instead. Whether the link took
      * the dial is `accepted`; the connection state changes only when the
      * link later reports it. */
    method ConnectToDrone(host: string, port: int, accepted: bool)
      returns (success: bool, dialled: (string, int), signals: seq<Signal>)
      modifies this
      ensures droneHost == host && dronePort == port
      ensures dialled == (if silMode then (silHost, silPort) else (host, port))
      ensures success == accepted
      ensures signals == [
        MessageReceived("Connecting to drone at " + dialled.0 + ":" + IntToString(dialled.1)
                        + (if silMode then " (SIL Mode)" else "")),
        if success then MessageReceived("Connection initiated...") else ErrorOccurred("Failed to initiate connection")]
      ensures connected == old(connected) && currentStatus == old(currentStatus)
      ensures silMode == old(silMode) && silHost == old(silHost) && silPort == old(silPort)
      ensures heartbeatRunning == old(heartbeatRunning) && statusTimerRunning == old(statusTimerRunning)
      ensures manualControlTimerRunning == old(manualControlTimerRunning)
    {
      droneHost := host;
      dronePort := port;
      var connectHost := if silMode then silHost else host;
      var connectPort := if silMode then silPort else port;
      dialled := (connectHost, connectPort);
      var opening := MessageReceived("Connecting to drone at " + connectHost + ":" + IntToString(connectPort)
                                     + (if silMode then " (SIL Mode)" else ""));
      success := accepted;
      if success {
        signals := [opening, MessageReceived("Connection initiated...")];
      } else {
        signals := [opening, ErrorOccurred("Failed to initiate connection")];
      }
    }

    /** disconnectFromDrone: the controller ends disconnected with every
      * timer stopped, whatever state it was in. (The link's own
      * "disconnected" report, if it comes first, makes the same change,
      * and this call then announces nothing.) */
    method DisconnectFromDrone() returns (signals: seq<Signal>)
      requires Valid()
      modifies this
      ensures Valid()
      ensures !connected && !heartbeatRunning && !statusTimerRunning && !manualControlTimerRunning
      ensures currentStatus == old(currentStatus).(connected := false)
      ensures signals ==
        (if old(connected) then [ConnectionStatusChanged(false), StatusUpdated(currentStatus)] else [])
        + [MessageReceived("Disconnected from drone")]
      ensures droneHost == old(droneHost) && dronePort == old(dronePort)
    {
      var changed := UpdateConnectionStatus(false);
      signals := changed + [MessageReceived("Disconnected from drone")];
    }

    /** sendCommand: forwarded to the link only while connected. */
    method SendCommand(name: string, params: map<string, Json>) returns (sent: Option<Command>)
      ensures sent.Some? <==> connected
      ensures sent.Some? ==> sent.value == Command(name, params)
    {
      if connected {
        return Some(Command(name, params));
      }
      return None;
    }

    /** onHeartbeatTimer: a "heartbeat" command while connected. */
    method OnHeartbeatTimer() returns (sent: Option<Command>)
      ensures sent.Some? <==> connected
      ensures sent.Some? ==> sent.value == Command("heartbeat", map[])
    {
      sent := SendCommand("heartbeat", map[]);
    }

    /** onStatusUpdateTimer: a status request while connected. */
    method OnStatusUpdateTimer() returns (requested: bool)
      ensures requested == connected
    {
      requested := connected;
    }

    /** onVOXLDataReceived: "status" updates the status and announces it,
      * "error" and "info" pass the message on, any other type is ignored. */
    method OnVOXLDataReceived(data: map<string, Json>) returns (signals: seq<Signal>)
      requires Valid()
      modifies this
      ensures Valid()
      ensures var kind := ToStr(Get(data, "type"));
        && (kind == "status" ==>
              currentStatus == ApplyStatusData(old(currentStatus), ToObj(Get(data, "data")))
              && signals == [StatusUpdated(currentStatus)])
        && (kind != "status" ==> currentStatus == old(currentStatus))
        && (kind == "error" ==> signals == [ErrorOccurred(ToStr(Get(data, "message")))])
        && (kind == "info" ==> signals == [MessageReceived(ToStr(Get(data, "message")))])
        && (kind !in {"status", "error", "info"} ==> signals == [])
      ensures connected == old(connected) && heartbeatRunning == old(heartbeatRunning)
      ensures statusTimerRunning == old(statusTimerRunning) && manualControlTimerRunning == old(manualControlTimerRunning)
      ensures droneHost == old(droneHost) && dronePort == old(dronePort)
      ensures silMode == old(silMode) && silHost == old(silHost) && silPort == old(silPort)
    {
      var kind := ToStr(Get(data, "type"));
      if kind == "status" {
        ApplyStatusDataKeepsTheRest(currentStatus, ToObj(Get(data, "data")));
        currentStatus := ApplyStatusData(currentStatus, ToObj(Get(data, "data")));
        signals := [StatusUpdated(currentStatus)];
      } else if kind == "error" {
        signals := [ErrorOccurred(ToStr(Get(data, "message")))];
      } else if kind == "info" {
        signals := [MessageReceived(ToStr(Get(data, "message")))];
      } else {
        signals := [];
      }
    }

    /** onVOXLError: the link's error, prefixed. */
    method OnVOXLError(error: string) returns (signal: Signal)
      ensures signal == ErrorOccurred("VOXL Error: " + error)
    {
      signal := ErrorOccurred("VOXL Error: " + error);
    }
  }
}
