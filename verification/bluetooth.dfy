/** The Bluetooth hook's state and the operations of the control path:
    sending a command (with de-duplication against the last command sent),
    connecting, disconnecting and the device-disconnected event. The radio
    itself is outside the model: what a device write, a connection attempt
    or a disconnection returns is passed in as a parameter, and the clock
    reading Date.now() is passed in as `now`. */
module Bluetooth {
  import opened BluetoothTypes
  import opened CommandEncoding

  datatype Device = Device(name: string, address: string)

  datatype Stats = Stats(bytesSent: nat, commandsSent: nat, lastCommandAt: Option<int>, connectionTime: Option<int>)

  const INITIAL_STATS := Stats(0, 0, None, None)

  /** What the device's write call did: reported a count of bytes, or threw. */
  datatype WriteResult = Written(count: nat) | WriteFailed

  /** What a discovery run produced: nothing (it returned before scanning),
      a throw before scanning (enabling Bluetooth or asking for permission),
      a throw while scanning, or the bonded and discovered devices. */
  datatype ScanResult = NotStarted | FailedBeforeScan | ScanFailed | Found(devices: seq<Device>)

  /** No command appears twice in a row. */
  ghost predicate NoConsecutiveRepeats(s: seq<CarCommand>) {
    forall i :: 0 < i < |s| ==> s[i - 1] != s[i]
  }

  /** The position of the first device with the given address, or |devices|. */
  function FirstWithAddress(devices: seq<Device>, address: string): (k: nat)
    ensures k <= |devices|
    ensures k < |devices| ==> devices[k].address == address
    ensures forall j :: 0 <= j < k ==> devices[j].address != address
  {
    if |devices| == 0 || devices[0].address == address then 0
    else 1 + FirstWithAddress(devices[1..], address)
  }

  /** devices.find(d => d.address === address). */
  function FindByAddress(devices: seq<Device>, address: string): (d: Option<Device>)
    ensures d.Some? ==> d.value in devices && d.value.address == address
    ensures d.Some? ==> d.value == devices[FirstWithAddress(devices, address)]
    ensures d.None? <==> forall i :: 0 <= i < |devices| ==> devices[i].address != address
  {
    var k := FirstWithAddress(devices, address);
    if k < |devices| then Some(devices[k]) else None
  }

  class Link {
    var status: ConnectionStatus
    var devices: seq<Device>
    var connectedDevice: Option<Device>
    var stats: Stats
    var lastCommand: Option<CarCommand>
    /** Every string handed to the device's write, in order. */
    ghost var writes: seq<string>
    /** The commands written successfully since the last disconnect(). */
    ghost var sent: seq<CarCommand>
    /** Every status the hook has set, in order. */
    ghost var statusLog: seq<ConnectionStatus>

    /** lastCommand is the last command written successfully since the last
        disconnect(), and no two successive successful writes carry the same
        command. */
    ghost predicate Valid()
      reads this
    {
      lastCommand == (if sent == [] then None else Some(sent[|sent| - 1])) &&
      NoConsecutiveRepeats(sent)
    }

    constructor ()
      ensures Valid()
      ensures status == Disconnected && devices == [] && connectedDevice == None
      ensures stats == INITIAL_STATS && lastCommand == None
      ensures writes == [] && sent == [] && statusLog == []
    {
      status := Disconnected;
      devices := [];
      connectedDevice := None;
      stats := INITIAL_STATS;
      lastCommand := None;
      writes, sent, statusLog := [], [], [];
    }

    /** What one sendCommand call does to the link, from the state before the
        call to the state after it. */
    twostate predicate SendCommandEffect(command: CarCommand, write: WriteResult, now: int)
      reads this
    {
      status == old(status) && devices == old(devices) && connectedDevice == old(connectedDevice) &&
      statusLog == old(statusLog) &&
      if old(connectedDevice).None? || old(lastCommand) == Some(command) then
        // nothing connected, or the same command as last time: nothing is written
        writes == old(writes) && sent == old(sent) &&
        lastCommand == old(lastCommand) && stats == old(stats)
      else
        writes == old(writes) + [Encode(command)] &&
        match write
        case Written(count) =>
          lastCommand == Some(command) && sent == old(sent) + [command] &&
          stats == old(stats).(bytesSent := old(stats).bytesSent + count,
                               commandsSent := old(stats).commandsSent + 1,
                               lastCommandAt := Some(now))
        case WriteFailed =>
          lastCommand == old(lastCommand) && sent == old(sent) && stats == old(stats)
    }

    /** sendCommand: refuse without a device, skip a repeat of the last
        command, otherwise write its wire string and record it. */
    method SendCommand(command: CarCommand, write: WriteResult, now: int) returns (ok: bool)
      requires Valid()
      modifies this
      ensures Valid()
      ensures SendCommandEffect(command, write, now)
      ensures ok <==> old(connectedDevice).Some? && (old(lastCommand) == Some(command) || write.Written?)
    {
      if connectedDevice.None? {
        return false;
      }
      if lastCommand.Some? && lastCommand.value.throttle == command.throttle
         && lastCommand.value.steeringAngle == command.steeringAngle {
        return true;
      }
      var commandStr := Encode(command);
      writes := writes + [commandStr];
      match write
      case WriteFailed =>
        ok := false;
      case Written(count) =>
        sent := sent + [command];
        lastCommand := Some(command);
        stats := stats.(bytesSent := stats.bytesSent + count,
                        commandsSent := stats.commandsSent + 1,
                        lastCommandAt := Some(now));
        ok := true;
    }

    /** startScan's effect on the state, once its outcome is known. */
    method Scan(result: ScanResult)
      requires Valid()
      modifies this
      ensures Valid()
      ensures result.NotStarted? ==> status == old(status) && devices == old(devices) && statusLog == old(statusLog)
      ensures result.FailedBeforeScan? ==>
                status == Disconnected && devices == old(devices) && statusLog == old(statusLog) + [Disconnected]
      ensures result.ScanFailed? ==>
                status == Disconnected && devices == old(devices) && statusLog == old(statusLog) + [Scanning, Disconnected]
      ensures result.Found? ==>
                status == Disconnected && devices == result.devices && statusLog == old(statusLog) + [Scanning, Disconnected]
      ensures connectedDevice == old(connectedDevice) && stats == old(stats) && lastCommand == old(lastCommand)
      ensures writes == old(writes) && sent == old(sent)
    {
      match result
      case NotStarted =>
      case FailedBeforeScan =>
        status := Disconnected;
        statusLog := statusLog + [Disconnected];
      case ScanFailed =>
        status := Disconnected;
        statusLog := statusLog + [Scanning, Disconnected];
      case Found(found) =>
        devices := found;
        status := Disconnected;
        statusLog := statusLog + [Scanning, Disconnected];
    }

    /** connect: 'connecting', then 'connected' when the device is in the list
        and accepts the connection, 'disconnected' on any failure. */
    method Connect(address: string, accepted: bool, now: int)
      requires Valid()
      modifies this
      ensures Valid()
      ensures var target := FindByAddress(old(devices), address);
              if target.Some? && accepted then
                status == Connected && connectedDevice == target &&
                stats == old(stats).(connectionTime := Some(now)) &&
                statusLog == old(statusLog) + [Connecting, Connected]
              else
                status == Disconnected && connectedDevice == old(connectedDevice) && stats == old(stats) &&
                statusLog == old(statusLog) + [Connecting, Disconnected]
      ensures devices == old(devices) && lastCommand == old(lastCommand)
      ensures writes == old(writes) && sent == old(sent)
    {
      status := Connecting;
      statusLog := statusLog + [Connecting];
      var fullDevice := FindByAddress(devices, address);
      if fullDevice.Some? && accepted {
        connectedDevice := fullDevice;
        status := Connected;
        stats := stats.(connectionTime := Some(now));
      } else {
        status := Disconnected;
      }
      statusLog := statusLog + [status];
    }

    /** disconnect: with a device present and its disconnection completing,
        forget the device, the device list, the statistics and the last
        command; otherwise change nothing. */
    method Disconnect(completes: bool)
      requires Valid()
      modifies this
      ensures Valid()
      ensures if old(connectedDevice).Some? && completes then
                connectedDevice == None && status == Disconnected && devices == [] &&
                stats == INITIAL_STATS && lastCommand == None && sent == [] &&
                statusLog == old(statusLog) + [Disconnected]
              else
                connectedDevice == old(connectedDevice) && status == old(status) && devices == old(devices) &&
                stats == old(stats) && lastCommand == old(lastCommand) && sent == old(sent) &&
                statusLog == old(statusLog)
      ensures writes == old(writes)
    {
      if connectedDevice.Some? && completes {
        connectedDevice := None;
        status := Disconnected;
        statusLog := statusLog + [Disconnected];
        devices := [];
        stats := INITIAL_STATS;
        lastCommand := None;
        sent := [];
      }
    }

    /** The device-disconnected event: forget the device, the device list and
        the statistics, but keep the last command. */
    method DeviceDisconnected()
      requires Valid()
      modifies this
      ensures Valid()
      ensures connectedDevice == None && status == Disconnected && devices == [] && stats == INITIAL_STATS
      ensures statusLog == old(statusLog) + [Disconnected]
      ensures lastCommand == old(lastCommand) && sent == old(sent) && writes == old(writes)
    {
      connectedDevice := None;
      status := Disconnected;
      statusLog := statusLog + [Disconnected];
      devices := [];
      stats := INITIAL_STATS;
    }
  }
}
