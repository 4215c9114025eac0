/** Client scenarios of the link and the dispatcher, checked against
    their contracts alone (as a caller of the hooks would see them). */
module Scenarios {
  import opened BluetoothTypes
  import opened Bluetooth
  import opened CommandEncoding
  import opened BluetoothCommander

  const CAR := Device("car", "00:11:22:33:44:55")

  /** A link connected to CAR, with no command sent yet. */
  method ConnectedLink() returns (link: Link)
    ensures fresh(link) && link.Valid()
    ensures link.status == Connected && link.connectedDevice == Some(CAR)
    ensures link.lastCommand == None && link.writes == []
    ensures link.stats.bytesSent == 0 && link.stats.commandsSent == 0
  {
    link := new Link();
    link.Scan(Found([CAR]));
    link.Connect(CAR.address, true, 0);
  }

  /** The dispatcher starts from neutral: a neutral latest command is not
      sent, the first different one is, and its repeat is not. */
  method NeutralStartAndDeduplication() {
    var link := ConnectedLink();
    var commander := new Commander(link);
    commander.Sync(true);
    assert commander.ticking;
    commander.Tick(0, 90, Written(7), 100);
    assert link.writes == [];
    commander.Tick(75, 90, Written(8), 200);
    assert link.writes == [Encode(CarCommand(75, 90))];
    EncodeExample();
    assert link.writes == ["T75:S90\n"];
    commander.Tick(75, 90, Written(8), 300);
    assert link.writes == ["T75:S90\n"];
    assert link.stats.commandsSent == 1 && link.stats.bytesSent == 8;
  }

  /** Nothing is sent while the controller is inactive. */
  method InactiveDoesNotTick() {
    var link := ConnectedLink();
    var commander := new Commander(link);
    commander.Sync(false);
    commander.Tick(50, 120, Written(9), 100);
    assert link.writes == [];
  }

  /** Stopping after a neutral command has gone out writes nothing more;
      stopping after a non-neutral one writes the neutral line once. */
  method StopGoesThroughDeduplication() {
    var link := ConnectedLink();
    var commander := new Commander(link);
    commander.Sync(true);
    commander.Tick(40, 120, Written(9), 100);
    commander.Tick(0, 90, Written(7), 200);
    assert |link.writes| == 2;
    commander.StopEffect(false, Written(7), 300);
    assert |link.writes| == 2;

    var other := ConnectedLink();
    var second := new Commander(other);
    second.Sync(true);
    second.Tick(40, 120, Written(9), 100);
    second.StopEffect(false, Written(7), 200);
    assert other.writes == [Encode(CarCommand(40, 120)), Encode(NEUTRAL)];
    assert other.lastCommand == Some(NEUTRAL);
  }

  /** A failed write is retried by sendCommand itself, but the dispatcher
      has already moved commandRef on, so its next ticks with the same
      latest command send nothing: the car never receives it. */
  method FailedWriteIsNotRetriedByTicks() {
    var link := ConnectedLink();
    var commander := new Commander(link);
    commander.Sync(true);
    commander.Tick(40, 120, WriteFailed, 100);
    assert |link.writes| == 1 && link.lastCommand == None;
    commander.Tick(40, 120, Written(9), 200);
    assert |link.writes| == 1 && link.lastCommand == None;

    // a direct sendCommand of the same command is not suppressed
    var ok := link.SendCommand(CarCommand(40, 120), Written(9), 300);
    assert ok && |link.writes| == 2 && link.lastCommand == Some(CarCommand(40, 120));
  }

  /** The stop effect leaves commandRef at the last driving command, so after
      reactivating, ticks with that same command send nothing although the
      car was last told to stop. */
  method StaleCommandRefAfterStop() {
    var link := ConnectedLink();
    var commander := new Commander(link);
    commander.Sync(true);
    commander.Tick(40, 120, Written(9), 100);
    commander.Sync(false);
    commander.StopEffect(false, Written(7), 200);
    assert link.lastCommand == Some(NEUTRAL) && commander.commandRef == CarCommand(40, 120);
    commander.Sync(true);
    commander.Tick(40, 120, Written(9), 300);
    assert link.lastCommand == Some(NEUTRAL) && |link.writes| == 2;
  }

  /** The device-disconnected event keeps lastCommand, so after reconnecting
      the same command is still suppressed; disconnect() clears it. */
  method ReconnectKeepsLastCommand() {
    var link := ConnectedLink();
    var ok := link.SendCommand(CarCommand(30, 90), Written(8), 100);
    link.DeviceDisconnected();
    ok := link.SendCommand(CarCommand(30, 90), Written(8), 200);
    assert !ok && |link.writes| == 1;
    link.Scan(Found([CAR]));
    link.Connect(CAR.address, true, 300);
    ok := link.SendCommand(CarCommand(30, 90), Written(8), 400);
    assert ok && |link.writes| == 1;
    link.Disconnect(true);
    assert link.lastCommand == None && link.sent == [];
  }
}
