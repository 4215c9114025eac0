/** The periodic dispatcher: every 100 ms, while the link is connected and
    the controller is active, it sends the latest command if it differs from
    the last command it handed over; when the controller is deactivated on
    a connected link it hands over a neutral command. Timer set-up and
    tear-down are modelled by the `ticking` flag, each timer firing by one
    call of Tick. */
module BluetoothCommander {
  import opened BluetoothTypes
  import opened Bluetooth
  import opened CommandEncoding

  /** The period of the dispatcher, in milliseconds. */
  const TICK_INTERVAL_MS := 100

  class Commander {
    const link: Link
    /** The last command this dispatcher handed to sendCommand. */
    var commandRef: CarCommand
    /** Whether the 100 ms interval is installed. */
    var ticking: bool

    ghost predicate Valid()
      reads this, link
    {
      link.Valid()
    }

    constructor (link: Link)
      requires link.Valid()
      ensures Valid()
      ensures this.link == link
      ensures commandRef == NEUTRAL && !ticking
    {
      this.link := link;
      commandRef := NEUTRAL;
      ticking := false;
    }

    /** The interval effect, re-run whenever the status or the active flag
        changes: the interval runs exactly while connected and active. */
    method Sync(isActive: bool)
      requires Valid()
      modifies this
      ensures Valid()
      ensures ticking == (link.status == Connected && isActive)
      ensures commandRef == old(commandRef)
    {
      if link.status != Connected || !isActive {
        ticking := false;
      } else {
        ticking := true;
      }
    }

    /** One firing of the interval with the latest throttle and steering:
        hand the command to sendCommand only if it differs from commandRef,
        then remember it whatever sendCommand made of it. */
    method Tick(throttle: int, steeringAngle: int, write: WriteResult, now: int)
      requires Valid()
      modifies this, link
      ensures Valid()
      ensures ticking == old(ticking)
      ensures !old(ticking) ==> commandRef == old(commandRef) && unchanged(link)
      ensures old(ticking) ==> commandRef == CarCommand(throttle, steeringAngle)
      ensures old(ticking) && CarCommand(throttle, steeringAngle) == old(commandRef) ==> unchanged(link)
      ensures old(ticking) && CarCommand(throttle, steeringAngle) != old(commandRef) ==>
                link.SendCommandEffect(CarCommand(throttle, steeringAngle), write, now)
      ensures |link.writes| <= |old(link.writes)| + 1
    {
      if !ticking {
        return;
      }
      var currentCommand := CarCommand(throttle, steeringAngle);
      if commandRef.throttle != currentCommand.throttle
         || commandRef.steeringAngle != currentCommand.steeringAngle {
        var _ := link.SendCommand(currentCommand, write, now);
        commandRef := currentCommand;
      }
    }

    /** The stop effect: when the controller is inactive on a connected link,
        hand a neutral command to sendCommand, which still de-duplicates it.
        commandRef is left as it is. */
    method StopEffect(isActive: bool, write: WriteResult, now: int)
      requires Valid()
      modifies link
      ensures Valid()
      ensures !isActive && old(link.status) == Connected ==> link.SendCommandEffect(NEUTRAL, write, now)
      ensures !isActive && old(link.status) == Connected && old(link.lastCommand) == Some(NEUTRAL) ==>
                link.writes == old(link.writes)
      ensures isActive || old(link.status) != Connected ==> unchanged(link)
      ensures commandRef == old(commandRef) && ticking == old(ticking)
    {
      if !isActive && link.status == Connected {
        var _ := link.SendCommand(NEUTRAL, write, now);
      }
    }
  }
}
