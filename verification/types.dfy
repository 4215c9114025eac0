/** Shared value types of the control pipeline: the command sent to the car,
    the connection status reported by the Bluetooth layer, and Option. */
module BluetoothTypes {

  datatype Option<+T> = None | Some(value: T) {
    function GetOr(default: T): T {
      match this
      case Some(v) => v
      case None => default
    }
  }

  /** The connection status shown by the Bluetooth hook. */
  datatype ConnectionStatus = Disconnected | Scanning | Connecting | Connected

  /** One drive command: signed throttle percentage and steering angle (90 is centre). */
  datatype CarCommand = CarCommand(throttle: int, steeringAngle: int)

  /** Throttle 0, wheels straight: what the car is told when control stops. */
  const NEUTRAL := CarCommand(0, 90)

  /** The ranges the controller produces and the wire protocol expects. */
  predicate InRange(c: CarCommand) {
    -100 <= c.throttle <= 100 && 0 <= c.steeringAngle <= 180
  }
}
