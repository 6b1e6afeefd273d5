/** Shared vocabulary of the daemon's socket dispatcher: requests, responses,
    the mirrored state of a connected pair of buds, the per-device config
    record, the commands handed to a device, and the outcomes reported by the
    collaborators the dispatcher calls but does not implement. */
module BudsTypes {

  /** A Bluetooth address, used as the key of both the registry and the config store. */
  type Address = string

  /** Rust's `u8`. */
  type u8 = x: int | 0 <= x < 256

  /** An optional field of a request, or the reply that may not be written. */
  datatype Option<T> = None | Some(value: T)

  /** Rust's `unwrap_or_default` on an optional string: "" when absent. */
  function OrEmpty(o: Option<string>): (s: string)
    ensures o.Some? ==> s == o.value
    ensures o.None? ==> |s| == 0
  {
    if o.None? then "" else o.value
  }

  /** Rust's `Result<(), String>`, as returned by the device send, by the
      config save and by `set_buds_option`. */
  datatype Outcome = Ok | Err(msg: string)

  /** An equalizer preset. The list of presets and the integer decoding rule
      belong to the device library; a preset is identified here by its index. */
  datatype EqualizerType = EqualizerPreset(index: nat)

  /** The server's mirror of what a device last acknowledged (`BudsInfoInner`,
      restricted to the fields the dispatcher reads or writes). */
  datatype DeviceState = DeviceState(
    address: Address,
    noiseReduction: bool,
    touchpadsBlocked: bool,
    equalizerType: EqualizerType
  )

  /** Per-device preferences kept in the config store. */
  datatype DeviceConfig = DeviceConfig(
    autoPauseMusic: bool,
    autoResumeMusic: bool,
    lowBatteryNotification: bool
  )

  /** Connected devices, keyed by address. */
  type Registry = map<Address, DeviceState>

  /** Config entries, keyed by address; an entry may exist for a device that is not connected. */
  type ConfigStore = map<Address, DeviceConfig>

  /** A decoded client request. */
  datatype Request = Request(
    cmd: string,
    device: Option<string>,
    optParam1: Option<string>,
    optParam2: Option<string>
  )

  datatype Status = Success | Error

  /** The reply written back to the client. Only `get_status` carries a payload. */
  datatype Response = Response(
    status: Status,
    device: string,
    message: Option<string>,
    payload: Option<DeviceState>
  )

  function ErrorResponse(device: string, msg: string): Response {
    Response(Error, device, Some(msg), None)
  }

  function SuccessResponse(device: string, payload: Option<DeviceState>): Response {
    Response(Success, device, None, payload)
  }

  /** The protocol messages the dispatcher may hand to a device's send. */
  datatype DeviceCommand =
    | SetNoiseReduction(on: bool)
    | LockTouchpad(locked: bool)
    | SetEqualizer(preset: EqualizerType)

  /** Externally visible actions taken while handling one request. */
  datatype Effect = Sent(target: Address, command: DeviceCommand) | Saved

  /** The mirrored field that command `c` controls holds the value `c` carries. */
  predicate Reflects(d: DeviceState, c: DeviceCommand) {
    match c
    case SetNoiseReduction(on) => d.noiseReduction == on
    case LockTouchpad(locked) => d.touchpadsBlocked == locked
    case SetEqualizer(p) => d.equalizerType == p
  }

  /** `d` and `e` agree on every field that command `c` does not control. */
  predicate SameExcept(d: DeviceState, e: DeviceState, c: DeviceCommand) {
    && d.address == e.address
    && (c.SetNoiseReduction? || d.noiseReduction == e.noiseReduction)
    && (c.LockTouchpad? || d.touchpadsBlocked == e.touchpadsBlocked)
    && (c.SetEqualizer? || d.equalizerType == e.equalizerType)
  }

  /** The state a device is left in after confirming `c` is determined by
      `Reflects` and `SameExcept` alone. */
  lemma ConfirmedStateUnique(d: DeviceState, e1: DeviceState, e2: DeviceState, c: DeviceCommand)
    requires Reflects(e1, c) && SameExcept(d, e1, c)
    requires Reflects(e2, c) && SameExcept(d, e2, c)
    ensures e1 == e2
  {
  }

  // Request commands
  const GetStatusCmd := "get_status"
  const SetValueCmd := "set_value"
  const ToggleValueCmd := "toggle_value"
  const SetConfigCmd := "set_config"

  // Device-value keys
  const NoiseReductionKey := "noise_reduction"
  const LockTouchpadKey := "lock_touchpad"
  const EqualizerKey := "equalizer"

  // Config keys
  const AutoPauseKey := "auto_pause"
  const AutoPlayKey := "auto_play"
  const LowBatteryKey := "low_battery_notification"

  // Error messages, verbatim (including the misspelling in the option setter's)
  const NoDeviceMsg := "No connected device found"
  const DeviceNotFoundMsg := "Device not found"
  const MissingParamMsg := "Missing parameter"
  const InvalidKeyMsg := "Invalid key"
  const NoConfigMsg := "Device has no config!"
  const SaveErrPrefix := "Err saving config: "
  const BadOptionKeyMsg := "Invaild key to set to"
  const ParseErrorMsg := "could not parse value"
}
