/** The device-value path of the dispatcher: `set_buds_option`, which turns a
    key/value pair into a device command, sends it, and commits the mirrored
    field only when the device confirms; and its two callers `set_buds_value`
    and `toggle_buds_value`, which validate the request and shape the reply. */
module Executor {
  import opened BudsTypes
  import opened Text

  /** Foreign code the dispatcher calls but that is not part of this model:
      the registry's address lookup, `utils::str_to_bool`, and
      `EqualizerType::decode`. */
  datatype Env = Env(
    resolve: string -> Option<Address>,
    strToBool: string -> bool,
    decodeEq: u8 -> EqualizerType
  )

  /** `str_to_bool` reads the two words `bool::to_string` produces as expected. */
  predicate SaneStrToBool(strToBool: string -> bool) {
    strToBool("true") && !strToBool("false")
  }

  /** What `set_buds_option` leaves behind: the mirrored state, its returned
      result, and the command handed to the device's send, if one was. */
  datatype OptionStep = OptionStep(device: DeviceState, result: Outcome, sent: Option<DeviceCommand>)

  /** What `set_buds_value` / `toggle_buds_value` leave behind. */
  datatype DeviceStep = DeviceStep(device: DeviceState, response: Response, sent: Option<DeviceCommand>)

  /** The mirrored state once the device has acknowledged `c`. */
  function Confirmed(d: DeviceState, c: DeviceCommand): (e: DeviceState)
    ensures Reflects(e, c) && SameExcept(d, e, c)
  {
    match c
    case SetNoiseReduction(on) => d.(noiseReduction := on)
    case LockTouchpad(locked) => d.(touchpadsBlocked := locked)
    case SetEqualizer(p) => d.(equalizerType := p)
  }

  /** Sends `c`, whose outcome is `send`, and writes the mirror only on Ok;
      the send's result is returned as it is. */
  function SendAndCommit(d: DeviceState, c: DeviceCommand, send: Outcome): (r: OptionStep)
    ensures r.sent == Some(c) && r.result == send
    ensures send.Ok? ==> Reflects(r.device, c) && SameExcept(d, r.device, c)
    ensures send.Err? ==> r.device == d
  {
    if send.Ok? then OptionStep(Confirmed(d, c), Ok, Some(c)) else OptionStep(d, send, Some(c))
  }

  predicate IsDeviceKey(key: string) {
    key == NoiseReductionKey || key == LockTouchpadKey || key == EqualizerKey
  }

  /** `set_buds_option`. */
  function SetBudsOption(key: string, value: string, dev: DeviceState, env: Env, send: Outcome): (r: OptionStep)
    // Commit on confirmation: the result is Ok exactly when a command was sent
    // and the device confirmed it; the mirror then reflects that command and
    // nothing else moved; on any error the mirror is untouched.
    ensures r.result.Ok? <==> r.sent.Some? && send.Ok?
    ensures r.sent.Some? ==> r.result == send
    ensures r.result.Ok? ==> Reflects(r.device, r.sent.value) && SameExcept(dev, r.device, r.sent.value)
    ensures r.result.Err? ==> r.device == dev
    // Which command is sent for which key
    ensures key == NoiseReductionKey ==> r.sent == Some(SetNoiseReduction(env.strToBool(value)))
    ensures key == LockTouchpadKey ==> r.sent == Some(LockTouchpad(env.strToBool(value)))
    ensures key == EqualizerKey && ParseU8(value).Some? ==>
              r.sent == Some(SetEqualizer(env.decodeEq(ParseU8(value).value)))
    // Errors raised before any send
    ensures key == EqualizerKey && ParseU8(value).None? ==> r == OptionStep(dev, Err(ParseErrorMsg), None)
    ensures !IsDeviceKey(key) ==> r == OptionStep(dev, Err(BadOptionKeyMsg), None)
  {
    if key == NoiseReductionKey then
      SendAndCommit(dev, SetNoiseReduction(env.strToBool(value)), send)
    else if key == LockTouchpadKey then
      SendAndCommit(dev, LockTouchpad(env.strToBool(value)), send)
    else if key == EqualizerKey then
      match ParseU8(value)
      case Some(v) => SendAndCommit(dev, SetEqualizer(env.decodeEq(v)), send)
      case None => OptionStep(dev, Err(ParseErrorMsg), None)
    else
      OptionStep(dev, Err(BadOptionKeyMsg), None)
  }

  /** Shapes the reply of `set_buds_value` and `toggle_buds_value` from the
      option setter's result: success names the mirrored address, an error
      names the resolved address and carries the setter's message. */
  function Reply(o: OptionStep, address: Address): (r: DeviceStep)
    ensures r.device == o.device && r.sent == o.sent
    ensures r.response.status == Success <==> o.result.Ok?
    ensures o.result.Ok? ==> r.response == SuccessResponse(o.device.address, None)
    ensures o.result.Err? ==> r.response == ErrorResponse(address, o.result.msg)
  {
    if o.result.Ok? then DeviceStep(o.device, SuccessResponse(o.device.address, None), o.sent)
    else DeviceStep(o.device, ErrorResponse(address, o.result.msg), o.sent)
  }

  /** `set_buds_value`. */
  function SetBudsValue(req: Request, address: Address, dev: DeviceState, env: Env, send: Outcome): (r: DeviceStep)
    // A missing parameter is reported, with no send, exactly when one is absent
    ensures (req.optParam1.None? || req.optParam2.None?) <==>
              (r.sent.None? && r.response == ErrorResponse(address, MissingParamMsg))
    ensures req.optParam1.None? || req.optParam2.None? ==> r.device == dev
    // Otherwise the reply follows the option setter's result
    ensures req.optParam1.Some? && req.optParam2.Some? ==>
              var o := SetBudsOption(req.optParam1.value, req.optParam2.value, dev, env, send);
              && r.device == o.device && r.sent == o.sent
              && (r.response.status == Success <==> o.result.Ok?)
              && (o.result.Ok? ==> r.response == SuccessResponse(dev.address, None))
              && (o.result.Err? ==> r.response == ErrorResponse(address, o.result.msg))
    ensures r.device.address == dev.address
  {
    if req.optParam1.None? || req.optParam2.None? then
      DeviceStep(dev, ErrorResponse(address, MissingParamMsg), None)
    else
      Reply(SetBudsOption(req.optParam1.value, req.optParam2.value, dev, env, send), address)
  }

  /** `toggle_buds_value`: the value sent is the negation of the mirror,
      written out as text and read back by `str_to_bool`. */
  function ToggleBudsValue(req: Request, address: Address, dev: DeviceState, env: Env, send: Outcome): (r: DeviceStep)
    ensures req.optParam1.None? ==> r == DeviceStep(dev, ErrorResponse(address, MissingParamMsg), None)
    ensures req.optParam1.Some? && req.optParam1.value != NoiseReductionKey && req.optParam1.value != LockTouchpadKey ==>
              r == DeviceStep(dev, ErrorResponse(address, InvalidKeyMsg), None)
    ensures req.optParam1 == Some(NoiseReductionKey) ==>
              r.sent == Some(SetNoiseReduction(env.strToBool(BoolText(!dev.noiseReduction))))
    ensures req.optParam1 == Some(LockTouchpadKey) ==>
              r.sent == Some(LockTouchpad(env.strToBool(BoolText(!dev.touchpadsBlocked))))
    // With a sane str_to_bool the field is flipped on confirmation, left alone on failure
    ensures SaneStrToBool(env.strToBool) && req.optParam1 == Some(NoiseReductionKey) ==>
              && r.sent == Some(SetNoiseReduction(!dev.noiseReduction))
              && (send.Ok? ==> r.device.noiseReduction == !dev.noiseReduction && SameExcept(dev, r.device, r.sent.value))
    ensures SaneStrToBool(env.strToBool) && req.optParam1 == Some(LockTouchpadKey) ==>
              && r.sent == Some(LockTouchpad(!dev.touchpadsBlocked))
              && (send.Ok? ==> r.device.touchpadsBlocked == !dev.touchpadsBlocked && SameExcept(dev, r.device, r.sent.value))
    // Commit on confirmation, whatever `str_to_bool` does
    ensures send.Ok? && r.sent.Some? ==> Reflects(r.device, r.sent.value) && SameExcept(dev, r.device, r.sent.value)
    ensures r.sent.None? || send.Err? ==> r.device == dev
    ensures r.response.status == Success <==> r.sent.Some? && send.Ok?
    // The reply on the send path: success names the mirrored address, a failed
    // send is reported at the resolved address with the send's own message
    ensures r.sent.Some? && send.Ok? ==> r.response == SuccessResponse(dev.address, None)
    ensures r.sent.Some? && send.Err? ==> r.response == ErrorResponse(address, send.msg)
  {
    if req.optParam1.None? then
      DeviceStep(dev, ErrorResponse(address, MissingParamMsg), None)
    else
      var key := req.optParam1.value;
      if key == NoiseReductionKey then
        Reply(SetBudsOption(key, BoolText(!dev.noiseReduction), dev, env, send), address)
      else if key == LockTouchpadKey then
        Reply(SetBudsOption(key, BoolText(!dev.touchpadsBlocked), dev, env, send), address)
      else
        DeviceStep(dev, ErrorResponse(address, InvalidKeyMsg), None)
  }

  /** Two confirmed toggles of the same key restore the mirror exactly. */
  lemma ToggleTwiceRestores(req: Request, address: Address, dev: DeviceState, env: Env)
    requires SaneStrToBool(env.strToBool)
    ensures var once := ToggleBudsValue(req, address, dev, env, Ok);
            ToggleBudsValue(req, address, once.device, env, Ok).device == dev
  {
  }
}
