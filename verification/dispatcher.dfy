/** The request dispatcher of `handle_client`: with the registry locked it
    rejects when no device is connected, resolves the target address, then
    routes on `cmd` to a status read, the device-value path or the config
    path. Each request runs atomically against the registry and config store
    it is given and yields the new registry, the new store, the reply (or
    none) and the sends and saves it performed. */
module Dispatcher {
  import opened BudsTypes
  import opened Executor
  import opened ConfigMutator

  datatype Transition = Transition(
    registry: Registry,
    store: ConfigStore,
    response: Option<Response>,
    effects: seq<Effect>
  )

  /** The registry's address lookup only ever yields connected devices (the
      dispatcher unwraps the device it looks up next). */
  ghost predicate ResolvesWithin(resolve: string -> Option<Address>, registry: Registry) {
    forall s :: resolve(s).Some? ==> resolve(s).value in registry
  }

  predicate IsKnownCmd(cmd: string) {
    cmd == GetStatusCmd || cmd == SetValueCmd || cmd == ToggleValueCmd || cmd == SetConfigCmd
  }

  /** The address a request resolves to, if any; an absent `device` is looked up as "". */
  function Target(req: Request, env: Env): (r: Option<Address>)
    ensures req.device.None? ==> r == env.resolve("")
    ensures req.device.Some? ==> r == env.resolve(req.device.value)
  {
    env.resolve(OrEmpty(req.device))
  }

  function SendEffects(address: Address, sent: Option<DeviceCommand>): (es: seq<Effect>)
    ensures sent.None? ==> es == []
    ensures sent.Some? ==> es == [Sent(address, sent.value)]
  {
    match sent
    case None => []
    case Some(c) => [Sent(address, c)]
  }

  /** Writes the device path's outcome back into the registry. */
  function DeviceTransition(registry: Registry, store: ConfigStore, address: Address, s: DeviceStep): (t: Transition)
    requires address in registry
    ensures t.registry.Keys == registry.Keys && t.store == store
    ensures t.registry[address] == s.device
    ensures forall a :: a in registry && a != address ==> t.registry[a] == registry[a]
    // The reply and the send are the step's own
    ensures t.response == Some(s.response) && t.effects == SendEffects(address, s.sent)
  {
    Transition(registry[address := s.device], store, Some(s.response), SendEffects(address, s.sent))
  }

  /** The dispatch part of `handle_client`. */
  function HandleRequest(req: Request, registry: Registry, store: ConfigStore,
                         env: Env, send: Outcome, save: Outcome): (t: Transition)
    requires ResolvesWithin(env.resolve, registry)
    // First check: some device is connected, whatever the command
    ensures |registry| == 0 ==> t == Transition(registry, store, Some(ErrorResponse("", NoDeviceMsg)), [])
    // Second check: the target resolves, whatever the command
    ensures |registry| > 0 && Target(req, env).None? ==>
              t == Transition(registry, store, Some(ErrorResponse("", DeviceNotFoundMsg)), [])
    // Only then the command is looked at
    ensures Target(req, env).Some? && |registry| > 0 ==>
              var a := Target(req, env).value;
              && (!IsKnownCmd(req.cmd) ==> t == Transition(registry, store, None, []))
              && (req.cmd == GetStatusCmd ==>
                    t == Transition(registry, store, Some(SuccessResponse(a, Some(registry[a]))), []))
    // Devices and config entries are never created or removed
    ensures t.registry.Keys == registry.Keys && t.store.Keys == store.Keys
    // The mutating commands reply, write and act exactly as their delegates do
    ensures Target(req, env).Some? && |registry| > 0 && req.cmd == SetValueCmd ==>
              var a := Target(req, env).value;
              var s := SetBudsValue(req, a, registry[a], env, send);
              && t.response == Some(s.response) && t.registry[a] == s.device
              && t.effects == SendEffects(a, s.sent)
    ensures Target(req, env).Some? && |registry| > 0 && req.cmd == ToggleValueCmd ==>
              var a := Target(req, env).value;
              var s := ToggleBudsValue(req, a, registry[a], env, send);
              && t.response == Some(s.response) && t.registry[a] == s.device
              && t.effects == SendEffects(a, s.sent)
    ensures Target(req, env).Some? && |registry| > 0 && req.cmd == SetConfigCmd ==>
              var c := SetConfigValue(req, Target(req, env).value, store, env.strToBool, save);
              && t.response == Some(c.response) && t.store == c.store && t.registry == registry
              && (t.effects == [Saved] <==> c.saved) && (!c.saved ==> t.effects == [])
    // No reply at all exactly for an unrecognised command aimed at a connected device
    ensures t.response.None? <==> |registry| > 0 && Target(req, env).Some? && !IsKnownCmd(req.cmd)
    // Only the device path touches the registry, only the config path the store
    ensures req.cmd != SetValueCmd && req.cmd != ToggleValueCmd ==> t.registry == registry
    ensures req.cmd != SetConfigCmd ==> t.store == store
  {
    if |registry| == 0 then
      Transition(registry, store, Some(ErrorResponse("", NoDeviceMsg)), [])
    else
      match Target(req, env)
      case None => Transition(registry, store, Some(ErrorResponse("", DeviceNotFoundMsg)), [])
      case Some(address) =>
        if req.cmd == GetStatusCmd then
          Transition(registry, store, Some(SuccessResponse(address, Some(registry[address]))), [])
        else if req.cmd == SetValueCmd then
          DeviceTransition(registry, store, address, SetBudsValue(req, address, registry[address], env, send))
        else if req.cmd == ToggleValueCmd then
          DeviceTransition(registry, store, address, ToggleBudsValue(req, address, registry[address], env, send))
        else if req.cmd == SetConfigCmd then
          var c := SetConfigValue(req, address, store, env.strToBool, save);
          Transition(registry, c.store, Some(c.response), if c.saved then [Saved] else [])
        else
          Transition(registry, store, None, [])
  }

  /** `handle_client` from the decoded request on: a line that did not decode
      is dropped without a reply or any change. */
  function HandleClient(decoded: Option<Request>, registry: Registry, store: ConfigStore,
                        env: Env, send: Outcome, save: Outcome): (t: Transition)
    requires ResolvesWithin(env.resolve, registry)
    ensures decoded.None? ==> t == Transition(registry, store, None, [])
    ensures decoded.Some? ==> t == HandleRequest(decoded.value, registry, store, env, send, save)
    ensures t.response.None? <==>
              decoded.None? || (|registry| > 0 && Target(decoded.value, env).Some? && !IsKnownCmd(decoded.value.cmd))
    ensures t.registry.Keys == registry.Keys && t.store.Keys == store.Keys
  {
    match decoded
    case None => Transition(registry, store, None, [])
    case Some(req) => HandleRequest(req, registry, store, env, send, save)
  }

  /** Commit on confirmation: a device's mirrored state differs after a
      request only if this request sent that device a command, the device
      confirmed it, and the new state reflects exactly that command. */
  lemma CommitOnlyOnConfirmation(req: Request, registry: Registry, store: ConfigStore,
                                 env: Env, send: Outcome, save: Outcome, a: Address)
    requires ResolvesWithin(env.resolve, registry)
    requires a in registry
    ensures var t := HandleRequest(req, registry, store, env, send, save);
            t.registry[a] != registry[a] ==>
              && send.Ok?
              && |t.effects| == 1 && t.effects[0].Sent? && t.effects[0].target == a
              && Reflects(t.registry[a], t.effects[0].command)
              && SameExcept(registry[a], t.registry[a], t.effects[0].command)
  {
  }

  /** A failed device send leaves every mirrored state as it was. */
  lemma FailedSendChangesNoDevice(req: Request, registry: Registry, store: ConfigStore,
                                  env: Env, msg: string, save: Outcome)
    requires ResolvesWithin(env.resolve, registry)
    ensures HandleRequest(req, registry, store, env, Err(msg), save).registry == registry
  {
  }

  /** One request performs at most one external action: one send, to the
      resolved device, for the device commands; one save for `set_config`. */
  lemma AtMostOneEffect(req: Request, registry: Registry, store: ConfigStore,
                        env: Env, send: Outcome, save: Outcome)
    requires ResolvesWithin(env.resolve, registry)
    ensures var t := HandleRequest(req, registry, store, env, send, save);
            && |t.effects| <= 1
            && (forall e :: e in t.effects && e.Sent? ==>
                  (req.cmd == SetValueCmd || req.cmd == ToggleValueCmd) && Target(req, env) == Some(e.target))
            && (Saved in t.effects ==> req.cmd == SetConfigCmd && Target(req, env).Some?)
  {
  }

  /** Every connected device's mirrored address equals its registry key. */
  ghost predicate AddressesMatchKeys(registry: Registry) {
    forall a :: a in registry ==> registry[a].address == a
  }

  /** Dispatch keeps mirrored addresses in step with registry keys, so a
      success reply of the device path names the device it acted on. */
  lemma AddressesStayMatched(req: Request, registry: Registry, store: ConfigStore,
                             env: Env, send: Outcome, save: Outcome)
    requires ResolvesWithin(env.resolve, registry)
    requires AddressesMatchKeys(registry)
    ensures var t := HandleRequest(req, registry, store, env, send, save);
            && AddressesMatchKeys(t.registry)
            && (t.response.Some? && t.response.value.status == Success ==>
                  Target(req, env) == Some(t.response.value.device))
  {
  }

  /** Two confirmed `toggle_value` requests in a row restore the registry. */
  lemma ToggleRequestTwiceRestores(req: Request, registry: Registry, store: ConfigStore, env: Env, save: Outcome)
    requires ResolvesWithin(env.resolve, registry)
    requires SaneStrToBool(env.strToBool)
    requires req.cmd == ToggleValueCmd
    ensures var t1 := HandleRequest(req, registry, store, env, Ok, save);
            && ResolvesWithin(env.resolve, t1.registry)
            && HandleRequest(req, t1.registry, t1.store, env, Ok, save).registry == registry
  {
  }

  /** After a confirmed `set_value`, `get_status` on the same device reports
      the value that was set. */
  lemma SetThenGetStatus(setReq: Request, getReq: Request, registry: Registry, store: ConfigStore, env: Env, save: Outcome)
    requires ResolvesWithin(env.resolve, registry)
    requires |registry| > 0 && Target(setReq, env).Some?
    requires setReq.cmd == SetValueCmd && setReq.optParam1 == Some(NoiseReductionKey) && setReq.optParam2.Some?
    requires getReq.cmd == GetStatusCmd && getReq.device == setReq.device
    ensures var t1 := HandleRequest(setReq, registry, store, env, Ok, save);
            && ResolvesWithin(env.resolve, t1.registry)
            && var t2 := HandleRequest(getReq, t1.registry, t1.store, env, Ok, save);
               && t2.response.Some? && t2.response.value.payload.Some?
               && t2.response.value.payload.value.noiseReduction == env.strToBool(setReq.optParam2.value)
  {
  }

  /** A failed save does not roll back the config write: the entry holds the
      new value while the reply reports the save error. */
  lemma SaveFailureKeepsWrite(req: Request, registry: Registry, store: ConfigStore,
                              env: Env, send: Outcome, msg: string)
    requires ResolvesWithin(env.resolve, registry)
    requires |registry| > 0 && Target(req, env).Some? && Target(req, env).value in store
    requires req.cmd == SetConfigCmd && req.optParam1.Some? && req.optParam2.Some?
    requires FieldForKey(req.optParam1.value).Some?
    ensures var t := HandleRequest(req, registry, store, env, send, Err(msg));
            var a := Target(req, env).value;
            && t.effects == [Saved]
            && t.response == Some(ErrorResponse(a, SaveErrPrefix + msg))
            && FieldValue(t.store[a], FieldForKey(req.optParam1.value).value) == env.strToBool(req.optParam2.value)
  {
  }
}
