/** The config path of the dispatcher: `set_config_value` validates a request,
    writes one boolean field of an existing config entry, and saves the whole
    config, keeping the write even when the save fails. */
module ConfigMutator {
  import opened BudsTypes

  /** The three fields of a config entry a client may set. */
  datatype ConfigField = AutoPauseMusic | AutoResumeMusic | LowBatteryNotification

  /** Which field a request key names; there is one key per field. */
  function FieldForKey(key: string): (f: Option<ConfigField>)
    ensures f == Some(AutoPauseMusic) <==> key == AutoPauseKey
    ensures f == Some(AutoResumeMusic) <==> key == AutoPlayKey
    ensures f == Some(LowBatteryNotification) <==> key == LowBatteryKey
  {
    if key == AutoPauseKey then Some(AutoPauseMusic)
    else if key == AutoPlayKey then Some(AutoResumeMusic)
    else if key == LowBatteryKey then Some(LowBatteryNotification)
    else None
  }

  function FieldValue(c: DeviceConfig, f: ConfigField): bool {
    match f
    case AutoPauseMusic => c.autoPauseMusic
    case AutoResumeMusic => c.autoResumeMusic
    case LowBatteryNotification => c.lowBatteryNotification
  }

  /** `c` with field `f` set to `v`: that field reads `v`, the others are as before. */
  function WithField(c: DeviceConfig, f: ConfigField, v: bool): (c': DeviceConfig)
    ensures FieldValue(c', f) == v
    ensures forall g :: g != f ==> FieldValue(c', g) == FieldValue(c, g)
  {
    match f
    case AutoPauseMusic => c.(autoPauseMusic := v)
    case AutoResumeMusic => c.(autoResumeMusic := v)
    case LowBatteryNotification => c.(lowBatteryNotification := v)
  }

  /** What `set_config_value` leaves behind: the store, the reply, and whether
      `save` was invoked. */
  datatype ConfigStep = ConfigStep(store: ConfigStore, response: Response, saved: bool)

  /** `set_config_value`, with `strToBool` for `utils::str_to_bool` and `save`
      the outcome of `Config::save`. */
  function SetConfigValue(req: Request, address: Address, store: ConfigStore,
                          strToBool: string -> bool, save: Outcome): (r: ConfigStep)
    // Checks, in order; each rejects with its exact message, writes nothing and saves nothing
    ensures address !in store ==> r == ConfigStep(store, ErrorResponse(address, NoConfigMsg), false)
    ensures address in store && (req.optParam1.None? || req.optParam2.None?) ==>
              r == ConfigStep(store, ErrorResponse(address, MissingParamMsg), false)
    ensures address in store && req.optParam1.Some? && req.optParam2.Some? && FieldForKey(req.optParam1.value).None? ==>
              r == ConfigStep(store, ErrorResponse(address, InvalidKeyMsg), false)
    // Save is invoked exactly when every check passed
    ensures r.saved <==> address in store && req.optParam1.Some? && req.optParam2.Some? && FieldForKey(req.optParam1.value).Some?
    // No entry is ever created or removed
    ensures r.store.Keys == store.Keys
    // A passing request changes exactly one field of one entry, whatever the save reports
    ensures r.saved ==>
              var f := FieldForKey(req.optParam1.value).value;
              && FieldValue(r.store[address], f) == strToBool(req.optParam2.value)
              && (forall g :: g != f ==> FieldValue(r.store[address], g) == FieldValue(store[address], g))
              && (forall a :: a in store && a != address ==> r.store[a] == store[a])
    ensures !r.saved ==> r.store == store
    // The reply reports the save
    ensures r.response.status == Success <==> r.saved && save.Ok?
    ensures r.saved && save.Ok? ==> r.response == SuccessResponse(address, None)
    ensures r.saved && save.Err? ==> r.response == ErrorResponse(address, SaveErrPrefix + save.msg)
  {
    if address !in store then
      ConfigStep(store, ErrorResponse(address, NoConfigMsg), false)
    else if req.optParam1.None? || req.optParam2.None? then
      ConfigStep(store, ErrorResponse(address, MissingParamMsg), false)
    else
      var value := strToBool(req.optParam2.value);
      match FieldForKey(req.optParam1.value)
      case None => ConfigStep(store, ErrorResponse(address, InvalidKeyMsg), false)
      case Some(f) =>
        var written := store[address := WithField(store[address], f, value)];
        match save
        case Ok => ConfigStep(written, SuccessResponse(address, None), true)
        case Err(e) => ConfigStep(written, ErrorResponse(address, SaveErrPrefix + e), true)
  }

  /** Repeating a config request changes nothing further: the field already
      holds the requested value. */
  lemma SetConfigIdempotent(req: Request, address: Address, store: ConfigStore,
                            strToBool: string -> bool, save1: Outcome, save2: Outcome)
    ensures var once := SetConfigValue(req, address, store, strToBool, save1);
            SetConfigValue(req, address, once.store, strToBool, save2).store == once.store
  {
  }

  /** A config entry is determined by its three field values. */
  lemma ConfigEntryDetermined(c: DeviceConfig, d: DeviceConfig, f: ConfigField)
    requires FieldValue(c, f) == FieldValue(d, f)
    requires forall g :: g != f ==> FieldValue(c, g) == FieldValue(d, g)
    ensures c == d
  {
    assert FieldValue(c, AutoPauseMusic) == FieldValue(d, AutoPauseMusic);
    assert FieldValue(c, AutoResumeMusic) == FieldValue(d, AutoResumeMusic);
    assert FieldValue(c, LowBatteryNotification) == FieldValue(d, LowBatteryNotification);
  }
}
