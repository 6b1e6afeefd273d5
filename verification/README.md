# LiveBudsCli request dispatcher: a Dafny model

The LiveBudsCli daemon controls Galaxy Buds Live earbuds. Clients send it one
JSON request per Unix-socket connection. This project models what the daemon
does with one decoded request in `handle_client`:

1. It rejects the request when no device is connected.
2. It resolves the target device address.
3. It routes on `cmd`:
   - `get_status` reads the device's mirrored state.
   - `set_value` and `toggle_value` take the device-value path.
   - `set_config` takes the config path.
   - Any other command gets no reply at all.

Locking and async are removed. The dispatcher becomes one pure function:

    HandleRequest(request, registry, configStore, env, sendOutcome, saveOutcome)
      = Transition(registry', configStore', Option<Response>, effects)

The pieces:

- `registry` maps a device address to its mirrored state: noise reduction, touchpad lock and equalizer preset.
- `configStore` maps an address to that device's config entry: auto-pause, auto-resume and the low-battery notification.
- `effects` lists the device sends and config saves the request performed.
- `env` holds the foreign code the dispatcher calls but that is not part of this model:
  - the registry's address lookup (`get_device_address`);
  - `utils::str_to_bool`;
  - `EqualizerType::decode`.

  Each is a function parameter.
- The device send and `Config::save` are supplied outcomes (`Ok` or `Err(msg)`).

Modules:

- `BudsTypes` (`types.dfy`): requests, responses, device state, config entries, device commands and effects. It also holds the exact command names, keys and error messages. `Reflects` and `SameExcept` state what a confirmed command does to the mirror.
- `Text` (`text.dfy`): Rust's `str::parse::<u8>` and the `to_string` of a `bool`.
- `Executor` (`executor.dfy`): `set_buds_option`, `set_buds_value` and `toggle_buds_value`.
- `ConfigMutator` (`config_mutator.dfy`): `set_config_value`.
- `Dispatcher` (`dispatcher.dfy`): the dispatch part of `handle_client`, plus lemmas relating whole requests.

The device-count check (`connection_handler.rs:49`) and the address resolution (`:54-62`) run before `cmd` is examined (`:67`). So `set_config` and unknown commands also get "No connected device found" or "Device not found".

## Model

| member | source | states |
|---|---|---|
| Dispatcher.HandleRequest | src/daemon/unix_socket/connection_handler.rs:43-90 | Checks run in a fixed order, whatever the command. First, zero devices gives an error "No connected device found" with device "". Second, an unresolved target gives "Device not found". Neither check changes anything or performs any effect. `get_status` returns the device's mirrored state unchanged. There is no reply exactly when the command is unrecognised and the device resolved. Devices and config entries are never created or removed. Only the device commands touch the registry, and only `set_config` touches the store. For `set_value`, `toggle_value` and `set_config` on a resolved device, the reply, the written registry entry or store, and the sends and saves are exactly those of `set_buds_value`, `toggle_buds_value` or `set_config_value`. A save is recorded exactly when `set_config_value` invoked it |
| Dispatcher.HandleClient | src/daemon/unix_socket/connection_handler.rs:37-90 | A request that failed to decode gets no reply and changes nothing. A decoded request is handled exactly as the dispatcher handles it, so there is no reply exactly for an unrecognised command aimed at a resolved device |
| Dispatcher.Target | src/daemon/unix_socket/connection_handler.rs:54-55 | The target is looked up by the request's `device` string, and an absent `device` is looked up as "" |
| Dispatcher.DeviceTransition | src/daemon/unix_socket/connection_handler.rs:80-87 | The device path writes back only the resolved device's entry. Every other device and the config store are left as they were. The reply is the step's reply, and the effect is a send to that device exactly when the step sent a command |
| Dispatcher.CommitOnlyOnConfirmation | src/daemon/unix_socket/connection_handler.rs:219-248 | A device's mirrored state changes in a request only under three conditions: the request sent that device exactly one command, the device confirmed it, and the new state reflects exactly that command with every other field unchanged |
| Dispatcher.FailedSendChangesNoDevice | src/daemon/unix_socket/connection_handler.rs:222-226 | When the device send fails, no device's mirrored state changes, whatever the request |
| Dispatcher.AtMostOneEffect | src/daemon/unix_socket/connection_handler.rs:67-90 | A request performs at most one external action. A send happens only for `set_value`/`toggle_value` and only to the resolved device. A save happens only for `set_config` on a resolved device |
| Dispatcher.AddressesStayMatched | src/daemon/unix_socket/connection_handler.rs:208-210 | Handling a request keeps every mirrored address equal to its registry key. So a success reply names the resolved device, even though the device path's success reply takes its address from the mirrored state |
| Dispatcher.ToggleRequestTwiceRestores | src/daemon/unix_socket/connection_handler.rs:84-87 | Two `toggle_value` requests in a row, both confirmed by the device, restore the registry exactly |
| Dispatcher.SetThenGetStatus | src/daemon/unix_socket/connection_handler.rs:68-82 | After a confirmed `set_value noise_reduction v`, a `get_status` for the same device reports noise reduction as `str_to_bool(v)` |
| Dispatcher.SaveFailureKeepsWrite | src/daemon/unix_socket/connection_handler.rs:141-144 | When the config save fails, the reply is "Err saving config: " followed by the save's message, one save was performed, and the written field keeps its new value (no rollback) |
| Executor.SetBudsOption | src/daemon/unix_socket/connection_handler.rs:216-253 | The result is Ok exactly when a command was sent and the device confirmed it. The mirror then reflects that command and nothing else changes. On any error the mirror is untouched. `noise_reduction`/`lock_touchpad` send `str_to_bool(value)`. `equalizer` sends the decoded preset. A value that is not a `u8` gives "could not parse value", and an unknown key gives "Invaild key to set to"; neither sends anything |
| Executor.SendAndCommit | src/daemon/unix_socket/connection_handler.rs:221-226 | The send's result is returned unchanged. The mirror is written to reflect the command only when the send returns Ok |
| Executor.Confirmed | src/daemon/unix_socket/connection_handler.rs:223-225 | A confirmed command sets the one field it controls and leaves every other field and the address alone |
| Executor.SetBudsValue | src/daemon/unix_socket/connection_handler.rs:186-213 | "Missing parameter" with no send happens exactly when a parameter is absent. Otherwise the reply is success exactly when the option setter returns Ok, and an error carrying the setter's message when it does not |
| Executor.ToggleBudsValue | src/daemon/unix_socket/connection_handler.rs:149-184 | A missing key gives "Missing parameter". Any key other than `noise_reduction`/`lock_touchpad`, `equalizer` included, gives "Invalid key". Neither sends anything. Otherwise one command is sent for the key, carrying `str_to_bool` of the text of the negated mirrored boolean. After a confirmed send the mirror reflects that command and nothing else changes. Without a confirmed send the mirror is untouched. The reply is success exactly when a send was confirmed: a confirmed send replies success naming the mirrored address, and a failed send replies with an error at the resolved address carrying the send's own message. When `str_to_bool` reads "true"/"false" as expected, the value sent is the negation and the field is flipped |
| Executor.ToggleTwiceRestores | src/daemon/unix_socket/connection_handler.rs:165-176 | Two confirmed toggles of the same key restore the device's mirrored state exactly |
| ConfigMutator.SetConfigValue | src/daemon/unix_socket/connection_handler.rs:99-147 | Checks run in order, each with its exact message and with no write or save: "Device has no config!", then "Missing parameter", then "Invalid key". Save is invoked exactly when all checks pass. In that case exactly one field of that entry changes, to `str_to_bool(value)`, and other entries are untouched. No entry is ever created. The reply is success exactly when the save succeeded. A failed save gives "Err saving config: " followed by its message and keeps the write |
| ConfigMutator.FieldForKey | src/daemon/unix_socket/connection_handler.rs:132-138 | `auto_pause` names the auto-pause field, `auto_play` the auto-resume field, and `low_battery_notification` the low-battery field. Each field is named by exactly that key |
| ConfigMutator.WithField | src/daemon/unix_socket/connection_handler.rs:133-135 | Writing one config field sets it and leaves the other two as they were |
| ConfigMutator.SetConfigIdempotent | src/daemon/unix_socket/connection_handler.rs:131-146 | Repeating a `set_config` request leaves the store as the first one did |
| Text.ParseU8 | src/daemon/unix_socket/connection_handler.rs:241 | The equalizer value is read as Rust's unsigned `parse::<u8>` reads it. Empty input, a lone sign and a leading '-' are rejected. Accepted input is one or more ASCII digits after at most one leading '+'. Every digit string of value at most 255 is accepted with that value, leading zeros included, and one above 255 is rejected |
| Text.ParseU8Digitwise | src/daemon/unix_socket/connection_handler.rs:241 | Digit-by-digit accumulation with an overflow check accepts the same strings, with the same values, as the declarative reading of `parse::<u8>`. That reading is an optional '+', then one or more ASCII digits, with a value of at most 255 |
| Text.ParseU8Decimal | src/daemon/unix_socket/connection_handler.rs:241 | Every `u8` written in decimal parses back to itself |
| Text.BoolText | src/daemon/unix_socket/connection_handler.rs:167-168 | The toggle's text for a boolean is "true" or "false", and it is "true" exactly for true |

## Left out

- Reading the request line and JSON decoding (`connection_handler.rs:25-41`) are transport and serde. They appear only as `HandleClient`'s "decode failed, no reply" case.
- `respond` (`connection_handler.rs:257-276`) is transport. The model produces the reply value, and whether writing it succeeds is not modelled.
- The async mutexes and per-connection tasks are left out. Each request is modelled as running atomically against the registry and config store it is given.
- The device send, `Config::save`, `utils::str_to_bool`, `EqualizerType::decode` and `ConnectionData::get_device_address` are foreign code that is not part of this model. They are supplied as outcomes or as function parameters.
- The list of equalizer presets belongs to the device library. A preset is an index here.
- Mirrored state is limited to the fields the dispatcher reads or writes: address, noise reduction, touchpad lock and equalizer. Other fields of `BudsInfoInner` (battery levels and the like) are only ever copied whole and are left out.
- The "error getting config!" branch (`connection_handler.rs:125-128`) is not modelled. The config store is a map, so whenever an entry exists it can also be fetched, and the branch cannot be reached.
- `src/cmd/socket_client.rs` is a blocking client wrapper with no decision logic and is not part of this model.
- Executor.ToggleBudsValue: only the claim that the value sent is the negation, so the field flips, assumes `str_to_bool` reads "true" as true and "false" as false (`SaneStrToBool`). The real `str_to_bool` is not part of this model. Commit on confirmation is stated without that assumption.
- Executor.ToggleTwiceRestores: it is stated under the same `SaneStrToBool` assumption, for the same reason.
- Dispatcher.ToggleRequestTwiceRestores: it is stated under the same `SaneStrToBool` assumption, for the same reason.
- Dispatcher.HandleRequest: it requires that the address lookup yields only connected devices (`ResolvesWithin`). This excludes the panic the source would hit in `get_device(..).unwrap()` (`connection_handler.rs:73-74`, `:81`, `:85`) if the lookup returned an address the registry does not hold. `ConnectionData::get_device_address` is not part of this model, so that path is not modelled.
- Dispatcher.HandleClient: it carries the same requirement as `HandleRequest`, for the same reason.
