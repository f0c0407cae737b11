# Device-state gateway (geminich.py) in Dafny

This project models the Flask gateway in `geminich.py`. The gateway sits
between an operator's browser and one ESP32 power-control board. It keeps one
process-wide record of the last known device state, `last_esp32_data`. The
record holds bus, shunt and load voltage, current, target voltage, target
current and relay status. It also keeps a per-session `logged_in` flag.

Each route handler is one rule. The rule reads the state, the request and the
outcome of the single HTTP call it may make to the board. It gives back a
status code, a response body kind and the new state.

- `values.dfy` (module `Values`) models decoded JSON values and the Python
  operations the handlers use on them: `dict.get`, `dict.update`, `float()` and
  `str.upper()`.
- `handlers.dfy` (module `Handlers`) holds one pure rule per route. Each rule
  returns a `Step`: the response, the new state, and whether the board was
  contacted. `Handle` routes a request to its rule.
- `server.dfy` (module `Server`) holds the class `Gateway`. Its `data` and
  `loggedIn` fields are updated in place, one method per route. A ghost
  counter `deviceCalls` counts requests sent to the board. Each method is
  proved to do exactly what its rule in `Handlers` says.
- `lifetime.dfy` (module `Lifetime`) runs any sequence of requests from the
  initial record. It proves what holds after every such sequence, plus a few
  properties that relate two routes.

The board's reply is a parameter of each handler, of type `Outcome`:

- `Replied(code, Decoded(v))` is a reply whose body decodes as JSON.
- `Replied(code, Undecodable)` is a reply whose body does not.
- `ConnectionFailed` stands for a `requests` ConnectionError. A connect
  timeout (`ConnectTimeout`) is both a ConnectionError and a Timeout, and the
  POST routes catch ConnectionError first, so it is `ConnectionFailed` too.
- `TimedOut` stands for a read timeout: a `requests` Timeout that is not also
  a ConnectionError.
- `OtherFailure` stands for any other exception.

A request body is one of three cases:

- `NotJson`: the request is not declared as JSON.
- `Malformed`: it is declared as JSON but cannot be decoded. Flask then
  answers 400 by itself.
- `Json(v)`: a decoded JSON value.

An exception that a handler does not catch becomes Flask's own 500 page
(`InternalErrorPage`).

Behaviour of the code worth noting:

- `/control_relay` compares the command case-sensitively. `"ON"` is refused
  with 400 (`Lifetime.RelayCommandIsCaseSensitive`).
- `current` is required by `/update_output_params`. A missing or null current
  fails `float()` and gives 400 (`Lifetime.CurrentIsRequired`).
- `/get_live_data` does not hide a non-200 reply behind the cache. Only
  connection errors, timeouts and undecodable bodies fall back to the cached
  record; a non-200 reply answers 500.
- `relay_status` is not kept upper-case. A merged device reply or push can
  store any value there (`Lifetime.PushedRelayStatusIsNotNormalised`).
- `/sensor_data_post` reads the session flag but never enforces it.

## Model

| member | source | states |
|---|---|---|
| `Values.Get` | geminich.py:104-105 | `d.get(k)` is the stored value of a present key, and Python None exactly when the key is absent or holds JSON null |
| `Values.Merge` | geminich.py:199 | `dict.update` with a dict: the keys are the union; payload keys take the payload's value; every other key keeps its old value |
| `Values.Absorb` | geminich.py:237 | `update` succeeds exactly for a dict payload, giving the right-biased merge, and never removes a key |
| `Values.ToFloat` | geminich.py:110-114 | `float()` refuses None, lists and dicts; it keeps numbers; it maps booleans to 1.0 and 0.0; for a string it is Python's text parser |
| `Values.Upper` | geminich.py:167 | `upper()` keeps the length, capitalises each ASCII letter and leaves no lower-case letter |
| `Handlers.WriteFailure` | geminich.py:139-144 | a POST to the board that did not get a 200 always answers 500: a non-200 reply embeds its code, a connection error and a timeout each give their own JSON error, any other exception gives Flask's error page |
| `Handlers.ReadObject` | geminich.py:102-103 | the fields read are exactly those of a decoded JSON dict; a non-JSON request gives 400 "Request must be JSON", an undecodable body Flask's 400 page, and a JSON value that is not a dict Flask's 500 page |
| `Handlers.Login` | geminich.py:53-65 | the flag is set exactly when both fields equal the credential pair; otherwise a POST gets 401 with the login page marked invalid and the session unchanged; the record is never touched |
| `Handlers.Logout` | geminich.py:87-90 | clears the flag whatever it was, keeps the record, redirects to login |
| `Handlers.Dashboard` | geminich.py:68-84 | without a session: redirect and no board call; with one: a dict reply is merged; any caught failure renders the cached record; 500 with Flask's error page exactly for uncaught errors, with the state unchanged |
| `Handlers.ReadOutputParams` | geminich.py:102-114 | accepted exactly when the body is a JSON dict whose voltage is non-null and whose voltage and current both pass `float()`; returns those two values; a body that is not a JSON dict gets exactly the rejection of `ReadObject`; a missing or null voltage gives 400 "Missing voltage parameter", any other rejection of a dict gives 400 "Invalid voltage or current format" |
| `Handlers.UpdateOutputParams` | geminich.py:97-145 | 401 with no call and no change without a session; 400 before any call for non-JSON, missing voltage or unconvertible values; 500 with no call for a JSON body that is not a dict; every 400 is the rejection `ReadOutputParams` gives; 200 exactly on a board 200, acknowledging the update and writing only the two target keys; on a board failure the per-exception 500 of `WriteFailure` and no change |
| `Handlers.ReadRelayCommand` | geminich.py:153-158 | accepted exactly when `status` is the string "on" or "off"; a body that is not a JSON dict gets exactly the rejection of `ReadObject`; a dict with any other status gets 400 "Invalid relay status" |
| `Handlers.ControlRelay` | geminich.py:148-185 | 401 with no call without a session; 400 with no call for a non-JSON body or any status other than "on"/"off"; 500 with no call for a JSON body that is not a dict; every rejection is exactly the one `ReadRelayCommand` gives, so a non-JSON body gets "Request must be JSON" and a dict with any other status the "Invalid relay status" 400; 200 exactly on a board 200, acknowledging and writing only `relay_status` with "ON"/"OFF"; on a board failure the per-exception 500 of `WriteFailure` and no change |
| `Handlers.GetLiveData` | geminich.py:189-217 | 401 with no call without a session; a dict reply is merged (payload keys win) and returned; connection errors, timeouts and undecodable bodies return the unchanged cache with 200; a non-200 reply or any other error gives 500 and no change |
| `Handlers.SensorDataPost` | geminich.py:227-247 | never enforces the session and never calls the board; 200 exactly for a JSON dict, which is merged; 400 "Invalid JSON" for a body not declared as JSON and Flask's 400 page for an undecodable one; 500 for a JSON value that is not a dict; otherwise nothing changes |
| `Handlers.GetConfig` | geminich.py:252-262 | 200 exactly when the three keys are present; returns target voltage, target current and relay status under `relay_status_default` |
| `Handlers.Handle` | geminich.py:53-262 | no route removes a key; the board is contacted only for a logged-in session; the flag changes only through a valid login or logout; without a session only a push can change the record |
| `Server.Gateway.constructor` | geminich.py:24-27 | the process starts logged out with the seven-key default record and no board call |
| `Server.Gateway.Login` | geminich.py:53-65 | updates the session flag in place as `Handlers.Login` prescribes |
| `Server.Gateway.Logout` | geminich.py:87-90 | clears the session flag in place as `Handlers.Logout` prescribes |
| `Server.Gateway.Dashboard` | geminich.py:68-84 | merges into the record in place and counts the board call as `Handlers.Dashboard` prescribes |
| `Server.Gateway.UpdateOutputParams` | geminich.py:97-145 | assigns the two target keys in place and counts the board call as `Handlers.UpdateOutputParams` prescribes |
| `Server.Gateway.ControlRelay` | geminich.py:148-185 | assigns `relay_status` in place and counts the board call as `Handlers.ControlRelay` prescribes |
| `Server.Gateway.GetLiveData` | geminich.py:189-217 | merges the polled reply in place and counts the board call as `Handlers.GetLiveData` prescribes |
| `Server.Gateway.SensorDataPost` | geminich.py:227-247 | merges a pushed dict in place, with no board call, as `Handlers.SensorDataPost` prescribes |
| `Server.Gateway.GetConfig` | geminich.py:252-262 | reads the record without changing it; reports the relay status whenever the three keys are present |
| `Lifetime.KeysOnlyGrow` | geminich.py:24-237 | after any sequence of requests, every key the record had is still present |
| `Lifetime.ConfigAlwaysServed` | geminich.py:257-262 | after any sequence of requests from start-up, `/get_esp32_config` answers 200 with the current targets and relay status |
| `Lifetime.NoCredentialsNoDevice` | geminich.py:59-60 | a session that never submits the valid pair stays logged out and sends nothing to the board |
| `Lifetime.OnlyPushesChangeRecordWithoutLogin` | geminich.py:228-237 | without logging in, only `/sensor_data_post` can change the record |
| `Lifetime.LogoutIdempotent` | geminich.py:89 | a second logout changes nothing further |
| `Lifetime.RelayCommandReachesConfig` | geminich.py:166-167 | after a confirmed relay command, the configuration served to the board reports "ON" or "OFF" |
| `Lifetime.TargetsReachConfig` | geminich.py:123-126 | after confirmed output parameters, the configuration served to the board carries the new targets |
| `Lifetime.RelayCommandIsCaseSensitive` | geminich.py:157-158 | "ON" is refused with 400, with no board call and no change |
| `Lifetime.CurrentIsRequired` | geminich.py:105-114 | a voltage without a current is refused with 400, with no board call and no change |
| `Lifetime.PushedRelayStatusIsNotNormalised` | geminich.py:237 | a pushed lower-case relay status is stored and served unchanged |

## Left out

- HTTP and Flask plumbing are not modelled: routing, templates, `redirect`/`url_for`, `jsonify`, static files, the secret key and cookie signing. A response is a status code plus a body kind.
- The calls to the ESP32 (`requests.get`/`requests.post`) are replaced by an `Outcome` parameter. The URL, the form encoding of the POSTs and the 2-second timeout are not modelled.
- `save_data_to_json` (geminich.py:37-46) is file I/O whose exceptions are swallowed, so it never affects a response or the state. It is not modelled, and neither are timestamps or `print` logging.
- `Values.ToFloat`: Python's parsing of a string into a float is the parameter `parseText`. `nan`, `inf`, whitespace and rounding to a 64-bit float are not modelled. Numbers are exact reals, so the `OverflowError` that `float()` raises for a huge JSON integer is not modelled either.
- `Values.Absorb`: `dict.update` also accepts some non-dict values: a list of two-element lists, a list of two-character strings, and the empty string or empty list. The model treats every non-dict payload as the error case, so, for example, a device 200 whose body is `""` gives 200 in `/get_live_data` but 500 in the model. Python also applies a list's pairs one at a time, so `[["relay_status", "X"], 5]` changes the record and then raises: `/get_live_data` answers 500 with a changed record, while the model answers 500 with the record unchanged. A list such as `[[1, 2]]` would insert a key that is not a string, which the model's string-keyed record cannot hold.
- `Values.Upper` covers ASCII only. It is applied only to "on" and "off", where it agrees with Python's `str.upper`.
- Each gateway has a single session flag. Several browser sessions sharing one record and session expiry are not modelled.
- `Handlers.GetLiveData` and `Handlers.Dashboard` treat an undecodable reply (`Undecodable`) as caught, which assumes that `response.json()` raises a subclass of `json.JSONDecodeError`. If simplejson is installed, `requests` derives its decode error from simplejson's instead; both routes would then answer 500, and this model does not capture that.
- Requests are modelled as atomic. The development server started at geminich.py:267 is threaded by default, so handlers can interleave on the shared record; that interleaving is not captured.
- app.py only renders the login template and is not part of this model.
