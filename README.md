# Barco Pulse integration: a verified model of its core

This project models the parts of the Barco Pulse Home Assistant integration that hold real logic. It states and proves what each part does.

- **API client** (`api.py`): the JSON-RPC 2.0 request object with its request-id counter, the redacted copy written to the debug log, the HTTP POST framing, the skip to the first `{` of the reply, the classification of the reply, and the decoders behind `get_system_state`, `get_system_info`, `list_sources`, `get_active_source` and `get_laser_power`.
- **Update coordinator** (`coordinator.py`): the poll cycle. It asks for the power state and the identity, and, when the projector is on or ready, for a batch of picture and laser properties. It parses that batch, falls back when a property is unavailable in the current state, maps each failure to what Home Assistant is told, and keeps the one-second rate limit and the unique-id fallback.
- **Remote entity** (`remote.py`): the `source_` / `preset_` / `profile_` command dispatch, `is_on`, and the power switch.
- **Number entities** (`number.py`): the range check of laser power and the four picture controls, and the setter each entity calls.
- **Helpers** (`helpers.py`): the per-coordinator refresh cooldown and the wrapper that turns command exceptions into `HomeAssistantError`.
- **Mock projector** (`scripts/mock_projector.py`): its request handler over the shared property table, and the per-connection `authenticated` flag.

## How the model is built

The model follows the source's own form:

- Code that mutates state is imperative Dafny:
  - the client's id counter and `validated` flag are fields of `ApiClient.Client`;
  - the coordinator's `_last_update` and `update_interval` are fields of `Coordinator.Coordinator`;
  - `_LAST_REFRESH_TIMES` is a field of `Helpers.RefreshThrottle`;
  - the mock's `STATE` table and `authenticated` flag are fields of `MockProjector.Store` and `MockProjector.Protocol`.
- Loops stay loops, each proved against a specification function:
  - the `get_system_info` item loop (`SystemInfoOf` against `Harvest`);
  - the float mappings (`ApplyMappings` against `FloatEntries`);
  - the preset items (`ParsePresetAssignments` against `PresetsOf`);
  - the remote command loop (`SendCommand` against `Planned`);
  - the mock's batch get (`BatchGet` against `GetMany`).
- Branch-only code is made of functions.

JSON values are a datatype (`Json.Json`). A dict is a list of key/value pairs, so key order is Python's insertion order. `Json.Put` keeps an existing key in place and appends a new one.

The outside world comes in as parameters:

- **`Py.Host`** bundles `json.dumps`, `json.loads`, `repr` and `float(str)` as given total functions.
- **`ApiClient.Transport`** is what the socket answers to a request text: a timeout, another OS error, undecodable octets, or a reply text.
- **`Coordinator.Device`**, `Remote.Device` and the `setter` argument of `Number.SetValue` give the outcome of each device call.
- **The clock** is a value passed in. The coordinator takes the first reading `now` and the reading `wake(d)` after a sleep of `d`.

Python's exceptions are the datatype `Exceptions.Exc`. The client's own exception classes are `ApiWire.ClientError`.

`exceptions.py` defines `BarcoStateError`, `BarcoConnectionError`, `BarcoAuthError` and `BarcoApiError` as four independent subclasses of `BarcoError`, and the model keeps them so. No code in the repository maps a JSON-RPC error code to one of them.

Some behaviour of the code is easy to misread; the model follows the code:

- **Client.** Each call opens a fresh connection and sends one request. There is no pending-request table, no background reader, and no id wrap-around.
- **Failed authentication.** After a failed `authenticate`, `connect` leaves `validated` set, because it is set right after the probe.
- **Active states.** The states that count as active are exactly "on" and "ready" (`const.py:24`). "conditioning" and "deconditioning" are not active.
- **Dead handlers in `connect`.** Its `except TimeoutError` and `except OSError` clauses never fire: `_send_request` has already turned those errors into the client's own exceptions.
- **Client and mock do not talk.** The client frames every request as an HTTP POST. The mock hands the whole stripped text to `json.loads`, which fails on the leading "POST"; it logs the error and writes nothing, so every client call against the mock ends in a timeout (`Interop.ClientTimesOutOnMock`). The other `Interop` lemmas hand the mock the request object itself, as a peer that reads the JSON body would.
- **The mock's authentication reply.** Handed the request object, the mock answers an accepted code with result `0`. The client's `authenticate` returns `bool(0)`, which is false, even though the authentication succeeded. `connect` ignores that value (`Interop.AuthenticateAnswered`).
- **Version skew.** `coordinator.py` and `remote.py` call a device API that `api.py` does not define (`get_properties`, `get_state`, `set_source`, `activate_preset`, `activate_profile`, `get_available_sources`). `const.py` lacks `POLLING_INTERVALS`, `PowerState` and `CLOSE_CONNECTION_AFTER_UPDATE`. The model therefore treats the device as an oracle, and takes the interval table, its default and the close-after-update switch as constructor parameters.
- **Bare values.** Handed the request object, the mock answers `property.get` with the bare value, and `get_system_state` reads a bare value with `str()`, so the two would agree. `list_sources` calls `image.source.list`, which the mock does not know (`Interop.SourceListUnanswered`).
- **Float overflow.** `float()` of an int beyond the double range raises OverflowError, which the `except (ValueError, TypeError)` clauses of the coordinator do not catch; the model lets it propagate, so the update fails (`Coordinator.FloatOrNone`, `Coordinator.LaserBounds`).

## Model

| member | source | states |
|---|---|---|
| Json.Put | scripts/mock_projector.py:106 | `d[key] = v` makes `key` map to `v`, leaves every other key's value alone, keeps an existing key's place and appends a new key |
| Json.PutKeepsDistinct | scripts/mock_projector.py:106 | `d[key] = v` on a dict whose keys are distinct leaves them distinct: the assoc list stays a dict |
| Json.GetFindsKeys | scripts/mock_projector.py:105 | `key in d` holds exactly when `key` is among the dict's keys, and the value found is stored under that key |
| Py.StripLeft | scripts/mock_projector.py:39 | `lstrip()` removes exactly the leading whitespace (the characters of the given class: `str.isspace()` for strip, the narrower IsIntSpace for `int()`): the result is a suffix, everything dropped is in the class, and the result does not start with a character of the class |
| Py.StripRight | scripts/mock_projector.py:39 | `rstrip()` removes exactly the trailing characters of the class, symmetrically |
| Py.ParseInt | custom_components/barco_pulse/remote.py:65 | `int()` of a string, as modelled: the surrounding whitespace `int()` skips (tab, line feed, vertical tab, form feed, carriage return, space and the non-ASCII Unicode spaces, but not the separators U+001C to U+001F) stripped, an optional sign, ASCII digits in groups joined by single underscores, and refused (ValueError) beyond 4300 digits; its properties are the lemmas below |
| Py.ParseIntCharset | custom_components/barco_pulse/remote.py:65 | every string the modelled `int()` accepts consists of whitespace `int()` skips, ASCII digits, signs and underscores only |
| Py.ParseIntRefusesSeparator | custom_components/barco_pulse/remote.py:65 | a string holding any of U+001C to U+001F is refused by `int()` (ValueError), although `str.isspace()` holds for those characters |
| Py.ParseIntLiteralRoundTrip | custom_components/barco_pulse/remote.py:65 | leaving the digit limit aside, the decimal text of every integer, negative ones included, reads back through `int()` as that integer |
| Py.ParseIntRoundTrip | custom_components/barco_pulse/remote.py:65 | `int(str(i)) == i` for every integer of at most 4300 digits, negative ones included; the text of a longer one is refused |
| Py.IntOf | custom_components/barco_pulse/coordinator.py:197 | `int()` of a JSON value: an int is itself and a parsed string its number; ValueError exactly for a string `int()` rejects, TypeError exactly for None, a list or a dict, and no other error |
| Py.FloatOf | custom_components/barco_pulse/coordinator.py:97 | `float()` of a JSON value: floats and ints inside the double range convert exactly; OverflowError exactly for an int beyond it, TypeError exactly for None, lists and dicts, ValueError exactly for a string float() rejects |
| Py.StrOf | custom_components/barco_pulse/api.py:308 | `str()` of a string is the string, and `str()` of an int of at most 4300 digits reads back through `int()` as the same int |
| ApiWire.Envelope | custom_components/barco_pulse/api.py:142-149 | the request object: jsonrpc "2.0", the method, params when given, and the id; its shape is stated by EnvelopeShape |
| ApiWire.EnvelopeShape | custom_components/barco_pulse/api.py:143-149 | the request has keys jsonrpc, method, id (and params) in that order, with jsonrpc "2.0", the method and the id; params is present exactly when params were given |
| ApiWire.LogCopy | custom_components/barco_pulse/api.py:152-156 | the logged copy has the same keys as the request, differs from it at most under params, and equals it unless the method is authenticate with params |
| ApiWire.AuthenticateRedacted | custom_components/barco_pulse/api.py:152-157 | for authenticate, the request sent still carries the code while the logged copy shows "REDACTED" in its place, with the same keys and every other parameter unchanged |
| ApiWire.OtherRequestsLoggedVerbatim | custom_components/barco_pulse/api.py:152-157 | any other request is logged exactly as it is sent |
| ApiWire.HttpRequest | custom_components/barco_pulse/api.py:168-176 | the POST text starts with the request line and Host header, and ends with the blank line followed by exactly the JSON body |
| ApiWire.DeframeHttpRequest | custom_components/barco_pulse/api.py:169-176 | reading the POST text back yields the host and a body delimited by the Content-Length value, which is exactly the JSON text sent (any host without a CR) |
| ApiWire.Utf8SizeIsLength | custom_components/barco_pulse/api.py:178 | the UTF-8 octet count is at least the character count and equals it exactly when every character is ASCII |
| ApiWire.ContentLengthCountsOctets | custom_components/barco_pulse/api.py:168-178 | with json.dumps writing ASCII only, the announced Content-Length, a character count, is also the number of octets written |
| ApiWire.ExtractJson | custom_components/barco_pulse/api.py:189-194 | the result is the text from the first `{` on; a reply with no `{` is a command error quoting its first 100 characters, with no code |
| ApiWire.ExtractSkipsHeaders | custom_components/barco_pulse/api.py:188-194 | any header text without `{` in front of the JSON text is dropped |
| ApiWire.Classify | custom_components/barco_pulse/api.py:199-213 | an error member wins (message default "Unknown error", code default None; a non-dict error raises AttributeError); otherwise the result is returned; neither gives "Invalid response: missing result or error" |
| ApiWire.ClassifyResponses | custom_components/barco_pulse/api.py:199-210 | a success response object reads as its result and an error response object as a command error with its message and code |
| ApiWire.Outcome | custom_components/barco_pulse/api.py:159-228 | a timeout becomes BarcoPulseTimeoutError naming the method and another OS error BarcoPulseConnectionError; undecodable octets raise ValueError; a reply without `{` is the "No JSON in response" command error; a JSON text json.loads refuses is the command error "Invalid JSON response: " plus the decoder's message; a decoded object is Classify of it; no path raises the authentication error or the bare API error |
| ApiWire.RepliesAfterHeaders | custom_components/barco_pulse/api.py:188-210 | a reply of header text without `{` followed by a success response object returns its result, and followed by an error response object raises a command error with its message and code |
| ApiClient.GetParams | custom_components/barco_pulse/api.py:279 | property.get sends exactly `{"property": name}` or `{"property": [names]}` |
| ApiClient.SetParams | custom_components/barco_pulse/api.py:290-292 | property.set sends exactly `{"property": name, "value": value}` |
| ApiClient.Sent | custom_components/barco_pulse/api.py:114-228 | `_send_request` as a whole: a timeout error (naming the method) exactly when the transport timed out, a connection error exactly for any other OS error, never an authentication or API error, and a result only for a reply text |
| ApiClient.AuthResult | custom_components/barco_pulse/api.py:246-252 | authenticate returns bool(result) when the request returns; only a command error becomes an authentication error, and every other error passes unchanged |
| ApiClient.Client.constructor | custom_components/barco_pulse/api.py:66-76 | the request id starts at 0, nothing has been sent, and the client is not validated |
| ApiClient.Client.SendRequest | custom_components/barco_pulse/api.py:137-157 | the id goes up by exactly one, the request is recorded with that id, ids stay 1, 2, 3, … (Valid), and the result is what the transport's reply classifies to |
| ApiClient.Client.Authenticate | custom_components/barco_pulse/api.py:232-252 | sends one authenticate request with `{"code": code}` and returns AuthResult of its outcome |
| ApiClient.Client.GetProperty | custom_components/barco_pulse/api.py:268-279 | sends one property.get with GetParams and returns its result unchanged |
| ApiClient.Client.SetProperty | custom_components/barco_pulse/api.py:281-292 | sends one property.set with SetParams and raises what it raised |
| ApiClient.Client.Connect | custom_components/barco_pulse/api.py:78-106 | sends the system.serialnumber probe; validated is set exactly when the probe returns; authenticate follows exactly when the probe returned and a code is configured; errors propagate unchanged |
| ApiClient.Client.Disconnect | custom_components/barco_pulse/api.py:108-112 | only clears validated; nothing is sent |
| ApiClient.Client.PowerOn | custom_components/barco_pulse/api.py:256-259 | sends exactly system.poweron without params |
| ApiClient.Client.PowerOff | custom_components/barco_pulse/api.py:261-264 | sends exactly system.poweroff without params |
| ApiClient.Client.GetSystemState | custom_components/barco_pulse/api.py:296-309 | gets system.state and returns ValueString of the result |
| ApiClient.Client.GetActiveSource | custom_components/barco_pulse/api.py:356-368 | gets image.window.main.source and returns ValueString of the result |
| ApiClient.Client.SetActiveSource | custom_components/barco_pulse/api.py:370-379 | sets image.window.main.source to the source string |
| ApiClient.Client.GetSystemInfo | custom_components/barco_pulse/api.py:311-341 | gets the three info properties in one batch and decodes the reply by SystemInfoSpec |
| ApiClient.Client.ListSources | custom_components/barco_pulse/api.py:345-354 | sends image.source.list without params and decodes the reply by SourcesOf |
| ApiClient.Client.GetLaserPower | custom_components/barco_pulse/api.py:383-402 | gets illumination.sources.laser.power and decodes it by LaserPowerOf |
| ApiClient.Client.SetLaserPower | custom_components/barco_pulse/api.py:404-413 | sets illumination.sources.laser.power to the power as a float |
| ApiClient.ValueString | custom_components/barco_pulse/api.py:307-309 | str(result["value"]) for a dict holding "value", and str(result) for anything else |
| ApiClient.ValueStringOfText | custom_components/barco_pulse/api.py:366-368 | a bare string and a `{"value": s}` dict both read back as s |
| ApiClient.Harvest | custom_components/barco_pulse/api.py:327-329 | the item loop as a function of the items: well-formed items write their value under their property, and an unhashable property raises TypeError; its properties are HarvestFails, HarvestIsLastValue and HarvestAfterError |
| ApiClient.HarvestFails | custom_components/barco_pulse/api.py:327-329 | the item loop raises exactly when some well-formed item has a list or dict as its property, and then raises TypeError |
| ApiClient.HarvestIsLastValue | custom_components/barco_pulse/api.py:327-329 | when the loop completes, each key holds the value of the last well-formed item naming it, and only such keys are present |
| ApiClient.SystemInfoSpec | custom_components/barco_pulse/api.py:320-341 | the decoding of the reply fails exactly for a value that is neither list nor dict (AttributeError) or a list with an unhashable property (TypeError); a dict never fails |
| ApiClient.SystemInfoOfList | custom_components/barco_pulse/api.py:325-334 | a list reply fails only on an unhashable property; otherwise each entry is its last reported value, or "" when no item reports it |
| ApiClient.SystemInfoOf | custom_components/barco_pulse/api.py:311-341 | the loop computes SystemInfoSpec: a list goes through the item loop, a dict is read directly, anything else raises AttributeError |
| ApiClient.HarvestAfterError | custom_components/barco_pulse/api.py:327-329 | once the loop has raised, later items change nothing |
| ApiClient.SystemInfoExample | tests/test_api.py:352-365 | the three-item list reply of the test decodes to its serial number, model name and firmware version |
| ApiClient.SourcesOf | custom_components/barco_pulse/api.py:353-354 | a falsy result gives []; a list is returned as is; a string gives its characters and a dict its keys; a truthy number or boolean raises TypeError, and nothing else raises |
| ApiClient.Numeric | custom_components/barco_pulse/api.py:396-400 | float() of a float, and of an int inside the double range, is exact; it fails exactly for a string float() rejects (ValueError) and for an int beyond the double range (OverflowError), and the error propagates |
| ApiClient.LaserPowerOf | custom_components/barco_pulse/api.py:391-402 | the bare API error is raised exactly when the value (under "value" for a dict holding it) is not an int, float, bool or str; otherwise it is float() of that value |
| ApiClient.LaserPowerExamples | custom_components/barco_pulse/api.py:393-402 | `{"value": 75}` reads 75.0 and 50.5 reads 50.5, while a dict without "value" and a null are rejected |
| Coordinator.FloatOrNone | custom_components/barco_pulse/coordinator.py:96-100 | None stays None; otherwise the float, or None exactly when float() raises ValueError or TypeError; an int beyond the double range raises OverflowError, which the except clause does not catch |
| Coordinator.FloatEntries | custom_components/barco_pulse/coordinator.py:93-100 | the mapping loop either raises OverflowError or writes entries that are each None or a float |
| Coordinator.FloatEntriesFail | custom_components/barco_pulse/coordinator.py:93-100 | the four conversions raise exactly when some reported property overflows, and then with OverflowError |
| Coordinator.FloatEntriesMeaning | custom_components/barco_pulse/coordinator.py:93-100 | when none raises, each mapping's key holds the coerced value when its property is reported and is absent otherwise; no other key is written |
| Coordinator.FloatEntriesAfterError | custom_components/barco_pulse/coordinator.py:93-100 | once a conversion raises, the later mappings change nothing |
| Coordinator.FloatKeysWritten | custom_components/barco_pulse/coordinator.py:85-91 | the four mappings write laser_power, brightness, contrast and saturation, each once |
| Coordinator.ParseFloatProperties | custom_components/barco_pulse/coordinator.py:82-100 | the dict afterwards is the dict before with the converted entries laid over it; it raises exactly when a reported value overflows; each of the four keys is written only when its property is reported; no other key changes |
| Coordinator.ApplyMappings | custom_components/barco_pulse/coordinator.py:93-100 | the mapping loop lays FloatEntries over the dict, or raises its error, and keeps every key no mapping writes |
| Coordinator.DeviceBound | custom_components/barco_pulse/coordinator.py:106-111 | a bound counts exactly when it is present, not None, and accepted by float(), and then it is that float |
| Coordinator.LaserBounds | custom_components/barco_pulse/coordinator.py:102-122 | both bounds come from the device when both count, and otherwise both are 0.0 and 100.0, never a mix; an OverflowError of the minimum, or of the maximum once the minimum converted, escapes the except clause |
| Coordinator.ParseLaserConstraints | custom_components/barco_pulse/coordinator.py:102-122 | laser_min and laser_max are set as LaserBounds chose them, or its error is raised; other keys are untouched |
| Coordinator.Assignments | custom_components/barco_pulse/coordinator.py:192-197 | the assignments the loop builds, item by item, as a function of the items; its properties are AssignmentsFail, AssignmentsMeaning and AssignmentsAfterError |
| Coordinator.AssignmentsFail | custom_components/barco_pulse/coordinator.py:193-197 | the parse raises exactly when a taken item's number is rejected by int(), and then with ValueError or TypeError |
| Coordinator.AssignmentsMeaning | custom_components/barco_pulse/coordinator.py:193-197 | a number is assigned exactly when some item of length at least 2 with a truthy name carries it; it maps to the name of the last such item, which is truthy |
| Coordinator.AssignmentsAfterError | custom_components/barco_pulse/coordinator.py:193-197 | once an item raises, the items after it change nothing |
| Coordinator.InsertSorted | custom_components/barco_pulse/coordinator.py:200 | inserting keeps the list strictly increasing and holds exactly the old numbers plus the new one |
| Coordinator.Numbers | custom_components/barco_pulse/coordinator.py:200 | `sorted(assignments.keys())`: strictly increasing and holding exactly the assigned numbers |
| Coordinator.PresetsOf | custom_components/barco_pulse/coordinator.py:186-201 | {} for a non-list; for a list, preset_assignments and available_presets (strictly increasing, exactly the assigned numbers); it raises exactly when an assignment raises, with that error |
| Coordinator.ParsePresetAssignments | custom_components/barco_pulse/coordinator.py:186-201 | the loop returns PresetsOf of its argument |
| Coordinator.PresetExample | custom_components/barco_pulse/coordinator.py:193-197 | the pairs [1, "Cinema"], [2, ""], [3, "Gaming"] give {1: "Cinema", 3: "Gaming"} |
| Coordinator.ReadingsOf | custom_components/barco_pulse/coordinator.py:150-158 | the readings part of the try block raises only OverflowError, and when it returns, both laser bounds are set |
| Coordinator.ReadingsFail | custom_components/barco_pulse/coordinator.py:150-158 | the floats, the source and the bounds raise only with OverflowError, exactly when a float property or a laser bound overflows |
| Coordinator.ReadingsMeaning | custom_components/barco_pulse/coordinator.py:150-158 | when they do not raise: each float key as FloatParsed states it, source exactly when reported and then its value, both laser bounds as LaserBounds chose them, and no other key |
| Coordinator.ParseReadings | custom_components/barco_pulse/coordinator.py:150-158 | writes exactly ReadingsOf of the batch |
| Coordinator.CatalogueOf | custom_components/barco_pulse/coordinator.py:160-170 | raises exactly when the preset parse raises, with ValueError or TypeError; when the presets are reported, holds exactly the preset keys _parse_preset_assignments returns (none for a non-list), with their values, and neither preset key otherwise; profiles exactly when reported as a list, with its value |
| Coordinator.ParseCatalogue | custom_components/barco_pulse/coordinator.py:160-170 | the dict afterwards is the dict before with CatalogueOf laid over it, or its error; no other key changes |
| Coordinator.ActiveBlock | custom_components/barco_pulse/coordinator.py:141-170 | the try block raises only OverflowError, ValueError or TypeError, and when it returns, both laser bounds are set |
| Coordinator.ActiveBlockMeaning | custom_components/barco_pulse/coordinator.py:141-170 | a block that does not raise is ReadingsOf with CatalogueOf laid over it, and holds only active-block keys |
| Coordinator.ParseActive | custom_components/barco_pulse/coordinator.py:141-170 | the try block returns ActiveBlock of the batch |
| Coordinator.WithSources | custom_components/barco_pulse/coordinator.py:176-182 | available_sources is added when the call returns; a StateError leaves it out; any other error propagates |
| Coordinator.ActiveOutcome | custom_components/barco_pulse/coordinator.py:124-184 | {} for a batch that is not a dict; for a dict, the active block with the sources added; for a StateError, only the default bounds with the sources; every other error, and the block's own, propagates; no base key is ever written |
| Coordinator.ActiveCalls | custom_components/barco_pulse/coordinator.py:124-184 | the batch is requested first, the source list exactly when the try block neither returned early nor raised, and no disconnect |
| Coordinator.GetActiveProperties | custom_components/barco_pulse/coordinator.py:124-184 | returns ActiveOutcome of its two calls and makes exactly ActiveCalls of its batch |
| Coordinator.InfoOf | custom_components/barco_pulse/coordinator.py:68-80 | exactly serial_number, model and firmware_version, each the batch's value or None; a non-dict batch raises AttributeError |
| Coordinator.IsActive | custom_components/barco_pulse/coordinator.py:273 | `state in POWER_STATES_ACTIVE`: the strings "on" and "ready" and nothing else |
| Coordinator.TransitionalAndStandbyAreNotActive | custom_components/barco_pulse/const.py:24-26 | no transitional or standby state counts as active |
| Coordinator.IntervalFor | custom_components/barco_pulse/coordinator.py:278-283 | the table's interval for a known state string, and the default for every other value |
| Coordinator.Reported | custom_components/barco_pulse/coordinator.py:213-257 | AuthError becomes ConfigEntryAuthFailed without cleanup; a timeout, a connection error and every other Exception become UpdateFailed after cleanup; a cancellation escapes |
| Coordinator.AfterCleanup | custom_components/barco_pulse/coordinator.py:219-223 | a ConnectionError or OSError from the cleanup disconnect changes nothing, while any other error from it escapes instead |
| Coordinator.FailuresBecomeUpdateFailed | custom_components/barco_pulse/coordinator.py:213-257 | every Exception other than AuthError ends as UpdateFailed, unless the cleanup itself raises an error the handlers do not catch |
| Coordinator.UniqueId | custom_components/barco_pulse/coordinator.py:318-326 | a truthy serial_number in the data, else the fallback id, which is truthy when non-empty |
| Coordinator.UniqueIdIsStable | custom_components/barco_pulse/coordinator.py:318-319 | two data dicts with the same serial number give the same unique id |
| Coordinator.Polled | custom_components/barco_pulse/coordinator.py:264-275 | a successful update's data: the state, the three info values, and, exactly for an active state, the keys of what _get_active_properties returned |
| Coordinator.PollOf | custom_components/barco_pulse/coordinator.py:264-275 | an info error propagates, and so does an active-block error for an active state; a result is Polled |
| Coordinator.PollCalls | custom_components/barco_pulse/coordinator.py:264-270 | the info batch first, then the active calls exactly when the info did not raise and the state is active, and no disconnect |
| Coordinator.Assemble | custom_components/barco_pulse/coordinator.py:264-275 | returns PollOf of the state and makes exactly PollCalls; the active batch is requested exactly for an active state |
| Coordinator.Coordinator.constructor | custom_components/barco_pulse/coordinator.py:45-59 | the interval starts at the default, the last update time at 0, and the fallback id is fixed |
| Coordinator.Coordinator.EnforceRateLimit | custom_components/barco_pulse/coordinator.py:61-66 | the recorded update time moves on by at least one second; there is no sleep when a second has passed, and otherwise exactly the rest of the second |
| Coordinator.Coordinator.Fetched | custom_components/barco_pulse/coordinator.py:259-304 | the result, calls and interval of _fetch_data as a function of the device: a raise from the state, info or active calls is returned with the interval unchanged; otherwise the state's interval is set, and the data is returned unless the configured disconnect raises an error other than ConnectionError or OSError, which is then returned |
| Coordinator.Coordinator.Disconnected | custom_components/barco_pulse/coordinator.py:294-304 | the data survives a disconnect that returned or raised ConnectionError or OSError; any other error of the disconnect is raised instead |
| Coordinator.Coordinator.FetchedMeaning | custom_components/barco_pulse/coordinator.py:259-304 | from Fetched: the state call comes first; a state or poll error is returned and leaves the interval alone; a successful poll sets the state's interval and returns PollOf's data (hence Polled) unless the disconnect raises an error it does not ignore, which is returned; the last call is a disconnect exactly when the poll succeeded and closing is configured |
| Coordinator.Coordinator.FetchData | custom_components/barco_pulse/coordinator.py:259-304 | the recorded update time moves on by at least a second, and the result, the calls and the new interval are Fetched of the device and the old interval |
| Coordinator.Coordinator.AsyncUpdateData | custom_components/barco_pulse/coordinator.py:203-257 | the fetched result, its calls and the interval are Fetched of the device; fetched data is returned; a failure is Reported, with the cleanup disconnect appended exactly when the handler disconnects and its error replacing the report unless ignored |
| Coordinator.Coordinator.UniqueIdOf | custom_components/barco_pulse/coordinator.py:306-326 | the unique id uses the fallback computed at construction |
| Remote.PrefixesExclusive | custom_components/barco_pulse/remote.py:58-73 | no command starts with two of the prefixes |
| Remote.Dispatch | custom_components/barco_pulse/remote.py:58-73 | the device call one command asks for, by its prefix; its properties are the Dispatch lemmas below |
| Remote.DispatchMeaning | custom_components/barco_pulse/remote.py:58-73 | a command asks for a source, preset or profile call, whose argument is the command minus its prefix; it asks for nothing exactly when no prefix matches or int() rejects the preset number |
| Remote.DispatchSource | custom_components/barco_pulse/remote.py:58-61 | "source_X" selects source X for every X, including "" |
| Remote.DispatchProfile | custom_components/barco_pulse/remote.py:70-73 | "profile_X" activates profile X for every X |
| Remote.DispatchPreset | custom_components/barco_pulse/remote.py:62-66 | "preset_N" activates preset N for every integer N of at most 4300 digits, with no range check; a longer number asks for nothing |
| Remote.DispatchPresetTooLong | custom_components/barco_pulse/remote.py:62-69 | a preset number of more than 4300 digits asks for nothing, because `int()` raises ValueError |
| Remote.DispatchPresetText | custom_components/barco_pulse/remote.py:62-69 | a preset command asks for the number int() reads from the rest of it, or for nothing |
| Remote.DispatchPresetBlank | custom_components/barco_pulse/remote.py:65 | "preset_ 5 " activates preset 5 |
| Remote.DispatchPresetSeparator | custom_components/barco_pulse/remote.py:64-69 | "preset_" followed by U+001C and "5" asks for nothing, since `int()` raises ValueError on it |
| Remote.DispatchPresetNotANumber | custom_components/barco_pulse/remote.py:64-69 | "preset_abc" and "preset_" ask for nothing |
| Remote.DispatchOther | custom_components/barco_pulse/remote.py:58-73 | a command with none of the prefixes asks for nothing |
| Remote.Planned | custom_components/barco_pulse/remote.py:57-73 | the device calls a command list asks for: at most one per command (in order, by PlannedAppend and PlannedOne) |
| Remote.PlannedAppend | custom_components/barco_pulse/remote.py:57-73 | the calls of two command lists back to back are the calls of each, in order |
| Remote.PlannedOne | custom_components/barco_pulse/remote.py:57-73 | each command adds its own call, if any, after the calls of the commands before it |
| Remote.Tolerated | custom_components/barco_pulse/remote.py:64-69 | the loop goes on past a failed call only for a preset command raising ValueError or IndexError; every other error stops it |
| Remote.SendCommand | custom_components/barco_pulse/remote.py:48-75 | the planned calls in input order, then exactly one refresh; the first call that raises an error other than ValueError/IndexError from a preset ends the command there, with no refresh |
| Remote.IsOn | custom_components/barco_pulse/remote.py:33-36 | on exactly when the data holds a state that is "on" or "ready" |
| Remote.ConditioningIsNotOn | custom_components/barco_pulse/remote.py:36 | "conditioning" and "deconditioning" are not on |
| Remote.Switch | custom_components/barco_pulse/remote.py:38-46 | one power call in the requested direction, then the refresh exactly when that call returned; its error propagates |
| Remote.SwitchCallsPowerOnce | custom_components/barco_pulse/remote.py:38-46 | exactly one power call is made, the first, and it is power_on exactly for turn_on |
| Helpers.Due | custom_components/barco_pulse/helpers.py:86-90 | a refresh goes ahead exactly when the last refresh (0 if none) is at least 0.5 s before now |
| Helpers.AfterRefresh | custom_components/barco_pulse/helpers.py:86-98 | a refresh that goes ahead records now for its coordinator and adds no other key; a skipped one leaves the table unchanged; other coordinators' entries are kept |
| Helpers.RefreshIsPerCoordinator | custom_components/barco_pulse/helpers.py:82-98 | a refresh for one coordinator never changes another's entry |
| Helpers.RefreshStartsCooldown | custom_components/barco_pulse/helpers.py:97-103 | after a refresh goes ahead, every request in the next 0.5 s is skipped, whether or not the refresh failed |
| Helpers.SkippedRefreshKeepsTable | custom_components/barco_pulse/helpers.py:89-95 | a skipped refresh leaves the table as it was |
| Helpers.FirstRefresh | custom_components/barco_pulse/helpers.py:86 | a coordinator without an entry counts as last refreshed at 0 |
| Helpers.RefreshesAreSpaced | custom_components/barco_pulse/helpers.py:86-98 | two refreshes that go ahead in turn are at least 0.5 s apart |
| Helpers.RefreshThrottle.constructor | custom_components/barco_pulse/helpers.py:26 | the table starts empty |
| Helpers.RefreshThrottle.SafeRefresh | custom_components/barco_pulse/helpers.py:70-105 | refreshes exactly when due and records `now` first; every Exception from the refresh is swallowed and only a cancellation escapes |
| Helpers.HandleApiErrors | custom_components/barco_pulse/helpers.py:40-65 | the decorator's outcome for a call's result: the result, or HomeAssistantError with the clause's message head chained to the error; its properties are the two lemmas below |
| Helpers.HandleApiErrorsMeaning | custom_components/barco_pulse/helpers.py:40-65 | a result passes through unchanged; every Exception becomes HomeAssistantError chained to it; only a cancellation escapes |
| Helpers.PrefixNamesTheClause | custom_components/barco_pulse/helpers.py:44-65 | the message head shows which clause caught the error: StateError before ConnectionError before the catch-all |
| Number.SettersDistinct | custom_components/barco_pulse/number.py:59 | the five entities call five different setters (this line and lines 100, 143, 186 and 229) |
| Number.Comparable | custom_components/barco_pulse/number.py:65 | a stored value compares with a float when it is an int, float or bool; anything else makes the comparison raise TypeError |
| Number.Stored | custom_components/barco_pulse/number.py:50-55 | `data.get(key, default)`: the default when the key is absent; an error only for a stored value that is not comparable, and then TypeError |
| Number.MinValue | custom_components/barco_pulse/number.py:47-55 | the laser's native_min_value: the stored laser_min, 0.0 when absent (the picture controls' fixed -1.0 is at lines 83-84) |
| Number.MaxValue | custom_components/barco_pulse/number.py:47-55 | the laser's native_max_value: the stored laser_max, 100.0 when absent (the picture controls' fixed 1.0 is at lines 83-84) |
| Number.Validate | custom_components/barco_pulse/number.py:65-71 | the range check against MinValue and MaxValue; its meaning is ValidateIsClosedInterval |
| Number.ValidateIsClosedInterval | custom_components/barco_pulse/number.py:65-71 | with numeric bounds, a value passes exactly when min ≤ value ≤ max, and otherwise raises ValueError |
| Number.PictureBounds | custom_components/barco_pulse/number.py:83-84 | the picture controls accept exactly [-1.0, 1.0] (and at lines 126-127, 169-170 and 212-213) |
| Number.LaserDefaults | custom_components/barco_pulse/number.py:47-55 | without reported bounds the laser accepts exactly [0.0, 100.0] |
| Number.LaserBoundsFromCoordinator | custom_components/barco_pulse/number.py:47-55 | the bounds the coordinator stores are the bounds the laser enforces |
| Number.SetValue | custom_components/barco_pulse/number.py:57-76 | a rejected value makes no call and becomes HomeAssistantError; an accepted one calls its setter once with the same value, then safe_refresh exactly when the setter returned |
| Number.SetValueCallsOwnSetter | custom_components/barco_pulse/number.py:73-76 | the only setter call is the first call, and it is the entity's own setter with the value |
| Number.LaserEndpoints | custom_components/barco_pulse/number.py:65 | both laser endpoints are accepted, and one above the maximum is not |
| MockProjector.InitialStateHasState | scripts/mock_projector.py:13-19 | the initial table has system.state |
| MockProjector.CodeAccepted | scripts/mock_projector.py:63 | the code check `code and 10000 <= code <= 99999`; its meaning is CodeAcceptedMeaning |
| MockProjector.CodeAcceptedMeaning | scripts/mock_projector.py:63 | a code is accepted exactly when it is a number from 10000 to 99999; a truthy string, list or dict raises TypeError |
| MockProjector.GetMany | scripts/mock_projector.py:84-92 | the batch result dict; the only error it raises is TypeError |
| MockProjector.GetManyFails | scripts/mock_projector.py:86-87 | the batch fails exactly when a name is a list or dict, and then with TypeError |
| MockProjector.GetManyOfStrings | scripts/mock_projector.py:84-92 | for string names, the result has an entry for exactly the requested names, each the table's value or None |
| MockProjector.GetManyAfterError | scripts/mock_projector.py:86-87 | once a name raises, later names change nothing |
| MockProjector.SuccessShape | scripts/mock_projector.py:65-69 | a success reply has jsonrpc "2.0", the id and the result, and no error |
| MockProjector.ErrorShape | scripts/mock_projector.py:70-77 | an error reply has jsonrpc "2.0", the id and the error object, and no result |
| MockProjector.Handle | scripts/mock_projector.py:52-142 | handle_request as a function of the table and the request: the reply, the new table and whether the connection authenticates; its properties are the lemmas around it |
| MockProjector.ResponseForms | scripts/mock_projector.py:52-142 | every reply is a success, the refused authentication (for a known method), or −32601 for an unknown one |
| MockProjector.EveryReplyEchoesId | scripts/mock_projector.py:52-142 | every reply has jsonrpc "2.0", echoes the request id (null when absent), and holds exactly one of result and error; −32602 only from a known method, −32601 exactly for an unknown one |
| MockProjector.AuthenticateRule | scripts/mock_projector.py:59-77 | authenticate authenticates with result 0 exactly when the code is accepted, and otherwise returns −32602; the table never changes |
| MockProjector.OnlyAuthenticateAuthenticates | scripts/mock_projector.py:59-64 | no other method authenticates |
| MockProjector.SetOnlyExisting | scripts/mock_projector.py:102-112 | property.set changes only an existing key, and only that key; the key set never grows; the reply is result 0 either way |
| MockProjector.PowerSetsState | scripts/mock_projector.py:115-132 | poweron and poweroff set system.state to "on" and "standby" and change no other key |
| MockProjector.UnknownMethod | scripts/mock_projector.py:134-142 | any other method returns −32601 "Method not found: <method>" and changes nothing |
| MockProjector.HandleKeepsKeys | scripts/mock_projector.py:101-132 | no request adds or removes a table key |
| MockProjector.Store.constructor | scripts/mock_projector.py:13-19 | the table starts as the five initial entries |
| MockProjector.BatchGet | scripts/mock_projector.py:84-87 | the batch loop computes GetMany |
| MockProjector.Protocol.constructor | scripts/mock_projector.py:25-28 | a new connection is not authenticated |
| MockProjector.Protocol.HandleRequest | scripts/mock_projector.py:52-142 | the reply and the new table are Handle's, independent of the flag; only an accepted authenticate sets the flag; a raising request changes nothing |
| MockProjector.Protocol.DataReceived | scripts/mock_projector.py:36-50 | the stripped text is parsed and handled; the reply is the dumped dict plus a newline, or nothing when parsing or handling raised |
| Interop.StripKeepsFirst | scripts/mock_projector.py:39 | `strip()` keeps a first character that is not whitespace |
| Interop.MockExchange | scripts/mock_projector.py:36-50 | what the client reads back from the mock: the line data_received writes, or, when it writes none, nothing until its read times out |
| Interop.RequestLineFirst | custom_components/barco_pulse/api.py:169-176 | the text the client writes starts with the P of "POST" |
| Interop.FramedRequestUnread | scripts/mock_projector.py:39-42 | for any json.loads that rejects text not starting like JSON, the mock cannot parse a request the client sends, so data_received writes nothing and changes nothing |
| Interop.ClientTimesOutOnMock | custom_components/barco_pulse/api.py:182-222 | so every request the client sends to the mock ends in BarcoPulseTimeoutError naming its method |
| Interop.EnvelopeRead | scripts/mock_projector.py:54-56 | given the client's request object itself (not the HTTP text the client sends), the mock reads its method, params (default {}) and id unchanged |
| Interop.GetOneAnswered | scripts/mock_projector.py:93-99 | for the request object itself, getting one name returns the table's value, or None, and the client's Classify returns it |
| Interop.GetManyAnswered | scripts/mock_projector.py:84-92 | for the request object itself, getting a list of names gives the client a dict with exactly those names, each the table's value or None |
| Interop.AuthenticateAnswered | scripts/mock_projector.py:59-77 | for the request object itself, an integer code authenticates exactly in 10000..99999, and the client then returns False (bool of result 0); any other code is an authentication error |
| Interop.PowerAnswered | scripts/mock_projector.py:115-132 | for the request objects themselves, the client's power calls succeed and leave the state active exactly after power_on |
| Interop.SetThenGet | scripts/mock_projector.py:102-112 | for the request objects themselves, a get after a set returns the value set when the name existed, and the old value otherwise |
| Interop.SourceListRefused | scripts/mock_projector.py:134-142 | image.source.list gets −32601 "Method not found: image.source.list" and changes nothing |
| Interop.SourceListUnanswered | custom_components/barco_pulse/api.py:353 | for the request object itself, list_sources raises a command error with code −32601 |

## Left out

- Sockets, the HTTP transport and the mock server's `main`: the client's socket is an oracle from request text to outcome, and the mock model starts from decoded text.
- UTF-8 decoding of the replies and in `data_received`: decoding is an outcome of the exchange (`Undecodable`), not modelled octet by octet.
- `asyncio` locks, `asyncio.wait_for` timeouts and sleeps: everything runs sequentially, and a timeout is an error outcome of the call it interrupts.
- `time.time()`: clock readings are parameters.
- The MD5 fallback id: a constant given at construction.
- Home Assistant's refresh debouncer behind `async_request_refresh`: appears only as a call or an outcome.
- Helpers.RefreshThrottle.SafeRefresh: the 0.1 s sleep is not modelled.
- Remote.SendCommand: a refresh request that raises is not modelled; the final refresh is recorded as a call.
- Number.SetValue: an error raised by safe_refresh itself (only a cancellation can escape it) is not modelled; the refresh is recorded as a call.
- Number.SetValue: message texts are not built, because floats are printed by Python's repr; the model records the message head and the chained cause.
- `native_value`, unique ids and translation keys of the entities: plain attribute lookups.
- Coordinator data when the framework has not stored any yet: `UniqueId` takes an `Option`, and the other entities assume data is present, as the source does.
- MockProjector.GetMany: the result is keyed by the text json.dumps writes for each name, so names with the same text share one entry. Python keys the dict by the names themselves. Values equal as Python values (1 and 1.0) merge there before they are written. A string name and a non-string name with the same text ("1" and 1) stay two keys there, and the dumped reply holds "1" twice. The model folds them into one entry.
- Floating-point values are `real`: NaN, infinities and rounding are left out.
- `json.dumps`, `json.loads`, `repr` and `float(str)` are given functions of `Py.Host`: their text formats are not modelled. The only property of `json.loads` the model relies on is stated where it is used (`Interop.LoadsNeedsJsonStart`).
- Py.ParseInt: only ASCII digits are accepted; Python's `int()` also accepts the decimal digits of other scripts (Arabic-Indic, Devanagari, fullwidth and so on), which the model rejects.
- Py.ParseIntCharset: states the character set of the ASCII-only model above, not of Python's `int()`, which also takes non-ASCII decimal digits.
- Py.IntOf: a string of non-ASCII decimal digits is a ValueError in the model, but a number in Python.
- Remote.DispatchPreset: "preset_" followed by non-ASCII decimal digits asks for nothing in the model, but activates that preset in Python.
- Py.StrOf: `str()` of an int of more than 4300 digits raises ValueError in Python; the model returns its decimal text, and only the round trip through `int()` is limited to 4300 digits.
- Coordinator.Coordinator.EnforceRateLimit, Coordinator.Coordinator.FetchData and Coordinator.Coordinator.AsyncUpdateData: assume the clock reading after a sleep of `d` is at least `d` later (`wake(d) >= now + d`); a wall clock that steps back, or an asyncio timer that fires early, breaks the one-second guarantee.
- Interop.MockExchange: assumes each request arrives in one `data_received` call and the reply in one read of at most 4096 octets.
- The other platforms (sensor, binary_sensor, switch, select), entity.py, `__init__.py`, data.py and config_flow.py: framework glue, not part of this model.
