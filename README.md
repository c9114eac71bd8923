# ActionThing, modelled in Dafny

ActionThing is a plug-in for the DeskThing car-dashboard host. It shows up to
six configurable buttons, and each button fires an HTTP request when pressed.
This project models the plug-in's core in Dafny 4.11 and proves properties of
that model. The core has four parts:

- **The backend's `trigger-action` handler** (`trigger.dfy`, module `Trigger`).
  - It unwraps the incoming trigger and rejects a falsy `buttonId`.
  - It fills in defaults with JavaScript's `||`.
  - It builds the header dictionary: the custom JSON first, then the
    `Content-Type` default, then `Authorization`.
  - It resolves the body, performs the request and reports the outcome.
  - Every send goes to the outbox of a `Backend` object, in order, as `log`,
    `error` and `action-response` messages. The outbox stands for `DeskThing.send`.
  - The handler is the method `Backend.OnTriggerAction`. It builds the
    dictionary step by step, as the handler does, and is proved to append to
    the outbox exactly the specification function `TriggerEffects`.
- **The dashboard client's state** (`app.dfy`, module `App`).
  - It holds the settings snapshot, the per-button response map with
    last-write-wins, and the rolling activity log of at most 20 lines.
  - It derives the six button records from the flat settings keys, with their
    `||` fallbacks, and the enabled-only list.
  - It extracts messages from loosely shaped `log` and `error` events.
  - It chooses the grid's column count.
  - It sends `trigger-action` only for an enabled button.
  - The listeners are methods of the class `Client`.
- **The settings editor** (`panel.dfy`, module `Panel`).
  - It applies copy-and-spread updates to the selected button.
  - It edits the header dictionary: set, delete, rename and add.
  - It resets a button to its defaults and saves. These are methods of the
    class `SettingsPanel`.
- **Settings registration** (`setup.dfy` module `Setup`, `schema.dfy` module
  `Schema`).
  - The `for` loops that generate the ID table, the default values and the
    55-entry settings schema.
  - `setupSettings`, which hands the schema to the host.
  - The loops are methods, each proved equal to a table function:
    `IdTable`, `DefaultsTable`, `SettingsTable`.
  - Those table functions are built on the generic slot-by-slot fold of
    `tables.dfy` (module `Tables`).

Supporting modules:

- `wrappers.dfy`: `Option` and `Result`.
- `js.dfy`: JavaScript values, truthiness, `||`, property reads, `String(v)`
  and `trim`.
- `base64.dfy`: `btoa`, as section 4 of RFC 4648 over Latin-1 code units,
  with a decoder and the round trip.
- `boundary.dfy`: the messages crossing the event channel.
- `endtoend.dfy`: the two sides together. What the client sends is what the
  backend reads, and what the backend sends is what the client shows.

Calls into code outside the plug-in are parameters of the model:

- `JSON.parse`, `JSON.stringify`, `new Date().toISOString()`, and `fetch`
  together with `response.text()` are fields of a `Trigger.Host` value.
- The client's clock and `JSON.stringify` are method parameters.
- The host's `initSettings` appears only through the exception it may throw.

## Model

| member | source | states |
|---|---|---|
| Js.Or | server/index.ts:34-37 | `a \|\| b` is `a` when `a` is truthy and `b` otherwise; the result is truthy iff either operand is |
| Js.OrIdempotent | server/index.ts:34-53 | defaulting twice with the same default is defaulting once (why the backend's defaults leave the client's unchanged) |
| Js.Get | server/index.ts:35 | a property read gives the object's own property, and `undefined` for a missing property or a primitive |
| Js.NatToDecimal | server/setupSettings.ts:12 | `${i}` is a non-empty string of decimal digits, one digit exactly below 10 |
| Js.DecimalRoundTrip | server/setupSettings.ts:12-20 | reading the numeral back gives the number: `${i}` loses nothing |
| Js.NatToDecimalInjective | server/setupSettings.ts:12-20 | distinct slot numbers give distinct numerals |
| Js.IntToDecimal | server/index.ts:151 | `String(n)`: a `-` and the digits of `-n` for a negative `n`, the digits of `n` otherwise |
| Js.ToStr | server/index.ts:37 | `String(v)`: a string is itself, a number its numeral, `undefined` is `"undefined"`, and a non-string never converts to `''` |
| Js.TrimStart | server/index.ts:91 | the result is a suffix of the input that starts with a non-white-space character, or is empty, and only white space was dropped |
| Js.TrimEnd | server/index.ts:91 | the result is a prefix of the input that ends with a non-white-space character, or is empty, and only white space was dropped |
| Js.Trim | server/index.ts:91 | trimming never lengthens a string |
| Js.TrimEmptyIffBlank | server/index.ts:91 | `s.trim() === ''` exactly when every character of `s` is ECMAScript white space or a line terminator |
| Js.TrimKeepsContent | server/index.ts:91 | a string with a non-white-space character trims to a non-empty string |
| Base64.Sextet | server/index.ts:85 | each 6-bit value encodes as a character of the RFC 4648 alphabet |
| Base64.SextetValueOfSextet | server/index.ts:85 | decoding a sextet's character gives the sextet back |
| Base64.Encode | server/index.ts:85 | the encoding has `4 * ceil(n / 3)` characters, all from the alphabet or `=` |
| Base64.DecodeEncode | server/index.ts:85 | decoding the encoding of any byte sequence gives the bytes back |
| Base64.Btoa | server/index.ts:85 | `btoa` succeeds exactly when every character is a Latin-1 code unit |
| Base64.BtoaRoundTrip | server/index.ts:85 | `atob(btoa(s))` recovers the Latin-1 bytes of `s` |
| Base64.Latin1Bytes | server/index.ts:85 | the bytes `btoa` encodes are the characters' code units, one per character |
| Boundary.Envelope | server/index.ts:40-43 | every send is `{type, payload}`, with the message's type name and payload |
| Boundary.ResponseObject | server/index.ts:134-140 | the action-response object carries the trigger's `buttonId` |
| Trigger.ErrorText | server/index.ts:155 | an `Error`'s message, or `Unknown error` for any other thrown value |
| Trigger.Unwrap | server/index.ts:34 | `data.payload \|\| data`: the envelope's payload when truthy, the trigger itself otherwise |
| Trigger.ReadConfig | server/index.ts:34-53 | each field is the payload's value when truthy and its default otherwise: url `https://httpbin.org/post`, label `Action <buttonId>`, method `POST`, auth `none`, token, payload and headers `''` |
| Trigger.Accepted | server/index.ts:34-45 | a trigger is processed exactly when it is not nullish and its unwrapped `buttonId` is truthy |
| Trigger.CustomHeaders | server/index.ts:67-74 | the parsed custom-headers JSON, or no entries when the setting is empty or does not parse |
| Trigger.Authorization | server/index.ts:82-86 | `btoa` throws exactly for a basic-auth token outside Latin-1; no `Authorization` is set exactly when neither bearer nor basic applies with a truthy token |
| Trigger.BuildHeaders | server/index.ts:64-86 | building the headers fails exactly when the authorization step throws; otherwise `Content-Type` is present and non-empty |
| Trigger.ResolveBody | server/index.ts:89-104 | resolving the body throws exactly for a truthy non-string payload of a body-carrying method; otherwise a body is present exactly when the method is neither GET nor HEAD |
| Trigger.Prepare | server/index.ts:63-104 | the request is prepared exactly when headers and body both succeed; a header failure is reported first, header building runs before the body; the request carries both results |
| Trigger.FailureMessages | server/index.ts:154-178 | the catch block sends two messages: an error line, then an action-response for `buttonId` with status 0 and `success: false` |
| Trigger.DispatchMessages | server/index.ts:112-152 | three messages beginning with `Triggering: <label>`; after a response, the action-response then a log; after a rejection, the error line then the action-response |
| Trigger.TriggerEffects | server/index.ts:30-180 | nothing is sent for a nullish trigger; at least two messages are sent exactly for an accepted one, and one of its last two is an action-response |
| Trigger.RejectedTrigger | server/index.ts:39-45 | a trigger whose unwrapped `buttonId` is falsy yields exactly one error, `Missing buttonId in trigger action data`, and no action-response |
| Trigger.ZeroButtonIdRejected | server/index.ts:35-45 | `buttonId: 0` is rejected like a missing one |
| Trigger.FailureMessagesRespond | server/index.ts:154-179 | the catch block sends exactly one action-response, and it names the trigger's `buttonId` |
| Trigger.DispatchMessagesRespond | server/index.ts:112-179 | once the request is built, exactly one action-response is sent whether `fetch` answers or throws |
| Trigger.ExactlyOneResponse | server/index.ts:47-179 | every accepted trigger yields exactly one action-response, whichever path it takes |
| Trigger.ResponsesCarryButtonId | server/index.ts:134-171 | any action-response sent belongs to an accepted trigger and names that trigger's `buttonId` |
| Trigger.WithContentType | server/index.ts:77-79 | afterwards `Content-Type` is present and non-empty; a non-empty one is kept, otherwise it becomes `application/json` |
| Trigger.ContentTypePresent | server/index.ts:64-86 | the built headers always contain a non-empty `Content-Type` |
| Trigger.CustomContentTypeKept | server/index.ts:67-79 | a non-empty custom `Content-Type` is sent unchanged |
| Trigger.MalformedCustomHeadersIgnored | server/index.ts:67-74 | custom headers that fail to parse are not fatal: the headers are those of an empty custom-headers setting |
| Trigger.HeadersWithoutCustom | server/index.ts:64-86 | without custom headers the dictionary is `Content-Type: application/json`, plus `Authorization` exactly when authentication sets one |
| Trigger.BearerAuthorization | server/index.ts:82-83 | bearer with a non-empty token sets `Authorization: Bearer <token>`, overriding any custom value |
| Trigger.BasicAuthorization | server/index.ts:84-85 | basic with a non-empty Latin-1 token sets `Authorization: Basic <base64(token)>`, and the encoded part decodes back to the token |
| Trigger.BasicAuthorizationThrows | server/index.ts:84-85 | a basic-auth token outside Latin-1 makes `btoa` throw, so no request is prepared |
| Trigger.AuthorizationFromCustomOnly | server/index.ts:82-86 | in every other case `Authorization` is present exactly when the custom headers have it, with their value |
| Trigger.DefaultBody | server/index.ts:97-101 | the default body object holds `message: "<label> triggered"`, the `buttonId` and the timestamp |
| Trigger.NoBodyForGetOrHead | server/index.ts:89-90 | GET and HEAD requests carry no body |
| Trigger.CustomPayloadVerbatim | server/index.ts:91-94 | a payload with a non-white-space character is the body verbatim |
| Trigger.BlankPayloadDefaults | server/index.ts:95-103 | a blank payload is replaced by the JSON of the default body |
| Trigger.SuccessMessages | server/index.ts:112-152 | on a response the handler sends, in order, `Triggering: <label>`, the action-response `{buttonId, status, statusText, text, ok}`, then `<label> completed - <status>` |
| Trigger.TransportFailureMessages | server/index.ts:112-178 | when `fetch` throws, the dispatch log is followed by `Failed to execute action: <msg>` and the action-response `{buttonId, 0, "Error", msg, false}` |
| Trigger.BuildFailureMessages | server/index.ts:63-178 | when preparing the request throws, there is no dispatch log, only the error line and the status-0 action-response |
| Trigger.Backend.constructor | server/index.ts:30 | the backend starts with nothing sent |
| Trigger.Backend.OnTriggerAction | server/index.ts:30-180 | the listener appends to the outbox exactly `TriggerEffects(data, host)`, which the lemmas above describe |
| Trigger.Backend.ComposeHeaders | server/index.ts:64-86 | building the dictionary in place gives `BuildHeaders`, or the exception `btoa` throws |
| Trigger.Backend.ComposeBody | server/index.ts:89-104 | assigning the body conditionally gives `ResolveBody`, or the `trim` TypeError for a non-string payload |
| Trigger.Backend.Dispatch | server/index.ts:112-179 | logs the dispatch, performs the request and appends the outcome messages |
| Trigger.Backend.SendFailure | server/index.ts:154-178 | the catch block appends the error line and then the status-0 action-response |
| App.BackgroundColor | src/App.tsx:139 | the background colour is always truthy: the setting, or `#1f2937` |
| App.DeriveButton | src/App.tsx:146-157 | one button record: id `index+1`, `enabled === true`, label and colour after their `\|\|` fallbacks, and `responses[id]` |
| App.DeriveButtons | src/App.tsx:145-158 | six buttons with ids 1..6; enabled iff the setting is exactly `true`; label and colour fall back to `Action <id>` and `defaultColors[id-1]`; each carries `responses[id]`, or `undefined` when there is none |
| App.EnabledOnly | src/App.tsx:160 | the filter keeps exactly the enabled buttons |
| App.EnabledOnlyKeepsOrder | src/App.tsx:160 | filtering a list sorted by id leaves it sorted by id |
| App.EnabledButtonsAreOrderedSubsequence | src/App.tsx:160 | the enabled buttons are exactly the buttons whose setting is `true`, in slot order |
| App.GridColumns | src/App.tsx:283-287 | two columns up to four enabled buttons, three beyond |
| App.LogTypeBranchUnreachable | src/App.tsx:89-103 | the `type === 'log'` branch never decides the message, because a truthy payload is taken first |
| App.LogMessage | src/App.tsx:86-104 | a string event is shown as it is; an event that is neither a string nor an object shows `Unknown log message` |
| App.ErrorMessage | src/App.tsx:113-124 | a string event is shown as it is; the shown text is empty only for the empty-string event |
| App.LogLine | src/App.tsx:106 | the log line `[time] message` |
| App.ErrorLine | src/App.tsx:126 | the log line `[time] ERROR: message` |
| App.Last | src/App.tsx:106 | `slice(-n)` keeps the last `min(n, length)` elements, in order |
| App.Appended | src/App.tsx:106 | after an append the log has at most 20 lines, the new line last, preceded by the last 19 earlier lines |
| App.AppendedDropsOldest | src/App.tsx:106 | nothing is dropped until the log is full; then the oldest line goes |
| App.AppendedAllKeepsMostRecent | src/App.tsx:106 | appending lines one at a time keeps exactly the 20 most recent, in order |
| App.UnwrapSettings | src/App.tsx:41-48 | the event itself or one of its `payload` / `settings` fields; a truthy `payload` wins; a non-object is itself |
| App.SettingsAfter | src/App.tsx:41-52 | a settings event replaces the snapshot with its unwrapped value exactly when that is an object |
| App.ResponsesAfter | src/App.tsx:68-78 | an action-response with a defined (unwrapped) `buttonId` overwrites that key; otherwise the map is unchanged |
| App.ResponsesAfterTouchesOneKey | src/App.tsx:73-77 | an entry that changed is the entry of the response's own `buttonId` |
| App.Find | src/App.tsx:165 | `find` returns the first listed button with the given id (no earlier button has it), or reports that none has it |
| App.FindDerived | src/App.tsx:165 | among the derived buttons, id `k` is found exactly for 1 ≤ k ≤ 6, at position `k - 1` |
| App.TriggerPayload | src/App.tsx:192-204 | the `trigger-action` payload: `buttonId`, the caption, and each per-button setting after its `\|\|` default |
| App.TriggerMessages | src/App.tsx:163-208 | at most one message, and it is a `trigger-action` (its payload is stated by EndToEnd.PayloadFields) |
| App.TriggerSentIffEnabled | src/App.tsx:163-208 | pressing a button sends at most one trigger, and one exactly when the button exists and its enabled setting is `true` |
| App.Client.constructor | src/App.tsx:18-21 | the client starts with empty settings, no responses, no log lines and nothing sent |
| App.Client.Buttons | src/App.tsx:145-158 | the rendered list always has six buttons |
| App.Client.EnabledButtons | src/App.tsx:160 | at most six buttons are enabled |
| App.Client.OnSettings | src/App.tsx:37-53 | the settings listener sets the snapshot to `SettingsAfter` and changes nothing else |
| App.Client.OnInitialSettings | src/App.tsx:56-61 | a truthy `getSettings()` result replaces the snapshot; nothing else changes |
| App.Client.OnActionResponse | src/App.tsx:64-79 | the response map becomes `ResponsesAfter`; nothing else changes |
| App.Client.OnLog | src/App.tsx:82-107 | appends `[time] <message>` and keeps the log within 20 lines |
| App.Client.OnError | src/App.tsx:110-127 | appends `[time] ERROR: <message>` and keeps the log within 20 lines |
| App.Client.ClearLogs | src/App.tsx:372 | Clear Logs empties the log and changes nothing else |
| App.Client.HandleButtonTrigger | src/App.tsx:163-208 | appends exactly `TriggerMessages`: the trigger with the documented defaults for an enabled button, nothing otherwise |
| EndToEnd.PayloadFields | src/App.tsx:192-204 | the trigger payload carries the button's id, caption and per-button settings after their defaults, and no nested `payload` |
| EndToEnd.PayloadReadBack | server/index.ts:34-53 | the backend reads back from a client payload exactly the fields the client put in |
| EndToEnd.ClientTriggerReadByServer | src/App.tsx:163-208 | a trigger the client sends is accepted whether or not it is enveloped, and the backend reads the pressed button's id, caption and settings from it |
| EndToEnd.EffectsTextsNonEmpty | server/index.ts:112-162 | the backend never sends an empty log or error line |
| EndToEnd.FailureTextsNonEmpty | server/index.ts:159-162 | the catch block's error line is non-empty |
| EndToEnd.DispatchTextsNonEmpty | server/index.ts:112-152 | the dispatch and completion log lines are non-empty |
| EndToEnd.ServerLogsShownVerbatim | src/App.tsx:86-106 | each backend log line is shown by the client's log listener verbatim, enveloped or bare |
| EndToEnd.ServerErrorsShownVerbatim | src/App.tsx:113-126 | each backend error line is shown by the client's error listener verbatim, enveloped or bare |
| EndToEnd.LogLineShownVerbatim | src/App.tsx:87-91 | a non-empty log line reaches the log listener unchanged |
| EndToEnd.ErrorLineShownVerbatim | src/App.tsx:114-118 | a non-empty error line reaches the error listener unchanged |
| EndToEnd.ServerResponseShownOnButton | src/App.tsx:68-78 | the backend's action-response for button `id` becomes that button's displayed response and touches no other entry |
| Panel.Pick | src/components/SettingsPanel.tsx:41 | one field of `{...button, ...updates}`: the update's value when it names the field, the button's otherwise |
| Panel.Apply | src/components/SettingsPanel.tsx:41 | `{...button, ...updates}`, field by field through Pick |
| Panel.ApplyNoUpdate | src/components/SettingsPanel.tsx:41 | an update naming no field leaves the button as it is |
| Panel.ApplyMerge | src/components/SettingsPanel.tsx:41 | two successive updates are one merged update in which the later fields win |
| Panel.ApplyIdempotent | src/components/SettingsPanel.tsx:41 | applying the same update twice is applying it once |
| Panel.UpdateAt | src/components/SettingsPanel.tsx:40-42 | the button count is unchanged, every other index is unchanged, and the selected button gets the update |
| Panel.SetHeader | src/components/SettingsPanel.tsx:46-53 | a non-empty value is stored under the key, an empty one deletes it; every other key is unchanged |
| Panel.RemoveHeader | src/components/SettingsPanel.tsx:63-67 | the key is gone, every other entry stays, and removing an absent key changes nothing |
| Panel.ClearIsRemove | src/components/SettingsPanel.tsx:48-52 | setting a header to `''` is removing it |
| Panel.SetHeaderRestore | src/components/SettingsPanel.tsx:46-53 | setting a header and setting it back restores the dictionary |
| Panel.RenameHeader | src/components/SettingsPanel.tsx:302-308 | the value moves to a non-empty new name; the old key is gone unless the names agree; an empty name drops the row; other keys are unchanged |
| Panel.RenameRoundTrip | src/components/SettingsPanel.tsx:302-308 | renaming to a fresh name and back restores the dictionary |
| Panel.RenameToSameName | src/components/SettingsPanel.tsx:302-308 | renaming a row to its own name changes nothing |
| Panel.AddHeaderAsWritten | src/components/SettingsPanel.tsx:56-60 | `addHeader` as written: when the prompted name is non-empty and has no value, `handleHeaderChange(name, '')`, which deletes it |
| Panel.AddHeaderNeverAdds | src/components/SettingsPanel.tsx:56-60 | as written, Add Header only ever loses the prompted key and never adds one |
| Panel.AddHeaderEmptyExample | src/components/SettingsPanel.tsx:56-60 | as written, adding `X-Test` to an empty dictionary leaves it empty |
| Panel.AddHeaderIntended | src/components/SettingsPanel.tsx:56-60 | the intended Add Header adds exactly the prompted key with an empty value, when the prompt is non-empty and the key has no value yet |
| Panel.AddedHeaderCanBeFilled | src/components/SettingsPanel.tsx:46-60 | once added, the row can be filled in, and its value is then stored under its name |
| Panel.ResetUpdate | src/components/SettingsPanel.tsx:84-94 | the defaults `resetButtonToDefaults` writes: label `Action n`, httpbin URL, the message payload, `POST`, JSON `Content-Type`, auth `none` and empty credentials |
| Panel.ResetKeepsAppearance | src/components/SettingsPanel.tsx:84-94 | a reset writes the label, url, payload, method, headers and credentials defaults and keeps the id, the enabled flag and the colours |
| Panel.ResetIdempotent | src/components/SettingsPanel.tsx:84-94 | resetting twice is resetting once |
| Panel.SettingsPanel.constructor | src/components/SettingsPanel.tsx:17-18 | the editor opens on the given settings and their selection |
| Panel.SettingsPanel.SelectButton | src/components/SettingsPanel.tsx:121 | choosing in the selector changes only the selection |
| Panel.SettingsPanel.HandleSave | src/components/SettingsPanel.tsx:22-28 | the saved settings are the working copy with the selection replaced by the current one |
| Panel.SettingsPanel.HandleGeneralSettingChange | src/components/SettingsPanel.tsx:30-35 | only the named scalar setting changes; the buttons and everything else are kept |
| Panel.SettingsPanel.HandleButtonChange | src/components/SettingsPanel.tsx:37-44 | the button list becomes `UpdateAt(buttons, selected, u)`; nothing else changes |
| Panel.SettingsPanel.StoreHeaders | src/components/SettingsPanel.tsx:53 | only the selected button's headers are replaced |
| Panel.SettingsPanel.HandleHeaderChange | src/components/SettingsPanel.tsx:46-54 | the selected button's headers become `SetHeader(headers, k, v)`; other buttons and settings are kept |
| Panel.SettingsPanel.RemoveHeaderFromSelected | src/components/SettingsPanel.tsx:63-67 | the selected button's headers become `RemoveHeader(headers, k)`; other buttons and settings are kept |
| Panel.SettingsPanel.RenameHeaderOfSelected | src/components/SettingsPanel.tsx:302-308 | the selected button's headers become `RenameHeader(headers, k, v, n)`; other buttons and settings are kept |
| Panel.SettingsPanel.AddHeader | src/components/SettingsPanel.tsx:56-61 | as written: the selected button's headers become `AddHeaderAsWritten(headers, prompted)` and gain no key; other buttons and settings are kept |
| Panel.SettingsPanel.ResetButtonToDefaults | src/components/SettingsPanel.tsx:80-97 | when confirmed and a button with id `index+1` exists, the selected button receives the reset defaults; otherwise nothing changes |
| Tables.TableLookup | server/setupSettings.ts:11-21 | after the loop has run over slots `1..n`, each slot's key holds its own value |
| Tables.TableKeepsBase | server/setupSettings.ts:6-8 | an entry put in before the loop, under a key no slot uses, survives it |
| Tables.TableKeys | server/setupSettings.ts:11-21 | the loop adds no keys other than the slots' keys |
| Tables.TableFresh | server/setupSettings.ts:11-21 | keys of later slots are not yet present |
| Tables.TableSize | server/setupSettings.ts:11-21 | with injective keys the table grows by one entry per field and slot |
| Setup.ConstKeyInjective | server/setupSettings.ts:12-20 | distinct one-digit slots or fields give distinct constant names `BUTTON_i_SUFFIX` |
| Setup.IdKeyInjective | server/setupSettings.ts:12-20 | distinct one-digit slots or fields give distinct setting IDs `button{i}Suffix` |
| Setup.BackgroundConstApart | server/setupSettings.ts:6-8 | `BACKGROUND_COLOR` is not a button's constant name |
| Setup.BackgroundIdApart | server/setupSettings.ts:6-8 | `backgroundColor` is not a button's setting ID |
| Setup.IdKeyIsClientKey | server/setupSettings.ts:12-20 | the backend registers each button setting under the key the client reads (`button${id}Label` and so on) |
| Setup.IdTableLookup | server/setupSettings.ts:11-21 | for each slot, `BUTTON_i_SUFFIX` maps to `button{i}Suffix` |
| Setup.IdTableBackground | server/setupSettings.ts:6-8 | `BACKGROUND_COLOR` maps to `backgroundColor` |
| Setup.IdTableKeys | server/setupSettings.ts:5-24 | the table holds no other names |
| Setup.IdTableSize | server/setupSettings.ts:5-24 | all names are distinct: 1 + 9n entries, 55 for six slots |
| Setup.GenerateButtonSettingIDs | server/setupSettings.ts:5-24 | the loop builds exactly `IdTable(6)` |
| Setup.IdTableMapsNamesToIds | server/setupSettings.ts:26 | the generated table maps every constant name to its setting ID |
| Setup.DefaultsTableLookup | server/setupSettings.ts:45-55 | each slot's setting IDs hold that field's default |
| Setup.DefaultsTableBackground | server/setupSettings.ts:30-32 | the background default is `#1f2937` |
| Setup.DefaultsTableKeys | server/setupSettings.ts:29-58 | the defaults hold no other IDs |
| Setup.DefaultsTableSize | server/setupSettings.ts:29-58 | there are 1 + 9n defaults, 55 for six slots |
| Setup.DefaultValues | server/setupSettings.ts:35-54 | enabled `false`, label `Action i`, url httpbin, `POST`, `none`, `''`, the payload and headers JSON, and colour `buttonColors[i-1]`, which is the client's fallback colour |
| Setup.DefaultsRowValues | server/setupSettings.ts:46-54 | one pass of the loop body stores the nine defaults, field by field |
| Setup.GenerateDefaultSettings | server/setupSettings.ts:29-58 | the loop builds exactly `DefaultsTable(6)`, reading each ID through the ID table |
| Schema.Lookup | server/setupSettings.ts:74 | `defaultSettings[id]` is the stored default, or `undefined` when there is none |
| Schema.OptionValues | server/setupSettings.ts:134-140 | the values of a drop-down's options, in order |
| Schema.SettingsRowValues | server/setupSettings.ts:91-182 | one pass of the loop body writes the nine entries in the source's order |
| Schema.SettingsTableStep | server/setupSettings.ts:80-183 | slot `i` adds its nine entries to the schema of the slots before it |
| Schema.SlotIds | server/setupSettings.ts:81-89 | the nine IDs the loop reads for a slot are that slot's setting IDs |
| Schema.GenerateDeskThingSettings | server/setupSettings.ts:65-186 | the loop builds exactly `SettingsTable(6, defaults)`: the background entry, then nine entries per slot |
| Schema.SettingsTableLookup | server/setupSettings.ts:80-183 | each slot's setting ID holds that field's entry |
| Schema.SettingsTableBackground | server/setupSettings.ts:69-75 | the background entry is registered under `backgroundColor` |
| Schema.SettingsTableKeys | server/setupSettings.ts:65-186 | the schema registers no other IDs |
| Schema.SettingsTableSize | server/setupSettings.ts:65-186 | all 1 + 9n IDs are distinct: 55 entries for six slots |
| Schema.EntryShape | server/setupSettings.ts:92-182 | each entry carries its own ID and the default under it; it has options iff it is a drop-down, which is iff it is the method or the auth field; it is a toggle iff enabled and a colour picker iff colour |
| Schema.SettingsEntriesSelfDescribing | server/setupSettings.ts:69-182 | every registered entry's `id` is its key, its `value` is the default at that key, and it has options iff it is a drop-down |
| Schema.SchemaMatchesDefaults | server/setupSettings.ts:69-182 | the registered schema has exactly the IDs of the defaults, and each entry's value is the default under its ID |
| Schema.OptionLists | server/setupSettings.ts:134-154 | the method options are GET, POST, PUT, PATCH, DELETE in that order; the auth options are none, bearer, basic |
| Schema.DefaultsAmongOptions | server/setupSettings.ts:49-50 | the default method `POST` and the default auth `none` are among the drop-downs' choices |
| Schema.SetupSettings | server/setupSettings.ts:62-205 | registers `SettingsTable(6, DefaultsTable(6))`; returns `{success: true, settings, defaultSettings}`, or rethrows the host's exception |

## Left out

- Logging through `console.*` is left out everywhere. It has no effect on state or messages.
- The client's `localStorage` restore (src/App.tsx:25-34) is left out. It is host storage, and its result reaches the model only as a settings value.
- `start` in server/index.ts (lines 20-28, 185-193) is left out. It calls `setupSettings` and, when that throws, sends `Failed to initialize ActionThing: …` and rethrows. Only `Schema.SetupSettings` is modelled.
- The `AbortController` timer and its 5000 ms deadline are left out. `fetch` and `response.text()` together are one abstract `Host.fetch` outcome, and a timeout appears as that outcome's `Rejected` case.
- `JSON.parse` is modelled as returning a string dictionary or failing. A parsed value that is not an object with string values is not modelled, and neither is the spread of such a value.
- `JSON.stringify` and the clock are opaque host functions.
- JavaScript numbers are mathematical integers. `NaN`, fractions, arrays and functions are not values of the model.
- Object key order is not modelled: dictionaries are Dafny maps. The order hosts display settings in is invisible here.
- Property reads (`Js.Get`) see own properties only, never the prototype chain. For a header name such as `toString`, `!selectedButton.headers[key]` at src/components/SettingsPanel.tsx:58 is false in JavaScript, but in the model the key is simply absent.
- The client's `JSON.stringify` fallback and its `Complex object received` catch branch (src/App.tsx:98-102) are folded into the opaque `stringify` parameter of `App.LogMessage`.
- A key in `responses` is `String(buttonId)`, as JavaScript property keys are. Button ids are integers.
- `Js.Trim` states only that trimming never lengthens. What it keeps and drops is stated by `Js.TrimStart`, `Js.TrimEnd` and `Js.TrimEmptyIffBlank`.
- Basic authentication base-64-encodes the token alone, not `user:password` as section 2 of RFC 7617 requires. The model keeps this behaviour, and `Trigger.BasicAuthorization` states it.
- The settings captions use emoji. In server/setupSettings.ts they appear as UTF-8 bytes mis-decoded as Windows-1252. The characters are reconstructed from those bytes: U+1F518, U+1F4DD, U+1F310, U+1F3A8, U+1F4E1, U+1F510, U+1F511, U+1F4E6, U+1F4CB. For three of them the final byte is damaged and was inferred: U+1F4DD (memo), U+1F310 (globe) and U+1F510 (lock).
- Strings are sequences of Unicode scalar values, while JavaScript strings are UTF-16 code units. So lone surrogates cannot be represented, and each emoji caption counts as one character here but two in JavaScript. Nothing the model computes depends on this: `btoa` rejects every character above U+00FF either way, and `trim` removes only Basic Multilingual Plane white space.
- React rendering is left out and is UI: the settings-panel form fields, the right-panel click and keyboard handling, and the whole of src/components/ActionButton.tsx (dragging, pixel clamping, the popup timer).
- src/types/action.ts is left out. Its declarations disagree with both App and the settings editor, so the editor's button record here follows the fields the editor itself uses.
- `testPayload` in the settings editor is left out. It only calls `JSON.parse` and `alert`.
- `prompt` and `confirm` dialogs are parameters: `Panel.SettingsPanel.AddHeader` takes the prompted name and `Panel.SettingsPanel.ResetButtonToDefaults` takes the confirmation.
- The slot loops are proved for up to nine slots (one-digit numerals), which covers the six the source uses.

## Findings

| source | as written | input that shows it | evidently intended | confidence | as-written member | corrected member |
|---|---|---|---|---|---|---|
| src/components/SettingsPanel.tsx:56-60 | `addHeader` calls `handleHeaderChange(key, '')`, and `handleHeaderChange` deletes the key when the value is empty (lines 48-52), so Add Header never adds a row | headers `{}`, prompt answered `X-Test`: the headers stay `{}` | a new row with the prompted name and an empty value, ready to be filled in | not executed | Panel.AddHeaderNeverAdds | Panel.AddHeaderIntended |
