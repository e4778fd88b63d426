# Alraune browser clients, modelled in Dafny

The Alraune is a plant-monitoring device that serves two small pages. This project models the logic of both pages as event-driven state machines.

- The **control page** (`data/alraune.js`) polls the device's telemetry, renders it, and sends volume, test-sound and recalibration commands.
- The **provisioning page** (`data/setup.js`) scans for wireless networks and fills a drop-down with them. It enables the password field only for an encrypted network, submits the new configuration, and then polls the device under its new host name until the device reports whether it joined the network.

Each page is a class whose fields are the script's module-level variables and the page elements the script writes. Every asynchronous completion is a method of its own: a `fetch` that resolves, a `fetch` that is rejected, and a timer tick. Outgoing requests are appended to a `sent` log. The redirect and the alert are recorded as fields. Counters of outstanding requests make sure a completion only arrives for a request that was sent. Completions may arrive in any order.

Files:

- `control.dfy`: module `Control`, the control page.
- `dropdown.dfy`: module `Dropdown`. It models the HTML `<select>` element that the provisioning page relies on: `length`, `value`, `remove(i)`, `add(option)`, and the rule that a non-empty single-selection list always has one selected option.
- `rejoin.dfy`: module `Rejoin`, the pure machine of the post-setup availability poll.
- `setup.dfy`: module `Setup`, the provisioning page.

Behaviour of the code as written, captured by the model:

- **The clamps keep the volume in range only if it starts in range.** Nothing else keeps `volume` in [0,30]: it takes the telemetry value unvalidated. From 40, quieter gives 37 (`ClampIsOneSided`).
- **The slider is not written on click.** It is written when a POST resolves, with the global `volume` as it is at that moment, not with the value that POST carried (`SliderShowsCurrentVolume`).
- **The option-removal loop does not clear the list.** It calls `remove(i)` with a rising `i` while the list shrinks. It removes ceil(n/2) options and keeps the ones at odd positions, ahead of the new entries. A kept option whose network is missing from the new scan can stay selected, and then the password field is disabled (`RescanKeepsStaleOption`, `StaleSelectionDisablesPassword`).
- **Any parsed poll response stops the poll.** The poll is cancelled whatever the response says: a "not connected" status ends it too, with an alert, and the page does not wait for a later status. Errors keep it polling. A reply that parses to `null` cancels the poll and then throws, so there is no redirect, no alert, and the loading screen stays up (`SetupPage.PollResolvedNull`).
- **The poll handle is a single variable.** `interval` is overwritten by each acknowledged submission. After two submissions the first timer can no longer be cancelled and keeps polling (`TwoSubmissionsLeakATimer`).

## Model

| member | source | states |
|---|---|---|
| Control.QuieterVolume | data/alraune.js:59-63 | quieter lowers the volume by 3 but never below 0, for every starting value |
| Control.LouderVolume | data/alraune.js:71-75 | louder raises the volume by 3 but never above 30, for every starting value (so any value above 27 becomes 30) |
| Control.QuieterKeepsRange | data/alraune.js:59-63 | from a volume in [0,30], quieter stays in [0,30], never rises, and gives 0 from 3 or less |
| Control.LouderKeepsRange | data/alraune.js:71-75 | from a volume in [0,30], louder stays in [0,30], never falls, and stays 30 at 30 |
| Control.MuteIdempotent | data/alraune.js:49-53 | mute sets 0, and muting again leaves 0 |
| Control.ClampIsOneSided | data/alraune.js:59-75 | an out-of-range server volume above 33 is not clamped by quieter (40 gives 37), while louder pulls it to 30 |
| Control.SentVolumes | data/alraune.js:49-77 | a sequence of volume presses sends one `/volume` command per press, the first carrying the first press's new volume |
| Control.SentVolumesInRange | data/alraune.js:49-77 | from an in-range volume, every volume any sequence of presses sends is in [0,30] |
| Control.LouderAtCeiling | data/alraune.js:69-77 | any number of louder clicks from 27 or above all send 30 |
| Control.ControlPage.constructor | data/alraune.js:1-13 | page load: volume 0, template values shown, exactly one telemetry GET sent |
| Control.ControlPage.PostJson | data/alraune.js:110-115 | a command appends exactly one POST to the log and changes nothing rendered |
| Control.ControlPage.Mute | data/alraune.js:49-54 | volume becomes 0 and exactly one POST `/volume` with `{volume: 0}` is sent; slider untouched |
| Control.ControlPage.Quieter | data/alraune.js:57-66 | volume becomes the quieter value and exactly one POST `/volume` carries that new value; slider untouched |
| Control.ControlPage.Louder | data/alraune.js:69-78 | volume becomes the louder value and exactly one POST `/volume` carries that new value; slider untouched |
| Control.ControlPage.PlayTestSound | data/alraune.js:81-99 | a sound button sends one POST `/play` with `{sound: water/birthday/christmas}` and leaves volume and slider alone |
| Control.ControlPage.Recalibrate | data/alraune.js:102-105 | sends one POST `/recalibrate` with `{}` and changes nothing else |
| Control.ControlPage.PostResolved | data/alraune.js:116-119 | a resolved POST sets the slider to the current global volume, whatever that POST carried |
| Control.ControlPage.PostRejected | data/alraune.js:120-120 | a rejected POST changes nothing rendered |
| Control.ControlPage.Tick | data/alraune.js:11-13 | each 60-second tick sends one more telemetry GET and changes nothing rendered |
| Control.ControlPage.FetchResolved | data/alraune.js:128-138 | telemetry replaces title, moisture, threshold, memory, both flags, the global volume (unvalidated) and the slider |
| Control.ControlPage.FetchFailed | data/alraune.js:139-139 | a failed telemetry fetch changes nothing rendered and not the volume |
| Control.PressAppended | data/alraune.js:49-77 | one more press appends exactly the volume it computes from the volume the earlier presses left |
| Control.PressAll | data/alraune.js:49-78 | clicking the volume buttons in turn appends exactly the `/volume` commands `SentVolumes` gives, leaves the volume where the presses put it, and leaves slider and display alone |
| Control.LouderThreeTimesFrom27 | data/alraune.js:69-78 | from telemetry volume 27, three louder clicks send `{volume: 30}` three times |
| Control.TelemetryScenario | data/alraune.js:128-138 | the sample telemetry with volume 9 shows 9 on the slider, needs-water true, and global volume 9 |
| Control.SliderShowsCurrentVolume | data/alraune.js:116-119 | a POST carrying 3 that resolves after telemetry reported 20 leaves the slider at 20 |
| Dropdown.Select.Remove | data/setup.js:97-97 | `remove(i)` drops option i (out of range: nothing); removing the selected option selects the first remaining one |
| Dropdown.Select.Add | data/setup.js:109-109 | `add` appends the option; an empty list selects it |
| Dropdown.Select.Choose | data/setup.js:53-55 | the user's choice selects that option and leaves the list as it is |
| Rejoin.Handshake | data/setup.js:121-134 | one response per tick until the first parsed status; never consumes more responses than there are, never Idle |
| Rejoin.ConnectedIsFinal | data/setup.js:126-128 | after the redirect, no response changes the phase |
| Rejoin.ErrorsKeepPolling | data/setup.js:134-134 | a run of errors keeps the poll going and consumes every response |
| Rejoin.FirstStatusDecides | data/setup.js:125-132 | the first parsed status ends the handshake right there: Connected when `connectedToSsid`, else Failed |
| Rejoin.StepsAppended | data/setup.js:121-134 | one more poll response steps the machine on from the phase the earlier responses left |
| Rejoin.HandshakeFollowsSteps | data/setup.js:121-134 | the handshake's outcome equals the single-step machine run over the responses it consumed |
| Rejoin.ScriptedHandshakes | data/setup.js:121-134 | [error, error, {false}] fails at the third response; [error, {true}] redirects at the second |
| Setup.SurvivorsAt | data/setup.js:96-98 | the removal loop keeps exactly the odd-indexed options in order and removes ceil(n/2) of them |
| Setup.RemovalRound | data/setup.js:96-98 | each round of the loop removes the option at old position 2i |
| Setup.SelectionRound | data/setup.js:96-98 | each round moves the selection as `remove(i)` does |
| Setup.RemovalDone | data/setup.js:96-98 | when the loop stops, the options left are the odd-indexed ones |
| Setup.NetworkMapKeys | data/setup.js:99-101 | after a scan, the map's keys are exactly the response's ssids; nothing from an earlier scan survives |
| Setup.NetworkMapLastWins | data/setup.js:99-101 | an entry no later entry duplicates decides its ssid's encryption flag (later duplicates win) |
| Setup.PasswordEnabledIff | data/setup.js:113-114 | after a scan, the password field is enabled for an ssid exactly when its last entry in the response is encrypted |
| Setup.StaleSelectionDisablesPassword | data/setup.js:113-114 | a selected ssid missing from the new scan leaves the password field disabled |
| Setup.ChoicesForLabels | data/setup.js:102-109 | each added option has the ssid as value and lock or unlock glyph plus ssid as label, in response order |
| Setup.SetupPage.constructor | data/setup.js:1-12 | page load: `networks` undefined, no timer, Idle, exactly one scan request sent |
| Setup.SetupPage.Scan | data/setup.js:46-49 | the scan button sends one more scan request and changes nothing else |
| Setup.SetupPage.ScanFailed | data/setup.js:116-116 | a failed or unparsable scan changes nothing |
| Setup.SetupPage.RemoveOldOptions | data/setup.js:96-98 | the loop leaves the odd-indexed old options, with the selection moved as the removals move it |
| Setup.SetupPage.AddScanned | data/setup.js:100-110 | the `forEach` builds the network map from the response and appends one option per network in order |
| Setup.SetupPage.ScanResolved | data/setup.js:93-115 | a scan leaves the surviving old options plus the new ones, replaces the map, and sets the password flag from the selected entry |
| Setup.SetupPage.ScanResolvedNotList | data/setup.js:96-100 | a reply that is not a list still runs the removal loop and empties the map, without re-evaluating the password field |
| Setup.SetupPage.ChooseNetwork | data/setup.js:53-57 | a selection change sets the password flag from the chosen ssid; before the first scan the handler throws and the flag is kept |
| Setup.SetupPage.DoSetup | data/setup.js:63-75 | the setup body copies name and selected ssid, sends '' as password when the field is disabled, else the typed text; without a birthday nothing is sent |
| Setup.SetupPage.SetupResolved | data/setup.js:76-82 | any HTTP response shows the loading screen and starts a new timer whose handle overwrites `interval`; phase becomes Polling |
| Setup.SetupPage.SetupFailed | data/setup.js:83-83 | a rejected setup starts no poll and does not show loading |
| Setup.SetupPage.Tick | data/setup.js:79-81 | a running timer's tick sends one status request and changes nothing else |
| Setup.SetupPage.PollCompleted | data/setup.js:123-134 | a parsed status clears the timer in `interval`, then redirects, or hides loading and alerts once; an error changes nothing but the pending count |
| Setup.SetupPage.PollResolvedNull | data/setup.js:125-134 | a status reply of `null` clears the timer in `interval` and ends Polling, without redirect or alert and with the loading screen left as it is |
| Setup.PollAll | data/setup.js:121-134 | poll replies arriving in turn leave the page in the phase `Steps` gives for them, without touching the interval handle, the request log or the form |
| Setup.ErrorsThenFailure | data/setup.js:121-134 | [error, error, {false}] ends in Failed with one alert, loading hidden, no timer left |
| Setup.ErrorThenConnected | data/setup.js:121-134 | [error, {true}] ends in Connected with no alert and no timer left |
| Setup.TwoSubmissionsLeakATimer | data/setup.js:79-81 | after two acknowledged submissions and a parsed failure, the first timer still runs and keeps polling |
| Setup.RescanKeepsStaleOption | data/setup.js:93-115 | rescanning over [a, b] with a selected keeps b, selects it, and disables the password field |
| Setup.OpenNetworkSendsNoPassword | data/setup.js:64-67 | with the password field disabled by an open network, the body carries '' even though text was typed earlier |

## Left out

- Collapsible panels (data/alraune.js:17-39, data/setup.js:15-37) and the tickle sound (data/alraune.js:42-46): styling and audio only, with no state the logic reads.
- Real I/O. `fetch`, JSON encoding and decoding, `setInterval`/`clearInterval` and the 30 s and 60 s periods are abstract events: resolve, reject and tick.
- An HTTP error status counts as "resolved", as it does for `fetch`. A telemetry or status reply that fails to parse counts as a failure.
- Console output, the alert's text and the address of the redirect. Only "alerted" and "redirected" are recorded.
- The birthday date. `valueAsDate.getDate()/getMonth()` is taken as given day and month. The only part modelled is the empty field, which throws before anything is sent.
- Dynamic typing of replies. Telemetry numbers are integers (moisture and memory may be fractional on the device). Scan entries always carry a string `ssid` and a boolean `encryption`.
- Rejoin.Handshake and Rejoin.PollStep cover status replies that are objects, with `connectedToSsid` read as a boolean. A `null` reply ends the poll with neither outcome; only `SetupPage.PollResolvedNull` models it, and the pure machine has no phase for it.
- Inherited properties of the `networks` object. It is a plain object, so a name like `toString` would look up an inherited property, and `__proto__` cannot be stored as a key. The model treats it as a plain map from ssid to flag.
- The slider's own sanitising of assigned values: its `min` and `max` live in the page template, which is not part of this model. The slider holds whatever value the script assigns.
- Request ordering tokens and a bounded poll count. The code has neither. Overlapping requests complete in any order and the last completion wins. This includes a second alert from a poll still in flight after the first alert.
- The user typing a name or choosing a birthday. These are the parameters of `DoSetup`. Typing a password is `EnterPassword`, a browser event with no code of its own in the page.
