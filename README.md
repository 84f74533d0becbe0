# Smart-city sensor dashboards: a Dafny model

This project models the state-keeping logic of two single-page dashboards.

- **The sensor ingestion server** (`api_server.py`). An HTTP endpoint accepts sensor readings as JSON objects. It stamps each one and puts it in a hand-off queue. On every re-render the dashboard drains that queue into a reading log that keeps only the newest 1000 readings. Two read-only endpoints report the reading count and the latest reading. A "Clear All Logs" button empties the log. Start/stop buttons flip the server flag. A log view pages the log ten entries at a time and numbers the entries.
- **The device controller** (`iot_controller.py`). It reads a device's `/sensor` endpoint into a reading history and switches the device's actuator through `/actuator`, recording each acknowledged command. It checks whether the device is online and labels the device URL. It builds language-model prompts from the newest readings and states, and keeps the analyses the model returns.

Each dashboard's session state is a Dafny class: `ApiServer.SensorApi` and `IotController.DeviceController`. Button handlers and HTTP handlers are methods on that class. Their `ensures` give the whole new state in terms of the old state. What the network, the clock or the language model would return is passed in as a parameter:
- `Body` is what the JSON parser made of a request body.
- `CallOutcome` and `HttpOutcome` are what an HTTP call returned or raised.
- `Generation` is what the model call produced.
- The timestamp string and the `datetime` value are separate opaque parameters.

A reading is a `Records.Record`, a map from field name to `Records.Value`, which is a JSON value or a stored datetime. The pure parts are functions with lemmas: the `s[-k:]` windows, the pagination arithmetic, the entry labels, the display filters, the URL label and the prompt contents.

Some behaviour of the code is modelled as written, because it is what the program does:

- Every POST replaces the pending queue with an empty one before it validates the body (`api_server.py:83`). As a result, the queue never holds more than one reading. That bound is part of `SensorApi.Valid()`. A reading that has not been drained is lost if another POST arrives before the next re-render, even when that POST is rejected. `SecondPostDropsFirst` and `RejectedPostDropsPending` show both cases. The log itself is only ever appended to by the drain, so its bound of 1000 holds at all times.
- The body is checked for Python truthiness, not for being a JSON object. A body of `null`, `{}`, `[]`, `0`, `""` or `false` gets 400 "No data received". Any other body that is not an object fails with a `TypeError` when it is stamped. The broad handler turns that into a 500 carrying Python's message. The queue has already been emptied in both cases. When the body cannot be parsed at all, the parser raises before the queue is touched. The broad handler turns that into a 500 too, not a client error.
- The actuator history, the analysis history and the manually read sensor history have no cap. Only the dashboard's sensor read cuts the history back to 100.
- A Python `bool` counts as a number in the dashboard's numeric-metric filter, because `bool` is a subclass of `int`.

## Model

| member | source | states |
|---|---|---|
| `Records.Stamp` | api_server.py:89-91 | The stamped record has exactly the payload's keys plus `timestamp` and `datetime`. Those two keys take the new values and overwrite same-named payload keys. Every other field is kept unchanged. |
| `Records.WithoutDatetime` | api_server.py:293 | The displayed record has the stored record's keys minus `datetime`, with the same values. |
| `Records.NumericFields` | api_server.py:279-280 | A field is shown as a metric exactly when its value is an int, float or bool and its key is not `datetime`. Values are unchanged. |
| `Records.StampThenStrip` | api_server.py:126-129 | Stripping `datetime` from a stamped payload gives the payload without its own `datetime`, plus the new `timestamp`. |
| `Windows.Newest` | api_server.py:145-147 | `s[-k:]` is the suffix of `s` of length min(len(s), k). So is the rule "if longer than k, keep the last k". |
| `Windows.NewestAppend` | api_server.py:140-147 | Cutting the log back to the newest k after every append gives the newest k of the old log followed by everything appended. |
| `Windows.Reverse` | api_server.py:443 | `reversed` keeps the length and puts element len(s)-1-i at position i. |
| `Windows.NewestFirst` | iot_controller.py:332 | `reversed(s[-k:])` has min(len(s), k) entries, and entry i is the i-th newest element of `s`. |
| `LogPagination.TotalPages` | api_server.py:531 | For a non-empty log, `(total-1)//10 + 1` is at least 1 and equals ceil(total/10). |
| `LogPagination.DefaultPage` | api_server.py:534 | The preselected page is a valid page. It is the only page whose slice ends at the newest entry. |
| `LogPagination.LogsToShow` | api_server.py:533-539 | The helpers `StartIdx` and `EndIdx` model `start_idx` and `end_idx` (lines 535-536). For every page in 1..total_pages, 0 ≤ start_idx < end_idx ≤ total. The entries shown are exactly the slice `log[start_idx:end_idx]`, also on the single-page path that shows the whole log. A page holds 1 to 10 entries. |
| `LogPagination.PagesFromIsSuffix` | api_server.py:535-537 | Pages p, p+1, ..., last, read in order, give the log from page p's start to the end. |
| `LogPagination.PagesReproduceLog` | api_server.py:533-537 | Reading all pages in order gives back the whole log. |
| `LogPagination.RecentCallLabelIsPosition` | api_server.py:442-444 | In the recent-calls panel, the label `len - i` (the helper `RecentCallLabel`) of the i-th newest of the last five calls is that call's true 1-based position. |
| `LogPagination.SinglePageLabelIsPosition` | api_server.py:542-543 | With a single page, the label `total_logs - i` is the true position of the i-th listed entry. |
| `LogPagination.LogLabelCorrectIff` | api_server.py:543 | The written label (the helper `LogLabel`) equals the true position exactly when there is one page, or when the page's start and end add up to the total. |
| `LogPagination.EntryPositionIsPosition` | api_server.py:542-543 | The corrected label `end_idx - i` (the helper `EntryPosition`) is always in 1..total and names the entry listed at row i. |
| `LogPagination.LogLabelMisnumbersLastPage` | api_server.py:543 | With 25 entries, page 3 is the default. Its first row is entry 25, but it is labelled #5. |
| `ApiServer.SensorApi.constructor` | api_server.py:66-73 | The session starts with an empty log, an empty queue, the server stopped and port 5002. |
| `ApiServer.SensorApi.ReceiveSensorData` | api_server.py:79-106 | An unparsable body gives 500 with the parser's message and leaves the queue alone. Every other body first empties the queue. A falsy body (Python's `not data`, the helper `Records.Falsy`) then gives 400 "No data received". A truthy non-object gives 500 with Python's `TypeError` text (the helper `ApiServer.ItemAssignmentError`). An object body is stamped, becomes the queue's only element, and is echoed as `received_data` in a 200 reply. The log, server flag and port never change. |
| `ApiServer.SensorApi.ApiStatus` | api_server.py:108-120 | The reply is 200 with status "running", the three endpoints, the message "Sensor API is running", and `total_readings` equal to the log's length. The state is not changed. |
| `ApiServer.SensorApi.GetLatestData` | api_server.py:122-132 | An empty log gives 404 "No data available". Otherwise the reply is 200 with the newest record minus `datetime`, and the stored record is not changed. |
| `ApiServer.SensorApi.ProcessQueueData` | api_server.py:138-149 | Afterwards the queue is empty. An empty queue leaves the log unchanged. Otherwise the log is the newest min(1000, n) of the old log followed by the queued readings, in FIFO order, so it holds at most 1000. |
| `ApiServer.DrainStep` | api_server.py:142-147 | One loop turn (append, then cut back to 1000) keeps the log equal to the newest 1000 of the old log plus everything drained so far. |
| `ApiServer.SensorApi.StartServer` | api_server.py:167-184 | If the server thread starts, the flag is set and the chosen port is recorded. If it fails, nothing changes. |
| `ApiServer.SensorApi.StopServer` | api_server.py:185-189 | Only the running flag is cleared. The port is kept. |
| `ApiServer.SensorApi.ClearLogs` | api_server.py:549-551 | The log becomes empty and nothing else changes. |
| `ApiServer.PostThenLatest` | api_server.py:97-130 | After an accepted POST and a re-render, the latest-reading endpoint returns 200 with the posted fields and the timestamp, without `datetime`. |
| `ApiServer.SecondPostDropsFirst` | api_server.py:83 | Two accepted POSTs before a re-render leave only the second reading in the log. |
| `ApiServer.RejectedPostDropsPending` | api_server.py:82-87 | An empty POST after an accepted one gets 400 and also discards the pending reading, so the log stays empty. |
| `IotController.DeviceStatusOf` | iot_controller.py:116-125 | The result is "Online" exactly when the request completed with status 200, and "Offline" otherwise, including on any exception. |
| `IotController.StateText` | iot_controller.py:236 | The text is "ON" exactly for state 1, and "OFF" otherwise. |
| `IotController.BaseUrlLabel` | iot_controller.py:147 | Without "//", the label is the whole URL. With "//", it is the text after the first "//", up to the next "//" or the end, with no "//" starting inside it. The label never contains "//". |
| `IotController.BaseUrlLabelUnique` | iot_controller.py:147 | Any text that starts right after the first "//" and runs to the end or to the next "//" without passing one is the label. So the description fixes the label, as `split("//")[1]` does. |
| `IotController.DefaultBaseUrlLabel` | iot_controller.py:77-81 | The default URL `http://192.168.43.64` is labelled `192.168.43.64`. |
| `IotController.LastOrSentinel` | iot_controller.py:376 | The window is 'No data available' exactly when the list is empty. Otherwise it holds the list's newest k entries, between 1 and k of them. |
| `IotController.BuiltInPrompt` | iot_controller.py:375-380 | Every analysis except the actuator one quotes readings: the newest 5 for current data, the newest 10 for the report and maintenance. Only the actuator analysis (newest 10) and the report (newest 5) quote actuator states. Each window is the sentinel exactly when its list is empty. |
| `IotController.DeviceController.constructor` | iot_controller.py:62-69 | The histories start empty and the device status starts as "Unknown". |
| `IotController.DeviceController.CheckDeviceStatus` | iot_controller.py:138-139 | The status becomes the outcome's Online/Offline value. The histories are unchanged. |
| `IotController.DeviceController.ReadSensorDashboard` | iot_controller.py:159-188 | A returned object is stamped and appended, and the history is cut to its newest 100 (at most 100 afterwards). A `requests` failure leaves the history unchanged and sets the status to "Offline". A reply that is not an object changes nothing. |
| `IotController.DeviceController.ReadSensorManual` | iot_controller.py:252-271 | A returned object is stamped and appended with no cap. Every failure leaves all state unchanged, including the device status. |
| `IotController.DeviceController.SetActuator` | iot_controller.py:302-327 | A call the device answered appends exactly one entry, with the requested state (0 or 1), the timestamp and the reply. A failed call appends nothing. The quick ON/OFF buttons (iot_controller.py:205-231) behave the same way with state 1 and 0. |
| `IotController.DeviceController.AnalyzeWithModel` | iot_controller.py:391-422 | An analysis is appended only when the prompt is non-empty and the model returned a non-empty text. Otherwise nothing changes. |
| `IotController.DeviceController.LastActuatorState` | iot_controller.py:234-238 | If the history is empty, nothing is shown. Otherwise the newest entry's timestamp is shown with "ON" exactly when its state is 1. |
| `IotController.DeviceController.RecentActuatorStates` | iot_controller.py:330-335 | The list shows the newest min(5, n) entries, newest first, and each state is 0 or 1. |
| `IotController.DeviceController.RecentAnalyses` | iot_controller.py:425-429 | The list shows the newest min(3, n) analyses, newest first. |
| `IotController.ManualThenDashboard` | iot_controller.py:255-262 | After any number of manual reads, the history is exactly those readings, stamped, in order. A following dashboard read leaves the newest 100 of that history followed by the new stamped reading: min(n+1, 100) entries, ending with the new reading. |

## Findings

| source | as written | input that shows it | evidently intended | confidence | as-written member | corrected member |
|---|---|---|---|---|---|---|
| api_server.py:543 | on a multi-page log, row i is labelled `total_logs - start_idx - i` | 25 entries, default page 3: the newest entry (#25) is labelled "Log #5"; on page 1 entries 10..1 are labelled #25..#16 | the entry's position, `end_idx - i` | high (not executed) | `LogPagination.LogLabelMisnumbersLastPage` | `LogPagination.EntryPositionIsPosition` |

`LogPagination.LogLabel` is the label as written. `LogPagination.LogLabelCorrectIff` says exactly when it agrees with the corrected `LogPagination.EntryPosition`.

## Left out

- Rendering: Streamlit widgets, tabs, CSS, charts, success and error messages, `st.rerun` and the auto-refresh sleeps. These are UI only. A handler's displayed error text is not state.
- Flask routing and transport. `request.get_json` is modelled only by its possible outcomes (`Body`).
- The server thread, and the unsynchronised access of the handler thread to the session state. This is concurrency. Each handler is modelled as one atomic method.
- `ApiServer.SensorApi.ReceiveSensorData`: the model assumes the Flask handler thread reads and writes the same `st.session_state` as the dashboard. If Streamlit gives a thread without a script-run context its own empty session state instead, every accepted POST would fail at api_server.py:97 with an `AttributeError` and a 500. The model does not capture that outcome.
- JSON encoding of responses: how `jsonify` writes the stored `datetime`, and dictionary key order. Records are maps.
- Outbound calls through `requests` and the language-model client are foreign code. Their results are parameters (`CallOutcome`, `HttpOutcome`, `Generation`).
- `datetime.now` and `strftime`. The timestamp string and the datetime value are separate parameters, since the manual read takes the clock twice.
- The analytics tabs: statistics, trend means, hourly grouping and CSV export. These are pandas/plotly work and floating point.
- The "Last Update" metric (api_server.py:247-250), the status badge (iot_controller.py:141-144) and the custom-endpoint tester (iot_controller.py:273-296). These are display only and change no state.
- The dashboard's own test buttons (api_server.py:365-432). They only call the server's endpoints, which are modelled.
- `CallOutcome`: a reply whose body is not JSON counts as `RequestFailed`, so `ReadSensorDashboard` then sets "Offline". This assumes `requests` 2.27 or later, where `resp.json()` (iot_controller.py:105, 113) raises a `RequestException`. With older versions the `ValueError` reaches the generic handler (iot_controller.py:187-188) and the status is left alone.
- `app.py` and `server_get.py` are not part of this model. The first is a thin client for outbound calls. The second is an echo endpoint.
- `IotController.BuiltInPrompt`: does not model how the quoted lists are turned into text (Python's list `repr`). It also does not state the fixed texts in its contract; they are in its body.
- `Windows.Newest`: requires k > 0. Python's `s[-0:]` is the whole list rather than an empty one, and every window in the source uses a positive constant.
- `ApiServer.SensorApi.StartServer`: the port field's range 5000..9999 comes from the port input widget (api_server.py:158-164). The model takes it as a precondition.
