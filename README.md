# camview core, modelled in Dafny

camview is a small camera viewer. A backend stores IP cameras in a database and talks to them over ONVIF for pan/tilt/zoom (PTZ). It also relays each camera's RTSP stream to the browser through ffmpeg and a WebSocket, and asks an Ollama vision model questions about a captured frame. The browser keeps a list of saved vision queries per camera in local storage.

This project models the decision logic inside that glue, and proves what it promises:

- **`StreamQueries`**: the browser's saved-query utilities. A `QueryStore` class over a string-keyed map holds one ordered list per camera under `streamQueries-<cameraId>`. It has get, save, add, update, delete and find operations, each with its whole new state in its contract.
- **`Onvif`**: the module-level ONVIF device cache `getDevice`. This is a `DeviceCache` class over a map, specified by the pure `FetchDevice`.
- **`CameraRoutes`**: the camera router. It covers add, with the device address, cache key and fallback RTSP URL; update and delete, with their 400/404/500 outcomes; and PTZ control through the cached device.
- **`ServerRoutes`**: the server entry point's variants of add and PTZ control. These connect directly with `new onvif.Cam`. PTZ control derives host and port from the stored ONVIF address by `split` and `parseInt`.
- **`StreamWs`**: the stream WebSocket handler. A pure lookup chain decides whether ffmpeg starts and on which address. A `StreamHandler` class has one method per event; each is specified by a transition function `Step`. Lemmas about runs of events cover ordering, closing and killing.
- **`OllamaQuery`**: the `/query` route. It covers the validation order, prompt-template choice, output format, and the streamed output: the frame line first, then the model's parts in order.
- **`JsText`**, **`Records`** and **`Base`** hold what these share:
  - the JavaScript `split`, `${n}` on integers and `parseInt`;
  - camera rows, database outcomes and HTTP replies;
  - `Option`, `Result` and truthiness of optional strings.

Everything foreign to the logic is a parameter that carries its outcome:
- database calls: a row lookup, or a `lastID`/`changes` result, or an error;
- the ONVIF `init`, `getStreamUri`, `ptzMove`/`ptzStop`/`continuousMove` and `stop`;
- the `Cam` connection;
- the WHATWG URL credential embedding, as a function that may fail;
- the fresh query id;
- the frame grab;
- the model's stream of parts.

Two notes on scope:
- `server.ts` update and delete are the same handlers as the router's, so `CameraRoutes.UpdateCamera` and `CameraRoutes.DeleteCamera` model both files.
- The stream handler runs one ffmpeg process per connection; there is no shared relay, replay buffer or idle sweep.

## Model

| member | source | states |
|---|---|---|
| Base.OrDefault | backend/src/utils/onvif.ts:8-9 | a defaulted parameter takes its default exactly when the argument is absent, and otherwise the argument itself, even an empty one |
| JsText.Split | backend/src/server.ts:331 | `split` on one character gives one piece more than there are separators, no piece holds the separator, and joining the pieces with it gives back the input |
| JsText.FirstPieceIsPrefix | backend/src/server.ts:331 | the first piece is a prefix of the input, followed by the separator when there are more pieces |
| JsText.SplitWithoutSeparator | backend/src/server.ts:331 | a string free of the separator splits into itself alone |
| JsText.SplitAtFirst | backend/src/server.ts:331 | the first piece ends at the first separator and the rest splits independently |
| JsText.IntToDecimal | frontend/src/types/stream-query.ts:30 | the printed integer is non-empty, starts with '-' exactly when it is negative, and is otherwise made of decimal digits |
| JsText.NatToDecimal | frontend/src/types/stream-query.ts:30 | the decimal form is a non-empty run of decimal digits |
| JsText.DecimalValueOfNatToDecimal | frontend/src/types/stream-query.ts:30 | reading the decimal form in base 10 gives the number back |
| JsText.NatToDecimalInjective | frontend/src/types/stream-query.ts:30 | two natural numbers with the same decimal form are equal |
| JsText.IntToDecimalInjective | frontend/src/types/stream-query.ts:30 | two integers with the same printed form are equal |
| JsText.DigitRun | backend/src/server.ts:334 | `parseInt`'s digit run is the longest prefix of digits of the base: a prefix, all digits, stopped by a non-digit or the end |
| JsText.TrimStart | backend/src/server.ts:334 | skipping leading white space leaves a suffix of the input that does not start with white space, and everything dropped is white space |
| JsText.ParseInt | backend/src/server.ts:334 | `parseInt` is NaN for an input that is all white space or whose first other character is neither a sign nor a decimal digit (a letter included), and is negative only after a leading '-' |
| JsText.DigitRunOfDigits | backend/src/server.ts:334 | a string made only of digits is read in full |
| JsText.ParseIntOfDigits | backend/src/server.ts:334 | `parseInt` reads a plain run of decimal digits as its base-10 value |
| JsText.ParseIntOfDecimal | backend/src/server.ts:334 | `parseInt` of the decimal form of a natural number gives that number |
| StreamQueries.StorageKeyInjective | frontend/src/types/stream-query.ts:30 | different camera ids have different storage keys |
| StreamQueries.StorageKey | frontend/src/types/stream-query.ts:30-36 | the key is `streamQueries-` followed by the camera id as JavaScript prints it, which can be read back from the key |
| StreamQueries.OtherCamerasUntouched | frontend/src/types/stream-query.ts:35-38 | writing one camera's list leaves every other camera's list as it reads |
| StreamQueries.ListFor | frontend/src/types/stream-query.ts:29-33 | the list stored under `streamQueries-<cameraId>`, or the empty list when the key is absent |
| StreamQueries.ReadBackWritten | frontend/src/types/stream-query.ts:29-38 | a list written for a camera is what its next read returns |
| StreamQueries.AbsentKeyReadsEmpty | frontend/src/types/stream-query.ts:29-33 | a camera with no stored key reads as the empty list |
| StreamQueries.FindIndex | frontend/src/types/stream-query.ts:61 | `findIndex` is -1 exactly when no query has the id, and otherwise is the first index holding it |
| StreamQueries.Find | frontend/src/types/stream-query.ts:80 | `find(...) \|\| null` is absent exactly when no query has the id, and otherwise is the query at the first such index |
| StreamQueries.RemoveId | frontend/src/types/stream-query.ts:71 | the filter keeps exactly the queries with a different id, and no element with the id survives |
| StreamQueries.RemoveIdKeepsLengthIffAbsent | frontend/src/types/stream-query.ts:71-72 | the filtered list has the original length exactly when no query had the id, which is when `deleteQuery` reports false |
| StreamQueries.RemoveIdWithoutId | frontend/src/types/stream-query.ts:71-72 | filtering a list without the id returns it unchanged |
| StreamQueries.RemoveIdAppend | frontend/src/types/stream-query.ts:71 | the filter distributes over concatenation, so the kept queries stay in their original order |
| StreamQueries.NewQuery | frontend/src/types/stream-query.ts:45-49 | the new query carries the given fields, the fresh id and the camera id |
| StreamQueries.Merge | frontend/src/types/stream-query.ts:64 | the spread of updates replaces every present field, keeps every absent one, and never changes `id` or `cameraId` |
| StreamQueries.FindAfterAppend | frontend/src/types/stream-query.ts:44-53 | after appending a query whose id no stored query has, a lookup of that id finds it |
| StreamQueries.FindOtherAfterAppend | frontend/src/types/stream-query.ts:44-53 | appending a query does not change the lookup of any other id |
| StreamQueries.QueryStore.QueriesForCamera | frontend/src/types/stream-query.ts:29-33 | `getQueriesForCamera` gives the list stored under the camera's key, or the empty list when that key is absent |
| StreamQueries.QueryStore.GetQuery | frontend/src/types/stream-query.ts:78-81 | the result is absent exactly when the camera's list has no query with the id, and is otherwise the first stored query with that id |
| StreamQueries.QueryStore.SaveQueriesForCamera | frontend/src/types/stream-query.ts:35-38 | only the camera's key is written, and reading it back gives the list |
| StreamQueries.QueryStore.AddQuery | frontend/src/types/stream-query.ts:40-53 | the camera's list becomes the old list plus the new query at its end; with an unused fresh id, `getQuery` then returns the new query; other cameras are untouched |
| StreamQueries.QueryStore.UpdateQuery | frontend/src/types/stream-query.ts:55-67 | the result is null and nothing is written exactly when no query has the id; otherwise only the first match is replaced by the merge and returned; the length and the other cameras are unchanged |
| StreamQueries.QueryStore.DeleteQuery | frontend/src/types/stream-query.ts:69-76 | the result is false exactly when no query has the id, and then the store is unchanged; otherwise the list is the filtered one; other cameras are untouched |
| Onvif.FetchDevice | backend/src/utils/onvif.ts:6-28 | see the list after the table |
| Onvif.HitIgnoresArguments | backend/src/utils/onvif.ts:13-15 | on a hit, the address, credentials and handshake outcome make no difference |
| Onvif.SecondCallReusesDevice | backend/src/utils/onvif.ts:13-25 | after a successful call under a non-empty key, a second call under it returns the same device without a handshake; under the empty key every call performs one |
| Onvif.DeviceCache.constructor | backend/src/utils/onvif.ts:4 | the cache starts empty |
| Onvif.DeviceCache.GetDevice | backend/src/utils/onvif.ts:6-28 | the device returned, whether a handshake ran and the new cache are exactly those of `FetchDevice` on the old cache |
| CameraRoutes.DeviceServiceUrl | backend/src/routes/camera.ts:30 | `http://<host>:8899/onvif/device_service`, with the host readable back from between the scheme and the port |
| CameraRoutes.CacheKey | backend/src/routes/camera.ts:27 | `camera-` followed by the camera name, which is the rest of the key |
| CameraRoutes.FallbackRtspUrl | backend/src/routes/camera.ts:43 | `rtsp://<host>:554/stream`, with the host readable back from between the scheme and the port (the server file's add uses the same address at line 145) |
| CameraRoutes.DiscoveredRtspUrl | backend/src/routes/camera.ts:34-44 | the device's stream address when reading it succeeds, else `rtsp://<host>:554/stream` |
| CameraRoutes.AddCamera | backend/src/routes/camera.ts:16-72 | see the list after the table |
| CameraRoutes.AddCachesDevice | backend/src/routes/camera.ts:26-31 | after an add that reached the insert, the device is cached under `camera-<name>` |
| CameraRoutes.UpdateCamera | backend/src/routes/camera.ts:75-110 | 400 unless name and RTSP URL are present, and then nothing is written; otherwise the body's columns are written; 500 on a database error; 404 when no row changed; 200 with the message, id and columns exactly when a row changed |
| CameraRoutes.DeleteCamera | backend/src/routes/camera.ts:127-146 | 500 on a database error; 404 exactly when no row changed; 200 with the deleted message exactly when one did |
| CameraRoutes.PtzSpeed | backend/src/routes/camera.ts:216-243 | the six move commands, and only they, give a velocity; each sets exactly one axis to plus or minus the speed; `stop` stops; anything else is unknown |
| CameraRoutes.PtzOppositesNegate | backend/src/routes/camera.ts:217-235 | up, right and zoom-in are positive on y, x and z, and their opposites are the negated velocities |
| CameraRoutes.PtzControl | backend/src/routes/camera.ts:178-258 | see the list after the table |
| CameraRoutes.PtzStopNeverMoves | backend/src/routes/camera.ts:236-245 | `stop` never calls `ptzMove`, and an unknown command calls no device operation at all |
| ServerRoutes.AddCamera | backend/src/server.ts:103-199 | see the list after the table |
| ServerRoutes.HostSegment | backend/src/server.ts:331 | the third '/'-piece exists exactly when the address has at least two '/', and holds no '/' |
| ServerRoutes.HostnameOf | backend/src/server.ts:331 | the hostname is the longest colon-free prefix of the host segment |
| ServerRoutes.PortOf | backend/src/server.ts:334 | the port is 80 when the segment has no ':' or nothing follows its first ':' |
| ServerRoutes.ParseDefaultPort | backend/src/server.ts:334 | the default `'80'` parses to 80 |
| ServerRoutes.SegmentWithoutPort | backend/src/server.ts:331-334 | a segment without a colon is all hostname, on port 80 |
| ServerRoutes.SegmentWithEmptyPort | backend/src/server.ts:331-334 | `host:` with nothing after the colon is port 80 too |
| ServerRoutes.SegmentWithPort | backend/src/server.ts:331-334 | `host:<decimal>` gives that host and that port |
| ServerRoutes.HostSegmentOfUrl | backend/src/server.ts:331 | for `<scheme>//<authority>` followed by an empty path or one starting with '/', the third '/'-piece is the authority |
| ServerRoutes.ServerPtzCommand | backend/src/server.ts:351-376 | unknown exactly for commands other than the six moves and `stop`; `stop` is all-zero x, y and zoom |
| ServerRoutes.SameSignsAsCameraRouter | backend/src/server.ts:351-370 | every move command gets the same axis and sign as in the camera router, with its z as zoom |
| ServerRoutes.PtzControl | backend/src/server.ts:299-404 | see the list after the table |
| ServerRoutes.AuthorityHasNoSlash | backend/src/server.ts:331 | a host without '/' and a decimal port make an authority without '/' |
| ServerRoutes.AuthorityParts | backend/src/server.ts:331-334 | the split recovers host and port from `host` or `host:port`, port 80 when it is absent |
| ServerRoutes.HttpAddressSegment | backend/src/server.ts:331 | for `http://<authority><path>`, with no '/' in the authority and a path that is empty or starts with '/', the third '/'-piece is the authority |
| ServerRoutes.UsualAddressTarget | backend/src/server.ts:331-334 | from `http://<host>[:<port>]<path>` the split recovers the host and the port, 80 when none is given |
| ServerRoutes.ControlTargetOfUsualAddress | backend/src/server.ts:329-335 | for such a stored address, the control route connects to that host and port with the row's credentials |
| StreamWs.StreamUrl | backend/src/routes/stream-ws.ts:42-49 | the credentials are embedded exactly when user name and password are both non-empty; otherwise the address is the stored one |
| StreamWs.StreamSetup | backend/src/routes/stream-ws.ts:19-49 | the lookup error, missing camera and missing RTSP URL are each refused with their own message; ffmpeg is spawned exactly when a camera with an RTSP URL was found and its address could be built; the URL constructor's throw is the outcome exactly when such a camera was found and its address could not be built, which needs both credentials |
| StreamWs.Step | backend/src/routes/stream-ws.ts:76-115 | see the list after the table |
| StreamWs.RunAppend | backend/src/routes/stream-ws.ts:76-115 | handling two stretches of events one after the other is handling their concatenation |
| StreamWs.NothingSentAfterOpen | backend/src/routes/stream-ws.ts:83-103 | once the socket is not open it never reopens and nothing more is sent, whatever the events |
| StreamWs.StoppedStaysStopped | backend/src/routes/stream-ws.ts:76-115 | once ffmpeg is not running, no event makes it run again |
| StreamWs.SocketCloseEndsEverything | backend/src/routes/stream-ws.ts:99-110 | after the socket's close event, ffmpeg is never running and everything sent was sent before the close |
| StreamWs.ChunksForwardedInOrder | backend/src/routes/stream-ws.ts:99-103 | while the socket is open, every data chunk is sent, after what was sent before and in arrival order |
| StreamWs.SpawnAfterCloseKeepsRunning | backend/src/routes/stream-ws.ts:16-19 | a socket closed before the lookup answered never kills the ffmpeg spawned afterwards: without a socket error it keeps running, and nothing is sent |
| StreamWs.StreamHandler.constructor | backend/src/routes/stream-ws.ts:11 | a new connection is open, has sent nothing and has no process |
| StreamWs.StreamHandler.Send | backend/src/routes/stream-ws.ts:22 | a send appends the message and changes nothing else |
| StreamWs.StreamHandler.Close | backend/src/routes/stream-ws.ts:23 | a close moves an open socket to closing and changes nothing else |
| StreamWs.StreamHandler.Start | backend/src/routes/stream-ws.ts:16-97 | the decision is `StreamSetup`; a refusal sends its error and then closes; a spawn starts ffmpeg on that address and sends nothing; when the URL constructor throws, nothing is sent and no process starts |
| StreamWs.StreamHandler.OnData | backend/src/routes/stream-ws.ts:99-103 | the new state is `Step` of the old one on the chunk |
| StreamWs.StreamHandler.OnFfmpegError | backend/src/routes/stream-ws.ts:76-89 | the new state is `Step` of the old one on the ffmpeg error |
| StreamWs.StreamHandler.OnFfmpegEnd | backend/src/routes/stream-ws.ts:90-95 | the new state is `Step` of the old one on the end event |
| StreamWs.StreamHandler.OnSocketClose | backend/src/routes/stream-ws.ts:105-110 | the new state is `Step` of the old one on the socket close |
| StreamWs.StreamHandler.OnSocketError | backend/src/routes/stream-ws.ts:112-115 | the new state is `Step` of the old one on the socket error |
| OllamaQuery.Validate | backend/src/routes/ollama.ts:20-31 | the first failing check in the order host, model, prompt, camera id decides the message; there is no failure exactly when all four hold |
| OllamaQuery.Template | backend/src/routes/ollama.ts:46-62 | truthy `think` picks the thoughts/value template whatever the response type; the array template is used exactly when `think` is falsy and the response type is `'array'`; otherwise the security-camera template |
| OllamaQuery.EnhancedPrompt | backend/src/routes/ollama.ts:45-62 | the user's prompt is the suffix of the enhanced prompt, after the template chosen with `responseType` defaulting to `'string'` and `think` to false |
| OllamaQuery.ImageLine | backend/src/routes/ollama.ts:40 | the first line is `data:image/jpeg;base64,`, then the frame itself, then a newline |
| OllamaQuery.Responses | backend/src/routes/ollama.ts:74-77 | no parts write nothing, and the text written ends with the last part's text |
| OllamaQuery.ResponsesAppend | backend/src/routes/ollama.ts:74-77 | the text written for two stretches of parts is the text of the first followed by the text of the second |
| OllamaQuery.WriteParts | backend/src/routes/ollama.ts:73-77 | the loop writes every part's text after what was written, in order, and keeps the last part |
| OllamaQuery.Query | backend/src/routes/ollama.ts:8-89 | see the list after the table |

Contracts too long for one cell:

- **Onvif.FetchDevice**
  - A hit under a non-empty key returns the cached device, leaves the cache as it was and runs no handshake.
  - A miss always runs the handshake.
  - A failed handshake propagates its message and caches nothing.
  - A new device is built from this call's address and its credentials, which default to ''.
  - The empty key never changes the cache.
  - Within one call, existing entries are never overwritten or removed, and at most this call's key is added.
  - After a successful call under a non-empty key, that key holds the device returned.
- **CameraRoutes.AddCamera**
  - A missing name or host gives 400 before any device contact.
  - Otherwise the device is fetched at `http://<host>:8899/onvif/device_service` under `camera-<name>`, and the cache changes only as `getDevice` changes it.
  - A device error gives 500 "Failed to connect to camera or initialize: …" and nothing is inserted.
  - Once the device has been obtained, the insert is always attempted.
  - The inserted columns are the name, the discovered or fallback RTSP URL, the PTZ address and the credentials.
  - The reply is 201 with the new id and those columns exactly when the insert ran; an insert error gives 500.
- **CameraRoutes.PtzControl**
  - Refusals come in this order: lookup error 500, missing camera 404, empty ONVIF URL 400.
  - The device is fetched under `camera-<name>` before the command is looked at.
  - A device that cannot be obtained gives 500 "Failed to send PTZ command: …" with its message, and no operation.
  - A device operation happens exactly when the device was obtained and the command is known, and it is the one the switch chose.
  - An unknown command gives 400 "Invalid PTZ command." with no operation.
  - The reply is 200 exactly when the operation ran and succeeded; a failure gives 500 "Failed to send PTZ command: …".
- **ServerRoutes.AddCamera**
  - A missing name or host gives 400.
  - Otherwise the connection is to the host on port 80 with the body's credentials.
  - A constructor that throws gives 500 with its message; a failed connection gives 500 "Failed to connect to camera: …".
  - A connected device is inserted with the reported stream URI, or `rtsp://<host>:554/stream` when `getStreamUri` fails, and with `xaddrs[0]`.
  - The reply is 201 with the new id exactly when the insert ran.
- **ServerRoutes.PtzControl**
  - Refusals come in this order: lookup error 500, missing camera 404, then 400 unless ONVIF URL, user name and password are all non-empty.
  - A connection is made exactly when the stored address has a third '/'-piece. Its hostname and port come from that piece.
  - Without that piece the database callback throws, and no reply is sent. A `Cam` constructor that throws ends the callback the same way.
  - A failed connection gives 500 "Failed to connect to camera for PTZ control: …". A device without PTZ gives 500 "PTZ service not available for this device.".
  - A dispatch happens exactly for a connected device with PTZ and a known command: `stop({panTilt, zoom})` for `stop` and `continuousMove` for the rest.
  - An unknown command gives 400.
  - The reply is 200 with the command's message exactly when the dispatch succeeded. A failed dispatch gives 500 with its message.
- **StreamWs.Step**
  - Nothing is sent unless the socket is open.
  - A chunk is forwarded exactly when the socket is open.
  - An ffmpeg error on an open socket sends "FFmpeg error: …" and then closes.
  - The end event closes the socket only if it is open.
  - A chunk changes neither the socket nor the process.
  - An ffmpeg error or end marks a running process as exited. An ffmpeg error on a socket that is not open sends nothing and leaves the socket as it is.
  - A socket close or error kills a running process. A socket error leaves the socket as it is; a close makes it closed.
  - No event starts a process or reopens the socket.
- **OllamaQuery.Query**
  - A failing settings read gives 500 with its message.
  - Otherwise the first failed check gives 400 with its text.
  - A frame is grabbed exactly when both settings were read and all four checks passed, and it is grabbed for the request's `cameraId`.
  - The reply streams exactly when all checks pass and a frame was captured; a failed capture gives 500.
  - The model is asked with the enhanced prompt, format `json` unless `isCustom`, exactly the one frame, streaming, temperature 0.05 and 512 tokens.
  - The body is the frame line followed by the parts' texts in order.
  - It ends exactly when the stream did not fail.

## Left out

- sqlite access, the schema and the settings reads: each database call is an outcome passed in (a row, not found or an error; `lastID` and `changes`, or an error). A NULL column of the row is modelled as "" or an absent password. So a NULL password reaches `getDevice` as an absent `pass` and takes the default ''. In the source a `null` argument does not take a parameter default, so `pass` stays `null`.
- `connectToExistingCameras` in backend/src/utils/db.ts: a reconnect loop that only logs.
- backend/src/routes/settings.ts: a thin wrapper around the settings table.
- backend/server.js: an older JavaScript copy of backend/src/server.ts with the same logic, except that its PTZ route never parses the port: `split(':')[1] || 80` passes either the text after the colon or the number 80 (backend/server.js:200).
- The ONVIF library itself (`init`, `getStreamUri`, `ptzMove`, `ptzStop`, `stop`, `continuousMove`, the `Cam` connection): each is a step whose success or error is given.
- ONVIF discovery (`/api/onvif/discover` in both route files): a timed network probe that makes no decision of its own.
- The `GET /api/cameras` list routes: they pass the table through unchanged.
- The WebSocket placeholder in backend/src/server.ts (lines 406-423): it only logs.
- Route paths and mounting: which path reaches which handler is not modelled. This includes the camera router's `'/api/cameras:id'`, which has no '/' before the parameter.
- ffmpeg's options and process, the WebSocket transport and JSON encoding of messages: the model records which messages are sent, the socket's ready state and whether the process runs. `readyState` is reduced to open, closing and closed.
- WHATWG URL parsing and serialisation of credentials: a function passed in, which may fail.
- The Ollama client and chunked HTTP: the stream of parts and a possible failure are passed in. A failure after the headers were sent cannot be answered; the model leaves the reply partial and not ended.
- Console output, including the token count computed from the last part.
- `localStorage` and JSON (de)serialisation: the store maps each key to its parsed list.
- `crypto.randomUUID`: the fresh id is a parameter.
- The frame grabber `getFrameAsBase64`: `Query` records the call and the camera id it is made for, and the call's outcome is a parameter, because its definition is not part of this model.
- Onvif.FetchDevice: each call is one atomic step. In the source, `getDevice` awaits `init()` between the cache lookup and the `set`. Two overlapping calls under one key can therefore both miss and both run the handshake, and the later `set` then overwrites the earlier entry. An example is two PTZ requests for one camera right after a restart. The model does not capture this interleaving.
- CameraRoutes.PtzSpeed: speeds are integers. JavaScript numbers are floating point, so fractional speeds, NaN and -0 are not modelled. The same holds for ServerRoutes.ServerPtzCommand.
- CameraRoutes.DiscoveredRtspUrl: a `stream` object without an `rtsp` field yields `undefined` in the source without throwing. The model reads every successful access as a string.
- JsText.IntToDecimal: the camera id is a JavaScript number, but it is modelled as an integer. So `-0`, which prints as "0", and the exponent form that numbers of magnitude 1e21 or more print in are not modelled.
- ServerRoutes.PtzControl: an address without a third '/'-piece, or a `Cam` constructor that throws, raises an exception inside the sqlite3 callback (backend/src/server.ts:331). Under Node's default handling an uncaught exception there likely ends the whole process, not just this request. The model records only that the handler threw and sent no reply.
- StreamWs.StreamSetup: when `new URL` throws, the async database callback rejects (backend/src/routes/stream-ws.ts:45) and nothing handles the rejection. Under Node's default handling this likely ends the whole process. The model records only that nothing is sent and no process starts.
- JsText.ParseInt: white space is the ASCII set plus no-break space, byte-order mark and the two line separators. Other Unicode space separators are not treated as white space, and results are unbounded integers rather than floating point.
- OllamaQuery.Query: a non-string `prompt` in the request body is not modelled; the prompt is an optional string. Errors that the streamed parts could throw while being written are not modelled.
- StreamQueries.Merge: an update field explicitly set to `undefined` is treated as absent. The spread in the source would copy `undefined` over the stored value.
