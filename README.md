# Playground session model

A Dafny model of the decision and state logic of the `Playground` React
component, the control surface of a real-time voice/video agent session. The
component watches the media room's connection state, starts and stops a
backend agent process over HTTP (`/offer`, `/stop`), polls its readiness
(`/status`), forwards typed text to the agent (`/speak`), picks the tracks to
show from the room's track list, folds data-channel messages into a transcript
and two readiness flags, and chooses which variant of each tile and settings
panel to render.

The model lifts that logic out of the markup, the SDK hooks and the `fetch`
calls:

- `Connection`: the four connection states and the "Status" label derived from
  them (a spinner while connecting, else the state's name capitalised).
- `Personas`: the fixed three-entry persona catalog and the picker's
  highlighting.
- `Tracks`: the track records and the selectors. `Find` is
  `Array.prototype.find`, stated as "the first match in list order". The
  selectors give the agent's video track, the local tracks (an order-preserving
  filter) and the first local camera, screen-share and microphone track.
- `JsText`: ECMAScript's `String.prototype.trim`, over the WhiteSpace and
  LineTerminator code points.
- `Requests`: the requests as values. It covers the offer/stop decision of the
  lifecycle effect, the status poll that follows a settled offer or stop,
  the speak decision of `sendTranscription`, and the `handleRpcCall`
  precondition.
- `Views`: the video, audio and chat tiles, the settings panel's variable
  parts, the mobile tab list and the wide layout, all as tags.
- `Session`: the component's own state as a class. Its fields are the
  transcript, the selected persona, `serverLoaded` and `hasHeardAudio`. Its
  methods are the data-channel handler, the `/status` response handler, the
  connection-state reset effect and the persona click handler.
- `Scenarios`: client methods that drive a session through concrete runs
  (connect, hear the agent, disconnect, reconnect; whitespace-only text; an RPC
  without an agent) and assert the outcomes the contracts promise.

Behaviour of the code worth knowing, all in
src/components/playground/Playground.tsx:

- The status poll after `/stop` runs only when the call answers 2xx with a
  JSON body (lines 148-154). A non-2xx answer throws at line 149, before the
  poll.
- Only `hasHeardAudio` is ever cleared (line 225). `serverLoaded` is set at
  lines 114 and 216 and never set back to false, so after a first load the
  "waiting for agent voice" overlay (line 260) stays off on later connections
  until a reload.
- `hasHeardAudio` is cleared on every state other than Connected (line 224):
  Connecting and Reconnecting as well as Disconnected.
- The chat tile (lines 340-354) is computed but rendered nowhere. The audio
  tile appears only in the mobile tab list (lines 513-525). The wide layout
  shows the video tile and the settings tile only (lines 565-590).

## Model

| member | source | states |
|---|---|---|
| Connection.Capitalize | src/components/playground/Playground.tsx:409 | the label keeps the state string's length and tail and upper-cases its first character; the empty string stays empty |
| Connection.StatusLabelOf | src/components/playground/Playground.tsx:406-410 | a spinner exactly when Connecting; otherwise the state string with its first character upper-cased and its tail kept |
| Connection.StatusLabelTexts | src/components/playground/Playground.tsx:406-410 | the visible labels are "Disconnected", "Connected" and "Reconnecting" |
| Personas.CatalogNamesDistinct | src/components/playground/Playground.tsx:81-103 | the three catalog personas have pairwise distinct names |
| Personas.SelectionHighlightsOne | src/components/playground/Playground.tsx:423-429 | after picking entry k, the picker's name comparison marks entry k and no other |
| Tracks.FirstIndex | src/components/playground/Playground.tsx:184-201 | `find` stops at the first position whose track matches, with no match before it; it finds nothing exactly when no track matches |
| Tracks.Find | src/components/playground/Playground.tsx:184-201 | the found track is the track at the first matching position; nothing is found exactly when no track matches |
| Tracks.AgentVideoTrack | src/components/playground/Playground.tsx:184-188 | the agent video track is the first track in list order whose kind is Video and whose owner is an agent; it is absent exactly when no track qualifies |
| Tracks.LocalTracks | src/components/playground/Playground.tsx:190-192 | the local tracks are exactly the input tracks owned by the local participant, and there are no more of them than input tracks |
| Tracks.LocalTracksAppend | src/components/playground/Playground.tsx:190-192 | the filter preserves order: the local tracks of a concatenation are those of the first part followed by those of the second |
| Tracks.FindInLocalTracks | src/components/playground/Playground.tsx:190-201 | searching the local tracks for a source finds the same track as searching all tracks for a local track with that source |
| Tracks.LocalTrackBySource | src/components/playground/Playground.tsx:193-201 | the local camera, screen-share or microphone track is the first local track with that source in list order, and absent exactly when there is none |
| JsText.TrimStart | src/components/playground/Playground.tsx:160 | the result is a suffix of the input, everything removed is white space, and it does not start with white space |
| JsText.TrimEnd | src/components/playground/Playground.tsx:160 | the result is a prefix of the input, everything removed is white space, and it does not end with white space |
| JsText.Trim | src/components/playground/Playground.tsx:160 | the trimmed text is a slice of the input with only white space outside it and none at either end; it is empty exactly when the input is all white space |
| JsText.TrimIdempotent | src/components/playground/Playground.tsx:160 | trimming an already trimmed text changes nothing |
| Requests.LifecycleRequests | src/components/playground/Playground.tsx:120-156 | at most one request. The offer, carrying the room and the persona's input image, voice, name and description, goes out exactly when Connected with a named room. The stop `{room}` goes out exactly when Disconnected with a named room. Nothing goes out otherwise |
| Requests.AfterLifecycleResponse | src/components/playground/Playground.tsx:133-154 | after an offer or stop settles, one status poll follows exactly when the answer was 2xx with a JSON body, and none otherwise |
| Requests.SpeakRoom | src/components/playground/Playground.tsx:168 | the configured room name wins when it is non-empty; otherwise the live room name is used |
| Requests.SpeakDecision | src/components/playground/Playground.tsx:158-175 | no speak request exactly when the text is all white space or the state is not Connected. Otherwise one request, carrying the trimmed, non-blank text, the chosen room and the selected persona's voice |
| Requests.RpcCall | src/components/playground/Playground.tsx:356-367 | the call fails exactly when there is no agent or no room; otherwise it is addressed to the agent's identity with the given method and payload |
| Views.VideoTileOf | src/components/playground/Playground.tsx:260-276 | the tile is "disconnected" exactly when Disconnected. Otherwise it shows the agent video exactly when that track exists, with the voice overlay exactly when neither flag is set. In the remaining case it shows loading |
| Views.AudioTileOf | src/components/playground/Playground.tsx:324-332 | "disconnected" exactly when Disconnected; in every other state (Connecting, Connected, Reconnecting), waiting exactly when no agent audio track exists, else the visualizer on that track |
| Views.ChatTileOf | src/components/playground/Playground.tsx:340-349 | the transcription view is present exactly when an agent exists, bound to the agent's audio track |
| Views.SettingsOf | src/components/playground/Playground.tsx:385-474 | room name shown is the live name when Connected, else the configured one; editable exactly when not Connected; the status is the label of the state (spinner exactly when Connecting); RPC panel exactly when Connected with an agent; the camera and microphone panels show the first local track of that source and exist exactly when one does; QR panel exactly when configured |
| Views.WithRoomName | src/components/playground/Playground.tsx:395-399 | editing the room name sets it and leaves every other setting as it was |
| Views.MobileTabs | src/components/playground/Playground.tsx:498-562 | Video is present iff video output is on and Audio iff audio output is on. Settings is always present, last and the initial tab. The tabs run in the order Video, Audio, Settings, without repeats |
| Views.DesktopViewOf | src/components/playground/Playground.tsx:565-590 | the media column is shown exactly when audio or video output is on, and holds the video tile exactly when video output is on; the settings tile is always shown |
| Session.EntryTimestamp | src/components/playground/Playground.tsx:206-209 | a transcript entry's timestamp is the payload's when that is present and positive, and the receive time otherwise |
| Session.PlaygroundSession.constructor | src/components/playground/Playground.tsx:104-106 | a new session has an empty transcript, the first persona selected and both flags down |
| Session.PlaygroundSession.OnDataReceived | src/components/playground/Playground.tsx:203-218 | on "transcription", exactly one entry `{"You", text, timestamp, self}` is appended and earlier entries and the flags are unchanged. On "agent_audio_ready", both flags become true and the transcript is unchanged. Any other topic changes nothing |
| Session.PlaygroundSession.ApplyStatus | src/components/playground/Playground.tsx:108-118 | both flags become true when the status answer is 2xx and reports the backend loaded; a failure, a non-2xx answer or `loaded` false changes nothing |
| Session.PlaygroundSession.OnConnectionStateChange | src/components/playground/Playground.tsx:223-228 | outside Connected, `hasHeardAudio` becomes false and one status poll goes out. `serverLoaded`, the transcript and the persona never change |
| Session.PlaygroundSession.SelectPersona | src/components/playground/Playground.tsx:423-429 | the clicked catalog entry becomes the selection and is the only one highlighted; nothing else changes |
| Session.PlaygroundSession.LifecycleEffect | src/components/playground/Playground.tsx:120-156 | the lifecycle requests for the current state and room use the persona selected at that moment; when Connected with a named room that is one offer with that persona's fields |
| Session.PlaygroundSession.SendTranscription | src/components/playground/Playground.tsx:158-175 | the speak decision uses the persona selected at that moment, so any voice sent is a catalog voice |
| Session.PlaygroundSession.CurrentVideoTile | src/components/playground/Playground.tsx:260-276 | the tile is the video-tile choice applied to the first agent video track of the list and the current flags: "disconnected" exactly when Disconnected; a shown video is that first agent Video track, overlaid exactly when neither flag is set; loading exactly when not Disconnected and no agent video track exists |

## Left out

- Markup, CSS class strings, colours, layout sizes and the status row's colour: only the chosen variant is modelled.
- The `fetch` calls themselves, promise chains and JSON bodies as bytes: a request is a value, and how a call settled is a `FetchOutcome` passed in. The rejected promise a failed offer or stop leaves behind is not observable and is not modelled.
- The real-time SDK (hooks, `VideoTrack`, `BarVisualizer`, `performRpc`, `useTracks`): tracks, participants and the agent are plain records; the RPC's transport and response are not modelled, only which call is made.
- `setCameraEnabled`/`setMicrophoneEnabled` on Connected (lines 177-182): these are calls into the SDK with no decision beyond the state test.
- UTF-8 decoding and `JSON.parse` of data-channel payloads: the handler receives the decoded `{text, timestamp?}`. A transcription payload that does not decode throws in the source; `OnDataReceived` requires a decoded payload on that topic instead of inventing a policy.
- Session.EntryTimestamp: a JavaScript number is modelled as an integer; fractional and non-numeric timestamps are not modelled.
- Wall-clock time: the receive time is the parameter `now`.
- React scheduling, memoisation and effect dependency lists. `sendTranscription` lists neither the connection state nor the selected persona among its dependencies, and `onDataReceived` lists none, so the source may act on stale values. The model passes current values explicitly and does not model stale closures.
- When effects fire: the model gives what each effect does once it runs (`LifecycleEffect`, `OnConnectionStateChange`), not React's decision to run it. The status poll on mount (lines 230-232) is a single `StatusRequest` and is not modelled separately.
- The theme effect writing the accent colour into the document style (lines 285-295), and the QR code's content, the page URL (line 471).
- The header's connect button (lines 543-553), which asks to connect when Disconnected and to disconnect otherwise (line 551): the connection itself belongs to the caller of the component.
- The agent's attributes: lines 369-371 compute them with `useParticipantAttributes`, but nothing in the component reads the result, and the `AttributesInspector` imported at line 35 is never rendered.
- The RPC panel's inputs: `rpcMethod` and `rpcPayload` (lines 76-77) are held as component state by the panel; the model takes their current values as the `rpcMethod` and `payload` parameters of `RpcCall`.
- Connection.Capitalize: upper-cases ASCII letters only, where `toUpperCase` covers all of Unicode; every state string is ASCII.
- Connection states beyond Disconnected, Connecting, Connected and Reconnecting that the client library may define are not modelled.
- next.config.js is build configuration and src/components/button/LoadingGIF.tsx a stateless image wrapper; neither is part of this model.
