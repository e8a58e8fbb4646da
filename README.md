# Live class session: a Dafny model

This project models a small live-class application built on a LiveKit media server:

- the browser client's session bookkeeping in `App.tsx`:
  - the room;
  - the local camera and microphone tracks and their on/off flags;
  - the list of subscribed remote tracks;
  - the authentication flag;
  - the join and leave flows;
  - the token request;
  - the URL configuration;
  - the `accessToken` cookie extraction;
- the `MediaProvider` context, which holds the same camera and microphone logic;
- the Express token server with its `/token`, `/check-token` and `/livekit/webhook` handlers and its environment defaults.

The media engine, the devices and the network are not modelled. Each call into them is an abstract step: the caller passes in the step's outcome, and the call is appended to a log of `EngineCall`s. Proofs about ordering, and about which calls happen at all, are statements about that log.

Modules:

- `Wrappers`: `Option` and `Result`.
- `Livekit`: opaque handles for tracks, publications and rooms, the JWT grant, and the `EngineCall` log entries.
- `TokenServer`: the three request handlers and `LoadConfig`, as pure functions.
- `TokenClient`: `getToken`'s mapping from response to token or error, and the exchange with the server end to end.
- `ClientConfig`: `configureUrls`. The class `UrlConfig` holds the two module-level URL cells.
- `Cookies`: the `accessToken` regular expression, written out as a scan.
- `LocalMedia`: track selection and the mute/unmute decision. Both the provider and the component use it.
- `MediaContext`: the class `MediaProvider` and `useMedia`.
- `RemoteTracks`: the subscribe and unsubscribe list updates, and what a whole stream of room events leaves behind.
- `Session`: the component state as a value, one function per handler, and the lemmas about them.
- `AppComponent`: the class `App`, whose fields are the component's `useState` cells. Every handler method is proved to move `State()` exactly as the matching `Session` function does.

## Model

| member | source | states |
|---|---|---|
| TokenServer.EnvOr | application-server/index.js:7-9 | an unset or empty variable yields the fallback; any other value is used as is |
| TokenServer.LoadConfig | application-server/index.js:7-9 | key and secret come from `LIVEKIT_API_KEY`/`LIVEKIT_API_SECRET` or their defaults; the port is the number 6080 when `SERVER_PORT` is unset or empty, whatever the other variables hold, and the variable's own string otherwise |
| TokenServer.DefaultsWhenUnset | application-server/index.js:7-9 | with no variables set the configuration is port 6080, key "devkey", secret "secret" |
| TokenServer.Truthy | application-server/index.js:35-62 | defines JavaScript truthiness of a string body field, as the `/check-token` test at line 35 and the `/token` test at line 62 use it: present and not the empty string |
| TokenServer.HandleToken | application-server/index.js:58-73 | status 400 with "roomName and participantName are required" iff either field is falsy, in which case no token is issued; otherwise 200 and a token signed with the configured key and secret whose grant has the participant as identity, roomJoin true and the requested room |
| TokenServer.TokenGrantMatchesRequest | application-server/index.js:67-72 | a request with both names yields a 200 token whose grant is exactly (participantName, true, roomName) |
| TokenServer.HandleCheckToken | application-server/index.js:25-56 | 401 iff the Authorization header is missing or empty; else 400 iff classId, className or classStartTime is falsy; else 200 with the request's classId and user id "1234" |
| TokenServer.CheckTokenHeaderFirst | application-server/index.js:26-30 | without the header the response does not depend on the body at all |
| TokenServer.CourseNameIgnored | application-server/index.js:34-38 | setting, changing or removing courseName never changes the answer, although the error message names it |
| TokenServer.HandleWebhook | application-server/index.js:77-85 | the answer is an empty 200 whether or not the event validates |
| TokenClient.GetToken | application-client/src/App.tsx:175-191 | a rejected fetch or an unparsable body is an error; a status outside 200-299 is the error "Failed to get token: " followed by the server's errorMessage, rendered "undefined" when absent; an ok status yields the body's token field; the result is a token iff the status is ok and the body parses |
| TokenClient.IsOk | application-client/src/App.tsx:184 | defines `response.ok`: the status lies in 200-299 |
| TokenClient.Rendered | application-client/src/App.tsx:186 | defines how `${error.errorMessage}` renders the field: its text when present, "undefined" when absent |
| TokenClient.TokenRequest | application-client/src/App.tsx:176-182 | defines the request getToken sends: no Authorization header and a body holding exactly roomName and participantName |
| TokenClient.OverTheWire | application-server/index.js:52-84 | defines what `response.json()` (App.tsx:185, 189) reads of each server answer: the `errorMessage` of a 400, the `token` of a 200, neither for the check-token body, and an unparsable body for the webhook's empty `send()` |
| TokenClient.TokenExchange | application-client/src/App.tsx:175-191 | client and server together: both names present yields the token granting the participant entry to that room; either empty yields the rejection carrying the server's message |
| TokenClient.RejectedWithServerMessage | application-client/src/App.tsx:184-187 | a 401 with errorMessage "bad identity" becomes the error "Failed to get token: bad identity" |
| ClientConfig.UrlsFollowHostName | application-client/src/App.tsx:29-40 | the "localhost" special case gives the same URLs as the general "http://host:6080/" and "ws://host:7880/" |
| ClientConfig.ServerUrlFor | application-client/src/App.tsx:31-33 | defines the token server URL for a host name: "http://localhost:6080/" for "localhost", else "http://" + host + ":6080/" |
| ClientConfig.LivekitUrlFor | application-client/src/App.tsx:37-38 | defines the media server URL for a host name: "ws://localhost:7880/" for "localhost", else "ws://" + host + ":7880/" |
| ClientConfig.Configured | application-client/src/App.tsx:29-40 | afterwards both URLs are non-empty; a URL that was already set is kept, and an empty one becomes the URL derived from the host name |
| ClientConfig.ConfigureOnce | application-client/src/App.tsx:29-40 | configuring a second time, with any host name, changes nothing |
| ClientConfig.ConfiguredOnLoad | application-client/src/App.tsx:25-27 | starting from the two empty cells, both URLs are derived from the host name |
| ClientConfig.UrlConfig.constructor | application-client/src/App.tsx:25-26 | both module-level URL cells start empty |
| ClientConfig.UrlConfig.ConfigureUrls | application-client/src/App.tsx:29-40 | the two cells become `Configured` of their old values |
| Cookies.SkipSpaces | application-client/src/App.tsx:42 | the `\s*` step: it stops at the first non-space and skips only spaces |
| Cookies.IsSpace | application-client/src/App.tsx:42 | defines the characters `\s` matches: the JavaScript WhiteSpace and LineTerminator code points |
| Cookies.ValueStart | application-client/src/App.tsx:42 | where `accessToken\s*\=\s*` ends when it matches at a position; when it does, the key is there and the value starts after it |
| Cookies.ValueEnd | application-client/src/App.tsx:42 | the `[^;]*` step: it stops at the first ';' or at the end |
| Cookies.ValueAt | application-client/src/App.tsx:42 | the captured group `([^;]*)`: it never contains ';' |
| Cookies.EntryAfterSemicolon | application-client/src/App.tsx:42 | defines where `;\s*accessToken\s*=` matches: a ';' followed by optional spaces and a matching key and '=' |
| Cookies.HasEntry | application-client/src/App.tsx:42 | defines "the string has an `accessToken` entry": the first alternative can match, at the start or after some ';' |
| Cookies.LastEntry | application-client/src/App.tsx:42 | the greedy `.*;` choice: the last `accessToken` entry that follows a ';', or none |
| Cookies.AccessTokenFromCookies | application-client/src/App.tsx:42 | the extracted value never contains ';', and it is "" when there is no `accessToken` entry |
| Cookies.NoKeyYieldsEmpty | application-client/src/App.tsx:42 | a cookie string that never mentions accessToken yields "" |
| Cookies.LeadingEntryWins | application-client/src/App.tsx:42 | an entry at the very start of the string yields its value up to the next ';' |
| Cookies.EntryAfterOtherCookies | application-client/src/App.tsx:42 | an entry after other cookies, followed by none, yields its value |
| Cookies.LastEntryWinsAnyBefore | application-client/src/App.tsx:42 | the greedy `.*;`: whatever precedes the last entry, earlier `accessToken` entries included, its value is extracted unless an entry starts the string |
| Cookies.SecondEntryWins | application-client/src/App.tsx:42 | "x=1; accessToken=" + first + "; accessToken=" + second yields second, not first |
| Cookies.TypicalCookieString | application-client/src/App.tsx:42 | "theme=dark; accessToken=" + token + "; lang=en" yields the token, for any token without ';' that does not start with a space ("abc123", say) |
| LocalMedia.FindIndex | application-client/src/App.tsx:68-69 | `find`'s position: no earlier track has the kind, and the one found does |
| LocalMedia.FirstOfKind | application-client/src/App.tsx:68-69 | none iff no track has the kind; otherwise the first track of that kind |
| LocalMedia.Acquired | application-client/src/App.tsx:64-76 | a rejected createLocalTracks leaves both slots as they were |
| LocalMedia.AcquiredFirstOfEachKind | application-client/src/App.tsx:64-76 | each slot takes the first track of its kind, and a missing kind leaves its slot untouched |
| LocalMedia.Toggled | application-client/src/App.tsx:78-90 | defines a toggle: without a track, the same flag and no call; with one, the negated flag and mute when the flag was on, unmute when it was off (also application-client/src/context/MediaContext.tsx:39-51) |
| LocalMedia.ToggleWithoutTrack | application-client/src/App.tsx:78-90 | with no track, the flag is kept and no call is made |
| LocalMedia.ToggleWithTrack | application-client/src/App.tsx:78-90 | with a track, the flag flips and the call is mute iff the flag was on, unmute iff it was off |
| LocalMedia.ToggleTwiceRestores | application-client/src/App.tsx:78-90 | two toggles restore the flag and issue a mute and an unmute |
| MediaContext.MediaProvider.constructor | application-client/src/context/MediaContext.tsx:16-19 | both flags on, both slots empty, no calls |
| MediaContext.MediaProvider.StartPreview | application-client/src/context/MediaContext.tsx:21-37 | one createLocalTracks call; the slots become `Acquired` of the old slots; the flags are unchanged |
| MediaContext.MediaProvider.ToggleCamera | application-client/src/context/MediaContext.tsx:39-44 | only isCameraOn and the call log change, as `Toggled` decides for the video slot |
| MediaContext.MediaProvider.ToggleMicrophone | application-client/src/context/MediaContext.tsx:46-51 | only isMicOn and the call log change, as `Toggled` decides for the audio slot |
| MediaContext.UseMedia | application-client/src/context/MediaContext.tsx:62-68 | an error with the provider message iff there is no context; otherwise the context unchanged |
| RemoteTracks.Subscribed | application-client/src/App.tsx:137-145 | exactly one entry {publication, identity} is appended at the end, and the earlier entries are unchanged |
| RemoteTracks.Unsubscribed | application-client/src/App.tsx:147-149 | an entry survives iff it was there and its trackSid differs; the list never grows |
| RemoteTracks.UnsubscribedCounts | application-client/src/App.tsx:147-149 | every copy of a matching entry goes and every copy of the others stays |
| RemoteTracks.UnsubscribedConcat | application-client/src/App.tsx:147-149 | filtering works piecewise, so the relative order of the survivors is kept |
| RemoteTracks.UnsubscribeUnknown | application-client/src/App.tsx:147-149 | an unknown trackSid leaves the list unchanged |
| RemoteTracks.Handled | application-client/src/App.tsx:137-149 | defines which listener a room event runs: a subscription appends through `Subscribed`, an unsubscription filters through `Unsubscribed` |
| RemoteTracks.ReplayedIsLive | application-client/src/App.tsx:137-149 | after a stream of events: the earlier entries the stream does not unsubscribe, then, in arrival order, the stream's subscriptions that no later event unsubscribes |
| RemoteTracks.RegistryHoldsLiveTracks | application-client/src/App.tsx:137-149 | from an empty list, the list holds exactly the live subscriptions |
| RemoteTracks.SubscribeThenUnsubscribe | application-client/src/App.tsx:137-149 | subscribe alone leaves one entry; subscribe then unsubscribe leaves none |
| Session.Initial | application-client/src/App.tsx:45-52 | defines the `useState` initial values: no room, no tracks, not authenticated, both flags on |
| Session.PreviewStarted | application-client/src/App.tsx:64-76 | defines startPreview on the state: one createLocalTracks call, the slots become `Acquired` of the old slots |
| Session.CameraToggled | application-client/src/App.tsx:78-83 | defines toggleCamera on the state: `Toggled` for isCameraOn and the video slot, its call appended to the log |
| Session.MicrophoneToggled | application-client/src/App.tsx:85-90 | defines toggleMicrophone on the state: `Toggled` for isMicOn and the audio slot, its call appended to the log |
| Session.ToggleWithoutTrackIsNoOp | application-client/src/App.tsx:78-90 | with the device's track missing, its toggle changes nothing at all |
| Session.ToggleWithTrackFlips | application-client/src/App.tsx:78-90 | with the track present, the flag flips and exactly one mute (flag was on) or unmute (flag was off) is logged; nothing else changes |
| Session.TogglesRestoreAndStayIndependent | application-client/src/App.tsx:78-90 | two presses restore the flag; a toggle never changes the other flag, the slots, the room or the remote tracks |
| Session.Authentication | application-client/src/App.tsx:92-110 | defines the new flag: false without a token, unchanged when the profile fetch rejects, otherwise whether the status is 200 |
| Session.TeacherDetailsFetched | application-client/src/App.tsx:92-110 | defines fetchTeacherDetails on the state: the token from the cookie, a profile request only when it is non-empty, the flag from `Authentication` |
| Session.AuthenticatedIff | application-client/src/App.tsx:92-110 | once the profile request answers, isAuthenticated is true iff the extracted token is non-empty and the status is exactly 200 |
| Session.NoTokenNoRequest | application-client/src/App.tsx:92-110 | with no accessToken entry in the cookie string, no profile request is made and only the flag changes, to false |
| Session.TrackSubscribedIn | application-client/src/App.tsx:137-145 | defines the TrackSubscribed listener on the state: only the remote tracks change, to `Subscribed` of the old list |
| Session.TrackUnsubscribedIn | application-client/src/App.tsx:147-149 | defines the TrackUnsubscribed listener on the state: only the remote tracks change, to `Unsubscribed` by the publication's trackSid |
| Session.DisconnectOf | application-client/src/App.tsx:168 | defines the call `room?.disconnect()` makes: one disconnect of the room when present, none when absent |
| Session.Left | application-client/src/App.tsx:167-173 | defines leaveRoom for the room value its closure holds: a disconnect call when that room is present; a rejected disconnect stops before any setter; otherwise room, both slots and the remote tracks are cleared |
| Session.LeaveClears | application-client/src/App.tsx:167-173 | unless a disconnect is attempted and rejects, leaving clears the room, both slots and the remote tracks; the flags are untouched |
| Session.LeaveTwice | application-client/src/App.tsx:167-173 | a second leave after a completed one changes nothing and makes no call |
| Session.TryCalls | application-client/src/App.tsx:151-160 | defines the calls of the try block: none without a token; otherwise connect, then each present track's publish, stopping after the first call that rejects |
| Session.PublishOf | application-client/src/App.tsx:155-160 | defines the publish call for a local track slot: one publish to the room when present, none when absent |
| Session.JoinSucceeds | application-client/src/App.tsx:151-161 | defines when the try block ends without reaching the catch: a token is obtained, connect resolves, and each present track's publish resolves |
| Session.Attempted | application-client/src/App.tsx:133-160 | defines the state when the try block ends: the new room set, the room counter advanced, NewRoom, the token request and `TryCalls` appended to the log |
| Session.JoinRoom | application-client/src/App.tsx:133-165 | defines joinRoom: `Attempted`, followed by `Left` with the room from before the join when some step rejected |
| Session.TryCallsInOrder | application-client/src/App.tsx:151-160 | an unobtainable token means no call; otherwise the calls are a prefix of connect, publish video, publish audio, and all of them when every step resolves |
| Session.PublishOnlyAfterConnect | application-client/src/App.tsx:151-160 | every publish targets the new room and follows its successful connect; the video publish comes right after the connect and the audio publish last |
| Session.NoLocalTracksNoPublish | application-client/src/App.tsx:155-160 | with neither local track present, joining makes no publish call |
| Session.JoinStartsWithRoomAndToken | application-client/src/App.tsx:133-152 | the join first creates the new room and then requests the token from the server URL + "token"; earlier log entries are kept |
| Session.JoinSuccessKeepsTracks | application-client/src/App.tsx:133-160 | when every step resolves, only the room (now the new one), the room counter and the log change |
| Session.JoinFailureClears | application-client/src/App.tsx:161-173 | when the token, connect or a publish fails, and leaveRoom's disconnect of the earlier room does not reject, the room, both slots and the remote tracks end cleared as after an explicit leave; the flags are untouched |
| Session.JoinDisconnectsOnlyEarlierRoom | application-client/src/App.tsx:161-168 | every disconnect a join makes is of the room from before the join; with no earlier room, the room the join creates is never disconnected |
| Session.JoinIgnoresAuthentication | application-client/src/App.tsx:133-165 | the join's effect does not depend on isAuthenticated |
| Session.JoinWithoutLocalTracks | application-client/src/App.tsx:216 | from the initial state, joinRoom("TestRoom", "User123") with a delivered token and a resolving connect ends in the connected room with no remote tracks, after exactly three calls and no publish |
| AppComponent.TryBlock | application-client/src/App.tsx:151-160 | the calls made equal `TryCalls`, and it reports failure iff some step rejected |
| AppComponent.App.constructor | application-client/src/App.tsx:45-52 | the initial state: no room, no tracks, not authenticated, both flags on |
| AppComponent.App.StartPreview | application-client/src/App.tsx:64-76 | the state becomes `Session.PreviewStarted` of the old state |
| AppComponent.App.ToggleCamera | application-client/src/App.tsx:78-83 | the state becomes `Session.CameraToggled` of the old state |
| AppComponent.App.ToggleMicrophone | application-client/src/App.tsx:85-90 | the state becomes `Session.MicrophoneToggled` of the old state |
| AppComponent.App.FetchTeacherDetails | application-client/src/App.tsx:92-110 | the state becomes `Session.TeacherDetailsFetched` of the old state |
| AppComponent.App.OnTrackSubscribed | application-client/src/App.tsx:137-145 | the remote tracks become `Subscribed` of the old list |
| AppComponent.App.OnTrackUnsubscribed | application-client/src/App.tsx:147-149 | the remote tracks become `Unsubscribed` of the old list |
| AppComponent.App.Leave | application-client/src/App.tsx:167-173 | the state becomes `Session.Left` for the room value the closure saw |
| AppComponent.App.LeaveRoom | application-client/src/App.tsx:167-173 | the state becomes `Session.Left` for the current room |
| AppComponent.App.JoinRoom | application-client/src/App.tsx:133-165 | the state becomes `Session.JoinRoom` of the old state and the configured URLs |

## Behaviour of the code worth knowing

- The room is either absent or present; nothing else records where a session is.
- joinRoom has no guard against a second join and does not check `isAuthenticated`. Every call creates a new `Room` (App.tsx:133-135, 216; `Session.JoinIgnoresAuthentication`).
- leaveRoom does not always clear the state. When `room.disconnect()` rejects, it throws before any setter runs (App.tsx:167-173; `Session.Left`, `Session.LeaveClears`).
- A failed join calls leaveRoom through the closure of the render that started the join. That leaveRoom disconnects the room from before the join, or nothing, so the freshly created room is never disconnected (App.tsx:161-168; `Session.JoinDisconnectsOnlyEarlierRoom`).
- Remote track entries are kept by arrival, not by trackSid. A repeated subscribe adds a second entry, and one unsubscribe removes both (App.tsx:137-149; `RemoteTracks.UnsubscribedCounts`).
- `App.tsx` never calls `updateLiveClassStatus`, and that function in `statusUpdate.ts` rethrows its failure.

## Left out

- React rendering and routing are not modelled. This covers the JSX of `App.tsx`, `PreviewScreen.tsx`, `LiveClass.tsx` and `main.tsx`. They only read the state modelled here.
- `statusUpdate.ts` is a single PUT request, which is I/O. It rethrows on failure.
- `fetchClassDetails` and the `classDetails` state are left out. They are a fetch whose result nothing in the model reads.
- Every HTTP transport, the profile endpoint and its URL, and `window.location` are left out. Responses are abstract inputs: status and body, or a rejected fetch. The host name is a parameter.
- livekit-client internals are left out: `Room`, `connect`, `disconnect`, `publishTrack`, `createLocalTracks`, and the device effect of mute and unmute. Each call is an entry in the call log, and its outcome is an input.
- The JWT signing of `AccessToken.toJwt` (RFC 7519) is not modelled. A token is the opaque value of the key, the secret and the grant.
- `WebhookReceiver.receive` is a foreign call. Whether the event validates is a boolean input.
- Express, CORS, body parsing and `app.listen` are server plumbing and are left out.
- The `/check-token` handler's `authHeader.split(" ")[1]` is computed but never used. It is not modelled.
- The `/check-token` 401 "Invalid token" branch is not modelled. It sits behind the constant `verifyToken = true`, so it can never run.
- Request body fields are strings or absent. Non-string JSON values, such as numbers, and their truthiness are not modelled.
- TokenClient.GetToken: the response's `token` and `errorMessage` fields are taken to be absent or of their expected type. A body that parses to `null` or to a non-object cannot be expressed. On such a body `error.errorMessage` throws a TypeError, not the "Failed to get token: " error.
- Async interleaving is not modelled. Room events that arrive while `joinRoom` or `leaveRoom` is suspended, and two overlapping joins, are out of reach. The model runs each handler to completion, and room events form one sequential stream.
- The `accessToken` regular expression is modelled with `.` matching every character. Line terminators, where JavaScript's `.` stops, are not modelled. A cookie string does not contain them.
- The toggle functions in the `MediaProvider` context value are left out of `MediaContextValue`. They are the methods of the class.
- Session.JoinFailureClears: cleared state after a failed join is promised only when leaveRoom's disconnect does not reject. The code throws at that await before any setter runs.
