/**
 * The session state of the `App` component (application-client/src/App.tsx) as a value, and
 * the effect of each of its operations on that value. The class `AppComponent.App` holds the same
 * state in fields and is proved to follow these definitions; the lemmas below state what the
 * operations promise.
 */
module Session {
  import opened Wrappers
  import opened Livekit
  import opened LocalMedia
  import opened RemoteTracks
  import opened TokenClient
  import opened Cookies
  import ClientConfig

  /** The component's state cells, with the log of calls made into the engine. */
  datatype AppState = AppState(
    room: Option<Room>,
    localVideoTrack: Option<LocalTrack>,
    localAudioTrack: Option<LocalTrack>,
    remoteTracks: seq<TrackInfo>,
    isAuthenticated: bool,
    isMicOn: bool,
    isCameraOn: bool,
    roomsCreated: nat,
    log: seq<EngineCall>)

  /** The `useState` initial values. */
  function Initial(): AppState {
    AppState(None, None, None, [], false, true, true, 0, [])
  }

  /** The outcome of every asynchronous step `joinRoom` (and the `leaveRoom` it may call) awaits. */
  datatype JoinOutcomes = JoinOutcomes(
    tokenFetch: Option<TokenResponse>,  // `None`: the fetch itself rejected
    connectOk: bool,
    videoPublishOk: bool,
    audioPublishOk: bool,
    disconnectOk: bool)

  // ---- startPreview and the toggles ----

  function PreviewStarted(s: AppState, created: Option<seq<LocalTrack>>): AppState {
    var slots := Acquired((s.localVideoTrack, s.localAudioTrack), created);
    s.(localVideoTrack := slots.0, localAudioTrack := slots.1, log := s.log + [CreateLocalTracks])
  }

  function CameraToggled(s: AppState): AppState {
    var t := Toggled(s.isCameraOn, s.localVideoTrack);
    s.(isCameraOn := t.0, log := s.log + Issued(t.1))
  }

  function MicrophoneToggled(s: AppState): AppState {
    var t := Toggled(s.isMicOn, s.localAudioTrack);
    s.(isMicOn := t.0, log := s.log + Issued(t.1))
  }

  /** A device whose track is missing ignores its button. */
  lemma ToggleWithoutTrackIsNoOp(s: AppState)
    ensures s.localVideoTrack.None? ==> CameraToggled(s) == s
    ensures s.localAudioTrack.None? ==> MicrophoneToggled(s) == s
  {
  }

  /** With the track present: mute exactly when the flag was on, unmute otherwise, and the flag flips. */
  lemma ToggleWithTrackFlips(s: AppState)
    ensures s.localVideoTrack.Some? ==>
      CameraToggled(s) == s.(isCameraOn := !s.isCameraOn,
        log := s.log + [if s.isCameraOn then Mute(s.localVideoTrack.value) else Unmute(s.localVideoTrack.value)])
    ensures s.localAudioTrack.Some? ==>
      MicrophoneToggled(s) == s.(isMicOn := !s.isMicOn,
        log := s.log + [if s.isMicOn then Mute(s.localAudioTrack.value) else Unmute(s.localAudioTrack.value)])
  {
  }

  /** Two presses restore the flag; the slots and the other device's flag never change. */
  lemma TogglesRestoreAndStayIndependent(s: AppState)
    ensures CameraToggled(CameraToggled(s)).isCameraOn == s.isCameraOn
    ensures MicrophoneToggled(MicrophoneToggled(s)).isMicOn == s.isMicOn
    ensures CameraToggled(s).(isCameraOn := s.isCameraOn, log := s.log) == s
    ensures MicrophoneToggled(s).(isMicOn := s.isMicOn, log := s.log) == s
  {
    ToggleTwiceRestores(s.isCameraOn, s.localVideoTrack);
    ToggleTwiceRestores(s.isMicOn, s.localAudioTrack);
  }

  // ---- fetchTeacherDetails ----

  /**
   * The `isAuthenticated` flag after fetchTeacherDetails. `profileStatus` is the profile
   * response's status, or `None` when the fetch rejected, which leaves the flag as it was.
   */
  function Authentication(accessToken: string, profileStatus: Option<int>, was: bool): bool {
    if accessToken == "" then false
    else match profileStatus
      case None => was
      case Some(status) => status == 200
  }

  function TeacherDetailsFetched(s: AppState, cookie: string, profileStatus: Option<int>): AppState {
    var token := AccessTokenFromCookies(cookie);
    s.(isAuthenticated := Authentication(token, profileStatus, s.isAuthenticated),
       log := s.log + if token == "" then [] else [FetchProfile(token)])
  }

  /** Once the profile request answers, the flag is set iff the token cookie is non-empty and the status is exactly 200. */
  lemma AuthenticatedIff(s: AppState, cookie: string, status: int)
    ensures TeacherDetailsFetched(s, cookie, Some(status)).isAuthenticated
        <==> AccessTokenFromCookies(cookie) != "" && status == 200
  {
  }

  /** Without an access token no profile request is made and the flag is cleared. */
  lemma NoTokenNoRequest(s: AppState, cookie: string, profileStatus: Option<int>)
    requires !HasEntry(cookie)
    ensures TeacherDetailsFetched(s, cookie, profileStatus) == s.(isAuthenticated := false)
  {
  }

  // ---- room events ----

  function TrackSubscribedIn(s: AppState, publication: TrackPublication, participantIdentity: string): AppState {
    s.(remoteTracks := Subscribed(s.remoteTracks, publication, participantIdentity))
  }

  function TrackUnsubscribedIn(s: AppState, publication: TrackPublication): AppState {
    s.(remoteTracks := Unsubscribed(s.remoteTracks, publication.trackSid))
  }

  // ---- leaveRoom ----

  /** The disconnect call `room?.disconnect()` makes for the room value `seen`. */
  function DisconnectOf(seen: Option<Room>): seq<EngineCall> {
    match seen
    case None => []
    case Some(r) => [Disconnect(r)]
  }

  /**
   * leaveRoom, where `seen` is the `room` value its closure reads. A rejected disconnect
   * throws before any setter runs.
   */
  function Left(s: AppState, seen: Option<Room>, disconnectOk: bool): AppState {
    var s1 := s.(log := s.log + DisconnectOf(seen));
    if seen.Some? && !disconnectOk then s1
    else s1.(room := None, localVideoTrack := None, localAudioTrack := None, remoteTracks := [])
  }

  /** No room, no local tracks, no remote tracks. */
  predicate Cleared(s: AppState) {
    s.room.None? && s.localVideoTrack.None? && s.localAudioTrack.None? && s.remoteTracks == []
  }

  /** Leaving clears the session unless a disconnect is attempted and rejects; the flags stay. */
  lemma LeaveClears(s: AppState, disconnectOk: bool)
    ensures var t := Left(s, s.room, disconnectOk);
      && (s.room.None? || disconnectOk ==> Cleared(t))
      && t.isCameraOn == s.isCameraOn && t.isMicOn == s.isMicOn && t.isAuthenticated == s.isAuthenticated
  {
  }

  /** Leaving twice is leaving once: the second leave sees no room and makes no call. */
  lemma LeaveTwice(s: AppState, first: bool, second: bool)
    requires s.room.None? || first
    ensures var t := Left(s, s.room, first); Left(t, t.room, second) == t
  {
  }

  // ---- joinRoom ----

  /** The publish call for a local track slot, if it holds a track. */
  function PublishOf(r: Room, slot: Option<LocalTrack>): seq<EngineCall> {
    match slot
    case None => []
    case Some(t) => [Publish(r, t)]
  }

  /** Whether joinRoom's try block runs to its end. */
  predicate JoinSucceeds(video: Option<LocalTrack>, audio: Option<LocalTrack>, o: JoinOutcomes) {
    && GetToken(o.tokenFetch).Ok?
    && o.connectOk
    && (video.Some? ==> o.videoPublishOk)
    && (audio.Some? ==> o.audioPublishOk)
  }

  /** The calls joinRoom's try block makes after the token request, up to the first that rejects. */
  function TryCalls(r: Room, livekitUrl: string, video: Option<LocalTrack>, audio: Option<LocalTrack>, o: JoinOutcomes)
    : seq<EngineCall>
  {
    match GetToken(o.tokenFetch)
    case Err(_) => []
    case Ok(token) =>
      var connect := [Connect(r, livekitUrl, token)];
      if !o.connectOk then connect
      else if video.Some? && !o.videoPublishOk then connect + PublishOf(r, video)
      else connect + PublishOf(r, video) + PublishOf(r, audio)
  }

  /** The state when joinRoom's try block has ended, at its last call or at the first rejection. */
  function Attempted(s: AppState, urls: ClientConfig.Urls, roomName: string, participantName: string, o: JoinOutcomes)
    : AppState
  {
    var r := Room(s.roomsCreated);
    s.(room := Some(r),
       roomsCreated := s.roomsCreated + 1,
       log := s.log + [NewRoom(r), FetchToken(urls.applicationServer + "token", roomName, participantName)]
                    + TryCalls(r, urls.livekit, s.localVideoTrack, s.localAudioTrack, o))
  }

  /**
   * joinRoom(roomName, participantName): a new room is set, the token is requested, and the try
   * block runs; on any rejection leaveRoom runs with the room value from before the join.
   */
  function JoinRoom(s: AppState, urls: ClientConfig.Urls, roomName: string, participantName: string, o: JoinOutcomes)
    : AppState
  {
    var attempted := Attempted(s, urls, roomName, participantName, o);
    if JoinSucceeds(s.localVideoTrack, s.localAudioTrack, o) then attempted
    else Left(attempted, s.room, o.disconnectOk)
  }

  /** The calls of the try block come in the order connect, publish video, publish audio, cut short by a rejection. */
  lemma TryCallsInOrder(r: Room, url: string, video: Option<LocalTrack>, audio: Option<LocalTrack>, o: JoinOutcomes)
    ensures GetToken(o.tokenFetch).Err? ==> TryCalls(r, url, video, audio, o) == []
    ensures GetToken(o.tokenFetch).Ok? ==>
      TryCalls(r, url, video, audio, o) <= [Connect(r, url, GetToken(o.tokenFetch).value)] + PublishOf(r, video) + PublishOf(r, audio)
    ensures JoinSucceeds(video, audio, o) ==>
      TryCalls(r, url, video, audio, o) == [Connect(r, url, GetToken(o.tokenFetch).value)] + PublishOf(r, video) + PublishOf(r, audio)
  {
    if GetToken(o.tokenFetch).Ok? {
      var full := [Connect(r, url, GetToken(o.tokenFetch).value)] + PublishOf(r, video) + PublishOf(r, audio);
      var calls := TryCalls(r, url, video, audio, o);
      assert calls == full[..|calls|];
    }
  }

  /**
   * Every publish follows a successful connect of the new room and publishes one of the local
   * tracks: the video track right after the connect, the audio track last.
   */
  lemma PublishOnlyAfterConnect(r: Room, url: string, video: Option<LocalTrack>, audio: Option<LocalTrack>, o: JoinOutcomes)
    ensures var calls := TryCalls(r, url, video, audio, o);
      forall i :: 0 <= i < |calls| && calls[i].Publish? ==>
        && 0 < i && calls[0].Connect? && calls[0].room == r && o.connectOk
        && calls[i].room == r
        && i <= 2
        && (i == 1 && video.Some? ==> calls[1].track == video.value)
        && (i == 1 && video.None? ==> calls[1].track == audio.value)
        && (i == 2 ==> video.Some? && audio.Some? && calls[1] == Publish(r, video.value) && calls[2].track == audio.value)
  {
  }

  /** With neither local track present there is no publish call at all. */
  lemma NoLocalTracksNoPublish(s: AppState, urls: ClientConfig.Urls, roomName: string, participantName: string, o: JoinOutcomes)
    requires s.localVideoTrack.None? && s.localAudioTrack.None?
    ensures var log := JoinRoom(s, urls, roomName, participantName, o).log;
      forall i :: |s.log| <= i < |log| ==> !log[i].Publish?
  {
  }

  /** The join starts by creating the room and requesting the token from the server URL. */
  lemma JoinStartsWithRoomAndToken(s: AppState, urls: ClientConfig.Urls, roomName: string, participantName: string, o: JoinOutcomes)
    ensures var log := JoinRoom(s, urls, roomName, participantName, o).log;
      && |log| >= |s.log| + 2 && log[..|s.log|] == s.log
      && log[|s.log|] == NewRoom(Room(s.roomsCreated))
      && log[|s.log| + 1] == FetchToken(urls.applicationServer + "token", roomName, participantName)
  {
  }

  /** A join whose steps all resolve leaves the new room set and everything else as it was. */
  lemma JoinSuccessKeepsTracks(s: AppState, urls: ClientConfig.Urls, roomName: string, participantName: string, o: JoinOutcomes)
    requires JoinSucceeds(s.localVideoTrack, s.localAudioTrack, o)
    ensures var t := JoinRoom(s, urls, roomName, participantName, o);
      t == s.(room := Some(Room(s.roomsCreated)), roomsCreated := s.roomsCreated + 1, log := t.log)
  {
  }

  /**
   * A join that fails at the token, connect or publish step ends cleared, as an explicit leave
   * does, provided leaveRoom's own disconnect (of the room seen before the join) does not reject.
   */
  lemma JoinFailureClears(s: AppState, urls: ClientConfig.Urls, roomName: string, participantName: string, o: JoinOutcomes)
    requires !JoinSucceeds(s.localVideoTrack, s.localAudioTrack, o)
    requires s.room.None? || o.disconnectOk
    ensures var t := JoinRoom(s, urls, roomName, participantName, o);
      && Cleared(t)
      && t.isCameraOn == s.isCameraOn && t.isMicOn == s.isMicOn && t.isAuthenticated == s.isAuthenticated
      && t.(log := s.log, roomsCreated := s.roomsCreated) == Left(s, s.room, true).(log := s.log)
  {
  }

  /**
   * The only disconnect a join can make is of the room from before the join. When there was
   * none, the room the join creates is never disconnected, even when a later step rejects.
   */
  lemma JoinDisconnectsOnlyEarlierRoom(s: AppState, urls: ClientConfig.Urls, roomName: string, participantName: string, o: JoinOutcomes)
    ensures var calls := JoinRoom(s, urls, roomName, participantName, o).log[|s.log|..];
      && (forall c :: c in calls && c.Disconnect? ==> s.room == Some(c.room))
      && (s.room.None? ==> Disconnect(Room(s.roomsCreated)) !in calls)
  {
    JoinCallsSplit(s, urls, roomName, participantName, o);
    TryCallsConnectOrPublish(Room(s.roomsCreated), urls.livekit, s.localVideoTrack, s.localAudioTrack, o);
  }

  /** The calls a join makes: the room and token steps, the try block's calls, then leaveRoom's. */
  lemma JoinCallsSplit(s: AppState, urls: ClientConfig.Urls, roomName: string, participantName: string, o: JoinOutcomes)
    ensures JoinRoom(s, urls, roomName, participantName, o).log[|s.log|..]
      == [NewRoom(Room(s.roomsCreated)), FetchToken(urls.applicationServer + "token", roomName, participantName)]
         + TryCalls(Room(s.roomsCreated), urls.livekit, s.localVideoTrack, s.localAudioTrack, o)
         + (if JoinSucceeds(s.localVideoTrack, s.localAudioTrack, o) then [] else DisconnectOf(s.room))
  {
    var t := JoinRoom(s, urls, roomName, participantName, o);
    var calls := [NewRoom(Room(s.roomsCreated)), FetchToken(urls.applicationServer + "token", roomName, participantName)]
      + TryCalls(Room(s.roomsCreated), urls.livekit, s.localVideoTrack, s.localAudioTrack, o)
      + (if JoinSucceeds(s.localVideoTrack, s.localAudioTrack, o) then [] else DisconnectOf(s.room));
    assert t.log == s.log + calls;
  }

  /** The try block only connects and publishes. */
  lemma TryCallsConnectOrPublish(r: Room, url: string, video: Option<LocalTrack>, audio: Option<LocalTrack>, o: JoinOutcomes)
    ensures forall c :: c in TryCalls(r, url, video, audio, o) ==> c.Connect? || c.Publish?
  {
  }

  /** joinRoom does not look at `isAuthenticated`. */
  lemma JoinIgnoresAuthentication(s: AppState, urls: ClientConfig.Urls, roomName: string, participantName: string, o: JoinOutcomes, b: bool)
    ensures JoinRoom(s.(isAuthenticated := b), urls, roomName, participantName, o)
         == JoinRoom(s, urls, roomName, participantName, o).(isAuthenticated := b)
  {
    assert Attempted(s.(isAuthenticated := b), urls, roomName, participantName, o)
        == Attempted(s, urls, roomName, participantName, o).(isAuthenticated := b);
  }

  /**
   * Scenario: from the initial state, joinRoom("TestRoom", "User123"), as the join button calls
   * it, with the token delivered and the connect resolving reaches a connected room with no
   * remote tracks and no publish.
   */
  lemma JoinWithoutLocalTracks(urls: ClientConfig.Urls, token: Jwt, o: JoinOutcomes)
    requires o.tokenFetch == Some(TokenResponse(200, Some(TokenJson(Some(token), None)))) && o.connectOk
    ensures var t := JoinRoom(Initial(), urls, "TestRoom", "User123", o);
      && t.room == Some(Room(0)) && t.remoteTracks == []
      && t.log == [NewRoom(Room(0)), FetchToken(urls.applicationServer + "token", "TestRoom", "User123"),
                   Connect(Room(0), urls.livekit, Some(token))]
  {
  }
}
