/**
 * The `App` component (application-client/src/App.tsx) as an object: its `useState` cells are
 * fields, each handler a method that overwrites them, and every method is proved to move the
 * state exactly as the matching definition of `Session` says.
 */
module AppComponent {
  import opened Wrappers
  import opened Livekit
  import opened LocalMedia
  import opened RemoteTracks
  import opened TokenClient
  import opened Cookies
  import opened Session
  import ClientConfig

  /**
   * The try block of joinRoom after the token request: connect, then publish the video and the
   * audio track that are present, stopping at the first step that rejects. Returns the calls
   * made and whether a step rejected.
   */
  method TryBlock(r: Room, livekitUrl: string, video: Option<LocalTrack>, audio: Option<LocalTrack>, o: JoinOutcomes)
    returns (calls: seq<EngineCall>, failed: bool)
    ensures calls == TryCalls(r, livekitUrl, video, audio, o)
    ensures failed <==> !JoinSucceeds(video, audio, o)
  {
    calls := [];
    var token := GetToken(o.tokenFetch);
    failed := token.Err?;
    if !failed {
      calls := calls + [Connect(r, livekitUrl, token.value)];
      failed := !o.connectOk;
      if !failed && video.Some? {
        calls := calls + [Publish(r, video.value)];
        failed := !o.videoPublishOk;
      }
      if !failed && audio.Some? {
        calls := calls + [Publish(r, audio.value)];
        failed := !o.audioPublishOk;
      }
    }
  }

  class App {
    var room: Option<Room>
    var localVideoTrack: Option<LocalTrack>
    var localAudioTrack: Option<LocalTrack>
    var remoteTracks: seq<TrackInfo>
    var isAuthenticated: bool
    var isMicOn: bool
    var isCameraOn: bool
    /** How many `new Room()` objects this component has made; the next one is `Room(roomsCreated)`. */
    var roomsCreated: nat
    /** The calls made into the engine, the devices and the network, in order. */
    var log: seq<EngineCall>

    function State(): AppState
      reads this
    {
      AppState(room, localVideoTrack, localAudioTrack, remoteTracks, isAuthenticated, isMicOn, isCameraOn,
               roomsCreated, log)
    }

    constructor ()
      ensures State() == Initial()
    {
      room := None;
      localVideoTrack := None;
      localAudioTrack := None;
      remoteTracks := [];
      isAuthenticated := false;
      isMicOn := true;
      isCameraOn := true;
      roomsCreated := 0;
      log := [];
    }

    /** startPreview; `created` is what createLocalTracks resolved with, `None` if it rejected. */
    method StartPreview(created: Option<seq<LocalTrack>>)
      modifies this
      ensures State() == PreviewStarted(old(State()), created)
    {
      log := log + [CreateLocalTracks];
      if created.Some? {
        var videoTrack := FirstOfKind(created.value, Video);
        var audioTrack := FirstOfKind(created.value, Audio);
        if videoTrack.Some? {
          localVideoTrack := videoTrack;
        }
        if audioTrack.Some? {
          localAudioTrack := audioTrack;
        }
      }
    }

    method ToggleCamera()
      modifies this
      ensures State() == CameraToggled(old(State()))
    {
      if localVideoTrack.Some? {
        if isCameraOn {
          log := log + [Mute(localVideoTrack.value)];
        } else {
          log := log + [Unmute(localVideoTrack.value)];
        }
        isCameraOn := !isCameraOn;
      }
    }

    method ToggleMicrophone()
      modifies this
      ensures State() == MicrophoneToggled(old(State()))
    {
      if localAudioTrack.Some? {
        if isMicOn {
          log := log + [Mute(localAudioTrack.value)];
        } else {
          log := log + [Unmute(localAudioTrack.value)];
        }
        isMicOn := !isMicOn;
      }
    }

    /**
     * fetchTeacherDetails with the page's `document.cookie`; `profileStatus` is the profile
     * response's status, `None` when the fetch rejected.
     */
    method FetchTeacherDetails(cookie: string, profileStatus: Option<int>)
      modifies this
      ensures State() == TeacherDetailsFetched(old(State()), cookie, profileStatus)
    {
      var accessToken := AccessTokenFromCookies(cookie);
      if accessToken != "" {
        log := log + [FetchProfile(accessToken)];
        if profileStatus.Some? {
          if profileStatus.value == 200 {
            isAuthenticated := true;
          } else {
            isAuthenticated := false;
          }
        }
      } else {
        isAuthenticated := false;
      }
    }

    /** The room's TrackSubscribed listener. */
    method OnTrackSubscribed(publication: TrackPublication, participantIdentity: string)
      modifies this
      ensures State() == TrackSubscribedIn(old(State()), publication, participantIdentity)
    {
      remoteTracks := remoteTracks + [TrackInfo(publication, participantIdentity)];
    }

    /** The room's TrackUnsubscribed listener. */
    method OnTrackUnsubscribed(publication: TrackPublication)
      modifies this
      ensures State() == TrackUnsubscribedIn(old(State()), publication)
    {
      remoteTracks := Unsubscribed(remoteTracks, publication.trackSid);
    }

    /** The body of leaveRoom, for the room value `seen` its closure holds. */
    method Leave(seen: Option<Room>, disconnectOk: bool)
      modifies this
      ensures State() == Left(old(State()), seen, disconnectOk)
    {
      if seen.Some? {
        log := log + [Disconnect(seen.value)];
        if !disconnectOk {
          return;
        }
      }
      room := None;
      localVideoTrack := None;
      localAudioTrack := None;
      remoteTracks := [];
    }

    /** The Leave Room button. */
    method LeaveRoom(disconnectOk: bool)
      modifies this
      ensures State() == Left(old(State()), old(room), disconnectOk)
    {
      Leave(room, disconnectOk);
    }

    /** joinRoom(roomName, participantName) against the module-level URLs in `config`. */
    method JoinRoom(config: ClientConfig.UrlConfig, roomName: string, participantName: string, o: JoinOutcomes)
      modifies this
      ensures State() == Session.JoinRoom(old(State()), config.Value(), roomName, participantName, o)
    {
      ghost var before := State();
      var seen := room;
      var newRoom := Room(roomsCreated);
      roomsCreated := roomsCreated + 1;
      log := log + [NewRoom(newRoom)];
      room := Some(newRoom);
      log := log + [FetchToken(config.applicationServerUrl + "token", roomName, participantName)];
      var calls, failed := TryBlock(newRoom, config.livekitUrl, localVideoTrack, localAudioTrack, o);
      log := log + calls;
      assert State() == Attempted(before, config.Value(), roomName, participantName, o);
      if failed {
        Leave(seen, o.disconnectOk);
      }
    }
  }
}
