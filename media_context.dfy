/**
 * The media provider (application-client/src/context/MediaContext.tsx): four state cells that
 * `startPreview` and the two toggles overwrite, and the `useMedia` guard.
 */
module MediaContext {
  import opened Wrappers
  import opened Livekit
  import opened LocalMedia

  /** The value the provider hands to its consumers (the toggle functions aside). */
  datatype MediaContextValue = MediaContextValue(
    isCameraOn: bool,
    isMicOn: bool,
    localVideoTrack: Option<LocalTrack>,
    localAudioTrack: Option<LocalTrack>)

  class MediaProvider {
    var isCameraOn: bool
    var isMicOn: bool
    var localVideoTrack: Option<LocalTrack>
    var localAudioTrack: Option<LocalTrack>
    /** The device calls made so far, in order. */
    var calls: seq<EngineCall>

    function Value(): MediaContextValue
      reads this
    {
      MediaContextValue(isCameraOn, isMicOn, localVideoTrack, localAudioTrack)
    }

    /** Both flags start on and both slots empty. */
    constructor ()
      ensures Value() == MediaContextValue(true, true, None, None)
      ensures calls == []
    {
      isCameraOn := true;
      isMicOn := true;
      localVideoTrack := None;
      localAudioTrack := None;
      calls := [];
    }

    /** The mount effect: request camera and microphone, fill the slots that were found. */
    method StartPreview(created: Option<seq<LocalTrack>>)
      modifies this
      ensures calls == old(calls) + [CreateLocalTracks]
      ensures (localVideoTrack, localAudioTrack) == Acquired((old(localVideoTrack), old(localAudioTrack)), created)
      ensures isCameraOn == old(isCameraOn) && isMicOn == old(isMicOn)
    {
      calls := calls + [CreateLocalTracks];
      if created.Some? {
        var videoTrack := FirstOfKind(created.value, Video);
        var audioTrack := FirstOfKind(created.value, Audio);
        if videoTrack.Some? {
          localVideoTrack := videoTrack;
        }
        if audioTrack.Some? {
          localAudioTrack := audioTrack;
        }
      }
    }

    /** The camera button: only `isCameraOn` and the call log can change. */
    method ToggleCamera()
      modifies this
      ensures isCameraOn == Toggled(old(isCameraOn), localVideoTrack).0
      ensures calls == old(calls) + Issued(Toggled(old(isCameraOn), localVideoTrack).1)
      ensures isMicOn == old(isMicOn)
      ensures localVideoTrack == old(localVideoTrack) && localAudioTrack == old(localAudioTrack)
    {
      if localVideoTrack.Some? {
        if isCameraOn {
          calls := calls + [Mute(localVideoTrack.value)];
        } else {
          calls := calls + [Unmute(localVideoTrack.value)];
        }
        isCameraOn := !isCameraOn;
      }
    }

    /** The microphone button: only `isMicOn` and the call log can change. */
    method ToggleMicrophone()
      modifies this
      ensures isMicOn == Toggled(old(isMicOn), localAudioTrack).0
      ensures calls == old(calls) + Issued(Toggled(old(isMicOn), localAudioTrack).1)
      ensures isCameraOn == old(isCameraOn)
      ensures localVideoTrack == old(localVideoTrack) && localAudioTrack == old(localAudioTrack)
    {
      if localAudioTrack.Some? {
        if isMicOn {
          calls := calls + [Mute(localAudioTrack.value)];
        } else {
          calls := calls + [Unmute(localAudioTrack.value)];
        }
        isMicOn := !isMicOn;
      }
    }
  }

  const OutsideProvider := "useMedia must be used within a MediaProvider"

  /** `useMedia`: the nearest provider's value, or an error when there is none. */
  function UseMedia(context: Option<MediaContextValue>): (r: Result<MediaContextValue, string>)
    ensures r.Err? <==> context.None?
    ensures r.Err? ==> r.error == OutsideProvider
    ensures r.Ok? ==> r.value == context.value
  {
    match context
    case None => Err(OutsideProvider)
    case Some(value) => Ok(value)
  }
}
