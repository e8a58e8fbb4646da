/**
 * Local media logic shared by `startPreview`, `toggleCamera` and `toggleMicrophone`, which
 * application-client/src/App.tsx and application-client/src/context/MediaContext.tsx both
 * implement the same way.
 */
module LocalMedia {
  import opened Wrappers
  import opened Livekit

  /** The scan behind `tracks.find(t => t.kind === kind)`: the first index holding that kind, or |tracks|. */
  function FindIndex(tracks: seq<LocalTrack>, kind: TrackKind): (i: nat)
    ensures i <= |tracks|
    ensures forall j :: 0 <= j < i ==> tracks[j].kind != kind
    ensures i < |tracks| ==> tracks[i].kind == kind
  {
    if tracks == [] then 0
    else if tracks[0].kind == kind then 0
    else 1 + FindIndex(tracks[1..], kind)
  }

  /** `t` occurs in `tracks`, is of `kind`, and no earlier track is of `kind`. */
  ghost predicate IsFirstOfKind(tracks: seq<LocalTrack>, kind: TrackKind, t: LocalTrack) {
    exists i :: 0 <= i < |tracks| && tracks[i] == t && t.kind == kind && forall j :: 0 <= j < i ==> tracks[j].kind != kind
  }

  /** `tracks.find(t => t.kind === kind)`. */
  function FirstOfKind(tracks: seq<LocalTrack>, kind: TrackKind): (r: Option<LocalTrack>)
    ensures r.None? <==> forall t :: t in tracks ==> t.kind != kind
    ensures r.Some? ==> IsFirstOfKind(tracks, kind, r.value)
  {
    var i := FindIndex(tracks, kind);
    if i < |tracks| then Some(tracks[i]) else None
  }

  /**
   * startPreview's effect on the (video, audio) slots. `created` is what createLocalTracks
   * resolved to, or `None` when it rejected, which is caught and only logged.
   */
  function Acquired(slots: (Option<LocalTrack>, Option<LocalTrack>), created: Option<seq<LocalTrack>>)
    : (r: (Option<LocalTrack>, Option<LocalTrack>))
    ensures created.None? ==> r == slots
  {
    match created
    case None => slots
    case Some(tracks) =>
      var video := FirstOfKind(tracks, Video);
      var audio := FirstOfKind(tracks, Audio);
      (if video.Some? then video else slots.0, if audio.Some? then audio else slots.1)
  }

  /**
   * After a successful createLocalTracks, each slot holds the first created track of its kind;
   * a kind that was not created leaves its slot as it was.
   */
  lemma AcquiredFirstOfEachKind(slots: (Option<LocalTrack>, Option<LocalTrack>), tracks: seq<LocalTrack>)
    ensures var r := Acquired(slots, Some(tracks));
      && (r.0 != slots.0 ==> r.0.Some? && IsFirstOfKind(tracks, Video, r.0.value))
      && (r.1 != slots.1 ==> r.1.Some? && IsFirstOfKind(tracks, Audio, r.1.value))
      && ((exists t :: t in tracks && t.kind == Video) ==> r.0 == FirstOfKind(tracks, Video))
      && ((exists t :: t in tracks && t.kind == Audio) ==> r.1 == FirstOfKind(tracks, Audio))
      && ((forall t :: t in tracks ==> t.kind != Video) ==> r.0 == slots.0)
      && ((forall t :: t in tracks ==> t.kind != Audio) ==> r.1 == slots.1)
  {
  }

  /**
   * One press of a camera or microphone button: with no track nothing happens; otherwise the
   * track is muted when the flag is on and unmuted when it is off, and the flag flips.
   * Yields the new flag and the device call made, if any.
   */
  function Toggled(on: bool, track: Option<LocalTrack>): (r: (bool, Option<EngineCall>))
  {
    match track
    case None => (on, None)
    case Some(t) => (!on, Some(if on then Mute(t) else Unmute(t)))
  }

  /** The calls a toggle appends to the log. */
  function Issued(call: Option<EngineCall>): seq<EngineCall> {
    match call
    case None => []
    case Some(c) => [c]
  }

  /** Without a track a toggle changes nothing and calls nothing. */
  lemma ToggleWithoutTrack(on: bool)
    ensures Toggled(on, None) == (on, None)
  {
  }

  /** With a track, the call is mute exactly when the flag was on, and the flag is negated. */
  lemma ToggleWithTrack(on: bool, t: LocalTrack)
    ensures Toggled(on, Some(t)).0 == !on
    ensures Toggled(on, Some(t)).1.Some?
    ensures Toggled(on, Some(t)).1 == Some(Mute(t)) <==> on
    ensures Toggled(on, Some(t)).1 == Some(Unmute(t)) <==> !on
  {
  }

  /** Two presses restore the flag, and the second call undoes the first. */
  lemma ToggleTwiceRestores(on: bool, track: Option<LocalTrack>)
    ensures Toggled(Toggled(on, track).0, track).0 == on
    ensures track.Some? ==>
      {Toggled(on, track).1.value, Toggled(Toggled(on, track).0, track).1.value}
        == {Mute(track.value), Unmute(track.value)}
  {
  }
}
