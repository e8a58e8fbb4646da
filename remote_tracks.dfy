/**
 * The `remoteTracks` list of application-client/src/App.tsx and the two room-event handlers
 * that update it: `TrackSubscribed` appends one entry, `TrackUnsubscribed` filters out every
 * entry with the publication's `trackSid`.
 */
module RemoteTracks {
  import opened Livekit

  /** One subscribed remote track: `{trackPublication, participantIdentity}`. */
  datatype TrackInfo = TrackInfo(trackPublication: TrackPublication, participantIdentity: string)

  function SidOf(e: TrackInfo): string {
    e.trackPublication.trackSid
  }

  /** The TrackSubscribed handler: `[...prev, {trackPublication, participantIdentity}]`. */
  function Subscribed(tracks: seq<TrackInfo>, publication: TrackPublication, participantIdentity: string)
    : (r: seq<TrackInfo>)
    ensures |r| == |tracks| + 1
    ensures r[..|tracks|] == tracks
    ensures r[|tracks|] == TrackInfo(publication, participantIdentity)
  {
    tracks + [TrackInfo(publication, participantIdentity)]
  }

  /** The TrackUnsubscribed handler: `prev.filter(t => t.trackPublication.trackSid !== trackSid)`. */
  function Unsubscribed(tracks: seq<TrackInfo>, trackSid: string): (r: seq<TrackInfo>)
    ensures |r| <= |tracks|
    ensures forall e :: e in r <==> e in tracks && SidOf(e) != trackSid
  {
    if tracks == [] then []
    else (if SidOf(tracks[0]) != trackSid then [tracks[0]] else []) + Unsubscribed(tracks[1..], trackSid)
  }

  /** Unsubscribing removes every copy of each matching entry and keeps every copy of the rest. */
  lemma {:induction false} UnsubscribedCounts(tracks: seq<TrackInfo>, trackSid: string, e: TrackInfo)
    ensures multiset(Unsubscribed(tracks, trackSid))[e] == if SidOf(e) == trackSid then 0 else multiset(tracks)[e]
  {
    if tracks != [] {
      UnsubscribedCounts(tracks[1..], trackSid, e);
      assert tracks == [tracks[0]] + tracks[1..];
    }
  }

  /** Filtering works piecewise, so the surviving entries keep their relative order. */
  lemma {:induction false} UnsubscribedConcat(a: seq<TrackInfo>, b: seq<TrackInfo>, trackSid: string)
    ensures Unsubscribed(a + b, trackSid) == Unsubscribed(a, trackSid) + Unsubscribed(b, trackSid)
  {
    if a == [] {
      assert a + b == b;
    } else {
      assert (a + b)[1..] == a[1..] + b;
      UnsubscribedConcat(a[1..], b, trackSid);
    }
  }

  /** Unsubscribing a `trackSid` that no entry has leaves the list as it was. */
  lemma {:induction false} UnsubscribeUnknown(tracks: seq<TrackInfo>, trackSid: string)
    requires forall e :: e in tracks ==> SidOf(e) != trackSid
    ensures Unsubscribed(tracks, trackSid) == tracks
  {
    if tracks != [] {
      UnsubscribeUnknown(tracks[1..], trackSid);
      assert tracks == [tracks[0]] + tracks[1..];
    }
  }

  /** A subscription or an unsubscription reported by the room. */
  datatype RoomEvent =
    | TrackSubscribed(publication: TrackPublication, participantIdentity: string)
    | TrackUnsubscribed(publication: TrackPublication)

  /** The list after one event has been handled. */
  function Handled(tracks: seq<TrackInfo>, ev: RoomEvent): seq<TrackInfo> {
    match ev
    case TrackSubscribed(p, who) => Subscribed(tracks, p, who)
    case TrackUnsubscribed(p) => Unsubscribed(tracks, p.trackSid)
  }

  /** The list after a stream of events has been handled in order. */
  function Replayed(tracks: seq<TrackInfo>, events: seq<RoomEvent>): seq<TrackInfo>
    decreases |events|
  {
    if events == [] then tracks else Replayed(Handled(tracks, events[0]), events[1..])
  }

  /** The track sids some event of the stream unsubscribes. */
  function UnsubscribedSids(events: seq<RoomEvent>): set<string> {
    if events == [] then {}
    else (if events[0].TrackUnsubscribed? then {events[0].publication.trackSid} else {}) + UnsubscribedSids(events[1..])
  }

  /**
   * The reference meaning of a stream: in arrival order, the entry of every subscription that
   * no later event unsubscribes.
   */
  function Live(events: seq<RoomEvent>): seq<TrackInfo>
    decreases |events|
  {
    if events == [] then []
    else match events[0]
      case TrackSubscribed(p, who) =>
        (if p.trackSid in UnsubscribedSids(events[1..]) then [] else [TrackInfo(p, who)]) + Live(events[1..])
      case TrackUnsubscribed(_) => Live(events[1..])
  }

  /** The entries whose `trackSid` is not in `sids`, in order. */
  function WithoutSids(tracks: seq<TrackInfo>, sids: set<string>): seq<TrackInfo> {
    if tracks == [] then []
    else (if SidOf(tracks[0]) !in sids then [tracks[0]] else []) + WithoutSids(tracks[1..], sids)
  }

  lemma {:induction false} WithoutNoSids(tracks: seq<TrackInfo>)
    ensures WithoutSids(tracks, {}) == tracks
  {
    if tracks != [] {
      WithoutNoSids(tracks[1..]);
      assert tracks == [tracks[0]] + tracks[1..];
    }
  }

  lemma {:induction false} WithoutSidsConcat(a: seq<TrackInfo>, b: seq<TrackInfo>, sids: set<string>)
    ensures WithoutSids(a + b, sids) == WithoutSids(a, sids) + WithoutSids(b, sids)
  {
    if a == [] {
      assert a + b == b;
    } else {
      assert (a + b)[1..] == a[1..] + b;
      WithoutSidsConcat(a[1..], b, sids);
    }
  }

  lemma {:induction false} WithoutAfterUnsubscribed(tracks: seq<TrackInfo>, trackSid: string, sids: set<string>)
    ensures WithoutSids(Unsubscribed(tracks, trackSid), sids) == WithoutSids(tracks, {trackSid} + sids)
  {
    if tracks != [] {
      var head := if SidOf(tracks[0]) != trackSid then [tracks[0]] else [];
      WithoutSidsConcat(head, Unsubscribed(tracks[1..], trackSid), sids);
      WithoutAfterUnsubscribed(tracks[1..], trackSid, sids);
    }
  }

  lemma WithoutSidsSingle(x: TrackInfo, sids: set<string>)
    ensures WithoutSids([x], sids) == if SidOf(x) in sids then [] else [x]
  {
    assert [x][1..] == [];
  }

  lemma LiveOfSubscribed(x: TrackInfo, events: seq<RoomEvent>, rest: seq<RoomEvent>)
    requires events == [TrackSubscribed(x.trackPublication, x.participantIdentity)] + rest
    ensures Live(events) == (if SidOf(x) in UnsubscribedSids(rest) then [] else [x]) + Live(rest)
  {
    assert events[1..] == rest;
  }

  lemma ReplayedOfSubscribed(tracks: seq<TrackInfo>, x: TrackInfo, events: seq<RoomEvent>, rest: seq<RoomEvent>)
    requires events == [TrackSubscribed(x.trackPublication, x.participantIdentity)] + rest
    ensures Replayed(tracks, events) == Replayed(tracks + [x], rest)
  {
    assert events[1..] == rest;
  }

  lemma Associative(a: seq<TrackInfo>, b: seq<TrackInfo>, c: seq<TrackInfo>)
    ensures (a + b) + c == a + (b + c)
  {
  }

  lemma SubscribedStep(tracks: seq<TrackInfo>, x: TrackInfo, events: seq<RoomEvent>, rest: seq<RoomEvent>)
    requires events == [TrackSubscribed(x.trackPublication, x.participantIdentity)] + rest
    requires Replayed(tracks + [x], rest) == WithoutSids(tracks + [x], UnsubscribedSids(rest)) + Live(rest)
    ensures Replayed(tracks, events) == WithoutSids(tracks, UnsubscribedSids(events)) + Live(events)
  {
    var sids := UnsubscribedSids(rest);
    assert events[1..] == rest;
    assert UnsubscribedSids(events) == sids;
    WithoutSidsSingle(x, sids);
    LiveOfSubscribed(x, events, rest);
    WithoutSidsConcat(tracks, [x], sids);
    ReplayedOfSubscribed(tracks, x, events, rest);
    Associative(WithoutSids(tracks, sids), WithoutSids([x], sids), Live(rest));
  }

  lemma UnsubscribedStep(tracks: seq<TrackInfo>, events: seq<RoomEvent>)
    requires events != [] && events[0].TrackUnsubscribed?
    requires var t := Unsubscribed(tracks, events[0].publication.trackSid);
      Replayed(t, events[1..]) == WithoutSids(t, UnsubscribedSids(events[1..])) + Live(events[1..])
    ensures Replayed(tracks, events) == WithoutSids(tracks, UnsubscribedSids(events)) + Live(events)
  {
    var sid := events[0].publication.trackSid;
    var rest := events[1..];
    assert UnsubscribedSids(events) == {sid} + UnsubscribedSids(rest);
    WithoutAfterUnsubscribed(tracks, sid, UnsubscribedSids(rest));
  }

  /**
   * Handling a stream keeps the earlier entries that the stream does not unsubscribe and adds
   * the stream's live subscriptions after them.
   */
  lemma {:induction false} ReplayedIsLive(tracks: seq<TrackInfo>, events: seq<RoomEvent>)
    ensures Replayed(tracks, events) == WithoutSids(tracks, UnsubscribedSids(events)) + Live(events)
    decreases |events|
  {
    if events == [] {
      WithoutNoSids(tracks);
    } else {
      ReplayedIsLive(Handled(tracks, events[0]), events[1..]);
      if events[0].TrackSubscribed? {
        assert events == [events[0]] + events[1..];
        SubscribedStep(tracks, TrackInfo(events[0].publication, events[0].participantIdentity), events, events[1..]);
      } else {
        UnsubscribedStep(tracks, events);
      }
    }
  }

  /** From an empty list, the registry holds exactly the subscriptions not yet unsubscribed. */
  lemma RegistryHoldsLiveTracks(events: seq<RoomEvent>)
    ensures Replayed([], events) == Live(events)
  {
    ReplayedIsLive([], events);
  }

  /** Subscribing to publication `p` and then unsubscribing from it leaves nothing; the subscription alone leaves one entry. */
  lemma SubscribeThenUnsubscribe(p: TrackPublication, who: string)
    ensures Replayed([], [TrackSubscribed(p, who)]) == [TrackInfo(p, who)]
    ensures Replayed([], [TrackSubscribed(p, who), TrackUnsubscribed(p)]) == []
  {
    var x := TrackInfo(p, who);
    assert [TrackSubscribed(p, who), TrackUnsubscribed(p)][1..] == [TrackUnsubscribed(p)];
    assert Unsubscribed([x], p.trackSid) == [];
    assert Replayed([], [TrackSubscribed(p, who), TrackUnsubscribed(p)]) == Replayed([x], [TrackUnsubscribed(p)]);
    assert Replayed([x], [TrackUnsubscribed(p)]) == Replayed([], []);
  }
}
