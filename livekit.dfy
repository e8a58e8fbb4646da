/**
 * The entities the client and the server receive from livekit-client, livekit-server-sdk and the
 * browser. Their internals are foreign: a handle is an opaque value, and every call the client
 * makes into them is recorded, in order, as an `EngineCall`.
 */
module Livekit {
  import opened Wrappers

  /** The kind of a media track (livekit's `Track.Kind`). */
  datatype TrackKind = Audio | Video | Unknown

  /** A local capture track returned by `createLocalTracks`. */
  datatype LocalTrack = LocalTrack(handle: nat, kind: TrackKind)

  /** A remote track publication, as delivered with `TrackSubscribed` and `TrackUnsubscribed`. */
  datatype TrackPublication = TrackPublication(trackSid: string, kind: TrackKind)

  /** A `Room` object; `new Room()` yields a handle never handed out before. */
  datatype Room = Room(id: nat)

  /** The video grant added to an access token: `{roomJoin, room}` for an `identity`. */
  datatype Grant = Grant(identity: string, roomJoin: bool, room: string)

  /**
   * The signed JWT `AccessToken.toJwt` returns. Signing is foreign, so the token is represented
   * by what it was built from.
   */
  datatype Jwt = Jwt(apiKey: string, apiSecret: string, grant: Grant)

  /** A call from the client into the browser or livekit-client. */
  datatype EngineCall =
    | CreateLocalTracks
    | Mute(track: LocalTrack)
    | Unmute(track: LocalTrack)
    | NewRoom(room: Room)
    | FetchToken(url: string, roomName: string, participantName: string)
    | Connect(room: Room, url: string, token: Option<Jwt>)
    | Publish(room: Room, track: LocalTrack)
    | Disconnect(room: Room)
    | FetchProfile(accessToken: string)
}
