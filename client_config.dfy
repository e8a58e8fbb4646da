/**
 * The two module-level URLs of application-client/src/App.tsx, `APPLICATION_SERVER_URL` and
 * `LIVEKIT_URL`: both start empty and `configureUrls` fills each one that is still empty from
 * the page's host name.
 */
module ClientConfig {

  datatype Urls = Urls(applicationServer: string, livekit: string)

  /** The token server's base URL for a host name. */
  function ServerUrlFor(hostname: string): string {
    if hostname == "localhost" then "http://localhost:6080/" else "http://" + hostname + ":6080/"
  }

  /** The media server's WebSocket URL for a host name. */
  function LivekitUrlFor(hostname: string): string {
    if hostname == "localhost" then "ws://localhost:7880/" else "ws://" + hostname + ":7880/"
  }

  /** The special case for "localhost" gives what the general formula would. */
  lemma UrlsFollowHostName(hostname: string)
    ensures ServerUrlFor(hostname) == "http://" + hostname + ":6080/"
    ensures LivekitUrlFor(hostname) == "ws://" + hostname + ":7880/"
  {
    if hostname == "localhost" {
      assert "http://" + hostname + ":6080/" == "http://localhost:6080/";
      assert "ws://" + hostname + ":7880/" == "ws://localhost:7880/";
    }
  }

  /** What `configureUrls` leaves: each URL that was empty is derived from the host name. */
  function Configured(u: Urls, hostname: string): (r: Urls)
    ensures r.applicationServer != "" && r.livekit != ""
    ensures u.applicationServer != "" ==> r.applicationServer == u.applicationServer
    ensures u.livekit != "" ==> r.livekit == u.livekit
    ensures u.applicationServer == "" ==> r.applicationServer == ServerUrlFor(hostname)
    ensures u.livekit == "" ==> r.livekit == LivekitUrlFor(hostname)
  {
    Urls(if u.applicationServer == "" then ServerUrlFor(hostname) else u.applicationServer,
         if u.livekit == "" then LivekitUrlFor(hostname) else u.livekit)
  }

  /** Once configured, configuring again, whatever the host name, changes nothing. */
  lemma ConfigureOnce(u: Urls, first: string, second: string)
    ensures Configured(Configured(u, first), second) == Configured(u, first)
  {
  }

  /** On load both URLs are empty, so they come from the host name. */
  lemma ConfiguredOnLoad(hostname: string)
    ensures Configured(Urls("", ""), hostname) == Urls(ServerUrlFor(hostname), LivekitUrlFor(hostname))
  {
  }

  /** The module-level `let` cells. */
  class UrlConfig {
    var applicationServerUrl: string
    var livekitUrl: string

    function Value(): Urls
      reads this
    {
      Urls(applicationServerUrl, livekitUrl)
    }

    constructor ()
      ensures Value() == Urls("", "")
    {
      applicationServerUrl := "";
      livekitUrl := "";
    }

    /** `configureUrls()`, with `window.location.hostname` passed in. */
    method ConfigureUrls(hostname: string)
      modifies this
      ensures Value() == Configured(old(Value()), hostname)
    {
      if applicationServerUrl == "" {
        applicationServerUrl := if hostname == "localhost" then "http://localhost:6080/" else "http://" + hostname + ":6080/";
      }
      if livekitUrl == "" {
        livekitUrl := if hostname == "localhost" then "ws://localhost:7880/" else "ws://" + hostname + ":7880/";
      }
    }
  }
}
