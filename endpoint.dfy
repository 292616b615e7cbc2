/**
 * The socket address of a machine: its http(s) endpoint rewritten to the
 * ws/wss scheme of section 3 of RFC 6455, followed by the events path.
 */
module Endpoint {
  import opened Wrappers

  const EventsPath: string := "/comfyui-deploy/ws"

  predicate StartsWith(s: string, prefix: string)
  {
    |prefix| <= |s| && s[..|prefix|] == prefix
  }

  /** `endpoint.replace(/^http/, "ws")`: one leading "http" becomes "ws". */
  function WsEndpoint(endpoint: string): (r: string)
    ensures StartsWith(endpoint, "http") ==> StartsWith(r, "ws") && r[2..] == endpoint[4..]
    ensures !StartsWith(endpoint, "http") ==> r == endpoint
    ensures !StartsWith(r, "http") || r == endpoint
  {
    if StartsWith(endpoint, "http") then
      var r := "ws" + endpoint[4..];
      assert r[..2] == "ws" && r[0] == 'w' != 'h';
      r
    else endpoint
  }

  /** The URL the listener connects to. */
  function SocketUrl(endpoint: string): (url: string)
    ensures |url| >= |EventsPath| && url[|url| - |EventsPath|..] == EventsPath
    ensures url[..|url| - |EventsPath|] == WsEndpoint(endpoint)
  {
    WsEndpoint(endpoint) + EventsPath
  }

  /** Recover an http(s) endpoint from a socket URL; None when the URL lacks the events path. */
  function HttpEndpoint(url: string): Option<string>
  {
    if |url| < |EventsPath| || url[|url| - |EventsPath|..] != EventsPath then None
    else
      var ws := url[..|url| - |EventsPath|];
      Some(if StartsWith(ws, "ws") then "http" + ws[2..] else ws)
  }

  /** `http://host` connects to `ws://host/comfyui-deploy/ws`. */
  lemma HttpBecomesWs(rest: string)
    ensures SocketUrl("http://" + rest) == "ws://" + rest + EventsPath
  {
    SchemeRewritten("://", rest);
    assert "http" + "://" == "http://";
    assert "ws" + "://" == "ws://";
  }

  /** `https://host` connects to `wss://host/comfyui-deploy/ws`. */
  lemma HttpsBecomesWss(rest: string)
    ensures SocketUrl("https://" + rest) == "wss://" + rest + EventsPath
  {
    SchemeRewritten("s://", rest);
    assert "http" + "s://" == "https://";
    assert "ws" + "s://" == "wss://";
  }

  /** The leading "http" of `"http" + tail + rest` becomes "ws". */
  lemma SchemeRewritten(tail: string, rest: string)
    ensures SocketUrl("http" + tail + rest) == "ws" + tail + rest + EventsPath
  {
    var e := "http" + tail + rest;
    assert e[..4] == "http";
    assert e[4..] == tail + rest;
  }

  /** An endpoint that does not start with "http" keeps its prefix. */
  lemma OtherSchemeKept(endpoint: string)
    requires !StartsWith(endpoint, "http")
    ensures SocketUrl(endpoint) == endpoint + EventsPath
  {
  }

  /** Only the leading "http" is rewritten: the rest of the endpoint is kept as it is. */
  lemma RewriteKeepsRest(endpoint: string)
    requires StartsWith(endpoint, "http")
    ensures StartsWith(SocketUrl(endpoint), "ws")
    ensures SocketUrl(endpoint)[2..] == endpoint[4..] + EventsPath
  {
    assert SocketUrl(endpoint) == "ws" + (endpoint[4..] + EventsPath);
  }

  /** The rewrite happens once: a rewritten endpoint is left alone by a second rewrite. */
  lemma RewriteIdempotent(endpoint: string)
    ensures WsEndpoint(WsEndpoint(endpoint)) == WsEndpoint(endpoint)
  {
    if StartsWith(endpoint, "http") {
      assert WsEndpoint(endpoint)[1] == 's';
      assert !StartsWith(WsEndpoint(endpoint), "http");
    }
  }

  /** For an http(s) endpoint the socket URL determines the endpoint. */
  lemma SocketUrlRoundTrip(endpoint: string)
    requires StartsWith(endpoint, "http")
    ensures HttpEndpoint(SocketUrl(endpoint)) == Some(endpoint)
  {
    var url := SocketUrl(endpoint);
    var ws := WsEndpoint(endpoint);
    assert url[..|url| - |EventsPath|] == ws;
    assert url[|url| - |EventsPath|..] == EventsPath;
    assert ws[2..] == endpoint[4..];
    assert "http" + endpoint[4..] == endpoint by {
      assert endpoint == endpoint[..4] + endpoint[4..];
    }
  }

  /** Without the http prefix the rewrite is not invertible: two endpoints share one socket URL. */
  lemma RewriteNotInjective()
    ensures SocketUrl("httpx") == SocketUrl("wsx")
  {
    assert StartsWith("httpx", "http");
    assert !StartsWith("wsx", "http");
    assert "httpx"[4..] == "x";
  }
}
