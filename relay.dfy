/** The server's inbound HTTP middleware
    (`overloadHttpRequestWithConnectionDetailsMiddleware`): a request for
    `/broker/{token}/...` is forwarded over the newest tunnel of that token,
    redirected to the primary pod when this pod is a secondary replica that
    does not hold the token, or answered 404.

    The tunnel registry, the local host name and the downstream call are
    inputs; the streamed relay is reduced to the status it writes. */
module HttpRequestHandler {
  import opened Common
  import opened QueryString
  import opened PodHostname

  /** One tunnel of the server's registry: its socket (by identity), the
      socket's protocol version and the client's capabilities. */
  datatype Handle = Handle(socket: nat, socketVersion: string, capabilities: seq<string>)

  /** `getSocketConnections()`: the tunnels of each token, newest first. */
  type Registry = map<string, seq<Handle>>

  /** The three ways the middleware can go. */
  datatype Route = ForwardOverTunnel | RedirectToPrimary | NotFound

  /** The routing decision: a registered token is forwarded whatever the
      host; an unregistered one is redirected only from a secondary replica. */
  function RouteFor(registry: Registry, token: string, localHostname: string): (r: Route)
    ensures r == ForwardOverTunnel <==> token in registry
    ensures r == RedirectToPrimary <==> token !in registry && IsSecondaryReplica(localHostname)
    ensures r == NotFound <==> token !in registry && !IsSecondaryReplica(localHostname)
  {
    if token in registry then ForwardOverTunnel
    else if IsSecondaryReplica(localHostname) then RedirectToPrimary
    else NotFound
  }

  /** The route prefix `/broker/{token}`. */
  function BrokerPrefix(token: string): string {
    "/broker/" + token
  }

  /** `url.slice(("/broker/" + token).length)`: the first characters are
      dropped, as many as the prefix has, whatever they are. */
  function StripBrokerPrefix(url: string, token: string): (r: string)
    ensures |BrokerPrefix(token)| <= |url| ==> |r| == |url| - |BrokerPrefix(token)|
    ensures |r| <= |url| && r == url[|url| - |r|..]
    ensures |url| <= |BrokerPrefix(token)| ==> r == ""
    ensures StartsWith(url, BrokerPrefix(token)) ==> BrokerPrefix(token) + r == url
  {
    var n := |BrokerPrefix(token)|;
    if n <= |url| then url[n..] else ""
  }

  /** The query parameter that marks a redirected request. */
  const ConnectionRole := "connection_role"

  /** The query of a request path: what follows its first `?`, if any. */
  function QueryOf(url: string): Option<string> {
    CutAt(url, '?').1
  }

  /** The parameters a URL parser sees in a request path. */
  function ParamsOf(url: string): seq<Param> {
    if QueryOf(url).Some? then Parse(QueryOf(url).value) else []
  }

  /** Removal of the `connection_role` parameter from a forwarded path: only
      when the text mentions it and has a `?`; the parameters are those
      between the first and the second `?`, and the `?` goes when none is
      left. */
  function DropConnectionRole(url: string): string {
    if !Contains(url, ConnectionRole) then url
    else
      var parts := Split(url, '?');
      if |parts| > 1 then
        var params := Without(Parse(parts[1]), ConnectionRole);
        if |params| > 0 then parts[0] + "?" + Serialize(params) else parts[0]
      else url
  }

  /** The path before the query is kept; a text that does not mention
      `connection_role`, or has no `?`, is kept whole. */
  lemma DropConnectionRoleKeepsPath(url: string)
    ensures CutAt(DropConnectionRole(url), '?').0 == CutAt(url, '?').0
    ensures !Contains(url, ConnectionRole) || '?' !in url ==> DropConnectionRole(url) == url
  {
    var parts := Split(url, '?');
    SplitHeadIsCut(url, '?');
    if Contains(url, ConnectionRole) && |parts| > 1 {
      var params := Without(Parse(parts[1]), ConnectionRole);
      if |params| > 0 {
        var r := parts[0] + "?" + Serialize(params);
        var cut := CutAt(r, '?');
        CutUnique(cut.0, cut.1.value, parts[0], Serialize(params), '?');
      } else {
        assert '?' !in parts[0];
      }
    }
  }

  /** When the path mentions `connection_role` and has a query, the query
      after forwarding holds the other parameters of the first query
      segment, in their order; the `?` goes when none is left. */
  lemma DropConnectionRoleKeepsOthers(url: string)
    requires Contains(url, ConnectionRole) && '?' in url
    ensures var kept := Without(Parse(Split(url, '?')[1]), ConnectionRole);
            && (QueryOf(DropConnectionRole(url)).None? <==> kept == [])
            && ParamsOf(DropConnectionRole(url)) == kept
  {
    var parts := Split(url, '?');
    SplitHeadIsCut(url, '?');
    var kept := Without(Parse(parts[1]), ConnectionRole);
    var r := DropConnectionRole(url);
    if kept != [] {
      var cut := CutAt(r, '?');
      CutUnique(cut.0, cut.1.value, parts[0], Serialize(kept), '?');
      ParsePlain(parts[1]);
      WithoutPlain(Parse(parts[1]), ConnectionRole);
      ParseSerialize(kept);
    } else {
      assert '?' !in parts[0];
    }
  }

  /** After forwarding, no `connection_role` parameter is left in the
      request's query. */
  lemma NoConnectionRoleRemains(url: string)
    ensures forall i | 0 <= i < |ParamsOf(DropConnectionRole(url))| ::
              ParamsOf(DropConnectionRole(url))[i].name != ConnectionRole
  {
    if !Contains(url, ConnectionRole) || '?' !in url {
      DropConnectionRoleKeepsPath(url);
      if QueryOf(url).Some? {
        var cut := CutAt(url, '?');
        var q := cut.1.value;
        forall i | 0 <= i < |Parse(q)|
          ensures Parse(q)[i].name != ConnectionRole
        {
          ParsedNameOccurs(q, i);
          ContainsSuffix(cut.0 + "?", q, Parse(q)[i].name);
          assert cut.0 + "?" + q == url;
        }
      }
    } else {
      DropConnectionRoleKeepsOthers(url);
    }
  }

  /** The parts of a URL the middleware builds. */
  datatype Url = Url(host: string, path: string, query: seq<Param>)

  /** `url.toString()` for an `http:` URL without port, credentials or
      fragment. */
  function UrlText(u: Url): string {
    "http://" + u.host + u.path + (if u.query == [] then "" else "?" + Serialize(u.query))
  }

  /** The marker the secondary appends to a redirected request. */
  const PrimaryRole := Param(ConnectionRole, "primary")

  /** The marker, serialized. */
  lemma PrimaryRoleText()
    ensures PieceText(PrimaryRole) == "connection_role=primary"
  {
  }

  /** The redirect target of a request for `url` received under `host`:
      `new URL("http://" + host + url)`, its host rewritten, with
      `connection_role=primary` appended to its parameters. */
  function RedirectTarget(host: string, url: string): (u: Url)
    ensures u.host == RewriteHost(host)
    ensures u.path == CutAt(url, '?').0
    ensures u.query == ParamsOf(url) + [PrimaryRole]
  {
    Url(RewriteHost(host), CutAt(url, '?').0, ParamsOf(url) + [PrimaryRole])
  }

  /** The redirect keeps the request's path (with its `/broker/{token}`
      prefix) and ends with `connection_role=primary`. */
  lemma RedirectTargetText(host: string, url: string)
    ensures var t := UrlText(RedirectTarget(host, url));
            && StartsWith(t, "http://" + RewriteHost(host) + CutAt(url, '?').0 + "?")
            && EndsWith(t, PieceText(PrimaryRole))
  {
    MarkedUrlText(RedirectTarget(host, url), ParamsOf(url));
  }

  /** The text of a URL whose parameters end with the marker. */
  lemma MarkedUrlText(u: Url, ps: seq<Param>)
    requires u.query == ps + [PrimaryRole]
    ensures StartsWith(UrlText(u), "http://" + u.host + u.path + "?")
    ensures EndsWith(UrlText(u), PieceText(PrimaryRole))
  {
    var head := "http://" + u.host + u.path + "?";
    var q := Serialize(u.query);
    assert UrlText(u) == head + q;
    assert (head + q)[..|head|] == head;
    SerializeEndsWithLast(ps, PrimaryRole);
    AppendEndsWith(head, q, PieceText(PrimaryRole));
  }

  lemma AppendEndsWith(a: string, b: string, p: string)
    requires EndsWith(b, p)
    ensures EndsWith(a + b, p)
  {
    assert (a + b)[|a + b| - |p|..] == b[|b| - |p|..];
  }

  /** A serialized list ends with its last pair. */
  lemma {:induction false} SerializeEndsWithLast(ps: seq<Param>, last: Param)
    ensures EndsWith(Serialize(ps + [last]), PieceText(last))
    decreases |ps|
  {
    if ps != [] {
      assert (ps + [last])[1..] == ps[1..] + [last];
      SerializeEndsWithLast(ps[1..], last);
    } else {
      assert ps + [last] == [last];
    }
  }

  /** A request without a query, received under a host without `-`, is
      redirected to the same host and path with just the marker as query. */
  lemma RedirectWithoutQuery(host: string, url: string)
    requires '-' !in host && '?' !in url
    ensures UrlText(RedirectTarget(host, url)) == "http://" + host + url + "?" + "connection_role=primary"
  {
    RewriteHostWithoutDash(host);
    var u := RedirectTarget(host, url);
    assert QueryOf(url).None?;
    assert u == Url(host, url, [PrimaryRole]);
    var marker := Serialize(u.query);
    assert marker == PieceText(PrimaryRole);
    PrimaryRoleText();
    assert UrlText(u) == "http://" + host + url + "?" + marker;
  }

  /** The redirect of an old client's request for `/broker/{token}/path`
      from a secondary pod goes to the same path on the same host, with
      `?connection_role=primary` appended (the token of the unit test is a
      UUID, which has no `?`). */
  lemma OldClientRedirect(token: string)
    requires '?' !in token
    ensures UrlText(RedirectTarget("127.0.0.1", "/broker/" + token + "/path"))
            == "http://127.0.0.1" + "/broker/" + token + "/path" + "?" + "connection_role=primary"
  {
    var url := "/broker/" + token + "/path";
    assert '?' !in "/broker/" && '?' !in "/path";
    RedirectWithoutQuery("127.0.0.1", url);
    assert "http://" + "127.0.0.1" == "http://127.0.0.1";
    assert "http://127.0.0.1" + url == "http://127.0.0.1" + "/broker/" + token + "/path";
  }

  /** A redirected request that reaches a pod holding the token is
      forwarded with the path the secondary received, minus the route
      prefix, and with the same other parameters: the marker the secondary
      added is removed again. */
  lemma RedirectThenForward(host: string, token: string, url: string)
    requires StartsWith(CutAt(url, '?').0, BrokerPrefix(token))
    requires forall i | 0 <= i < |ParamsOf(url)| ::
               && ParamsOf(url)[i].name != ConnectionRole
               && '?' !in ParamsOf(url)[i].name && '?' !in ParamsOf(url)[i].value
    ensures var u := RedirectTarget(host, url);
            var arrived := u.path + "?" + Serialize(u.query);
            var forwarded := DropConnectionRole(StripBrokerPrefix(arrived, token));
            && CutAt(forwarded, '?').0 == StripBrokerPrefix(CutAt(url, '?').0, token)
            && ParamsOf(forwarded) == ParamsOf(url)
  {
    var u := RedirectTarget(host, url);
    var prefix := BrokerPrefix(token);
    var path := CutAt(url, '?').0;
    var s := Serialize(u.query);
    var rest := path[|prefix|..];
    assert path == prefix + rest;
    assert u.path + "?" + s == prefix + (rest + "?" + s);
    assert StripBrokerPrefix(u.path + "?" + s, token) == rest + "?" + s;
    assert StripBrokerPrefix(path, token) == rest;
    assert Plain(ParamsOf(url)) by {
      if QueryOf(url).Some? {
        ParsePlain(QueryOf(url).value);
      }
    }
    ForwardOfMarked(rest, ParamsOf(url));
  }

  /** The primary's forwarding of `rest?ps&connection_role=primary` gives
      back `rest` with the parameters `ps`. */
  lemma ForwardOfMarked(rest: string, ps: seq<Param>)
    requires '?' !in rest && Plain(ps)
    requires forall i | 0 <= i < |ps| ::
               ps[i].name != ConnectionRole && '?' !in ps[i].name && '?' !in ps[i].value
    ensures var f := DropConnectionRole(rest + "?" + Serialize(ps + [PrimaryRole]));
            CutAt(f, '?').0 == rest && ParamsOf(f) == ps
  {
    var s := Serialize(ps + [PrimaryRole]);
    var text := rest + "?" + s;
    MarkedQuery(ps);
    SplitAround(rest, s, '?');
    SplitNoSep(s, '?');
    assert Split(text, '?') == [rest, s];
    MarkedMentionsRole(rest, ps);
    assert text[|rest|] == '?';
    CutUniqueAt(rest, s);
    DropConnectionRoleKeepsPath(text);
    DropConnectionRoleKeepsOthers(text);
    assert ParamsOf(DropConnectionRole(text)) == Without(Parse(s), ConnectionRole);
  }

  /** The query of a redirected request: free of `?`, parsed back to the
      parameters and the marker, and to the parameters once the marker is
      removed. */
  lemma MarkedQuery(ps: seq<Param>)
    requires Plain(ps)
    requires forall i | 0 <= i < |ps| ::
               ps[i].name != ConnectionRole && '?' !in ps[i].name && '?' !in ps[i].value
    ensures var s := Serialize(ps + [PrimaryRole]);
            && '?' !in s
            && Parse(s) == ps + [PrimaryRole]
            && Without(Parse(s), ConnectionRole) == ps
  {
    MarkedPlain(ps);
    SerializeNoChar(ps + [PrimaryRole], '?');
    ParseSerialize(ps + [PrimaryRole]);
    WithoutAppend(ps, [PrimaryRole], ConnectionRole);
    WithoutAbsent(ps, ConnectionRole);
    assert Without([PrimaryRole], ConnectionRole) == [];
  }

  /** The parameters with the marker appended are still plain, and free of
      `?`. */
  lemma MarkedPlain(ps: seq<Param>)
    requires Plain(ps)
    requires forall i | 0 <= i < |ps| :: '?' !in ps[i].name && '?' !in ps[i].value
    ensures Plain(ps + [PrimaryRole])
    ensures forall i | 0 <= i < |ps + [PrimaryRole]| ::
              '?' !in (ps + [PrimaryRole])[i].name && '?' !in (ps + [PrimaryRole])[i].value
  {
    MarkerChars();
    var marked := ps + [PrimaryRole];
    forall i | 0 <= i < |marked|
      ensures '&' !in marked[i].name && '=' !in marked[i].name && '&' !in marked[i].value
      ensures '?' !in marked[i].name && '?' !in marked[i].value
    {
      if i < |ps| {
        assert marked[i] == ps[i];
      } else {
        assert marked[i] == PrimaryRole;
      }
    }
  }

  /** The marker holds none of the query's delimiters. */
  lemma MarkerChars()
    ensures '&' !in PrimaryRole.name && '=' !in PrimaryRole.name && '?' !in PrimaryRole.name
    ensures '&' !in PrimaryRole.value && '?' !in PrimaryRole.value
  {
    RoleNameChars();
    assert '&' !in "primary" && '?' !in "primary";
  }

  lemma RoleNameChars()
    ensures '&' !in ConnectionRole && '=' !in ConnectionRole && '?' !in ConnectionRole
  {
  }

  /** A query that ends with the marker mentions `connection_role`. */
  lemma MarkedMentionsRole(rest: string, ps: seq<Param>)
    ensures Contains(rest + "?" + Serialize(ps + [PrimaryRole]), ConnectionRole)
  {
    var s := Serialize(ps + [PrimaryRole]);
    var piece := PieceText(PrimaryRole);
    SerializeEndsWithLast(ps, PrimaryRole);
    assert s[|s| - |piece|..] == piece;
    assert s[|s| - |piece|..|s| - |piece| + |ConnectionRole|] == ConnectionRole;
    ContainsAt(s, |s| - |piece|, ConnectionRole);
    ContainsSuffix(rest + "?", s, ConnectionRole);
  }

  lemma CutUniqueAt(a: string, b: string)
    requires '?' !in a
    ensures CutAt(a + "?" + b, '?') == (a, Some(b))
  {
    var cut := CutAt(a + "?" + b, '?');
    CutUnique(cut.0, cut.1.value, a, b, '?');
  }

  /** A serialized list holds a character only if a name or value does. */
  lemma {:induction false} SerializeNoChar(ps: seq<Param>, c: char)
    requires c != '=' && c != '&'
    requires forall i | 0 <= i < |ps| :: c !in ps[i].name && c !in ps[i].value
    ensures c !in Serialize(ps)
    decreases |ps|
  {
    if |ps| > 1 {
      SerializeNoChar(ps[1..], c);
    }
  }

  /** What the call to the primary gave: a response, with its status code
      when it has one, or a failure. */
  datatype Downstream = Responded(statusCode: Option<int>) | Failed(reason: string)

  /** The status a secondary writes back for a redirected request. */
  function RelayedStatus(d: Downstream): (s: int)
    ensures d.Responded? && d.statusCode.Some? ==> s == d.statusCode.value
    ensures d.Failed? || d.statusCode.None? ==> s == 500
  {
    if d.Responded? then d.statusCode.OrElse(500) else 500
  }

  /** The request sent to the primary (`PostFilterPreparedRequest`). */
  datatype PreparedRequest = PreparedRequest(
    url: string, headers: map<string, string>, httpMethod: string, body: Option<string>)

  /** What the response carries once the middleware is done with it. */
  datatype Body = NoBody | NotFoundJson | ErrorText(text: string) | Relayed

  /** How the middleware ends: handing over to the next handler, returning,
      or throwing (a `TypeError` on an empty or missing tunnel list). */
  datatype Exit = CalledNext | Returned | Threw

  /** The fields of Express's request the middleware reads or writes. */
  class Request {
    const hostname: string
    const httpMethod: string
    const headers: map<string, string>
    /** The parsed body, as the JSON text it serializes to, when it is truthy. */
    const body: Option<string>
    var url: string
    /** `req['locals'].capabilities`, once set. */
    var locals: Option<seq<string>>

    constructor (hostname: string, httpMethod: string, headers: map<string, string>, body: Option<string>, url: string)
      ensures this.hostname == hostname && this.httpMethod == httpMethod && this.headers == headers
      ensures this.body == body && this.url == url && locals == None
    {
      this.hostname := hostname;
      this.httpMethod := httpMethod;
      this.headers := headers;
      this.body := body;
      this.url := url;
      locals := None;
    }
  }

  /** The fields of Express's response the middleware writes: the status
      and body, and `res.locals`. */
  class Response {
    var status: Option<int>
    var body: Body
    var websocket: Option<nat>
    var socketVersion: Option<string>
    var capabilities: Option<seq<string>>

    constructor ()
      ensures status == None && body == NoBody
      ensures websocket == None && socketVersion == None && capabilities == None
    {
      status := None;
      body := NoBody;
      websocket := None;
      socketVersion := None;
      capabilities := None;
    }
  }

  /** `overloadHttpRequestWithConnectionDetailsMiddleware` for the request
      `req` on route token `token`. Returns whether the no-match metric was
      incremented, the request sent to the primary if any, and how the
      middleware ended. */
  method OverloadWithConnectionDetails(
    req: Request, res: Response, registry: Registry, token: string,
    localHostname: string, downstream: Downstream)
    returns (noMatchCounted: bool, toPrimary: Option<PreparedRequest>, exit: Exit)
    modifies req, res
    ensures noMatchCounted <==> token !in registry
    ensures toPrimary.Some? <==> RouteFor(registry, token, localHostname) == RedirectToPrimary
    ensures toPrimary.Some? ==>
              toPrimary.value == PreparedRequest(UrlText(RedirectTarget(req.hostname, old(req.url))),
                                                 req.headers, req.httpMethod, req.body)
    // no tunnel and not a secondary: 404 `{ok: false}`
    ensures RouteFor(registry, token, localHostname) == NotFound ==>
              && exit == Returned && res.status == Some(404) && res.body == NotFoundJson
              && unchanged(req) && unchanged(res`websocket, res`socketVersion, res`capabilities)
    // redirected: the primary's status is relayed, or 500 when it could not
    // be reached, after which the handler goes on to the missing tunnel list
    ensures RouteFor(registry, token, localHostname) == RedirectToPrimary ==>
              && unchanged(req) && unchanged(res`websocket, res`socketVersion, res`capabilities)
              && (downstream.Responded? ==>
                    exit == Returned && res.status == Some(RelayedStatus(downstream)) && res.body == Relayed)
              && (downstream.Failed? ==>
                    && exit == Threw && res.status == Some(500)
                    && res.body == ErrorText("Error forwarding request to primary"))
    // a registered token with no tunnel left: element 0 is missing
    ensures token in registry && registry[token] == [] ==> exit == Threw && unchanged(req) && unchanged(res)
    // forwarded over the newest tunnel, with the route prefix and the
    // marker removed from the URL
    ensures token in registry && registry[token] != [] ==>
              var newest := registry[token][0];
              && exit == CalledNext
              && res.websocket == Some(newest.socket) && res.socketVersion == Some(newest.socketVersion)
              && res.capabilities == Some(newest.capabilities) && req.locals == Some(newest.capabilities)
              && req.url == DropConnectionRole(StripBrokerPrefix(old(req.url), token))
              && unchanged(res`status, res`body)
  {
    toPrimary := None;
    noMatchCounted := false;
    if token !in registry {
      noMatchCounted := true;
      if IsSecondaryReplica(localHostname) {
        var target := RedirectTarget(req.hostname, req.url);
        var prepared := PreparedRequest(UrlText(target), req.headers, req.httpMethod, None);
        if req.body.Some? {
          prepared := prepared.(body := req.body);
        }
        toPrimary := Some(prepared);
        match downstream {
          case Responded(_) =>
            res.status := Some(RelayedStatus(downstream));
            res.body := Relayed;
            exit := Returned;
            return;
          case Failed(_) =>
            res.status := Some(500);
            res.body := ErrorText("Error forwarding request to primary");
        }
      } else {
        res.status := Some(404);
        res.body := NotFoundJson;
        exit := Returned;
        return;
      }
    }
    // `connections.get(token)[0]`: undefined when the token is missing
    // (after a failed redirect) or its list is empty
    if token !in registry || registry[token] == [] {
      exit := Threw;
      return;
    }
    var newest := registry[token][0];
    res.websocket := Some(newest.socket);
    res.socketVersion := Some(newest.socketVersion);
    res.capabilities := Some(newest.capabilities);
    req.locals := Some(newest.capabilities);
    req.url := StripBrokerPrefix(req.url, token);
    req.url := DropConnectionRole(req.url);
    exit := CalledNext;
  }
}
