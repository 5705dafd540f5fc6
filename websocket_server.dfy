/**
 * The doppler's websocket server: how a request path is routed to a handler,
 * and what a handler does with the connection once it runs.
 *
 * The network, the WebSocket handshake, the keep-alive heartbeat, protobuf
 * encoding and the sink manager are collaborators outside the model.  Their
 * answers are inputs (a `World`), and a session is modelled by the ordered
 * list of calls it makes on them (its `Effect`s).
 */
module WebsocketServer {
  import opened Wrappers
  import FirehoseGroup

  type Envelope = FirehoseGroup.Envelope

  /** A byte string as the wire sees it. */
  type Bytes = seq<bv8>

  const AppsPrefix: string := "/apps/"
  /** FIREHOSE_PATH. */
  const FirehosePath: string := "/firehose"
  /** websocket.FIREHOSE_APP_ID, the app id every firehose sink carries. */
  const FirehoseAppId: string := "firehose"

  // ---------------------------------------------------------------------
  // Routing
  // ---------------------------------------------------------------------

  /** The path "/apps/" + id + "/" + word. */
  function AppPath(id: string, word: string): string {
    AppsPrefix + id + "/" + word
  }

  /** The two capture groups of `^/apps/(.*)/(recentlogs|stream)$`:
      matches[1] and matches[2]. */
  datatype Submatch = Submatch(appId: string, endpoint: string)

  /** The app id of `path` if it reads "/apps/" + id + "/" + word with no
      newline in id (`.` does not match a newline, and `$` only matches at
      the very end).  The prefix and the suffix are fixed strings, so the
      greedy `(.*)` can only take everything between them. */
  function MatchEndpoint(path: string, word: string): (r: Option<string>)
    ensures r.Some? ==> '\n' !in r.value && path == AppPath(r.value, word)
  {
    var tail := |word| + 1;
    if |path| >= |AppsPrefix| + tail
       && path[..|AppsPrefix|] == AppsPrefix
       && path[|path| - tail..] == "/" + word
       && '\n' !in path[|AppsPrefix|..|path| - tail]
    then
      var id := path[|AppsPrefix|..|path| - tail];
      assert path == path[..|AppsPrefix|] + id + path[|path| - tail..];
      Some(id)
    else None
  }

  /** validPaths.FindStringSubmatch(path), as the route decision uses it. */
  function FindStringSubmatch(path: string): (r: Option<Submatch>)
    ensures r.Some? ==> PathMatches(path, r.value)
  {
    match MatchEndpoint(path, "recentlogs")
    case Some(id) => Some(Submatch(id, "recentlogs"))
    case None =>
      match MatchEndpoint(path, "stream")
      case Some(id) => Some(Submatch(id, "stream"))
      case None => None
  }

  /** What the pattern accepts, stated directly: the whole path is "/apps/",
      an app id without newline, "/", and one of the two endpoint words. */
  ghost predicate PathMatches(path: string, m: Submatch) {
    && (m.endpoint == "recentlogs" || m.endpoint == "stream")
    && '\n' !in m.appId
    && path == AppPath(m.appId, m.endpoint)
  }

  /** The handler functions ServeHTTP can pick. */
  datatype Handler = StreamLogs | RecentLogs | StreamFirehose

  /** The switch on matches[2]. */
  function SelectHandler(endpoint: string): (r: Option<Handler>)
    ensures r.Some? <==> endpoint in ["stream", "recentlogs", FirehosePath]
  {
    if endpoint == "stream" then Some(StreamLogs)
    else if endpoint == "recentlogs" then Some(RecentLogs)
    else if endpoint == FirehosePath then Some(StreamFirehose)
    else None
  }

  /** The outcome of routing: an HTTP error response (with or without the
      `WWW-Authenticate: Basic` header), or a handler and the app id it is
      given. */
  datatype Decision =
    | Reject(status: nat, wwwAuthenticate: bool, body: string)
    | Dispatch(handler: Handler, appId: string)

  /** The route decision of ServeHTTP, before the upgrade. */
  function Route(path: string): (r: Decision)
    ensures r.Reject? ==> r.status == 404 || r.status == 400
    ensures r.Dispatch? ==>
              && r.appId != ""
              && FindStringSubmatch(path).Some?
              && FindStringSubmatch(path).value.appId == r.appId
              && SelectHandler(FindStringSubmatch(path).value.endpoint) == Some(r.handler)
  {
    match FindStringSubmatch(path)
    case None => Reject(404, true, "Resource Not Found. " + path)
    case Some(m) =>
      if m.appId == "" then
        Reject(400, true, "App ID missing. Make request to /apps/APP_ID/" + m.endpoint)
      else
        match SelectHandler(m.endpoint)
        case Some(h) => Dispatch(h, m.appId)
        case None => Reject(400, false, "invalid path " + path + "\n")
  }

  /** The pattern's capture is exactly the decomposition of the path:
      whatever FindStringSubmatch returns spells the path back, and every
      decomposition of the path is what it returns. */
  lemma FindStringSubmatchIsExact(path: string, m: Submatch)
    ensures FindStringSubmatch(path) == Some(m) <==> PathMatches(path, m)
  {
    if PathMatches(path, m) {
      MatchEndpointFinds(path, m.appId, m.endpoint);
      if m.endpoint == "stream" {
        StreamIsNotRecentLogs(path, m.appId);
      }
    }
  }

  /** A path built from an id and a word is matched with that id. */
  lemma MatchEndpointFinds(path: string, id: string, word: string)
    requires '\n' !in id && path == AppPath(id, word)
    ensures MatchEndpoint(path, word) == Some(id)
  {
    var tail := |word| + 1;
    assert path[..|AppsPrefix|] == AppsPrefix;
    assert path[|path| - tail..] == "/" + word;
    assert path[|AppsPrefix|..|path| - tail] == id;
  }

  /** A stream path ends in 'm', so it never reads as a recentlogs path. */
  lemma StreamIsNotRecentLogs(path: string, id: string)
    requires path == AppPath(id, "stream")
    ensures MatchEndpoint(path, "recentlogs") == None
  {
    assert path[|path| - 1] == 'm';
  }

  /** Route in terms of the capture groups: no match is 404, an empty id is
      the 400 hint, and otherwise the endpoint word picks the handler. */
  lemma RouteOfSubmatch(path: string)
    ensures FindStringSubmatch(path).None? ==>
              Route(path) == Reject(404, true, "Resource Not Found. " + path)
    ensures FindStringSubmatch(path).Some? ==>
              var m := FindStringSubmatch(path).value;
              && (m.endpoint == "stream" || m.endpoint == "recentlogs")
              && Route(path) ==
                 if m.appId == "" then
                   Reject(400, true, "App ID missing. Make request to /apps/APP_ID/" + m.endpoint)
                 else
                   Dispatch(if m.endpoint == "stream" then StreamLogs else RecentLogs, m.appId)
  {
    assert SelectHandler("stream") == Some(StreamLogs);
    assert SelectHandler("recentlogs") == Some(RecentLogs);
  }

  /** A path is routed to streamLogs exactly when it reads
      "/apps/" + id + "/stream" with a non-empty, newline-free app id. */
  lemma RouteStreamsLogs(path: string, id: string)
    ensures Route(path) == Dispatch(StreamLogs, id)
            <==> id != "" && '\n' !in id && path == AppPath(id, "stream")
  {
    if Route(path) == Dispatch(StreamLogs, id) {
      DispatchIsMatch(path);
    }
    if id != "" && '\n' !in id && path == AppPath(id, "stream") {
      MatchIsDispatch(path, Submatch(id, "stream"));
    }
  }

  /** A path is routed to recentLogs exactly when it reads
      "/apps/" + id + "/recentlogs" with a non-empty, newline-free app id. */
  lemma RouteRecentLogs(path: string, id: string)
    ensures Route(path) == Dispatch(RecentLogs, id)
            <==> id != "" && '\n' !in id && path == AppPath(id, "recentlogs")
  {
    if Route(path) == Dispatch(RecentLogs, id) {
      DispatchIsMatch(path);
    }
    if id != "" && '\n' !in id && path == AppPath(id, "recentlogs") {
      MatchIsDispatch(path, Submatch(id, "recentlogs"));
    }
  }

  /** A dispatched path spells out its app id and the handler's endpoint. */
  lemma DispatchIsMatch(path: string)
    requires Route(path).Dispatch?
    ensures Route(path).handler != StreamFirehose && Route(path).appId != ""
    ensures PathMatches(path, Submatch(Route(path).appId,
                                       if Route(path).handler == StreamLogs then "stream" else "recentlogs"))
  {
    RouteOfSubmatch(path);
    FindStringSubmatchIsExact(path, FindStringSubmatch(path).value);
  }

  /** A path with a non-empty app id and an endpoint word is dispatched. */
  lemma MatchIsDispatch(path: string, m: Submatch)
    requires m.appId != "" && PathMatches(path, m)
    ensures Route(path) == Dispatch(if m.endpoint == "stream" then StreamLogs else RecentLogs, m.appId)
  {
    FindStringSubmatchIsExact(path, m);
    RouteOfSubmatch(path);
  }
  /** Every path that the pattern rejects gets 404 and the path echoed back,
      and only those. */
  lemma RouteNotFound(path: string)
    ensures Route(path) == Reject(404, true, "Resource Not Found. " + path)
            <==> forall m :: !PathMatches(path, m)
  {
    match FindStringSubmatch(path)
    case None =>
      forall m ensures !PathMatches(path, m) {
        FindStringSubmatchIsExact(path, m);
      }
    case Some(m) =>
      FindStringSubmatchIsExact(path, m);
  }

  /** An empty app id is refused with 400 and a hint naming the endpoint that
      was asked for; "/apps//stream" and "/apps//recentlogs" are the only
      such paths. */
  lemma RouteMissingAppId(path: string)
    ensures Route(path).Reject? && Route(path).status == 400
            <==> path == "/apps//stream" || path == "/apps//recentlogs"
    ensures path == "/apps//stream" ==>
              Route(path) == Reject(400, true, "App ID missing. Make request to /apps/APP_ID/stream")
    ensures path == "/apps//recentlogs" ==>
              Route(path) == Reject(400, true, "App ID missing. Make request to /apps/APP_ID/recentlogs")
  {
    MissingIdPaths(path);
    match FindStringSubmatch(path)
    case None =>
    case Some(m) =>
      if m.appId != "" {
        FindStringSubmatchIsExact(path, m);
        assert SelectHandler(m.endpoint).Some?;
      }
  }

  /** The pattern captures an empty app id exactly for the two paths with
      nothing between "/apps/" and the endpoint word. */
  lemma MissingIdPaths(path: string)
    ensures (FindStringSubmatch(path).Some? && FindStringSubmatch(path).value.appId == "")
            <==> path == "/apps//stream" || path == "/apps//recentlogs"
  {
    assert AppPath("", "stream") == "/apps//stream";
    assert AppPath("", "recentlogs") == "/apps//recentlogs";
    FindStringSubmatchIsExact(path, Submatch("", "stream"));
    FindStringSubmatchIsExact(path, Submatch("", "recentlogs"));
  }

  /** Routing has three outcomes only: the switch's FIREHOSE_PATH case and
      its "invalid path" default cannot be reached, because the pattern's
      second group is one of the two endpoint words. */
  lemma RouteOutcomes(path: string)
    ensures || Route(path) == Reject(404, true, "Resource Not Found. " + path)
            || (Route(path).Reject? && Route(path).status == 400 && Route(path).wwwAuthenticate)
            || (Route(path).Dispatch? && Route(path).handler != StreamFirehose && Route(path).appId != "")
  {
    match FindStringSubmatch(path)
    case None =>
    case Some(m) =>
      FindStringSubmatchIsExact(path, m);
  }

  /** The greedy capture keeps slashes: "/apps/a/b/stream" streams app "a/b". */
  lemma AppIdKeepsSlashes()
    ensures Route("/apps/a/b/stream") == Dispatch(StreamLogs, "a/b")
  {
    RouteStreamsLogs("/apps/a/b/stream", "a/b");
  }

  /** "/firehose" itself does not match the pattern. */
  lemma FirehosePathNotFound()
    ensures Route(FirehosePath) == Reject(404, true, "Resource Not Found. /firehose")
  {
  }

  /** The recent-logs path the traffic controller builds for app "abc123". */
  lemma RecentLogsPathRoutes()
    ensures Route("/apps/abc123/recentlogs") == Dispatch(RecentLogs, "abc123")
  {
    var path := "/apps/abc123/recentlogs";
    assert path[..|AppsPrefix|] == AppsPrefix;
    assert path[|path| - 11..] == "/recentlogs";
    assert path[|AppsPrefix|..|path| - 11] == "abc123";
    assert MatchEndpoint(path, "recentlogs") == Some("abc123");
  }

  // ---------------------------------------------------------------------
  // Sessions
  // ---------------------------------------------------------------------

  /** The sink manager's two register/unregister pairs: RegisterSink and
      UnregisterSink for one app, RegisterFirehoseSink and
      UnregisterFirehoseSink for the firehose. */
  datatype Registrar = AppRegistry | FirehoseRegistry

  /** websocket.NewWebsocketSink(appId, ..., ws, ...): the sink is told apart
      by its app id and its connection. */
  datatype WebsocketSink = WebsocketSink(appId: string, conn: nat)

  /** What ended the keep-alive loop. */
  datatype SessionEnd = PeerClosed | WriteFailed | KeepAliveTimeout | ServerShutdown

  /** gorilla.Upgrade's answer: a connection, or the error text. */
  datatype UpgradeResult = Upgraded(conn: nat) | UpgradeFailed(err: string)

  /** proto.Marshal's answer: the bytes it returned and whether it also
      returned an error. */
  datatype Marshalled = Marshalled(bytes: Bytes, failed: bool)

  /** The answers of the collaborators: the handshake, the sink manager's
      register result and recent logs, the keep-alive outcome, the encoder,
      and the outcome of the n-th write on the connection. */
  datatype World = World(
    upgrade: UpgradeResult,
    registerAccepted: bool,
    keepAliveEnd: SessionEnd,
    recentLogsFor: string -> seq<Envelope>,
    marshal: Envelope -> Marshalled,
    writeOk: nat -> bool)

  /** A call the server makes on a collaborator, or a response it writes. */
  datatype Effect =
    | Respond(status: nat, wwwAuthenticate: bool, body: string)
    | Upgrade(conn: nat)
    | Register(registrar: Registrar, sink: WebsocketSink, accepted: bool)
    | KeepAliveEnded(cause: SessionEnd)
    | Unregister(registrar: Registrar, sink: WebsocketSink)
    | RecentLogsRequested(appId: string)
    | Write(payload: Bytes, ok: bool)
    | CloseFrame
    | CloseConn

  /** The registrations among `effects`, in order. */
  function Registrations(effects: seq<Effect>): (r: seq<(Registrar, WebsocketSink)>)
    ensures |r| <= |effects|
  {
    if effects == [] then []
    else (if effects[0].Register? then [(effects[0].registrar, effects[0].sink)] else [])
         + Registrations(effects[1..])
  }

  /** The unregistrations among `effects`, in order. */
  function Unregistrations(effects: seq<Effect>): (r: seq<(Registrar, WebsocketSink)>)
    ensures |r| <= |effects|
  {
    if effects == [] then []
    else (if effects[0].Unregister? then [(effects[0].registrar, effects[0].sink)] else [])
         + Unregistrations(effects[1..])
  }

  lemma RegistrationsAppend(a: seq<Effect>, b: seq<Effect>)
    ensures Registrations(a + b) == Registrations(a) + Registrations(b)
    ensures Unregistrations(a + b) == Unregistrations(a) + Unregistrations(b)
  {
    RegisterAppend(a, b);
    UnregisterAppend(a, b);
  }

  lemma {:induction false} RegisterAppend(a: seq<Effect>, b: seq<Effect>)
    ensures Registrations(a + b) == Registrations(a) + Registrations(b)
  {
    if a == [] {
      assert a + b == b;
    } else {
      assert (a + b)[0] == a[0] && (a + b)[1..] == a[1..] + b;
      RegisterAppend(a[1..], b);
    }
  }

  lemma {:induction false} UnregisterAppend(a: seq<Effect>, b: seq<Effect>)
    ensures Unregistrations(a + b) == Unregistrations(a) + Unregistrations(b)
  {
    if a == [] {
      assert a + b == b;
    } else {
      assert (a + b)[0] == a[0] && (a + b)[1..] == a[1..] + b;
      UnregisterAppend(a[1..], b);
    }
  }

  /** The registrations and unregistrations of a single effect. */
  lemma RegistrationsOfOne(e: Effect)
    ensures Registrations([e]) == if e.Register? then [(e.registrar, e.sink)] else []
    ensures Unregistrations([e]) == if e.Unregister? then [(e.registrar, e.sink)] else []
  {
    assert [e][1..] == [];
  }

  /** Effects that register nothing can surround a well-paired stretch
      without breaking the pairing. */
  lemma UnregisteredAfterFramed(pre: seq<Effect>, mid: seq<Effect>, post: seq<Effect>)
    requires UnregisteredAfter(mid)
    requires forall i :: 0 <= i < |pre| ==> !pre[i].Register?
    requires forall i :: 0 <= i < |post| ==> !post[i].Register?
    ensures UnregisteredAfter(pre + mid + post)
  {
    var all := pre + mid + post;
    forall i | 0 <= i < |all| && all[i].Register?
      ensures exists j :: i < j < |all| && all[j] == Unregister(all[i].registrar, all[i].sink)
    {
      var k := i - |pre|;
      assert 0 <= k < |mid| && all[i] == mid[k];
      var j :| k < j < |mid| && mid[j] == Unregister(mid[k].registrar, mid[k].sink);
      assert all[|pre| + j] == mid[j];
    }
  }

  /** Every registration is followed by an unregistration of the same sink
      with the same registrar. */
  ghost predicate UnregisteredAfter(effects: seq<Effect>) {
    forall i :: 0 <= i < |effects| && effects[i].Register? ==>
      exists j :: i < j < |effects| && effects[j] == Unregister(effects[i].registrar, effects[i].sink)
  }

  /** sendMessagesToWebsocket: one binary write per envelope, in order, of
      whatever Marshal returned; neither a marshal error nor a write error
      ends the loop. */
  method SendMessagesToWebsocket(logMessages: seq<Envelope>, marshal: Envelope -> Marshalled, writeOk: nat -> bool)
    returns (writes: seq<Effect>)
    ensures |writes| == |logMessages|
    ensures forall i :: 0 <= i < |logMessages| ==> writes[i] == Write(marshal(logMessages[i]).bytes, writeOk(i))
  {
    writes := [];
    var i := 0;
    while i < |logMessages|
      invariant i <= |logMessages| && |writes| == i
      invariant forall k :: 0 <= k < i ==> writes[k] == Write(marshal(logMessages[k]).bytes, writeOk(k))
    {
      var envelopeBytes := marshal(logMessages[i]);
      writes := writes + [Write(envelopeBytes.bytes, writeOk(i))];
      i := i + 1;
    }
  }

  /** streamWebsocket: registers a new sink for the connection once, waits
      for the keep-alive loop to end, and then, deferred, unregisters that
      same sink once, whatever the register call answered and whatever ended
      the session. */
  method StreamWebsocket(appId: string, conn: nat, registrar: Registrar, world: World)
    returns (effects: seq<Effect>)
    ensures Registrations(effects) == [(registrar, WebsocketSink(appId, conn))]
    ensures Unregistrations(effects) == Registrations(effects)
    ensures UnregisteredAfter(effects)
    ensures |effects| == 3
    ensures effects[0] == Register(registrar, WebsocketSink(appId, conn), world.registerAccepted)
    ensures effects[1] == KeepAliveEnded(world.keepAliveEnd)
    ensures effects[|effects| - 1] == Unregister(registrar, WebsocketSink(appId, conn))
  {
    var websocketSink := WebsocketSink(appId, conn);
    var register := Register(registrar, websocketSink, world.registerAccepted);
    var ended := KeepAliveEnded(world.keepAliveEnd);
    var unregister := Unregister(registrar, websocketSink);
    effects := [register] + [ended] + [unregister];
    RegistrationsOfOne(register);
    RegistrationsOfOne(ended);
    RegistrationsOfOne(unregister);
    RegistrationsAppend([register], [ended]);
    RegistrationsAppend([register] + [ended], [unregister]);
    assert effects[2] == unregister;
  }

  /** What streamWebsocket does on a connection: it registers the sink,
      waits until the keep-alive loop ends, and only then unregisters that
      same sink with the same registrar. */
  predicate StreamedOnce(registrar: Registrar, sink: WebsocketSink, world: World, effects: seq<Effect>) {
    && |effects| == 3
    && effects[0] == Register(registrar, sink, world.registerAccepted)
    && effects[1] == KeepAliveEnded(world.keepAliveEnd)
    && effects[2] == Unregister(registrar, sink)
  }

  /** What recentLogs does on a connection: one request for the app's recent
      envelopes, then one write per envelope, in order. */
  predicate Replayed(appId: string, world: World, effects: seq<Effect>) {
    var logs := world.recentLogsFor(appId);
    && |effects| == 1 + |logs|
    && effects[0] == RecentLogsRequested(appId)
    && forall i :: 0 <= i < |logs| ==> effects[1 + i] == Write(world.marshal(logs[i]).bytes, world.writeOk(i))
  }

  /** The calls the selected handler makes, given matches[1] and the
      upgraded connection. */
  predicate HandlerRan(h: Handler, appId: string, conn: nat, world: World, effects: seq<Effect>) {
    match h
    case StreamLogs => StreamedOnce(AppRegistry, WebsocketSink(appId, conn), world, effects)
    case StreamFirehose => StreamedOnce(FirehoseRegistry, WebsocketSink(FirehoseAppId, conn), world, effects)
    case RecentLogs => Replayed(appId, world, effects)
  }

  /** streamLogs: a websocket sink for the app, with the app pair. */
  method StreamLogsHandler(appId: string, conn: nat, world: World) returns (effects: seq<Effect>)
    ensures Registrations(effects) == [(AppRegistry, WebsocketSink(appId, conn))]
    ensures Unregistrations(effects) == Registrations(effects)
    ensures UnregisteredAfter(effects)
    ensures HandlerRan(StreamLogs, appId, conn, world, effects)
  {
    effects := StreamWebsocket(appId, conn, AppRegistry, world);
  }

  /** streamFirehose: a websocket sink for FIREHOSE_APP_ID, whatever app id
      it is given, with the firehose pair. */
  method StreamFirehoseHandler(appId: string, conn: nat, world: World) returns (effects: seq<Effect>)
    ensures Registrations(effects) == [(FirehoseRegistry, WebsocketSink(FirehoseAppId, conn))]
    ensures Unregistrations(effects) == Registrations(effects)
    ensures UnregisteredAfter(effects)
    ensures HandlerRan(StreamFirehose, appId, conn, world, effects)
  {
    effects := StreamWebsocket(FirehoseAppId, conn, FirehoseRegistry, world);
  }

  /** recentLogs: asks the sink manager for the app's recent envelopes and
      writes them all, in order; nothing is registered. */
  method RecentLogsHandler(appId: string, conn: nat, world: World) returns (effects: seq<Effect>)
    ensures Registrations(effects) == [] && Unregistrations(effects) == []
    ensures UnregisteredAfter(effects)
    ensures |effects| == 1 + |world.recentLogsFor(appId)| && effects[0] == RecentLogsRequested(appId)
    ensures forall i :: 0 <= i < |world.recentLogsFor(appId)| ==>
              effects[1 + i] == Write(world.marshal(world.recentLogsFor(appId)[i]).bytes, world.writeOk(i))
    ensures HandlerRan(RecentLogs, appId, conn, world, effects)
  {
    var logMessages := world.recentLogsFor(appId);
    var writes := SendMessagesToWebsocket(logMessages, world.marshal, world.writeOk);
    effects := [RecentLogsRequested(appId)] + writes;
    NoRegistrationsInWrites(writes);
    RegistrationsAppend([RecentLogsRequested(appId)], writes);
  }

  lemma {:induction false} NoRegistrationsInWrites(writes: seq<Effect>)
    requires forall i :: 0 <= i < |writes| ==> writes[i].Write?
    ensures Registrations(writes) == [] && Unregistrations(writes) == []
  {
    if writes != [] {
      NoRegistrationsInWrites(writes[1..]);
    }
  }

  /** The registration a handler makes for a connection: an app sink for
      streamLogs, a firehose sink for streamFirehose, none for recentLogs. */
  function HandlerRegistrations(h: Handler, appId: string, conn: nat): seq<(Registrar, WebsocketSink)> {
    match h
    case StreamLogs => [(AppRegistry, WebsocketSink(appId, conn))]
    case StreamFirehose => [(FirehoseRegistry, WebsocketSink(FirehoseAppId, conn))]
    case RecentLogs => []
  }

  /** ServeHTTP: routes the path; on a rejection responds and returns before
      the upgrade; otherwise upgrades, runs the handler with matches[1], and
      then sends the close frame and closes the connection.  Whatever the
      collaborators answer, every sink it registers it unregisters once,
      after the registration and before the close frame; a rejected
      request registers nothing. */
  method ServeHTTP(path: string, world: World) returns (effects: seq<Effect>)
    ensures Route(path).Reject? ==>
              effects == [Respond(Route(path).status, Route(path).wwwAuthenticate, Route(path).body)]
    ensures Route(path).Dispatch? && world.upgrade.UpgradeFailed? ==>
              effects == [Respond(400, false, world.upgrade.err + "\n")]
    ensures Route(path).Dispatch? && world.upgrade.Upgraded? ==>
              && |effects| >= 3
              && effects[0] == Upgrade(world.upgrade.conn)
              && HandlerRan(Route(path).handler, Route(path).appId, world.upgrade.conn, world, effects[1..|effects| - 2])
              && effects[|effects| - 2..] == [CloseFrame, CloseConn]
    ensures Unregistrations(effects) == Registrations(effects)
    ensures UnregisteredAfter(effects)
    ensures Registrations(effects) ==
              if Route(path).Dispatch? && world.upgrade.Upgraded?
              then HandlerRegistrations(Route(path).handler, Route(path).appId, world.upgrade.conn)
              else []
  {
    effects := Serve(Route(path), world);
  }

  /** ServeHTTP after the route decision: the error response, or the
      upgrade, the handler and the deferred close frame and close. */
  method Serve(decision: Decision, world: World) returns (effects: seq<Effect>)
    ensures decision.Reject? ==>
              effects == [Respond(decision.status, decision.wwwAuthenticate, decision.body)]
    ensures decision.Dispatch? && world.upgrade.UpgradeFailed? ==>
              effects == [Respond(400, false, world.upgrade.err + "\n")]
    ensures decision.Dispatch? && world.upgrade.Upgraded? ==>
              && |effects| >= 3
              && effects[0] == Upgrade(world.upgrade.conn)
              && HandlerRan(decision.handler, decision.appId, world.upgrade.conn, world, effects[1..|effects| - 2])
              && effects[|effects| - 2..] == [CloseFrame, CloseConn]
    ensures Unregistrations(effects) == Registrations(effects)
    ensures UnregisteredAfter(effects)
    ensures Registrations(effects) ==
              if decision.Dispatch? && world.upgrade.Upgraded?
              then HandlerRegistrations(decision.handler, decision.appId, world.upgrade.conn)
              else []
  {
    if decision.Reject? {
      effects := [Respond(decision.status, decision.wwwAuthenticate, decision.body)];
      return;
    }
    if world.upgrade.UpgradeFailed? {
      effects := [Respond(400, false, world.upgrade.err + "\n")];
      return;
    }
    var ws := world.upgrade.conn;
    var appId := decision.appId;
    var handled: seq<Effect>;
    match decision.handler {
      case StreamLogs =>
        handled := StreamLogsHandler(appId, ws, world);
      case RecentLogs =>
        handled := RecentLogsHandler(appId, ws, world);
      case StreamFirehose =>
        handled := StreamFirehoseHandler(appId, ws, world);
    }
    effects := [Upgrade(ws)] + handled + [CloseFrame, CloseConn];
    assert effects[1..|effects| - 2] == handled;
    UpgradedSession(ws, handled);
  }

  /** The upgrade before a handler's effects and the deferred close frame
      and close after them register nothing and unregister nothing. */
  lemma UpgradedSession(ws: nat, handled: seq<Effect>)
    requires UnregisteredAfter(handled)
    ensures Registrations([Upgrade(ws)] + handled + [CloseFrame, CloseConn]) == Registrations(handled)
    ensures Unregistrations([Upgrade(ws)] + handled + [CloseFrame, CloseConn]) == Unregistrations(handled)
    ensures UnregisteredAfter([Upgrade(ws)] + handled + [CloseFrame, CloseConn])
  {
    RegistrationsOfOne(Upgrade(ws));
    RegistrationsAppend([CloseFrame], [CloseConn]);
    RegistrationsOfOne(CloseFrame);
    RegistrationsOfOne(CloseConn);
    RegistrationsAppend([Upgrade(ws)], handled);
    RegistrationsAppend([Upgrade(ws)] + handled, [CloseFrame, CloseConn]);
    UnregisteredAfterFramed([Upgrade(ws)], handled, [CloseFrame, CloseConn]);
  }
}
