/** The five HTTP handlers of the audio server, reduced to their decision: resolve the
    requested name against the asset root, reject a path that does not exist, and
    otherwise hand exactly one command to the worker's channel. */
module Api {
  import opened Protocol

  /** A path is absolute when it starts at the file-system root. */
  predicate IsAbsolute(p: string) {
    |p| > 0 && p[0] == '/'
  }

  /** Pushing a relative path onto `base` puts a separator in between unless `base`
      is empty or already ends with one. */
  predicate NeedsSeparator(base: string) {
    |base| > 0 && base[|base| - 1] != '/'
  }

  /** `Path::new(root).join(name)` on a Unix file system. There is no check that the
      result stays under `root`: an absolute `name` replaces it, and `..` is kept. */
  function Join(root: string, name: string): (p: string)
    ensures |p| >= |name| && p[|p| - |name|..] == name
    ensures IsAbsolute(name) ==> p == name
    ensures !IsAbsolute(name) ==> |p| >= |root| && p[..|root|] == root
    ensures !IsAbsolute(name) ==> |root| + |name| <= |p| <= |root| + |name| + 1
    ensures !IsAbsolute(name) && root != [] ==> p[|p| - |name| - 1] == '/'
    ensures root == [] ==> p == name
    ensures !IsAbsolute(name) && !NeedsSeparator(root) ==> |p| == |root| + |name|
  {
    if IsAbsolute(name) then name
    else if NeedsSeparator(root) then root + "/" + name
    else root + name
  }

  /** What a handler answers, and the message it tries to send (if any). */
  datatype Reply = Reply(response: Response, sent: Option<Message>)

  /** GET /play/:name */
  function HandlePlay(root: string, name: string, onDisk: string -> bool): (r: Reply)
    ensures r.response.code == Success <==> onDisk(Join(root, name))
    ensures r.response.code != Success ==> r.response == FileNotFound && r.sent == None
    ensures r.response.code == Success ==> r.response == Accepted && r.sent == Some(Play(Join(root, name)))
  {
    var path := Join(root, name);
    if !onDisk(path) then Reply(FileNotFound, None)
    else Reply(Accepted, Some(Play(path)))
  }

  /** GET /play-loop/:name */
  function HandlePlayLoop(root: string, name: string, onDisk: string -> bool): (r: Reply)
    ensures r.response.code == Success <==> onDisk(Join(root, name))
    ensures r.response.code != Success ==> r.response == FileNotFound && r.sent == None
    ensures r.response.code == Success ==> r.response == Accepted && r.sent == Some(PlayLoop(Join(root, name)))
  {
    var path := Join(root, name);
    if !onDisk(path) then Reply(FileNotFound, None)
    else Reply(Accepted, Some(PlayLoop(path)))
  }

  /** GET /pause: never rejects. */
  function HandlePause(): (r: Reply)
    ensures r.response.code == Success && r.sent == Some(Pause)
  {
    Reply(Accepted, Some(Pause))
  }

  /** GET /resume: never rejects. */
  function HandleResume(): (r: Reply)
    ensures r.response.code == Success && r.sent == Some(Resume)
  {
    Reply(Accepted, Some(Resume))
  }

  /** GET /stop: never rejects. */
  function HandleStop(): (r: Reply)
    ensures r.response.code == Success && r.sent == Some(Stop)
  {
    Reply(Accepted, Some(Stop))
  }

  /** The five routes a caller can hit. */
  datatype Route =
    | PlayRoute(name: string)
    | PlayLoopRoute(name: string)
    | PauseRoute
    | ResumeRoute
    | StopRoute

  function Handle(root: string, onDisk: string -> bool, route: Route): Reply {
    match route
    case PlayRoute(name) => HandlePlay(root, name, onDisk)
    case PlayLoopRoute(name) => HandlePlayLoop(root, name, onDisk)
    case PauseRoute => HandlePause()
    case ResumeRoute => HandleResume()
    case StopRoute => HandleStop()
  }

  /** The channel after `tx.lock().map(|t| t.send(..)).ok()`: the message is appended
      when both the lock and the send succeed (`delivered`); otherwise it is dropped and
      the handler does not notice. */
  function Admit(rx: seq<Message>, r: Reply, delivered: bool): (rx': seq<Message>)
    ensures |rx| <= |rx'| <= |rx| + 1 && rx'[..|rx|] == rx
    ensures |rx'| == |rx| + 1 <==> delivered && r.sent.Some?
    ensures |rx'| == |rx| + 1 ==> rx'[|rx|] == r.sent.value
  {
    if delivered && r.sent.Some? then rx + [r.sent.value] else rx
  }

  /** The answers given to a run of requests, in the order their sends were admitted,
      and the channel contents they leave behind. */
  datatype Served = Served(responses: seq<Response>, channel: seq<Message>)

  function ServeAll(root: string, onDisk: string -> bool, routes: seq<Route>, delivered: seq<bool>): (s: Served)
    requires |delivered| == |routes|
    ensures |s.responses| == |routes|
    ensures |s.channel| <= |routes|
    decreases |routes|
  {
    if routes == [] then Served([], [])
    else
      var n := |routes| - 1;
      var prev := ServeAll(root, onDisk, routes[..n], delivered[..n]);
      var r := Handle(root, onDisk, routes[n]);
      Served(prev.responses + [r.response], Admit(prev.channel, r, delivered[n]))
  }

  /** Handling one more request extends the answers by its response and the channel by
      at most its message. */
  lemma ServeAllSnoc(root: string, onDisk: string -> bool, routes: seq<Route>, delivered: seq<bool>, route: Route, d: bool)
    requires |delivered| == |routes|
    ensures var prev := ServeAll(root, onDisk, routes, delivered);
      var r := Handle(root, onDisk, route);
      ServeAll(root, onDisk, routes + [route], delivered + [d])
        == Served(prev.responses + [r.response], Admit(prev.channel, r, d))
  {
    assert (routes + [route])[..|routes|] == routes;
    assert (delivered + [d])[..|routes|] == delivered;
  }

  /** A route is accepted when it does not name a file or its joined path exists on disk. */
  predicate Accepts(root: string, onDisk: string -> bool, route: Route) {
    (route.PlayRoute? || route.PlayLoopRoute?) ==> onDisk(Join(root, route.name))
  }

  /** The one message an accepted route stands for. */
  function MessageFor(root: string, route: Route): Message {
    match route
    case PlayRoute(name) => Play(Join(root, name))
    case PlayLoopRoute(name) => PlayLoop(Join(root, name))
    case PauseRoute => Pause
    case ResumeRoute => Resume
    case StopRoute => Stop
  }

  /** Reference definition of the channel, read front to back: the messages of the
      accepted and delivered requests, in request order, one each. */
  function Expected(root: string, onDisk: string -> bool, routes: seq<Route>, delivered: seq<bool>): seq<Message>
    requires |delivered| == |routes|
    decreases |routes|
  {
    if routes == [] then []
    else
      (if delivered[0] && Accepts(root, onDisk, routes[0]) then [MessageFor(root, routes[0])] else [])
      + Expected(root, onDisk, routes[1..], delivered[1..])
  }

  lemma {:induction false} ExpectedAppend(root: string, onDisk: string -> bool,
                                         a: seq<Route>, da: seq<bool>, b: seq<Route>, db: seq<bool>)
    requires |da| == |a| && |db| == |b|
    ensures Expected(root, onDisk, a + b, da + db)
         == Expected(root, onDisk, a, da) + Expected(root, onDisk, b, db)
    decreases |a|
  {
    if a == [] {
      assert a + b == b && da + db == db;
    } else {
      assert (a + b)[1..] == a[1..] + b && (da + db)[1..] == da[1..] + db;
      ExpectedAppend(root, onDisk, a[1..], da[1..], b, db);
    }
  }

  /** Each handler's whole decision: an accepted route is answered `success` and sends
      exactly the message it stands for; a rejected one is answered "File not found" and
      sends nothing. */
  lemma HandleDecides(root: string, onDisk: string -> bool, route: Route)
    ensures var r := Handle(root, onDisk, route);
      if Accepts(root, onDisk, route) then r == Reply(Accepted, Some(MessageFor(root, route)))
      else r == Reply(FileNotFound, None)
  {
  }


  /** The channel is FIFO: it holds exactly the messages of the accepted requests whose
      send went through, in the order the requests were handled. */
  lemma {:induction false} ChannelIsFifo(root: string, onDisk: string -> bool, routes: seq<Route>, delivered: seq<bool>)
    requires |delivered| == |routes|
    ensures ServeAll(root, onDisk, routes, delivered).channel == Expected(root, onDisk, routes, delivered)
    decreases |routes|
  {
    if routes != [] {
      var n := |routes| - 1;
      var pre, dpre, route, d := routes[..n], delivered[..n], routes[n], delivered[n];
      assert routes == pre + [route] && delivered == dpre + [d];
      ChannelIsFifo(root, onDisk, pre, dpre);
      ServeAllSnoc(root, onDisk, pre, dpre, route, d);
      ExpectedAppend(root, onDisk, pre, dpre, [route], [d]);
      HandleDecides(root, onDisk, route);
      assert [route][1..] == [] && [d][1..] == [];
      assert Expected(root, onDisk, [route], [d])
          == if d && Accepts(root, onDisk, route) then [MessageFor(root, route)] else [];
    }
  }


  /** Every response is Success exactly for the accepted requests and "File not found"
      otherwise, whether or not the sends went through; ServerError is never answered. */
  lemma {:induction false} ResponsesMeaning(root: string, onDisk: string -> bool, routes: seq<Route>, delivered: seq<bool>)
    requires |delivered| == |routes|
    ensures var rs := ServeAll(root, onDisk, routes, delivered).responses;
      forall i :: 0 <= i < |routes| ==>
        rs[i].code != ServerError &&
        (rs[i] == Accepted <==> Accepts(root, onDisk, routes[i])) &&
        (rs[i] != Accepted ==> rs[i] == FileNotFound)
    decreases |routes|
  {
    if routes != [] {
      var n := |routes| - 1;
      var pre, dpre := routes[..n], delivered[..n];
      assert routes == pre + [routes[n]] && delivered == dpre + [delivered[n]];
      ResponsesMeaning(root, onDisk, pre, dpre);
      ServeAllSnoc(root, onDisk, pre, dpre, routes[n], delivered[n]);
      HandleDecides(root, onDisk, routes[n]);
      var rs := ServeAll(root, onDisk, routes, delivered).responses;
      var prs := ServeAll(root, onDisk, pre, dpre).responses;
      assert rs == prs + [Handle(root, onDisk, routes[n]).response];
      forall i | 0 <= i < n
        ensures rs[i] == prs[i] && routes[i] == pre[i]
      {
      }
    }
  }


  /** The answers never depend on whether the lock and the send succeeded. */
  lemma {:induction false} ResponsesIgnoreDelivery(root: string, onDisk: string -> bool, routes: seq<Route>,
                                                  d1: seq<bool>, d2: seq<bool>)
    requires |d1| == |routes| && |d2| == |routes|
    ensures ServeAll(root, onDisk, routes, d1).responses == ServeAll(root, onDisk, routes, d2).responses
    decreases |routes|
  {
    if routes != [] {
      var n := |routes| - 1;
      ResponsesIgnoreDelivery(root, onDisk, routes[..n], d1[..n], d2[..n]);
    }
  }

  /** A command naming a file reaches the channel only if that path existed when its
      handler looked. */
  lemma {:induction false} ChannelOnlyValidated(root: string, onDisk: string -> bool, routes: seq<Route>, delivered: seq<bool>)
    requires |delivered| == |routes|
    ensures forall m :: m in ServeAll(root, onDisk, routes, delivered).channel && m.NamesFile() ==> onDisk(m.path)
    decreases |routes|
  {
    if routes != [] {
      var n := |routes| - 1;
      ChannelOnlyValidated(root, onDisk, routes[..n], delivered[..n]);
      var r := Handle(root, onDisk, routes[n]);
      assert r.sent.Some? && r.sent.value.NamesFile() ==> onDisk(r.sent.value.path);
    }
  }
}
