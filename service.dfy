/** The handlers and the worker together: requests are answered and admitted to the
    channel in one order, and the worker drains the channel in that same order. */
module Service {
  import opened Protocol
  import opened Api
  import opened Player

  /** A Play or PlayLoop request for a missing file is answered "File not found" and
      changes nothing the worker will see: the channel is as without it. */
  lemma MissingFileNeverReachesPlayer(root: string, onDisk: string -> bool, routes: seq<Route>, delivered: seq<bool>,
                                      route: Route, d: bool)
    requires |delivered| == |routes|
    requires (route.PlayRoute? || route.PlayLoopRoute?) && !onDisk(Join(root, route.name))
    ensures var after := ServeAll(root, onDisk, routes + [route], delivered + [d]);
      var before := ServeAll(root, onDisk, routes, delivered);
      after.responses == before.responses + [FileNotFound] &&
      after.channel == before.channel
  {
    ServeAllSnoc(root, onDisk, routes, delivered, route, d);
  }

  /** Whatever the requests and whatever the worker meets on disk, the sink of a freshly
      started worker only ever holds files whose joined path existed when requested. */
  lemma SinkHoldsOnlyValidatedFiles(root: string, onDisk: string -> bool, routes: seq<Route>, delivered: seq<bool>,
                                    loads: seq<Load>)
    requires |delivered| == |routes|
    requires |loads| == |ServeAll(root, onDisk, routes, delivered).channel|
    ensures forall src :: src in Run(Fresh, ServeAll(root, onDisk, routes, delivered).channel, loads).queue ==>
      onDisk(src.path)
  {
    ChannelOnlyValidated(root, onDisk, routes, delivered);
    SourcesComeFromCommands(Fresh, ServeAll(root, onDisk, routes, delivered).channel, loads, onDisk);
  }

  /** Two Play requests for existing files, both admitted and both decodable: the sink
      ends up playing exactly the one admitted second, whatever it held before. */
  lemma SecondAdmittedPlayWins(root: string, onDisk: string -> bool, a: string, b: string, s: SinkState)
    requires onDisk(Join(root, a)) && onDisk(Join(root, b))
    ensures var served := ServeAll(root, onDisk, [PlayRoute(a), PlayRoute(b)], [true, true]);
      served.responses == [Accepted, Accepted] &&
      served.channel == [Message.Play(Join(root, a)), Message.Play(Join(root, b))] &&
      Run(s, served.channel, [Decodes, Decodes]) == SinkState([Src(Join(root, b), false)], false)
  {
    TwoPlaysAdmitted(root, onDisk, a, b);
    LaterPlayWins(s, Join(root, a), Join(root, b));
  }

  /** Both Play requests are answered `success` and enter the channel in admission order. */
  lemma TwoPlaysAdmitted(root: string, onDisk: string -> bool, a: string, b: string)
    requires onDisk(Join(root, a)) && onDisk(Join(root, b))
    ensures ServeAll(root, onDisk, [PlayRoute(a), PlayRoute(b)], [true, true])
         == Served([Accepted, Accepted], [Message.Play(Join(root, a)), Message.Play(Join(root, b))])
  {
    ServeAllSnoc(root, onDisk, [], [], PlayRoute(a), true);
    ServeAllSnoc(root, onDisk, [PlayRoute(a)], [true], PlayRoute(b), true);
    assert [] + [PlayRoute(a)] == [PlayRoute(a)] && [PlayRoute(a)] + [PlayRoute(b)] == [PlayRoute(a), PlayRoute(b)];
    assert [] + [true] == [true] && [true] + [true] == [true, true];
  }
}
