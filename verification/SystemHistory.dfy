/** Who receives a message in the whole system, read off the history of calls the server has served. */
module SystemHistory {
  import opened Basics
  import opened ClientCore
  import opened Protocol
  import opened ServerCore
  import opened System
  import opened ServerTraces
  import H = History
  import R = Records
  import N = NodeCore

  function WorldOf(s: ServerState): H.World {
    H.World(s.users.Keys, s.node)
  }

  function CloseEvents(cs: seq<nat>): seq<H.Event> {
    if cs == [] then [] else [H.DropUser(cs[0]), H.Erase(cs[0])] + CloseEvents(cs[1..])
  }

  function RequestEvents(c: nat, f: Up): seq<H.Event> {
    match f
    case Req(_, CreateQueue(name)) => [H.MakeQueue(name, c)]
    case Req(_, Subscribe(settings)) => [H.Change(N.Subscribe, settings, c)]
    case Req(_, Unsubscribe(name)) => [H.Change(N.Unsubscribe, SubscriptionParams(name, []), c)]
    case _ => []
  }

  /** The calls on the user base and the broker that a step of the server makes. */
  function ServerEvents(s: ServerState, l: ServerLabel): seq<H.Event> {
    match l
    case AcceptConn => [H.AddUser(s.nextId)]
    case Message(c, f) => RequestEvents(c, f)
    case NetworkError(c) => if c in s.open then CloseEvents([c]) else []
    case StopServer => if s.stopped then [] else CloseEvents(s.conns)
    case LocalCreate(name) => [H.MakeQueue(name, SERVER_ID)]
    case LocalSubscribe(settings) => [H.Change(N.Subscribe, settings, SERVER_ID)]
    case LocalPublish(_, _) => []
  }

  lemma TwoCalls(h: seq<H.Event>, a: H.Event, b: H.Event)
    ensures H.After(h + [a, b]) == H.Apply(H.Apply(H.After(h), a), b)
  {
    assert h + [a, b] == (h + [a]) + [b];
    H.AfterCall(h + [a], b);
    H.AfterCall(h, a);
  }

  lemma CloseFollows(s: ServerState, c: nat, h: seq<H.Event>)
    requires Agreement(s) && c in s.open && WorldOf(s) == H.After(h)
    ensures Close(s, c).Some? && WorldOf(Close(s, c).value) == H.After(h + [H.DropUser(c), H.Erase(c)])
  {
    CloseAgrees(s, c);
    TwoCalls(h, H.DropUser(c), H.Erase(c));
    assert (s.users - {c}).Keys == s.users.Keys - {c};
  }

  lemma {:induction false} CloseAllFollows(s: ServerState, cs: seq<nat>, h: seq<H.Event>)
    requires Agreement(s) && Distinct(cs) && Elements(cs) <= s.open && WorldOf(s) == H.After(h)
    ensures CloseAll(s, cs).Some? && WorldOf(CloseAll(s, cs).value) == H.After(h + CloseEvents(cs))
    decreases |cs|
  {
    if cs == [] {
      assert h + [] == h;
    } else {
      var two := [H.DropUser(cs[0]), H.Erase(cs[0])];
      RestIsOpen(s, cs);
      CloseFollows(s, cs[0], h);
      CloseAllFollows(Close(s, cs[0]).value, cs[1..], h + two);
      Regroup(h, two, CloseEvents(cs[1..]));
    }
  }

  /** Users and broker after a step are what its calls make of them. */
  lemma StepFollows(rx: N.Engine, s: ServerState, l: ServerLabel, h: seq<H.Event>)
    requires Agreement(s) && ServerEnabled(s, l) && WorldOf(s) == H.After(h)
    ensures WorldOf(ServerStep(rx, s, l).state) == H.After(h + ServerEvents(s, l))
  {
    if |ServerEvents(s, l)| == 1 {
      H.AfterCall(h, ServerEvents(s, l)[0]);
    } else if ServerEvents(s, l) == [] {
      assert h + [] == h;
    }
    match l
    case NetworkError(c) =>
      if c in s.open {
        CloseFollows(s, c, h);
        assert CloseEvents([c]) == [H.DropUser(c), H.Erase(c)];
      }
    case StopServer => if !s.stopped { CloseAllFollows(s, s.conns, h); }
    case LocalPublish(params, data) => PublishAgrees(rx, s, params, data);
    case Message(c, Req(_, Publish(params, data))) => PublishAgrees(rx, s, params, data);
    case Message(c, Login(login)) => assert s.users[c := login].Keys == s.users.Keys;
    case AcceptConn =>
    case _ => NodeCallsFollow(rx, s, l);
  }

  /** A request or local call changes the broker as the broker's own call does, or throws like it. */
  lemma NodeCallsFollow(rx: N.Engine, s: ServerState, l: ServerLabel)
    requires |ServerEvents(s, l)| == 1 && (l.LocalCreate? || l.LocalSubscribe? || l.Message?)
    ensures WorldOf(ServerStep(rx, s, l).state) == H.Apply(WorldOf(s), ServerEvents(s, l)[0])
  {
  }

  // ---------------------------------------------------------------- the whole system

  /** The step the server takes, if it takes one. */
  function ServerCall(y: Sys, l: SysLabel): Option<ServerLabel> {
    match l
    case Client(_, _) => None
    case Open(_, _) => Some(AcceptConn)
    case Serve(i) =>
      if i < |y.peers| && y.peers[i].link.Some? && y.peers[i].link.value.up != []
      then Some(Message(y.peers[i].link.value.conn, y.peers[i].link.value.up[0])) else None
    case ServeStale(i, conn) =>
      if i < |y.peers| && conn in y.peers[i].stale && y.peers[i].stale[conn] != []
      then Some(Message(conn, y.peers[i].stale[conn][0])) else None
    case Local(call) => Some(call)
  }

  function SysEvents(y: Sys, l: SysLabel): seq<H.Event> {
    var call := ServerCall(y, l);
    if call.None? then [] else ServerEvents(y.server, call.value)
  }

  /** The history of calls served in a run. */
  ghost function Served(rx: N.Engine, y: Sys, run: seq<SysLabel>): seq<H.Event>
    decreases |run|
  {
    if run == [] || !SysEnabled(rx, y, run[0]) then []
    else SysEvents(y, run[0]) + Served(rx, SysNext(rx, y, run[0]), run[1..])
  }

  lemma SysStepIsServerStep(rx: N.Engine, y: Sys, l: SysLabel)
    requires SysEnabled(rx, y, l)
    ensures var call := ServerCall(y, l);
            && (call.None? ==> SysNext(rx, y, l).server == y.server)
            && (call.Some? ==> ServerEnabled(y.server, call.value) && PatternsOk(rx, y.server, call.value)
                               && SysNext(rx, y, l).server == ServerStep(rx, y.server, call.value).state)
  {
  }

  lemma SysStepFollows(rx: N.Engine, y: Sys, l: SysLabel, h: seq<H.Event>)
    requires SysInv(y) && SysEnabled(rx, y, l) && WorldOf(y.server) == H.After(h)
    ensures WorldOf(SysNext(rx, y, l).server) == H.After(h + SysEvents(y, l))
  {
    SysStepIsServerStep(rx, y, l);
    if ServerCall(y, l).Some? {
      StepFollows(rx, y.server, ServerCall(y, l).value, h);
    } else {
      assert h + [] == h;
    }
  }

  /** The server's users and broker are those of the calls `h`. */
  ghost predicate Following(y: Sys, h: seq<H.Event>) {
    SysInv(y) && WorldOf(y.server) == H.After(h)
  }

  lemma SysStepFollowing(rx: N.Engine, y: Sys, l: SysLabel, h: seq<H.Event>)
    requires Following(y, h) && SysEnabled(rx, y, l)
    ensures Following(SysNext(rx, y, l), h + SysEvents(y, l))
  {
    SysStepFollows(rx, y, l, h);
    SysStepKeepsInv(rx, y, l);
  }

  lemma {:induction false} RunFollows(rx: N.Engine, y: Sys, run: seq<SysLabel>, h: seq<H.Event>)
    requires Following(y, h) && SysRun(rx, y, run).Some?
    ensures Following(SysRun(rx, y, run).value, h + Served(rx, y, run))
    decreases |run|
  {
    if run == [] {
      assert h + [] == h;
    } else {
      SysStepFollowing(rx, y, run[0], h);
      RunFollows(rx, SysNext(rx, y, run[0]), run[1..], h + SysEvents(y, run[0]));
      Regroup(h, SysEvents(y, run[0]), Served(rx, SysNext(rx, y, run[0]), run[1..]));
    }
  }

  lemma InitFollows(logins: seq<Text>)
    ensures Following(InitSys(logins), [])
  {
    InitSysInv(logins);
  }

  /** In every run of the whole system the server's users and broker are those of the calls it served. */
  lemma ServerFollowsHistory(rx: N.Engine, logins: seq<Text>, run: seq<SysLabel>)
    requires SysRun(rx, InitSys(logins), run).Some?
    ensures Following(SysRun(rx, InitSys(logins), run).value, Served(rx, InitSys(logins), run))
  {
    InitFollows(logins);
    RunFollows(rx, InitSys(logins), run, []);
    assert [] + Served(rx, InitSys(logins), run) == Served(rx, InitSys(logins), run);
  }

  // ---------------------------------------------------------------- delivery

  /** The OK that ends what the author of a request is sent. */
  function AckOf(l: ServerLabel, d: nat): seq<Down> {
    if l.Message? && l.conn == d && l.frame.Req? then [Ok(l.frame.id)] else []
  }

  /** Any publish, by a client, on a broken connection or by the server itself, is sent once to each
   *  client that is a target and to no other. */
  lemma PublishSends(rx: N.Engine, s: ServerState, l: ServerLabel, d: nat) returns (copies: seq<Down>)
    requires Agreement(s) && ServerEnabled(s, l) && PublishOf(l).Some? && PatternsOk(rx, s, l) && d != SERVER_ID
    ensures FramesTo(ServerStep(rx, s, l).outs, d) == copies + AckOf(l, d)
    ensures OneCopyIff(copies, d in N.Targets(rx, s.node, PublishOf(l).value), PublishOf(l).value, DataOf(l))
  {
    match l
    case Message(c, f) =>
      MessageSucceeds(rx, s, c, f);
      copies := ReplyShape(rx, s, c, f, d);
    case LocalPublish(params, data) =>
      copies := FramesTo(ServerStep(rx, s, l).outs, d);
      CopiesDue(rx, s, SERVER_ID, ClientCore.Publish(params, data), d);
  }

  lemma TargetsFollowHistory(rx: N.Engine, h: seq<H.Event>, params: PublishParams, d: nat)
    requires !N.DeliveryThrows(rx, H.After(h).node, params)
    ensures d in N.Targets(rx, H.After(h).node, params) <==>
            R.Exists(h, params.queueName) && H.Receives(rx, h, params.queueName, d, params.tag)
  {
    R.QueuesFollowHistory(h, params.queueName);
    if params.queueName in H.After(h).node.queues {
      H.DeliveryFollowsHistory(rx, h, params);
    }
  }

  /** What reaches a connected client is what the server sent on its connection. */
  lemma StepArrives(rx: N.Engine, y: Sys, l: SysLabel, j: nat)
    requires SysEnabled(rx, y, l) && ServerCall(y, l).Some? && !l.Open? && j < |y.peers| && y.peers[j].link.Some?
    ensures var k, k' := y.peers[j].link.value, SysNext(rx, y, l).peers[j].link;
            k'.Some? && k'.value.conn == k.conn
            && k'.value.down == k.down + FramesTo(ServerStep(rx, y.server, ServerCall(y, l).value).outs, k.conn)
  {
  }

  /** End to end: in every run, a publish served next puts exactly one copy on the connection of client
   *  `j` if the queue exists and the history of served calls has a subscription of that connection in
   *  force whose pattern accepts the tag, and no copy otherwise. */
  lemma SystemDeliveryFollowsHistory(rx: N.Engine, logins: seq<Text>, run: seq<SysLabel>, l: SysLabel, j: nat)
    returns (copies: seq<Down>)
    requires SysRun(rx, InitSys(logins), run).Some?
    requires var y := SysRun(rx, InitSys(logins), run).value;
             && SysEnabled(rx, y, l) && j < |y.peers| && y.peers[j].link.Some?
             && ServerCall(y, l).Some? && PublishOf(ServerCall(y, l).value).Some?
    ensures var y, h := SysRun(rx, InitSys(logins), run).value, Served(rx, InitSys(logins), run);
            var call, k := ServerCall(y, l).value, y.peers[j].link.value;
            var params := PublishOf(call).value;
            && SysNext(rx, y, l).peers[j].link.Some?
            && SysNext(rx, y, l).peers[j].link.value.down == k.down + (copies + AckOf(call, k.conn))
            && OneCopyIff(copies, R.Exists(h, params.queueName) && H.Receives(rx, h, params.queueName, k.conn, params.tag),
                          params, DataOf(call))
  {
    var y, h := SysRun(rx, InitSys(logins), run).value, Served(rx, InitSys(logins), run);
    ServerFollowsHistory(rx, logins, run);
    copies := DeliveryStep(rx, y, l, j, h);
  }

  lemma DeliveryStep(rx: N.Engine, y: Sys, l: SysLabel, j: nat, h: seq<H.Event>) returns (copies: seq<Down>)
    requires Following(y, h) && SysEnabled(rx, y, l) && j < |y.peers| && y.peers[j].link.Some?
    requires ServerCall(y, l).Some? && PublishOf(ServerCall(y, l).value).Some?
    ensures var call, k := ServerCall(y, l).value, y.peers[j].link.value;
            var params := PublishOf(call).value;
            && SysNext(rx, y, l).peers[j].link.Some?
            && SysNext(rx, y, l).peers[j].link.value.down == k.down + (copies + AckOf(call, k.conn))
            && OneCopyIff(copies, R.Exists(h, params.queueName) && H.Receives(rx, h, params.queueName, k.conn, params.tag),
                          params, DataOf(call))
  {
    var call, conn := ServerCall(y, l).value, y.peers[j].link.value.conn;
    SysStepIsServerStep(rx, y, l);
    StepArrives(rx, y, l, j);
    ConnsOf(y, j);
    assert OwnsConn(y.peers[j], conn);
    copies := PublishSends(rx, y.server, call, conn);
    TargetsFollowHistory(rx, h, PublishOf(call).value, conn);
  }

  /** What a step of the system sends, on connections and to the server's own consumers. */
  ghost function SentBy(rx: N.Engine, y: Sys, l: SysLabel): seq<Out> {
    var call := ServerCall(y, l);
    if call.None? then [] else ServerStep(rx, y.server, call.value).outs
  }

  lemma ConsumerStep(rx: N.Engine, y: Sys, l: SysLabel, h: seq<H.Event>)
    requires Following(y, h) && SysEnabled(rx, y, l) && ServerCall(y, l).Some?
    ensures var call := ServerCall(y, l).value;
            ConsumerCalls(SentBy(rx, y, l)) ==
            if PublishOf(call).Some? && R.Exists(h, PublishOf(call).value.queueName)
               && H.Receives(rx, h, PublishOf(call).value.queueName, SERVER_ID, PublishOf(call).value.tag)
            then [ToConsumer(PublishOf(call).value, DataOf(call))] else []
  {
    var call := ServerCall(y, l).value;
    SysStepIsServerStep(rx, y, l);
    ConsumersAreCalled(rx, y.server, call);
    if PublishOf(call).Some? {
      TargetsFollowHistory(rx, h, PublishOf(call).value, SERVER_ID);
    }
  }

  /** In every run, the next step calls the server's own consumers once, with the message, if it serves a
   *  publish to a queue that exists and the history of served calls has a subscription of the server in
   *  force whose pattern accepts the tag; otherwise it does not call them. */
  lemma ServerConsumersFollowHistory(rx: N.Engine, logins: seq<Text>, run: seq<SysLabel>, l: SysLabel)
    requires SysRun(rx, InitSys(logins), run).Some?
    requires SysEnabled(rx, SysRun(rx, InitSys(logins), run).value, l)
    ensures var y, h := SysRun(rx, InitSys(logins), run).value, Served(rx, InitSys(logins), run);
            var call := ServerCall(y, l);
            ConsumerCalls(SentBy(rx, y, l)) ==
            if call.Some? && PublishOf(call.value).Some? && R.Exists(h, PublishOf(call.value).value.queueName)
               && H.Receives(rx, h, PublishOf(call.value).value.queueName, SERVER_ID, PublishOf(call.value).value.tag)
            then [ToConsumer(PublishOf(call.value).value, DataOf(call.value))] else []
  {
    var y, h := SysRun(rx, InitSys(logins), run).value, Served(rx, InitSys(logins), run);
    ServerFollowsHistory(rx, logins, run);
    if ServerCall(y, l).Some? {
      ConsumerStep(rx, y, l, h);
    }
  }
}
