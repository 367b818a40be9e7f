/** All clients and the server together: the broker behind every connection of `Protocol`. */
module System {
  import opened Basics
  import opened ClientCore
  import opened Protocol
  import opened ServerCore
  import opened Guarantees
  import opened Order
  import N = NodeCore

  datatype Sys = Sys(server: ServerState, peers: seq<Peer>)

  datatype SysLabel =
    | Client(i: nat, step: Label)              // a step of client `i` alone
    | Open(i: nat, frames: seq<Up>)             // accept, and the client's connect callback
    | Serve(i: nat)                             // the server handles the next frame of client `i`
    | ServeStale(i: nat, conn: nat)             // ... or of one of its broken connections
    | Local(call: ServerLabel)                 // network errors, stop, calls made by the server itself

  /** The steps a client takes without the server. */
  predicate OwnStep(l: Label) {
    l.Issue? || l.Break? || l.Recv? || l.Release? || l.WaitAll?
  }

  predicate ServerOnly(l: ServerLabel) {
    !l.AcceptConn? && !l.Message?
  }

  /** The step does not deliver a message to a listener whose pattern does not compile. */
  ghost predicate PatternsOk(rx: N.Engine, s: ServerState, l: ServerLabel) {
    PublishOf(l).Some? ==> !N.DeliveryThrows(rx, s.node, PublishOf(l).value)
  }

  ghost predicate SysEnabled(rx: N.Engine, y: Sys, l: SysLabel) {
    match l
    case Client(i, step) => i < |y.peers| && OwnStep(step) && Enabled(y.peers[i], step)
    case Open(i, frames) =>
      && i < |y.peers| && ServerEnabled(y.server, AcceptConn)
      && Enabled(y.peers[i], Connect(y.server.nextId, frames))
    case Serve(i) =>
      && i < |y.peers| && y.peers[i].link.Some? && y.peers[i].link.value.up != []
      && y.peers[i].link.value.conn in y.server.open
      && PatternsOk(rx, y.server, Message(y.peers[i].link.value.conn, y.peers[i].link.value.up[0]))
    case ServeStale(i, conn) =>
      && i < |y.peers| && conn in y.peers[i].stale && y.peers[i].stale[conn] != [] && conn in y.server.open
      && PatternsOk(rx, y.server, Message(conn, y.peers[i].stale[conn][0]))
    case Local(step) => ServerOnly(step) && ServerEnabled(y.server, step) && PatternsOk(rx, y.server, step)
  }

  /** The network: frames sent on a connection join its queue if the client still uses it. */
  function Arrive(p: Peer, outs: seq<Out>): Peer {
    if p.link.None? then p
    else p.(link := Some(p.link.value.(down := p.link.value.down + FramesTo(outs, p.link.value.conn))))
  }

  /** Removing the next frame of the current connection, as handled. */
  ghost function TakeUp(p: Peer, own: Option<nat>): Peer
    requires p.link.Some? && p.link.value.up != []
  {
    var k := p.link.value;
    var f := k.up[0];
    p.(link := Some(k.(up := k.up[1..], own := MarkOwn(k, f, own))),
       trace := Serves(p.trace, k.conn, f),
       log := p.log + Record(k.conn, f))
  }

  ghost function TakeStale(p: Peer, conn: nat): Peer
    requires conn in p.stale && p.stale[conn] != []
  {
    p.(stale := p.stale[conn := p.stale[conn][1..]],
       trace := Serves(p.trace, conn, p.stale[conn][0]),
       log := p.log + Record(conn, p.stale[conn][0]))
  }

  function ArriveAll(peers: seq<Peer>, outs: seq<Out>): seq<Peer> {
    seq(|peers|, i requires 0 <= i < |peers| => Arrive(peers[i], outs))
  }

  /** The author of the publish in `f` is one of the listeners it goes to. */
  ghost predicate ListensItself(rx: N.Engine, s: ServerState, conn: nat, f: Up) {
    f.Req? && f.body.Publish? && conn in N.Targets(rx, s.node, f.body.params)
  }

  /** The author's copy of its own publish is the first frame of the answer. */
  ghost function OwnCopyAt(rx: N.Engine, s: ServerState, conn: nat, f: Up): Option<nat> {
    if ListensItself(rx, s, conn, f) then Some(0) else None
  }

  ghost function SysNext(rx: N.Engine, y: Sys, l: SysLabel): Sys
    requires SysEnabled(rx, y, l)
  {
    match l
    case Client(i, step) => y.(peers := y.peers[i := Next(y.peers[i], step)])
    case Open(i, frames) =>
      Sys(Accept(y.server), y.peers[i := Next(y.peers[i], Connect(y.server.nextId, frames))])
    case Serve(i) =>
      var k := y.peers[i].link.value;
      var r := OnMessage(rx, y.server, k.conn, k.up[0]);
      var taken := TakeUp(y.peers[i], OwnCopyAt(rx, y.server, k.conn, k.up[0]));
      Sys(r.state, ArriveAll(y.peers[i := taken], r.outs))
    case ServeStale(i, conn) =>
      var r := OnMessage(rx, y.server, conn, y.peers[i].stale[conn][0]);
      Sys(r.state, ArriveAll(y.peers[i := TakeStale(y.peers[i], conn)], r.outs))
    case Local(step) =>
      var r := ServerStep(rx, y.server, step);
      Sys(r.state, ArriveAll(y.peers, r.outs))
  }

  // ---------------------------------------------------------------- simulation

  /** Connections of different clients are different, and all were accepted. */
  ghost predicate OwnsConn(p: Peer, c: nat) {
    (p.link.Some? && p.link.value.conn == c) || c in p.stale
  }

  ghost predicate SysInv(y: Sys) {
    && Agreement(y.server)
    && (forall i :: 0 <= i < |y.peers| ==> Inv(y.peers[i]) && y.peers[i].connBound <= y.server.nextId)
    && (forall i, j, c: nat :: 0 <= i < j < |y.peers| && OwnsConn(y.peers[i], c) ==> !OwnsConn(y.peers[j], c))
  }

  /** `p'` is `p` after some steps of the client protocol. */
  ghost predicate Simulates(p: Peer, p': Peer) {
    exists run :: Run(p, run) == Some(p')
  }

  lemma OneStep(p: Peer, l: Label)
    requires Enabled(p, l)
    ensures Simulates(p, Next(p, l))
  {
    RunCons(p, l, []);
    assert Run(p, [l] + []) == Some(Next(p, l));
  }

  lemma NoStep(p: Peer)
    ensures Simulates(p, p)
  {
    assert Run(p, []) == Some(p);
  }

  lemma StepThen(p: Peer, l: Label, p': Peer)
    requires Enabled(p, l) && Simulates(Next(p, l), p')
    ensures Simulates(p, p')
  {
    var rest :| Run(Next(p, l), rest) == Some(p');
    RunCons(p, l, rest);
    assert Run(p, [l] + rest) == Some(p');
  }

  lemma SimulationKeepsInv(p: Peer, p': Peer)
    requires Inv(p) && Simulates(p, p')
    ensures Inv(p')
  {
    var run :| Run(p, run) == Some(p');
    RunKeepsInv(p, run);
  }

  /** `p'` has the connections of `p`. */
  ghost predicate SameConns(p: Peer, p': Peer) {
    p'.connBound == p.connBound && forall c: nat :: OwnsConn(p', c) <==> OwnsConn(p, c)
  }

  /** Frames for others, or copies only, reach a client as a push. */
  lemma ArrivalIsPush(p: Peer, outs: seq<Out>)
    requires p.link.Some? ==> AreCopies(FramesTo(outs, p.link.value.conn))
    ensures Simulates(p, Arrive(p, outs))
  {
    if p.link.Some? {
      var l := Push(FramesTo(outs, p.link.value.conn));
      assert Enabled(p, l) && Arrive(p, outs) == Next(p, l);
      OneStep(p, l);
    } else {
      NoStep(p);
    }
  }

  lemma ClientsAreNotTheServer(s: ServerState, c: nat)
    requires Agreement(s) && c in s.open
    ensures c != SERVER_ID && c < s.nextId
  {
    assert c in Ids(s.nextId);
  }

  lemma MessageSucceeds(rx: N.Engine, s: ServerState, c: nat, f: Up)
    requires Agreement(s) && c in s.open && PatternsOk(rx, s, Message(c, f))
    ensures !OnMessage(rx, s, c, f).threw
  {
    StepAgrees(rx, s, Message(c, f));
  }

  /** What the broker sends back on the connection of a frame has the shape the protocol expects. */
  lemma RepliesFit(rx: N.Engine, s: ServerState, c: nat, f: Up) returns (copies: seq<Down>)
    requires Agreement(s) && c in s.open && PatternsOk(rx, s, Message(c, f))
    ensures FramesTo(OnMessage(rx, s, c, f).outs, c) == Reply(c, f, copies)
    ensures AreCopies(copies) && FitsOwn(f, copies, OwnCopyAt(rx, s, c, f))
  {
    if f.Req? {
      ClientsAreNotTheServer(s, c);
      MessageSucceeds(rx, s, c, f);
      AckComesLast(rx, s, c, f, c);
      copies := FramesTo(Perform(rx, s, c, f.body).outs, c);
      CopiesAreDue(rx, s, c, f.body, c);
    } else {
      copies := [];
      assert FramesTo([ToClient(c, LoginConfirm(c))], c) == [LoginConfirm(c)];
    }
  }

  /** What performing a request sends to client `d` is copies, one of them if it is a target. */
  lemma CopiesAreDue(rx: N.Engine, s: ServerState, c: nat, body: Request, d: nat)
    requires Agreement(s) && d != SERVER_ID
    ensures var copies := FramesTo(Perform(rx, s, c, body).outs, d);
            && AreCopies(copies)
            && (body.Publish? && d in N.Targets(rx, s.node, body.params) ==> 0 < |copies| && IsCopyOf(copies[0], body))
  {
    CopiesDue(rx, s, c, body, d);
    if body.Publish? {
      var copies := FramesTo(Perform(rx, s, c, body).outs, d);
      OneCopyIsCopies(copies, d in N.Targets(rx, s.node, body.params), body);
    }
  }

  lemma OneCopyIsCopies(copies: seq<Down>, due: bool, body: Request)
    requires body.Publish? && OneCopyIff(copies, due, body.params, body.data)
    ensures AreCopies(copies) && (due ==> 0 < |copies| && IsCopyOf(copies[0], body))
  {
    if due {
      assert copies == [copies[0]];
    }
  }

  /** What a step sends on any other connection is copies. */
  lemma OthersGetCopies(rx: N.Engine, s: ServerState, c: nat, f: Up, d: nat)
    requires Agreement(s) && c in s.open && d != c && d != SERVER_ID && PatternsOk(rx, s, Message(c, f))
    ensures AreCopies(FramesTo(OnMessage(rx, s, c, f).outs, d))
  {
    if f.Req? {
      MessageSucceeds(rx, s, c, f);
      AckComesLast(rx, s, c, f, d);
      CopiesAreDue(rx, s, c, f.body, d);
    }
  }

  lemma LocalCallsSendCopies(rx: N.Engine, s: ServerState, l: ServerLabel, d: nat)
    requires Agreement(s) && ServerOnly(l) && d != SERVER_ID
    ensures AreCopies(FramesTo(ServerStep(rx, s, l).outs, d))
  {
    if l.LocalPublish? {
      CopiesAreDue(rx, s, SERVER_ID, ClientCore.Publish(l.params, l.data), d);
    }
  }

  /** Serving a client's own connection is the protocol's handling step. */
  lemma ServingIsHandling(rx: N.Engine, s: ServerState, p: Peer)
    requires Agreement(s) && p.link.Some? && p.link.value.up != [] && p.link.value.conn in s.open
    requires PatternsOk(rx, s, Message(p.link.value.conn, p.link.value.up[0]))
    ensures var k := p.link.value;
            Simulates(p, Arrive(TakeUp(p, OwnCopyAt(rx, s, k.conn, k.up[0])), OnMessage(rx, s, k.conn, k.up[0]).outs))
  {
    var k := p.link.value;
    var copies := RepliesFit(rx, s, k.conn, k.up[0]);
    var l := Handle(copies, OwnCopyAt(rx, s, k.conn, k.up[0]));
    assert Enabled(p, l);
    assert Arrive(TakeUp(p, l.own), OnMessage(rx, s, k.conn, k.up[0]).outs) == Next(p, l);
    OneStep(p, l);
  }

  /** Serving a broken connection is the protocol's stale step, with its answers lost. */
  lemma ServingStale(rx: N.Engine, s: ServerState, p: Peer, conn: nat)
    requires Agreement(s) && conn in p.stale && p.stale[conn] != [] && conn in s.open
    requires p.link.Some? ==> p.link.value.conn != conn && p.link.value.conn != SERVER_ID
    requires PatternsOk(rx, s, Message(conn, p.stale[conn][0]))
    ensures Simulates(p, Arrive(TakeStale(p, conn), OnMessage(rx, s, conn, p.stale[conn][0]).outs))
  {
    var l := HandleStale(conn);
    assert Enabled(p, l) && TakeStale(p, conn) == Next(p, l);
    if p.link.Some? {
      OthersGetCopies(rx, s, conn, p.stale[conn][0], p.link.value.conn);
    }
    ArrivalIsPush(TakeStale(p, conn), OnMessage(rx, s, conn, p.stale[conn][0]).outs);
    StepThen(p, l, Arrive(TakeStale(p, conn), OnMessage(rx, s, conn, p.stale[conn][0]).outs));
  }

  // ---------------------------------------------------------------- every step, every client

  lemma ConnsOf(y: Sys, j: nat)
    requires SysInv(y) && j < |y.peers|
    ensures forall c: nat :: OwnsConn(y.peers[j], c) ==> c < y.server.nextId && c != SERVER_ID
  {
  }

  lemma ServeSimulates(rx: N.Engine, y: Sys, i: nat, j: nat)
    requires SysInv(y) && SysEnabled(rx, y, Serve(i)) && j < |y.peers|
    ensures Simulates(y.peers[j], SysNext(rx, y, Serve(i)).peers[j])
  {
    var k := y.peers[i].link.value;
    if i == j {
      ServingIsHandling(rx, y.server, y.peers[i]);
    } else {
      var p := y.peers[j];
      var outs := OnMessage(rx, y.server, k.conn, k.up[0]).outs;
      ConnsOf(y, j);
      if p.link.Some? {
        assert OwnsConn(y.peers[i], k.conn) && OwnsConn(p, p.link.value.conn);
        OthersGetCopies(rx, y.server, k.conn, k.up[0], p.link.value.conn);
      }
      ArrivalIsPush(p, outs);
    }
  }

  lemma ServeStaleSimulates(rx: N.Engine, y: Sys, i: nat, conn: nat, j: nat)
    requires SysInv(y) && SysEnabled(rx, y, ServeStale(i, conn)) && j < |y.peers|
    ensures Simulates(y.peers[j], SysNext(rx, y, ServeStale(i, conn)).peers[j])
  {
    ConnsOf(y, j);
    if i == j {
      ServingStale(rx, y.server, y.peers[i], conn);
    } else {
      var p := y.peers[j];
      if p.link.Some? {
        assert OwnsConn(y.peers[i], conn) && OwnsConn(p, p.link.value.conn);
        OthersGetCopies(rx, y.server, conn, y.peers[i].stale[conn][0], p.link.value.conn);
      }
      ArrivalIsPush(p, OnMessage(rx, y.server, conn, y.peers[i].stale[conn][0]).outs);
    }
  }

  /** Every step of the whole system is, for every client, a run of the client protocol. */
  lemma SysStepSimulates(rx: N.Engine, y: Sys, l: SysLabel, j: nat)
    requires SysInv(y) && SysEnabled(rx, y, l) && j < |y.peers|
    ensures |SysNext(rx, y, l).peers| == |y.peers|
    ensures Simulates(y.peers[j], SysNext(rx, y, l).peers[j])
  {
    match l
    case Client(i, step) => OneStep(y.peers[i], step); NoStep(y.peers[j]);
    case Open(i, frames) => OneStep(y.peers[i], Connect(y.server.nextId, frames)); NoStep(y.peers[j]);
    case Serve(i) => ServeSimulates(rx, y, i, j);
    case ServeStale(i, conn) => ServeStaleSimulates(rx, y, i, conn, j);
    case Local(call) =>
      ConnsOf(y, j);
      var p := y.peers[j];
      if p.link.Some? {
        assert OwnsConn(p, p.link.value.conn);
        LocalCallsSendCopies(rx, y.server, call, p.link.value.conn);
      }
      ArrivalIsPush(p, ServerStep(rx, y.server, call).outs);
  }

  /** No step but opening a connection changes whose connection is whose. */
  lemma StepKeepsConns(rx: N.Engine, y: Sys, l: SysLabel, j: nat)
    requires SysEnabled(rx, y, l) && j < |y.peers|
    ensures var p, p' := y.peers[j], SysNext(rx, y, l).peers[j];
            if l.Open? && l.i == j
            then p'.connBound == y.server.nextId + 1 && forall c: nat :: OwnsConn(p', c) ==> OwnsConn(p, c) || c == y.server.nextId
            else SameConns(p, p')
  {
  }

  lemma ServerSide(rx: N.Engine, y: Sys, l: SysLabel)
    requires SysInv(y) && SysEnabled(rx, y, l)
    ensures Agreement(SysNext(rx, y, l).server)
    ensures SysNext(rx, y, l).server.nextId == if l.Open? then y.server.nextId + 1 else y.server.nextId
  {
    match l
    case Client(_, _) =>
    case Open(_, _) => StepAgrees(rx, y.server, AcceptConn);
    case Serve(i) => ServerCounter(rx, y.server, Message(y.peers[i].link.value.conn, y.peers[i].link.value.up[0]));
    case ServeStale(i, conn) => ServerCounter(rx, y.server, Message(conn, y.peers[i].stale[conn][0]));
    case Local(call) => ServerCounter(rx, y.server, call);
  }

  lemma ServerCounter(rx: N.Engine, s: ServerState, l: ServerLabel)
    requires Agreement(s) && ServerEnabled(s, l) && !l.AcceptConn?
    ensures Agreement(ServerStep(rx, s, l).state) && ServerStep(rx, s, l).state.nextId == s.nextId
  {
    StepAgrees(rx, s, l);
    match l
    case StopServer => CloseAllAgrees(s, s.conns);
    case LocalPublish(params, data) => PublishAgrees(rx, s, params, data);
    case Message(_, Req(_, Publish(params, data))) => PublishAgrees(rx, s, params, data);
    case _ =>
  }

  /** Every step keeps the server in agreement and every client's invariant. */
  lemma SysStepKeepsInv(rx: N.Engine, y: Sys, l: SysLabel)
    requires SysInv(y) && SysEnabled(rx, y, l)
    ensures SysInv(SysNext(rx, y, l))
  {
    var y' := SysNext(rx, y, l);
    ServerSide(rx, y, l);
    forall j: nat | j < |y.peers|
      ensures Inv(y'.peers[j]) && y'.peers[j].connBound <= y'.server.nextId
    {
      SysStepSimulates(rx, y, l, j);
      SimulationKeepsInv(y.peers[j], y'.peers[j]);
      StepKeepsConns(rx, y, l, j);
    }
    forall i: nat, j: nat, c: nat | i < j < |y.peers| && OwnsConn(y'.peers[i], c)
      ensures !OwnsConn(y'.peers[j], c)
    {
      StepKeepsConns(rx, y, l, i);
      StepKeepsConns(rx, y, l, j);
      ConnsOf(y, i);
      ConnsOf(y, j);
    }
  }

  // ---------------------------------------------------------------- runs

  function InitSys(logins: seq<Text>): Sys {
    Sys(INIT_SERVER, seq(|logins|, i requires 0 <= i < |logins| => Init(logins[i])))
  }

  ghost function SysRun(rx: N.Engine, y: Sys, run: seq<SysLabel>): Option<Sys>
    decreases |run|
  {
    if run == [] then Some(y)
    else if SysEnabled(rx, y, run[0]) then SysRun(rx, SysNext(rx, y, run[0]), run[1..])
    else None
  }

  lemma {:induction false} SysRunKeepsInv(rx: N.Engine, y: Sys, run: seq<SysLabel>)
    requires SysInv(y)
    ensures SysRun(rx, y, run).Some? ==> SysInv(SysRun(rx, y, run).value)
    decreases |run|
  {
    if run != [] && SysEnabled(rx, y, run[0]) {
      SysStepKeepsInv(rx, y, run[0]);
      SysRunKeepsInv(rx, SysNext(rx, y, run[0]), run[1..]);
    }
  }

  /** Some run of some clients and the server ends in `y`. */
  ghost predicate SysReachable(rx: N.Engine, y: Sys) {
    exists logins, run :: SysRun(rx, InitSys(logins), run) == Some(y)
  }

  lemma InitSysInv(logins: seq<Text>)
    ensures SysInv(InitSys(logins))
  {
    InitAgrees();
  }

  lemma SysReachableInv(rx: N.Engine, y: Sys)
    requires SysReachable(rx, y)
    ensures SysInv(y)
  {
    var logins, run :| SysRun(rx, InitSys(logins), run) == Some(y);
    InitSysInv(logins);
    SysRunKeepsInv(rx, InitSys(logins), run);
  }

  // ---------------------------------------------------------------- order

  ghost predicate SysOrder(y: Sys) {
    forall i :: 0 <= i < |y.peers| ==> OrderInv(y.peers[i])
  }

  lemma SimulationKeepsOrder(p: Peer, p': Peer)
    requires Inv(p) && OrderInv(p) && Simulates(p, p')
    ensures OrderInv(p')
  {
    var run :| Run(p, run) == Some(p');
    RunKeepsOrder(p, run);
  }

  lemma SysStepKeepsOrder(rx: N.Engine, y: Sys, l: SysLabel)
    requires SysInv(y) && SysOrder(y) && SysEnabled(rx, y, l)
    ensures SysOrder(SysNext(rx, y, l))
  {
    forall j: nat | j < |SysNext(rx, y, l).peers| ensures OrderInv(SysNext(rx, y, l).peers[j]) {
      SysStepSimulates(rx, y, l, 0);
      SysStepSimulates(rx, y, l, j);
      SimulationKeepsOrder(y.peers[j], SysNext(rx, y, l).peers[j]);
    }
  }

  lemma {:induction false} SysRunKeepsOrder(rx: N.Engine, y: Sys, run: seq<SysLabel>)
    requires SysInv(y) && SysOrder(y) && SysRun(rx, y, run).Some?
    ensures SysOrder(SysRun(rx, y, run).value)
    decreases |run|
  {
    if run != [] {
      SysStepKeepsInv(rx, y, run[0]);
      SysStepKeepsOrder(rx, y, run[0]);
      SysRunKeepsOrder(rx, SysNext(rx, y, run[0]), run[1..]);
    }
  }

  lemma SysReachableOrder(rx: N.Engine, y: Sys)
    requires SysReachable(rx, y)
    ensures SysOrder(y)
  {
    var logins, run :| SysRun(rx, InitSys(logins), run) == Some(y);
    InitSysInv(logins);
    SysRunKeepsOrder(rx, InitSys(logins), run);
  }

  // ---------------------------------------------------------------- promises

  /** The promises of `Guarantees` about request `id` of one client. */
  ghost predicate Promises(p: Peer, id: nat) {
    && !p.failed
    && (id < |p.issued| && p.issued[id].Publish? && id !in p.client.pool ==> WasHandled(p, id))
    && (id in p.returned || id < p.waitedFor ==> id < |p.issued| && WasHandled(p, id))
    && (p.link.Some? && id in p.client.pool ==> InFlight(p.link.value)[id] == 1)
    && (p.client.loginConfirmed ==> p.link.Some? && p.client.id == p.link.value.conn)
    && (id in p.ownDone ==> CopyFirst(p.heard, p.issued, id, p.ownDone[id])) && Injective(p.ownDone)
  }

  lemma InvPromises(p: Peer, id: nat)
    requires Inv(p)
    ensures Promises(p, id)
  {
    if id in p.acked {
      AckedWasHandled(p, id);
    }
  }

  /** Whatever a client sends is handled in turn, and answered in turn. */
  ghost predicate TurnPromises(p: Peer) {
    && (forall c: nat :: if c in p.trace then HandledInTurn(p, c) else LogOf(p.log, c) == [])
    && (p.link.Some? ==> LinkOrder(p, p.link.value))
  }

  lemma OrderPromises(p: Peer)
    requires OrderInv(p)
    ensures TurnPromises(p)
  {
    forall c: nat ensures if c in p.trace then HandledInTurn(p, c) else LogOf(p.log, c) == [] {
      InTurn(p, c);
    }
  }

  /** For every client of every run of the whole system: nothing published is forgotten, no client
   *  fails, no wait ends before the server did its work, and requests are handled and answered in turn. */
  lemma SystemKeepsPromises(rx: N.Engine, y: Sys, i: nat, id: nat)
    requires SysReachable(rx, y) && i < |y.peers|
    ensures Agreement(y.server) && Promises(y.peers[i], id) && TurnPromises(y.peers[i])
  {
    SysReachableInv(rx, y);
    SysReachableOrder(rx, y);
    OrderPromises(y.peers[i]);
    InvPromises(y.peers[i], id);
  }
}
