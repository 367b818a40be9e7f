/** The server: connections, users and the broker, and what is sent to whom. */
module ServerCore {
  import opened Basics
  import opened ClientCore
  import N = NodeCore

  /** A frame sent on a connection, or a call of the server's own consumers. */
  datatype Out = ToClient(conn: nat, frame: Down) | ToConsumer(params: PublishParams, data: Text)

  const SERVER_LOGIN: Text := [115, 101, 114, 118, 101, 114]
  const NOT_SET: Text := [110, 111, 116, 32, 115, 101, 116]

  datatype ServerState = ServerState(
    node: N.NodeState,
    users: map<nat, Text>,
    conns: seq<nat>,      // `_connections`
    open: set<nat>,       // connections whose `_async_connection` exists
    nextId: nat,
    serial: nat,          // `_nextMessageId`
    stopped: bool,
    notified: seq<nat>)   // history: connections given to `onDisconnect`

  const INIT_SERVER := ServerState(N.EMPTY_NODE, map[SERVER_ID := SERVER_LOGIN], [], {}, 0, 0, false, [])

  datatype Outcome = Outcome(state: ServerState, outs: seq<Out>, threw: bool)

  function Failed(s: ServerState): Outcome {
    Outcome(s, [], true)
  }

  function Accept(s: ServerState): ServerState {
    s.(users := s.users[s.nextId := NOT_SET],
       conns := s.conns + [s.nextId],
       open := s.open + {s.nextId},
       nextId := s.nextId + 1)
  }

  /** The connection list without the first entry for `c`. */
  function Without(conns: seq<nat>, c: nat): seq<nat> {
    if conns == [] then []
    else if conns[0] == c then conns[1..]
    else [conns[0]] + Without(conns[1..], c)
  }

  /** `ClientConnection::close` and what it triggers; `None` when a lookup on the way fails. */
  function Close(s: ServerState, c: nat): Option<ServerState> {
    if c !in s.open then Some(s)
    else if c !in s.conns || c !in s.users then None
    else Some(s.(open := s.open - {c},
                 notified := s.notified + [c],
                 users := s.users - {c},
                 node := N.EraseClient(s.node, c),
                 conns := Without(s.conns, c)))
  }

  function CloseAll(s: ServerState, cs: seq<nat>): Option<ServerState>
    decreases |cs|
  {
    if cs == [] then Some(s)
    else
      var s' := Close(s, cs[0]);
      if s'.None? then None else CloseAll(s'.value, cs[1..])
  }

  function Stop(s: ServerState): Option<ServerState> {
    if s.stopped then Some(s)
    else
      var s' := CloseAll(s, s.conns);
      if s'.None? then None else Some(s'.value.(conns := [], stopped := true))
  }

  /** `onSendToClient`: the server's own consumers, or one connection; an unknown client throws. */
  function SendOne(s: ServerState, t: nat, params: PublishParams, data: Text): Outcome {
    if t == SERVER_ID then Outcome(s, [ToConsumer(params, data)], false)
    else
      var s' := s.(serial := (s.serial + 1) % U64_LIMIT);
      if t in s.conns then Outcome(s', [ToClient(t, Copy(params, data, s.serial))], false) else Failed(s')
  }

  /** `onSendToClient` for each target in turn, until one throws. */
  function SendAll(s: ServerState, targets: seq<nat>, params: PublishParams, data: Text): Outcome {
    if targets == [] then Outcome(s, [], false)
    else
      var n := |targets| - 1;
      var r := SendAll(s, targets[..n], params, data);
      if r.threw then r
      else
        var o := SendOne(r.state, targets[n], params, data);
        o.(outs := r.outs + o.outs)
  }

  /** Nothing is sent after a throw. */
  lemma {:induction false} ThrowEndsSending(s: ServerState, targets: seq<nat>, params: PublishParams, data: Text, i: nat)
    requires i <= |targets| && SendAll(s, targets[..i], params, data).threw
    ensures SendAll(s, targets, params, data) == SendAll(s, targets[..i], params, data)
  {
    if i == |targets| {
      assert targets[..i] == targets;
    } else {
      var n := |targets| - 1;
      assert targets[..n][..i] == targets[..i];
      ThrowEndsSending(s, targets[..n], params, data, i);
    }
  }

  /** `Node::publish` with the server's handler. */
  ghost function Publish(rx: N.Engine, s: ServerState, params: PublishParams, data: Text): Outcome {
    var r := SendAll(s, N.Targets(rx, s.node, params), params, data);
    if N.DeliveryThrows(rx, s.node, params) then r.(threw := true) else r
  }

  /** The broker call a request stands for. */
  ghost function Perform(rx: N.Engine, s: ServerState, c: nat, body: Request): Outcome {
    match body
    case Publish(params, data) => Publish(rx, s, params, data)
    case CreateQueue(name) => Updated(s, N.CreateQueue(s.node, s.users.Keys, name, c))
    case Subscribe(settings) => Updated(s, N.ChangeSubscription(s.node, s.users.Keys, N.Subscribe, settings, c))
    case Unsubscribe(name) =>
      Updated(s, N.ChangeSubscription(s.node, s.users.Keys, N.Unsubscribe, SubscriptionParams(name, []), c))
  }

  function Updated(s: ServerState, r: Option<N.NodeState>): Outcome {
    if r.None? then Failed(s) else Outcome(s.(node := r.value), [], false)
  }

  /** `Server::onNewMessage`: perform the request, then acknowledge it. */
  ghost function OnMessage(rx: N.Engine, s: ServerState, c: nat, f: Up): Outcome {
    match f
    case Login(login) => Outcome(s.(users := s.users[c := login]), [ToClient(c, LoginConfirm(c))], false)
    case Req(id, body) =>
      var r := Perform(rx, s, c, body);
      if r.threw then r else r.(outs := r.outs + [ToClient(c, Ok(id))])
  }

  // ---------------------------------------------------------------- steps

  datatype ServerLabel =
    | AcceptConn
    | Message(conn: nat, frame: Up)
    | NetworkError(conn: nat)
    | StopServer
    | LocalCreate(name: Text)
    | LocalSubscribe(settings: SubscriptionParams)
    | LocalPublish(params: PublishParams, data: Text)

  predicate ServerEnabled(s: ServerState, l: ServerLabel) {
    match l
    case AcceptConn => !s.stopped && s.nextId < SERVER_ID
    case Message(conn, _) => conn in s.open
    case NetworkError(conn) => conn < s.nextId
    case _ => true
  }

  function Quiet(s: ServerState, r: Option<ServerState>): Outcome {
    if r.None? then Failed(s) else Outcome(r.value, [], false)
  }

  ghost function ServerStep(rx: N.Engine, s: ServerState, l: ServerLabel): Outcome {
    match l
    case AcceptConn => Outcome(Accept(s), [], false)
    case Message(conn, frame) => OnMessage(rx, s, conn, frame)
    case NetworkError(conn) => Quiet(s, Close(s, conn))
    case StopServer => Quiet(s, Stop(s))
    case LocalCreate(name) => Updated(s, N.CreateQueue(s.node, s.users.Keys, name, SERVER_ID))
    case LocalSubscribe(settings) =>
      Updated(s, N.ChangeSubscription(s.node, s.users.Keys, N.Subscribe, settings, SERVER_ID))
    case LocalPublish(params, data) => Publish(rx, s, params, data)
  }

  // ---------------------------------------------------------------- agreement

  ghost predicate Distinct(s: seq<nat>) {
    forall i, j :: 0 <= i < j < |s| ==> s[i] != s[j]
  }

  ghost function Elements(s: seq<nat>): set<nat> {
    set x | x in s
  }

  /** The server is a user of its own, and no connection goes by its id. */
  ghost predicate ServerApart(s: ServerState) {
    SERVER_ID !in s.open && SERVER_ID in s.users && s.users[SERVER_ID] == SERVER_LOGIN
  }

  /** The connection list, the open connections, the users and the disconnected agree. */
  ghost predicate ConnsAgree(s: ServerState) {
    && s.nextId <= SERVER_ID && ServerApart(s)
    && Distinct(s.conns) && Elements(s.conns) == s.open
    && s.users.Keys == s.open + {SERVER_ID}
    && Distinct(s.notified) && Elements(s.notified) !! s.open
    && Elements(s.notified) + s.open == Ids(s.nextId)
    && (s.stopped ==> s.conns == [])
  }

  ghost predicate ListenersAreUsers(node: N.NodeState, users: set<nat>) {
    forall q :: q in node.subs ==> node.subs[q].Keys <= users
  }

  ghost predicate Agreement(s: ServerState) {
    ConnsAgree(s) && ListenersAreUsers(s.node, s.users.Keys)
  }

  lemma InitAgrees()
    ensures Agreement(INIT_SERVER)
  {
  }

  lemma NoElements(s: seq<nat>)
    ensures Elements(s) == {} ==> s == []
  {
    if s != [] {
      assert s[0] in Elements(s);
    }
  }

  lemma {:induction false} WithoutFacts(conns: seq<nat>, c: nat)
    requires Distinct(conns) && c in conns
    ensures Distinct(Without(conns, c)) && Elements(Without(conns, c)) == Elements(conns) - {c}
  {
    var rest := conns[1..];
    assert conns == [conns[0]] + rest;
    assert Elements(conns) == {conns[0]} + Elements(rest);
    assert conns[0] !in Elements(rest);
    if conns[0] != c {
      WithoutFacts(rest, c);
      assert conns[0] !in Elements(Without(rest, c));
      assert Elements(Without(conns, c)) == {conns[0]} + Elements(Without(rest, c));
    }
  }

  lemma AcceptAgrees(s: ServerState)
    requires Agreement(s) && ServerEnabled(s, AcceptConn)
    ensures Agreement(Accept(s))
  {
    var s' := Accept(s);
    assert Elements(s'.conns) == s'.open;
  }

  /** Closing never fails, whatever happened before, and disconnects the connection at most once. */
  lemma CloseAgrees(s: ServerState, c: nat)
    requires Agreement(s)
    ensures Close(s, c).Some? && Agreement(Close(s, c).value)
    ensures var s' := Close(s, c).value;
            s'.open == s.open - {c} && s'.notified == s.notified + if c in s.open then [c] else []
  {
    if c in s.open {
      WithoutFacts(s.conns, c);
      var s' := Close(s, c).value;
      assert Elements(s'.notified) == Elements(s.notified) + {c};
    }
  }

  lemma {:induction false} CloseAllAgrees(s: ServerState, cs: seq<nat>)
    requires Agreement(s)
    ensures CloseAll(s, cs).Some? && Agreement(CloseAll(s, cs).value)
    ensures CloseAll(s, cs).value.open == s.open - Elements(cs)
    ensures CloseAll(s, cs).value.nextId == s.nextId
    decreases |cs|
  {
    if cs != [] {
      CloseAgrees(s, cs[0]);
      CloseAllAgrees(Close(s, cs[0]).value, cs[1..]);
      assert Elements(cs) == {cs[0]} + Elements(cs[1..]);
    }
  }

  /** Stopping ends with no connection, and with every connection ever accepted notified exactly once. */
  lemma StopAgrees(s: ServerState)
    requires Agreement(s)
    ensures Stop(s).Some? && Agreement(Stop(s).value)
    ensures var s' := Stop(s).value;
            && s'.stopped && s'.conns == [] && s'.open == {}
            && Distinct(s'.notified) && Elements(s'.notified) == Ids(s.nextId)
  {
    if !s.stopped {
      CloseAllAgrees(s, s.conns);
      var s1 := CloseAll(s, s.conns).value;
      assert s1.open == {};
      NoElements(s1.conns);
    } else {
      assert Elements(s.conns) == {};
    }
  }

  lemma NodeCallAgrees(s: ServerState, id: nat, name: Text, action: N.Action, settings: SubscriptionParams)
    requires Agreement(s) && id in s.users
    ensures var r := N.CreateQueue(s.node, s.users.Keys, name, id);
            r.Some? && Agreement(s.(node := r.value))
    ensures var r := N.ChangeSubscription(s.node, s.users.Keys, action, settings, id);
            r.Some? && Agreement(s.(node := r.value))
  {
  }

  /** Sending to listeners that are users never reaches the "unknow client" exception. */
  lemma {:induction false} SendAllSucceeds(s: ServerState, targets: seq<nat>, params: PublishParams, data: Text)
    requires forall t :: t in targets ==> t == SERVER_ID || t in s.conns
    ensures var r := SendAll(s, targets, params, data);
            !r.threw && r.state == s.(serial := r.state.serial)
  {
    if targets != [] {
      SendAllSucceeds(s, targets[..|targets| - 1], params, data);
    }
  }

  lemma TargetsAreReachable(rx: N.Engine, s: ServerState, params: PublishParams)
    requires Agreement(s)
    ensures forall t :: t in N.Targets(rx, s.node, params) ==> t == SERVER_ID || t in s.conns
  {
    var ls := N.ListenersOf(s.node, params.queueName);
    forall t | t in N.Targets(rx, s.node, params) ensures t == SERVER_ID || t in s.conns {
      assert t in ls && t in s.users.Keys;
      assert t == SERVER_ID || t in Elements(s.conns);
    }
  }

  lemma PublishAgrees(rx: N.Engine, s: ServerState, params: PublishParams, data: Text)
    requires Agreement(s)
    ensures var r := Publish(rx, s, params, data);
            && r.state == s.(serial := r.state.serial)
            && (r.threw <==> N.DeliveryThrows(rx, s.node, params))
  {
    TargetsAreReachable(rx, s, params);
    SendAllSucceeds(s, N.Targets(rx, s.node, params), params, data);
  }

  /** The publish of a step, if it is one. */
  function PublishOf(l: ServerLabel): Option<PublishParams> {
    match l
    case LocalPublish(params, _) => Some(params)
    case Message(_, Req(_, Publish(params, _))) => Some(params)
    case _ => None
  }

  /** Every step keeps the agreement, and throws only where a listener's pattern does not compile. */
  lemma StepAgrees(rx: N.Engine, s: ServerState, l: ServerLabel)
    requires Agreement(s) && ServerEnabled(s, l)
    ensures Agreement(ServerStep(rx, s, l).state)
    ensures ServerStep(rx, s, l).threw <==> PublishOf(l).Some? && N.DeliveryThrows(rx, s.node, PublishOf(l).value)
  {
    var none := SubscriptionParams([], []);
    match l
    case AcceptConn => AcceptAgrees(s);
    case NetworkError(conn) => CloseAgrees(s, conn);
    case StopServer => StopAgrees(s);
    case LocalCreate(name) => NodeCallAgrees(s, SERVER_ID, name, N.Subscribe, none);
    case LocalSubscribe(settings) => NodeCallAgrees(s, SERVER_ID, [], N.Subscribe, settings);
    case LocalPublish(params, data) => PublishAgrees(rx, s, params, data);
    case Message(c, Login(login)) => assert s.users[c := login].Keys == s.users.Keys;
    case Message(c, Req(_, Publish(params, data))) => PublishAgrees(rx, s, params, data);
    case Message(c, Req(_, CreateQueue(name))) => NodeCallAgrees(s, c, name, N.Subscribe, none);
    case Message(c, Req(_, Subscribe(settings))) => NodeCallAgrees(s, c, [], N.Subscribe, settings);
    case Message(c, Req(_, Unsubscribe(name))) =>
      NodeCallAgrees(s, c, [], N.Unsubscribe, SubscriptionParams(name, []));
  }

  ghost function ServerRun(rx: N.Engine, s: ServerState, run: seq<ServerLabel>): Option<ServerState>
    decreases |run|
  {
    if run == [] then Some(s)
    else if ServerEnabled(s, run[0]) then ServerRun(rx, ServerStep(rx, s, run[0]).state, run[1..])
    else None
  }

  /** Over every run of accepts, messages, repeated network errors and stops, users, connections and
   *  listeners agree, and every connection ever accepted is open or was disconnected exactly once. */
  lemma {:induction false} ServerRunAgrees(rx: N.Engine, s: ServerState, run: seq<ServerLabel>)
    requires Agreement(s)
    ensures ServerRun(rx, s, run).Some? ==> Agreement(ServerRun(rx, s, run).value)
    decreases |run|
  {
    if run != [] && ServerEnabled(s, run[0]) {
      StepAgrees(rx, s, run[0]);
      ServerRunAgrees(rx, ServerStep(rx, s, run[0]).state, run[1..]);
    }
  }

  /** Accepting a connection keeps the server apart from its clients exactly below the id limit. */
  lemma AcceptKeepsServerApartIff(s: ServerState)
    requires Agreement(s) && !s.stopped
    ensures ServerApart(Accept(s)) <==> s.nextId < SERVER_ID
    ensures Agreement(Accept(s)) <==> s.nextId < SERVER_ID
  {
    if s.nextId < SERVER_ID {
      AcceptAgrees(s);
    }
  }

  /** The limit is reached: accepting `n` connections raises the counter by `n`. */
  lemma {:induction false} CounterReaches(rx: N.Engine, s: ServerState, n: nat) returns (run: seq<ServerLabel>)
    requires Agreement(s) && !s.stopped && s.nextId + n <= SERVER_ID
    ensures ServerRun(rx, s, run).Some?
    ensures var s' := ServerRun(rx, s, run).value; Agreement(s') && !s'.stopped && s'.nextId == s.nextId + n
    decreases n
  {
    if n == 0 {
      run := [];
    } else {
      AcceptAgrees(s);
      var rest := CounterReaches(rx, Accept(s), n - 1);
      run := [AcceptConn] + rest;
      assert run[1..] == rest;
    }
  }

  lemma LimitIsReached(rx: N.Engine) returns (run: seq<ServerLabel>)
    ensures ServerRun(rx, INIT_SERVER, run).Some?
    ensures var s := ServerRun(rx, INIT_SERVER, run).value; Agreement(s) && !s.stopped && s.nextId == SERVER_ID
  {
    InitAgrees();
    run := CounterReaches(rx, INIT_SERVER, SERVER_ID);
  }

  /** What goes wrong at the limit: the connection numbered like the server takes over its user entry, a
   *  copy due to that client goes to the server's own consumers and not to the connection, and closing
   *  the connection takes the server's user away, so that its own calls throw from then on. */
  lemma IdLimitIsReal(rx: N.Engine, s: ServerState, params: PublishParams, data: Text, name: Text)
    requires Agreement(s) && !s.stopped && s.nextId == SERVER_ID
    ensures var s1 := Accept(s);
            && SERVER_ID in s1.open && s1.users[SERVER_ID] == NOT_SET
            && SendOne(s1, SERVER_ID, params, data).outs == [ToConsumer(params, data)]
            && FramesTo(SendOne(s1, SERVER_ID, params, data).outs, SERVER_ID) == []
            && var s2 := Close(s1, SERVER_ID);
               && s2.Some? && SERVER_ID !in s2.value.users
               && ServerStep(rx, s2.value, LocalCreate(name)).threw
  {
    var s1 := Accept(s);
    assert SERVER_ID in s1.conns;
  }

  // ---------------------------------------------------------------- what a step sends

  /** The frames sent on connection `c`, in order. */
  function FramesTo(outs: seq<Out>, c: nat): seq<Down> {
    if outs == [] then []
    else (if outs[0].ToClient? && outs[0].conn == c then [outs[0].frame] else []) + FramesTo(outs[1..], c)
  }

  lemma {:induction false} FramesToConcat(a: seq<Out>, b: seq<Out>, c: nat)
    ensures FramesTo(a + b, c) == FramesTo(a, c) + FramesTo(b, c)
  {
    if a == [] {
      assert a + b == b;
    } else {
      assert (a + b)[1..] == a[1..] + b;
      FramesToConcat(a[1..], b, c);
    }
  }

  /** The frames of a message that goes to client `c` once, or not at all. */
  ghost predicate OneCopyIff(frames: seq<Down>, due: bool, params: PublishParams, data: Text) {
    if due then |frames| == 1 && frames[0].Copy? && frames[0].params == params && frames[0].data == data
    else frames == []
  }

  /** Each client target is sent one copy, and no one else is sent anything. */
  lemma {:induction false} SendAllSendsOnce(s: ServerState, targets: seq<nat>, params: PublishParams, data: Text, c: nat)
    requires N.StrictlyAscending(targets) && c != SERVER_ID
    requires forall t :: t in targets ==> t == SERVER_ID || t in s.conns
    ensures OneCopyIff(FramesTo(SendAll(s, targets, params, data).outs, c), c in targets, params, data)
  {
    if targets != [] {
      var n := |targets| - 1;
      var head, last := targets[..n], targets[n];
      SendAllSendsOnce(s, head, params, data, c);
      SendAllSucceeds(s, head, params, data);
      var r := SendAll(s, head, params, data);
      var o := SendOne(r.state, last, params, data);
      FramesToConcat(r.outs, o.outs, c);
      assert c in targets <==> c in head || c == last;
      assert last !in head;
      SendOneSends(r.state, last, params, data, c);
    }
  }

  lemma SendOneSends(s: ServerState, t: nat, params: PublishParams, data: Text, c: nat)
    requires c != SERVER_ID && (t == SERVER_ID || t in s.conns)
    ensures OneCopyIff(FramesTo(SendOne(s, t, params, data).outs, c), c == t, params, data)
  {
  }

  /** The copies client `d` is due when `body` is performed: one if it is a target, else none. */
  lemma CopiesDue(rx: N.Engine, s: ServerState, c: nat, body: Request, d: nat)
    requires Agreement(s) && d != SERVER_ID
    ensures var copies := FramesTo(Perform(rx, s, c, body).outs, d);
            if body.Publish?
            then OneCopyIff(copies, d in N.Targets(rx, s.node, body.params), body.params, body.data)
            else copies == []
  {
    if body.Publish? {
      TargetsAreReachable(rx, s, body.params);
      SendAllSendsOnce(s, N.Targets(rx, s.node, body.params), body.params, body.data, d);
    }
  }

  lemma AckComesLast(rx: N.Engine, s: ServerState, c: nat, f: Up, d: nat)
    requires f.Req? && !OnMessage(rx, s, c, f).threw
    ensures var copies := FramesTo(Perform(rx, s, c, f.body).outs, d);
            FramesTo(OnMessage(rx, s, c, f).outs, d) == copies + (if d == c then [Ok(f.id)] else [])
  {
    FramesToConcat(Perform(rx, s, c, f.body).outs, [ToClient(c, Ok(f.id))], d);
    assert FramesTo([ToClient(c, Ok(f.id))], d) == (if d == c then [Ok(f.id)] else []);
  }

  /** Handling a request sends its author the one copy it is due, if any, and then the OK; it sends every
   *  other client the one copy it is due, if any, and nothing else. */
  lemma ReplyShape(rx: N.Engine, s: ServerState, c: nat, f: Up, d: nat) returns (copies: seq<Down>)
    requires Agreement(s) && d != SERVER_ID && f.Req? && !OnMessage(rx, s, c, f).threw
    ensures FramesTo(OnMessage(rx, s, c, f).outs, d) == copies + (if d == c then [Ok(f.id)] else [])
    ensures copies == FramesTo(Perform(rx, s, c, f.body).outs, d)
    ensures if f.body.Publish?
            then OneCopyIff(copies, d in N.Targets(rx, s.node, f.body.params), f.body.params, f.body.data)
            else copies == []
  {
    copies := FramesTo(Perform(rx, s, c, f.body).outs, d);
    AckComesLast(rx, s, c, f, d);
    CopiesDue(rx, s, c, f.body, d);
  }
}
