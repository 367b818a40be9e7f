/** What the server does over time: who is called in which order, serial numbers, logins, disconnects. */
module ServerTraces {
  import opened Basics
  import opened ClientCore
  import opened ServerCore
  import N = NodeCore

  // ---------------------------------------------------------------- everything a publish sends

  function DataOf(l: ServerLabel): Text {
    match l
    case LocalPublish(_, data) => data
    case Message(_, Req(_, Publish(_, data))) => data
    case _ => []
  }

  /** What target `t`, the `i`th, is sent: a call of the server's own consumers, or the next copy. */
  function SentTo(t: nat, serial: nat, params: PublishParams, data: Text): Out {
    if t == SERVER_ID then ToConsumer(params, data) else ToClient(t, Copy(params, data, serial % U64_LIMIT))
  }

  /** The targets of the server's publishes: connections, ascending, and the server itself last. */
  ghost predicate ProperTargets(s: ServerState, targets: seq<nat>) {
    && N.StrictlyAscending(targets)
    && forall t :: t in targets ==> t == SERVER_ID || (t in s.conns && t < SERVER_ID)
  }

  lemma ServerComesLast(s: ServerState, targets: seq<nat>)
    requires ProperTargets(s, targets) && targets != []
    ensures ProperTargets(s, targets[..|targets| - 1]) && SERVER_ID !in targets[..|targets| - 1]
  {
    var n := |targets| - 1;
    assert targets[n] in targets;
    forall i: nat | i < n ensures targets[..n][i] != SERVER_ID {
      assert targets[i] < targets[n];
    }
  }

  lemma SendOneExactly(s: ServerState, t: nat, k: nat, params: PublishParams, data: Text)
    requires (t == SERVER_ID || t in s.conns) && s.serial == k % U64_LIMIT
    ensures var o := SendOne(s, t, params, data);
            && !o.threw && o.outs == [SentTo(t, k, params, data)]
            && o.state == s.(serial := (if t == SERVER_ID then k else k + 1) % U64_LIMIT)
  {
  }

  /** The targets that are clients. */
  ghost function Clients(targets: seq<nat>): nat {
    if targets != [] && targets[|targets| - 1] == SERVER_ID then |targets| - 1 else |targets|
  }

  /** Each target is sent exactly its due, in the order of the targets, with consecutive serials. */
  ghost predicate SentExactly(s: ServerState, r: Outcome, targets: seq<nat>, params: PublishParams, data: Text) {
    && |r.outs| == |targets|
    && (forall i :: 0 <= i < |targets| ==> r.outs[i] == SentTo(targets[i], s.serial + i, params, data))
    && r.state == s.(serial := (s.serial + Clients(targets)) % U64_LIMIT)
  }

  lemma SentOneMore(s: ServerState, r: Outcome, head: seq<nat>, t: nat, o: Outcome, params: PublishParams, data: Text)
    requires SentExactly(s, r, head, params, data) && Clients(head) == |head|
    requires o.outs == [SentTo(t, s.serial + |head|, params, data)]
    requires o.state == s.(serial := (s.serial + if t == SERVER_ID then |head| else |head| + 1) % U64_LIMIT)
    ensures SentExactly(s, o.(outs := r.outs + o.outs), head + [t], params, data)
  {
  }

  lemma SendAllLast(s: ServerState, head: seq<nat>, t: nat, params: PublishParams, data: Text)
    requires !SendAll(s, head, params, data).threw
    ensures var r := SendAll(s, head, params, data);
            var o := SendOne(r.state, t, params, data);
            SendAll(s, head + [t], params, data) == o.(outs := r.outs + o.outs)
  {
    assert (head + [t])[..|head|] == head;
  }

  /** Every target can be sent to, and only the last may be the server. */
  ghost predicate ServerLast(conns: seq<nat>, targets: seq<nat>) {
    && (forall t :: t in targets ==> t in conns || t == SERVER_ID)
    && (targets != [] ==> SERVER_ID !in targets[..|targets| - 1])
  }

  lemma ProperIsServerLast(s: ServerState, targets: seq<nat>)
    requires ProperTargets(s, targets)
    ensures ServerLast(s.conns, targets)
  {
    if targets != [] {
      ServerComesLast(s, targets);
    }
  }

  lemma ClientsOfHead(conns: seq<nat>, targets: seq<nat>)
    requires ServerLast(conns, targets) && targets != []
    ensures ServerLast(conns, targets[..|targets| - 1]) && Clients(targets[..|targets| - 1]) == |targets| - 1
  {
    var head := targets[..|targets| - 1];
    if head != [] {
      assert head[|head| - 1] in head;
      assert forall t :: t in head[..|head| - 1] ==> t in head;
    }
  }

  lemma {:induction false} SendAllExactly(s: ServerState, targets: seq<nat>, params: PublishParams, data: Text)
    requires ServerLast(s.conns, targets) && s.serial < U64_LIMIT
    ensures !SendAll(s, targets, params, data).threw && SentExactly(s, SendAll(s, targets, params, data), targets, params, data)
  {
    if targets != [] {
      var n := |targets| - 1;
      var head, t := targets[..n], targets[n];
      ClientsOfHead(s.conns, targets);
      SendAllExactly(s, head, params, data);
      SendAllLast(s, head, t, params, data);
      assert t in targets;
      var r := SendAll(s, head, params, data);
      SendOneExactly(r.state, t, s.serial + n, params, data);
      SentOneMore(s, r, head, t, SendOne(r.state, t, params, data), params, data);
      assert head + [t] == targets;
    }
  }

  lemma TargetsAreProper(rx: N.Engine, s: ServerState, params: PublishParams)
    requires Agreement(s)
    ensures ProperTargets(s, N.Targets(rx, s.node, params))
  {
    TargetsAreReachable(rx, s, params);
    forall t | t in N.Targets(rx, s.node, params) && t != SERVER_ID ensures t < SERVER_ID {
      assert t in Elements(s.conns);
    }
  }

  /** A publish sends exactly one thing to each target: a call of its own consumers to the server, and to
   *  each client a copy of the message with the next serial. */
  lemma PublishExactly(rx: N.Engine, s: ServerState, params: PublishParams, data: Text)
    requires Agreement(s) && s.serial < U64_LIMIT
    ensures var r := ServerCore.Publish(rx, s, params, data);
            && SentExactly(s, r, N.Targets(rx, s.node, params), params, data)
            && (r.threw <==> N.DeliveryThrows(rx, s.node, params))
  {
    TargetsAreProper(rx, s, params);
    ProperIsServerLast(s, N.Targets(rx, s.node, params));
    SendAllExactly(s, N.Targets(rx, s.node, params), params, data);
  }

  // ---------------------------------------------------------------- the server's own consumers

  /** The calls of the server's own consumers among what is sent, in order. */
  function ConsumerCalls(outs: seq<Out>): seq<Out> {
    if outs == [] then []
    else ConsumerCalls(outs[..|outs| - 1]) + (if outs[|outs| - 1].ToConsumer? then [outs[|outs| - 1]] else [])
  }

  lemma {:induction false} CallsAmong(s: ServerState, targets: seq<nat>, params: PublishParams, data: Text)
    requires ProperTargets(s, targets)
    ensures ConsumerCalls(SendAll(s, targets, params, data).outs) == if SERVER_ID in targets then [ToConsumer(params, data)] else []
  {
    if targets != [] {
      var n := |targets| - 1;
      ServerComesLast(s, targets);
      CallsAmong(s, targets[..n], params, data);
      assert targets[n] in targets;
      SendAllSucceeds(s, targets[..n], params, data);
      var r := SendAll(s, targets[..n], params, data);
      var o := SendOne(r.state, targets[n], params, data);
      assert (r.outs + o.outs)[..|r.outs|] == r.outs;
      assert SERVER_ID in targets <==> targets[n] == SERVER_ID;
    }
  }

  /** In any step the server's own consumers are called once, with the message, if the step publishes one
   *  the server is a target of, and not at all otherwise. */
  lemma ConsumersAreCalled(rx: N.Engine, s: ServerState, l: ServerLabel)
    requires Agreement(s) && ServerEnabled(s, l)
    ensures ConsumerCalls(ServerStep(rx, s, l).outs) ==
            if PublishOf(l).Some? && SERVER_ID in N.Targets(rx, s.node, PublishOf(l).value)
            then [ToConsumer(PublishOf(l).value, DataOf(l))] else []
  {
    if PublishOf(l).Some? {
      var params, data := PublishOf(l).value, DataOf(l);
      TargetsAreProper(rx, s, params);
      CallsAmong(s, N.Targets(rx, s.node, params), params, data);
      AckIsNoCall(ServerCore.Publish(rx, s, params, data).outs, l);
    } else {
      OtherStepsCallNobody(rx, s, l);
    }
  }

  lemma AckIsNoCall(outs: seq<Out>, l: ServerLabel)
    requires (l.Message? && l.frame.Req?) || l.LocalPublish?
    ensures l.Message? ==> ConsumerCalls(outs + [ToClient(l.conn, Ok(l.frame.id))]) == ConsumerCalls(outs)
  {
    if l.Message? {
      assert (outs + [ToClient(l.conn, Ok(l.frame.id))])[..|outs|] == outs;
    }
  }

  lemma OtherStepsCallNobody(rx: N.Engine, s: ServerState, l: ServerLabel)
    requires PublishOf(l).None?
    ensures ConsumerCalls(ServerStep(rx, s, l).outs) == []
  {
    OtherStepsAnswer(rx, s, l);
    OneAnswerNoCopy(ServerStep(rx, s, l).outs);
  }

  /** `Server::unsubscribe` makes the call of a subscription without a pattern. */
  function UnsubscribeCall(name: Text): ServerLabel {
    LocalSubscribe(SubscriptionParams(name, []))
  }

  /** So after it the server is on record with that subscription, and receives every message published to the
   *  queue whose delivery does not throw. */
  lemma UnsubscribingSubscribes(rx: N.Engine, s: ServerState, params: PublishParams)
    requires Agreement(s)
    ensures var s' := ServerStep(rx, s, UnsubscribeCall(params.queueName)).state;
            && Agreement(s')
            && (params.queueName in s'.node.queues && !N.DeliveryThrows(rx, s'.node, params) ==>
                  SERVER_ID in N.Targets(rx, s'.node, params))
  {
    StepAgrees(rx, s, UnsubscribeCall(params.queueName));
    var s' := ServerStep(rx, s, UnsubscribeCall(params.queueName)).state;
    var ls := N.ListenersOf(s'.node, params.queueName);
    assert SERVER_ID in ls && N.Eligible(ls[SERVER_ID]) && ls[SERVER_ID].settings.tag == [];
  }

  // ---------------------------------------------------------------- serial numbers

  /** The serials of the copies among what is sent, in order. */
  function Serials(outs: seq<Out>): seq<nat> {
    if outs == [] then []
    else
      var o := outs[|outs| - 1];
      Serials(outs[..|outs| - 1]) + (if o.ToClient? && o.frame.Copy? then [o.frame.serial] else [])
  }

  /** `n` numbers from `first` on, as a 64-bit counter gives them. */
  function Count(first: nat, n: nat): seq<nat> {
    seq(n, i requires 0 <= i < n => (first + i) % U64_LIMIT)
  }

  lemma {:induction false} SerialsConcat(a: seq<Out>, b: seq<Out>)
    ensures Serials(a + b) == Serials(a) + Serials(b)
  {
    if b == [] {
      assert a + b == a;
    } else {
      var n := |b| - 1;
      assert (a + b)[..|a| + n] == a + b[..n];
      SerialsConcat(a, b[..n]);
    }
  }

  /** Copies sent one after the other to all but a last server carry consecutive serials. */
  lemma {:induction false} SerialsInRow(outs: seq<Out>, targets: seq<nat>, first: nat, params: PublishParams, data: Text)
    requires |outs| == |targets| && forall i :: 0 <= i < |targets| ==> outs[i] == SentTo(targets[i], first + i, params, data)
    requires forall i :: 0 <= i < |targets| - 1 ==> targets[i] != SERVER_ID
    ensures Serials(outs) == Count(first, Clients(targets))
  {
    if targets != [] {
      var n := |targets| - 1;
      SerialsInRow(outs[..n], targets[..n], first, params, data);
      assert Clients(targets[..n]) == n;
    }
  }

  lemma PublishSerials(rx: N.Engine, s: ServerState, params: PublishParams, data: Text)
    requires Agreement(s) && s.serial < U64_LIMIT
    ensures var r, n := ServerCore.Publish(rx, s, params, data), Clients(N.Targets(rx, s.node, params));
            Serials(r.outs) == Count(s.serial, n) && r.state.serial == (s.serial + n) % U64_LIMIT
  {
    var targets := N.Targets(rx, s.node, params);
    PublishExactly(rx, s, params, data);
    TargetsAreProper(rx, s, params);
    forall i | 0 <= i < |targets| - 1 ensures targets[i] != SERVER_ID {
      ServerComesLast(s, targets);
      assert targets[..|targets| - 1][i] == targets[i];
    }
    SerialsInRow(ServerCore.Publish(rx, s, params, data).outs, targets, s.serial, params, data);
  }

  lemma AckIsNoCopy(outs: seq<Out>, conn: nat, id: nat)
    ensures Serials(outs + [ToClient(conn, Ok(id))]) == Serials(outs)
  {
    assert (outs + [ToClient(conn, Ok(id))])[..|outs|] == outs;
  }

  /** The outcome numbers its `n` copies on from the counter, and moves the counter past them. */
  ghost predicate Numbers(first: nat, r: Outcome, n: nat) {
    Serials(r.outs) == Count(first, n) && r.state.serial == (first + n) % U64_LIMIT
  }

  lemma MessageSerials(rx: N.Engine, s: ServerState, conn: nat, id: nat, params: PublishParams, data: Text)
    requires Agreement(s) && s.serial < U64_LIMIT
    ensures Numbers(s.serial, OnMessage(rx, s, conn, Req(id, ClientCore.Publish(params, data))), Clients(N.Targets(rx, s.node, params)))
  {
    PublishSerials(rx, s, params, data);
    AckIsNoCopy(ServerCore.Publish(rx, s, params, data).outs, conn, id);
  }

  lemma StepSerials(rx: N.Engine, s: ServerState, l: ServerLabel) returns (n: nat)
    requires Agreement(s) && ServerEnabled(s, l) && s.serial < U64_LIMIT
    ensures Numbers(s.serial, ServerStep(rx, s, l), n)
  {
    if PublishOf(l).None? {
      n := 0;
      OtherStepsSendNoCopy(rx, s, l);
    } else {
      n := Clients(N.Targets(rx, s.node, PublishOf(l).value));
      if l.LocalPublish? {
        PublishSerials(rx, s, l.params, l.data);
      } else {
        MessageSerials(rx, s, l.conn, l.frame.id, l.frame.body.params, l.frame.body.data);
      }
    }
  }

  /** Steps that publish nothing send at most an answer. */
  lemma OtherStepsAnswer(rx: N.Engine, s: ServerState, l: ServerLabel)
    requires PublishOf(l).None?
    ensures var outs := ServerStep(rx, s, l).outs;
            outs == [] || (|outs| == 1 && outs[0].ToClient? && !outs[0].frame.Copy?)
  {
  }

  lemma OtherStepsKeepSerial(rx: N.Engine, s: ServerState, l: ServerLabel)
    requires PublishOf(l).None?
    ensures ServerStep(rx, s, l).state.serial == s.serial
  {
    if l.StopServer? {
      CloseAllKeepsSerial(s, s.conns);
    }
  }

  lemma OneAnswerNoCopy(outs: seq<Out>)
    requires outs == [] || (|outs| == 1 && outs[0].ToClient? && !outs[0].frame.Copy?)
    ensures Serials(outs) == [] && ConsumerCalls(outs) == []
  {
    assert outs != [] ==> outs[..0] == [];
  }

  lemma OtherStepsSendNoCopy(rx: N.Engine, s: ServerState, l: ServerLabel)
    requires PublishOf(l).None?
    ensures Serials(ServerStep(rx, s, l).outs) == [] && ServerStep(rx, s, l).state.serial == s.serial
  {
    OtherStepsAnswer(rx, s, l);
    OneAnswerNoCopy(ServerStep(rx, s, l).outs);
    OtherStepsKeepSerial(rx, s, l);
  }

  lemma {:induction false} CloseAllKeepsSerial(s: ServerState, cs: seq<nat>)
    ensures CloseAll(s, cs).Some? ==> CloseAll(s, cs).value.serial == s.serial
    decreases |cs|
  {
    if cs != [] && Close(s, cs[0]).Some? {
      CloseAllKeepsSerial(Close(s, cs[0]).value, cs[1..]);
    }
  }

  /** All that is sent in a run. */
  ghost function RunOuts(rx: N.Engine, s: ServerState, run: seq<ServerLabel>): seq<Out>
    decreases |run|
  {
    if run == [] || !ServerEnabled(s, run[0]) then []
    else ServerStep(rx, s, run[0]).outs + RunOuts(rx, ServerStep(rx, s, run[0]).state, run[1..])
  }

  lemma CountOn(first: nat, n: nat, m: nat)
    ensures Count(first, n) + Count((first + n) % U64_LIMIT, m) == Count(first, n + m)
  {
  }

  lemma StepIsSound(rx: N.Engine, s: ServerState, l: ServerLabel) returns (n: nat)
    requires Sound(s) && ServerEnabled(s, l)
    ensures Sound(ServerStep(rx, s, l).state) && Numbers(s.serial, ServerStep(rx, s, l), n)
  {
    StepAgrees(rx, s, l);
    n := StepSerials(rx, s, l);
  }

  ghost predicate Sound(s: ServerState) {
    Agreement(s) && s.serial < U64_LIMIT
  }

  lemma SerialsJoin(first: nat, r: Outcome, rest: seq<Out>, a: nat, b: nat)
    requires Numbers(first, r, a) && Serials(rest) == Count(r.state.serial, b)
    ensures Serials(r.outs + rest) == Count(first, a + b)
  {
    SerialsConcat(r.outs, rest);
    CountOn(first, a, b);
  }

  /** Over a whole run, the copies the server sends are numbered one after the other from zero, whoever
   *  they go to. */
  lemma {:induction false} SerialsCountUp(rx: N.Engine, s: ServerState, run: seq<ServerLabel>) returns (n: nat)
    requires Sound(s) && ServerRun(rx, s, run).Some?
    ensures Serials(RunOuts(rx, s, run)) == Count(s.serial, n)
    decreases |run|
  {
    if run == [] {
      n := 0;
    } else {
      var r := ServerStep(rx, s, run[0]);
      var a := StepIsSound(rx, s, run[0]);
      var b := SerialsCountUp(rx, r.state, run[1..]);
      SerialsJoin(s.serial, r, RunOuts(rx, r.state, run[1..]), a, b);
      n := a + b;
    }
  }

  // ---------------------------------------------------------------- logins

  /** The login of connection `c` now: nothing is set before it is accepted. */
  function LoginNow(s: ServerState, c: nat): Text {
    if c in s.open && c in s.users then s.users[c] else NOT_SET
  }

  /** The last login received on `c` in a run, or `d` if there is none. */
  function LastLogin(run: seq<ServerLabel>, c: nat, d: Text): Text {
    if run == [] then d
    else LastLogin(run[1..], c, if run[0].Message? && run[0].conn == c && run[0].frame.Login? then run[0].frame.login else d)
  }

  lemma MessageSetsLogin(rx: N.Engine, s: ServerState, conn: nat, f: Up, c: nat)
    requires Agreement(s) && conn in s.open
    ensures var s' := OnMessage(rx, s, conn, f).state;
            s'.open == s.open && LoginNow(s', c) == if conn == c && f.Login? then f.login else LoginNow(s, c)
  {
    if f.Req? && f.body.Publish? {
      PublishAgrees(rx, s, f.body.params, f.body.data);
    }
  }

  lemma StepSetsLogin(rx: N.Engine, s: ServerState, l: ServerLabel, c: nat)
    requires Agreement(s) && ServerEnabled(s, l) && c in ServerStep(rx, s, l).state.open
    ensures LoginNow(ServerStep(rx, s, l).state, c) ==
            if l.Message? && l.conn == c && l.frame.Login? then l.frame.login else LoginNow(s, c)
    ensures c in s.open || c == s.nextId
  {
    match l
    case AcceptConn => AcceptAgrees(s);
    case Message(conn, f) => MessageSetsLogin(rx, s, conn, f, c);
    case NetworkError(conn) => CloseAgrees(s, conn);
    case StopServer => StopAgrees(s);
    case LocalPublish(params, data) => PublishAgrees(rx, s, params, data);
    case LocalCreate(_) =>
    case LocalSubscribe(_) =>
  }

  lemma CounterGrows(rx: N.Engine, s: ServerState, l: ServerLabel)
    requires Agreement(s) && ServerEnabled(s, l)
    ensures s.nextId <= ServerStep(rx, s, l).state.nextId
  {
    match l
    case NetworkError(conn) => CloseAgrees(s, conn);
    case StopServer => CloseAllAgrees(s, s.conns);
    case LocalPublish(params, data) => PublishAgrees(rx, s, params, data);
    case Message(_, Req(_, Publish(params, data))) => PublishAgrees(rx, s, params, data);
    case _ =>
  }

  /** A closed connection stays closed. */
  lemma {:induction false} ClosedStaysClosed(rx: N.Engine, s: ServerState, run: seq<ServerLabel>, c: nat)
    requires Agreement(s) && ServerRun(rx, s, run).Some? && c < s.nextId && c !in s.open
    ensures c !in ServerRun(rx, s, run).value.open
    decreases |run|
  {
    if run != [] {
      var s' := ServerStep(rx, s, run[0]).state;
      StepAgrees(rx, s, run[0]);
      CounterGrows(rx, s, run[0]);
      if c in s'.open {
        StepSetsLogin(rx, s, run[0], c);
      }
      ClosedStaysClosed(rx, s', run[1..], c);
    }
  }

  /** In every run, the login on record for an open connection is the last one received on it. */
  lemma {:induction false} LoginsFollowMessages(rx: N.Engine, s: ServerState, run: seq<ServerLabel>, c: nat)
    requires Agreement(s) && ServerRun(rx, s, run).Some? && c in ServerRun(rx, s, run).value.open
    ensures LoginNow(ServerRun(rx, s, run).value, c) == LastLogin(run, c, LoginNow(s, c))
    decreases |run|
  {
    if run != [] {
      var s' := ServerStep(rx, s, run[0]).state;
      StepAgrees(rx, s, run[0]);
      CounterGrows(rx, s, run[0]);
      LoginsFollowMessages(rx, s', run[1..], c);
      if c in s'.open {
        StepSetsLogin(rx, s, run[0], c);
      } else if c < s'.nextId {
        ClosedStaysClosed(rx, s', run[1..], c);
      }
    }
  }

  // ---------------------------------------------------------------- the list of connections

  lemma {:induction false} WithoutKeepsOrder(conns: seq<nat>, c: nat)
    requires N.StrictlyAscending(conns)
    ensures N.StrictlyAscending(Without(conns, c)) && forall x :: x in Without(conns, c) ==> x in conns
  {
    if conns != [] && conns[0] != c {
      var rest := conns[1..];
      WithoutKeepsOrder(rest, c);
      forall x | x in Without(rest, c) ensures conns[0] < x {
        assert x in rest;
      }
      N.AscendingPrepend(conns[0], Without(rest, c));
    }
  }

  lemma AcceptKeepsList(s: ServerState)
    requires Agreement(s) && N.StrictlyAscending(s.conns)
    ensures N.StrictlyAscending(Accept(s).conns)
  {
    forall c | c in s.conns ensures c < s.nextId {
      assert c in Elements(s.conns);
    }
    N.AscendingAppend(s.conns, s.nextId);
  }

  /** Connections are listed in the order they were accepted. */
  lemma StepKeepsList(rx: N.Engine, s: ServerState, l: ServerLabel)
    requires Agreement(s) && ServerEnabled(s, l) && N.StrictlyAscending(s.conns)
    ensures N.StrictlyAscending(ServerStep(rx, s, l).state.conns)
  {
    match l
    case AcceptConn => AcceptKeepsList(s);
    case NetworkError(c) => WithoutKeepsOrder(s.conns, c);
    case StopServer => StopAgrees(s);
    case LocalPublish(params, data) => PublishAgrees(rx, s, params, data);
    case Message(_, Req(_, Publish(params, data))) => PublishAgrees(rx, s, params, data);
    case _ =>
  }

  lemma {:induction false} ListStaysInOrder(rx: N.Engine, s: ServerState, run: seq<ServerLabel>)
    requires Agreement(s) && N.StrictlyAscending(s.conns) && ServerRun(rx, s, run).Some?
    ensures N.StrictlyAscending(ServerRun(rx, s, run).value.conns)
    decreases |run|
  {
    if run != [] {
      StepAgrees(rx, s, run[0]);
      StepKeepsList(rx, s, run[0]);
      ListStaysInOrder(rx, ServerStep(rx, s, run[0]).state, run[1..]);
    }
  }

  /** After closing the first connection of the list, the rest is as the list promises. */
  lemma RestIsOpen(s: ServerState, cs: seq<nat>)
    requires Agreement(s) && Distinct(cs) && Elements(cs) <= s.open && cs != []
    ensures cs[0] in s.open && Close(s, cs[0]).Some? && Agreement(Close(s, cs[0]).value)
    ensures Distinct(cs[1..]) && Elements(cs[1..]) <= Close(s, cs[0]).value.open
  {
    assert cs[0] in Elements(cs) && cs[0] !in cs[1..];
    CloseAgrees(s, cs[0]);
    assert Elements(cs[1..]) <= Elements(cs) - {cs[0]};
  }

  lemma CloseFirst(s: ServerState, cs: seq<nat>)
    requires Agreement(s) && Distinct(cs) && Elements(cs) <= s.open && cs != []
    ensures Close(s, cs[0]).Some? && Close(s, cs[0]).value.notified + cs[1..] == s.notified + cs
  {
    RestIsOpen(s, cs);
    CloseAgrees(s, cs[0]);
    assert [cs[0]] + cs[1..] == cs;
    Regroup(s.notified, [cs[0]], cs[1..]);
  }

  lemma {:induction false} CloseAllInOrder(s: ServerState, cs: seq<nat>)
    requires Agreement(s) && Distinct(cs) && Elements(cs) <= s.open
    ensures CloseAll(s, cs).Some? && CloseAll(s, cs).value.notified == s.notified + cs
    decreases |cs|
  {
    if cs != [] {
      RestIsOpen(s, cs);
      CloseFirst(s, cs);
      CloseAllInOrder(Close(s, cs[0]).value, cs[1..]);
    }
  }

  /** Stopping disconnects the listed connections in the order of the list. */
  lemma StopsInOrder(s: ServerState)
    requires Agreement(s)
    ensures Stop(s).Some? && Stop(s).value.notified == s.notified + s.conns
  {
    if !s.stopped {
      CloseAllInOrder(s, s.conns);
    }
  }
}
