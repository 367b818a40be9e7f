/** Which requests can still be acknowledged, in the system of all clients and the server. */
module Completion {
  import opened Basics
  import opened ClientCore
  import opened Protocol
  import opened ServerCore
  import opened Guarantees
  import opened System
  import N = NodeCore

  /** The OK of request `id` is on its way. */
  ghost predicate Answered(p: Peer, id: nat) {
    p.link.Some? && id in OkIds(p.link.value.down)
  }

  /** Request `id` is on its way to the server. */
  ghost predicate Queued(p: Peer, id: nat) {
    p.link.Some? && id in ReqIds(p.link.value.up)
  }

  predicate Accepts(s: ServerState) {
    !s.stopped && s.nextId < SERVER_ID
  }

  /** Request `id` is acknowledged, or its OK is on its way, or it is on its way to a server that has not
   *  closed the connection, or it is a pooled publish and the server still accepts connections. */
  ghost predicate Hope(s: ServerState, p: Peer, id: nat) {
    || id in p.acked
    || Answered(p, id)
    || (Queued(p, id) && p.link.value.conn in s.open)
    || (id in p.client.pool && Accepts(s))
  }

  /** Some continuation of the whole system has request `id` of client `i` acknowledged. */
  ghost predicate SysCanComplete(rx: N.Engine, y: Sys, i: nat, id: nat) {
    exists run :: SysRun(rx, y, run).Some? && i < |SysRun(rx, y, run).value.peers| && id in SysRun(rx, y, run).value.peers[i].acked
  }

  // ---------------------------------------------------------------- no step creates hope

  /** `p'` gives request `id` no hope that `p` did not give. */
  ghost predicate NoNewHope(p: Peer, p': Peer, id: nat) {
    && (id in p'.acked ==> id in p.acked || Answered(p, id))
    && (Answered(p', id) ==> Answered(p, id))
    && (Queued(p', id) ==> Queued(p, id) && p'.link.value.conn == p.link.value.conn)
    && (id in p'.client.pool ==> id in p.client.pool)
  }

  lemma NewIdIsLast(p: Peer)
    requires LedgerInv(p) && |p.issued| < U64_LIMIT
    ensures p.client.nextId == |p.issued|
  {
  }

  lemma AppendNoHope(up: seq<Up>, f: Up, id: nat)
    requires f.Req? && f.id != id
    ensures id in ReqIds(up + [f]) <==> id in ReqIds(up)
  {
    ReqIdsConcat(up, [f]);
    assert ReqIds([f]) == multiset{f.id};
  }

  lemma IssueNoHope(p: Peer, body: Request, id: nat)
    requires Enabled(p, Issue(body)) && id != p.client.nextId
    ensures NoNewHope(p, Next(p, Issue(body)), id)
  {
    if p.link.Some? {
      AppendNoHope(p.link.value.up, Req(p.client.nextId, body), id);
    }
  }

  lemma RecvNoHope(p: Peer, id: nat)
    requires Inv(p) && Enabled(p, Recv)
    ensures NoNewHope(p, Next(p, Recv), id)
  {
    RecvIsKnown(p);
  }

  lemma OwnStepNoHope(p: Peer, l: Label, id: nat)
    requires Inv(p) && OwnStep(l) && Enabled(p, l) && id < |p.issued|
    ensures NoNewHope(p, Next(p, l), id)
  {
    if l.Issue? {
      NewIdIsLast(p);
      IssueNoHope(p, l.body, id);
    } else if l.Recv? {
      RecvNoHope(p, id);
    }
  }

  lemma ArrivalNoHope(p: Peer, outs: seq<Out>, id: nat)
    requires p.link.Some? ==> AreCopies(FramesTo(outs, p.link.value.conn))
    ensures var p' := Arrive(p, outs);
            && p'.acked == p.acked && p'.client == p.client && (Answered(p', id) <==> Answered(p, id))
            && (Queued(p', id) <==> Queued(p, id))
            && (p.link.Some? <==> p'.link.Some?) && (p.link.Some? ==> p'.link.value.conn == p.link.value.conn)
  {
    if p.link.Some? {
      OkIdsConcat(p.link.value.down, FramesTo(outs, p.link.value.conn));
      NoOksInCopies(FramesTo(outs, p.link.value.conn));
    }
  }

  lemma ReplyOks(conn: nat, f: Up, copies: seq<Down>)
    requires AreCopies(copies)
    ensures OkIds(Reply(conn, f, copies)) == if f.Req? then multiset{f.id} else multiset{}
  {
    NoOksInCopies(copies);
    if f.Req? {
      OkIdsConcat(copies, [Ok(f.id)]);
      assert OkIds([Ok(f.id)]) == multiset{f.id};
    }
  }

  /** Serving the next frame turns a request on its way up into an OK on its way down. */
  lemma ServeMovesHope(rx: N.Engine, s: ServerState, p: Peer, id: nat)
    requires Agreement(s) && p.link.Some? && p.link.value.up != [] && p.link.value.conn in s.open
    requires PatternsOk(rx, s, Message(p.link.value.conn, p.link.value.up[0]))
    ensures var k := p.link.value;
            var p' := Arrive(TakeUp(p, OwnCopyAt(rx, s, k.conn, k.up[0])), OnMessage(rx, s, k.conn, k.up[0]).outs);
            && p'.acked == p.acked && p'.client == p.client && p'.link.Some? && p'.link.value.conn == k.conn
            && p'.link.value.up == k.up[1..] && p'.link.value.sentOn == k.sentOn
            && (Answered(p', id) || Queued(p', id) <==> Answered(p, id) || Queued(p, id))
            && (Queued(p', id) ==> Queued(p, id)) && (Answered(p, id) ==> Answered(p', id))
  {
    var k := p.link.value;
    var copies := RepliesFit(rx, s, k.conn, k.up[0]);
    OkIdsConcat(k.down, Reply(k.conn, k.up[0], copies));
    ReplyOks(k.conn, k.up[0], copies);
  }

  lemma ServerNoHope(rx: N.Engine, s: ServerState, l: ServerLabel)
    requires Agreement(s) && ServerEnabled(s, l) && !l.AcceptConn?
    ensures var s' := ServerStep(rx, s, l).state;
            s'.open <= s.open && s'.nextId == s.nextId && (Accepts(s') ==> Accepts(s)) && (l.Message? ==> s'.open == s.open && s'.stopped == s.stopped)
  {
    ServerCounter(rx, s, l);
    match l
    case NetworkError(c) => CloseAgrees(s, c);
    case StopServer => StopAgrees(s);
    case LocalPublish(params, data) => PublishAgrees(rx, s, params, data);
    case Message(_, Req(_, Publish(params, data))) => PublishAgrees(rx, s, params, data);
    case _ =>
  }

  /** Where others act, a client has hope afterwards only if it had before. */
  lemma BesideNoHope(s: ServerState, s': ServerState, p: Peer, outs: seq<Out>, id: nat)
    requires s'.open <= s.open && (Accepts(s') ==> Accepts(s)) && Hope(s', Arrive(p, outs), id)
    requires p.link.Some? ==> AreCopies(FramesTo(outs, p.link.value.conn))
    ensures Hope(s, p, id)
  {
    ArrivalNoHope(p, outs, id);
  }

  lemma ServeNoHope(rx: N.Engine, y: Sys, j: nat, i: nat, id: nat)
    requires SysInv(y) && SysEnabled(rx, y, Serve(j)) && i < |y.peers|
    requires Hope(SysNext(rx, y, Serve(j)).server, SysNext(rx, y, Serve(j)).peers[i], id)
    ensures Hope(y.server, y.peers[i], id)
  {
    var k, p := y.peers[j].link.value, y.peers[i];
    ServerNoHope(rx, y.server, Message(k.conn, k.up[0]));
    if i == j {
      ServeMovesHope(rx, y.server, p, id);
    } else {
      ConnsOf(y, i);
      if p.link.Some? {
        assert OwnsConn(y.peers[j], k.conn) && OwnsConn(p, p.link.value.conn);
        OthersGetCopies(rx, y.server, k.conn, k.up[0], p.link.value.conn);
      }
      var r := OnMessage(rx, y.server, k.conn, k.up[0]);
      BesideNoHope(y.server, r.state, p, r.outs, id);
    }
  }

  lemma StaleNoHope(rx: N.Engine, y: Sys, j: nat, conn: nat, i: nat, id: nat)
    requires SysInv(y) && SysEnabled(rx, y, ServeStale(j, conn)) && i < |y.peers|
    requires Hope(SysNext(rx, y, ServeStale(j, conn)).server, SysNext(rx, y, ServeStale(j, conn)).peers[i], id)
    ensures Hope(y.server, y.peers[i], id)
  {
    var p, f := y.peers[i], y.peers[j].stale[conn][0];
    ServerNoHope(rx, y.server, Message(conn, f));
    ConnsOf(y, i);
    if p.link.Some? {
      assert OwnsConn(y.peers[j], conn) && OwnsConn(p, p.link.value.conn);
      OthersGetCopies(rx, y.server, conn, f, p.link.value.conn);
    }
    var r := OnMessage(rx, y.server, conn, f);
    var taken := if i == j then TakeStale(p, conn) else p;
    BesideNoHope(y.server, r.state, taken, r.outs, id);
  }

  lemma OpenNoHope(rx: N.Engine, y: Sys, j: nat, frames: seq<Up>, i: nat, id: nat)
    requires SysInv(y) && SysEnabled(rx, y, Open(j, frames)) && i < |y.peers|
    requires Hope(SysNext(rx, y, Open(j, frames)).server, SysNext(rx, y, Open(j, frames)).peers[i], id)
    ensures Hope(y.server, y.peers[i], id)
  {
    var p := y.peers[i];
    if i == j {
      ReqIdsConcat([Login(p.client.login)], frames);
    } else {
      ConnsOf(y, i);
      assert p.link.Some? ==> OwnsConn(p, p.link.value.conn);
    }
  }

  lemma LocalNoHope(rx: N.Engine, y: Sys, call: ServerLabel, i: nat, id: nat)
    requires SysInv(y) && SysEnabled(rx, y, Local(call)) && i < |y.peers|
    requires Hope(SysNext(rx, y, Local(call)).server, SysNext(rx, y, Local(call)).peers[i], id)
    ensures Hope(y.server, y.peers[i], id)
  {
    var p := y.peers[i];
    ServerNoHope(rx, y.server, call);
    ConnsOf(y, i);
    if p.link.Some? {
      assert OwnsConn(p, p.link.value.conn);
      LocalCallsSendCopies(rx, y.server, call, p.link.value.conn);
    }
    var r := ServerStep(rx, y.server, call);
    BesideNoHope(y.server, r.state, p, r.outs, id);
  }

  /** Whatever step is taken, a request that was issued before has hope afterwards only if it had before. */
  lemma StepGivesNoHope(rx: N.Engine, y: Sys, l: SysLabel, i: nat, id: nat)
    requires SysInv(y) && SysEnabled(rx, y, l) && i < |y.peers| && id < |y.peers[i].issued|
    requires Hope(SysNext(rx, y, l).server, SysNext(rx, y, l).peers[i], id)
    ensures Hope(y.server, y.peers[i], id)
  {
    match l
    case Client(j, step) => if i == j { OwnStepNoHope(y.peers[i], step, id); }
    case Open(j, frames) => OpenNoHope(rx, y, j, frames, i, id);
    case Serve(j) => ServeNoHope(rx, y, j, i, id);
    case ServeStale(j, conn) => StaleNoHope(rx, y, j, conn, i, id);
    case Local(call) => LocalNoHope(rx, y, call, i, id);
  }

  lemma StepKeepsIssued(rx: N.Engine, y: Sys, l: SysLabel, i: nat)
    requires SysEnabled(rx, y, l) && i < |y.peers|
    ensures |SysNext(rx, y, l).peers| == |y.peers| && |y.peers[i].issued| <= |SysNext(rx, y, l).peers[i].issued|
  {
  }

  lemma {:induction false} RunGivesNoHope(rx: N.Engine, y: Sys, run: seq<SysLabel>, i: nat, id: nat)
    requires SysInv(y) && SysRun(rx, y, run).Some? && i < |y.peers| && id < |y.peers[i].issued|
    ensures var z := SysRun(rx, y, run).value;
            |z.peers| == |y.peers| && id < |z.peers[i].issued| && (Hope(z.server, z.peers[i], id) ==> Hope(y.server, y.peers[i], id))
    decreases |run|
  {
    if run != [] {
      StepKeepsIssued(rx, y, run[0], i);
      SysStepKeepsInv(rx, y, run[0]);
      RunGivesNoHope(rx, SysNext(rx, y, run[0]), run[1..], i, id);
      if Hope(SysNext(rx, y, run[0]).server, SysNext(rx, y, run[0]).peers[i], id) {
        StepGivesNoHope(rx, y, run[0], i, id);
      }
    }
  }

  /** Without hope a request is never acknowledged, whatever the clients and the server do. */
  lemma HopelessForever(rx: N.Engine, y: Sys, i: nat, id: nat)
    requires SysInv(y) && i < |y.peers| && id < |y.peers[i].issued| && !Hope(y.server, y.peers[i], id)
    ensures !SysCanComplete(rx, y, i, id)
  {
    if SysCanComplete(rx, y, i, id) {
      var run :| SysRun(rx, y, run).Some? && i < |SysRun(rx, y, run).value.peers| && id in SysRun(rx, y, run).value.peers[i].acked;
      RunGivesNoHope(rx, y, run, i, id);
    }
  }

  // ---------------------------------------------------------------- hope is enough

  /** Every pattern compiles. */
  ghost predicate AllCompile(rx: N.Engine) {
    forall pattern :: rx.valid(pattern)
  }

  lemma SysRunCons(rx: N.Engine, y: Sys, l: SysLabel, rest: seq<SysLabel>)
    requires SysEnabled(rx, y, l)
    ensures SysRun(rx, y, [l] + rest) == SysRun(rx, SysNext(rx, y, l), rest)
  {
    assert ([l] + rest)[1..] == rest;
  }

  /** An OK on its way is received. */
  lemma {:induction false} ReceiveUntil(rx: N.Engine, y: Sys, i: nat, id: nat) returns (run: seq<SysLabel>)
    requires SysInv(y) && i < |y.peers| && Answered(y.peers[i], id)
    ensures SysRun(rx, y, run).Some? && |SysRun(rx, y, run).value.peers| == |y.peers| && id in SysRun(rx, y, run).value.peers[i].acked
    decreases |y.peers[i].link.value.down|
  {
    var p, l := y.peers[i], Client(i, Recv);
    var d := p.link.value.down[0];
    RecvIsKnown(p);
    SysStepKeepsInv(rx, y, l);
    if d == Ok(id) {
      run := [l] + [];
      SysRunCons(rx, y, l, []);
    } else {
      var rest := ReceiveUntil(rx, SysNext(rx, y, l), i, id);
      SysRunCons(rx, y, l, rest);
      run := [l] + rest;
    }
  }

  /** Serving client `i` next. */
  lemma ServeStep(rx: N.Engine, y: Sys, i: nat, id: nat)
    requires SysInv(y) && AllCompile(rx) && i < |y.peers|
    requires y.peers[i].link.Some? && y.peers[i].link.value.up != [] && y.peers[i].link.value.conn in y.server.open
    ensures SysEnabled(rx, y, Serve(i))
    ensures var y', k := SysNext(rx, y, Serve(i)), y.peers[i].link.value;
            && SysInv(y') && |y'.peers| == |y.peers| && y'.peers[i].link.Some?
            && y'.peers[i].client == y.peers[i].client && y'.peers[i].acked == y.peers[i].acked
            && y'.peers[i].link.value.conn == k.conn && k.conn in y'.server.open
            && y'.peers[i].link.value.up == k.up[1..] && y'.peers[i].link.value.sentOn == k.sentOn
            && (Answered(y.peers[i], id) || Queued(y.peers[i], id) ==> Answered(y'.peers[i], id) || Queued(y'.peers[i], id))
  {
    var k := y.peers[i].link.value;
    NoThrow(rx, y.server, Message(k.conn, k.up[0]));
    SysStepKeepsInv(rx, y, Serve(i));
    ServeMovesHope(rx, y.server, y.peers[i], id);
    ServerNoHope(rx, y.server, Message(k.conn, k.up[0]));
  }

  lemma NoThrow(rx: N.Engine, s: ServerState, l: ServerLabel)
    requires AllCompile(rx)
    ensures PatternsOk(rx, s, l)
  {
  }

  /** A request on its way to a server that serves the connection is acknowledged. */
  lemma {:induction false} ServeUntil(rx: N.Engine, y: Sys, i: nat, id: nat) returns (run: seq<SysLabel>)
    requires SysInv(y) && AllCompile(rx) && i < |y.peers| && y.peers[i].link.Some? && y.peers[i].link.value.conn in y.server.open
    requires Answered(y.peers[i], id) || Queued(y.peers[i], id)
    ensures SysRun(rx, y, run).Some? && |SysRun(rx, y, run).value.peers| == |y.peers| && id in SysRun(rx, y, run).value.peers[i].acked
    decreases |y.peers[i].link.value.up|
  {
    if Answered(y.peers[i], id) {
      run := ReceiveUntil(rx, y, i, id);
    } else {
      ServeStep(rx, y, i, id);
      var rest := ServeUntil(rx, SysNext(rx, y, Serve(i)), i, id);
      SysRunCons(rx, y, Serve(i), rest);
      run := [Serve(i)] + rest;
    }
  }

  /** A disconnected client connects again, with its whole pool. */
  lemma OpenStep(rx: N.Engine, y: Sys, i: nat) returns (l: SysLabel)
    requires SysInv(y) && i < |y.peers| && y.peers[i].link.None? && Accepts(y.server)
    ensures SysEnabled(rx, y, l)
    ensures var y', p := SysNext(rx, y, l), y.peers[i];
            && SysInv(y') && |y'.peers| == |y.peers| && y'.peers[i].link.Some?
            && y'.peers[i].link.value.conn in y'.server.open && y'.peers[i].link.value.sentOn == p.client.pool.Keys
            && ReqIds(y'.peers[i].link.value.up) == multiset(p.client.pool.Keys)
            && y'.peers[i].client.queries == p.client.queries && y'.peers[i].client.pool == p.client.pool
            && y'.peers[i].acked == p.acked
  {
    var p := y.peers[i];
    var frames := ListPool(p.client.pool);
    l := Open(i, frames);
    SysStepKeepsInv(rx, y, l);
    ReqIdsConcat([Login(p.client.login)], frames);
  }

  lemma ReopenUntil(rx: N.Engine, y: Sys, i: nat, id: nat) returns (run: seq<SysLabel>)
    requires SysInv(y) && AllCompile(rx) && i < |y.peers| && y.peers[i].link.None? && Accepts(y.server) && id in y.peers[i].client.pool
    ensures SysRun(rx, y, run).Some? && |SysRun(rx, y, run).value.peers| == |y.peers| && id in SysRun(rx, y, run).value.peers[i].acked
  {
    var l := OpenStep(rx, y, i);
    var rest := ServeUntil(rx, SysNext(rx, y, l), i, id);
    SysRunCons(rx, y, l, rest);
    run := [l] + rest;
  }

  lemma HopeComesTrue(rx: N.Engine, y: Sys, i: nat, id: nat) returns (run: seq<SysLabel>)
    requires SysInv(y) && AllCompile(rx) && i < |y.peers| && Hope(y.server, y.peers[i], id)
    ensures SysRun(rx, y, run).Some? && |SysRun(rx, y, run).value.peers| == |y.peers| && id in SysRun(rx, y, run).value.peers[i].acked
  {
    var p := y.peers[i];
    if id in p.acked {
      run := [];
    } else if Answered(p, id) {
      run := ReceiveUntil(rx, y, i, id);
    } else if Queued(p, id) && p.link.value.conn in y.server.open {
      run := ServeUntil(rx, y, i, id);
    } else if p.link.None? {
      run := ReopenUntil(rx, y, i, id);
    } else {
      var l := Client(i, Break);
      SysStepKeepsInv(rx, y, l);
      var rest := ReopenUntil(rx, SysNext(rx, y, l), i, id);
      SysRunCons(rx, y, l, rest);
      run := [l] + rest;
    }
  }

  /** If every pattern compiles, a request can still be acknowledged exactly when there is hope for it. */
  lemma SysCompletableIff(rx: N.Engine, y: Sys, i: nat, id: nat)
    requires SysReachable(rx, y) && AllCompile(rx) && i < |y.peers| && id < |y.peers[i].issued|
    ensures SysCanComplete(rx, y, i, id) <==> Hope(y.server, y.peers[i], id)
  {
    SysReachableInv(rx, y);
    DecideSys(rx, y, i, id);
  }

  lemma DecideSys(rx: N.Engine, y: Sys, i: nat, id: nat)
    requires SysInv(y) && AllCompile(rx) && i < |y.peers| && id < |y.peers[i].issued|
    ensures SysCanComplete(rx, y, i, id) <==> Hope(y.server, y.peers[i], id)
  {
    if Hope(y.server, y.peers[i], id) {
      var run := HopeComesTrue(rx, y, i, id);
    } else {
      HopelessForever(rx, y, i, id);
    }
  }

  // ---------------------------------------------------------------- waitAll

  /** Some continuation lets `waitAll` of client `i` return. */
  ghost predicate SysCanFinish(rx: N.Engine, y: Sys, i: nat) {
    exists run :: SysRun(rx, y, run).Some? && i < |SysRun(rx, y, run).value.peers| && Enabled(SysRun(rx, y, run).value.peers[i], WaitAll)
  }

  lemma CanFinishFirst(rx: N.Engine, y: Sys, i: nat, l: SysLabel)
    requires SysEnabled(rx, y, l) && SysCanFinish(rx, SysNext(rx, y, l), i)
    ensures SysCanFinish(rx, y, i)
  {
    var rest :| SysRun(rx, SysNext(rx, y, l), rest).Some? && i < |SysRun(rx, SysNext(rx, y, l), rest).value.peers|
                && Enabled(SysRun(rx, SysNext(rx, y, l), rest).value.peers[i], WaitAll);
    SysRunCons(rx, y, l, rest);
    assert SysRun(rx, y, [l] + rest).Some?;
  }

  lemma NothingPending(rx: N.Engine, y: Sys, i: nat)
    requires SysInv(y) && i < |y.peers| && y.peers[i].client.queries == {}
    ensures SysCanFinish(rx, y, i)
  {
    var p := y.peers[i];
    assert forall id :: id in p.client.pool ==> id in p.client.queries;
    assert p.client.pool == map[];
    assert SysRun(rx, y, []) == Some(y);
  }

  /** Receiving the next frame, with what it does to the client. */
  lemma ReceiveStep(rx: N.Engine, y: Sys, i: nat)
    requires SysInv(y) && i < |y.peers| && y.peers[i].link.Some? && y.peers[i].link.value.down != []
    ensures SysEnabled(rx, y, Client(i, Recv))
    ensures var y', p := SysNext(rx, y, Client(i, Recv)), y.peers[i];
            var p', k := y'.peers[i], p.link.value;
            var done := if k.down[0].Ok? then {k.down[0].id} else {};
            && SysInv(y') && |y'.peers| == |y.peers| && y'.server == y.server && p'.link.Some?
            && p'.link.value.conn == k.conn && p'.link.value.up == k.up && p'.link.value.down == k.down[1..]
            && p'.link.value.sentOn == k.sentOn
            && p'.client.queries == p.client.queries - done && p'.client.pool == p.client.pool - done
  {
    RecvIsKnown(y.peers[i]);
    SysStepKeepsInv(rx, y, Client(i, Recv));
    assert y.peers[i].client.pool - {} == y.peers[i].client.pool;
  }

  /** A served connection that carries everything pending is drained. */
  lemma {:induction false} DrainOpen(rx: N.Engine, y: Sys, i: nat)
    requires SysInv(y) && AllCompile(rx) && i < |y.peers| && y.peers[i].link.Some?
    requires y.peers[i].link.value.conn in y.server.open && y.peers[i].client.queries <= y.peers[i].link.value.sentOn
    ensures SysCanFinish(rx, y, i)
    decreases |y.peers[i].link.value.up|, |y.peers[i].link.value.down|
  {
    var k := y.peers[i].link.value;
    if k.up != [] {
      ServeStep(rx, y, i, 0);
      DrainOpen(rx, SysNext(rx, y, Serve(i)), i);
      CanFinishFirst(rx, y, i, Serve(i));
    } else if k.down != [] {
      ReceiveStep(rx, y, i);
      DrainOpen(rx, SysNext(rx, y, Client(i, Recv)), i);
      CanFinishFirst(rx, y, i, Client(i, Recv));
    } else {
      QuietMeansAcked(y.peers[i]);
      NothingPending(rx, y, i);
    }
  }

  lemma FinishByReopening(rx: N.Engine, y: Sys, i: nat)
    requires SysInv(y) && AllCompile(rx) && i < |y.peers| && y.peers[i].link.None? && Accepts(y.server)
    requires y.peers[i].client.queries <= y.peers[i].client.pool.Keys
    ensures SysCanFinish(rx, y, i)
  {
    var l := OpenStep(rx, y, i);
    DrainOpen(rx, SysNext(rx, y, l), i);
    CanFinishFirst(rx, y, i, l);
  }

  /** There is hope for everything client `p` waits for. */
  ghost predicate AllHope(s: ServerState, p: Peer) {
    forall id :: id in p.client.queries ==> Hope(s, p, id)
  }

  lemma PendingIsUnacked(p: Peer, id: nat)
    requires Inv(p)
    ensures id in p.client.queries <==> id < |p.issued| && id !in p.acked
    ensures id in p.client.queries && p.link.Some? && (Answered(p, id) || Queued(p, id) || id in p.client.pool) ==> id in p.link.value.sentOn
  {
    if p.link.Some? {
      assert id in InFlight(p.link.value) ==> id in multiset(p.link.value.sentOn - p.acked);
    }
  }

  /** Receiving takes hope only from what it acknowledges. */
  lemma ReceiveKeepsHope(rx: N.Engine, y: Sys, i: nat)
    requires SysInv(y) && i < |y.peers| && y.peers[i].link.Some? && y.peers[i].link.value.down != [] && AllHope(y.server, y.peers[i])
    ensures SysEnabled(rx, y, Client(i, Recv))
    ensures var y' := SysNext(rx, y, Client(i, Recv)); SysInv(y') && |y'.peers| == |y.peers| && AllHope(y'.server, y'.peers[i])
  {
    ReceiveStep(rx, y, i);
    var y' := SysNext(rx, y, Client(i, Recv));
    forall id | id in y'.peers[i].client.queries ensures Hope(y'.server, y'.peers[i], id) {
      PendingIsUnacked(y.peers[i], id);
      assert Hope(y.server, y.peers[i], id);
    }
  }

  lemma {:induction false} FinishAll(rx: N.Engine, y: Sys, i: nat)
    requires SysInv(y) && AllCompile(rx) && i < |y.peers| && AllHope(y.server, y.peers[i])
    ensures SysCanFinish(rx, y, i)
    decreases if y.peers[i].link.Some? then |y.peers[i].link.value.down| else 0
  {
    var p := y.peers[i];
    forall id | id in p.client.queries
      ensures Hope(y.server, p, id) && id !in p.acked && (p.link.Some? ==> id in p.link.value.sentOn)
    {
      PendingIsUnacked(p, id);
    }
    if p.client.queries == {} {
      NothingPending(rx, y, i);
    } else if p.link.None? {
      FinishByReopening(rx, y, i);
    } else if p.link.value.conn in y.server.open {
      DrainOpen(rx, y, i);
    } else if p.link.value.down != [] {
      ReceiveKeepsHope(rx, y, i);
      ReceiveStep(rx, y, i);
      FinishAll(rx, SysNext(rx, y, Client(i, Recv)), i);
      CanFinishFirst(rx, y, i, Client(i, Recv));
    } else {
      SysStepKeepsInv(rx, y, Client(i, Break));
      FinishByReopening(rx, SysNext(rx, y, Client(i, Break)), i);
      CanFinishFirst(rx, y, i, Client(i, Break));
    }
  }

  lemma FinishedMeansAcked(p: Peer, id: nat)
    requires Inv(p) && Enabled(p, WaitAll) && id < |p.issued|
    ensures id in p.acked
  {
    PendingIsUnacked(p, id);
  }

  /** Without hope for one pending request, `waitAll` does not return, whatever happens. */
  lemma HopelessWait(rx: N.Engine, y: Sys, i: nat, id: nat)
    requires SysInv(y) && i < |y.peers| && id in y.peers[i].client.queries && !Hope(y.server, y.peers[i], id)
    ensures !SysCanFinish(rx, y, i)
  {
    PendingIsUnacked(y.peers[i], id);
    if SysCanFinish(rx, y, i) {
      var run :| SysRun(rx, y, run).Some? && i < |SysRun(rx, y, run).value.peers| && Enabled(SysRun(rx, y, run).value.peers[i], WaitAll);
      RunGivesNoHope(rx, y, run, i, id);
      SysRunKeepsInv(rx, y, run);
      FinishedMeansAcked(SysRun(rx, y, run).value.peers[i], id);
    }
  }

  /** If every pattern compiles, `waitAll` can still return exactly when there is hope for each pending request. */
  lemma WaitAllCanReturnIff(rx: N.Engine, y: Sys, i: nat)
    requires SysReachable(rx, y) && AllCompile(rx) && i < |y.peers|
    ensures SysCanFinish(rx, y, i) <==> AllHope(y.server, y.peers[i])
  {
    SysReachableInv(rx, y);
    if AllHope(y.server, y.peers[i]) {
      FinishAll(rx, y, i);
    } else {
      var id :| id in y.peers[i].client.queries && !Hope(y.server, y.peers[i], id);
      HopelessWait(rx, y, i, id);
    }
  }

  // ---------------------------------------------------------------- a request stranded by the server

  /** A client connects and issues a request. */
  lemma FirstRequest(rx: N.Engine, login: Text, body: Request) returns (y: Sys)
    requires !body.Publish?
    ensures SysRun(rx, InitSys([login]), [Open(0, []), Client(0, Issue(body))]) == Some(y)
    ensures |y.peers| == 1 && y.server == Accept(INIT_SERVER)
    ensures var p := y.peers[0];
            && p.issued == [body] && p.client.queries == {0} && p.client.pool == map[] && p.acked == {}
            && p.link.Some? && p.link.value.conn == 0 && p.link.value.sentOn == {0} && p.link.value.down == []
  {
    var y0 := InitSys([login]);
    assert y0.peers == [Init(login)];
    assert IsPoolListing([], y0.peers[0].client.pool);
    var y1 := SysNext(rx, y0, Open(0, []));
    y := SysNext(rx, y1, Client(0, Issue(body)));
    assert SysRun(rx, y, []) == Some(y);
    SysRunCons(rx, y1, Client(0, Issue(body)), []);
    SysRunCons(rx, y0, Open(0, []), [Client(0, Issue(body))]);
    assert [Open(0, [])] + [Client(0, Issue(body))] == [Open(0, []), Client(0, Issue(body))];
    assert [Client(0, Issue(body))] + [] == [Client(0, Issue(body))];
  }

  lemma {:induction false} SysRunSnoc(rx: N.Engine, y: Sys, run: seq<SysLabel>, l: SysLabel)
    requires SysRun(rx, y, run).Some? && SysEnabled(rx, SysRun(rx, y, run).value, l)
    ensures SysRun(rx, y, run + [l]) == Some(SysNext(rx, SysRun(rx, y, run).value, l))
    decreases |run|
  {
    if run == [] {
      SysRunCons(rx, y, l, []);
      assert run + [l] == [l] + [];
    } else {
      SysRunSnoc(rx, SysNext(rx, y, run[0]), run[1..], l);
      assert (run + [l])[1..] == run[1..] + [l];
    }
  }

  /** The server closes the connection before it has read the request. For all the client can tell the
   *  request is on its way, but no continuation of the system acknowledges it, and `waitAll` is stuck. */
  lemma ServerStrandsRequest(rx: N.Engine, login: Text, settings: SubscriptionParams) returns (y: Sys)
    ensures SysReachable(rx, y) && |y.peers| == 1
    ensures !Lost(y.peers[0], 0) && CanComplete(y.peers[0], 0)
    ensures !SysCanComplete(rx, y, 0, 0) && !SysCanFinish(rx, y, 0)
  {
    var was := FirstRequest(rx, login, Subscribe(settings));
    var run := [Open(0, []), Client(0, Issue(Subscribe(settings)))];
    y := SysNext(rx, was, Local(NetworkError(0)));
    SysRunSnoc(rx, InitSys([login]), run, Local(NetworkError(0)));
    SysReachableInv(rx, y);
    ClosedEarly(rx, was, y);
    DecideCompletable(y.peers[0], 0);
    HopelessForever(rx, y, 0, 0);
    HopelessWait(rx, y, 0, 0);
  }

  lemma ClosedEarly(rx: N.Engine, was: Sys, y: Sys)
    requires SysEnabled(rx, was, Local(NetworkError(0))) && y == SysNext(rx, was, Local(NetworkError(0)))
    requires |was.peers| == 1 && was.server == Accept(INIT_SERVER)
    requires var p := was.peers[0];
             && |p.issued| == 1 && !p.issued[0].Publish? && p.client.queries == {0} && p.client.pool == map[] && p.acked == {}
             && p.link.Some? && p.link.value.conn == 0 && p.link.value.sentOn == {0} && p.link.value.down == []
    ensures |y.peers| == 1 && |y.peers[0].issued| == 1 && 0 in y.peers[0].client.queries
    ensures !Lost(y.peers[0], 0) && !Hope(y.server, y.peers[0], 0)
  {
    InitAgrees();
    AcceptAgrees(INIT_SERVER);
    CloseAgrees(was.server, 0);
    assert 0 !in y.server.open;
    assert y.peers[0].link.value.down == [];
  }
}
