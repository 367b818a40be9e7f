/** What the acknowledgement protocol promises, for every run and every reachable state. */
module Guarantees {
  import opened Basics
  import opened ClientCore
  import opened Protocol

  lemma {:induction false} RunKeepsInv(p: Peer, run: seq<Label>)
    requires Inv(p)
    ensures Run(p, run).Some? ==> Inv(Run(p, run).value)
    decreases |run|
  {
    if run != [] && Enabled(p, run[0]) {
      StepKeepsInv(p, run[0]);
      RunKeepsInv(Next(p, run[0]), run[1..]);
    }
  }

  /** Some run of some client ends in `p`. */
  ghost predicate Reachable(p: Peer) {
    exists login, run :: Run(Init(login), run) == Some(p)
  }

  lemma ReachableInv(p: Peer)
    requires Reachable(p)
    ensures Inv(p)
  {
    var login, run :| Run(Init(login), run) == Some(p);
    RunKeepsInv(Init(login), run);
  }

  /** The server has handled request `id`, with the contents it was issued with. */
  ghost predicate WasHandled(p: Peer, id: nat)
    requires id < |p.issued|
  {
    exists conn :: Handled(conn, id, p.issued[id]) in p.log
  }

  lemma AckedWasHandled(p: Peer, id: nat)
    requires Inv(p) && id in p.acked
    ensures WasHandled(p, id)
  {
    assert id in HandledIds(p.log);
    var e :| e in p.log && e.id == id;
    assert e == Handled(e.conn, id, p.issued[id]);
  }

  /** At-least-once: over any breaks and reconnects, a publish is pooled or has been handled. */
  lemma AtLeastOnce(login: Text, run: seq<Label>, id: nat)
    requires Run(Init(login), run).Some?
    requires id < |Run(Init(login), run).value.issued|
    requires Run(Init(login), run).value.issued[id].Publish?
    ensures var p := Run(Init(login), run).value; id in p.client.pool || WasHandled(p, id)
  {
    RunKeepsInv(Init(login), run);
    var p := Run(Init(login), run).value;
    if id !in p.client.pool {
      AckedWasHandled(p, id);
    }
  }

  /** A publish leaves the pool only after the server has handled it. */
  lemma LeavesPoolOnlyHandled(p: Peer, l: Label, id: nat)
    requires Reachable(p) && Enabled(p, l)
    requires id in p.client.pool && id !in Next(p, l).client.pool
    ensures id < |p.issued| && WasHandled(p, id)
  {
    ReachableInv(p);
    StepKeepsInv(p, l);
    var p' := Next(p, l);
    assert l.Recv?;
    AckedWasHandled(p', id);
  }

  /** While connected, the pool is exactly the publishes in flight, each once. */
  lemma InFlightExact(p: Peer, id: nat)
    requires Reachable(p) && p.link.Some?
    ensures id in p.client.pool ==> InFlight(p.link.value)[id] == 1
    ensures id in InFlight(p.link.value) ==>
              id < |p.issued| && id in p.client.queries && InFlight(p.link.value)[id] == 1 && (p.issued[id].Publish? ==> id in p.client.pool)
    ensures p.link.value.up == [] && p.link.value.down == [] ==> p.client.pool == map[]
  {
    ReachableInv(p);
    if p.link.value.up == [] && p.link.value.down == [] {
      QuietMeansAcked(p);
    }
  }

  /** No acknowledgement ever names an unknown request, and no connection handles a request twice. */
  lemma NoFailureNoDuplicate(login: Text, run: seq<Label>)
    requires Run(Init(login), run).Some?
    ensures var p := Run(Init(login), run).value;
            && !p.failed
            && forall i, j :: 0 <= i < j < |p.log| && p.log[i].conn == p.log[j].conn ==> p.log[i].id != p.log[j].id
  {
    RunKeepsInv(Init(login), run);
  }

  /** A Sync call or `waitAll` returns only after the server handled what it waited for. */
  lemma WaitingIsSound(login: Text, run: seq<Label>, id: nat)
    requires Run(Init(login), run).Some?
    ensures var p := Run(Init(login), run).value;
            && Ids(|p.issued|) == p.client.queries + p.acked && p.client.queries !! p.acked
            && p.client.pool.Keys <= p.client.queries
            && (id in p.returned || id < p.waitedFor ==> id < |p.issued| && id in p.acked && WasHandled(p, id))
  {
    RunKeepsInv(Init(login), run);
    var p := Run(Init(login), run).value;
    if id in p.returned || id < p.waitedFor {
      AckedWasHandled(p, id);
    }
  }

  /** In every run, each own publish whose OK the client has processed has a copy of its own among the
   *  frames the client processed: a copy of that publish, before its OK, and shared with no other. So a
   *  Sync publish to a queue the client listens to returns after its consumers were offered the message. */
  lemma OwnCopyBeforeReturn(login: Text, run: seq<Label>, id: nat, other: nat)
    requires Run(Init(login), run).Some?
    ensures var p := Run(Init(login), run).value;
            && (id in p.ownDone ==>
                  && id < |p.issued| && p.ownDone[id] < |p.heard| && IsCopyOf(p.heard[p.ownDone[id]], p.issued[id])
                  && forall j :: 0 <= j < |p.heard| && p.heard[j] == Ok(id) ==> p.ownDone[id] < j)
            && (id in p.ownDone && other in p.ownDone && id != other ==> p.ownDone[id] != p.ownDone[other])
  {
    RunKeepsInv(Init(login), run);
  }

  /** The acknowledgement of an own publish is processed after the copy made for it, on the same
   *  connection; different own publishes have different copies. */
  lemma OwnCopyBeforeAck(p: Peer)
    requires Reachable(p) && Enabled(p, Recv)
    requires p.link.value.down[0].Ok? && p.link.value.down[0].id in p.link.value.own
    ensures var k := p.link.value; var id := k.down[0].id;
            && id < |p.issued| && k.own[id] < |k.received| && IsCopyOf(k.received[k.own[id]], p.issued[id])
            && (forall other :: other in k.own && other != id ==> k.own[other] != k.own[id])
            && id in Next(p, Recv).ownDone && Next(p, Recv).ownDone[id] == k.base + k.own[id]
  {
    ReachableInv(p);
    CopyWasReceived(p.issued, p.link.value);
    RecvIsKnown(p);
  }

  // ---------------------------------------------------------------- draining

  /** The steps left when no call is made, nothing breaks and no other client publishes. */
  predicate IsDrain(l: Label) {
    l.Handle? || l.Recv?
  }

  ghost predicate DrainStep(p: Peer, l: Label, p': Peer) {
    IsDrain(l) && Enabled(p, l) && p' == Next(p, l)
  }

  /** Each drain step lowers the number of frames going up, or keeps it and lowers that coming down. */
  lemma DrainProgresses(p: Peer, l: Label)
    requires Inv(p) && IsDrain(l) && Enabled(p, l)
    ensures var k, k' := p.link.value, Next(p, l).link;
            && k'.Some? && k'.value.sentOn == k.sentOn && p.acked <= Next(p, l).acked
            && (|k'.value.up| < |k.up| || (|k'.value.up| == |k.up| && |k'.value.down| < |k.down|))
  {
    if l.Recv? {
      RecvIsKnown(p);
    }
  }

  /** Draining ends: no infinite sequence of states and labels consists of drain steps alone. */
  lemma {:induction false} DrainEnds(f: nat -> Peer, g: nat -> Label, n: nat)
    requires Inv(f(n)) && f(n).link.Some?
    ensures exists m :: n <= m && !DrainStep(f(m), g(m), f(m + 1))
    decreases |f(n).link.value.up|, |f(n).link.value.down|
  {
    if DrainStep(f(n), g(n), f(n + 1)) {
      DrainProgresses(f(n), g(n));
      StepKeepsInv(f(n), g(n));
      DrainEnds(f, g, n + 1);
    }
  }

  /** Where draining ends nothing is in flight, so everything sent on the connection is settled. */
  lemma DrainedMeansSettled(p: Peer)
    requires Reachable(p) && p.link.Some?
    requires forall l :: IsDrain(l) ==> !Enabled(p, l)
    ensures p.link.value.up == [] && p.link.value.down == []
    ensures p.client.pool == map[] && p.link.value.sentOn <= p.acked
    ensures forall id :: id in p.link.value.sentOn && id !in p.returned ==> Enabled(p, Release(id))
  {
    ReachableInv(p);
    assert !Enabled(p, Handle([], None)) && !Enabled(p, Recv);
    QuietMeansAcked(p);
  }

  lemma QuietMeansAcked(p: Peer)
    requires Inv(p) && p.link.Some? && p.link.value.up == [] && p.link.value.down == []
    ensures p.link.value.sentOn <= p.acked && p.client.pool == map[]
  {
    var k := p.link.value;
    assert InFlight(k) == multiset{};
    forall id | id in k.sentOn ensures id in p.acked {
      assert id in k.sentOn - p.acked ==> id in multiset(k.sentOn - p.acked);
    }
    assert p.client.pool.Keys == {};
  }

  lemma DrainOne(p: Peer) returns (l: Label)
    requires Inv(p) && p.link.Some? && (p.link.value.up != [] || p.link.value.down != [])
    ensures IsDrain(l) && Enabled(p, l)
  {
    l := if p.link.value.up != [] then Handle([], None) else Recv;
  }

  lemma RunCons(p: Peer, l: Label, rest: seq<Label>)
    requires Enabled(p, l)
    ensures Run(p, [l] + rest) == Run(Next(p, l), rest)
  {
    assert ([l] + rest)[1..] == rest;
  }

  /** A connected client can always be drained, without opening another connection. */
  lemma {:induction false} Drain(p: Peer) returns (run: seq<Label>)
    requires Inv(p) && p.link.Some?
    ensures forall l :: l in run ==> IsDrain(l)
    ensures Run(p, run).Some? && p.link.value.sentOn <= Run(p, run).value.acked
    decreases |p.link.value.up|, |p.link.value.down|
  {
    if p.link.value.up == [] && p.link.value.down == [] {
      run := [];
      QuietMeansAcked(p);
    } else {
      var l := DrainOne(p);
      DrainProgresses(p, l);
      StepKeepsInv(p, l);
      var rest := Drain(Next(p, l));
      RunCons(p, l, rest);
      run := [l] + rest;
    }
  }

  // ---------------------------------------------------------------- lost requests

  /** A request other than a publish that is pending but was not sent on the current connection. */
  ghost predicate Lost(p: Peer, id: nat) {
    && id in p.client.queries && id < |p.issued| && !p.issued[id].Publish?
    && (p.link.Some? ==> id !in p.link.value.sentOn)
  }

  lemma LostThroughStep(p: Peer, l: Label, id: nat)
    requires LedgerInv(p) && Enabled(p, l) && Lost(p, id)
    requires l.Recv? && p.link.value.down[0].Ok? ==> p.link.value.down[0].id in p.link.value.sentOn
    ensures Lost(Next(p, l), id)
  {
  }

  lemma LostStaysLost(p: Peer, l: Label, id: nat)
    requires Inv(p) && Enabled(p, l) && Lost(p, id)
    ensures Lost(Next(p, l), id)
  {
    if l.Recv? {
      RecvIsKnown(p);
    }
    LostThroughStep(p, l, id);
  }

  lemma {:induction false} LostForever(p: Peer, run: seq<Label>, id: nat)
    requires Inv(p) && Lost(p, id) && Run(p, run).Some?
    ensures Lost(Run(p, run).value, id) && Inv(Run(p, run).value)
    decreases |run|
  {
    if run != [] {
      LostStaysLost(p, run[0], id);
      StepKeepsInv(p, run[0]);
      LostForever(Next(p, run[0]), run[1..], id);
    }
  }

  lemma ListPool(pool: map<nat, Request>) returns (frames: seq<Up>)
    ensures IsPoolListing(frames, pool)
    decreases |pool|
  {
    if pool == map[] {
      frames := [];
    } else {
      var id :| id in pool;
      var less := pool - {id};
      assert pool.Keys == less.Keys + {id};
      var rest := ListPool(less);
      frames := [Req(id, pool[id])] + rest;
      AddOnce(less.Keys, id);
    }
  }

  /** A pooled publish of a disconnected client can be resent and acknowledged. */
  lemma Reconnect(p: Peer, id: nat) returns (run: seq<Label>)
    requires Inv(p) && p.link.None? && id in p.client.pool
    ensures Run(p, run).Some? && id in Run(p, run).value.acked
  {
    var frames := ListPool(p.client.pool);
    var l := Connect(p.connBound, frames);
    StepKeepsInv(p, l);
    var rest := Drain(Next(p, l));
    RunCons(p, l, rest);
    run := [l] + rest;
  }

  /** Some continuation of `p` has request `id` acknowledged. */
  ghost predicate CanComplete(p: Peer, id: nat) {
    exists run :: Run(p, run).Some? && id in Run(p, run).value.acked
  }

  /** A request can still be acknowledged in some continuation exactly when it is not lost. */
  lemma CompletableIffNotLost(p: Peer, id: nat)
    requires Reachable(p) && id < |p.issued|
    ensures CanComplete(p, id) <==> !Lost(p, id)
  {
    ReachableInv(p);
    DecideCompletable(p, id);
  }

  lemma DecideCompletable(p: Peer, id: nat)
    requires Inv(p) && id < |p.issued|
    ensures CanComplete(p, id) <==> !Lost(p, id)
  {
    if Lost(p, id) {
      forall run | Run(p, run).Some? ensures id !in Run(p, run).value.acked {
        LostForever(p, run, id);
        assert Lost(Run(p, run).value, id);
      }
    } else if id in p.acked {
      assert Run(p, []).Some?;
    } else if p.link.Some? {
      var run := Drain(p);
    } else {
      var run := Reconnect(p, id);
    }
  }

  lemma RunTwice(p: Peer, a: Label, b: Label, rest: seq<Label>)
    requires Enabled(p, a) && Enabled(Next(p, a), b)
    ensures Run(p, [a, b] + rest) == Run(Next(Next(p, a), b), rest)
  {
    RunCons(p, a, [b] + rest);
    RunCons(Next(p, a), b, rest);
    assert [a, b] + rest == [a] + ([b] + rest);
  }

  /** A request made before the client connects is not sent when it does. */
  lemma CallBeforeConnect(login: Text, body: Request) returns (p: Peer)
    requires !body.Publish?
    ensures Enabled(Init(login), Issue(body)) && Enabled(Next(Init(login), Issue(body)), Connect(0, []))
    ensures p == Next(Next(Init(login), Issue(body)), Connect(0, []))
    ensures p.link.Some? && p.link.value.sentOn == {} && p.issued == [body] && p.client.queries == {0} && p.client.nextId == 1
  {
    var p1 := Next(Init(login), Issue(body));
    assert p1.client.pool == map[];
    assert IsPoolListing([], p1.client.pool);
    p := Next(p1, Connect(0, []));
  }

  /** One that is cut off by a break is not sent again. */
  lemma CallCutOff(p: Peer, body: Request) returns (p': Peer)
    requires !body.Publish? && p.link.Some? && p.link.value.sentOn == {} && p.issued == [body] && p.client.queries == {0} && p.client.nextId == 1
    ensures Enabled(p, Issue(body)) && Enabled(Next(p, Issue(body)), Break) && p' == Next(Next(p, Issue(body)), Break)
    ensures Lost(p', 0) && Lost(p', 1) && !Enabled(p', WaitAll)
  {
    p' := Next(Next(p, Issue(body)), Break);
    assert 0 in p'.client.queries && 1 in p'.client.queries;
  }

  /** A run that loses two requests: one made before the client connected, one cut off by a break. */
  lemma SubscriptionsCanBeLost(login: Text, settings: SubscriptionParams) returns (run: seq<Label>, p: Peer)
    ensures Run(Init(login), run) == Some(p) && Reachable(p)
    ensures Lost(p, 0) && Lost(p, 1) && !Enabled(p, WaitAll) && !CanComplete(p, 0) && !CanComplete(p, 1)
  {
    var body := Subscribe(settings);
    var q := CallBeforeConnect(login, body);
    p := CallCutOff(q, body);
    run := [Issue(body), Connect(0, [])] + ([Issue(body), Break] + []);
    RunTwice(Init(login), Issue(body), Connect(0, []), [Issue(body), Break] + []);
    RunTwice(q, Issue(body), Break, []);
    assert Run(p, []) == Some(p);
    CompletableIffNotLost(p, 0);
    CompletableIffNotLost(p, 1);
  }

  /** After a break has cost a client one such request, `waitAll` never returns again. */
  lemma WaitAllHangsAfterLoss(p: Peer, run: seq<Label>, id: nat)
    requires Inv(p) && Lost(p, id) && Run(p, run).Some?
    ensures !Enabled(Run(p, run).value, WaitAll)
  {
    LostForever(p, run, id);
  }
}
