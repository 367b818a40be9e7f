/** The whole system comes to rest, and at rest every request has been answered. */
module Draining {
  import opened Basics
  import opened ClientCore
  import opened Protocol
  import opened ServerCore
  import opened Guarantees
  import opened System
  import N = NodeCore

  /** The steps left when no call is made, nothing connects or breaks, and consumers do not publish. */
  predicate IsSysDrain(l: SysLabel) {
    l.Serve? || l.ServeStale? || (l.Client? && l.step.Recv?)
  }

  /** The frames of one client the server may still handle, on its broken connections. */
  function StaleFrames(p: Peer): set<(nat, nat)> {
    set c, i | c in p.stale && 0 <= i < |p.stale[c]| :: (c, i)
  }

  function UpCount(p: Peer): nat {
    |StaleFrames(p)| + if p.link.Some? then |p.link.value.up| else 0
  }

  function DownCount(p: Peer): nat {
    if p.link.Some? then |p.link.value.down| else 0
  }

  lemma Smaller<T>(a: set<T>, b: set<T>)
    requires a < b
    ensures |a| < |b|
    decreases |a|
  {
    var x :| x in b && x !in a;
    if a != {} {
      var y :| y in a;
      assert x in b - {y} && x !in a - {y};
      Smaller(a - {y}, b - {y});
    }
  }

  lemma TakingStaleCounts(p: Peer, conn: nat)
    requires conn in p.stale && p.stale[conn] != []
    ensures UpCount(TakeStale(p, conn)) < UpCount(p)
  {
    var last := (conn, |p.stale[conn]| - 1);
    assert last in StaleFrames(p) && last !in StaleFrames(TakeStale(p, conn));
    forall x | x in StaleFrames(TakeStale(p, conn)) ensures x in StaleFrames(p) {
    }
    Smaller(StaleFrames(TakeStale(p, conn)), StaleFrames(p));
  }

  lemma ArrivalsAddNoUps(peers: seq<Peer>, outs: seq<Out>)
    ensures Total(ArriveAll(peers, outs), UpCount) == Total(peers, UpCount)
  {
    var after := ArriveAll(peers, outs);
    forall i | 0 <= i < |peers| ensures UpCount(after[i]) == UpCount(peers[i]) {
      assert StaleFrames(after[i]) == StaleFrames(peers[i]);
    }
    TotalSame(after, peers, UpCount);
  }

  /** Each such step lowers the number of frames going up, or keeps it and lowers that coming down. */
  lemma SysDrainProgresses(rx: N.Engine, y: Sys, l: SysLabel)
    requires SysInv(y) && SysEnabled(rx, y, l) && IsSysDrain(l)
    ensures var y' := SysNext(rx, y, l);
            || Total(y'.peers, UpCount) < Total(y.peers, UpCount)
            || (Total(y'.peers, UpCount) == Total(y.peers, UpCount) && Total(y'.peers, DownCount) < Total(y.peers, DownCount))
  {
    var p := y.peers[l.i];
    match l
    case Serve(i) =>
      var k := p.link.value;
      var taken := TakeUp(p, OwnCopyAt(rx, y.server, k.conn, k.up[0]));
      assert StaleFrames(taken) == StaleFrames(p);
      TotalUpdate(y.peers, UpCount, i, taken);
      ArrivalsAddNoUps(y.peers[i := taken], OnMessage(rx, y.server, k.conn, k.up[0]).outs);
    case ServeStale(i, conn) =>
      TakingStaleCounts(p, conn);
      TotalUpdate(y.peers, UpCount, i, TakeStale(p, conn));
      ArrivalsAddNoUps(y.peers[i := TakeStale(p, conn)], OnMessage(rx, y.server, conn, p.stale[conn][0]).outs);
    case Client(i, step) =>
      RecvIsKnown(p);
      var p' := Next(p, Recv);
      assert StaleFrames(p') == StaleFrames(p);
      TotalUpdate(y.peers, UpCount, i, p');
      TotalUpdate(y.peers, DownCount, i, p');
  }

  ghost predicate SysDrainStep(rx: N.Engine, y: Sys, l: SysLabel, y': Sys) {
    IsSysDrain(l) && SysEnabled(rx, y, l) && y' == SysNext(rx, y, l)
  }

  /** So no infinite sequence of states and steps consists of such steps alone. */
  lemma {:induction false} SysDrainEnds(rx: N.Engine, f: nat -> Sys, g: nat -> SysLabel, n: nat)
    requires SysInv(f(n))
    ensures exists m :: n <= m && !SysDrainStep(rx, f(m), g(m), f(m + 1))
    decreases Total(f(n).peers, UpCount), Total(f(n).peers, DownCount)
  {
    if SysDrainStep(rx, f(n), g(n), f(n + 1)) {
      SysDrainProgresses(rx, f(n), g(n));
      SysStepKeepsInv(rx, f(n), g(n));
      SysDrainEnds(rx, f, g, n + 1);
    }
  }

  /** Where no such step is left, a client whose connection the server still serves, and whose next
   *  frame meets no bad pattern, has every request of that connection acknowledged and its pool empty. */
  lemma SysAtRest(rx: N.Engine, y: Sys, i: nat)
    requires SysReachable(rx, y) && i < |y.peers| && y.peers[i].link.Some?
    requires forall l :: IsSysDrain(l) ==> !SysEnabled(rx, y, l)
    requires y.peers[i].link.value.conn in y.server.open
    requires y.peers[i].link.value.up != [] ==>
               PatternsOk(rx, y.server, Message(y.peers[i].link.value.conn, y.peers[i].link.value.up[0]))
    ensures var p := y.peers[i];
            && p.link.value.up == [] && p.link.value.down == []
            && p.client.pool == map[] && p.link.value.sentOn <= p.acked
            && forall id :: id in p.link.value.sentOn && id !in p.returned ==> Enabled(p, Release(id))
  {
    SysReachableInv(rx, y);
    assert !SysEnabled(rx, y, Serve(i)) && !SysEnabled(rx, y, Client(i, Recv));
    QuietMeansAcked(y.peers[i]);
  }
}
