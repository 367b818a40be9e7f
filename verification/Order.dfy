/** The order in which a client's frames are handled and answered. */
module Order {
  import opened Basics
  import opened ClientCore
  import opened Protocol
  import opened Guarantees

  /** The frames of connection `c` that the server has not handled. */
  function Pending(p: Peer, c: nat): seq<Up> {
    if p.link.Some? && p.link.value.conn == c then p.link.value.up
    else if c in p.stale then p.stale[c]
    else []
  }

  /** The requests the server has handled on connection `c`, in order. */
  function LogOf(log: seq<Handled>, c: nat): seq<Up> {
    if log == [] then []
    else
      var e := log[|log| - 1];
      LogOf(log[..|log| - 1], c) + (if e.conn == c then [Req(e.id, e.body)] else [])
  }

  /** Requests among frames, in order. */
  function Requests(fs: seq<Up>): seq<Up> {
    if fs == [] then []
    else Requests(fs[..|fs| - 1]) + (if fs[|fs| - 1].Req? then [fs[|fs| - 1]] else [])
  }

  /** Frame `i` of the connection carries the request numbered by the requests before the connection and
   *  its place after the resent ones. */
  ghost predicate NewAt(issued: seq<Request>, t: Trace, i: nat) {
    && i < |t.sent| && 1 + |t.resent| <= i
    && var id := t.first + i - 1 - |t.resent|; id < |issued| && t.sent[i] == Req(id, issued[id])
  }

  /** The resent frames are distinct publishes issued before the connection was made. */
  ghost predicate Resent(issued: seq<Request>, t: Trace) {
    && t.first <= |issued|
    && (forall i :: 0 <= i < |t.resent| ==>
          var f := t.resent[i]; f.Req? && f.id < t.first && f.body == issued[f.id] && f.body.Publish?)
    && (forall i, j :: 0 <= i < j < |t.resent| ==> t.resent[i].id != t.resent[j].id)
  }

  /** What goes up a connection: the login, the pool, and then every request made since, in order. */
  ghost predicate Shape(login: Text, issued: seq<Request>, t: Trace) {
    && Resent(issued, t) && 1 + |t.resent| <= |t.sent|
    && t.sent[0] == Login(login) && t.sent[1..1 + |t.resent|] == t.resent
    && forall i: nat :: 1 + |t.resent| <= i < |t.sent| ==> NewAt(issued, t, i)
  }

  /** The server handles the frames of connection `c` in the order they were sent. */
  ghost predicate InOrder(p: Peer, c: nat) {
    && c in p.trace && Shape(p.client.login, p.issued, p.trace[c])
    && p.trace[c].served + Pending(p, c) == p.trace[c].sent
    && LogOf(p.log, c) == Requests(p.trace[c].served)
  }

  /** The frames other than copies: the answers. */
  function Answers(ds: seq<Down>): seq<Down> {
    if ds == [] then []
    else Answers(ds[..|ds| - 1]) + (if ds[|ds| - 1].Copy? then [] else [ds[|ds| - 1]])
  }

  /** The answers due to frames handled in order. */
  function Due(conn: nat, fs: seq<Up>): seq<Down> {
    if fs == [] then []
    else
      var f := fs[|fs| - 1];
      Due(conn, fs[..|fs| - 1]) + [if f.Req? then Ok(f.id) else LoginConfirm(conn)]
  }

  ghost predicate Confirmed(ds: seq<Down>) {
    exists d :: d in ds && d.LoginConfirm?
  }

  /** On the current connection every request made since is sent, every frame handled is answered in turn,
   *  and the client is logged in once the confirmation has arrived. */
  ghost predicate LinkOrder(p: Peer, k: Link) {
    && k.conn in p.trace
    && p.trace[k.conn].first + |p.trace[k.conn].sent| == |p.issued| + 1 + |p.trace[k.conn].resent|
    && Answers(k.received + k.down) == Due(k.conn, p.trace[k.conn].served)
    && (p.client.loginConfirmed <==> Confirmed(k.received))
  }

  /** Requests were handled on connections that were made. */
  ghost predicate LogKnown(p: Peer) {
    forall e :: e in p.log ==> e.conn in p.trace
  }

  /** The connections on record are the broken ones and the current one. */
  ghost predicate Conns(p: Peer) {
    && LogKnown(p)
    && (forall c :: c in p.trace ==> c < p.connBound && (c in p.stale || (p.link.Some? && p.link.value.conn == c)))
    && (forall c :: c in p.stale ==> c in p.trace)
    && (p.link.Some? ==> p.link.value.conn in p.trace)
  }

  ghost predicate AllInOrder(p: Peer) {
    forall c :: c in p.trace ==> InOrder(p, c)
  }

  ghost predicate OrderInv(p: Peer) {
    Conns(p) && AllInOrder(p) && (p.link.Some? ==> LinkOrder(p, p.link.value))
  }

  // ---------------------------------------------------------------- sequences

  lemma {:induction false} AnswersConcat(a: seq<Down>, b: seq<Down>)
    ensures Answers(a + b) == Answers(a) + Answers(b)
  {
    if b == [] {
      assert a + b == a;
    } else {
      var n := |b| - 1;
      assert (a + b)[..|a| + n] == a + b[..n];
      AnswersConcat(a, b[..n]);
    }
  }

  lemma {:induction false} CopiesAnswerNothing(copies: seq<Down>)
    requires AreCopies(copies)
    ensures Answers(copies) == []
  {
    if copies != [] {
      CopiesAnswerNothing(copies[..|copies| - 1]);
      assert copies[|copies| - 1] in copies;
    }
  }

  lemma ReplyAnswers(conn: nat, f: Up, copies: seq<Down>)
    requires AreCopies(copies)
    ensures Answers(Reply(conn, f, copies)) == [if f.Req? then Ok(f.id) else LoginConfirm(conn)]
  {
    var last := if f.Req? then Ok(f.id) else LoginConfirm(conn);
    CopiesAnswerNothing(copies);
    AnswersConcat(copies, [last]);
    assert [last][..0] == [];
    assert Answers([last]) == [last];
  }

  lemma {:induction false} NoneOf(log: seq<Handled>, c: nat)
    requires forall e :: e in log ==> e.conn != c
    ensures LogOf(log, c) == []
  {
    if log != [] {
      assert log[|log| - 1] in log;
      NoneOf(log[..|log| - 1], c);
    }
  }

  lemma LogGains(log: seq<Handled>, c: nat, conn: nat, f: Up)
    ensures LogOf(log + Record(conn, f), c) == LogOf(log, c) + (if c == conn && f.Req? then [f] else [])
  {
    if f.Req? {
      assert (log + Record(conn, f))[..|log|] == log;
    } else {
      assert log + Record(conn, f) == log;
    }
  }

  lemma ServedGains(fs: seq<Up>, f: Up, conn: nat)
    ensures Requests(fs + [f]) == Requests(fs) + (if f.Req? then [f] else [])
    ensures Due(conn, fs + [f]) == Due(conn, fs) + [if f.Req? then Ok(f.id) else LoginConfirm(conn)]
  {
    assert (fs + [f])[..|fs|] == fs;
  }

  lemma {:induction false} ListingIsDistinct(frames: seq<Up>, i: nat, j: nat)
    requires i < j < |frames| && frames[i].Req? && frames[j].Req?
    requires forall id :: ReqIds(frames)[id] <= 1
    ensures frames[i].id != frames[j].id
  {
    var rest := frames[1..];
    assert frames == [frames[0]] + rest;
    forall id ensures ReqIds(rest)[id] <= 1 {
      assert ReqIds(rest)[id] <= ReqIds(frames)[id];
    }
    if i == 0 {
      assert rest[j - 1] == frames[j];
      ReqIdsMember(rest, frames[j].id);
      assert ReqIds(rest)[frames[j].id] > 0;
      assert ReqIds(frames)[frames[0].id] == 1 + ReqIds(rest)[frames[0].id];
    } else {
      ListingIsDistinct(rest, i - 1, j - 1);
    }
  }

  // ---------------------------------------------------------------- each step

  lemma ShapeGrows(login: Text, issued: seq<Request>, body: Request, t: Trace)
    requires Shape(login, issued, t)
    ensures Shape(login, issued + [body], t)
  {
    forall i: nat | 1 + |t.resent| <= i < |t.sent| ensures NewAt(issued + [body], t, i) {
      assert NewAt(issued, t, i);
    }
  }

  lemma ShapeGains(login: Text, issued: seq<Request>, body: Request, t: Trace)
    requires Shape(login, issued, t) && t.first + |t.sent| == |issued| + 1 + |t.resent|
    ensures Shape(login, issued + [body], t.(sent := t.sent + [Req(|issued|, body)]))
  {
    var t' := t.(sent := t.sent + [Req(|issued|, body)]);
    forall i: nat | 1 + |t.resent| <= i < |t'.sent| ensures NewAt(issued + [body], t', i) {
      assert i < |t.sent| ==> NewAt(issued, t, i);
    }
  }

  lemma FreshShape(login: Text, issued: seq<Request>, pool: map<nat, Request>, frames: seq<Up>)
    requires IsPoolListing(frames, pool)
    requires forall id :: id in pool ==> id < |issued| && pool[id] == issued[id] && pool[id].Publish?
    ensures Shape(login, issued, Trace(frames, |issued|, [Login(login)] + frames, []))
  {
    forall i | 0 <= i < |frames| ensures frames[i].Req? && frames[i].id in pool && frames[i].body == pool[frames[i].id] {
      assert frames[i] in frames;
    }
    forall i, j | 0 <= i < j < |frames| ensures frames[i].id != frames[j].id {
      ListingIsDistinct(frames, i, j);
    }
  }

  lemma IssueInOrder(p: Peer, body: Request, c: nat)
    requires Enabled(p, Issue(body)) && p.client.nextId == |p.issued| && InOrder(p, c)
    requires p.link.Some? && p.link.value.conn == c ==> LinkOrder(p, p.link.value)
    ensures InOrder(Next(p, Issue(body)), c)
  {
    if p.link.Some? && p.link.value.conn == c {
      ShapeGains(p.client.login, p.issued, body, p.trace[c]);
      Regroup(p.trace[c].served, p.link.value.up, [Req(|p.issued|, body)]);
    } else {
      ShapeGrows(p.client.login, p.issued, body, p.trace[c]);
    }
  }

  lemma IssueKeepsLinkOrder(p: Peer, body: Request)
    requires Conns(p) && Enabled(p, Issue(body)) && p.link.Some? && LinkOrder(p, p.link.value)
    ensures var p' := Next(p, Issue(body)); Conns(p') && LinkOrder(p', p'.link.value)
  {
  }

  lemma IssueKeepsAll(p: Peer, body: Request)
    requires OrderInv(p) && Enabled(p, Issue(body)) && p.client.nextId == |p.issued|
    ensures AllInOrder(Next(p, Issue(body)))
  {
    forall c | c in Next(p, Issue(body)).trace ensures InOrder(Next(p, Issue(body)), c) {
      IssueInOrder(p, body, c);
    }
  }

  lemma IssueKeepsOrder(p: Peer, body: Request)
    requires LedgerInv(p) && OrderInv(p) && Enabled(p, Issue(body))
    ensures OrderInv(Next(p, Issue(body)))
  {
    assert p.client.nextId == |p.issued|;
    IssueKeepsAll(p, body);
    if p.link.Some? {
      IssueKeepsLinkOrder(p, body);
    }
  }

  lemma ConnectInOrder(p: Peer, conn: nat, frames: seq<Up>, c: nat)
    requires LedgerInv(p) && Conns(p) && Enabled(p, Connect(conn, frames)) && (c == conn || InOrder(p, c))
    ensures InOrder(Next(p, Connect(conn, frames)), c)
  {
    assert conn !in p.trace;
    if c == conn {
      FreshShape(p.client.login, p.issued, p.client.pool, frames);
      NoneOf(p.log, conn);
      assert [] + ([Login(p.client.login)] + frames) == [Login(p.client.login)] + frames;
    }
  }

  lemma ConnectKeepsConns(p: Peer, conn: nat, frames: seq<Up>)
    requires Conns(p) && Enabled(p, Connect(conn, frames))
    ensures Conns(Next(p, Connect(conn, frames)))
  {
  }

  lemma ConnectStartsLink(p: Peer, conn: nat, frames: seq<Up>)
    requires Enabled(p, Connect(conn, frames))
    ensures var p' := Next(p, Connect(conn, frames)); LinkOrder(p', p'.link.value)
  {
    var k := Next(p, Connect(conn, frames)).link.value;
    assert k.received + k.down == [];
  }

  lemma ConnectKeepsAll(p: Peer, conn: nat, frames: seq<Up>)
    requires LedgerInv(p) && Conns(p) && AllInOrder(p) && Enabled(p, Connect(conn, frames))
    ensures AllInOrder(Next(p, Connect(conn, frames)))
  {
    forall c | c in Next(p, Connect(conn, frames)).trace ensures InOrder(Next(p, Connect(conn, frames)), c) {
      ConnectInOrder(p, conn, frames, c);
    }
  }

  lemma ConnectKeepsOrder(p: Peer, conn: nat, frames: seq<Up>)
    requires LedgerInv(p) && OrderInv(p) && Enabled(p, Connect(conn, frames))
    ensures OrderInv(Next(p, Connect(conn, frames)))
  {
    ConnectKeepsConns(p, conn, frames);
    ConnectKeepsAll(p, conn, frames);
    ConnectStartsLink(p, conn, frames);
  }

  /** Steps that send nothing up and handle nothing leave the order of every connection. */
  ghost predicate Untouched(p: Peer, p': Peer) {
    && p'.trace == p.trace && p'.log == p.log && p'.issued == p.issued && p'.client.login == p.client.login
    && forall c :: c in p.trace ==> Pending(p', c) == Pending(p, c)
  }

  lemma SameOrder(p: Peer, p': Peer)
    requires AllInOrder(p) && Untouched(p, p')
    ensures AllInOrder(p')
  {
    forall c | c in p'.trace ensures InOrder(p', c) {
      assert InOrder(p, c);
    }
  }

  lemma BreakKeepsOrder(p: Peer)
    requires OrderInv(p) && Enabled(p, Break)
    ensures OrderInv(Next(p, Break))
  {
    assert Untouched(p, Next(p, Break));
    SameOrder(p, Next(p, Break));
  }

  /** Handling the first pending frame of a connection moves it to those handled. */
  lemma ServingInOrder(p: Peer, p': Peer, c: nat, conn: nat, f: Up)
    requires InOrder(p, c) && p'.trace == Serves(p.trace, conn, f) && p'.log == p.log + Record(conn, f)
    requires p'.client.login == p.client.login && p'.issued == p.issued
    requires if c == conn then Pending(p, c) != [] && f == Pending(p, c)[0] && Pending(p', c) == Pending(p, c)[1..]
             else Pending(p', c) == Pending(p, c)
    ensures InOrder(p', c)
  {
    LogGains(p.log, c, conn, f);
    if c == conn {
      ServedGains(p.trace[c].served, f, conn);
      assert (p.trace[c].served + [f]) + Pending(p, c)[1..] == p.trace[c].sent;
      ShapeIgnoresServed(p.client.login, p.issued, p.trace[c], p'.trace[c]);
    }
  }

  lemma ShapeIgnoresServed(login: Text, issued: seq<Request>, t: Trace, t': Trace)
    requires Shape(login, issued, t) && t' == t.(served := t'.served)
    ensures Shape(login, issued, t')
  {
    forall i: nat | 1 + |t.resent| <= i < |t.sent| ensures NewAt(issued, t', i) {
      assert NewAt(issued, t, i);
    }
  }

  lemma HandleInOrder(p: Peer, copies: seq<Down>, own: Option<nat>, c: nat)
    requires Enabled(p, Handle(copies, own)) && InOrder(p, c)
    ensures InOrder(Next(p, Handle(copies, own)), c)
  {
    ServingInOrder(p, Next(p, Handle(copies, own)), c, p.link.value.conn, p.link.value.up[0]);
  }

  lemma HandleKeepsLinkOrder(p: Peer, copies: seq<Down>, own: Option<nat>)
    requires p.link.Some? && LinkOrder(p, p.link.value) && Enabled(p, Handle(copies, own))
    ensures var p' := Next(p, Handle(copies, own)); LinkOrder(p', p'.link.value)
  {
    var k := p.link.value;
    var reply := Reply(k.conn, k.up[0], copies);
    ReplyAnswers(k.conn, k.up[0], copies);
    Regroup(k.received, k.down, reply);
    AnswersConcat(k.received + k.down, reply);
    ServedGains(p.trace[k.conn].served, k.up[0], k.conn);
  }

  lemma ServingKeepsConns(p: Peer, p': Peer, conn: nat, f: Up)
    requires Conns(p) && conn in p.trace && p'.trace == Serves(p.trace, conn, f) && p'.log == p.log + Record(conn, f)
    requires p'.connBound == p.connBound && p'.stale.Keys == p.stale.Keys
    requires p'.link.Some? == p.link.Some? && (p.link.Some? ==> p'.link.value.conn == p.link.value.conn)
    ensures Conns(p')
  {
    assert p'.trace.Keys == p.trace.Keys;
  }

  lemma HandleKeepsOrder(p: Peer, copies: seq<Down>, own: Option<nat>)
    requires OrderInv(p) && Enabled(p, Handle(copies, own))
    ensures OrderInv(Next(p, Handle(copies, own)))
  {
    var p' := Next(p, Handle(copies, own));
    HandleKeepsLinkOrder(p, copies, own);
    ServingKeepsConns(p, p', p.link.value.conn, p.link.value.up[0]);
    forall c | c in p'.trace ensures InOrder(p', c) {
      HandleInOrder(p, copies, own, c);
    }
  }

  lemma StaleInOrder(p: Peer, conn: nat, c: nat)
    requires Enabled(p, HandleStale(conn)) && (p.link.Some? ==> p.link.value.conn != conn) && InOrder(p, c)
    ensures InOrder(Next(p, HandleStale(conn)), c)
  {
    ServingInOrder(p, Next(p, HandleStale(conn)), c, conn, p.stale[conn][0]);
  }

  lemma StaleKeepsAll(p: Peer, conn: nat)
    requires AllInOrder(p) && Enabled(p, HandleStale(conn)) && (p.link.Some? ==> p.link.value.conn != conn)
    ensures AllInOrder(Next(p, HandleStale(conn)))
  {
    forall c | c in Next(p, HandleStale(conn)).trace ensures InOrder(Next(p, HandleStale(conn)), c) {
      StaleInOrder(p, conn, c);
    }
  }

  lemma StaleKeepsRest(p: Peer, conn: nat)
    requires Conns(p) && Enabled(p, HandleStale(conn)) && (p.link.Some? ==> p.link.value.conn != conn && LinkOrder(p, p.link.value))
    ensures Conns(Next(p, HandleStale(conn)))
    ensures p.link.Some? ==> LinkOrder(Next(p, HandleStale(conn)), p.link.value)
  {
    ServingKeepsConns(p, Next(p, HandleStale(conn)), conn, p.stale[conn][0]);
  }

  lemma StaleKeepsOrder(p: Peer, conn: nat)
    requires OrderInv(p) && Enabled(p, HandleStale(conn)) && (p.link.Some? ==> p.link.value.conn != conn)
    ensures OrderInv(Next(p, HandleStale(conn)))
  {
    StaleKeepsAll(p, conn);
    StaleKeepsRest(p, conn);
  }

  lemma PushKeepsLinkOrder(p: Peer, copies: seq<Down>)
    requires p.link.Some? && LinkOrder(p, p.link.value) && AreCopies(copies)
    ensures var p' := Next(p, Push(copies)); LinkOrder(p', p'.link.value)
  {
    var k := p.link.value;
    CopiesAnswerNothing(copies);
    Regroup(k.received, k.down, copies);
    AnswersConcat(k.received + k.down, copies);
  }

  lemma PushLeavesTraces(p: Peer, copies: seq<Down>)
    requires Conns(p) && Enabled(p, Push(copies))
    ensures Untouched(p, Next(p, Push(copies))) && Conns(Next(p, Push(copies)))
  {
  }

  lemma PushKeepsOrder(p: Peer, copies: seq<Down>)
    requires OrderInv(p) && Enabled(p, Push(copies))
    ensures OrderInv(Next(p, Push(copies)))
  {
    PushKeepsLinkOrder(p, copies);
    PushLeavesTraces(p, copies);
    SameOrder(p, Next(p, Push(copies)));
  }

  lemma ConfirmedGains(ds: seq<Down>, d: Down)
    ensures Confirmed(ds + [d]) <==> Confirmed(ds) || d.LoginConfirm?
  {
    assert d in ds + [d];
    assert forall x :: x in ds + [d] <==> x in ds || x == d;
  }

  lemma RecvKeepsLinkOrder(p: Peer)
    requires Receivable(p) && LinkOrder(p, p.link.value)
    ensures Next(p, Recv).link.Some? && LinkOrder(Next(p, Recv), Next(p, Recv).link.value)
  {
    var k := p.link.value;
    ConfirmedGains(k.received, k.down[0]);
    assert (k.received + [k.down[0]]) + k.down[1..] == k.received + k.down;
  }

  lemma RecvLeavesTraces(p: Peer)
    requires Receivable(p) && Conns(p)
    ensures Untouched(p, Next(p, Recv)) && Conns(Next(p, Recv))
  {
  }

  lemma RecvKeepsOrder(p: Peer)
    requires OrderInv(p) && Receivable(p)
    ensures OrderInv(Next(p, Recv))
  {
    RecvKeepsLinkOrder(p);
    RecvLeavesTraces(p);
    SameOrder(p, Next(p, Recv));
  }

  lemma WaiterLeavesTraces(p: Peer, l: Label)
    requires Conns(p) && Enabled(p, l) && (l.Release? || l.WaitAll?)
    ensures Untouched(p, Next(p, l)) && Conns(Next(p, l)) && Next(p, l).link == p.link
    ensures p.link.Some? && LinkOrder(p, p.link.value) ==> LinkOrder(Next(p, l), p.link.value)
  {
  }

  lemma WaiterKeepsOrder(p: Peer, l: Label)
    requires OrderInv(p) && Enabled(p, l) && (l.Release? || l.WaitAll?)
    ensures OrderInv(Next(p, l))
  {
    WaiterLeavesTraces(p, l);
    SameOrder(p, Next(p, l));
  }

  /** Every step keeps the order. */
  lemma StepKeepsOrder(p: Peer, l: Label)
    requires Inv(p) && OrderInv(p) && Enabled(p, l)
    ensures OrderInv(Next(p, l))
  {
    match l
    case Issue(body) => IssueKeepsOrder(p, body);
    case Connect(conn, frames) => ConnectKeepsOrder(p, conn, frames);
    case Break => BreakKeepsOrder(p);
    case Handle(copies, own) => HandleKeepsOrder(p, copies, own);
    case Push(copies) => PushKeepsOrder(p, copies);
    case HandleStale(conn) => StaleKeepsOrder(p, conn);
    case Recv =>
      RecvIsKnown(p);
      RecvKeepsOrder(p);
    case Release(_) => WaiterKeepsOrder(p, l);
    case WaitAll => WaiterKeepsOrder(p, l);
  }

  lemma {:induction false} RunKeepsOrder(p: Peer, run: seq<Label>)
    requires Inv(p) && OrderInv(p)
    ensures Run(p, run).Some? ==> Inv(Run(p, run).value) && OrderInv(Run(p, run).value)
    decreases |run|
  {
    if run != [] && Enabled(p, run[0]) {
      StepKeepsInv(p, run[0]);
      StepKeepsOrder(p, run[0]);
      RunKeepsOrder(Next(p, run[0]), run[1..]);
    }
  }

  // ---------------------------------------------------------------- what it means

  /** Request `i` handled on connection `c` is the `i`th of the pool then resent, or the one numbered by its
   *  place after them. */
  ghost predicate TurnAt(issued: seq<Request>, t: Trace, log: seq<Up>, i: nat) {
    && i < |log|
    && if i < |t.resent| then log[i] == t.resent[i]
       else var id := t.first + i - |t.resent|; id < |issued| && log[i] == Req(id, issued[id])
  }

  /** On connection `c` the server handled the login before any request, then the resent pool in the order
   *  it was resent, then the requests made since, in the order they were made and without a gap. */
  ghost predicate HandledInTurn(p: Peer, c: nat) {
    && c in p.trace && Resent(p.issued, p.trace[c])
    && var log, t := LogOf(p.log, c), p.trace[c];
       && (log != [] ==> t.served != [] && t.served[0] == Login(p.client.login))
       && forall i: nat :: i < |log| ==> TurnAt(p.issued, t, log, i)
  }

  lemma {:induction false} OnlyTheFirstIsLogin(sent: seq<Up>, n: nat)
    requires 1 <= n <= |sent| && sent[0].Login? && forall i :: 0 < i < |sent| ==> sent[i].Req?
    ensures Requests(sent[..n]) == sent[1..n]
  {
    if n == 1 {
      assert sent[..1][..0] == [];
    } else {
      assert sent[..n][..n - 1] == sent[..n - 1];
      OnlyTheFirstIsLogin(sent, n - 1);
    }
  }

  lemma ShapeIsRequests(login: Text, issued: seq<Request>, t: Trace)
    requires Shape(login, issued, t)
    ensures t.sent[0].Login? && forall i :: 0 < i < |t.sent| ==> t.sent[i].Req?
  {
    forall i: nat | 0 < i < |t.sent| ensures t.sent[i].Req? {
      if i <= |t.resent| {
        assert t.sent[1..1 + |t.resent|][i - 1] == t.sent[i];
      } else {
        assert NewAt(issued, t, i);
      }
    }
  }

  lemma OrderMeans(p: Peer, c: nat)
    requires InOrder(p, c)
    ensures HandledInTurn(p, c)
  {
    var t, n := p.trace[c], |p.trace[c].served|;
    assert t.served == t.sent[..n];
    ShapeIsRequests(p.client.login, p.issued, t);
    if n > 0 {
      OnlyTheFirstIsLogin(t.sent, n);
      forall i: nat | i < |LogOf(p.log, c)| ensures TurnAt(p.issued, t, LogOf(p.log, c), i) {
        assert LogOf(p.log, c)[i] == t.sent[i + 1];
        if i < |t.resent| {
          assert t.sent[1..1 + |t.resent|][i] == t.sent[i + 1];
        } else {
          assert NewAt(p.issued, t, i + 1);
        }
      }
    }
  }

  lemma InitOrder(login: Text)
    ensures Inv(Init(login)) && OrderInv(Init(login))
  {
  }

  /** In every run, the server handles what a client sends on a connection in turn; connections that were
   *  never made have nothing handled. */
  lemma RequestsAreHandledInTurn(login: Text, run: seq<Label>, c: nat)
    requires Run(Init(login), run).Some?
    ensures var p := Run(Init(login), run).value;
            if c in p.trace then HandledInTurn(p, c) else LogOf(p.log, c) == []
  {
    InitOrder(login);
    RunKeepsOrder(Init(login), run);
    InTurn(Run(Init(login), run).value, c);
  }

  lemma InTurn(p: Peer, c: nat)
    requires OrderInv(p) && LogKnown(p)
    ensures if c in p.trace then HandledInTurn(p, c) else LogOf(p.log, c) == []
  {
    if c in p.trace {
      OrderMeans(p, c);
    } else {
      NoneOf(p.log, c);
    }
  }

  /** In every run, the answers on the current connection are those due to the frames handled on it, in
   *  order, and the client is logged in exactly when the confirmation is among the answers received. */
  lemma AnswersComeInTurn(login: Text, run: seq<Label>)
    requires Run(Init(login), run).Some? && Run(Init(login), run).value.link.Some?
    ensures var p := Run(Init(login), run).value; LinkOrder(p, p.link.value)
  {
    InitOrder(login);
    RunKeepsOrder(Init(login), run);
  }
}
