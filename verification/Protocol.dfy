/** One client and all the connections it ever opens, as a step system.
 *
 * The server end of a connection is described only by what it may send back: the broker that
 * really produces those frames is put in its place in module `System`.
 */
module Protocol {
  import opened Basics
  import opened ClientCore

  /** The connection the client currently uses. */
  datatype Link = Link(
    conn: nat,
    up: seq<Up>,         // sent by the client, not yet handled by the server
    down: seq<Down>,     // sent by the server, not yet received by the client
    received: seq<Down>, // everything the client has received on this connection
    sentOn: set<nat>,    // ids of the requests sent on this connection
    own: map<nat, nat>,  // publishes whose author was one of their own listeners: where in the
                         // stream of frames sent down this connection its copy stands
    base: nat)           // frames the client had processed before this connection

  /** A request handled by the server, with the connection it arrived on. */
  datatype Handled = Handled(conn: nat, id: nat, body: Request)

  /** All that went up one connection: the login, the pool at that time, and the requests made since. */
  datatype Trace = Trace(
    resent: seq<Up>,     // the pool when the connection was made, as it was sent
    first: nat,          // requests issued before the connection was made
    sent: seq<Up>,       // every frame sent on the connection, in order
    served: seq<Up>)     // every frame of it the server has handled, in order

  datatype Peer = Peer(
    client: ClientState,
    link: Option<Link>,
    stale: map<nat, seq<Up>>, // broken connections: what the server may still find on them
    connBound: nat,           // every connection so far has a smaller number
    issued: seq<Request>,     // history: request `i` is `issued[i]`
    log: seq<Handled>,        // history: requests handled by the server, in order
    acked: set<nat>,          // history: requests whose OK the client has processed
    returned: set<nat>,       // history: requests whose waiter was released
    waitedFor: nat,           // history: requests issued when `waitAll` last returned
    heard: seq<Down>,         // history: every frame the client has processed, on any connection
    ownDone: map<nat, nat>,   // history: own publishes whose OK the client has processed, and where
                              // in `heard` the copy made for each stands
    trace: map<nat, Trace>,   // history: what was sent and handled on each connection
    failed: bool)             // the client threw on an unknown request id

  datatype Label =
    | Issue(body: Request)
    | Connect(conn: nat, frames: seq<Up>)
    | Break
    | Handle(copies: seq<Down>, own: Option<nat>)
    | Push(copies: seq<Down>)
    | HandleStale(conn: nat)
    | Recv
    | Release(id: nat)
    | WaitAll

  function Init(login: Text): Peer {
    Peer(InitClient(login), None, map[], 0, [], [], {}, {}, 0, [], map[], map[], false)
  }

  ghost predicate AreCopies(copies: seq<Down>) {
    forall d :: d in copies ==> d.Copy?
  }

  predicate IsCopyOf(d: Down, body: Request) {
    d.Copy? && body.Publish? && d.params == body.params && d.data == body.data
  }

  /** `own` is the index of the copy the author of request `f` gets of its own publish, if it does. */
  predicate FitsOwn(f: Up, copies: seq<Down>, own: Option<nat>) {
    && (f.Login? ==> copies == [] && own.None?)
    && (own.Some? ==> f.Req? && own.value < |copies| && IsCopyOf(copies[own.value], f.body))
  }

  /** Where the copies of own publishes stand, after request `f` was answered with an own copy or not. */
  function MarkOwn(k: Link, f: Up, own: Option<nat>): map<nat, nat> {
    if own.Some? && f.Req? then k.own[f.id := |k.received| + |k.down| + own.value] else k.own
  }

  ghost predicate Enabled(p: Peer, l: Label) {
    match l
    case Issue(_) => |p.issued| < U64_LIMIT
    case Connect(conn, frames) =>
      p.link.None? && p.connBound <= conn && IsPoolListing(frames, p.client.pool)
    case Break => p.link.Some?
    case Handle(copies, own) =>
      && p.link.Some? && p.link.value.up != [] && AreCopies(copies)
      && FitsOwn(p.link.value.up[0], copies, own)
    case Push(copies) => p.link.Some? && AreCopies(copies)
    case HandleStale(conn) => conn in p.stale && p.stale[conn] != []
    case Recv => p.link.Some? && p.link.value.down != []
    case Release(id) => id < |p.issued| && id !in p.client.locked
    case WaitAll => p.client.pool == map[] && p.client.queries == {}
  }

  /** The server's record of handling frame `f` on connection `conn`. */
  function Record(conn: nat, f: Up): seq<Handled> {
    if f.Req? then [Handled(conn, f.id, f.body)] else []
  }

  /** What the server sends back on the connection a frame arrived on. */
  function Reply(conn: nat, f: Up, copies: seq<Down>): seq<Down> {
    if f.Req? then copies + [Ok(f.id)] else [LoginConfirm(conn)]
  }

  function Sends(trace: map<nat, Trace>, conn: nat, f: Up): map<nat, Trace> {
    if conn in trace then trace[conn := trace[conn].(sent := trace[conn].sent + [f])] else trace
  }

  function Serves(trace: map<nat, Trace>, conn: nat, f: Up): map<nat, Trace> {
    if conn in trace then trace[conn := trace[conn].(served := trace[conn].served + [f])] else trace
  }

  function Next(p: Peer, l: Label): Peer
    requires Enabled(p, l)
  {
    match l
    case Issue(body) =>
      var id := p.client.nextId;
      p.(client := Enroll(p.client, body),
         issued := p.issued + [body],
         trace := if p.link.None? then p.trace else Sends(p.trace, p.link.value.conn, Req(id, body)),
         link := if p.link.None? then None
                 else Some(p.link.value.(up := p.link.value.up + [Req(id, body)],
                                         sentOn := p.link.value.sentOn + {id})))
    case Connect(conn, frames) =>
      p.(client := p.client.(loginConfirmed := false),
         link := Some(Link(conn, [Login(p.client.login)] + frames, [], [], p.client.pool.Keys, map[], |p.heard|)),
         trace := p.trace[conn := Trace(frames, |p.issued|, [Login(p.client.login)] + frames, [])],
         connBound := conn + 1)
    case Break =>
      p.(client := p.client.(loginConfirmed := false),
         link := None,
         stale := p.stale[p.link.value.conn := p.link.value.up])
    case Handle(copies, own) =>
      var k := p.link.value;
      var f := k.up[0];
      p.(link := Some(k.(up := k.up[1..],
                         down := k.down + Reply(k.conn, f, copies),
                         own := MarkOwn(k, f, own))),
         trace := Serves(p.trace, k.conn, f),
         log := p.log + Record(k.conn, f))
    case Push(copies) =>
      p.(link := Some(p.link.value.(down := p.link.value.down + copies)))
    case HandleStale(conn) =>
      p.(stale := p.stale[conn := p.stale[conn][1..]],
         trace := Serves(p.trace, conn, p.stale[conn][0]),
         log := p.log + Record(conn, p.stale[conn][0]))
    case Recv =>
      var k := p.link.value;
      var d := k.down[0];
      match Receive(p.client, d) {
        case None => p.(failed := true)
        case Some(c) =>
          p.(client := c,
             link := Some(k.(down := k.down[1..], received := k.received + [d])),
             acked := if d.Ok? then p.acked + {d.id} else p.acked,
             heard := p.heard + [d],
             ownDone := if d.Ok? && d.id in k.own then p.ownDone[d.id := k.base + k.own[d.id]] else p.ownDone)
      }
    case Release(id) =>
      p.(client := p.client.(locked := p.client.locked + {id}), returned := p.returned + {id})
    case WaitAll => p.(waitedFor := |p.issued|)
  }

  /** The state after the steps `run`, or `None` if one of them was not enabled. */
  ghost function Run(p: Peer, run: seq<Label>): Option<Peer>
    decreases |run|
  {
    if run == [] then Some(p)
    else if Enabled(p, run[0]) then Run(Next(p, run[0]), run[1..])
    else None
  }

  // ---------------------------------------------------------------- the invariant

  ghost function HandledIds(log: seq<Handled>): set<nat> {
    set e | e in log :: e.id
  }

  /** The publishes among the first `|issued|` requests that have not been acknowledged. */
  ghost function Unacked(issued: seq<Request>, acked: set<nat>): map<nat, Request> {
    map id | id in Ids(|issued|) && id !in acked && issued[id].Publish? :: issued[id]
  }

  /** Every id ever issued is pending or acknowledged; the pool is the pending publishes. */
  ghost predicate LedgerInv(p: Peer) {
    && |p.issued| <= U64_LIMIT
    && p.client.nextId == |p.issued| % U64_LIMIT
    && p.acked <= Ids(|p.issued|)
    && p.client.queries == Ids(|p.issued|) - p.acked
    && p.client.pool == Unacked(p.issued, p.acked)
    && p.client.locked == p.client.queries + p.returned
    && p.returned <= p.acked
    && Ids(p.waitedFor) <= p.acked
    && !p.failed
  }

  /** Frames `up` of connection `conn` carry issued requests, each once, none handled on `conn` yet. */
  ghost predicate UpInv(issued: seq<Request>, log: seq<Handled>, conn: nat, up: seq<Up>) {
    && (forall f :: f in up && f.Req? ==> f.id < |issued| && f.body == issued[f.id])
    && (forall id :: id in ReqIds(up) ==> ReqIds(up)[id] == 1)
    && (forall e :: e in log && e.conn == conn ==> e.id !in ReqIds(up))
  }

  ghost predicate LogInv(p: Peer) {
    && (forall e :: e in p.log ==> e.id < |p.issued| && e.body == p.issued[e.id] && e.conn < p.connBound)
    && (forall i, j :: 0 <= i < j < |p.log| ==> p.log[i].conn != p.log[j].conn || p.log[i].id != p.log[j].id)
    && p.acked <= HandledIds(p.log)
    && (forall c :: c in p.stale ==> c < p.connBound && UpInv(p.issued, p.log, c, p.stale[c]))
  }

  ghost function InFlight(k: Link): multiset<nat> {
    ReqIds(k.up) + OkIds(k.down)
  }

  /** Acknowledgements coming down are of handled requests; a login is confirmed with the connection's id. */
  ghost predicate DownInv(conn: nat, down: seq<Down>, handled: set<nat>) {
    forall d :: d in down ==> (d.Ok? ==> d.id in handled) && (d.LoginConfirm? ==> d.conn == conn)
  }

  ghost predicate LinkInv(p: Peer, k: Link) {
    && k.conn < p.connBound
    && UpInv(p.issued, p.log, k.conn, k.up)
    && k.conn !in p.stale
    && k.sentOn <= Ids(|p.issued|)
    && p.client.pool.Keys <= k.sentOn
    && InFlight(k) == multiset(k.sentOn - p.acked)
    && DownInv(k.conn, k.down, HandledIds(p.log))
    && (p.client.loginConfirmed ==> p.client.id == k.conn)
  }

  /** Frame `at` of the stream is a copy of request `id`, and stands before its OK. */
  ghost predicate CopyFirst(stream: seq<Down>, issued: seq<Request>, id: nat, at: nat) {
    && id < |issued| && at < |stream| && IsCopyOf(stream[at], issued[id])
    && forall j :: 0 <= j < |stream| && stream[j] == Ok(id) ==> at < j
  }

  ghost predicate Injective(spots: map<nat, nat>) {
    forall a, b :: a in spots && b in spots && spots[a] == spots[b] ==> a == b
  }

  /** `spots` gives each of its publishes a frame of its own: a copy of that publish, before its OK. */
  ghost predicate OwnSpots(stream: seq<Down>, spots: map<nat, nat>, issued: seq<Request>) {
    (forall id :: id in spots ==> CopyFirst(stream, issued, id, spots[id])) && Injective(spots)
  }

  ghost predicate OwnInv(issued: seq<Request>, k: Link) {
    && OwnSpots(k.received + k.down, k.own, issued)
    && (forall id :: id in ReqIds(k.up) ==> id !in k.own)
    && (forall d :: d in k.received + k.down && d.Ok? ==> d.id < |issued| && d.id !in ReqIds(k.up))
  }

  /** What the client has received on its connection is the end of all it has processed. */
  ghost predicate Tail(p: Peer, k: Link) {
    && k.base <= |p.heard| && p.heard[k.base..] == k.received
    && forall id :: id in p.ownDone && k.base <= p.ownDone[id] ==> id in k.own && p.ownDone[id] == k.base + k.own[id]
  }

  /** Every own publish the client has seen acknowledged has a copy of its own that was consumed before. */
  ghost predicate HeardInv(p: Peer) {
    OwnSpots(p.heard, p.ownDone, p.issued) && Heeded(p)
  }

  ghost predicate Heeded(p: Peer) {
    && p.ownDone.Keys <= p.acked
    && (forall d :: d in p.heard && d.Ok? ==> d.id in p.acked)
    && (p.link.Some? ==> Tail(p, p.link.value))
  }

  ghost predicate Inv(p: Peer) {
    && LedgerInv(p)
    && HeardInv(p)
    && LogInv(p)
    && (p.link.Some? ==> LinkInv(p, p.link.value) && OwnInv(p.issued, p.link.value))
    && (p.link.None? ==> !p.client.loginConfirmed)
  }

  lemma NoOksInCopies(copies: seq<Down>)
    requires AreCopies(copies)
    ensures OkIds(copies) == multiset{}
  {
    forall id: nat ensures id !in OkIds(copies) {
      OkIdsMember(copies, id);
    }
  }

  lemma AddOnce(s: set<nat>, n: nat)
    requires n !in s
    ensures multiset(s + {n}) == multiset(s) + multiset{n}
  {
  }

  /** Requests issued later do not disturb the frames already on a connection. */
  lemma UpSurvivesIssue(issued: seq<Request>, body: Request, log: seq<Handled>, conn: nat, up: seq<Up>)
    requires UpInv(issued, log, conn, up)
    ensures UpInv(issued + [body], log, conn, up)
  {
  }

  lemma AppendToUp(issued: seq<Request>, body: Request, log: seq<Handled>, conn: nat, up: seq<Up>)
    requires UpInv(issued, log, conn, up)
    requires forall e :: e in log ==> e.id < |issued|
    ensures UpInv(issued + [body], log, conn, up + [Req(|issued|, body)])
    ensures ReqIds(up + [Req(|issued|, body)]) == ReqIds(up) + multiset{|issued|}
  {
    var f := Req(|issued|, body);
    ReqIdsConcat(up, [f]);
    assert ReqIds([f]) == multiset{f.id};
    ReqIdsMember(up, f.id);
  }

  lemma IssueKeepsLedger(p: Peer, body: Request)
    requires LedgerInv(p) && Enabled(p, Issue(body))
    ensures LedgerInv(Next(p, Issue(body)))
  {
    var p' := Next(p, Issue(body));
    assert p.client.nextId == |p.issued|;
    assert p'.client.pool == Unacked(p'.issued, p'.acked);
  }

  lemma IssueKeepsFlight(k: Link, acked: set<nat>, n: nat, body: Request)
    requires InFlight(k) == multiset(k.sentOn - acked)
    requires ReqIds(k.up + [Req(n, body)]) == ReqIds(k.up) + multiset{n}
    requires n !in k.sentOn && n !in acked
    ensures InFlight(k.(up := k.up + [Req(n, body)], sentOn := k.sentOn + {n})) == multiset(k.sentOn + {n} - acked)
  {
    assert k.sentOn + {n} - acked == (k.sentOn - acked) + {n};
    AddOnce(k.sentOn - acked, n);
  }

  lemma IssueKeepsLink(p: Peer, body: Request)
    requires LedgerInv(p) && LogInv(p) && p.link.Some? && LinkInv(p, p.link.value)
    requires Enabled(p, Issue(body))
    ensures var p' := Next(p, Issue(body)); p'.link.Some? && LinkInv(p', p'.link.value)
  {
    var k := p.link.value;
    var n := |p.issued|;
    assert p.client.nextId == n;
    AppendToUp(p.issued, body, p.log, k.conn, k.up);
    IssueKeepsFlight(k, p.acked, n, body);
  }

  lemma SpotsSurviveIssue(stream: seq<Down>, spots: map<nat, nat>, issued: seq<Request>, body: Request)
    requires OwnSpots(stream, spots, issued)
    ensures OwnSpots(stream, spots, issued + [body])
  {
    forall id | id in spots ensures CopyFirst(stream, issued + [body], id, spots[id]) {
      assert CopyFirst(stream, issued, id, spots[id]);
    }
  }

  lemma IssueKeepsOwn(issued: seq<Request>, body: Request, k: Link)
    requires OwnInv(issued, k)
    requires ReqIds(k.up + [Req(|issued|, body)]) == ReqIds(k.up) + multiset{|issued|}
    ensures OwnInv(issued + [body], k.(up := k.up + [Req(|issued|, body)], sentOn := k.sentOn + {|issued|}))
  {
    SpotsSurviveIssue(k.received + k.down, k.own, issued, body);
    assert forall id :: id in k.own ==> CopyFirst(k.received + k.down, issued, id, k.own[id]);
  }

  lemma IssueKeepsHeard(p: Peer, body: Request)
    requires HeardInv(p) && Enabled(p, Issue(body))
    ensures HeardInv(Next(p, Issue(body)))
  {
    SpotsSurviveIssue(p.heard, p.ownDone, p.issued, body);
  }

  lemma IssueKeepsLog(p: Peer, body: Request)
    requires LogInv(p) && Enabled(p, Issue(body))
    ensures LogInv(Next(p, Issue(body)))
  {
    forall c | c in p.stale ensures UpInv(p.issued + [body], p.log, c, p.stale[c]) {
      UpSurvivesIssue(p.issued, body, p.log, c, p.stale[c]);
    }
  }

  lemma IssueKeepsLinkOwn(p: Peer, body: Request)
    requires LogInv(p) && Enabled(p, Issue(body)) && p.client.nextId == |p.issued|
    requires p.link.Some? && OwnInv(p.issued, p.link.value)
    requires UpInv(p.issued, p.log, p.link.value.conn, p.link.value.up)
    ensures OwnInv(Next(p, Issue(body)).issued, Next(p, Issue(body)).link.value)
  {
    AppendToUp(p.issued, body, p.log, p.link.value.conn, p.link.value.up);
    IssueKeepsOwn(p.issued, body, p.link.value);
  }

  lemma IssueKeepsInv(p: Peer, body: Request)
    requires Inv(p) && Enabled(p, Issue(body))
    ensures Inv(Next(p, Issue(body)))
  {
    IssueKeepsLedger(p, body);
    IssueKeepsHeard(p, body);
    IssueKeepsLog(p, body);
    if p.link.Some? {
      IssueKeepsLink(p, body);
      assert p.client.nextId == |p.issued|;
      IssueKeepsLinkOwn(p, body);
    }
  }

  lemma ConnectKeepsUp(p: Peer, conn: nat, frames: seq<Up>)
    requires LedgerInv(p) && LogInv(p) && p.connBound <= conn && IsPoolListing(frames, p.client.pool)
    ensures ReqIds([Login(p.client.login)] + frames) == multiset(p.client.pool.Keys)
    ensures UpInv(p.issued, p.log, conn, [Login(p.client.login)] + frames)
  {
    ReqIdsConcat([Login(p.client.login)], frames);
    assert ReqIds([Login(p.client.login)]) == multiset{};
  }

  lemma ConnectKeepsBooks(p: Peer, conn: nat, frames: seq<Up>)
    requires LedgerInv(p) && LogInv(p) && HeardInv(p) && Enabled(p, Connect(conn, frames))
    ensures var p' := Next(p, Connect(conn, frames)); LedgerInv(p') && LogInv(p') && HeardInv(p')
  {
  }

  lemma ConnectKeepsLink(p: Peer, conn: nat, frames: seq<Up>)
    requires LedgerInv(p) && LogInv(p) && Enabled(p, Connect(conn, frames))
    ensures var p' := Next(p, Connect(conn, frames)); LinkInv(p', p'.link.value) && OwnInv(p'.issued, p'.link.value)
  {
    var k := Next(p, Connect(conn, frames)).link.value;
    ConnectKeepsUp(p, conn, frames);
    assert p.client.pool.Keys - p.acked == p.client.pool.Keys;
    assert k.received + k.down == [] && OkIds([]) == multiset{};
  }

  lemma ConnectKeepsInv(p: Peer, conn: nat, frames: seq<Up>)
    requires Inv(p) && Enabled(p, Connect(conn, frames))
    ensures Inv(Next(p, Connect(conn, frames)))
  {
    ConnectKeepsBooks(p, conn, frames);
    ConnectKeepsLink(p, conn, frames);
  }

  lemma BreakKeepsInv(p: Peer)
    requires Inv(p) && Enabled(p, Break)
    ensures Inv(Next(p, Break))
  {
  }

  /** Handling the first frame of a connection keeps that connection's frames in order ... */
  lemma PopUp(issued: seq<Request>, log: seq<Handled>, conn: nat, up: seq<Up>)
    requires UpInv(issued, log, conn, up) && up != []
    ensures UpInv(issued, log + Record(conn, up[0]), conn, up[1..])
  {
    var f, rest := up[0], up[1..];
    assert up == [f] + rest;
    assert f.Req? ==> ReqIds(up)[f.id] == 1 + ReqIds(rest)[f.id];
    forall id | id in ReqIds(rest) ensures id in ReqIds(up) && ReqIds(rest)[id] == 1 {
      assert ReqIds(up)[id] >= ReqIds(rest)[id];
    }
  }

  /** ... and does not concern any other connection. */
  lemma UpOtherConn(issued: seq<Request>, log: seq<Handled>, conn: nat, up: seq<Up>, other: nat, f: Up)
    requires UpInv(issued, log, conn, up) && other != conn
    ensures UpInv(issued, log + Record(other, f), conn, up)
  {
  }

  lemma LogGrows(p: Peer, conn: nat, up: seq<Up>)
    requires LogInv(p) && conn < p.connBound && UpInv(p.issued, p.log, conn, up) && up != []
    ensures var log := p.log + Record(conn, up[0]);
            && (forall e :: e in log ==> e.id < |p.issued| && e.body == p.issued[e.id] && e.conn < p.connBound)
            && (forall i, j :: 0 <= i < j < |log| ==> log[i].conn != log[j].conn || log[i].id != log[j].id)
            && HandledIds(p.log) <= HandledIds(log)
            && (up[0].Req? ==> up[0].id in HandledIds(log))
            && forall c :: c in p.stale && c != conn ==> UpInv(p.issued, log, c, p.stale[c])
  {
    var f := up[0];
    if f.Req? {
      assert f.id in ReqIds(up);
      assert Handled(conn, f.id, f.body) in p.log + Record(conn, f);
    }
    forall c | c in p.stale && c != conn ensures UpInv(p.issued, p.log + Record(conn, f), c, p.stale[c]) {
      UpOtherConn(p.issued, p.log, c, p.stale[c], conn, f);
    }
  }

  lemma HandleKeepsFlight(k: Link, copies: seq<Down>)
    requires k.up != [] && AreCopies(copies)
    ensures ReqIds(k.up[1..]) + OkIds(k.down + Reply(k.conn, k.up[0], copies)) == InFlight(k)
  {
    var f := k.up[0];
    OkIdsConcat(k.down, Reply(k.conn, f, copies));
    if f.Req? {
      OkIdsConcat(copies, [Ok(f.id)]);
      NoOksInCopies(copies);
      assert OkIds([Ok(f.id)]) == multiset{f.id};
    }
  }

  lemma CopyStaysFirst(stream: seq<Down>, issued: seq<Request>, id: nat, at: nat, more: seq<Down>)
    requires CopyFirst(stream, issued, id, at)
    ensures CopyFirst(stream + more, issued, id, at)
  {
    assert forall j :: 0 <= j < |stream| ==> (stream + more)[j] == stream[j];
  }

  /** Frames sent later disturb no copy ... */
  lemma SpotsStay(stream: seq<Down>, spots: map<nat, nat>, issued: seq<Request>, more: seq<Down>)
    requires OwnSpots(stream, spots, issued)
    ensures OwnSpots(stream + more, spots, issued)
  {
    forall id | id in spots ensures CopyFirst(stream + more, issued, id, spots[id]) {
      CopyStaysFirst(stream, issued, id, spots[id], more);
    }
  }

  lemma NewCopyFirst(stream: seq<Down>, issued: seq<Request>, copies: seq<Down>, id: nat, at: nat)
    requires Ok(id) !in stream && AreCopies(copies) && id < |issued|
    requires at < |copies| && IsCopyOf(copies[at], issued[id])
    ensures CopyFirst(stream + (copies + [Ok(id)]), issued, id, |stream| + at)
  {
    var s' := stream + (copies + [Ok(id)]);
    assert s'[|stream| + at] == copies[at];
    assert forall j :: 0 <= j < |stream| ==> s'[j] == stream[j] && stream[j] in stream;
    assert forall j :: |stream| <= j < |stream| + |copies| ==> s'[j] == copies[j - |stream|] && s'[j].Copy?;
  }

  /** ... and a new copy stands where no other does, before its OK. */
  lemma NewSpot(stream: seq<Down>, spots: map<nat, nat>, issued: seq<Request>, copies: seq<Down>, id: nat, at: nat)
    requires OwnSpots(stream, spots, issued) && AreCopies(copies)
    requires Ok(id) !in stream && id !in spots && id < |issued|
    requires at < |copies| && IsCopyOf(copies[at], issued[id])
    ensures OwnSpots(stream + (copies + [Ok(id)]), spots[id := |stream| + at], issued)
  {
    SpotsStay(stream, spots, issued, copies + [Ok(id)]);
    NewCopyFirst(stream, issued, copies, id, at);
    assert forall other :: other in spots ==> CopyFirst(stream, issued, other, spots[other]);
  }

  lemma ReplyKeepsSpots(issued: seq<Request>, k: Link, f: Up, copies: seq<Down>, own: Option<nat>)
    requires OwnSpots(k.received + k.down, k.own, issued) && AreCopies(copies) && FitsOwn(f, copies, own)
    requires own.Some? ==> Ok(f.id) !in k.received + k.down && f.id !in k.own && f.id < |issued| && f.body == issued[f.id]
    ensures OwnSpots(k.received + (k.down + Reply(k.conn, f, copies)), MarkOwn(k, f, own), issued)
  {
    var stream := k.received + k.down;
    var reply := Reply(k.conn, f, copies);
    assert k.received + (k.down + reply) == stream + reply;
    SpotsStay(stream, k.own, issued, reply);
    if own.Some? {
      NewSpot(stream, k.own, issued, copies, f.id, own.value);
    }
  }

  lemma HandleKeepsOwn(issued: seq<Request>, log: seq<Handled>, k: Link, copies: seq<Down>, own: Option<nat>)
    requires OwnInv(issued, k) && UpInv(issued, log, k.conn, k.up)
    requires k.up != [] && AreCopies(copies) && FitsOwn(k.up[0], copies, own)
    ensures OwnInv(issued, k.(up := k.up[1..],
                              down := k.down + Reply(k.conn, k.up[0], copies),
                              own := MarkOwn(k, k.up[0], own)))
  {
    var f := k.up[0];
    if f.Req? {
      assert f.id in ReqIds(k.up) && ReqIds(k.up)[f.id] == 1 + ReqIds(k.up[1..])[f.id];
    }
    ReplyKeepsSpots(issued, k, f, copies, own);
    assert k.received + (k.down + Reply(k.conn, f, copies)) == k.received + k.down + Reply(k.conn, f, copies);
  }

  lemma HandleKeepsDown(conn: nat, down: seq<Down>, handled: set<nat>, f: Up, copies: seq<Down>, handled': set<nat>)
    requires DownInv(conn, down, handled) && AreCopies(copies)
    requires handled <= handled' && (f.Req? ==> f.id in handled')
    ensures DownInv(conn, down + Reply(conn, f, copies), handled')
  {
  }

  lemma HandleKeepsLink(p: Peer, copies: seq<Down>, own: Option<nat>)
    requires Inv(p) && Enabled(p, Handle(copies, own))
    ensures var p' := Next(p, Handle(copies, own)); LinkInv(p', p'.link.value)
  {
    var k := p.link.value;
    var p' := Next(p, Handle(copies, own));
    LogGrows(p, k.conn, k.up);
    PopUp(p.issued, p.log, k.conn, k.up);
    HandleKeepsFlight(k, copies);
    HandleKeepsDown(k.conn, k.down, HandledIds(p.log), k.up[0], copies, HandledIds(p'.log));
  }

  lemma HandleKeepsLog(p: Peer, copies: seq<Down>, own: Option<nat>)
    requires LogInv(p) && Enabled(p, Handle(copies, own)) && p.link.value.conn < p.connBound
    requires p.link.value.conn !in p.stale && UpInv(p.issued, p.log, p.link.value.conn, p.link.value.up)
    ensures LogInv(Next(p, Handle(copies, own)))
  {
    LogGrows(p, p.link.value.conn, p.link.value.up);
  }

  lemma HandleKeepsHeard(p: Peer, copies: seq<Down>, own: Option<nat>)
    requires HeardInv(p) && Enabled(p, Handle(copies, own)) && OwnInv(p.issued, p.link.value)
    ensures HeardInv(Next(p, Handle(copies, own)))
  {
    var k := p.link.value;
    if k.up[0].Req? {
      assert k.up[0].id in ReqIds(k.up);
    }
  }

  lemma HandleKeepsInv(p: Peer, copies: seq<Down>, own: Option<nat>)
    requires Inv(p) && Enabled(p, Handle(copies, own))
    ensures Inv(Next(p, Handle(copies, own)))
  {
    HandleKeepsHeard(p, copies, own);
    HandleKeepsLog(p, copies, own);
    HandleKeepsLink(p, copies, own);
    HandleKeepsOwn(p.issued, p.log, p.link.value, copies, own);
  }

  lemma PushKeepsOwn(issued: seq<Request>, k: Link, copies: seq<Down>)
    requires OwnInv(issued, k) && AreCopies(copies)
    ensures OwnInv(issued, k.(down := k.down + copies))
  {
    assert k.received + (k.down + copies) == (k.received + k.down) + copies;
    SpotsStay(k.received + k.down, k.own, issued, copies);
  }

  lemma PushKeepsLink(p: Peer, k: Link, copies: seq<Down>)
    requires LinkInv(p, k) && OwnInv(p.issued, k) && AreCopies(copies)
    ensures var k' := k.(down := k.down + copies); LinkInv(p, k') && OwnInv(p.issued, k')
  {
    OkIdsConcat(k.down, copies);
    NoOksInCopies(copies);
    PushKeepsOwn(p.issued, k, copies);
  }

  /** The link invariant does not look at the link stored in the peer. */
  lemma LinkIsSeparate(p: Peer, q: Peer, k: Link)
    requires LinkInv(p, k) && q == p.(link := q.link)
    ensures LinkInv(q, k)
  {
  }

  lemma PushKeepsInv(p: Peer, copies: seq<Down>)
    requires Inv(p) && Enabled(p, Push(copies))
    ensures Inv(Next(p, Push(copies)))
  {
    var p' := Next(p, Push(copies));
    PushKeepsLink(p, p.link.value, copies);
    LinkIsSeparate(p, p', p'.link.value);
  }

  lemma HandleStaleKeepsBooks(p: Peer, conn: nat)
    requires LedgerInv(p) && LogInv(p) && HeardInv(p) && Enabled(p, HandleStale(conn))
    ensures var p' := Next(p, HandleStale(conn)); LedgerInv(p') && LogInv(p') && HeardInv(p')
  {
    LogGrows(p, conn, p.stale[conn]);
    PopUp(p.issued, p.log, conn, p.stale[conn]);
  }

  lemma HandleStaleKeepsLink(p: Peer, conn: nat)
    requires p.link.Some? && LinkInv(p, p.link.value) && Enabled(p, HandleStale(conn))
    ensures LinkInv(Next(p, HandleStale(conn)), p.link.value)
  {
    UpOtherConn(p.issued, p.log, p.link.value.conn, p.link.value.up, conn, p.stale[conn][0]);
  }

  lemma HandleStaleKeepsInv(p: Peer, conn: nat)
    requires Inv(p) && Enabled(p, HandleStale(conn))
    ensures Inv(Next(p, HandleStale(conn)))
  {
    HandleStaleKeepsBooks(p, conn);
    if p.link.Some? {
      HandleStaleKeepsLink(p, conn);
    }
  }

  /** Receiving a frame cannot fail: an acknowledged id is pending. */
  lemma RecvIsKnown(p: Peer)
    requires Inv(p) && Enabled(p, Recv)
    ensures Receive(p.client, p.link.value.down[0]).Some?
    ensures p.link.value.down[0].Ok? ==> p.link.value.down[0].id in p.link.value.sentOn - p.acked
  {
    var k := p.link.value;
    if k.down[0].Ok? {
      assert k.down[0].id in InFlight(k);
    }
  }

  lemma RecvKeepsLedger(p: Peer)
    requires LedgerInv(p) && Enabled(p, Recv)
    requires p.link.value.down[0].Ok? ==> p.link.value.down[0].id in p.client.queries
    ensures LedgerInv(Next(p, Recv))
  {
    var p' := Next(p, Recv);
    assert p'.client.pool == Unacked(p'.issued, p'.acked);
  }

  lemma RecvKeepsFlight(k: Link, acked: set<nat>)
    requires k.down != [] && InFlight(k) == multiset(k.sentOn - acked)
    ensures ReqIds(k.up) + OkIds(k.down[1..]) ==
            multiset(k.sentOn - if k.down[0].Ok? then acked + {k.down[0].id} else acked)
  {
    var d := k.down[0];
    if d.Ok? {
      assert d.id in InFlight(k);
      var rest := k.sentOn - (acked + {d.id});
      assert k.sentOn - acked == rest + {d.id};
      AddOnce(rest, d.id);
      var m := ReqIds(k.up) + OkIds(k.down[1..]);
      assert m == InFlight(k) - multiset{d.id};
    } else {
      assert OkIds(k.down) == OkIds(k.down[1..]);
    }
  }

  /** The next frame does not fail the client, and an OK is of a request sent here and pending. */
  ghost predicate Receivable(p: Peer) {
    && p.link.Some? && p.link.value.down != []
    && var d := p.link.value.down[0];
       d.Ok? ==> d.id in p.client.queries && d.id in p.link.value.sentOn - p.acked
  }

  /** What receiving does, as far as the link's invariant can see. */
  lemma RecvEffect(p: Peer)
    requires Receivable(p)
    ensures var p', k := Next(p, Recv), p.link.value;
            var d := k.down[0];
            && p'.link == Some(k.(down := k.down[1..], received := k.received + [d]))
            && p'.connBound == p.connBound && p'.issued == p.issued && p'.log == p.log && p'.stale == p.stale
            && p'.acked == (if d.Ok? then p.acked + {d.id} else p.acked)
            && p'.client.pool.Keys <= p.client.pool.Keys
            && (p'.client.loginConfirmed ==>
                  if d.LoginConfirm? then p'.client.id == d.conn
                  else p.client.loginConfirmed && p'.client.id == p.client.id)
  {
  }

  lemma LinkAfter(p: Peer, p': Peer, k: Link, k': Link)
    requires LinkInv(p, k) && k.down != []
    requires k' == k.(down := k.down[1..], received := k'.received)
    requires p'.connBound == p.connBound && p'.issued == p.issued && p'.log == p.log && p'.stale == p.stale
    requires p'.client.pool.Keys <= p.client.pool.Keys
    requires InFlight(k') == multiset(k.sentOn - p'.acked)
    requires p'.client.loginConfirmed ==>
               if k.down[0].LoginConfirm? then p'.client.id == k.down[0].conn
               else p.client.loginConfirmed && p'.client.id == p.client.id
    ensures LinkInv(p', k')
  {
    assert k.down[0] in k.down && forall d :: d in k.down[1..] ==> d in k.down;
  }

  lemma RecvKeepsLink(p: Peer)
    requires Receivable(p) && LinkInv(p, p.link.value)
    ensures var p' := Next(p, Recv); p'.link.Some? && LinkInv(p', p'.link.value)
  {
    RecvEffect(p);
    RecvKeepsFlight(p.link.value, p.acked);
    LinkAfter(p, Next(p, Recv), p.link.value, Next(p, Recv).link.value);
  }

  lemma RecvKeepsOwn(p: Peer)
    requires Receivable(p) && OwnInv(p.issued, p.link.value)
    ensures var p' := Next(p, Recv); p'.link.Some? && OwnInv(p'.issued, p'.link.value)
  {
    var k := p.link.value;
    assert (k.received + [k.down[0]]) + k.down[1..] == k.received + k.down;
  }

  /** The copy of an own publish whose OK is next has been received on this connection. */
  lemma CopyWasReceived(issued: seq<Request>, k: Link)
    requires OwnInv(issued, k) && k.down != [] && k.down[0].Ok? && k.down[0].id in k.own
    ensures var id := k.down[0].id;
            id < |issued| && k.own[id] < |k.received| && IsCopyOf(k.received[k.own[id]], issued[id])
  {
    var stream := k.received + k.down;
    assert stream[|k.received|] == k.down[0];
    assert CopyFirst(stream, issued, k.down[0].id, k.own[k.down[0].id]);
  }

  lemma HeardSpot(heard: seq<Down>, spots: map<nat, nat>, issued: seq<Request>, id: nat, at: nat)
    requires OwnSpots(heard, spots, issued) && Ok(id) !in heard && id !in spots
    requires id < |issued| && at < |heard| && IsCopyOf(heard[at], issued[id])
    requires forall other :: other in spots ==> spots[other] != at
    ensures OwnSpots(heard + [Ok(id)], spots[id := at], issued)
  {
    SpotsStay(heard, spots, issued, [Ok(id)]);
    assert forall j :: 0 <= j < |heard| ==> (heard + [Ok(id)])[j] == heard[j] && heard[j] in heard;
  }

  /** The place of the copy on its connection is no other publish's place. */
  lemma PlaceIsFree(spots: map<nat, nat>, k: Link, id: nat)
    requires Injective(k.own) && id in k.own && id !in spots
    requires forall other :: other in spots && k.base <= spots[other] ==> other in k.own && spots[other] == k.base + k.own[other]
    ensures forall other :: other in spots ==> spots[other] != k.base + k.own[id]
  {
  }

  /** Processing the OK of an own publish gives that publish its copy. */
  lemma OwnOkKeepsSpots(p: Peer, k: Link, id: nat)
    requires HeardInv(p) && p.link == Some(k) && k.down != [] && k.down[0] == Ok(id) && OwnInv(p.issued, k)
    requires id !in p.acked && id in k.own
    ensures OwnSpots(p.heard + [Ok(id)], p.ownDone[id := k.base + k.own[id]], p.issued)
  {
    CopyWasReceived(p.issued, k);
    PlaceIsFree(p.ownDone, k, id);
    assert p.heard[k.base + k.own[id]] == p.heard[k.base..][k.own[id]];
    HeardSpot(p.heard, p.ownDone, p.issued, id, k.base + k.own[id]);
  }

  /** Processing frame `d` keeps a copy of its own for every own publish acknowledged so far. */
  lemma RecvKeepsSpots(p: Peer, k: Link, d: Down, spots: map<nat, nat>)
    requires HeardInv(p) && p.link == Some(k) && k.down != [] && d == k.down[0] && OwnInv(p.issued, k)
    requires d.Ok? ==> d.id !in p.acked
    requires spots == if d.Ok? && d.id in k.own then p.ownDone[d.id := k.base + k.own[d.id]] else p.ownDone
    ensures OwnSpots(p.heard + [d], spots, p.issued)
  {
    if d.Ok? && d.id in k.own {
      OwnOkKeepsSpots(p, k, d.id);
    } else {
      SpotsStay(p.heard, p.ownDone, p.issued, [d]);
    }
  }

  lemma RecvKeepsHeeded(p: Peer)
    requires Heeded(p) && Enabled(p, Recv)
    requires p.link.value.down[0].Ok? ==> p.link.value.down[0].id in p.client.queries && p.link.value.down[0].id !in p.acked
    ensures Heeded(Next(p, Recv))
  {
    var k := p.link.value;
    assert (p.heard + [k.down[0]])[k.base..] == p.heard[k.base..] + [k.down[0]];
  }

  /** What receiving does to the frames processed and the copies found. */
  lemma RecvHears(p: Peer)
    requires Enabled(p, Recv) && (p.link.value.down[0].Ok? ==> p.link.value.down[0].id in p.client.queries)
    ensures var p', k, d := Next(p, Recv), p.link.value, p.link.value.down[0];
            && p'.heard == p.heard + [d] && p'.issued == p.issued
            && p'.ownDone == if d.Ok? && d.id in k.own then p.ownDone[d.id := k.base + k.own[d.id]] else p.ownDone
  {
  }

  lemma HeardAfter(p: Peer, k: Link, p': Peer)
    requires HeardInv(p) && p.link == Some(k) && k.down != [] && OwnInv(p.issued, k)
    requires k.down[0].Ok? ==> k.down[0].id !in p.acked
    requires p'.heard == p.heard + [k.down[0]] && p'.issued == p.issued && Heeded(p')
    requires p'.ownDone == if k.down[0].Ok? && k.down[0].id in k.own then p.ownDone[k.down[0].id := k.base + k.own[k.down[0].id]] else p.ownDone
    ensures HeardInv(p')
  {
    RecvKeepsSpots(p, k, k.down[0], p'.ownDone);
  }

  lemma RecvKeepsHeard(p: Peer)
    requires HeardInv(p) && Enabled(p, Recv) && OwnInv(p.issued, p.link.value)
    requires p.link.value.down[0].Ok? ==> p.link.value.down[0].id in p.client.queries && p.link.value.down[0].id !in p.acked
    ensures HeardInv(Next(p, Recv))
  {
    RecvHears(p);
    RecvKeepsHeeded(p);
    HeardAfter(p, p.link.value, Next(p, Recv));
  }

  lemma RecvKeepsLog(p: Peer)
    requires Receivable(p) && LogInv(p) && DownInv(p.link.value.conn, p.link.value.down, HandledIds(p.log))
    ensures LogInv(Next(p, Recv))
  {
    RecvEffect(p);
    assert p.link.value.down[0] in p.link.value.down;
  }

  lemma RecvKeepsInv(p: Peer)
    requires Inv(p) && Enabled(p, Recv)
    ensures Inv(Next(p, Recv))
  {
    RecvIsKnown(p);
    assert Receivable(p);
    RecvKeepsLedger(p);
    RecvKeepsLog(p);
    RecvKeepsLink(p);
    RecvKeepsOwn(p);
    RecvKeepsHeard(p);
  }

  lemma WaitersKeepInv(p: Peer, l: Label)
    requires Inv(p) && Enabled(p, l) && (l.Release? || l.WaitAll?)
    ensures Inv(Next(p, l))
  {
  }

  /** Every step of the protocol keeps the invariant. */
  lemma StepKeepsInv(p: Peer, l: Label)
    requires Inv(p) && Enabled(p, l)
    ensures Inv(Next(p, l))
  {
    match l
    case Issue(body) => IssueKeepsInv(p, body);
    case Connect(conn, frames) => ConnectKeepsInv(p, conn, frames);
    case Break => BreakKeepsInv(p);
    case Handle(copies, own) => HandleKeepsInv(p, copies, own);
    case Push(copies) => PushKeepsInv(p, copies);
    case HandleStale(conn) => HandleStaleKeepsInv(p, conn);
    case Recv => RecvKeepsInv(p);
    case _ => WaitersKeepInv(p, l);
  }
}
