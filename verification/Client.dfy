/** The client: request numbering, the pool of unacknowledged publishes, resending and acknowledgement. */
module ClientCore {
  import opened Basics

  datatype Request =
    | CreateQueue(name: Text)
    | Subscribe(settings: SubscriptionParams)
    | Unsubscribe(qname: Text)
    | Publish(params: PublishParams, data: Text)

  /** Frames going up to the server. */
  datatype Up = Login(login: Text) | Req(id: nat, body: Request)

  /** Frames coming down from the server. `Copy` is a PUBLISH sent to a listener. */
  datatype Down =
    | Ok(id: nat)
    | LoginConfirm(conn: nat)
    | Copy(params: PublishParams, data: Text, serial: nat)

  /** The request ids carried by a sequence of frames going up, with multiplicity. */
  ghost function ReqIds(up: seq<Up>): multiset<nat> {
    if up == [] then multiset{}
    else (if up[0].Req? then multiset{up[0].id} else multiset{}) + ReqIds(up[1..])
  }

  /** The request ids acknowledged by a sequence of frames coming down, with multiplicity. */
  ghost function OkIds(down: seq<Down>): multiset<nat> {
    if down == [] then multiset{}
    else (if down[0].Ok? then multiset{down[0].id} else multiset{}) + OkIds(down[1..])
  }

  lemma {:induction false} ReqIdsConcat(a: seq<Up>, b: seq<Up>)
    ensures ReqIds(a + b) == ReqIds(a) + ReqIds(b)
  {
    if a == [] {
      assert a + b == b;
    } else {
      assert (a + b)[1..] == a[1..] + b;
      ReqIdsConcat(a[1..], b);
    }
  }

  lemma {:induction false} OkIdsConcat(a: seq<Down>, b: seq<Down>)
    ensures OkIds(a + b) == OkIds(a) + OkIds(b)
  {
    if a == [] {
      assert a + b == b;
    } else {
      assert (a + b)[1..] == a[1..] + b;
      OkIdsConcat(a[1..], b);
    }
  }

  /** An id is in `ReqIds(up)` exactly when some request frame of `up` carries it. */
  lemma {:induction false} ReqIdsMember(up: seq<Up>, id: nat)
    ensures id in ReqIds(up) <==> exists f :: f in up && f.Req? && f.id == id
  {
    if up != [] {
      ReqIdsMember(up[1..], id);
      if id in ReqIds(up[1..]) {
        var f :| f in up[1..] && f.Req? && f.id == id;
        assert f in up;
      }
      if f :| f in up && f.Req? && f.id == id {
        assert f == up[0] || f in up[1..];
      }
    }
  }

  lemma {:induction false} OkIdsMember(down: seq<Down>, id: nat)
    ensures id in OkIds(down) <==> Ok(id) in down
  {
    if down != [] {
      OkIdsMember(down[1..], id);
      assert down == [down[0]] + down[1..];
    }
  }

  /** `frames` lists the pool in some order: the contents of an unordered map, each entry once. */
  ghost predicate IsPoolListing(frames: seq<Up>, pool: map<nat, Request>) {
    && (forall f :: f in frames ==> f.Req? && f.id in pool && f.body == pool[f.id])
    && ReqIds(frames) == multiset(pool.Keys)
  }

  /** The fields of a client, as a value. */
  datatype ClientState = ClientState(
    login: Text,
    nextId: nat,
    pool: map<nat, Request>,
    queries: set<nat>,
    locked: set<nat>,      // requests whose completion flag is set: a waiter on them spins
    loginConfirmed: bool,
    id: nat)

  function InitClient(login: Text): ClientState {
    ClientState(login, 0, map[], {}, {}, false, 0)
  }

  /** Numbering and recording a request: `getNextId`, the pool's `append`, `makeNewQResult`. */
  function Enroll(c: ClientState, body: Request): ClientState {
    c.(nextId := (c.nextId + 1) % U64_LIMIT,
       pool := if body.Publish? && c.nextId !in c.pool then c.pool[c.nextId := body] else c.pool,
       queries := c.queries + {c.nextId},
       locked := c.locked + {c.nextId})
  }

  /** Handling one frame from the server; `None` is the "unknow _query id" exception. */
  function Receive(c: ClientState, d: Down): Option<ClientState> {
    match d
    case Copy(_, _, _) => Some(c)
    case LoginConfirm(conn) => Some(c.(id := conn, loginConfirmed := true))
    case Ok(id) =>
      if id !in c.queries then None
      else Some(c.(pool := c.pool - {id}, locked := c.locked - {id}, queries := c.queries - {id}))
  }

  /** `MemoryMessagePool`: the publishes that have not been acknowledged. */
  class MemoryMessagePool {
    var pool: map<nat, Request>

    constructor ()
      ensures pool == map[]
    {
      pool := map[];
    }

    method Append(id: nat, body: Request)
      modifies this
      ensures pool == if id in old(pool) then old(pool) else old(pool)[id := body]
    {
      if id !in pool {
        pool := pool[id := body];
      }
    }

    method Erase(id: nat)
      modifies this
      ensures pool == old(pool) - {id}
    {
      pool := pool - {id};
    }

    method Size() returns (n: nat)
      ensures n == |pool|
    {
      n := |pool|;
    }

    /** Copies the pool out, in the arbitrary order of an unordered map. */
    method All() returns (frames: seq<Up>)
      ensures IsPoolListing(frames, pool)
    {
      frames := [];
      var todo := pool.Keys;
      while todo != {}
        invariant todo <= pool.Keys
        invariant forall f :: f in frames ==> f.Req? && f.id in pool && f.body == pool[f.id]
        invariant ReqIds(frames) == multiset(pool.Keys - todo)
        decreases |todo|
      {
        var id :| id in todo;
        var frame := Req(id, pool[id]);
        ReqIdsConcat(frames, [frame]);
        assert pool.Keys - (todo - {id}) == (pool.Keys - todo) + {id};
        frames := frames + [frame];
        todo := todo - {id};
      }
    }
  }

  /** `Client`: every method that runs under `_locker`, with the frames it hands to the connection. */
  class Client {
    const login: Text
    const messagePool: MemoryMessagePool
    var nextMessageId: nat
    var queries: set<nat>
    var locked: set<nat>
    var loginConfirmed: bool
    var id: nat
    var connected: bool       // `_async_connection` exists and can still send
    var sent: seq<Up>         // frames handed to the current connection
    var consumed: seq<Down>   // PUBLISH frames passed to the consumers

    ghost function State(): ClientState
      reads this, messagePool
    {
      ClientState(login, nextMessageId, messagePool.pool, queries, locked, loginConfirmed, id)
    }

    constructor (login: Text)
      ensures State() == InitClient(login)
      ensures !connected && sent == [] && consumed == []
      ensures fresh(messagePool)
    {
      this.login := login;
      messagePool := new MemoryMessagePool();
      nextMessageId, queries, locked, loginConfirmed, id := 0, {}, {}, false, 0;
      connected, sent, consumed := false, [], [];
    }

    method Send(frame: Up)
      modifies this`sent
      ensures sent == if connected then old(sent) + [frame] else old(sent)
    {
      if connected {
        sent := sent + [frame];
      }
    }

    /** The connect callback: a fresh connection, the login, then the whole pool again. */
    method OnConnect()
      modifies this
      ensures State() == old(State()).(loginConfirmed := false)
      ensures connected && consumed == old(consumed)
      ensures |sent| > 0 && sent[0] == Login(login) && IsPoolListing(sent[1..], old(messagePool.pool))
    {
      connected, sent, loginConfirmed := true, [], false;
      Send(Login(login));
      var all := messagePool.All();
      var i := 0;
      while i < |all|
        invariant i <= |all|
        invariant connected && sent == [Login(login)] + all[..i]
        invariant State() == old(State()).(loginConfirmed := false) && consumed == old(consumed)
      {
        Send(all[i]);
        i := i + 1;
      }
      assert sent[1..] == all;
    }

    /** `createQueue`, `subscribe`, `unsubscribe` and `publish` up to the wait for their answer. */
    method Call(body: Request) returns (msgId: nat)
      modifies this, messagePool
      ensures msgId == old(nextMessageId)
      ensures State() == Enroll(old(State()), body)
      ensures sent == if connected then old(sent) + [Req(msgId, body)] else old(sent)
      ensures connected == old(connected) && consumed == old(consumed)
    {
      msgId := nextMessageId;
      nextMessageId := (nextMessageId + 1) % U64_LIMIT;
      if body.Publish? {
        messagePool.Append(msgId, body);
      }
      queries := queries + {msgId};
      locked := locked + {msgId};
      Send(Req(msgId, body));
    }

    /** `onNewMessage`; `threw` reports the exception for an unknown request id. */
    method OnNewMessage(d: Down) returns (threw: bool)
      modifies this, messagePool
      ensures threw <==> Receive(old(State()), d).None?
      ensures State() == if threw then old(State()) else Receive(old(State()), d).value
      ensures consumed == if d.Copy? then old(consumed) + [d] else old(consumed)
      ensures connected == old(connected) && sent == old(sent)
    {
      threw := false;
      match d {
        case Copy(_, _, _) =>
          consumed := consumed + [d];
        case LoginConfirm(conn) =>
          id := conn;
          loginConfirmed := true;
        case Ok(msgId) =>
          if msgId !in queries {
            threw := true;
          } else {
            messagePool.Erase(msgId);
            locked := locked - {msgId};
            queries := queries - {msgId};
          }
      }
    }
  }
}
