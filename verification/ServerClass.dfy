/** The server's classes, proved against the functions of `ServerCore`. */
module ServerClasses {
  import opened Basics
  import opened ClientCore
  import opened ServerCore
  import N = NodeCore
  import B = Broker

  class UserBase {
    var users: map<nat, Text>

    constructor ()
      ensures users == map[]
    {
      users := map[];
    }

    method Append(id: nat, login: Text)
      modifies this
      ensures users == old(users)[id := login]
    {
      users := users[id := login];
    }

    method SetLogin(id: nat, login: Text)
      modifies this
      ensures users == old(users)[id := login]
    {
      users := users[id := login];
    }

    method Erase(id: nat) returns (threw: bool)
      modifies this
      ensures threw <==> id !in old(users)
      ensures users == old(users) - {id}
    {
      threw := id !in users;
      users := users - {id};
    }
  }

  class Server {
    const users: UserBase
    const node: B.Node
    var connections: seq<nat>
    var live: set<nat>             // connections that still have their `_async_connection`
    var nextId: nat
    var nextMessageId: nat
    var isStoped: bool
    var disconnected: seq<nat>     // calls of `onDisconnect`

    ghost function State(): ServerState
      reads this, node, users
    {
      ServerState(node.State(), users.users, connections, live, nextId, nextMessageId, isStoped, disconnected)
    }

    ghost predicate Valid()
      reads this, node, node.reCache
    {
      node.Valid()
    }

    constructor (rx: N.Engine)
      ensures Valid() && State() == INIT_SERVER && node.rx == rx
      ensures fresh(users) && fresh(node) && fresh(node.reCache)
    {
      var u := new UserBase();
      u.Append(SERVER_ID, SERVER_LOGIN);
      users := u;
      node := new B.Node(rx);
      connections, live, nextId, nextMessageId, isStoped, disconnected := [], {}, 0, 0, false, [];
    }

    /** `handle_accept` for an accepted socket. */
    method HandleAccept() returns (id: nat)
      requires Valid()
      modifies this, users
      ensures Valid() && State() == Accept(old(State())) && id == old(nextId)
    {
      id := nextId;
      nextId := nextId + 1;
      users.Append(id, NOT_SET);
      live := live + {id};
      connections := connections + [id];
    }

    /** Finds the first entry for `c` and takes it out of the list. */
    method EraseConnection(c: nat) returns (found: bool)
      modifies this`connections
      ensures found <==> c in old(connections)
      ensures connections == Without(old(connections), c)
    {
      var i := 0;
      while i < |connections| && connections[i] != c
        invariant i <= |connections| && c !in connections[..i]
        invariant connections == old(connections)
        invariant Without(connections, c) == connections[..i] + Without(connections[i..], c)
      {
        assert connections[i..][1..] == connections[i + 1..];
        assert connections[..i + 1] == connections[..i] + [connections[i]];
        i := i + 1;
      }
      found := i < |connections|;
      if found {
        assert connections[i..][1..] == connections[i + 1..];
        connections := connections[..i] + connections[i + 1..];
      }
    }

    /** `ClientConnection::close`, through `erase_client_description` and `onDisconnect`. */
    method Close(c: nat) returns (threw: bool)
      requires Valid()
      modifies this, users, node
      ensures Valid()
      ensures threw <==> ServerCore.Close(old(State()), c).None?
      ensures !threw ==> State() == ServerCore.Close(old(State()), c).value
    {
      threw := false;
      if c in live {
        live := live - {c};
        var found := EraseConnection(c);
        disconnected := disconnected + [c];
        threw := users.Erase(c);
        node.EraseClient(c);
        threw := threw || !found;
      }
    }

    /** `stopServer`: closes a copy of the list, one connection after another. */
    method StopServer() returns (threw: bool)
      requires Valid()
      modifies this, users, node
      ensures Valid()
      ensures threw <==> Stop(old(State())).None?
      ensures !threw ==> State() == Stop(old(State())).value
    {
      threw := false;
      if !isStoped {
        var copy := connections;
        var i := 0;
        while i < |copy|
          invariant i <= |copy| && Valid()
          invariant CloseAll(State(), copy[i..]) == CloseAll(old(State()), copy)
        {
          threw := Close(copy[i]);
          if threw {
            return;
          }
          assert copy[i..][1..] == copy[i + 1..];
          i := i + 1;
        }
        connections := [];
        isStoped := true;
      }
    }

    /** `sendTo(Id, ...)`: looks the connection up in the list. */
    method SendTo(id: nat) returns (found: bool)
      ensures found <==> id in connections
    {
      var i := 0;
      while i < |connections|
        invariant i <= |connections| && id !in connections[..i]
      {
        if connections[i] == id {
          return true;
        }
        i := i + 1;
      }
      return false;
    }

    /** `onSendToClient`. */
    method OnSendToClient(id: nat, params: PublishParams, data: Text) returns (outs: seq<Out>, threw: bool)
      requires Valid()
      modifies this`nextMessageId
      ensures Valid()
      ensures Outcome(State(), outs, threw) == SendOne(old(State()), id, params, data)
    {
      if id == SERVER_ID {
        return [ToConsumer(params, data)], false;
      }
      var serial := nextMessageId;
      nextMessageId := (nextMessageId + 1) % U64_LIMIT;
      var found := SendTo(id);
      outs := if found then [ToClient(id, Copy(params, data, serial))] else [];
      threw := !found;
    }

    /** The handler calls made by `Node::publish`, one for each id, until one throws. */
    method SendToAll(targets: seq<nat>, params: PublishParams, data: Text) returns (outs: seq<Out>, threw: bool)
      requires Valid()
      modifies this`nextMessageId
      ensures Valid()
      ensures Outcome(State(), outs, threw) == SendAll(old(State()), targets, params, data)
    {
      outs, threw := [], false;
      var i := 0;
      while i < |targets|
        invariant i <= |targets| && Valid()
        invariant Outcome(State(), outs, false) == SendAll(old(State()), targets[..i], params, data)
      {
        assert targets[..i + 1][..i] == targets[..i];
        var more;
        more, threw := OnSendToClient(targets[i], params, data);
        outs := outs + more;
        i := i + 1;
        if threw {
          ThrowEndsSending(old(State()), targets, params, data, i);
          return;
        }
      }
      assert targets[..i] == targets;
    }

    method Publish(params: PublishParams, data: Text) returns (outs: seq<Out>, threw: bool)
      requires Valid()
      modifies this`nextMessageId, node.reCache
      ensures Valid()
      ensures Outcome(State(), outs, threw) == ServerCore.Publish(node.rx, old(State()), params, data)
    {
      var targets, broken := node.Publish(params);
      outs, threw := SendToAll(targets, params, data);
      threw := threw || broken;
    }

    /** `onNewMessage`: dispatch on the kind of message, then acknowledge. */
    method OnNewMessage(c: nat, f: Up) returns (outs: seq<Out>, threw: bool)
      requires Valid()
      modifies this`nextMessageId, node, node.reCache, users
      ensures Valid()
      ensures Outcome(State(), outs, threw) == OnMessage(node.rx, old(State()), c, f)
    {
      outs, threw := [], false;
      match f {
        case Login(login) =>
          users.SetLogin(c, login);
          return [ToClient(c, LoginConfirm(c))], false;
        case Req(id, CreateQueue(name)) =>
          threw := node.CreateQueue(users.users.Keys, name, c);
        case Req(id, Subscribe(settings)) =>
          threw := node.ChangeSubscription(users.users.Keys, N.Subscribe, settings, c);
        case Req(id, Unsubscribe(name)) =>
          threw := node.ChangeSubscription(users.users.Keys, N.Unsubscribe, SubscriptionParams(name, []), c);
        case Req(id, Publish(params, data)) =>
          outs, threw := Publish(params, data);
      }
      if !threw {
        outs := outs + [ToClient(c, Ok(f.id))];
      }
    }
  }
}
