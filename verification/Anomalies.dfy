/** Concrete interleavings of the locked broker that atomic calls do not have. */
module Anomalies {
  import opened Basics
  import opened NodeCore
  import opened NodeLocks
  import opened QueueMaps
  import opened Connections
  import opened Interleavings
  import H = History

  const NAME: Text := [7]
  const WISH := SubscriptionParams(NAME, [])
  const ENTRY := Listener(false, false, WISH)
  const OWNER := Listener(true, false, WISH)
  const ORPHAN := NodeState(map[NAME := Queue(0, NAME)], map[], 1)

  /** Client 1 is connected to a broker in state `node`, with calls `ts`. */
  function Serving(rx: Engine, node: NodeState, ts: seq<Thread>): State {
    Joined(Start(rx), 1).(node := node, threads := ts)
  }

  lemma OneClientReached(rx: Engine)
    ensures Reached(rx, Serving(rx, EMPTY_NODE, [Done]))
  {
    StartReached(rx);
    ConnectAlone(rx, Start(rx), 1);
    assert Start(rx).threads + [Done] == [Done];
  }

  // ---------------------------------------------------------------- aborted creations

  /** A client that disconnects while it creates a queue leaves the queue behind: every call is done,
   *  the client is gone, and the queue has neither owner nor listener map. */
  lemma AbortedCreationLeavesQueue(rx: Engine) returns (st: State)
    ensures Reached(rx, st) && st.threads == [Done, Done, Done] && st.gone == {1} && st.aborted == {NAME}
    ensures st.node == ORPHAN && Bare(st, NAME)
  {
    var was := Serving(rx, EMPTY_NODE, [Done]);
    OneClientReached(rx);
    AbortCreation(rx, was, NAME, 1);
    st := Plus(Plus(Abandoned(was, NAME, 1), Done), Done);
    assert StoreQueue(EMPTY_NODE, NAME) == ORPHAN;
    assert EraseClient(ORPHAN, 1) == ORPHAN;
  }

  /** Clients 1 and 2 are connected, and client 2 has subscribed to a queue that does not exist. */
  function Waiting(rx: Engine): State {
    Joined(Joined(Start(rx), 1), 2).(node := NodeState(map[], map[NAME := map[2 := ENTRY]], 0), threads := [Done, Done, Done])
  }

  lemma TwoClientsReached(rx: Engine)
    ensures Reached(rx, Joined(Joined(Start(rx), 1), 2).(threads := [Done] + [Done]))
  {
    OneClientReached(rx);
    ConnectAlone(rx, Serving(rx, EMPTY_NODE, [Done]), 2);
  }

  lemma WaitingReached(rx: Engine)
    ensures Reached(rx, Waiting(rx))
  {
    var two := Joined(Joined(Start(rx), 1), 2).(threads := [Done] + [Done]);
    TwoClientsReached(rx);
    ChangeAlone(rx, two, Subscribe, WISH, 2);
    assert H.OrElse(ChangeSubscription(EMPTY_NODE, two.users, Subscribe, WISH, 2), EMPTY_NODE) == Waiting(rx).node;
    assert two.threads + [Done] == [Done, Done, Done];
  }

  /** The same calls one after the other: connect, subscribe by 2, create by 1, disconnect of 1. */
  const CALLS := [H.AddUser(1), H.AddUser(2), H.Change(Subscribe, WISH, 2), H.MakeQueue(NAME, 1), H.DropUser(1), H.Erase(1)]

  function OneListener(): NodeState {
    NodeState(map[NAME := Queue(0, NAME)], map[NAME := map[2 := ENTRY]], 1)
  }

  lemma CallsInOrder()
    ensures H.After(CALLS) == H.World({2, SERVER_ID}, OneListener())
  {
    var h := [];
    H.AfterCall(h, H.AddUser(1)); h := h + [H.AddUser(1)];
    H.AfterCall(h, H.AddUser(2)); h := h + [H.AddUser(2)];
    H.AfterCall(h, H.Change(Subscribe, WISH, 2)); h := h + [H.Change(Subscribe, WISH, 2)];
    H.AfterCall(h, H.MakeQueue(NAME, 1)); h := h + [H.MakeQueue(NAME, 1)];
    assert H.After(h).node == NodeState(map[NAME := Queue(0, NAME)], map[NAME := map[2 := ENTRY, 1 := OWNER]], 1);
    assert H.After(h).users == {1, 2, SERVER_ID};
    EraseCreator();
    H.AfterCall(h, H.DropUser(1)); h := h + [H.DropUser(1)];
    H.AfterCall(h, H.Erase(1)); h := h + [H.Erase(1)];
    assert h == CALLS;
  }

  lemma EraseCreator()
    ensures EraseClient(NodeState(map[NAME := Queue(0, NAME)], map[NAME := map[2 := ENTRY, 1 := OWNER]], 1), 1) == OneListener()
    ensures EraseClient(OneListener(), 1) == OneListener()
  {
    var s := NodeState(map[NAME := Queue(0, NAME)], map[NAME := map[2 := ENTRY, 1 := OWNER]], 1);
    var rest := map[2 := ENTRY];
    assert 2 in rest && !MustBeRemoved(rest);
    assert s.subs[NAME] - {1} == rest && rest - {1} == rest;
    assert EraseClient(s, 1).subs == OneListener().subs && EraseClient(s, 1).queues == OneListener().queues;
    assert EraseClient(OneListener(), 1).subs == OneListener().subs && EraseClient(OneListener(), 1).queues == OneListener().queues;
  }

  /** An aborted creation need not show: where another client listens to the name, the broker ends as if
   *  the creation had been completed before the disconnect. */
  lemma AbortCanBeInvisible(rx: Engine) returns (st: State)
    ensures Reached(rx, st) && (forall t :: t in st.threads ==> t.Done?) && st.aborted == {NAME}
    ensures H.Complete(CALLS) && H.After(CALLS) == H.World(st.users, st.node)
  {
    var was := Waiting(rx);
    WaitingReached(rx);
    AbortCreation(rx, was, NAME, 1);
    st := Plus(Plus(Abandoned(was, NAME, 1), Done), Done);
    CallsInOrder();
    EraseCreator();
    assert StoreQueue(was.node, NAME) == OneListener();
    assert was.users - {1} == {2, SERVER_ID};
  }

  // ---------------------------------------------------------------- insertions under a shared lock

  /** Client 1 is creating the queue, and a publish to it passes its check and takes the shared lock. */
  lemma ReaderBeside(rx: Engine, ts: seq<Thread>, params: PublishParams)
    requires params.queueName == NAME && Reached(rx, Serving(rx, ORPHAN, ts))
    requires forall i :: 0 <= i < |ts| ==> !WritesS(ts[i])
    ensures Reached(rx, Serving(rx, ORPHAN, ts + [PubReading(params)]))
  {
    var n := |ts|;
    var st := Serving(rx, ORPHAN, ts);
    Begin(rx, st, PubStart(params));
    Continue(rx, Plus(st, PubStart(params)), Moves(n, []));
    assert (ts + [PubStart(params)])[n := PubWaiting(params)] == ts + [PubWaiting(params)];
    Continue(rx, Plus(st, PubWaiting(params)), Moves(n, []));
    assert (ts + [PubWaiting(params)])[n := PubReading(params)] == ts + [PubReading(params)];
  }

  lemma RaceReached(rx: Engine, params: PublishParams)
    requires params.queueName == NAME
    ensures Reached(rx, Serving(rx, ORPHAN, [Done] + [ChangeLocked(Create, WISH, 1)] + [PubReading(params)] + [PubReading(params)]))
  {
    var ts := [Done] + [ChangeLocked(Create, WISH, 1)];
    OneClientReached(rx);
    HalfCreate(rx, Serving(rx, EMPTY_NODE, [Done]), NAME, 1);
    assert StoreQueue(EMPTY_NODE, NAME) == ORPHAN;
    ReaderBeside(rx, ts, params);
    ReaderBeside(rx, ts + [PubReading(params)], params);
  }

  /** Two publishes hold the lock on the listener maps, shared, and either would insert the same key. */
  lemma InsertersRace(rx: Engine, params: PublishParams) returns (st: State)
    requires params.queueName == NAME
    ensures Reached(rx, st) && st.threads == [Done, ChangeLocked(Create, WISH, 1), PubReading(params), PubReading(params)]
    ensures Wf(st) && Move(st, 2, []).node != st.node && Move(st, 3, []).node != st.node
  {
    RaceReached(rx, params);
    st := Serving(rx, ORPHAN, [Done] + [ChangeLocked(Create, WISH, 1)] + [PubReading(params)] + [PubReading(params)]);
    assert NAME in Touch(ORPHAN, NAME).subs && NAME !in ORPHAN.subs;
  }

  // ---------------------------------------------------------------- sends after the copy

  function OneQueue(ls: Listeners): NodeState {
    NodeState(map[NAME := Queue(0, NAME)], map[NAME := ls], 1)
  }

  lemma OnlyTarget(rx: Engine, id: nat, tag: Text)
    ensures Ascending(TargetSet(rx, map[id := ENTRY], tag)) == [id]
  {
    var targets := TargetSet(rx, map[id := ENTRY], tag);
    assert id in targets && forall x :: x in targets ==> x == id;
    AscendingIsUnique(Ascending(targets), [id]);
  }

  lemma ServeSubscribe(rx: Engine, node: NodeState, ts: seq<Thread>, id: nat, node': NodeState)
    requires Idle(ts) && Reached(rx, Serving(rx, node, ts)) && id in {1, SERVER_ID}
    requires ChangeSubscription(node, {1, SERVER_ID}, Subscribe, WISH, id) == Some(node')
    ensures Reached(rx, Serving(rx, node', ts + [Done]))
  {
    assert Serving(rx, node, ts).users == {1, SERVER_ID};
    ChangeAlone(rx, Serving(rx, node, ts), Subscribe, WISH, id);
  }

  lemma ServeCreate(rx: Engine, node: NodeState, ts: seq<Thread>, node': NodeState)
    requires Idle(ts) && Reached(rx, Serving(rx, node, ts))
    requires CreateQueue(node, {1, SERVER_ID}, NAME, 1) == Some(node')
    ensures Reached(rx, Serving(rx, node', ts + [Done]))
  {
    assert Serving(rx, node, ts).users == {1, SERVER_ID};
    CreateAlone(rx, Serving(rx, node, ts), NAME, 1);
  }

  lemma ServeDrop(rx: Engine, node: NodeState, ts: seq<Thread>)
    requires Idle(ts) && Reached(rx, Serving(rx, node, ts))
    ensures Reached(rx, Left(rx, EraseClient(node, 1), ts + [Done]))
  {
    DropAlone(rx, Serving(rx, node, ts), 1);
  }

  /** The state once client 1 has disconnected. */
  function Left(rx: Engine, node: NodeState, ts: seq<Thread>): State {
    Dropped(Joined(Start(rx), 1), 1).(node := node, threads := ts)
  }

  lemma SubscribeThenCreate(s: NodeState)
    requires s == NodeState(map[], map[NAME := map[1 := ENTRY]], 0)
    ensures ChangeSubscription(EMPTY_NODE, {1, SERVER_ID}, Subscribe, WISH, 1) == Some(s)
    ensures CreateQueue(s, {1, SERVER_ID}, NAME, 1) == Some(OneQueue(map[1 := ENTRY]))
  {
    var s' := CreateQueue(s, {1, SERVER_ID}, NAME, 1).value;
    assert s'.subs == map[NAME := map[1 := ENTRY]] && s'.queues == map[NAME := Queue(0, NAME)];
  }

  const THREE := [Done, Done, Done]

  lemma SubscribeReached(rx: Engine, s: NodeState)
    requires ChangeSubscription(EMPTY_NODE, {1, SERVER_ID}, Subscribe, WISH, 1) == Some(s)
    ensures Reached(rx, Serving(rx, s, [Done] + [Done]))
  {
    OneClientReached(rx);
    ServeSubscribe(rx, EMPTY_NODE, [Done], 1, s);
  }

  /** Client 1 has subscribed to the queue it then created. */
  lemma SubscribedReached(rx: Engine)
    ensures Reached(rx, Serving(rx, OneQueue(map[1 := ENTRY]), THREE))
  {
    var subscribed := NodeState(map[], map[NAME := map[1 := ENTRY]], 0);
    SubscribeThenCreate(subscribed);
    SubscribeReached(rx, subscribed);
    ServeCreate(rx, subscribed, [Done] + [Done], OneQueue(map[1 := ENTRY]));
    assert ([Done] + [Done]) + [Done] == THREE;
  }

  function Sending(tag: Text): Thread {
    PubSending(PublishParams(NAME, tag), map[1 := ENTRY], [1], [])
  }

  lemma FoundReached(rx: Engine, tag: Text)
    ensures Reached(rx, Plus(Serving(rx, OneQueue(map[1 := ENTRY]), THREE), PubWaiting(PublishParams(NAME, tag))))
  {
    SubscribedReached(rx);
    CheckAlone(rx, Serving(rx, OneQueue(map[1 := ENTRY]), THREE), PublishParams(NAME, tag));
  }

  lemma ServeCopy(rx: Engine, node: NodeState, ts: seq<Thread>, params: PublishParams, copy: Listeners, left: seq<nat>)
    requires Idle(ts) && Reached(rx, Plus(Serving(rx, node, ts), PubWaiting(params))) && Touch(node, params.queueName) == node
    requires copy == ListenersOf(node, params.queueName) && left == Ascending(TargetSet(rx, copy, params.tag))
    ensures Reached(rx, Serving(rx, node, ts + [PubSending(params, copy, left, [])]))
  {
    CopyAlone(rx, Serving(rx, node, ts), params);
  }

  /** A publish has copied client 1 as its one target. */
  lemma CopyReached(rx: Engine, tag: Text)
    ensures Reached(rx, Serving(rx, OneQueue(map[1 := ENTRY]), THREE + [Sending(tag)]))
  {
    var node := OneQueue(map[1 := ENTRY]);
    FoundReached(rx, tag);
    OnlyTarget(rx, 1, tag);
    assert Touch(node, NAME) == node;
    ServeCopy(rx, node, THREE, PublishParams(NAME, tag), map[1 := ENTRY], [1]);
  }

  lemma ThrowsOnceGone(rx: Engine, node: NodeState, tag: Text)
    ensures SendThrows(Left(rx, node, THREE + [Sending(tag)] + [Done]), 3, 1)
  {
  }

  /** A client that disconnects between the copy and its send makes the publish throw. */
  lemma SendCanThrow(rx: Engine, tag: Text) returns (st: State)
    ensures Reached(rx, st) && SendThrows(st, 3, 1)
  {
    var node := OneQueue(map[1 := ENTRY]);
    CopyReached(rx, tag);
    ServeDrop(rx, node, THREE + [Sending(tag)]);
    ThrowsOnceGone(rx, EraseClient(node, 1), tag);
    st := Left(rx, EraseClient(node, 1), THREE + [Sending(tag)] + [Done]);
  }

  /** One that has only begun to disconnect lets the send meet a reset stream. */
  lemma SendCanMeetReset(rx: Engine, tag: Text) returns (st: State)
    ensures Reached(rx, st) && SendMeetsReset(st, 3, 1)
  {
    var was := Serving(rx, OneQueue(map[1 := ENTRY]), THREE + [Sending(tag)]);
    CopyReached(rx, tag);
    Continue(rx, was, Starts(DropStart(1)));
    st := Plus(was.(closed := was.closed + {1}), DropStart(1));
  }

  // ---------------------------------------------------------------- the existence check

  lemma CreateThenListen()
    ensures CreateQueue(EMPTY_NODE, {1, SERVER_ID}, NAME, 1) == Some(OneQueue(map[1 := OWNER]))
    ensures ChangeSubscription(OneQueue(map[1 := OWNER]), {1, SERVER_ID}, Subscribe, WISH, SERVER_ID) ==
            Some(OneQueue(map[1 := OWNER, SERVER_ID := ENTRY]))
  {
    var s, both := OneQueue(map[1 := OWNER]), map[1 := OWNER, SERVER_ID := ENTRY];
    assert Enlist(s.subs[NAME], Subscribe, WISH, SERVER_ID) == both;
    assert s.subs[NAME := both] == map[NAME := both];
  }

  const SERVER_LISTENS := NodeState(map[], map[NAME := map[SERVER_ID := ENTRY]], 1)

  lemma OwnerLeaves()
    ensures EraseClient(OneQueue(map[1 := OWNER, SERVER_ID := ENTRY]), 1) == SERVER_LISTENS
  {
    var s := OneQueue(map[1 := OWNER, SERVER_ID := ENTRY]);
    assert s.subs[NAME] - {1} == map[SERVER_ID := ENTRY];
    assert Doomed(s, NAME, 1);
    assert EraseClient(s, 1).queues == map[];
    assert EraseClient(s, 1).subs == map[NAME := map[SERVER_ID := ENTRY]];
  }

  /** The server listens to the queue of client 1. */
  lemma ListeningReached(rx: Engine)
    ensures Reached(rx, Serving(rx, OneQueue(map[1 := OWNER, SERVER_ID := ENTRY]), THREE))
  {
    CreateThenListen();
    OneClientReached(rx);
    ServeCreate(rx, EMPTY_NODE, [Done], OneQueue(map[1 := OWNER]));
    ServeSubscribe(rx, OneQueue(map[1 := OWNER]), [Done] + [Done], SERVER_ID, OneQueue(map[1 := OWNER, SERVER_ID := ENTRY]));
    assert ([Done] + [Done]) + [Done] == THREE;
  }

  /** ... a publish passes its check ... */
  lemma CheckedReached(rx: Engine, params: PublishParams)
    requires params.queueName == NAME
    ensures Reached(rx, Serving(rx, OneQueue(map[1 := OWNER, SERVER_ID := ENTRY]), THREE + [PubWaiting(params)]))
  {
    ListeningReached(rx);
    CheckAlone(rx, Serving(rx, OneQueue(map[1 := OWNER, SERVER_ID := ENTRY]), THREE), params);
  }

  /** ... and the owner leaves. */
  lemma OwnerLeftReached(rx: Engine, params: PublishParams)
    requires params.queueName == NAME
    ensures Reached(rx, Left(rx, SERVER_LISTENS, THREE + [PubWaiting(params)] + [Done]))
  {
    CheckedReached(rx, params);
    ServeDrop(rx, OneQueue(map[1 := OWNER, SERVER_ID := ENTRY]), THREE + [PubWaiting(params)]);
    OwnerLeaves();
  }

  lemma OutdatedReached(rx: Engine, params: PublishParams)
    requires params.queueName == NAME
    ensures Reached(rx, Left(rx, SERVER_LISTENS, THREE + [PubReading(params)] + [Done]))
  {
    var ts := THREE + [PubWaiting(params)] + [Done];
    OwnerLeftReached(rx, params);
    Continue(rx, Left(rx, SERVER_LISTENS, ts), Moves(3, []));
    assert ts[3 := PubReading(params)] == THREE + [PubReading(params)] + [Done];
  }

  /** The existence check can be out of date at the copy: the owner leaves in between, the queue is
   *  deleted, and the message is still delivered to the server, which an atomic publish would not do. */
  lemma CheckCanBeOutdated(rx: Engine, tag: Text) returns (st: State)
    ensures Reached(rx, st) && st.aborted == {} && NAME !in st.node.queues
    ensures |st.threads| == 5 && st.threads[3] == PubReading(PublishParams(NAME, tag))
    ensures Wf(st) && Move(st, 3, []).threads[3].left == [SERVER_ID]
    ensures Targets(rx, st.node, PublishParams(NAME, tag)) == []
  {
    st := Left(rx, SERVER_LISTENS, THREE + [PubReading(PublishParams(NAME, tag))] + [Done]);
    OutdatedReached(rx, PublishParams(NAME, tag));
    OnlyTarget(rx, SERVER_ID, tag);
  }
}
