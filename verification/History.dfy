/** The broker against its history: who receives a message, read off the calls that were made. */
module History {
  import opened Basics
  import opened NodeCore

  datatype Event =
    | AddUser(id: nat)
    | DropUser(id: nat)
    | MakeQueue(name: Text, id: nat)
    | Change(action: Action, settings: SubscriptionParams, id: nat)
    | Erase(id: nat)
    | Orphan(name: Text)   // a creation cut short by its client's disconnect: the queue, without an owner

  datatype World = World(users: set<nat>, node: NodeState)

  function OrElse(r: Option<NodeState>, s: NodeState): NodeState {
    if r.Some? then r.value else s
  }

  /** One call; a call that throws changes nothing. */
  function Apply(w: World, e: Event): World {
    match e
    case AddUser(id) => w.(users := w.users + {id})
    case DropUser(id) => w.(users := w.users - {id})
    case MakeQueue(name, id) => w.(node := OrElse(CreateQueue(w.node, w.users, name, id), w.node))
    case Change(action, settings, id) =>
      w.(node := OrElse(ChangeSubscription(w.node, w.users, action, settings, id), w.node))
    case Erase(id) => w.(node := EraseClient(w.node, id))
    case Orphan(name) => w.(node := if name in w.node.queues then w.node else StoreQueue(w.node, name))
  }

  /** A history of calls that all ran to their end. */
  predicate Complete(h: seq<Event>) {
    forall e :: e in h ==> !e.Orphan?
  }

  /** The calls of a history that ran to their end. */
  function Completed(h: seq<Event>): (g: seq<Event>)
    ensures Complete(g)
  {
    if h == [] then [] else (if h[0].Orphan? then [] else [h[0]]) + Completed(h[1..])
  }

  lemma {:induction false} CompletedConcat(a: seq<Event>, b: seq<Event>)
    ensures Completed(a + b) == Completed(a) + Completed(b)
  {
    if a == [] {
      assert a + b == b;
    } else {
      assert (a + b)[1..] == a[1..] + b;
      CompletedConcat(a[1..], b);
    }
  }

  function After(h: seq<Event>): World {
    if h == [] then World({SERVER_ID}, EMPTY_NODE)
    else Apply(After(h[..|h| - 1]), h[|h| - 1])
  }

  // ---------------------------------------------------------------- the history specification

  /** Call `i` subscribed `id` to `q`. */
  ghost predicate SubscribesAt(h: seq<Event>, i: nat, q: Text, id: nat)
    requires i < |h|
  {
    && h[i].Change? && h[i].action.Subscribe? && h[i].settings.queueName == q && h[i].id == id
    && id in After(h[..i]).users
  }

  /** Call `i` ended a subscription of `id` to `q`: an effective Unsubscribe, or an erasure. */
  ghost predicate ClearsAt(h: seq<Event>, i: nat, q: Text, id: nat)
    requires i < |h|
  {
    || h[i] == Erase(id)
    || (&& h[i].Change? && h[i].action.Unsubscribe? && h[i].settings.queueName == q && h[i].id == id
        && q in After(h[..i]).node.queues && id in After(h[..i]).users)
  }

  /** Call `i` is the subscription of `id` to `q` in force after `h`. */
  ghost predicate InForce(h: seq<Event>, i: nat, q: Text, id: nat) {
    && i < |h| && SubscribesAt(h, i, q, id)
    && forall j :: i < j < |h| ==> !SubscribesAt(h, j, q, id) && !ClearsAt(h, j, q, id)
  }

  /** A listener entry is eligible exactly when a subscription is in force, and has its settings. */
  ghost predicate AgreesWithHistory(h: seq<Event>, q: Text, id: nat) {
    var ls := ListenersOf(After(h).node, q);
    && ((id in ls && Eligible(ls[id])) <==> exists i: nat :: InForce(h, i, q, id))
    && forall i: nat :: InForce(h, i, q, id) ==> id in ls && ls[id].settings == h[i].settings
  }

  lemma PrefixInForce(h: seq<Event>, i: nat, q: Text, id: nat)
    requires h != [] && i < |h| - 1
    requires !SubscribesAt(h, |h| - 1, q, id) && !ClearsAt(h, |h| - 1, q, id)
    ensures InForce(h, i, q, id) <==> InForce(h[..|h| - 1], i, q, id)
  {
    var g := h[..|h| - 1];
    assert forall j :: 0 <= j < |g| ==> g[..j] == h[..j] && g[j] == h[j];
    assert forall j: nat :: j < |g| ==>
      SubscribesAt(g, j, q, id) == SubscribesAt(h, j, q, id) && ClearsAt(g, j, q, id) == ClearsAt(h, j, q, id);
  }

  /** What a call may do to a listener entry it neither subscribes nor clears. */
  ghost predicate LeavesAlone(ls: Listeners, ls': Listeners, id: nat) {
    && (id in ls ==> id in ls' && ls'[id] == ls[id])
    && (id in ls' && id !in ls ==> !Eligible(ls'[id]))
  }

  lemma EntryAfterChange(s: NodeState, users: set<nat>, action: Action, settings: SubscriptionParams, who: nat, q: Text, id: nat)
    ensures var ls := ListenersOf(s, q);
            var ls' := ListenersOf(OrElse(ChangeSubscription(s, users, action, settings, who), s), q);
            if settings.queueName != q || who != id || id !in users || action.Create? then LeavesAlone(ls, ls', id)
            else if action.Subscribe? then id in ls' && Eligible(ls'[id]) && ls'[id].settings == settings
            else if q in s.queues then id !in ls'
            else LeavesAlone(ls, ls', id)
  {
  }

  lemma EntryAfterCreate(s: NodeState, users: set<nat>, name: Text, who: nat, q: Text, id: nat)
    ensures LeavesAlone(ListenersOf(s, q), ListenersOf(OrElse(CreateQueue(s, users, name, who), s), q), id)
  {
  }

  lemma EntryAfterErase(s: NodeState, who: nat, q: Text, id: nat)
    ensures var ls, ls' := ListenersOf(s, q), ListenersOf(EraseClient(s, who), q);
            if who == id then id !in ls' else LeavesAlone(ls, ls', id)
  {
  }

  /** The effect of one call on the entry of `id` for `q`. */
  lemma EntryAfter(h: seq<Event>, q: Text, id: nat)
    requires h != []
    ensures var n := |h| - 1;
            var ls, ls' := ListenersOf(After(h[..n]).node, q), ListenersOf(After(h).node, q);
            && (SubscribesAt(h, n, q, id) ==> id in ls' && Eligible(ls'[id]) && ls'[id].settings == h[n].settings)
            && (ClearsAt(h, n, q, id) ==> id !in ls')
            && (!SubscribesAt(h, n, q, id) && !ClearsAt(h, n, q, id) ==> LeavesAlone(ls, ls', id))
  {
    var w := After(h[..|h| - 1]);
    match h[|h| - 1]
    case MakeQueue(name, who) => EntryAfterCreate(w.node, w.users, name, who, q, id);
    case Change(action, settings, who) => EntryAfterChange(w.node, w.users, action, settings, who, q, id);
    case Erase(who) => EntryAfterErase(w.node, who, q, id);
    case _ =>
  }

  lemma {:induction false} ListenersFollowHistory(h: seq<Event>, q: Text, id: nat)
    ensures AgreesWithHistory(h, q, id)
  {
    if h == [] {
      return;
    }
    var n := |h| - 1;
    EntryAfter(h, q, id);
    if SubscribesAt(h, n, q, id) {
      assert InForce(h, n, q, id);
      assert forall i: nat :: InForce(h, i, q, id) ==> i == n;
    } else if !ClearsAt(h, n, q, id) {
      ListenersFollowHistory(h[..n], q, id);
      forall i: nat | i < n ensures InForce(h, i, q, id) <==> InForce(h[..n], i, q, id) {
        PrefixInForce(h, i, q, id);
      }
    }
  }

  /** A subscription of `id` to `q` is in force, with no pattern or with one that compiles and matches `tag`. */
  ghost predicate Receives(rx: Engine, h: seq<Event>, q: Text, id: nat, tag: Text) {
    exists i: nat :: InForce(h, i, q, id) && (h[i].settings.tag == [] || (rx.valid(h[i].settings.tag) && rx.matches(h[i].settings.tag, tag)))
  }

  /** A subscription of `id` to `q` is in force, with a pattern that does not compile. */
  ghost predicate Breaks(rx: Engine, h: seq<Event>, q: Text, id: nat) {
    exists i: nat :: InForce(h, i, q, id) && h[i].settings.tag != [] && !rx.valid(h[i].settings.tag)
  }

  lemma EntryReadOffHistory(rx: Engine, h: seq<Event>, q: Text, id: nat, tag: Text)
    ensures var ls := ListenersOf(After(h).node, q);
            && (id in ls && Wanted(rx, ls[id], tag) <==> Receives(rx, h, q, id, tag))
            && (id in ls && Bad(rx, ls[id]) <==> Breaks(rx, h, q, id))
  {
    ListenersFollowHistory(h, q, id);
  }

  /** Publishing refines the history: the handler is called once each, in ascending order, for exactly
   *  the clients with a subscription in force whose pattern accepts the tag, up to the first client
   *  whose pattern does not compile; the call throws exactly when there is such a client. */
  lemma DeliveryFollowsHistory(rx: Engine, h: seq<Event>, params: PublishParams)
    requires params.queueName in After(h).node.queues
    ensures var called, q := Targets(rx, After(h).node, params), params.queueName;
            && StrictlyAscending(called)
            && (forall id :: id in called <==>
                  Receives(rx, h, q, id, params.tag) && forall other :: other <= id ==> !Breaks(rx, h, q, other))
            && (DeliveryThrows(rx, After(h).node, params) <==> exists id :: Breaks(rx, h, q, id))
  {
    var q := params.queueName;
    var ls := ListenersOf(After(h).node, q);
    forall id: nat
      ensures id in ls && Wanted(rx, ls[id], params.tag) <==> Receives(rx, h, q, id, params.tag)
      ensures id in ls && Bad(rx, ls[id]) <==> Breaks(rx, h, q, id)
    {
      EntryReadOffHistory(rx, h, q, id, params.tag);
    }
  }

  // ---------------------------------------------------------------- structure over all runs

  lemma ChangeKeepsFiled(s: NodeState, users: set<nat>, action: Action, settings: SubscriptionParams, id: nat)
    requires Filed(s)
    ensures var r := ChangeSubscription(s, users, action, settings, id);
            r.Some? ==> Filed(r.value) && (Structured(s) ==> Structured(r.value))
  {
  }

  lemma StoreKeepsFiled(s: NodeState, name: Text)
    requires Filed(s) && name !in s.queues
    ensures Filed(StoreQueue(s, name))
  {
  }

  lemma CreateKeepsFiled(s: NodeState, users: set<nat>, name: Text, id: nat)
    requires Filed(s)
    ensures var r := CreateQueue(s, users, name, id);
            r.Some? ==> Filed(r.value) && (Structured(s) ==> Structured(r.value))
  {
    if name in s.queues {
      assert Resettle(s, name).queues == s.queues;
    } else {
      StoreKeepsFiled(s, name);
      ChangeKeepsFiled(StoreQueue(s, name), users, Create, SubscriptionParams(name, []), id);
    }
  }

  lemma CallKeepsFiled(w: World, e: Event)
    requires Filed(w.node)
    ensures Filed(Apply(w, e).node)
    ensures Structured(w.node) && !e.Orphan? ==> Structured(Apply(w, e).node)
  {
    match e
    case MakeQueue(name, id) => CreateKeepsFiled(w.node, w.users, name, id);
    case Change(action, settings, id) => ChangeKeepsFiled(w.node, w.users, action, settings, id);
    case Orphan(name) => if name !in w.node.queues { StoreKeepsFiled(w.node, name); }
    case _ =>
  }

  /** Queue ids are below the counter and distinct, and queues and listeners are filed under their names. */
  lemma {:induction false} NodeIsFiled(h: seq<Event>)
    ensures Filed(After(h).node)
  {
    if h != [] {
      NodeIsFiled(h[..|h| - 1]);
      CallKeepsFiled(After(h[..|h| - 1]), h[|h| - 1]);
    }
  }

  /** ... and every queue has a listener map, if no creation was cut short. */
  lemma {:induction false} NodeIsStructured(h: seq<Event>)
    requires Complete(h)
    ensures Structured(After(h).node)
  {
    if h != [] {
      NodeIsStructured(h[..|h| - 1]);
      assert h[|h| - 1] in h;
      CallKeepsFiled(After(h[..|h| - 1]), h[|h| - 1]);
    }
  }

  /** One call keeps a queue's record, or files a new queue under the next id. */
  lemma QueueAfterCall(w: World, e: Event, q: Text)
    requires Filed(w.node)
    ensures var s, s' := w.node, Apply(w, e).node;
            && s.nextQueueId <= s'.nextQueueId
            && (q in s'.queues ==> if q in s.queues then s'.queues[q] == s.queues[q] else s'.queues[q].queueId == s.nextQueueId)
  {
  }

  /** A queue id is never given out again: a later queue is the same one, or has a fresh id. */
  lemma {:induction false} QueueIdsAreNotReused(h: seq<Event>, n: nat, q: Text)
    requires n <= |h|
    ensures var was, now := After(h[..n]).node, After(h).node;
            && was.nextQueueId <= now.nextQueueId
            && (q in now.queues ==> (q in was.queues && now.queues[q] == was.queues[q]) || was.nextQueueId <= now.queues[q].queueId)
    decreases |h|
  {
    if n == |h| {
      assert h[..n] == h;
    } else {
      var g := h[..|h| - 1];
      assert g[..n] == h[..n];
      NodeIsFiled(g);
      QueueAfterCall(After(g), h[|h| - 1], q);
      QueueIdsAreNotReused(g, n, q);
    }
  }

  // ---------------------------------------------------------------- owners

  ghost predicate ServerOnlyOwns(s: NodeState) {
    forall q :: q in s.subs && SERVER_ID in s.subs[q] ==> s.subs[q][SERVER_ID].isOwner
  }

  ghost predicate AtMostOneOwner(s: NodeState) {
    && (forall q, a, b :: q in s.subs && a in s.subs[q] && b in s.subs[q] && s.subs[q][a].isOwner && s.subs[q][b].isOwner ==> a == b)
    && (forall q, a :: q in s.subs && q !in s.queues && a in s.subs[q] ==> !s.subs[q][a].isOwner)
  }

  /** Nothing but `createQueue` makes owners. */
  predicate ClientCall(e: Event) {
    e.Change? ==> !e.action.Create?
  }

  /** Erasing `id` deletes no queue that another listener owns. */
  ghost predicate OrphansNoOwner(s: NodeState, id: nat) {
    forall q, a :: q in s.queues && Doomed(s, q, id) && a in s.subs[q] && a != id ==> !s.subs[q][a].isOwner
  }

  /** A call keeps queues singly owned, and deleted queues unowned, exactly when it orphans no owner. */
  lemma OwnersAfterCall(w: World, e: Event)
    requires AtMostOneOwner(w.node) && ClientCall(e)
    ensures AtMostOneOwner(Apply(w, e).node) <==> (e.Erase? ==> OrphansNoOwner(w.node, e.id))
  {
    if e.Erase? {
      var s, s' := w.node, Apply(w, e).node;
      if q, a :| q in s.queues && Doomed(s, q, e.id) && a in s.subs[q] && a != e.id && s.subs[q][a].isOwner {
        assert q in s'.subs && q !in s'.queues && a in s'.subs[q];
      }
    }
  }

  /** Initially and after every call of `h`, ownership is single. */
  ghost predicate AlwaysOneOwner(h: seq<Event>) {
    AtMostOneOwner(After(h).node) && (h != [] ==> AlwaysOneOwner(h[..|h| - 1]))
  }

  /** No erasure of `h` orphans an owner. */
  ghost predicate NeverOrphans(h: seq<Event>) {
    h != [] ==>
      var g, e := h[..|h| - 1], h[|h| - 1];
      (e.Erase? ==> OrphansNoOwner(After(g).node, e.id)) && NeverOrphans(g)
  }

  /** Initially and after every call of `h`, the server owns the queues it listens to. */
  ghost predicate AlwaysServerOwns(h: seq<Event>) {
    ServerOnlyOwns(After(h).node) && (h != [] ==> AlwaysServerOwns(h[..|h| - 1]))
  }

  /** Over a whole run, ownership stays single exactly when no erasure orphans an owner. */
  lemma {:induction false} OneOwnerIff(h: seq<Event>)
    requires forall e :: e in h ==> ClientCall(e)
    ensures AlwaysOneOwner(h) <==> NeverOrphans(h)
  {
    if h != [] {
      var g := h[..|h| - 1];
      OneOwnerIff(g);
      assert h[|h| - 1] in h;
      if AlwaysOneOwner(g) {
        OwnersAfterCall(After(g), h[|h| - 1]);
      }
    }
  }

  lemma NoOneLeft(ls: Listeners, id: nat)
    requires SERVER_ID in ls ==> ls[SERVER_ID].isOwner
    ensures MustBeRemoved(ls - {id}) ==> ls.Keys <= {id}
  {
    var rest := ls - {id};
    assert rest.Keys == ls.Keys - {id};
    assert forall x :: x in rest ==> rest[x] == ls[x];
  }

  lemma OwnedOnlyByServer(s: NodeState, id: nat)
    requires ServerOnlyOwns(s)
    ensures OrphansNoOwner(s, id)
  {
    forall q | q in s.queues && Doomed(s, q, id) ensures s.subs[q].Keys <= {id} {
      NoOneLeft(s.subs[q], id);
    }
  }

  lemma {:induction false} ServerOwnsNoOrphans(h: seq<Event>)
    requires AlwaysServerOwns(h)
    ensures NeverOrphans(h)
  {
    if h != [] {
      ServerOwnsNoOrphans(h[..|h| - 1]);
      if h[|h| - 1].Erase? {
        OwnedOnlyByServer(After(h[..|h| - 1]).node, h[|h| - 1].id);
      }
    }
  }

  /** In particular when the server never listens to a queue it does not own. */
  lemma ServerOwningIsEnough(h: seq<Event>)
    requires (forall e :: e in h ==> ClientCall(e)) && AlwaysServerOwns(h)
    ensures AlwaysOneOwner(h)
  {
    ServerOwnsNoOrphans(h);
    OneOwnerIff(h);
  }

  // ---------------------------------------------------------------- queues deleted under listeners

  /** The call deletes a queue that a client still listens to. */
  ghost predicate DeletesUnderClient(w: World, e: Event) {
    var s' := Apply(w, e).node;
    exists q, a :: q in w.node.queues && q !in s'.queues && a in ListenersOf(s', q) && a != SERVER_ID
  }

  /** `id` listens to an existing queue together with a server that does not own it and a third party. */
  ghost predicate LeavesServerWithClient(s: NodeState, id: nat) {
    exists q, a ::
      && q in s.queues && q in s.subs && id in s.subs[q] && a in s.subs[q]
      && id != SERVER_ID && a != SERVER_ID && a != id
      && SERVER_ID in s.subs[q] && !s.subs[q][SERVER_ID].isOwner
  }

  /** Only erasures delete queues. */
  lemma OnlyErasuresDelete(w: World, e: Event, q: Text)
    requires q in w.node.queues && !e.Erase?
    ensures q in Apply(w, e).node.queues
  {
  }

  lemma ErasedUnderClient(s: NodeState, id: nat, q: Text, a: nat)
    ensures q in s.queues && q !in EraseClient(s, id).queues && a in ListenersOf(EraseClient(s, id), q) && a != SERVER_ID <==>
            && q in s.queues && q in s.subs && id in s.subs[q] && a in s.subs[q]
            && id != SERVER_ID && a != SERVER_ID && a != id
            && SERVER_ID in s.subs[q] && !s.subs[q][SERVER_ID].isOwner
  {
    if q in s.subs {
      var rest := s.subs[q] - {id};
      assert ListenersOf(EraseClient(s, id), q) == rest;
      assert a in rest ==> rest != map[];
    }
  }

  /** A call deletes a queue under a client exactly when it erases a listener that leaves a non-owner
   *  server and another client behind. */
  lemma DeletionUnderClientIff(w: World, e: Event)
    ensures DeletesUnderClient(w, e) <==> e.Erase? && LeavesServerWithClient(w.node, e.id)
  {
    if e.Erase? {
      forall q, a {
        ErasedUnderClient(w.node, e.id, q, a);
      }
    } else {
      forall q | q in w.node.queues ensures q in Apply(w, e).node.queues {
        OnlyErasuresDelete(w, e, q);
      }
    }
  }

  ghost predicate NeverDeletesUnderClient(h: seq<Event>) {
    h != [] ==>
      var g, e := h[..|h| - 1], h[|h| - 1];
      !DeletesUnderClient(After(g), e) && NeverDeletesUnderClient(g)
  }

  ghost predicate NeverLeavesServerWithClient(h: seq<Event>) {
    h != [] ==>
      var g, e := h[..|h| - 1], h[|h| - 1];
      !(e.Erase? && LeavesServerWithClient(After(g).node, e.id)) && NeverLeavesServerWithClient(g)
  }

  /** Over a whole run, no queue is deleted under a client exactly when no erasure has that effect. */
  lemma {:induction false} QueuesOutliveClientsIff(h: seq<Event>)
    ensures NeverDeletesUnderClient(h) <==> NeverLeavesServerWithClient(h)
  {
    if h != [] {
      QueuesOutliveClientsIff(h[..|h| - 1]);
      DeletionUnderClientIff(After(h[..|h| - 1]), h[|h| - 1]);
    }
  }

  // ---------------------------------------------------------------- what does not hold

  lemma AfterCall(h: seq<Event>, e: Event)
    ensures After(h + [e]) == Apply(After(h), e)
  {
    assert (h + [e])[..|h|] == h;
  }

  lemma FourClients() returns (h: seq<Event>)
    ensures After(h) == World({1, 2, 3, 4, SERVER_ID}, EMPTY_NODE)
  {
    h := [];
    AfterCall(h, AddUser(1)); h := h + [AddUser(1)];
    AfterCall(h, AddUser(2)); h := h + [AddUser(2)];
    AfterCall(h, AddUser(3)); h := h + [AddUser(3)];
    AfterCall(h, AddUser(4)); h := h + [AddUser(4)];
  }

  /** A state in which client 1 owns queue `[7]`, clients 2 and 3 listen, and so does the server. */
  lemma ServerListens() returns (h: seq<Event>)
    ensures var owner, other := Listener(true, false, SubscriptionParams([7], [])), Listener(false, false, SubscriptionParams([7], []));
            After(h) == World({1, 2, 3, 4, SERVER_ID},
                              NodeState(map[[7] := Queue(0, [7])],
                                        map[[7] := map[1 := owner, 2 := other, 3 := other, SERVER_ID := other]], 1))
  {
    var sub := SubscriptionParams([7], []);
    h := FourClients();
    AfterCall(h, MakeQueue([7], 1)); h := h + [MakeQueue([7], 1)];
    AfterCall(h, Change(Subscribe, sub, 2)); h := h + [Change(Subscribe, sub, 2)];
    AfterCall(h, Change(Subscribe, sub, 3)); h := h + [Change(Subscribe, sub, 3)];
    AfterCall(h, Change(Subscribe, sub, SERVER_ID)); h := h + [Change(Subscribe, sub, SERVER_ID)];
  }

  /** A queue that two clients still listen to is deleted when a third leaves, because the server
   *  listens to it without owning it; its owner stays on record, so a second owner can appear. */
  lemma SharedQueueIsDeleted() returns (h: seq<Event>)
    ensures [7] in After(h).node.queues
    ensures var s := After(h + [Erase(2)]).node; [7] !in s.queues && [7] in s.subs && {1, 3} <= s.subs[[7]].Keys
    ensures !AtMostOneOwner(After(h + [Erase(2)] + [MakeQueue([7], 4)]).node)
  {
    h := ServerListens();
    var h1 := h + [Erase(2)];
    AfterCall(h, Erase(2));
    AfterCall(h1, MakeQueue([7], 4));
    var s := After(h1 + [MakeQueue([7], 4)]).node;
    assert s.subs[[7]][1].isOwner && s.subs[[7]][4].isOwner;
  }
}
