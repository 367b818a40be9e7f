/** What the broker has on record, read off the history of calls: listeners, owners and queues. */
module Records {
  import opened Basics
  import opened NodeCore
  import opened History

  // ---------------------------------------------------------------- one call

  /** The call makes `id` the creator of `q`. */
  ghost predicate Creates(w: World, e: Event, q: Text, id: nat) {
    && id in w.users
    && (|| (e == MakeQueue(q, id) && q !in w.node.queues)
        || (e.Change? && e.action.Create? && e.settings.queueName == q && e.id == id))
  }

  /** The call subscribes `id` to `q`. */
  ghost predicate Subscribes(w: World, e: Event, q: Text, id: nat) {
    e.Change? && e.action.Subscribe? && e.settings.queueName == q && e.id == id && id in w.users
  }

  /** The call ends what `id` has with `q`: an effective Unsubscribe, or an erasure. */
  ghost predicate Clears(w: World, e: Event, q: Text, id: nat) {
    || e == Erase(id)
    || (e.Change? && e.action.Unsubscribe? && e.settings.queueName == q && e.id == id && q in w.node.queues && id in w.users)
  }

  ghost predicate ListensIn(s: NodeState, q: Text, id: nat) {
    id in ListenersOf(s, q)
  }

  ghost predicate OwnsIn(s: NodeState, q: Text, id: nat) {
    ListensIn(s, q, id) && ListenersOf(s, q)[id].isOwner
  }

  lemma ChangeOnRecord(w: World, e: Event, q: Text, id: nat)
    requires e.Change?
    ensures var s, s' := w.node, Apply(w, e).node;
            && (ListensIn(s', q, id) <==> Creates(w, e, q, id) || Subscribes(w, e, q, id) || (ListensIn(s, q, id) && !Clears(w, e, q, id)))
            && (OwnsIn(s', q, id) <==> (Creates(w, e, q, id) && !ListensIn(s, q, id)) || (OwnsIn(s, q, id) && !Clears(w, e, q, id)))
  {
  }

  lemma CreationOnRecord(w: World, e: Event, q: Text, id: nat)
    requires e.MakeQueue?
    ensures var s, s' := w.node, Apply(w, e).node;
            && (ListensIn(s', q, id) <==> Creates(w, e, q, id) || ListensIn(s, q, id))
            && (OwnsIn(s', q, id) <==> (Creates(w, e, q, id) && !ListensIn(s, q, id)) || OwnsIn(s, q, id))
  {
  }

  lemma ErasureOnRecord(s: NodeState, who: nat, q: Text, id: nat)
    ensures var s' := EraseClient(s, who);
            && (ListensIn(s', q, id) <==> ListensIn(s, q, id) && id != who)
            && (OwnsIn(s', q, id) <==> OwnsIn(s, q, id) && id != who)
  {
  }

  /** What one call does to the record of `id` at `q`: a creator becomes a listener, and the owner if it was
   *  none before; an owner that subscribes stays the owner. */
  lemma RecordAfterCall(w: World, e: Event, q: Text, id: nat)
    ensures var s, s' := w.node, Apply(w, e).node;
            && (ListensIn(s', q, id) <==> Creates(w, e, q, id) || Subscribes(w, e, q, id) || (ListensIn(s, q, id) && !Clears(w, e, q, id)))
            && (OwnsIn(s', q, id) <==> (Creates(w, e, q, id) && !ListensIn(s, q, id)) || (OwnsIn(s, q, id) && !Clears(w, e, q, id)))
  {
    match e
    case Change(_, _, _) => ChangeOnRecord(w, e, q, id);
    case MakeQueue(_, _) => CreationOnRecord(w, e, q, id);
    case Erase(who) => ErasureOnRecord(w.node, who, q, id);
    case _ =>
  }

  // ---------------------------------------------------------------- queues, one call

  /** Erasing `id` deletes `q`: `id` is its last listener, or leaves it to a server that does not own it. */
  ghost predicate GoesWith(s: NodeState, q: Text, id: nat) {
    && q in s.subs && id in s.subs[q]
    && (s.subs[q].Keys == {id} || (id != SERVER_ID && SERVER_ID in s.subs[q] && !s.subs[q][SERVER_ID].isOwner))
  }

  /** An erasure deletes exactly the queues it should. */
  lemma QueueGoesIff(s: NodeState, id: nat, q: Text)
    ensures q in EraseClient(s, id).queues <==> q in s.queues && !GoesWith(s, q, id)
    ensures q in EraseClient(s, id).queues ==> EraseClient(s, id).queues[q] == s.queues[q]
  {
    if q in s.subs && id in s.subs[q] {
      var rest := s.subs[q] - {id};
      assert rest.Keys == s.subs[q].Keys - {id};
      assert rest == map[] <==> s.subs[q].Keys == {id} by {
        if rest == map[] {
          assert s.subs[q].Keys - {id} == {};
        } else {
          assert rest.Keys != {};
        }
      }
    }
  }

  /** The call stores a queue `q` if there is none. */
  ghost predicate Stores(w: World, e: Event, q: Text) {
    (e.MakeQueue? && e.name == q && e.id in w.users) || e == Orphan(q)
  }

  lemma QueueKeptIff(w: World, e: Event, q: Text)
    ensures q in Apply(w, e).node.queues <==> Stores(w, e, q) || (q in w.node.queues && !(e.Erase? && GoesWith(w.node, q, e.id)))
  {
    if e.Erase? {
      QueueGoesIff(w.node, e.id, q);
    }
  }

  // ---------------------------------------------------------------- histories

  /** Call `i` of `h` put `id` on the record of `q`, and nothing has taken it off since. */
  ghost predicate Enlisted(h: seq<Event>, i: nat, q: Text, id: nat) {
    && i < |h| && (Creates(After(h[..i]), h[i], q, id) || Subscribes(After(h[..i]), h[i], q, id))
    && forall j :: i < j < |h| ==> !Clears(After(h[..j]), h[j], q, id)
  }

  ghost predicate Listens(h: seq<Event>, q: Text, id: nat) {
    exists i: nat :: Enlisted(h, i, q, id)
  }

  /** Call `i` of `h` created `q` for `id`, which did not listen to it, and nothing has taken it off since. */
  ghost predicate OwnsSince(h: seq<Event>, i: nat, q: Text, id: nat) {
    && i < |h| && Creates(After(h[..i]), h[i], q, id) && !Listens(h[..i], q, id)
    && forall j :: i < j < |h| ==> !Clears(After(h[..j]), h[j], q, id)
  }

  ghost predicate Owns(h: seq<Event>, q: Text, id: nat) {
    exists i: nat :: OwnsSince(h, i, q, id)
  }

  lemma PrefixOf(h: seq<Event>, g: seq<Event>)
    requires h != [] && g == h[..|h| - 1]
    ensures forall j :: 0 <= j < |g| ==> g[j] == h[j] && g[..j] == h[..j]
  {
  }

  lemma EnlistedEarlier(h: seq<Event>, i: nat, q: Text, id: nat)
    requires h != [] && i < |h| - 1
    ensures Enlisted(h, i, q, id) <==> Enlisted(h[..|h| - 1], i, q, id) && !Clears(After(h[..|h| - 1]), h[|h| - 1], q, id)
    ensures OwnsSince(h, i, q, id) <==> OwnsSince(h[..|h| - 1], i, q, id) && !Clears(After(h[..|h| - 1]), h[|h| - 1], q, id)
  {
    PrefixOf(h, h[..|h| - 1]);
  }

  /** What the last call of a history does to who is on record. */
  lemma LastEnlists(h: seq<Event>, q: Text, id: nat)
    requires h != []
    ensures var n := |h| - 1;
            var w, e := After(h[..n]), h[n];
            && (Listens(h, q, id) <==> Creates(w, e, q, id) || Subscribes(w, e, q, id) || (Listens(h[..n], q, id) && !Clears(w, e, q, id)))
            && (Owns(h, q, id) <==> (Creates(w, e, q, id) && !Listens(h[..n], q, id)) || (Owns(h[..n], q, id) && !Clears(w, e, q, id)))
  {
    var n := |h| - 1;
    forall i: nat | i < n
      ensures Enlisted(h, i, q, id) <==> Enlisted(h[..n], i, q, id) && !Clears(After(h[..n]), h[n], q, id)
      ensures OwnsSince(h, i, q, id) <==> OwnsSince(h[..n], i, q, id) && !Clears(After(h[..n]), h[n], q, id)
    {
      EnlistedEarlier(h, i, q, id);
    }
    assert Enlisted(h, n, q, id) <==> Creates(After(h[..n]), h[n], q, id) || Subscribes(After(h[..n]), h[n], q, id);
    assert OwnsSince(h, n, q, id) <==> Creates(After(h[..n]), h[n], q, id) && !Listens(h[..n], q, id);
  }

  /** The listeners of a queue are those the history put on its record and has not taken off. */
  lemma {:induction false} ListeningFollowsHistory(h: seq<Event>, q: Text, id: nat)
    ensures ListensIn(After(h).node, q, id) <==> Listens(h, q, id)
  {
    if h != [] {
      ListeningFollowsHistory(h[..|h| - 1], q, id);
      RecordAfterCall(After(h[..|h| - 1]), h[|h| - 1], q, id);
      LastEnlists(h, q, id);
    }
  }

  /** The owner of a queue is who created it without listening to it, until an unsubscription or erasure;
   *  subscribing does not change that. */
  lemma {:induction false} OwnersFollowHistory(h: seq<Event>, q: Text, id: nat)
    ensures OwnsIn(After(h).node, q, id) <==> Owns(h, q, id)
  {
    if h != [] {
      OwnersFollowHistory(h[..|h| - 1], q, id);
      ListeningFollowsHistory(h[..|h| - 1], q, id);
      RecordAfterCall(After(h[..|h| - 1]), h[|h| - 1], q, id);
      LastEnlists(h, q, id);
    }
  }

  /** Call `j` of `h` erased the last listener of `q`, or left it to a server that does not own it. */
  ghost predicate DeletesAt(h: seq<Event>, j: nat, q: Text)
    requires j < |h|
  {
    && h[j].Erase? && Listens(h[..j], q, h[j].id)
    && (|| (forall a: nat :: Listens(h[..j], q, a) ==> a == h[j].id)
        || (h[j].id != SERVER_ID && Listens(h[..j], q, SERVER_ID) && !Owns(h[..j], q, SERVER_ID)))
  }

  lemma LastListener(s: NodeState, q: Text, id: nat)
    ensures ListensIn(s, q, id) ==> (s.subs[q].Keys == {id} <==> forall a: nat :: ListensIn(s, q, a) ==> a == id)
  {
    if ListensIn(s, q, id) && forall a: nat :: ListensIn(s, q, a) ==> a == id {
      assert forall a :: a in s.subs[q].Keys ==> ListensIn(s, q, a);
    }
  }

  lemma DeletionFollowsHistory(h: seq<Event>, j: nat, q: Text)
    requires j < |h|
    ensures DeletesAt(h, j, q) <==> h[j].Erase? && GoesWith(After(h[..j]).node, q, h[j].id)
  {
    if h[j].Erase? {
      var s, id := After(h[..j]).node, h[j].id;
      forall a: nat ensures ListensIn(s, q, a) <==> Listens(h[..j], q, a) {
        ListeningFollowsHistory(h[..j], q, a);
      }
      OwnersFollowHistory(h[..j], q, SERVER_ID);
      LastListener(s, q, id);
    }
  }

  /** Call `i` of `h` stored `q`, and no erasure has deleted it since. */
  ghost predicate StoredSince(h: seq<Event>, i: nat, q: Text) {
    && i < |h| && Stores(After(h[..i]), h[i], q)
    && forall j :: i < j < |h| ==> !DeletesAt(h, j, q)
  }

  ghost predicate Exists(h: seq<Event>, q: Text) {
    exists i: nat :: StoredSince(h, i, q)
  }

  lemma StoredEarlier(h: seq<Event>, i: nat, q: Text)
    requires h != [] && i < |h| - 1
    ensures StoredSince(h, i, q) <==> StoredSince(h[..|h| - 1], i, q) && !DeletesAt(h, |h| - 1, q)
  {
    var g := h[..|h| - 1];
    PrefixOf(h, g);
    assert forall j :: 0 <= j < |g| ==> DeletesAt(g, j, q) == DeletesAt(h, j, q);
  }

  /** A queue exists exactly when some call stored it and no later erasure took its last listener, or left
   *  it to a server that does not own it. */
  lemma {:induction false} QueuesFollowHistory(h: seq<Event>, q: Text)
    ensures q in After(h).node.queues <==> Exists(h, q)
  {
    if h != [] {
      var n := |h| - 1;
      QueuesFollowHistory(h[..n], q);
      QueueKeptIff(After(h[..n]), h[n], q);
      DeletionFollowsHistory(h, n, q);
      forall i: nat | i < n ensures StoredSince(h, i, q) <==> StoredSince(h[..n], i, q) && !DeletesAt(h, n, q) {
        StoredEarlier(h, i, q);
      }
      assert StoredSince(h, n, q) <==> Stores(After(h[..n]), h[n], q);
    }
  }

  // ---------------------------------------------------------------- throwing calls

  /** A creation throws exactly for an unknown client, a change exactly for an unknown client unless it
   *  unsubscribes from a queue that does not exist. */
  lemma ThrowsIff(s: NodeState, users: set<nat>, name: Text, action: Action, settings: SubscriptionParams, id: nat)
    ensures CreateQueue(s, users, name, id).None? <==> id !in users
    ensures ChangeSubscription(s, users, action, settings, id).None? <==>
            id !in users && !(action.Unsubscribe? && settings.queueName !in s.queues)
  {
  }
}
