/** What aborted creations can and cannot bring about. */
module Outcomes {
  import opened Basics
  import opened NodeCore
  import opened NodeLocks
  import opened Linearization
  import H = History

  lemma CreateKeepsEquiv(a: NodeState, b: NodeState, users: set<nat>, name: Text, id: nat)
    requires Equiv(a, b)
    ensures Equiv(H.OrElse(CreateQueue(a, users, name, id), a), H.OrElse(CreateQueue(b, users, name, id), b))
  {
    if id in users && name !in a.queues {
      var a1, b1 := StoreQueue(a, name), StoreQueue(b, name);
      assert Equiv(a1, b1) by {
        assert forall q :: ListenersOf(a1, q) == ListenersOf(a, q) && ListenersOf(b1, q) == ListenersOf(b, q);
      }
      ChangeKeepsEquiv(a1, b1, users, Create, SubscriptionParams(name, []), id);
    } else if id in users {
      assert forall q :: ListenersOf(Resettle(a, name), q) == ListenersOf(a, q) && ListenersOf(Resettle(b, name), q) == ListenersOf(b, q);
    }
  }

  lemma ChangeKeepsEquiv(a: NodeState, b: NodeState, users: set<nat>, action: Action, settings: SubscriptionParams, id: nat)
    requires Equiv(a, b)
    ensures var x, y := ChangeSubscription(a, users, action, settings, id), ChangeSubscription(b, users, action, settings, id);
            (x.Some? <==> y.Some?) && Equiv(H.OrElse(x, a), H.OrElse(y, b))
  {
    RecordRespectsEquiv(a, b, action, settings, id);
  }

  lemma EraseKeepsEquiv(a: NodeState, b: NodeState, id: nat)
    requires Equiv(a, b)
    ensures Equiv(EraseClient(a, id), EraseClient(b, id))
  {
    EraseRespectsEquiv(a, b, id);
    EraseInAll(b, id);
  }

  /** Equivalent worlds stay equivalent under the same call. */
  lemma CallKeepsEquiv(v: H.World, w: H.World, e: H.Event)
    requires v.users == w.users && Equiv(v.node, w.node) && !e.Orphan?
    ensures H.Apply(v, e).users == H.Apply(w, e).users && Equiv(H.Apply(v, e).node, H.Apply(w, e).node)
  {
    match e
    case MakeQueue(name, id) => CreateKeepsEquiv(v.node, w.node, v.users, name, id);
    case Change(action, settings, id) => ChangeKeepsEquiv(v.node, w.node, v.users, action, settings, id);
    case Erase(id) => EraseKeepsEquiv(v.node, w.node, id);
    case _ =>
  }

  lemma {:induction false} FreshId(used: set<nat>) returns (x: nat)
    ensures x !in used && forall y :: y in used ==> y < x
    decreases |used|
  {
    if used == {} {
      x := 0;
    } else {
      var y :| y in used;
      x := FreshId(used - {y});
      assert used == (used - {y}) + {y};
      x := if x <= y then y + 1 else x;
    }
  }

  /** A creator that comes, creates the queue, unsubscribes and goes. */
  function Stand(name: Text, x: nat): seq<H.Event> {
    [H.AddUser(x), H.MakeQueue(name, x), H.Change(Unsubscribe, SubscriptionParams(name, []), x), H.DropUser(x)]
  }

  lemma FourCalls(g: seq<H.Event>, a: H.Event, b: H.Event, c: H.Event, d: H.Event)
    ensures H.After(g + [a, b, c, d]) == H.Apply(H.Apply(H.Apply(H.Apply(H.After(g), a), b), c), d)
  {
    assert g + [a, b, c, d] == (((g + [a]) + [b]) + [c]) + [d];
    H.AfterCall(g, a);
    H.AfterCall(g + [a], b);
    H.AfterCall((g + [a]) + [b], c);
    H.AfterCall(((g + [a]) + [b]) + [c], d);
  }

  /** Its four calls leave what an aborted creation leaves. */
  lemma StandIn(s: NodeState, users: set<nat>, name: Text, x: nat)
    requires x !in users && x !in ListenersOf(s, name) && name !in s.queues
    ensures var made := CreateQueue(s, users + {x}, name, x);
            && made.Some?
            && var left := ChangeSubscription(made.value, users + {x}, Unsubscribe, SubscriptionParams(name, []), x);
               left.Some? && Equiv(left.value, StoreQueue(s, name))
  {
    var made := CreateQueue(s, users + {x}, name, x).value;
    var left := ChangeSubscription(made, users + {x}, Unsubscribe, SubscriptionParams(name, []), x).value;
    var owner := Listener(true, false, SubscriptionParams(name, []));
    var ls := ListenersOf(s, name);
    assert made.subs == s.subs[name := ls[x := owner]];
    assert ls[x := owner] - {x} == ls;
    forall q ensures ListenersOf(left, q) == ListenersOf(StoreQueue(s, name), q) {
    }
  }

  lemma StandInFor(g: seq<H.Event>, w: H.World, name: Text) returns (es: seq<H.Event>)
    requires H.After(g).users == w.users && Equiv(H.After(g).node, w.node)
    ensures H.Complete(es)
    ensures var v, w' := H.After(g + es), H.Apply(w, H.Orphan(name)); v.users == w'.users && Equiv(v.node, w'.node)
  {
    var s := H.After(g).node;
    if name in s.queues {
      es := [];
      assert g + es == g;
    } else {
      var x := FreshId(w.users + ListenersOf(s, name).Keys);
      es := Stand(name, x);
      StandIn(s, w.users, name, x);
      FourCalls(g, es[0], es[1], es[2], es[3]);
      assert es == [es[0], es[1], es[2], es[3]];
      assert w.users + {x} - {x} == w.users;
      StoreKeepsEquiv(s, w.node, name);
    }
  }

  lemma StoreKeepsEquiv(a: NodeState, b: NodeState, name: Text)
    requires Equiv(a, b)
    ensures Equiv(StoreQueue(a, name), StoreQueue(b, name))
  {
    assert forall q :: ListenersOf(StoreQueue(a, name), q) == ListenersOf(a, q) && ListenersOf(StoreQueue(b, name), q) == ListenersOf(b, q);
  }

  /** Every history is matched by one whose calls all ran to their end. */
  lemma {:induction false} CompleteMatch(h: seq<H.Event>) returns (g: seq<H.Event>)
    ensures H.Complete(g) && H.After(g).users == H.After(h).users && Equiv(H.After(g).node, H.After(h).node)
  {
    if h == [] {
      g := [];
    } else {
      var n := |h| - 1;
      g := CompleteMatch(h[..n]);
      if h[n].Orphan? {
        var es := StandInFor(g, H.After(h[..n]), h[n].name);
        g := g + es;
      } else {
        CallKeepsEquiv(H.After(g), H.After(h[..n]), h[n]);
        H.AfterCall(g, h[n]);
        g := g + [h[n]];
      }
    }
  }

  /** No interleaving reaches a state that atomic calls could not: at rest, users and broker are those of
   *  some history of calls that ran to their end (not always of the calls that were made). */
  lemma InterleavingsReachNothingNew(rx: Engine, run: seq<Step>) returns (g: seq<H.Event>)
    requires RunLocks(Start(rx), run).Some? && NoWriterQ(RunLocks(Start(rx), run).value)
    ensures var st := RunLocks(Start(rx), run).value;
            H.Complete(g) && st.users == H.After(g).users && Equiv(st.node, H.After(g).node)
  {
    InterleavingsAreAtomic(rx, run);
    g := CompleteMatch(Linearize(Start(rx), run));
  }
}
