/** Who receives a message published while other calls are under way. */
module LockedDelivery {
  import opened Basics
  import opened NodeCore
  import opened NodeLocks
  import opened Linearization
  import H = History

  /** The history without call `k`. */
  function Without(h: seq<H.Event>, k: nat): seq<H.Event>
    requires k < |h|
  {
    h[..k] + h[k + 1..]
  }

  predicate UserEvents(es: seq<H.Event>) {
    forall e :: e in es ==> e.AddUser? || e.DropUser?
  }

  lemma {:induction false} UserEventsKeepNode(h: seq<H.Event>, es: seq<H.Event>)
    requires UserEvents(es)
    ensures H.After(h + es).node == H.After(h).node
    decreases |es|
  {
    if es == [] {
      assert h + es == h;
    } else {
      var n := |es| - 1;
      assert h + es == (h + es[..n]) + [es[n]];
      H.AfterCall(h + es[..n], es[n]);
      UserEventsKeepNode(h, es[..n]);
    }
  }

  /** The broker as it was before the change that a checked thread has yet to record. */
  function Before(s: NodeState, t: Thread): NodeState
    requires t.ChangeChecked?
  {
    Settle(s, ChangeLocked(t.action, t.settings, t.id))
  }

  /** Call `k` is the change thread `t` has yet to record; since then users came and went. */
  ghost predicate PendingAt(h: seq<H.Event>, k: nat, s: NodeState, t: Thread) {
    && t.ChangeChecked? && k < |h|
    && h[k] == (if t.action.Create? then H.MakeQueue(t.settings.queueName, t.id) else H.Change(t.action, t.settings, t.id))
    && UserEvents(h[k + 1..]) && Equiv(H.After(h[..k]).node, Before(s, t))
  }

  ghost predicate Pends(h: seq<H.Event>, s: NodeState, t: Thread) {
    t.ChangeChecked? ==> exists k: nat :: PendingAt(h, k, s, t)
  }

  ghost predicate PendingInv(st: State, h: seq<H.Event>) {
    forall i :: 0 <= i < |st.threads| ==> Pends(h, st.node, st.threads[i])
  }

  lemma ListenersBefore(h: seq<H.Event>, k: nat, s: NodeState, t: Thread, q: Text)
    requires PendingAt(h, k, s, t)
    ensures ListenersOf(H.After(Without(h, k)).node, q) == ListenersOf(s, q)
  {
    UserEventsKeepNode(h[..k], h[k + 1..]);
    assert ListenersOf(H.After(h[..k]).node, q) == ListenersOf(Before(s, t), q);
  }

  /** A pending change stays pending while only users come and go and maps are touched. */
  lemma StaysPending(h: seq<H.Event>, e: seq<H.Event>, s: NodeState, s': NodeState, t: Thread)
    requires Pends(h, s, t) && UserEvents(e) && Equiv(s, s')
    ensures Pends(h + e, s', t)
  {
    if t.ChangeChecked? {
      var k: nat :| PendingAt(h, k, s, t);
      var h' := h + e;
      assert h'[..k] == h[..k] && h'[k + 1..] == h[k + 1..] + e;
      SettleRespectsEquiv(s, s', ChangeLocked(t.action, t.settings, t.id));
      assert Equiv(Before(s, t), Before(s', t));
      assert PendingAt(h', k, s', t);
    }
  }

  /** Passing the second check makes the change pending. */
  lemma BecomesPending(h: seq<H.Event>, e: H.Event, s: NodeState, t: Thread)
    requires t.ChangeChecked? && Equiv(H.After(h).node, Before(s, t))
    requires e == (if t.action.Create? then H.MakeQueue(t.settings.queueName, t.id) else H.Change(t.action, t.settings, t.id))
    ensures Pends(h + [e], s, t)
  {
    var h' := h + [e];
    assert h'[..|h|] == h && h'[|h| + 1..] == [];
    assert PendingAt(h', |h|, s, t);
  }

  /** While a thread is checked, others only touch maps and bring or take users. */
  lemma OthersOnlyTouch(st: State, i: nat, q: Text, j: nat)
    requires Wf(st) && Exclusive(st.threads) && CanMove(st, i, q) && j < |st.threads| && j != i && st.threads[j].ChangeChecked?
    ensures Equiv(st.node, Move(st, i, q).node) && UserEvents(EventOf(st, Moves(i, q)))
  {
    assert Apart(st.threads[i], st.threads[j]) && Apart(st.threads[j], st.threads[i]);
  }

  lemma MoveKeepsPending(st: State, h: seq<H.Event>, i: nat, q: Text, j: nat)
    requires Wf(st) && Exclusive(st.threads) && Linear(st, h) && PendingInv(st, h) && CanMove(st, i, q) && j < |st.threads|
    ensures Pends(h + EventOf(st, Moves(i, q)), Move(st, i, q).node, Move(st, i, q).threads[j])
  {
    var t', e := Move(st, i, q).threads[j], EventOf(st, Moves(i, q));
    if t'.ChangeChecked? {
      if i == j {
        assert WritesQ(st.threads[i]);
        BecomesPending(h, e[0], st.node, t');
        assert e == [e[0]];
      } else {
        OthersOnlyTouch(st, i, q, j);
        assert Pends(h, st.node, st.threads[j]);
        StaysPending(h, e, st.node, Move(st, i, q).node, t');
      }
    }
  }

  lemma StepKeepsPending(st: State, h: seq<H.Event>, s: Step)
    requires Wf(st) && Exclusive(st.threads) && Linear(st, h) && PendingInv(st, h) && CanStep(st, s)
    ensures PendingInv(After(st, s), h + EventOf(st, s))
  {
    var st' := After(st, s);
    forall j: nat | j < |st'.threads| ensures Pends(h + EventOf(st, s), st'.node, st'.threads[j]) {
      if s.Moves? {
        MoveKeepsPending(st, h, s.i, s.q, j);
      } else if j < |st.threads| {
        assert Pends(h, st.node, st.threads[j]);
        StaysPending(h, EventOf(st, s), st.node, st.node, st.threads[j]);
      }
    }
  }

  /** The state, its linearized history and its pending change fit together. */
  ghost predicate Tracks(st: State, h: seq<H.Event>) {
    LockInv(st) && Linear(st, h) && PendingInv(st, h)
  }

  lemma StepTracks(st: State, h: seq<H.Event>, s: Step)
    requires Tracks(st, h) && CanStep(st, s)
    ensures Tracks(After(st, s), h + EventOf(st, s))
  {
    StepKeepsLockInv(st, s);
    StepIsLinear(st, h, s);
    StepKeepsPending(st, h, s);
  }

  lemma {:induction false} RunTracks(st: State, h: seq<H.Event>, run: seq<Step>)
    requires Tracks(st, h) && RunLocks(st, run).Some?
    ensures Tracks(RunLocks(st, run).value, h + Linearize(st, run))
    decreases |run|
  {
    if run == [] {
      assert h + [] == h;
    } else {
      StepKeepsBasics(st, run[0]);
      StepTracks(st, h, run[0]);
      RunTracks(After(st, run[0]), h + EventOf(st, run[0]), run[1..]);
      Regroup(h, EventOf(st, run[0]), Linearize(After(st, run[0]), run[1..]));
    }
  }

  lemma ReachableTracks(rx: Engine, run: seq<Step>)
    requires RunLocks(Start(rx), run).Some?
    ensures Tracks(RunLocks(Start(rx), run).value, Linearize(Start(rx), run))
  {
    StartIsLinear(rx);
    RunTracks(Start(rx), [], run);
    assert [] + Linearize(Start(rx), run) == Linearize(Start(rx), run);
  }

  // ---------------------------------------------------------------- the copy

  /** `g` is the history `h`, or `h` without the one change a thread holding Q has yet to record. */
  ghost predicate UpToPending(st: State, h: seq<H.Event>, g: seq<H.Event>) {
    if forall j :: 0 <= j < |st.threads| ==> !st.threads[j].ChangeChecked? then g == h
    else exists j: nat, k: nat :: j < |st.threads| && PendingAt(h, k, st.node, st.threads[j]) && g == Without(h, k)
  }

  /** Without a pending change a reader of S sees the listeners of the history. */
  lemma ReaderSeesHistory(st: State, h: seq<H.Event>, i: nat, q: Text)
    requires Tracks(st, h) && i < |st.threads| && ReadsS(st.threads[i])
    requires forall j :: 0 <= j < |st.threads| ==> !st.threads[j].ChangeChecked?
    ensures ListenersOf(st.node, q) == ListenersOf(H.After(h).node, q)
  {
    if j :| 0 <= j < |st.threads| && WritesQ(st.threads[j]) {
      assert i != j && Apart(st.threads[i], st.threads[j]);
      assert ListenersOf(H.After(h).node, q) == ListenersOf(Settle(st.node, st.threads[j]), q);
    } else {
      assert NoWriterQ(st);
    }
  }

  lemma CopyIsOfHistory(st: State, h: seq<H.Event>, i: nat, q: Text) returns (g: seq<H.Event>)
    requires Tracks(st, h) && i < |st.threads| && ReadsS(st.threads[i])
    ensures UpToPending(st, h, g) && ListenersOf(st.node, q) == ListenersOf(H.After(g).node, q)
  {
    if j :| 0 <= j < |st.threads| && st.threads[j].ChangeChecked? {
      assert Pends(h, st.node, st.threads[j]);
      var k: nat :| PendingAt(h, k, st.node, st.threads[j]);
      g := Without(h, k);
      ListenersBefore(h, k, st.node, st.threads[j], q);
    } else {
      g := h;
      ReaderSeesHistory(st, h, i, q);
    }
  }

  /** After `g`, client `id` has a subscription in force that accepts the message, and no client up to it
   *  has one whose pattern does not compile. */
  ghost predicate Selects(rx: Engine, g: seq<H.Event>, params: PublishParams, id: nat) {
    && H.Receives(rx, g, params.queueName, id, params.tag)
    && forall other: nat :: other <= id ==> !H.Breaks(rx, g, params.queueName, other)
  }

  /** `ids` are, ascending, the clients that `g` selects for the message. */
  ghost predicate SelectedBy(rx: Engine, g: seq<H.Event>, params: PublishParams, ids: seq<nat>) {
    StrictlyAscending(ids) && forall id: nat :: id in ids <==> Selects(rx, g, params, id)
  }

  lemma TargetsAreSelected(rx: Engine, g: seq<H.Event>, params: PublishParams)
    ensures SelectedBy(rx, g, params, Ascending(TargetSet(rx, ListenersOf(H.After(g).node, params.queueName), params.tag)))
  {
    var q := params.queueName;
    var ls := ListenersOf(H.After(g).node, q);
    forall id: nat
      ensures id in ls && Wanted(rx, ls[id], params.tag) <==> H.Receives(rx, g, q, id, params.tag)
      ensures id in ls && Bad(rx, ls[id]) <==> H.Breaks(rx, g, q, id)
    {
      H.EntryReadOffHistory(rx, g, q, id, params.tag);
    }
  }

  /** What thread `i`, about to copy the listeners of its queue, will send, according to `g`. */
  ghost predicate DeliversAfter(st: State, i: nat, g: seq<H.Event>)
    requires Wf(st) && i < |st.threads| && st.threads[i].PubReading?
  {
    var params, t' := st.threads[i].params, Move(st, i, []).threads[i];
    && t'.PubSending? && t'.copy == ListenersOf(H.After(g).node, params.queueName)
    && SelectedBy(st.rx, g, params, t'.left)
    && (t'.left == Targets(st.rx, H.After(g).node, params) <==>
          params.queueName in H.After(g).node.queues || forall id: nat :: !Selects(st.rx, g, params, id))
  }

  lemma CopyDelivers(st: State, h: seq<H.Event>, i: nat) returns (g: seq<H.Event>)
    requires Tracks(st, h) && i < |st.threads| && st.threads[i].PubReading?
    ensures UpToPending(st, h, g) && DeliversAfter(st, i, g)
  {
    g := CopyIsOfHistory(st, h, i, st.threads[i].params.queueName);
    TargetsAreSelected(st.rx, g, st.threads[i].params);
    var ids := Move(st, i, []).threads[i].left;
    assert ids == [] <==> forall id: nat :: !Selects(st.rx, g, st.threads[i].params, id) by {
      assert ids != [] ==> ids[0] in ids;
    }
  }

  /** A publish that copies the listeners while other calls run sends to the clients selected by the
   *  linearized history, less the change that the holder of Q has yet to record. Only the earlier
   *  existence check can disagree: the sends are those of an atomic publish after that history exactly
   *  when the queue still exists in it, or nobody is selected. */
  lemma ConcurrentDeliveryFollowsHistory(rx: Engine, run: seq<Step>, i: nat) returns (g: seq<H.Event>)
    requires RunLocks(Start(rx), run).Some?
    requires var st := RunLocks(Start(rx), run).value; i < |st.threads| && st.threads[i].PubReading?
    ensures var st := RunLocks(Start(rx), run).value;
            UpToPending(st, Linearize(Start(rx), run), g) && DeliversAfter(st, i, g)
  {
    ReachableTracks(rx, run);
    g := CopyDelivers(RunLocks(Start(rx), run).value, Linearize(Start(rx), run), i);
  }

  /** At rest, check and copy agree with the history. */
  lemma QuietDeliveryFollowsHistory(rx: Engine, run: seq<Step>, params: PublishParams)
    requires RunLocks(Start(rx), run).Some? && NoWriterQ(RunLocks(Start(rx), run).value)
    ensures var st := RunLocks(Start(rx), run).value;
            Targets(rx, st.node, params) == Targets(rx, H.After(Linearize(Start(rx), run)).node, params)
  {
    InterleavingsAreAtomic(rx, run);
    var a, b := RunLocks(Start(rx), run).value.node, H.After(Linearize(Start(rx), run)).node;
    assert ListenersOf(a, params.queueName) == ListenersOf(b, params.queueName);
  }

  // ---------------------------------------------------------------- the existence check

  /** A queue that is stored and not yet owned, or erased by the history and not yet by the loop. */
  predicate HalfThere(s: NodeState, t: Thread, q: Text) {
    || (t.ChangeLocked? && t.action.Create? && t.settings.queueName == q)
    || (t.DropErasing? && q in t.todo && Doomed(s, q, t.id))
  }

  /** The check of `publish` finds every queue of the history, and besides only queues half there. */
  lemma CheckFollowsHistory(rx: Engine, run: seq<Step>, q: Text)
    requires RunLocks(Start(rx), run).Some?
    ensures var st, w := RunLocks(Start(rx), run).value, H.After(Linearize(Start(rx), run));
            && (q in w.node.queues ==> q in st.node.queues)
            && (q in st.node.queues ==>
                  (q !in w.node.queues <==> exists j :: 0 <= j < |st.threads| && HalfThere(st.node, st.threads[j], q)))
  {
    var st, h := RunLocks(Start(rx), run).value, Linearize(Start(rx), run);
    ReachableTracks(rx, run);
    CheckAgainst(st, h, q);
  }

  lemma CheckAgainst(st: State, h: seq<H.Event>, q: Text)
    requires Tracks(st, h)
    ensures q in H.After(h).node.queues ==> q in st.node.queues
    ensures q in st.node.queues ==>
              (q !in H.After(h).node.queues <==> exists j :: 0 <= j < |st.threads| && HalfThere(st.node, st.threads[j], q))
  {
    if j :| 0 <= j < |st.threads| && WritesQ(st.threads[j]) {
      assert H.After(h).node.queues == Settle(st.node, st.threads[j]).queues;
      assert forall i :: 0 <= i < |st.threads| && i != j ==> Apart(st.threads[j], st.threads[i]);
      assert HalfThere(st.node, st.threads[j], q) ==> q !in H.After(h).node.queues;
    } else {
      assert NoWriterQ(st);
    }
  }
}
