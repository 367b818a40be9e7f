/** Runs of the locked broker: every call taken alone is the atomic call, and what interleaving adds. */
module Interleavings {
  import opened Basics
  import opened NodeCore
  import opened NodeLocks
  import opened QueueMaps
  import opened Connections
  import H = History

  /** Some run ends in `st`. */
  ghost predicate Reached(rx: Engine, st: State) {
    exists run :: RunLocks(Start(rx), run) == Some(st)
  }

  lemma {:induction false} RunSnoc(st: State, run: seq<Step>, s: Step)
    requires Wf(st) && Exclusive(st.threads) && RunLocks(st, run).Some? && CanStep(RunLocks(st, run).value, s)
    ensures RunLocks(st, run + [s]) == Some(After(RunLocks(st, run).value, s))
    decreases |run|
  {
    if run == [] {
      StepKeepsBasics(st, s);
      assert [s][1..] == [];
    } else {
      StepKeepsBasics(st, run[0]);
      RunSnoc(After(st, run[0]), run[1..], s);
      assert (run + [s])[1..] == run[1..] + [s];
    }
  }

  lemma StartReached(rx: Engine)
    ensures Reached(rx, Start(rx))
  {
    assert RunLocks(Start(rx), []) == Some(Start(rx));
  }

  lemma Continue(rx: Engine, st: State, s: Step)
    requires Reached(rx, st) && CanStep(st, s)
    ensures Wf(st) && Reached(rx, After(st, s))
  {
    var run :| RunLocks(Start(rx), run) == Some(st);
    RunSnoc(Start(rx), run, s);
  }

  // ---------------------------------------------------------------- calls taken alone

  /** No thread holds a lock. */
  ghost predicate Idle(ts: seq<Thread>) {
    forall i :: 0 <= i < |ts| ==>
      !WritesQ(ts[i]) && !ReadsQ(ts[i]) && !WritesS(ts[i]) && !ReadsS(ts[i]) && !HoldsC(ts[i])
  }

  /** `st` with one more thread. */
  function Plus(st: State, t: Thread): State {
    st.(threads := st.threads + [t])
  }

  /** With only idle company, the last thread can take the locks it needs. */
  lemma Proceed(rx: Engine, st: State, t: Thread, q: Text, st': State, t': Thread)
    requires Idle(st.threads) && Reached(rx, Plus(st, t)) && !Finished(t)
    requires (t.DescLocked? || t.DropErasing?) && t.todo != {} ==> q in t.todo
    requires st'.threads == st.threads
    requires Wf(Plus(st, t)) && CanMove(Plus(st, t), |st.threads|, q) ==>
               Move(Plus(st, t), |st.threads|, q) == With(Plus(st', t), |st.threads|, t')
    ensures Reached(rx, Plus(st', t'))
  {
    assert CanMove(Plus(st, t), |st.threads|, q);
    Continue(rx, Plus(st, t), Moves(|st.threads|, q));
    assert (st.threads + [t])[|st.threads| := t'] == st.threads + [t'];
  }

  lemma Begin(rx: Engine, st: State, t: Thread)
    requires Reached(rx, st) && MayStart(st, t) && !t.DropStart?
    ensures Reached(rx, Plus(st, t))
  {
    Continue(rx, st, Starts(t));
  }

  /** What accepting a connection numbered `id` leaves. */
  function Joined(st: State, id: nat): State {
    st.(users := st.users + {id}, conns := st.conns + {id}, used := st.used + {id}, started := st.started + {id})
  }

  lemma ListAlone(rx: Engine, st: State, id: nat)
    requires Idle(st.threads) && Reached(rx, Plus(st, AcceptUser(id)))
    ensures Reached(rx, Plus(st.(started := st.started + {id}, conns := st.conns + {id}), Done))
  {
    var started := st.(started := st.started + {id});
    Proceed(rx, st, AcceptUser(id), [], started, AcceptHolding(id));
    Proceed(rx, started, AcceptHolding(id), [], started.(conns := st.conns + {id}), Done);
  }

  lemma ConnectAlone(rx: Engine, st: State, id: nat)
    requires Idle(st.threads) && Reached(rx, st) && id != SERVER_ID && id !in st.used
    ensures Reached(rx, Plus(Joined(st, id), Done))
  {
    var numbered := st.(used := st.used + {id});
    Continue(rx, st, Connects(id));
    Proceed(rx, numbered, AcceptStart(id), [], numbered.(users := st.users + {id}), AcceptUser(id));
    ListAlone(rx, numbered.(users := st.users + {id}), id);
  }

  lemma LeaveAlone(rx: Engine, st: State)
    requires Idle(st.threads) && Reached(rx, Plus(st, HoldsBoth))
    ensures Reached(rx, Plus(st, Done))
  {
    Proceed(rx, st, HoldsBoth, [], st, Leaving);
    Proceed(rx, st, Leaving, [], st, Done);
  }

  lemma FinishChange(rx: Engine, st: State, action: Action, settings: SubscriptionParams, id: nat)
    requires Idle(st.threads) && Reached(rx, Plus(st, ChangeLocked(action, settings, id)))
    requires id in st.users && (settings.queueName in st.node.queues || !action.Unsubscribe?)
    ensures Reached(rx, Plus(st.(node := RecordChange(st.node, action, settings, id)), Done))
  {
    var st' := st.(node := RecordChange(st.node, action, settings, id));
    Proceed(rx, st, ChangeLocked(action, settings, id), [], st, ChangeChecked(action, settings, id));
    Proceed(rx, st, ChangeChecked(action, settings, id), [], st, ChangeReady(action, settings, id));
    Proceed(rx, st, ChangeReady(action, settings, id), [], st', HoldsBoth);
    LeaveAlone(rx, st');
  }

  lemma RefuseChange(rx: Engine, st: State, action: Action, settings: SubscriptionParams, id: nat)
    requires Idle(st.threads) && Reached(rx, Plus(st, ChangeLocked(action, settings, id))) && !action.Create?
    requires id !in st.users || (settings.queueName !in st.node.queues && action.Unsubscribe?)
    ensures Reached(rx, Plus(st, Done))
  {
    Proceed(rx, st, ChangeLocked(action, settings, id), [], st, Leaving);
    Proceed(rx, st, Leaving, [], st, Done);
  }

  /** A change of subscription taken alone is the atomic call, whether it succeeds, throws or has no effect. */
  lemma ChangeAlone(rx: Engine, st: State, action: Action, settings: SubscriptionParams, id: nat)
    requires Idle(st.threads) && Reached(rx, st) && !action.Create? && Known(st, id)
    ensures Reached(rx, Plus(st.(node := H.OrElse(ChangeSubscription(st.node, st.users, action, settings, id), st.node)), Done))
  {
    Begin(rx, st, ChangeStart(action, settings, id));
    Proceed(rx, st, ChangeStart(action, settings, id), [], st, ChangeLocked(action, settings, id));
    if id !in st.users || (settings.queueName !in st.node.queues && action.Unsubscribe?) {
      RefuseChange(rx, st, action, settings, id);
    } else {
      FinishChange(rx, st, action, settings, id);
    }
  }

  /** Creating a queue, up to the lock. */
  lemma EnterCreate(rx: Engine, st: State, name: Text, id: nat)
    requires Idle(st.threads) && Reached(rx, st) && Known(st, id) && id in st.users
    ensures Reached(rx, Plus(st, CreateLocked(name, id)))
  {
    Begin(rx, st, CreateStart(name, id));
    Proceed(rx, st, CreateStart(name, id), [], st, CreateVetted(name, id));
    Proceed(rx, st, CreateVetted(name, id), [], st, CreateLocked(name, id));
  }

  /** ... and of a new queue up to the second check. */
  lemma HalfCreate(rx: Engine, st: State, name: Text, id: nat)
    requires Idle(st.threads) && Reached(rx, st) && Known(st, id) && id in st.users && name !in st.node.queues
    ensures Reached(rx, Plus(st.(node := StoreQueue(st.node, name)), ChangeLocked(Create, SubscriptionParams(name, []), id)))
  {
    EnterCreate(rx, st, name, id);
    Proceed(rx, st, CreateLocked(name, id), [], st.(node := StoreQueue(st.node, name)),
            ChangeLocked(Create, SubscriptionParams(name, []), id));
  }

  lemma RefuseCreate(rx: Engine, st: State, name: Text, id: nat)
    requires Idle(st.threads) && Reached(rx, st) && Known(st, id) && id !in st.users
    ensures Reached(rx, Plus(st, Done))
  {
    Begin(rx, st, CreateStart(name, id));
    Proceed(rx, st, CreateStart(name, id), [], st, Done);
  }

  lemma CreateAgain(rx: Engine, st: State, name: Text, id: nat)
    requires Idle(st.threads) && Reached(rx, st) && Known(st, id) && id in st.users && name in st.node.queues
    ensures Reached(rx, Plus(st.(node := Resettle(st.node, name)), Done))
  {
    var st' := st.(node := Resettle(st.node, name));
    EnterCreate(rx, st, name, id);
    Proceed(rx, st, CreateLocked(name, id), [], st', Leaving);
    Proceed(rx, st', Leaving, [], st', Done);
  }

  /** Creating a queue alone is the atomic call: refused, repeated or new. */
  lemma CreateAlone(rx: Engine, st: State, name: Text, id: nat)
    requires Idle(st.threads) && Reached(rx, st) && Known(st, id)
    ensures Reached(rx, Plus(st.(node := H.OrElse(CreateQueue(st.node, st.users, name, id), st.node)), Done))
  {
    if id !in st.users {
      RefuseCreate(rx, st, name, id);
    } else if name in st.node.queues {
      CreateAgain(rx, st, name, id);
    } else {
      HalfCreate(rx, st, name, id);
      FinishChange(rx, st.(node := StoreQueue(st.node, name)), Create, SubscriptionParams(name, []), id);
    }
  }

  lemma {:induction false} EraseLoop(rx: Engine, st: State, id: nat, todo: set<Text>)
    requires Idle(st.threads) && Reached(rx, Plus(st, DropErasing(id, todo))) && todo <= st.node.subs.Keys
    ensures Reached(rx, Plus(st.(node := EraseIn(st.node, id, todo)), DropErasing(id, {})))
    decreases |todo|
  {
    if todo == {} {
      EraseInNone(st.node, id);
    } else {
      var q :| q in todo;
      var st' := st.(node := EraseFrom(st.node, q, id));
      Proceed(rx, st, DropErasing(id, todo), q, st', DropErasing(id, todo - {q}));
      EraseLoop(rx, st', id, todo - {q});
      RoundBefore(st.node, id, todo, q);
    }
  }

  /** What the disconnect of `id` leaves. */
  function Dropped(st: State, id: nat): State {
    st.(users := st.users - {id}, conns := st.conns - {id}, closed := st.closed + {id}, gone := st.gone + {id},
        node := EraseClient(st.node, id))
  }

  lemma EraseAlone(rx: Engine, st: State, id: nat)
    requires Idle(st.threads) && Reached(rx, Plus(st, DropErased(id)))
    ensures Reached(rx, Plus(st.(node := EraseClient(st.node, id)), DropErasing(id, {})))
  {
    Proceed(rx, st, DropErased(id), [], st, DropErasing(id, st.node.subs.Keys));
    EraseLoop(rx, st, id, st.node.subs.Keys);
    EraseInAll(st.node, id);
  }

  lemma UnlockAlone(rx: Engine, st: State, id: nat)
    requires Idle(st.threads) && Reached(rx, Plus(st, DropErasing(id, {})))
    ensures Reached(rx, Plus(st, DropLeaving(id)))
  {
    Proceed(rx, st, DropErasing(id, {}), [], st, DropBoth(id));
    Proceed(rx, st, DropBoth(id), [], st, DropLeaving(id));
  }

  lemma ReleaseAlone(rx: Engine, st: State, id: nat)
    requires Idle(st.threads) && Reached(rx, Plus(st, DropErasing(id, {})))
    ensures Reached(rx, Plus(st.(conns := st.conns - {id}, gone := st.gone + {id}), Done))
  {
    UnlockAlone(rx, st, id);
    Proceed(rx, st, DropLeaving(id), [], st, DropLast(id));
    Proceed(rx, st, DropLast(id), [], st.(conns := st.conns - {id}, gone := st.gone + {id}), Done);
  }

  lemma DropAlone(rx: Engine, st: State, id: nat)
    requires Idle(st.threads) && Reached(rx, st) && id in st.started && id in st.conns && id in st.users && id !in st.closed
    ensures Reached(rx, Plus(Dropped(st, id), Done))
  {
    var closing := st.(closed := st.closed + {id});
    var left := closing.(users := st.users - {id});
    Continue(rx, st, Starts(DropStart(id)));
    Proceed(rx, closing, DropStart(id), [], closing, DropHolding(id));
    Proceed(rx, closing, DropHolding(id), [], left, DropErased(id));
    EraseAlone(rx, left, id);
    ReleaseAlone(rx, left.(node := EraseClient(st.node, id)), id);
  }

  lemma CheckAlone(rx: Engine, st: State, params: PublishParams)
    requires Reached(rx, st) && Idle(st.threads) && params.queueName in st.node.queues
    ensures Reached(rx, Plus(st, PubWaiting(params)))
  {
    Begin(rx, st, PubStart(params));
    Proceed(rx, st, PubStart(params), [], st, PubWaiting(params));
  }

  lemma CopyAlone(rx: Engine, st: State, params: PublishParams)
    requires Idle(st.threads) && Reached(rx, Plus(st, PubWaiting(params)))
    ensures var copy := ListenersOf(st.node, params.queueName);
            Reached(rx, Plus(st.(node := Touch(st.node, params.queueName)),
                             PubSending(params, copy, Ascending(TargetSet(st.rx, copy, params.tag)), [])))
  {
    var copy := ListenersOf(st.node, params.queueName);
    Proceed(rx, st, PubWaiting(params), [], st, PubReading(params));
    Proceed(rx, st, PubReading(params), [], st.(node := Touch(st.node, params.queueName)),
            PubSending(params, copy, Ascending(TargetSet(st.rx, copy, params.tag)), []));
  }

  lemma ReachedInv(rx: Engine, st: State)
    requires Reached(rx, st)
    ensures LockInv(st) && ConnInv(st) && st.rx == rx
  {
    var run :| RunLocks(Start(rx), run) == Some(st);
    RunKeepsConnInv(Start(rx), run);
  }

  /** The ids of `ids` whose stream was reset. */
  function ResetAmong(st: State, ids: seq<nat>): set<nat> {
    set id | id in ids && id in st.closed && id != SERVER_ID
  }

  lemma {:induction false} SendAlone(rx: Engine, st: State, params: PublishParams, copy: Listeners, left: seq<nat>, sent: seq<nat>)
    requires Idle(st.threads) && Reached(rx, Plus(st, PubSending(params, copy, left, sent))) && SERVER_ID !in st.closed
    requires forall id :: id in left ==> Reaches(st, id)
    ensures Reached(rx, Plus(st.(reset := st.reset + ResetAmong(st, left)), Published(params, copy, sent + left, false)))
    decreases |left|
  {
    if left == [] {
      Proceed(rx, st, PubSending(params, copy, left, sent), [], st, Published(params, copy, sent, false));
      assert sent + left == sent && st.reset + ResetAmong(st, left) == st.reset;
    } else {
      var id := left[0];
      var st' := st.(reset := if id in st.closed then st.reset + {id} else st.reset);
      assert id in left && forall x :: x in left[1..] ==> x in left;
      Proceed(rx, st, PubSending(params, copy, left, sent), [], st', PubSending(params, copy, left[1..], sent + [id]));
      SendAlone(rx, st', params, copy, left[1..], sent + [id]);
      assert (sent + [id]) + left[1..] == sent + left;
      assert st'.reset + ResetAmong(st', left[1..]) == st.reset + ResetAmong(st, left);
    }
  }

  lemma ListenersReached(rx: Engine, st: State, t: Thread, q: Text)
    requires Idle(st.threads) && Reached(rx, Plus(st, t)) && !HoldsC(t)
    ensures forall id :: id in ListenersOf(st.node, q) ==> Reaches(st, id)
    ensures SERVER_ID !in st.closed
  {
    ReachedInv(rx, Plus(st, t));
    forall id | id in ListenersOf(st.node, q) ensures Reaches(st, id) {
      ListenersAreConnected(Plus(st, t), q, id);
    }
  }

  /** A publish taken alone is the atomic call: it sends to all its targets, in order, or, if there is no
   *  such queue, does nothing. */
  lemma PublishAlone(rx: Engine, st: State, params: PublishParams)
    requires Idle(st.threads) && Reached(rx, st)
    ensures var ids := Targets(rx, st.node, params);
            if params.queueName in st.node.queues
            then Reached(rx, Plus(st.(node := Touch(st.node, params.queueName), reset := st.reset + ResetAmong(st, ids)),
                                  Published(params, ListenersOf(st.node, params.queueName), ids, false)))
            else Reached(rx, Plus(st, Done))
  {
    if params.queueName in st.node.queues {
      var ids, copy := Targets(rx, st.node, params), ListenersOf(st.node, params.queueName);
      CheckAlone(rx, st, params);
      ReachedInv(rx, st);
      ListenersReached(rx, st, PubWaiting(params), params.queueName);
      CopyAlone(rx, st, params);
      SendAlone(rx, st.(node := Touch(st.node, params.queueName)), params, copy, ids, []);
      assert [] + ids == ids;
    } else {
      Begin(rx, st, PubStart(params));
      Proceed(rx, st, PubStart(params), [], st, Done);
    }
  }

  // ---------------------------------------------------------------- a creation aborted half way

  /** Beside a creation before its second check, the disconnect of its client erases the user. */
  lemma UserErased(rx: Engine, st: State, t: Thread, id: nat)
    requires Idle(st.threads) && Reached(rx, Plus(st, t)) && t.ChangeLocked?
    requires id in st.started && id in st.conns && id in st.users && id !in st.closed
    ensures var left := st.(closed := st.closed + {id}, users := st.users - {id});
            Reached(rx, Plus(Plus(left, t), DropErased(id)))
  {
    var n, closing := |st.threads| + 1, st.(closed := st.closed + {id});
    Continue(rx, Plus(st, t), Starts(DropStart(id)));
    var st1 := Plus(Plus(closing, t), DropStart(id));
    Continue(rx, st1, Moves(n, []));
    var st2 := Plus(Plus(closing, t), DropHolding(id));
    assert With(st1, n, DropHolding(id)).threads == st2.threads;
    Continue(rx, st2, Moves(n, []));
    assert With(st2, n, DropErased(id)).threads == Plus(Plus(closing, t), DropErased(id)).threads;
  }

  /** ... and the second check fails, after which the creation ends. */
  lemma CreationGivesUp(rx: Engine, st: State, name: Text, id: nat)
    requires Idle(st.threads) && id !in st.users
    requires Reached(rx, Plus(Plus(st, ChangeLocked(Create, SubscriptionParams(name, []), id)), DropErased(id)))
    ensures Reached(rx, Plus(Plus(st.(aborted := st.aborted + {name}), Done), DropErased(id)))
  {
    var n, gave := |st.threads|, st.(aborted := st.aborted + {name});
    var st1 := Plus(Plus(st, ChangeLocked(Create, SubscriptionParams(name, []), id)), DropErased(id));
    var st2 := Plus(Plus(gave, Leaving), DropErased(id));
    Continue(rx, st1, Moves(n, []));
    assert With(st1, n, Leaving).threads == st2.threads;
    Continue(rx, st2, Moves(n, []));
    assert With(st2, n, Done).threads == Plus(Plus(gave, Done), DropErased(id)).threads;
  }

  /** What is left when client `id` disconnects during its creation of `name`. */
  function Abandoned(st: State, name: Text, id: nat): State {
    Dropped(st.(node := StoreQueue(st.node, name), aborted := st.aborted + {name}), id)
  }

  lemma AbortCreation(rx: Engine, st: State, name: Text, id: nat)
    requires Idle(st.threads) && Reached(rx, st) && name !in st.node.queues
    requires id in st.started && id in st.conns && id in st.users && id !in st.closed
    ensures Reached(rx, Plus(Plus(Abandoned(st, name, id), Done), Done))
  {
    var stored := st.(node := StoreQueue(st.node, name));
    HalfCreate(rx, st, name, id);
    UserErased(rx, stored, ChangeLocked(Create, SubscriptionParams(name, []), id), id);
    var left := stored.(closed := st.closed + {id}, users := st.users - {id});
    CreationGivesUp(rx, left, name, id);
    var gave := Plus(left.(aborted := st.aborted + {name}), Done);
    EraseAlone(rx, gave, id);
    ReleaseAlone(rx, gave.(node := EraseClient(stored.node, id)), id);
  }

}
