/** Lock-level runs of the broker against atomic calls: every interleaving is equivalent to a history. */
module Linearization {
  import opened Basics
  import opened NodeCore
  import opened NodeLocks
  import opened QueueMaps
  import H = History

  /** Two broker states that differ at most in empty listener maps stored under missing keys. */
  ghost predicate Equiv(a: NodeState, b: NodeState) {
    a.queues == b.queues && a.nextQueueId == b.nextQueueId && forall q :: ListenersOf(a, q) == ListenersOf(b, q)
  }

  /** The state before a queue was stored by a creation that has yet to record its owner. */
  function Unplace(s: NodeState, q: Text): NodeState {
    s.(queues := s.queues - {q}, nextQueueId := if s.nextQueueId == 0 then 0 else s.nextQueueId - 1)
  }

  /** The state as it is once the exclusive section `t` is in has run to its end. */
  function Settle(s: NodeState, t: Thread): NodeState {
    match t
    case ChangeChecked(action, settings, id) => RecordChange(s, action, settings, id)
    case ChangeReady(action, settings, id) => RecordChange(s, action, settings, id)
    case ChangeLocked(action, settings, _) => if action.Create? then Unplace(s, settings.queueName) else s
    case DropErasing(id, todo) => EraseIn(s, id, todo)
    case _ => s
  }

  /** A creation is under way: the queue is stored, its owner is not. */
  ghost predicate CreatesOk(s: NodeState, t: Thread) {
    && (t.ChangeStart? ==> !t.action.Create?)
    && (t.ChangeLocked? && t.action.Create? ==>
          && 0 < s.nextQueueId
          && t.settings == SubscriptionParams(t.settings.queueName, [])
          && t.settings.queueName in s.queues
          && s.queues[t.settings.queueName] == Queue(s.nextQueueId - 1, t.settings.queueName))
  }

  /** The thread's next step leaves its exclusive section of Q. */
  predicate Leaves(t: Thread) {
    t.Leaving? || t.DropLeaving?
  }

  /** The lock-level state `st` stands for the atomic calls `h`. */
  ghost predicate Linear(st: State, h: seq<H.Event>) {
    && H.After(h).users == st.users
    && (forall i :: 0 <= i < |st.threads| ==> CreatesOk(st.node, st.threads[i]))
    && (forall i :: 0 <= i < |st.threads| && WritesQ(st.threads[i]) ==> Equiv(H.After(h).node, Settle(st.node, st.threads[i])))
    && (NoWriterQ(st) ==> Equiv(H.After(h).node, st.node))
  }

  /** The call a thread makes effective by its checks; a creation that fails them has stored its queue. */
  function CheckEvent(users: set<nat>, s: NodeState, t: Thread): seq<H.Event>
    requires t.ChangeLocked?
  {
    if t.settings.queueName !in s.queues && t.action.Unsubscribe? then []
    else if t.id !in users then (if t.action.Create? then [H.Orphan(t.settings.queueName)] else [])
    else if t.action.Create? then [H.MakeQueue(t.settings.queueName, t.id)]
    else [H.Change(t.action, t.settings, t.id)]
  }

  /** The atomic call that a step makes effective, if any. */
  ghost function EventOf(st: State, s: Step): seq<H.Event>
    requires CanStep(st, s)
  {
    match s
    case Connects(_) => []
    case Starts(_) => []
    case Moves(i, _) =>
      match st.threads[i]
      case ChangeLocked(_, _, _) => CheckEvent(st.users, st.node, st.threads[i])
      case AcceptStart(id) => [H.AddUser(id)]
      case DropHolding(id) => if id in st.users then [H.DropUser(id)] else []
      case DropErased(id) => [H.Erase(id)]
      case _ => []
  }

  /** The users after at most one call. */
  function UsersAfter(users: set<nat>, e: seq<H.Event>): set<nat> {
    if e == [] then users else H.Apply(H.World(users, EMPTY_NODE), e[0]).users
  }

  // ---------------------------------------------------------------- equivalent states behave alike

  lemma RecordRespectsEquiv(a: NodeState, b: NodeState, action: Action, settings: SubscriptionParams, id: nat)
    requires Equiv(a, b)
    ensures Equiv(RecordChange(a, action, settings, id), RecordChange(b, action, settings, id))
  {
    var x, y := RecordChange(a, action, settings, id), RecordChange(b, action, settings, id);
    forall q ensures ListenersOf(x, q) == ListenersOf(y, q) {
      assert ListenersOf(a, q) == ListenersOf(b, q);
    }
  }

  lemma UnplaceRespectsEquiv(a: NodeState, b: NodeState, name: Text)
    requires Equiv(a, b)
    ensures Equiv(Unplace(a, name), Unplace(b, name))
  {
    forall q ensures ListenersOf(Unplace(a, name), q) == ListenersOf(Unplace(b, name), q) {
      assert ListenersOf(a, q) == ListenersOf(b, q);
    }
  }

  lemma SettleRespectsEquiv(a: NodeState, b: NodeState, t: Thread)
    requires Equiv(a, b) && !t.DropErasing?
    ensures Equiv(Settle(a, t), Settle(b, t))
  {
    match t
    case ChangeChecked(action, settings, id) => RecordRespectsEquiv(a, b, action, settings, id);
    case ChangeReady(action, settings, id) => RecordRespectsEquiv(a, b, action, settings, id);
    case ChangeLocked(_, settings, _) => UnplaceRespectsEquiv(a, b, settings.queueName);
    case _ =>
  }

  lemma EraseRespectsEquiv(a: NodeState, b: NodeState, id: nat)
    requires Equiv(a, b)
    ensures Equiv(EraseClient(a, id), EraseIn(b, id, b.subs.Keys))
  {
    var x, y := EraseClient(a, id), EraseIn(b, id, b.subs.Keys);
    forall q ensures Doomed(a, q, id) == (q in b.subs && Doomed(b, q, id)) && ListenersOf(x, q) == ListenersOf(y, q) {
      assert ListenersOf(a, q) == ListenersOf(b, q);
      assert ListenersOf(x, q) == ListenersOf(a, q) - {id};
      assert ListenersOf(y, q) == ListenersOf(b, q) - {id};
    }
    assert x.queues == y.queues;
  }

  lemma ChangeRespectsEquiv(a: NodeState, b: NodeState, users: set<nat>, action: Action, settings: SubscriptionParams, id: nat)
    requires Equiv(a, b) && id in users && (settings.queueName in a.queues || !action.Unsubscribe?)
    ensures var r := ChangeSubscription(a, users, action, settings, id); r.Some? && Equiv(r.value, RecordChange(b, action, settings, id))
  {
    RecordRespectsEquiv(a, b, action, settings, id);
  }

  lemma CreateRespectsEquiv(a: NodeState, b: NodeState, users: set<nat>, settings: SubscriptionParams, id: nat)
    requires CreatesOk(b, ChangeLocked(Create, settings, id)) && id in users
    requires Equiv(a, Unplace(b, settings.queueName))
    ensures var r := CreateQueue(a, users, settings.queueName, id); r.Some? && Equiv(r.value, RecordChange(b, Create, settings, id))
  {
    var q := settings.queueName;
    var r := CreateQueue(a, users, q, id).value;
    assert a.queues[q := Queue(a.nextQueueId, q)] == b.queues;
    forall x ensures ListenersOf(r, x) == ListenersOf(RecordChange(b, Create, settings, id), x) {
      assert ListenersOf(a, x) == ListenersOf(b, x);
    }
  }

  // ---------------------------------------------------------------- each step

  ghost predicate Ready(st: State, h: seq<H.Event>, i: nat, q: Text) {
    LockInv(st) && Linear(st, h) && CanMove(st, i, q)
  }

  /** A thread outside the exclusive sections of Q changes nothing that matters. */
  lemma BystanderOnlyTouches(st: State, i: nat, q: Text)
    requires Wf(st) && CanMove(st, i, q) && !WritesQ(st.threads[i]) && !WritesQ(Move(st, i, q).threads[i])
    requires CreatesOk(st.node, st.threads[i])
    ensures var st', e := Move(st, i, q), EventOf(st, Moves(i, q));
            && st'.threads == st.threads[i := st'.threads[i]] && CreatesOk(st'.node, st'.threads[i])
            && Equiv(st.node, st'.node) && (st'.node == st.node || ReadsS(st.threads[i]))
            && |e| <= 1 && (e != [] ==> e[0].AddUser? || e[0].DropUser?) && st'.users == UsersAfter(st.users, e)
  {
  }

  lemma TouchKeepsLinear(st: State, st': State, h: seq<H.Event>, h': seq<H.Event>, i: nat)
    requires Linear(st, h) && i < |st.threads| && |st'.threads| == |st.threads| && st'.threads == st.threads[i := st'.threads[i]]
    requires !WritesQ(st.threads[i]) && !WritesQ(st'.threads[i]) && CreatesOk(st'.node, st'.threads[i])
    requires st'.node == st.node || forall j :: 0 <= j < |st.threads| ==> !st.threads[j].DropErasing?
    requires Equiv(st.node, st'.node) && H.After(h').users == st'.users && H.After(h').node == H.After(h).node
    ensures Linear(st', h')
  {
    assert forall j :: 0 <= j < |st.threads| && j != i ==> st'.threads[j] == st.threads[j];
    forall j | 0 <= j < |st'.threads| && WritesQ(st'.threads[j])
      ensures Equiv(H.After(h').node, Settle(st'.node, st'.threads[j]))
    {
      if st'.node != st.node {
        SettleRespectsEquiv(st.node, st'.node, st.threads[j]);
      }
    }
    assert NoWriterQ(st') ==> NoWriterQ(st);
  }

  lemma BystanderKeepsLinear(st: State, h: seq<H.Event>, i: nat, q: Text)
    requires Ready(st, h, i, q) && !WritesQ(st.threads[i]) && !WritesQ(Move(st, i, q).threads[i])
    ensures Linear(Move(st, i, q), h + EventOf(st, Moves(i, q)))
  {
    var e := EventOf(st, Moves(i, q));
    BystanderOnlyTouches(st, i, q);
    if e == [] {
      assert h + e == h;
    } else {
      assert e == [e[0]];
      H.AfterCall(h, e[0]);
    }
    assert ReadsS(st.threads[i]) ==> forall j :: 0 <= j < |st.threads| && j != i ==> Apart(st.threads[i], st.threads[j]);
    TouchKeepsLinear(st, Move(st, i, q), h, h + e, i);
  }

  /** The one thread in an exclusive section of Q decides where the state settles. */
  lemma SectionKeepsLinear(st: State, st': State, h': seq<H.Event>, i: nat)
    requires i < |st.threads| && |st'.threads| == |st.threads| && st'.threads == st.threads[i := st'.threads[i]]
    requires forall j :: 0 <= j < |st.threads| && j != i ==> !WritesQ(st.threads[j]) && CreatesOk(st.node, st.threads[j])
    requires SettledBy(st', h', i)
    ensures Linear(st', h')
  {
    assert forall j :: 0 <= j < |st.threads| && j != i ==> st'.threads[j] == st.threads[j];
  }

  lemma EraseCallSettles(h: seq<H.Event>, s: NodeState, id: nat)
    requires Equiv(H.After(h).node, s)
    ensures H.After(h + [H.Erase(id)]).users == H.After(h).users
    ensures Equiv(H.After(h + [H.Erase(id)]).node, EraseIn(s, id, s.subs.Keys))
  {
    H.AfterCall(h, H.Erase(id));
    EraseRespectsEquiv(H.After(h).node, s, id);
  }

  /** Entering an exclusive section of Q takes the lock and changes nothing else. */
  lemma EntryEffect(st: State, i: nat, q: Text)
    requires Wf(st) && CanMove(st, i, q) && !WritesQ(st.threads[i]) && WritesQ(Move(st, i, q).threads[i])
    requires CreatesOk(st.node, st.threads[i])
    ensures var st', t := Move(st, i, q), st.threads[i];
            && FreeQ(st) && st'.node == st.node && st'.users == st.users && st'.threads == st.threads[i := st'.threads[i]]
            && CreatesOk(st.node, st'.threads[i])
            && if t.DropErased?
               then st'.threads[i] == DropErasing(t.id, st.node.subs.Keys) && EventOf(st, Moves(i, q)) == [H.Erase(t.id)]
               else Settle(st.node, st'.threads[i]) == st.node && EventOf(st, Moves(i, q)) == []
  {
  }

  lemma EntrySettles(st: State, h: seq<H.Event>, i: nat, q: Text)
    requires Wf(st) && CanMove(st, i, q) && !WritesQ(st.threads[i]) && WritesQ(Move(st, i, q).threads[i])
    requires H.After(h).users == st.users && Equiv(H.After(h).node, st.node) && CreatesOk(st.node, st.threads[i])
    ensures SettledBy(Move(st, i, q), h + EventOf(st, Moves(i, q)), i)
  {
    EntryEffect(st, i, q);
    if st.threads[i].DropErased? {
      EraseCallSettles(h, st.node, st.threads[i].id);
    } else {
      assert h + EventOf(st, Moves(i, q)) == h;
    }
  }

  lemma EntryKeepsLinear(st: State, h: seq<H.Event>, i: nat, q: Text)
    requires Ready(st, h, i, q) && !WritesQ(st.threads[i]) && WritesQ(Move(st, i, q).threads[i])
    ensures Linear(Move(st, i, q), h + EventOf(st, Moves(i, q)))
  {
    EntryEffect(st, i, q);
    assert NoWriterQ(st);
    EntrySettles(st, h, i, q);
    SectionKeepsLinear(st, Move(st, i, q), h + EventOf(st, Moves(i, q)), i);
  }

  lemma CreateSettles(h: seq<H.Event>, s: NodeState, settings: SubscriptionParams, id: nat)
    requires CreatesOk(s, ChangeLocked(Create, settings, id)) && id in H.After(h).users
    requires Equiv(H.After(h).node, Unplace(s, settings.queueName))
    ensures var w := H.After(h + [H.MakeQueue(settings.queueName, id)]);
            w.users == H.After(h).users && Equiv(w.node, RecordChange(s, Create, settings, id))
  {
    H.AfterCall(h, H.MakeQueue(settings.queueName, id));
    CreateRespectsEquiv(H.After(h).node, s, H.After(h).users, settings, id);
  }

  lemma ChangeSettles(h: seq<H.Event>, s: NodeState, action: Action, settings: SubscriptionParams, id: nat)
    requires id in H.After(h).users && Equiv(H.After(h).node, s) && (settings.queueName in s.queues || !action.Unsubscribe?)
    ensures var w := H.After(h + [H.Change(action, settings, id)]);
            w.users == H.After(h).users && Equiv(w.node, RecordChange(s, action, settings, id))
  {
    H.AfterCall(h, H.Change(action, settings, id));
    ChangeRespectsEquiv(H.After(h).node, s, H.After(h).users, action, settings, id);
  }

  lemma OrphanSettles(h: seq<H.Event>, s: NodeState, settings: SubscriptionParams, id: nat)
    requires CreatesOk(s, ChangeLocked(Create, settings, id))
    requires Equiv(H.After(h).node, Unplace(s, settings.queueName))
    ensures var w := H.After(h + [H.Orphan(settings.queueName)]); w.users == H.After(h).users && Equiv(w.node, s)
  {
    H.AfterCall(h, H.Orphan(settings.queueName));
    var q, a, b := settings.queueName, H.After(h).node, H.After(h + [H.Orphan(settings.queueName)]).node;
    assert a.queues[q := Queue(a.nextQueueId, q)] == s.queues;
    forall x ensures ListenersOf(b, x) == ListenersOf(s, x) {
      assert ListenersOf(a, x) == ListenersOf(Unplace(s, q), x);
    }
  }

  /** The state once the checks of `t` are done: settled with the change, or as it is. */
  function Checked(users: set<nat>, s: NodeState, t: Thread): NodeState
    requires t.ChangeLocked?
  {
    if t.id !in users || (t.settings.queueName !in s.queues && t.action.Unsubscribe?) then s
    else RecordChange(s, t.action, t.settings, t.id)
  }

  lemma ChecksSettle(h: seq<H.Event>, s: NodeState, t: Thread)
    requires t.ChangeLocked? && CreatesOk(s, t) && Equiv(H.After(h).node, Settle(s, t))
    ensures var users := H.After(h).users;
            var w := H.After(h + CheckEvent(users, s, t));
            w.users == users && Equiv(w.node, Checked(users, s, t))
  {
    if CheckEvent(H.After(h).users, s, t) == [] {
      assert h + [] == h;
    } else if t.id !in H.After(h).users {
      OrphanSettles(h, s, t.settings, t.id);
    } else if t.action.Create? {
      CreateSettles(h, s, t.settings, t.id);
    } else {
      ChangeSettles(h, s, t.action, t.settings, t.id);
    }
  }

  /** The step of a checking thread: the call becomes effective, or has no effect. */
  lemma CheckKeepsLinear(st: State, h: seq<H.Event>, i: nat, q: Text)
    requires Wf(st) && CanMove(st, i, q) && st.threads[i].ChangeLocked?
    requires H.After(h).users == st.users && CreatesOk(st.node, st.threads[i])
    requires Equiv(H.After(h).node, Settle(st.node, st.threads[i]))
    ensures var st' := Move(st, i, q);
            && H.After(h + EventOf(st, Moves(i, q))).users == st.users
            && Equiv(H.After(h + EventOf(st, Moves(i, q))).node, Settle(st'.node, st'.threads[i]))
  {
    ChecksSettle(h, st.node, st.threads[i]);
    assert Settle(Move(st, i, q).node, Move(st, i, q).threads[i]) == Checked(st.users, st.node, st.threads[i]);
  }

  /** Storing a new queue, or resettling one, does not change where its creation ends. */
  lemma StoreSettles(s: NodeState, h: seq<H.Event>, name: Text, id: nat)
    requires Equiv(H.After(h).node, s)
    ensures if name in s.queues then Resettle(s, name) == s
            else CreatesOk(StoreQueue(s, name), ChangeLocked(Create, SubscriptionParams(name, []), id))
                 && Equiv(H.After(h).node, Unplace(StoreQueue(s, name), name))
  {
    if name in s.queues {
      H.NodeIsFiled(h);
      assert Resettle(s, name).queues == s.queues;
    } else {
      assert StoreQueue(s, name).queues - {name} == s.queues;
      assert Unplace(StoreQueue(s, name), name) == s;
    }
  }

  /** A step inside an exclusive section of Q does not change where that section ends. */
  lemma InsideKeepsSettled(st: State, h: seq<H.Event>, i: nat, q: Text)
    requires Ready(st, h, i, q) && WritesQ(st.threads[i]) && !st.threads[i].ChangeLocked? && !Leaves(st.threads[i])
    ensures EventOf(st, Moves(i, q)) == []
    ensures var st' := Move(st, i, q); Equiv(H.After(h).node, Settle(st'.node, st'.threads[i]))
    ensures var st' := Move(st, i, q); WritesQ(st'.threads[i]) && CreatesOk(st'.node, st'.threads[i])
  {
    var t := st.threads[i];
    var st' := Move(st, i, q);
    assert Equiv(H.After(h).node, Settle(st.node, t));
    match t
    case DropErasing(id, todo) =>
      if todo == {} {
        EraseInNone(st.node, id);
      } else {
        RoundBefore(st.node, id, todo, q);
      }
    case CreateLocked(name, id) =>
      StoreSettles(st.node, h, name, id);
    case _ =>
  }

  /** The state settles, as far as thread `i` is concerned, where history `h` leads. */
  ghost predicate SettledBy(st: State, h: seq<H.Event>, i: nat)
    requires i < |st.threads|
  {
    && H.After(h).users == st.users && CreatesOk(st.node, st.threads[i])
    && Equiv(H.After(h).node, if WritesQ(st.threads[i]) then Settle(st.node, st.threads[i]) else st.node)
  }

  lemma CheckerSettles(st: State, h: seq<H.Event>, i: nat, q: Text)
    requires Wf(st) && CanMove(st, i, q) && st.threads[i].ChangeLocked? && SettledBy(st, h, i)
    ensures SettledBy(Move(st, i, q), h + EventOf(st, Moves(i, q)), i)
  {
    CheckKeepsLinear(st, h, i, q);
    assert Move(st, i, q).users == st.users && WritesQ(Move(st, i, q).threads[i]);
    assert !Move(st, i, q).threads[i].ChangeLocked? && !Move(st, i, q).threads[i].ChangeStart?;
  }

  lemma LeaverSettles(st: State, h: seq<H.Event>, i: nat, q: Text)
    requires Wf(st) && CanMove(st, i, q) && Leaves(st.threads[i]) && SettledBy(st, h, i)
    ensures SettledBy(Move(st, i, q), h + EventOf(st, Moves(i, q)), i)
  {
    assert h + EventOf(st, Moves(i, q)) == h;
    assert Move(st, i, q).users == st.users && Move(st, i, q).node == st.node;
  }

  lemma InsiderSettles(st: State, h: seq<H.Event>, i: nat, q: Text)
    requires Ready(st, h, i, q) && WritesQ(st.threads[i]) && !st.threads[i].ChangeLocked? && !Leaves(st.threads[i])
    ensures SettledBy(Move(st, i, q), h + EventOf(st, Moves(i, q)), i)
  {
    InsideKeepsSettled(st, h, i, q);
    assert h + EventOf(st, Moves(i, q)) == h;
    assert Move(st, i, q).users == st.users;
  }

  lemma WriterSettles(st: State, h: seq<H.Event>, i: nat, q: Text)
    requires Ready(st, h, i, q) && WritesQ(st.threads[i])
    ensures SettledBy(Move(st, i, q), h + EventOf(st, Moves(i, q)), i)
  {
    assert SettledBy(st, h, i);
    if st.threads[i].ChangeLocked? {
      CheckerSettles(st, h, i, q);
    } else if Leaves(st.threads[i]) {
      LeaverSettles(st, h, i, q);
    } else {
      InsiderSettles(st, h, i, q);
    }
  }

  lemma WriterKeepsLinear(st: State, h: seq<H.Event>, i: nat, q: Text)
    requires Ready(st, h, i, q) && WritesQ(st.threads[i])
    ensures Linear(Move(st, i, q), h + EventOf(st, Moves(i, q)))
  {
    forall j: nat | j < |st.threads| && j != i ensures !WritesQ(st.threads[j]) {
      assert Apart(st.threads[i], st.threads[j]);
    }
    WriterSettles(st, h, i, q);
    SectionKeepsLinear(st, Move(st, i, q), h + EventOf(st, Moves(i, q)), i);
  }

  /** Every lock-level step is the atomic call it makes effective, or no call at all. */
  lemma StepIsLinear(st: State, h: seq<H.Event>, s: Step)
    requires LockInv(st) && Linear(st, h) && CanStep(st, s)
    ensures Linear(After(st, s), h + EventOf(st, s))
  {
    match s
    case Moves(i, q) =>
      if WritesQ(st.threads[i]) {
        WriterKeepsLinear(st, h, i, q);
      } else if WritesQ(Move(st, i, q).threads[i]) {
        EntryKeepsLinear(st, h, i, q);
      } else {
        BystanderKeepsLinear(st, h, i, q);
      }
    case _ =>
      assert h + EventOf(st, s) == h;
      assert NoWriterQ(After(st, s)) ==> NoWriterQ(st) by {
        assert forall i :: 0 <= i < |st.threads| ==> After(st, s).threads[i] == st.threads[i];
      }
  }

  // ---------------------------------------------------------------- runs

  /** The atomic calls a lock-level run makes effective, in order. */
  ghost function Linearize(st: State, run: seq<Step>): seq<H.Event>
    requires Wf(st) && Exclusive(st.threads) && RunLocks(st, run).Some?
    decreases |run|
  {
    if run == [] then []
    else
      StepKeepsBasics(st, run[0]);
      EventOf(st, run[0]) + Linearize(After(st, run[0]), run[1..])
  }

  lemma {:induction false} RunIsLinear(st: State, h: seq<H.Event>, run: seq<Step>)
    requires LockInv(st) && Linear(st, h) && RunLocks(st, run).Some?
    ensures LockInv(RunLocks(st, run).value) && Linear(RunLocks(st, run).value, h + Linearize(st, run))
    decreases |run|
  {
    if run == [] {
      assert h + [] == h;
    } else {
      StepKeepsLockInv(st, run[0]);
      StepIsLinear(st, h, run[0]);
      RunIsLinear(After(st, run[0]), h + EventOf(st, run[0]), run[1..]);
      Regroup(h, EventOf(st, run[0]), Linearize(After(st, run[0]), run[1..]));
    }
  }

  lemma StartIsLinear(rx: Engine)
    ensures LockInv(Start(rx)) && Linear(Start(rx), [])
  {
  }

  // ---------------------------------------------------------------- aborted creations

  /** Against the completed calls alone: users agree, and the queue counter lags behind by one once a
   *  creation was aborted, and by one more while a creation stands before its second check. */
  ghost predicate Lags(st: State, h: seq<H.Event>) {
    var n, m := H.After(h).node.nextQueueId, st.node.nextQueueId;
    && H.After(h).users == st.users && Behind(n, st.aborted, m, Done)
    && forall i :: 0 <= i < |st.threads| ==> Behind(n, st.aborted, m, st.threads[i])
  }

  /** The queue counter moves only when a queue is made, and by one. */
  lemma CounterAfterCall(h: seq<H.Event>, e: H.Event)
    requires !e.Orphan?
    ensures H.After(h + [e]).node.nextQueueId <= H.After(h).node.nextQueueId + (if e.MakeQueue? then 1 else 0)
    ensures H.After(h + [e]).users == H.Apply(H.World(H.After(h).users, EMPTY_NODE), e).users
  {
    H.AfterCall(h, e);
  }

  /** A thread that stands before the second check of a creation. */
  predicate HalfWay(t: Thread) {
    t.ChangeLocked? && t.action.Create?
  }

  /** `n` queues were counted by the history and `m` by the broker, while `t` is under way. */
  predicate Behind(n: nat, aborted: set<Text>, m: nat, t: Thread) {
    n + (if aborted == {} then 0 else 1) + (if HalfWay(t) then 1 else 0) <= m
  }

  predicate Makes(e: seq<H.Event>) {
    e != [] && e[0].MakeQueue?
  }

  /** The mover: what its event counts in the history, the broker counted before. */
  lemma MoverCounts(st: State, i: nat, q: Text, n: nat)
    requires Wf(st) && CanMove(st, i, q) && Stored(st.node, st.threads[i])
    requires Behind(n, st.aborted, st.node.nextQueueId, st.threads[i])
    ensures var st', e := Move(st, i, q), EventOf(st, Moves(i, q));
            && |e| <= 1 && st'.users == UsersAfter(st.users, H.Completed(e)) && (Makes(e) <==> Makes(H.Completed(e)))
            && Behind(if Makes(e) then n + 1 else n, st'.aborted, st'.node.nextQueueId, st'.threads[i])
  {
  }

  lemma CompletedIsShort(e: seq<H.Event>)
    requires |e| <= 1
    ensures |H.Completed(e)| <= 1
  {
    assert e != [] ==> H.Completed(e[1..]) == [];
  }

  lemma EventsCount(h: seq<H.Event>, e: seq<H.Event>)
    requires |e| <= 1 && H.Complete(e)
    ensures H.After(h + e).node.nextQueueId <= H.After(h).node.nextQueueId + (if Makes(e) then 1 else 0)
    ensures H.After(h + e).users == UsersAfter(H.After(h).users, e)
  {
    if e == [] {
      assert h + e == h;
    } else {
      assert e == [e[0]];
      CounterAfterCall(h, e[0]);
    }
  }

  /** The others: while one of them is half way, the mover counts nothing. */
  lemma OthersKeepLag(st: State, i: nat, q: Text, j: nat)
    requires Wf(st) && CanMove(st, i, q) && j < |st.threads| && j != i && Apart(st.threads[j], st.threads[i])
    requires HalfWay(st.threads[j])
    ensures var st', e := Move(st, i, q), EventOf(st, Moves(i, q));
            && st'.threads[j] == st.threads[j] && st'.aborted == st.aborted && st'.node.nextQueueId == st.node.nextQueueId
            && !Makes(e)
  {
  }

  lemma MoveKeepsLag(st: State, h: seq<H.Event>, i: nat, q: Text, j: nat)
    requires Wf(st) && Exclusive(st.threads) && StoredInv(st) && Lags(st, h) && CanMove(st, i, q) && j < |st.threads|
    ensures var st', w' := Move(st, i, q), H.After(h + H.Completed(EventOf(st, Moves(i, q))));
            w'.users == st'.users && Behind(w'.node.nextQueueId, st'.aborted, st'.node.nextQueueId, st'.threads[j])
  {
    assert Stored(st.node, st.threads[i]);
    MoverCounts(st, i, q, H.After(h).node.nextQueueId);
    CompletedIsShort(EventOf(st, Moves(i, q)));
    EventsCount(h, H.Completed(EventOf(st, Moves(i, q))));
    if j != i && HalfWay(st.threads[j]) {
      OthersKeepLag(st, i, q, j);
    }
  }

  lemma StepKeepsLag(st: State, h: seq<H.Event>, s: Step)
    requires Wf(st) && Exclusive(st.threads) && StoredInv(st) && Lags(st, h) && CanStep(st, s)
    ensures Lags(After(st, s), h + H.Completed(EventOf(st, s)))
  {
    match s
    case Moves(i, q) =>
      forall j: nat | j < |st.threads|
        ensures Behind(H.After(h + H.Completed(EventOf(st, s))).node.nextQueueId, After(st, s).aborted, After(st, s).node.nextQueueId, After(st, s).threads[j])
      {
        MoveKeepsLag(st, h, i, q, j);
      }
      MoveKeepsLag(st, h, i, q, i);
    case _ => assert h + H.Completed(EventOf(st, s)) == h;
  }

  lemma {:induction false} RunLags(st: State, h: seq<H.Event>, run: seq<Step>)
    requires Wf(st) && Exclusive(st.threads) && StoredInv(st) && Lags(st, h) && RunLocks(st, run).Some?
    ensures Lags(RunLocks(st, run).value, h + H.Completed(Linearize(st, run)))
    decreases |run|
  {
    if run == [] {
      assert h + [] == h;
    } else {
      StepKeepsBasics(st, run[0]);
      StepKeepsStored(st, run[0]);
      StepKeepsLag(st, h, run[0]);
      var e, rest := EventOf(st, run[0]), Linearize(After(st, run[0]), run[1..]);
      RunLags(After(st, run[0]), h + H.Completed(e), run[1..]);
      H.CompletedConcat(e, rest);
      Regroup(h, H.Completed(e), H.Completed(rest));
    }
  }

  /** Exactly the aborted creations are missing from the completed calls. */
  lemma {:induction false} AbortsAreOrphans(st: State, run: seq<Step>)
    requires Wf(st) && Exclusive(st.threads) && RunLocks(st, run).Some?
    ensures RunLocks(st, run).value.aborted == {} <==> st.aborted == {} && H.Complete(Linearize(st, run))
    decreases |run|
  {
    if run != [] {
      var st', e := After(st, run[0]), EventOf(st, run[0]);
      StepKeepsBasics(st, run[0]);
      StepAborts(st, run[0]);
      AbortsAreOrphans(st', run[1..]);
      assert H.Complete(e + Linearize(st', run[1..])) <==> H.Complete(e) && H.Complete(Linearize(st', run[1..])) by {
        assert forall x :: x in e + Linearize(st', run[1..]) <==> x in e || x in Linearize(st', run[1..]);
      }
    }
  }

  lemma StepAborts(st: State, s: Step)
    requires Wf(st) && CanStep(st, s)
    ensures After(st, s).aborted == {} <==> st.aborted == {} && H.Complete(EventOf(st, s))
  {
    if s.Moves? && st.threads[s.i].ChangeLocked? {
      var e := CheckEvent(st.users, st.node, st.threads[s.i]);
      assert e != [] ==> e[0] in e;
    }
  }

  lemma ReachableIsLinear(rx: Engine, run: seq<Step>)
    requires RunLocks(Start(rx), run).Some?
    ensures var st, h := RunLocks(Start(rx), run).value, Linearize(Start(rx), run);
            LockInv(st) && Linear(st, h) && Lags(st, H.Completed(h))
  {
    StartIsLinear(rx);
    var h := Linearize(Start(rx), run);
    assert [] + h == h && [] + H.Completed(h) == H.Completed(h);
    RunLags(Start(rx), [], run);
    RunIsLinear(Start(rx), [], run);
  }

  /** Whatever the interleaving, once no call is inside an exclusive section of Q, users and broker are
   *  those of its calls taken one after the other, a creation that was aborted half way leaving its
   *  queue without an owner. Without the aborted creations the same history gives the broker's state
   *  exactly when there are none. */
  lemma InterleavingsAreAtomic(rx: Engine, run: seq<Step>)
    requires RunLocks(Start(rx), run).Some? && NoWriterQ(RunLocks(Start(rx), run).value)
    ensures var st, h := RunLocks(Start(rx), run).value, Linearize(Start(rx), run);
            && st.users == H.After(h).users && Equiv(st.node, H.After(h).node)
            && (H.Complete(h) <==> st.aborted == {})
            && (Equiv(st.node, H.After(H.Completed(h)).node) <==> st.aborted == {})
  {
    ReachableIsLinear(rx, run);
    AbortsAreOrphans(Start(rx), run);
    CompleteIsCompleted(Linearize(Start(rx), run));
  }

  lemma {:induction false} CompleteIsCompleted(h: seq<H.Event>)
    ensures H.Complete(h) ==> H.Completed(h) == h
  {
    if h != [] && H.Complete(h) {
      assert h[0] in h && forall e :: e in h[1..] ==> e in h;
      CompleteIsCompleted(h[1..]);
    }
  }
}
