/** The broker's operations at the level of its locks, run by any number of threads.
 *
 * A lock is held by exactly those threads whose program counter is inside its critical section, so
 * lock ownership is read off the threads. `Q` is `_queues_locker`, `S` is `_subscriptions_locker`
 * and `C` is the server's `_locker_connections`. The user base's own lock is a leaf, and each access
 * to the user base is one atomic step; so is a send, whose outer lock `_locker` guards nothing else.
 * The check of `publish` reads the queues without a lock and is one atomic step here.
 */
module NodeLocks {
  import opened Basics
  import opened NodeCore

  /** Where a thread stands, with the arguments of its call. */
  datatype Thread =
    | Done
    // changeSubscription, and the part of createQueue that calls changeSubscription_impl
    | ChangeStart(action: Action, settings: SubscriptionParams, id: nat)
    | ChangeLocked(action: Action, settings: SubscriptionParams, id: nat)   // Q
    | ChangeChecked(action: Action, settings: SubscriptionParams, id: nat)  // Q
    | ChangeReady(action: Action, settings: SubscriptionParams, id: nat)    // Q and S
    | HoldsBoth                                                             // Q and S
    | Leaving                                                               // Q
    // createQueue before that
    | CreateStart(name: Text, id: nat)
    | CreateVetted(name: Text, id: nat)
    | CreateLocked(name: Text, id: nat)                                     // Q
    // handle_accept after numbering: append the user, then start the connection and list it
    | AcceptStart(id: nat)
    | AcceptUser(id: nat)
    | AcceptHolding(id: nat)                                                // C
    // close, once it has reset the stream, and erase_client_description: find the connection, erase the user, eraseClient, drop the connection
    | DropStart(id: nat)
    | DropHolding(id: nat)                                                  // C
    | DropErased(id: nat)                                                   // C
    | DropErasing(id: nat, todo: set<Text>)                                 // C, Q and S
    | DropBoth(id: nat)                                                     // C, Q and S
    | DropLeaving(id: nat)                                                  // C and Q
    | DropLast(id: nat)                                                     // C
    // publish: check, copy the listener map, then one send after the other
    | PubStart(params: PublishParams)
    | PubWaiting(params: PublishParams)
    | PubReading(params: PublishParams)                                     // S, shared
    | PubSending(params: PublishParams, copy: Listeners, left: seq<nat>, sent: seq<nat>)
    | Published(params: PublishParams, copy: Listeners, sent: seq<nat>, threw: bool)   // done
    // getDescription
    | DescStart
    | DescLocked(todo: set<Text>)                                           // Q, shared
    | DescReading(todo: set<Text>)                                          // Q and S, shared

  /** The call has come to its end. */
  predicate Finished(t: Thread) {
    t.Done? || t.Published?
  }

  predicate WritesQ(t: Thread) {
    || t.ChangeLocked? || t.ChangeChecked? || t.ChangeReady? || t.CreateLocked? || t.HoldsBoth? || t.Leaving?
    || t.DropErasing? || t.DropBoth? || t.DropLeaving?
  }

  predicate ReadsQ(t: Thread) {
    t.DescLocked? || t.DescReading?
  }

  predicate WritesS(t: Thread) {
    t.ChangeReady? || t.HoldsBoth? || t.DropErasing? || t.DropBoth?
  }

  predicate ReadsS(t: Thread) {
    t.PubReading? || t.DescReading?
  }

  /** The user is erased and its connection is still listed. */
  predicate Dropping(t: Thread) {
    t.DropErased? || t.DropErasing? || t.DropBoth? || t.DropLeaving? || t.DropLast?
  }

  /** A disconnect under way, from the reset of the stream on. */
  predicate Closing(t: Thread) {
    t.DropStart? || t.DropHolding? || Dropping(t)
  }

  predicate Accepting(t: Thread) {
    t.AcceptStart? || t.AcceptUser? || t.AcceptHolding?
  }

  predicate HoldsC(t: Thread) {
    t.AcceptHolding? || t.DropHolding? || Dropping(t)
  }

  datatype State = State(
    rx: Engine,
    users: set<nat>,
    conns: set<nat>,      // the ids of the listed connections
    closed: set<nat>,     // the ids whose stream was reset
    node: NodeState,
    threads: seq<Thread>,
    used: set<nat>,       // history: ids given to connections
    started: set<nat>,    // history: ids whose connection was started
    gone: set<nat>,       // history: ids whose disconnect has finished
    aborted: set<Text>,   // history: queues whose creation threw after the queue was stored
    unknown: set<nat>,    // history: ids for which a send threw "unknow client"
    reset: set<nat>)      // history: ids for which a send met a stream that was reset

  ghost predicate FreeQ(st: State) {
    forall i :: 0 <= i < |st.threads| ==> !WritesQ(st.threads[i]) && !ReadsQ(st.threads[i])
  }

  ghost predicate NoWriterQ(st: State) {
    forall i :: 0 <= i < |st.threads| ==> !WritesQ(st.threads[i])
  }

  ghost predicate FreeS(st: State) {
    forall i :: 0 <= i < |st.threads| ==> !WritesS(st.threads[i]) && !ReadsS(st.threads[i])
  }

  ghost predicate NoWriterS(st: State) {
    forall i :: 0 <= i < |st.threads| ==> !WritesS(st.threads[i])
  }

  ghost predicate FreeC(st: State) {
    forall i :: 0 <= i < |st.threads| ==> !HoldsC(st.threads[i])
  }

  /** A send to `id` finds its consumer: the server itself, or a listed connection. */
  predicate Reaches(st: State, id: nat) {
    id == SERVER_ID || id in st.conns
  }

  /** Thread `i` can take its next step; `q` is the queue a loop visits next. */
  ghost predicate CanMove(st: State, i: nat, q: Text) {
    i < |st.threads| &&
    match st.threads[i]
    case Done => false
    case ChangeStart(_, _, _) => FreeQ(st)
    case CreateVetted(_, _) => FreeQ(st)
    case ChangeChecked(_, _, _) => FreeS(st)
    case AcceptUser(_) => FreeC(st)
    case DropStart(_) => FreeC(st)
    case DropErased(_) => FreeQ(st) && FreeS(st)
    case PubWaiting(_) => NoWriterS(st)
    case Published(_, _, _, _) => false
    case PubSending(_, _, left, _) => left != [] && left[0] != SERVER_ID ==> FreeC(st)
    case DescStart => NoWriterQ(st)
    case DescLocked(todo) => todo != {} ==> q in todo && NoWriterS(st)
    case DropErasing(_, todo) => todo != {} ==> q in todo
    case _ => true
  }

  /** The change to the listener map once the checks have passed. */
  function RecordChange(s: NodeState, action: Action, settings: SubscriptionParams, id: nat): NodeState {
    var q, ls := settings.queueName, ListenersOf(s, settings.queueName);
    s.(subs := s.subs[q := if action.Unsubscribe? then ls - {id} else Enlist(ls, action, settings, id)])
  }

  /** Reading a listener map with `operator[]` stores an empty one under a missing key. */
  function Touch(s: NodeState, q: Text): NodeState {
    s.(subs := s.subs[q := ListenersOf(s, q)])
  }

  function With(st: State, i: nat, t: Thread): State
    requires i < |st.threads|
  {
    st.(threads := st.threads[i := t])
  }

  ghost predicate Wf(st: State) {
    forall i :: 0 <= i < |st.threads| && st.threads[i].DropErasing? ==> st.threads[i].todo <= st.node.subs.Keys
  }

  ghost function Move(st: State, i: nat, q: Text): State
    requires Wf(st) && CanMove(st, i, q)
  {
    match st.threads[i]
    case ChangeStart(action, settings, id) => With(st, i, ChangeLocked(action, settings, id))
    case ChangeLocked(action, settings, id) =>
      if settings.queueName !in st.node.queues && action.Unsubscribe? then With(st, i, Leaving)
      else if id !in st.users then
        With(st, i, Leaving).(aborted := if action.Create? then st.aborted + {settings.queueName} else st.aborted)
      else With(st, i, ChangeChecked(action, settings, id))
    case ChangeChecked(action, settings, id) => With(st, i, ChangeReady(action, settings, id))
    case ChangeReady(action, settings, id) =>
      With(st, i, HoldsBoth).(node := RecordChange(st.node, action, settings, id))
    case HoldsBoth => With(st, i, Leaving)
    case Leaving => With(st, i, Done)
    case CreateStart(name, id) => With(st, i, if id in st.users then CreateVetted(name, id) else Done)
    case CreateVetted(name, id) => With(st, i, CreateLocked(name, id))
    case CreateLocked(name, id) =>
      if name in st.node.queues then With(st, i, Leaving).(node := Resettle(st.node, name))
      else With(st, i, ChangeLocked(Create, SubscriptionParams(name, []), id)).(node := StoreQueue(st.node, name))
    case AcceptStart(id) => With(st, i, AcceptUser(id)).(users := st.users + {id})
    case AcceptUser(id) => With(st, i, AcceptHolding(id)).(started := st.started + {id})
    case AcceptHolding(id) => With(st, i, Done).(conns := st.conns + {id})
    case DropStart(id) => With(st, i, if id in st.conns then DropHolding(id) else Done)
    case DropHolding(id) =>
      if id in st.users then With(st, i, DropErased(id)).(users := st.users - {id}) else With(st, i, Done)
    case DropErased(id) => With(st, i, DropErasing(id, st.node.subs.Keys))
    case DropErasing(id, todo) =>
      if todo == {} then With(st, i, DropBoth(id))
      else With(st, i, DropErasing(id, todo - {q})).(node := EraseFrom(st.node, q, id))
    case DropBoth(id) => With(st, i, DropLeaving(id))
    case DropLeaving(id) => With(st, i, DropLast(id))
    case DropLast(id) => With(st, i, Done).(conns := st.conns - {id}, gone := st.gone + {id})
    case PubStart(params) =>
      With(st, i, if params.queueName in st.node.queues then PubWaiting(params) else Done)
    case PubWaiting(params) => With(st, i, PubReading(params))
    case PubReading(params) =>
      var copy := ListenersOf(st.node, params.queueName);
      With(st, i, PubSending(params, copy, Ascending(TargetSet(st.rx, copy, params.tag)), [])).(
        node := Touch(st.node, params.queueName))
    case PubSending(params, copy, left, sent) =>
      if left == [] then With(st, i, Published(params, copy, sent, false))
      else if Reaches(st, left[0]) then
        With(st, i, PubSending(params, copy, left[1..], sent + [left[0]])).(
          reset := if left[0] in st.closed then st.reset + {left[0]} else st.reset)
      else With(st, i, Published(params, copy, sent, true)).(unknown := st.unknown + {left[0]})
    case DescStart => With(st, i, DescLocked(st.node.queues.Keys))
    case DescLocked(todo) => With(st, i, if todo == {} then Done else DescReading(todo - {q}))
    case DescReading(todo) => With(st, i, DescLocked(todo))
  }

  /** Steps of the whole: a thread moves, a connection is numbered, or a call starts. */
  datatype Step = Moves(i: nat, q: Text) | Connects(id: nat) | Starts(t: Thread)

  predicate IsStart(t: Thread) {
    || (t.ChangeStart? && !t.action.Create?) || t.CreateStart? || t.DropStart? || t.PubStart? || t.DescStart?
  }

  /** Calls are made by the server and by clients whose connection was started, and a stream is reset once. */
  predicate MayStart(st: State, t: Thread) {
    && IsStart(t)
    && (t.ChangeStart? || t.CreateStart? ==> t.id == SERVER_ID || t.id in st.started)
    && (t.DropStart? ==> t.id in st.started && t.id !in st.closed)
  }

  ghost predicate CanStep(st: State, s: Step) {
    match s
    case Moves(i, q) => CanMove(st, i, q)
    case Connects(id) => FreeC(st) && id != SERVER_ID && id !in st.used
    case Starts(t) => MayStart(st, t)
  }

  ghost function After(st: State, s: Step): State
    requires Wf(st) && CanStep(st, s)
  {
    match s
    case Moves(i, q) => Move(st, i, q)
    case Connects(id) => st.(used := st.used + {id}, threads := st.threads + [AcceptStart(id)])
    case Starts(t) =>
      st.(threads := st.threads + [t], closed := if t.DropStart? then st.closed + {t.id} else st.closed)
  }

  // ---------------------------------------------------------------- mutual exclusion

  /** Two threads may stand where they stand at the same time. */
  predicate Apart(a: Thread, b: Thread) {
    && (WritesQ(a) ==> !WritesQ(b) && !ReadsQ(b)) && (ReadsQ(a) ==> !WritesQ(b))
    && (WritesS(a) ==> !WritesS(b) && !ReadsS(b)) && (ReadsS(a) ==> !WritesS(b))
    && (HoldsC(a) ==> !HoldsC(b))
  }

  ghost predicate Exclusive(ts: seq<Thread>) {
    forall i, j :: 0 <= i < |ts| && 0 <= j < |ts| && i != j ==> Apart(ts[i], ts[j])
  }

  // ---------------------------------------------------------------- no dangling listener

  /** Thread `t` will still remove `id` from the listeners of `q`. */
  predicate WillRemove(t: Thread, q: Text, id: nat) {
    t == DropErased(id) || (t.DropErasing? && t.id == id && q in t.todo)
  }

  ghost predicate Covered(st: State, q: Text, id: nat) {
    id in st.users || exists i :: 0 <= i < |st.threads| && WillRemove(st.threads[i], q, id)
  }

  /** A client that passed its check is a user, or its disconnect has yet to take the locks. */
  ghost predicate StillWelcome(st: State, id: nat) {
    id in st.users || DropErased(id) in st.threads
  }

  ghost predicate NoDangling(st: State) {
    forall q, id :: q in st.node.subs && id in st.node.subs[q] ==> Covered(st, q, id)
  }

  ghost predicate LockInv(st: State) {
    && Wf(st) && Exclusive(st.threads)
    && NoDangling(st)
    && (forall i :: 0 <= i < |st.threads| && (st.threads[i].ChangeChecked? || st.threads[i].ChangeReady?) ==>
          StillWelcome(st, st.threads[i].id))
  }

  /** A thread moving on keeps others covered, unless it finishes a removal. */
  lemma CoverKept(st: State, st': State, i: nat, q: Text, id: nat)
    requires Covered(st, q, id) && i < |st.threads|
    requires |st'.threads| == |st.threads| && st'.threads == st.threads[i := st'.threads[i]]
    requires id in st.users && id !in st'.users ==> WillRemove(st'.threads[i], q, id)
    requires WillRemove(st.threads[i], q, id) ==> WillRemove(st'.threads[i], q, id)
    ensures Covered(st', q, id)
  {
    if id !in st'.users {
      if id in st.users {
        assert WillRemove(st'.threads[i], q, id);
      } else {
        var j :| 0 <= j < |st.threads| && WillRemove(st.threads[j], q, id);
        assert WillRemove(st'.threads[j], q, id);
      }
    }
  }

  lemma WelcomeKept(st: State, st': State, i: nat, id: nat)
    requires StillWelcome(st, id) && i < |st.threads|
    requires |st'.threads| == |st.threads| && st'.threads == st.threads[i := st'.threads[i]]
    requires id in st.users && id !in st'.users ==> st'.threads[i] == DropErased(id)
    requires st.threads[i] == DropErased(id) ==> st'.threads[i] == DropErased(id)
    ensures StillWelcome(st', id)
  {
    if id !in st'.users {
      if id in st.users {
        assert st'.threads[i] in st'.threads;
      } else {
        var j :| 0 <= j < |st.threads| && st.threads[j] == DropErased(id);
        assert st'.threads[j] == DropErased(id);
      }
    }
  }

  /** The moving thread holds what it held, or has taken what was free. */
  lemma MoverStaysApart(st: State, i: nat, q: Text, j: nat)
    requires Wf(st) && CanMove(st, i, q) && j < |st.threads| && j != i && Apart(st.threads[i], st.threads[j])
    ensures Apart(Move(st, i, q).threads[i], st.threads[j])
  {
  }

  lemma MoveKeepsExclusion(st: State, i: nat, q: Text)
    requires Wf(st) && Exclusive(st.threads) && CanMove(st, i, q)
    ensures Exclusive(Move(st, i, q).threads)
  {
    var ts, ts' := st.threads, Move(st, i, q).threads;
    assert ts' == ts[i := ts'[i]];
    forall j: nat | j < |ts| && j != i ensures Apart(ts'[i], ts[j]) && Apart(ts[j], ts'[i]) {
      MoverStaysApart(st, i, q, j);
    }
  }

  lemma MoveKeepsWf(st: State, i: nat, q: Text)
    requires Wf(st) && CanMove(st, i, q)
    ensures Wf(Move(st, i, q))
  {
    var st' := Move(st, i, q);
    assert forall j :: 0 <= j < |st.threads| && j != i ==> st'.threads[j] == st.threads[j];
    assert st.node.subs.Keys <= st'.node.subs.Keys;
  }

  lemma MoveKeepsWelcome(st: State, i: nat, q: Text, j: nat)
    requires LockInv(st) && CanMove(st, i, q) && j < |st.threads|
    requires var t := Move(st, i, q).threads[j]; t.ChangeChecked? || t.ChangeReady?
    ensures StillWelcome(Move(st, i, q), Move(st, i, q).threads[j].id)
  {
    var st' := Move(st, i, q);
    var id := st'.threads[j].id;
    if i == j {
      if st.threads[i].ChangeLocked? {
        assert id in st'.users;
      } else {
        WelcomeKept(st, st', i, id);
      }
    } else {
      assert st.threads[j] == st'.threads[j];
      assert WritesQ(st.threads[j]);
      WelcomeKept(st, st', i, id);
    }
  }

  lemma MoveKeepsCover(st: State, i: nat, q: Text, r: Text, id: nat)
    requires LockInv(st) && CanMove(st, i, q)
    requires var s' := Move(st, i, q).node; r in s'.subs && id in s'.subs[r]
    ensures Covered(Move(st, i, q), r, id)
  {
    var st' := Move(st, i, q);
    var t := st.threads[i];
    if r in st.node.subs && id in st.node.subs[r] {
      if t == DropErased(id) {
        assert WillRemove(st'.threads[i], r, id);
      }
      CoverKept(st, st', i, r, id);
    } else {
      assert t.ChangeReady? && t.id == id;
      if id !in st.users {
        var j :| 0 <= j < |st.threads| && st.threads[j] == DropErased(id);
        assert WillRemove(st'.threads[j], r, id);
      }
    }
  }

  /** Every step keeps the invariant: no listener is left behind by a finished disconnect. */
  lemma StepKeepsLockInv(st: State, s: Step)
    requires LockInv(st) && CanStep(st, s)
    ensures LockInv(After(st, s))
  {
    var st' := After(st, s);
    match s
    case Moves(i, q) =>
      MoveKeepsExclusion(st, i, q);
      MoveKeepsWf(st, i, q);
      forall r, id | r in st'.node.subs && id in st'.node.subs[r] ensures Covered(st', r, id) {
        MoveKeepsCover(st, i, q, r, id);
      }
      forall j | 0 <= j < |st.threads| && (st'.threads[j].ChangeChecked? || st'.threads[j].ChangeReady?)
        ensures StillWelcome(st', st'.threads[j].id)
      {
        MoveKeepsWelcome(st, i, q, j);
      }
    case _ => EnvKeepsLockInv(st, s);
  }

  lemma EnvKeepsCover(st: State, s: Step)
    requires LockInv(st) && CanStep(st, s) && !s.Moves?
    ensures NoDangling(After(st, s))
  {
    var st' := After(st, s);
    forall q, id | q in st.node.subs && id in st.node.subs[q] ensures Covered(st', q, id) {
      if id !in st.users {
        var i :| 0 <= i < |st.threads| && WillRemove(st.threads[i], q, id);
        assert st'.threads[i] == st.threads[i];
      }
    }
  }

  /** A new thread holds nothing. */
  lemma NewcomerStaysApart(ts: seq<Thread>, t: Thread)
    requires Exclusive(ts) && (IsStart(t) || t.AcceptStart?)
    ensures Exclusive(ts + [t])
  {
  }

  lemma EnvKeepsWelcome(st: State, s: Step, j: nat)
    requires LockInv(st) && CanStep(st, s) && !s.Moves? && j < |st.threads| && (st.threads[j].ChangeChecked? || st.threads[j].ChangeReady?)
    ensures StillWelcome(After(st, s), st.threads[j].id)
  {
    var id := st.threads[j].id;
    if id !in st.users {
      var i :| 0 <= i < |st.threads| && st.threads[i] == DropErased(id);
      assert After(st, s).threads[i] == DropErased(id);
    }
  }

  lemma EnvKeepsLockInv(st: State, s: Step)
    requires LockInv(st) && CanStep(st, s) && !s.Moves?
    ensures LockInv(After(st, s))
  {
    var st', t := After(st, s), if s.Connects? then AcceptStart(s.id) else s.t;
    assert st'.threads == st.threads + [t];
    NewcomerStaysApart(st.threads, t);
    EnvKeepsCover(st, s);
    forall j | 0 <= j < |st'.threads| && (st'.threads[j].ChangeChecked? || st'.threads[j].ChangeReady?)
      ensures StillWelcome(st', st'.threads[j].id)
    {
      EnvKeepsWelcome(st, s, j);
    }
  }

  ghost function RunLocks(st: State, run: seq<Step>): (r: Option<State>)
    requires Wf(st) && Exclusive(st.threads)
    ensures r.Some? ==> Wf(r.value) && Exclusive(r.value.threads) && r.value.rx == st.rx
    decreases |run|
  {
    if run == [] then Some(st)
    else if CanStep(st, run[0]) then
      StepKeepsBasics(st, run[0]);
      RunLocks(After(st, run[0]), run[1..])
    else None
  }

  lemma StepKeepsBasics(st: State, s: Step)
    requires Wf(st) && Exclusive(st.threads) && CanStep(st, s)
    ensures Wf(After(st, s)) && Exclusive(After(st, s).threads)
  {
    if s.Moves? {
      MoveKeepsExclusion(st, s.i, s.q);
      MoveKeepsWf(st, s.i, s.q);
    }
  }

  function Start(rx: Engine): State {
    State(rx, {SERVER_ID}, {}, {}, EMPTY_NODE, [], {}, {}, {}, {}, {}, {})
  }

  lemma {:induction false} RunKeepsLockInv(st: State, run: seq<Step>)
    requires LockInv(st)
    ensures RunLocks(st, run).Some? ==> LockInv(RunLocks(st, run).value)
    decreases |run|
  {
    if run != [] && CanStep(st, run[0]) {
      StepKeepsLockInv(st, run[0]);
      RunKeepsLockInv(After(st, run[0]), run[1..]);
    }
  }

  /** No dangling listener: under every interleaving, a listener is a current user or its disconnect
   *  has yet to finish; once all calls are done, every listener is a user. */
  lemma NoDanglingListener(rx: Engine, run: seq<Step>, q: Text, id: nat)
    requires RunLocks(Start(rx), run).Some?
    requires var st := RunLocks(Start(rx), run).value; q in st.node.subs && id in st.node.subs[q]
    ensures var st := RunLocks(Start(rx), run).value;
            Covered(st, q, id) && ((forall t :: t in st.threads ==> Finished(t)) ==> id in st.users)
  {
    RunKeepsLockInv(Start(rx), run);
    var st := RunLocks(Start(rx), run).value;
    if id !in st.users {
      var i :| 0 <= i < |st.threads| && WillRemove(st.threads[i], q, id);
      assert st.threads[i] in st.threads;
    }
  }

  // ---------------------------------------------------------------- no deadlock, and all calls finish

  ghost predicate SomeoneCanMove(st: State) {
    exists i: nat, q: Text :: CanMove(st, i, q)
  }

  /** The queue a thread's loop visits next, if it is in a loop. */
  ghost function NextQueue(t: Thread): Text {
    if (t.DescLocked? || t.DropErasing?) && t.todo != {} then var q :| q in t.todo; q else []
  }

  /** Locks are taken in the order C, Q, S, so some unfinished call can always take a step. */
  lemma NoDeadlock(st: State, k: nat)
    requires k < |st.threads| && !Finished(st.threads[k])
    ensures SomeoneCanMove(st)
  {
    if i :| 0 <= i < |st.threads| && (WritesS(st.threads[i]) || ReadsS(st.threads[i])) {
      assert CanMove(st, i, NextQueue(st.threads[i]));
    } else if i :| 0 <= i < |st.threads| && (WritesQ(st.threads[i]) || ReadsQ(st.threads[i])) {
      assert CanMove(st, i, NextQueue(st.threads[i]));
    } else if i :| 0 <= i < |st.threads| && HoldsC(st.threads[i]) {
      assert CanMove(st, i, []);
    } else {
      assert CanMove(st, k, []);
    }
  }

  /** Steps a call has left, not counting the rounds of its loop. */
  function Rank(t: Thread): nat {
    match t
    case Done => 0
    case Leaving => 1
    case HoldsBoth => 2
    case ChangeReady(_, _, _) => 3
    case ChangeChecked(_, _, _) => 4
    case ChangeLocked(_, _, _) => 5
    case ChangeStart(_, _, _) => 6
    case CreateLocked(_, _) => 6
    case CreateVetted(_, _) => 7
    case CreateStart(_, _) => 8
    case AcceptHolding(_) => 1
    case AcceptUser(_) => 2
    case AcceptStart(_) => 3
    case DropLast(_) => 1
    case DropLeaving(_) => 2
    case DropBoth(_) => 3
    case DropErasing(_, _) => 4
    case DropErased(_) => 5
    case DropHolding(_) => 6
    case DropStart(_) => 7
    case Published(_, _, _, _) => 0
    case PubSending(_, _, _, _) => 1
    case PubReading(_) => 2
    case PubWaiting(_) => 3
    case PubStart(_) => 4
    case DescReading(_) => 1
    case DescLocked(_) => 1
    case DescStart => 2
  }

  /** Steps the loop of a call has left. */
  function Rounds(t: Thread): nat {
    match t
    case DropErasing(_, todo) => |todo|
    case PubSending(_, _, left, _) => |left|
    case DescLocked(todo) => 2 * |todo|
    case DescReading(todo) => 2 * |todo| + 1
    case _ => 0
  }

  /** `t'` has fewer steps left than `t`, or as many and fewer rounds. */
  predicate Closer(t: Thread, t': Thread) {
    Rank(t') < Rank(t) || (Rank(t') == Rank(t) && Rounds(t') < Rounds(t))
  }

  lemma FewerLeft(todo: set<Text>, q: Text)
    requires q in todo
    ensures |todo - {q}| < |todo|
  {
  }

  lemma EraseProgresses(st: State, i: nat, q: Text)
    requires Wf(st) && CanMove(st, i, q) && st.threads[i].DropErasing?
    ensures Closer(st.threads[i], Move(st, i, q).threads[i])
  {
    if st.threads[i].todo != {} {
      FewerLeft(st.threads[i].todo, q);
    }
  }

  lemma DescProgresses(st: State, i: nat, q: Text)
    requires Wf(st) && CanMove(st, i, q) && (st.threads[i].DescLocked? || st.threads[i].DescReading?)
    ensures Closer(st.threads[i], Move(st, i, q).threads[i])
  {
    if st.threads[i].DescLocked? && st.threads[i].todo != {} {
      FewerLeft(st.threads[i].todo, q);
    }
  }

  lemma SendProgresses(st: State, i: nat, q: Text)
    requires Wf(st) && CanMove(st, i, q) && st.threads[i].PubSending?
    ensures Closer(st.threads[i], Move(st, i, q).threads[i])
  {
  }

  predicate InLoop(t: Thread) {
    t.DropErasing? || t.PubSending? || t.DescLocked? || t.DescReading?
  }

  lemma StraightProgresses(st: State, i: nat, q: Text)
    requires Wf(st) && CanMove(st, i, q) && !InLoop(st.threads[i])
    ensures Rank(Move(st, i, q).threads[i]) < Rank(st.threads[i])
  {
  }

  /** Each move uses up a step of the call, or a round of its loop. */
  lemma MoveProgresses(st: State, i: nat, q: Text)
    requires Wf(st) && CanMove(st, i, q)
    ensures Closer(st.threads[i], Move(st, i, q).threads[i])
  {
    if st.threads[i].DropErasing? {
      EraseProgresses(st, i, q);
    } else if st.threads[i].PubSending? {
      SendProgresses(st, i, q);
    } else if InLoop(st.threads[i]) {
      DescProgresses(st, i, q);
    } else {
      StraightProgresses(st, i, q);
    }
  }

  /** Without new calls the broker comes to rest: no infinite sequence consists of moves alone. */
  lemma {:induction false} CallsFinish(f: nat -> State, g: nat -> (nat, Text), n: nat)
    ensures exists m :: n <= m && !(Wf(f(m)) && CanMove(f(m), g(m).0, g(m).1) && f(m + 1) == Move(f(m), g(m).0, g(m).1))
    decreases Total(f(n).threads, Rank), Total(f(n).threads, Rounds)
  {
    var st, i, q := f(n), g(n).0, g(n).1;
    if Wf(st) && CanMove(st, i, q) && f(n + 1) == Move(st, i, q) {
      MoveProgresses(st, i, q);
      var t' := Move(st, i, q).threads[i];
      assert f(n + 1).threads == st.threads[i := t'];
      TotalUpdate(st.threads, Rank, i, t');
      TotalUpdate(st.threads, Rounds, i, t');
      CallsFinish(f, g, n + 1);
    }
  }
}
