/** The life of a connection under interleaving, and what happens to the sends of a publish. */
module Connections {
  import opened Basics
  import opened NodeCore
  import opened NodeLocks

  /** The server, or a client whose connection was started. */
  predicate Known(st: State, id: nat) {
    id == SERVER_ID || id in st.started
  }

  /** Calls made in the name of a client. */
  predicate Calls(t: Thread) {
    || t.ChangeStart? || t.ChangeLocked? || t.ChangeChecked? || t.ChangeReady?
    || t.CreateStart? || t.CreateVetted? || t.CreateLocked?
  }

  /** What the position of a thread says about the client it acts for. */
  ghost predicate ConnThread(st: State, t: Thread) {
    && (t.AcceptStart? || t.AcceptUser? ==> t.id in st.used && t.id !in st.started && t.id != SERVER_ID)
    && (t.AcceptUser? ==> t.id in st.users)
    && (t.AcceptHolding? ==> t.id in st.started && t.id !in st.conns && t.id !in st.gone)
    && (Closing(t) ==> t.id in st.closed && t.id !in st.gone)
    && (t.DropStart? || t.DropHolding? ==> t.id in st.users)
    && (t.DropHolding? || Dropping(t) ==> t.id in st.conns)
    && (Dropping(t) ==> t.id !in st.users)
    && (Calls(t) ==> Known(st, t.id))
    && (t.PubSending? ==> forall id :: id in t.left ==> Known(st, id))
  }

  /** Two threads that accept the same client, or close the same connection. */
  predicate SameClient(a: Thread, b: Thread) {
    ((Accepting(a) && Accepting(b)) || (Closing(a) && Closing(b))) && a.id == b.id
  }

  ghost predicate ConnSets(st: State) {
    && SERVER_ID !in st.used && st.started <= st.used && st.conns <= st.started
    && st.closed <= st.started && st.gone <= st.closed
    && st.conns !! st.gone && st.users !! st.gone && st.started - st.closed <= st.users
    && st.unknown <= st.gone && st.reset <= st.closed
  }

  ghost predicate ThreadsFit(st: State) {
    && (forall i :: 0 <= i < |st.threads| ==> ConnThread(st, st.threads[i]))
    && (forall i, j :: 0 <= i < |st.threads| && 0 <= j < |st.threads| && i != j ==>
          !SameClient(st.threads[i], st.threads[j]))
  }

  ghost predicate BeingListed(st: State, id: nat) {
    exists i :: 0 <= i < |st.threads| && st.threads[i] == AcceptHolding(id)
  }

  ghost predicate BeingClosed(st: State, id: nat) {
    exists i :: 0 <= i < |st.threads| && Closing(st.threads[i]) && st.threads[i].id == id
  }

  /** A started connection is listed, about to be, or gone; a reset stream is being closed, or gone. */
  ghost predicate Accounted(st: State) {
    && (forall id :: id in st.started ==> id in st.conns || id in st.gone || BeingListed(st, id))
    && (forall id :: id in st.closed ==> id in st.gone || BeingClosed(st, id))
  }

  ghost predicate KnownListeners(st: State) {
    forall q, id :: q in st.node.subs && id in st.node.subs[q] ==> Known(st, id)
  }

  ghost predicate ConnInv(st: State) {
    ConnSets(st) && ThreadsFit(st) && Accounted(st) && KnownListeners(st)
  }

  // ---------------------------------------------------------------- what a move keeps

  /** With the lock on the connections free, a started connection is listed or gone. */
  lemma ListedOrGone(st: State, id: nat)
    requires ConnInv(st) && FreeC(st) && id in st.started
    ensures id in st.conns || id in st.gone
  {
  }

  /** A disconnect finds what it looks for: the connection in the list, the client among the users. */
  lemma ClosingFinds(st: State, i: nat, q: Text)
    requires ConnInv(st) && CanMove(st, i, q) && (st.threads[i].DropStart? || st.threads[i].DropHolding?)
    ensures st.threads[i].id in st.conns && st.threads[i].id in st.users
  {
    assert ConnThread(st, st.threads[i]);
    if st.threads[i].DropStart? {
      ListedOrGone(st, st.threads[i].id);
    }
  }

  lemma MoveKeepsSets(st: State, i: nat, q: Text)
    requires Wf(st) && ConnInv(st) && CanMove(st, i, q)
    ensures ConnSets(Move(st, i, q))
  {
    var t := st.threads[i];
    assert ConnThread(st, t);
    match t
    case PubSending(_, _, left, _) =>
      if left != [] {
        assert left[0] in left;
        if left[0] != SERVER_ID {
          ListedOrGone(st, left[0]);
        }
      }
    case _ =>
  }

  lemma CopyIsKnown(st: State, q: Text, tag: Text)
    requires KnownListeners(st)
    ensures forall id :: id in Ascending(TargetSet(st.rx, ListenersOf(st.node, q), tag)) ==> Known(st, id)
  {
  }

  lemma PublishKeepsOwn(st: State, i: nat, q: Text)
    requires Wf(st) && ConnInv(st) && CanMove(st, i, q) && (st.threads[i].PubReading? || st.threads[i].PubSending?)
    ensures ConnThread(Move(st, i, q), Move(st, i, q).threads[i])
  {
    assert ConnThread(st, st.threads[i]);
    match st.threads[i]
    case PubReading(params) => CopyIsKnown(st, params.queueName, params.tag);
    case PubSending(_, _, left, _) =>
      assert left != [] ==> forall id :: id in left[1..] ==> id in left;
  }

  lemma LifeKeepsOwn(st: State, i: nat, q: Text)
    requires Wf(st) && ConnInv(st) && CanMove(st, i, q) && (Accepting(st.threads[i]) || Closing(st.threads[i]))
    ensures ConnThread(Move(st, i, q), Move(st, i, q).threads[i])
  {
    assert ConnThread(st, st.threads[i]);
    if st.threads[i].DropStart? {
      ClosingFinds(st, i, q);
    }
  }

  lemma MoveKeepsOwn(st: State, i: nat, q: Text)
    requires Wf(st) && ConnInv(st) && CanMove(st, i, q)
    ensures ConnThread(Move(st, i, q), Move(st, i, q).threads[i])
  {
    var t, t' := st.threads[i], Move(st, i, q).threads[i];
    if t.PubReading? || t.PubSending? {
      PublishKeepsOwn(st, i, q);
    } else if Accepting(t) || Closing(t) {
      LifeKeepsOwn(st, i, q);
    } else {
      assert ConnThread(st, t);
      assert !Accepting(t') && !Closing(t') && !t'.PubSending?;
    }
  }

  lemma MoveKeepsOthers(st: State, i: nat, q: Text, j: nat)
    requires Wf(st) && Exclusive(st.threads) && ConnInv(st) && CanMove(st, i, q) && j < |st.threads| && j != i
    ensures ConnThread(Move(st, i, q), st.threads[j])
  {
    assert ConnThread(st, st.threads[j]) && ConnThread(st, st.threads[i]);
    assert !SameClient(st.threads[i], st.threads[j]) && Apart(st.threads[i], st.threads[j]);
  }

  /** A thread goes on accepting or closing the client it was accepting or closing. */
  lemma MoverKeepsClient(st: State, i: nat, q: Text)
    requires Wf(st) && CanMove(st, i, q)
    ensures var t, t' := st.threads[i], Move(st, i, q).threads[i];
            && (Accepting(t') ==> Accepting(t) && t'.id == t.id) && (Closing(t') ==> Closing(t) && t'.id == t.id)
  {
  }

  lemma MoveKeepsThreads(st: State, i: nat, q: Text)
    requires Wf(st) && Exclusive(st.threads) && ConnInv(st) && CanMove(st, i, q)
    ensures ThreadsFit(Move(st, i, q))
  {
    var st' := Move(st, i, q);
    assert forall j :: 0 <= j < |st.threads| && j != i ==> st'.threads[j] == st.threads[j];
    forall j | 0 <= j < |st.threads| ensures ConnThread(st', st'.threads[j]) {
      if j == i {
        MoveKeepsOwn(st, i, q);
      } else {
        MoveKeepsOthers(st, i, q, j);
      }
    }
    MoverKeepsClient(st, i, q);
  }

  lemma MoveKeepsListing(st: State, i: nat, q: Text, id: nat)
    requires Wf(st) && ConnInv(st) && CanMove(st, i, q) && id in Move(st, i, q).started
    ensures var st' := Move(st, i, q); id in st'.conns || id in st'.gone || BeingListed(st', id)
  {
    var st' := Move(st, i, q);
    if id !in st.started {
      assert st'.threads[i] == AcceptHolding(id);
    } else if id !in st.conns && id !in st.gone {
      var j :| 0 <= j < |st.threads| && st.threads[j] == AcceptHolding(id);
      assert j != i ==> st'.threads[j] == AcceptHolding(id);
    }
  }

  lemma MoveKeepsClosing(st: State, i: nat, q: Text, id: nat)
    requires Wf(st) && ConnInv(st) && CanMove(st, i, q) && id in st.closed
    ensures var st' := Move(st, i, q); id in st'.gone || BeingClosed(st', id)
  {
    var st' := Move(st, i, q);
    if id !in st.gone {
      var j :| 0 <= j < |st.threads| && Closing(st.threads[j]) && st.threads[j].id == id;
      if j != i {
        assert st'.threads[j] == st.threads[j];
      } else {
        if st.threads[i].DropStart? || st.threads[i].DropHolding? {
          ClosingFinds(st, i, q);
        }
        assert id in st'.gone || Closing(st'.threads[i]);
      }
    }
  }

  lemma MoveKeepsListeners(st: State, i: nat, q: Text)
    requires Wf(st) && ConnInv(st) && CanMove(st, i, q)
    ensures KnownListeners(Move(st, i, q))
  {
    var st' := Move(st, i, q);
    assert ConnThread(st, st.threads[i]) && st.started <= st'.started;
    forall r, id | r in st'.node.subs && id in st'.node.subs[r] ensures Known(st', id) {
      if !(r in st.node.subs && id in st.node.subs[r]) {
        assert st.threads[i].ChangeReady? && st.threads[i].id == id;
      } else {
        assert Known(st, id);
      }
    }
  }

  lemma EnvKeepsThreads(st: State, s: Step)
    requires Wf(st) && ConnInv(st) && CanStep(st, s) && !s.Moves?
    ensures ThreadsFit(After(st, s)) && ConnSets(After(st, s)) && KnownListeners(After(st, s))
  {
    var st', n := After(st, s), |st.threads|;
    forall q, id | q in st.node.subs && id in st.node.subs[q] ensures Known(st', id) {
      assert Known(st, id);
    }
    assert forall i :: 0 <= i < n ==> st'.threads[i] == st.threads[i];
    forall i | 0 <= i < |st'.threads| ensures ConnThread(st', st'.threads[i]) {
      assert i < n ==> ConnThread(st, st.threads[i]);
    }
  }

  lemma EnvKeepsAccount(st: State, s: Step)
    requires Wf(st) && ConnInv(st) && CanStep(st, s) && !s.Moves?
    ensures Accounted(After(st, s))
  {
    var st', n := After(st, s), |st.threads|;
    assert forall i :: 0 <= i < n ==> st'.threads[i] == st.threads[i];
    forall id | id in st.started && id !in st.conns && id !in st.gone ensures BeingListed(st', id) {
      var j :| 0 <= j < n && st.threads[j] == AcceptHolding(id);
      assert st'.threads[j] == AcceptHolding(id);
    }
    forall id | id in st'.closed && id !in st.gone ensures BeingClosed(st', id) {
      if id in st.closed {
        var j :| 0 <= j < n && Closing(st.threads[j]) && st.threads[j].id == id;
        assert Closing(st'.threads[j]);
      } else {
        assert Closing(st'.threads[n]);
      }
    }
  }

  /** Every step keeps the account of connections. */
  lemma StepKeepsConnInv(st: State, s: Step)
    requires Wf(st) && Exclusive(st.threads) && ConnInv(st) && CanStep(st, s)
    ensures ConnInv(After(st, s))
  {
    match s
    case Moves(i, q) =>
      MoveKeepsSets(st, i, q);
      MoveKeepsThreads(st, i, q);
      MoveKeepsListeners(st, i, q);
      forall id | id in Move(st, i, q).started
        ensures id in Move(st, i, q).conns || id in Move(st, i, q).gone || BeingListed(Move(st, i, q), id)
      {
        MoveKeepsListing(st, i, q, id);
      }
      forall id | id in st.closed ensures id in Move(st, i, q).gone || BeingClosed(Move(st, i, q), id) {
        MoveKeepsClosing(st, i, q, id);
      }
    case _ =>
      EnvKeepsThreads(st, s);
      EnvKeepsAccount(st, s);
  }

  lemma {:induction false} RunKeepsConnInv(st: State, run: seq<Step>)
    requires LockInv(st) && ConnInv(st)
    ensures RunLocks(st, run).Some? ==> LockInv(RunLocks(st, run).value) && ConnInv(RunLocks(st, run).value)
    decreases |run|
  {
    if run != [] && CanStep(st, run[0]) {
      StepKeepsLockInv(st, run[0]);
      StepKeepsConnInv(st, run[0]);
      RunKeepsConnInv(After(st, run[0]), run[1..]);
    }
  }

  // ---------------------------------------------------------------- over every run

  /** No disconnect fails a lookup: the connection is listed, and the client is a user. */
  lemma DisconnectsSucceed(rx: Engine, run: seq<Step>, i: nat)
    requires RunLocks(Start(rx), run).Some?
    requires var st := RunLocks(Start(rx), run).value;
             CanMove(st, i, []) && (st.threads[i].DropStart? || st.threads[i].DropHolding?)
    ensures var st := RunLocks(Start(rx), run).value; Closing(Move(st, i, []).threads[i])
  {
    RunKeepsConnInv(Start(rx), run);
    ClosingFinds(RunLocks(Start(rx), run).value, i, []);
  }

  /** When the listeners are copied, each is the server, a listed connection, or one being listed. */
  lemma CopiedAreConnected(rx: Engine, run: seq<Step>, q: Text, id: nat)
    requires RunLocks(Start(rx), run).Some? && id in ListenersOf(RunLocks(Start(rx), run).value.node, q)
    ensures var st := RunLocks(Start(rx), run).value;
            (Reaches(st, id) || BeingListed(st, id)) && id !in st.gone
  {
    RunKeepsConnInv(Start(rx), run);
    ListenersAreConnected(RunLocks(Start(rx), run).value, q, id);
  }

  lemma ListenersAreConnected(st: State, q: Text, id: nat)
    requires LockInv(st) && ConnInv(st) && id in ListenersOf(st.node, q)
    ensures (Reaches(st, id) || BeingListed(st, id)) && id !in st.gone
  {
    assert Covered(st, q, id) && Known(st, id);
    if id !in st.users {
      var i :| 0 <= i < |st.threads| && WillRemove(st.threads[i], q, id);
      assert ConnThread(st, st.threads[i]);
    }
  }

  /** The next step of thread `i` is a send to `id`. */
  ghost predicate Sends(st: State, i: nat, id: nat) {
    && i < |st.threads| && st.threads[i].PubSending? && CanMove(st, i, [])
    && st.threads[i].left != [] && st.threads[i].left[0] == id
  }

  /** The send throws "unknow client". */
  ghost predicate SendThrows(st: State, i: nat, id: nat) {
    Sends(st, i, id) && !Reaches(st, id)
  }

  /** The send finds the connection, but its stream was reset. */
  ghost predicate SendMeetsReset(st: State, i: nat, id: nat) {
    Sends(st, i, id) && id in st.conns && id in st.closed
  }

  lemma SendOutcome(st: State, i: nat, id: nat)
    requires ConnInv(st) && Sends(st, i, id)
    ensures SendThrows(st, i, id) <==> id in st.gone
    ensures SendMeetsReset(st, i, id) <==> DropStart(id) in st.threads
  {
    assert ConnThread(st, st.threads[i]) && id in st.threads[i].left;
    if id != SERVER_ID {
      ListedOrGone(st, id);
      if DropStart(id) in st.threads {
        var j :| 0 <= j < |st.threads| && st.threads[j] == DropStart(id);
        assert ConnThread(st, st.threads[j]);
      }
    }
  }

  /** A send throws exactly when the disconnect of its target has finished (since the copy, by
   *  `CopiedAreConnected`), and meets a reset stream exactly when the target's connection is closing and
   *  waits for the lock that the send now takes; otherwise it reaches its target. No other send ever
   *  threw or met a reset stream. */
  lemma SendThrowsIff(rx: Engine, run: seq<Step>, i: nat, id: nat)
    requires RunLocks(Start(rx), run).Some? && Sends(RunLocks(Start(rx), run).value, i, id)
    ensures var st := RunLocks(Start(rx), run).value;
            && (SendThrows(st, i, id) <==> id in st.gone)
            && (SendMeetsReset(st, i, id) <==> DropStart(id) in st.threads)
            && st.unknown <= st.gone && st.reset <= st.closed
  {
    RunKeepsConnInv(Start(rx), run);
    SendOutcome(RunLocks(Start(rx), run).value, i, id);
  }
}
