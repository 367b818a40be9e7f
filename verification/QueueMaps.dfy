/** Queues and their listener maps under interleaved calls. */
module QueueMaps {
  import opened Basics
  import opened NodeCore
  import opened NodeLocks

  /** Thread `t` has stored queue `q` and has yet to record its owner. */
  predicate Creating(t: Thread, q: Text) {
    (t.ChangeLocked? || t.ChangeChecked? || t.ChangeReady?) && t.action.Create? && t.settings.queueName == q
  }

  /** A queue without a listener map is being created, or its creation was aborted. */
  ghost predicate Explained(st: State, q: Text) {
    q in st.aborted || exists i :: 0 <= i < |st.threads| && Creating(st.threads[i], q)
  }

  ghost predicate MapInv(st: State) {
    forall q :: q in st.node.queues && q !in st.node.subs ==> Explained(st, q)
  }

  lemma MoveKeepsMaps(st: State, i: nat, q: Text, r: Text)
    requires Wf(st) && MapInv(st) && CanMove(st, i, q)
    requires var s' := Move(st, i, q).node; r in s'.queues && r !in s'.subs
    ensures Explained(Move(st, i, q), r)
  {
    var st' := Move(st, i, q);
    assert forall j :: 0 <= j < |st.threads| && j != i ==> st'.threads[j] == st.threads[j];
    if r in st.node.queues {
      if r !in st.aborted {
        var j :| 0 <= j < |st.threads| && Creating(st.threads[j], r);
        assert Creating(st'.threads[j], r) || r in st'.aborted;
      }
    } else {
      assert Creating(st'.threads[i], r);
    }
  }

  lemma {:induction false} QueuesHaveListenerMaps(st: State, run: seq<Step>)
    requires Wf(st) && Exclusive(st.threads) && MapInv(st)
    ensures RunLocks(st, run).Some? ==> MapInv(RunLocks(st, run).value)
    decreases |run|
  {
    if run != [] && CanStep(st, run[0]) {
      var st' := After(st, run[0]);
      StepKeepsBasics(st, run[0]);
      forall r | r in st'.node.queues && r !in st'.node.subs ensures Explained(st', r) {
        match run[0]
        case Moves(i, q) => MoveKeepsMaps(st, i, q, r);
        case _ =>
          if r !in st.aborted {
            var j :| 0 <= j < |st.threads| && Creating(st.threads[j], r);
            assert st'.threads[j] == st.threads[j];
          }
      }
      QueuesHaveListenerMaps(st', run[1..]);
    }
  }

  // ---------------------------------------------------------------- exactly when a queue is left bare

  ghost predicate BeingCreated(st: State, q: Text) {
    exists i :: 0 <= i < |st.threads| && Creating(st.threads[i], q)
  }

  /** A queue without a listener map that no call is about to give one. */
  ghost predicate Bare(st: State, q: Text) {
    q in st.node.queues && q !in st.node.subs && !BeingCreated(st, q)
  }

  /** The step is the second check of a creation of `q`: the client is gone, and nobody had listened to `q`. */
  ghost predicate Abandons(st: State, s: Step, q: Text) {
    && s.Moves? && s.i < |st.threads|
    && st.threads[s.i].ChangeLocked? && st.threads[s.i].action.Create? && st.threads[s.i].settings.queueName == q
    && st.threads[s.i].id !in st.users && q !in st.node.subs
  }

  ghost predicate Stored(s: NodeState, t: Thread) {
    && (t.ChangeStart? ==> !t.action.Create?)
    && (t.ChangeLocked? && t.action.Create? ==> t.settings.queueName in s.queues)
  }

  /** A queue under creation is stored. */
  ghost predicate StoredInv(st: State) {
    forall i :: 0 <= i < |st.threads| ==> Stored(st.node, st.threads[i])
  }

  lemma StepKeepsStored(st: State, s: Step)
    requires Wf(st) && Exclusive(st.threads) && StoredInv(st) && CanStep(st, s)
    ensures StoredInv(After(st, s))
  {
    var st' := After(st, s);
    forall j | 0 <= j < |st'.threads| ensures Stored(st'.node, st'.threads[j]) {
      if j < |st.threads| {
        assert Stored(st.node, st.threads[j]);
        if s.Moves? && j != s.i {
          assert st'.threads[j] == st.threads[j] && Apart(st.threads[j], st.threads[s.i]);
        }
      }
    }
  }

  lemma CreatorStays(st: State, st': State, i: nat, q: Text)
    requires i < |st.threads| && |st'.threads| == |st.threads| && st'.threads == st.threads[i := st'.threads[i]]
    requires BeingCreated(st, q) && (Creating(st.threads[i], q) ==> Creating(st'.threads[i], q))
    ensures BeingCreated(st', q)
  {
    var j :| 0 <= j < |st.threads| && Creating(st.threads[j], q);
    assert Creating(st'.threads[j], q);
  }

  /** The mover was the only creator, so none is left when it gives up. */
  lemma NoCreatorLeft(st: State, i: nat, q: Text, t: Thread)
    requires i < |st.threads| && Exclusive(st.threads) && WritesQ(st.threads[i]) && !Creating(t, q)
    ensures !BeingCreated(With(st, i, t), q)
  {
    forall j | 0 <= j < |st.threads| && j != i ensures !Creating(st.threads[j], q) {
      assert Apart(st.threads[i], st.threads[j]);
    }
  }

  lemma OthersLeaveNoneBare(st: State, i: nat, p: Text, q: Text)
    requires Wf(st) && CanMove(st, i, p) && !Bare(st, q) && !Abandons(st, Moves(i, p), q)
    ensures !Bare(Move(st, i, p), q)
  {
    var st' := Move(st, i, p);
    if q in st'.node.queues && q !in st'.node.subs {
      if q in st.node.queues {
        CreatorStays(st, st', i, q);
      } else {
        assert Creating(st'.threads[i], q);
      }
    }
  }

  lemma AbandonLeavesBare(st: State, s: Step, q: Text)
    requires Wf(st) && Exclusive(st.threads) && StoredInv(st) && CanStep(st, s) && Abandons(st, s, q)
    ensures Bare(After(st, s), q)
  {
    NoCreatorLeft(st, s.i, q, Leaving);
  }

  /** A step leaves a queue bare exactly when it abandons the creation of that queue. */
  lemma BareAfterStepIff(st: State, s: Step, q: Text)
    requires Wf(st) && Exclusive(st.threads) && StoredInv(st) && CanStep(st, s) && !Bare(st, q)
    ensures Bare(After(st, s), q) <==> Abandons(st, s, q)
  {
    match s
    case Moves(i, p) =>
      if Abandons(st, s, q) {
        AbandonLeavesBare(st, s, q);
      } else {
        OthersLeaveNoneBare(st, i, p, q);
      }
    case _ =>
      if BeingCreated(st, q) {
        var j :| 0 <= j < |st.threads| && Creating(st.threads[j], q);
        assert Creating(After(st, s).threads[j], q);
      }
  }

  /** In `st` and after every step of `run`, every queue has a listener map or is being created. */
  ghost predicate NeverBare(st: State, run: seq<Step>)
    requires Wf(st) && Exclusive(st.threads)
    decreases |run|
  {
    if run == [] || !CanStep(st, run[0]) then forall q :: !Bare(st, q)
    else
      StepKeepsBasics(st, run[0]);
      (forall q :: !Bare(st, q)) && NeverBare(After(st, run[0]), run[1..])
  }

  /** No step of `run` abandons a creation. */
  ghost predicate NeverAbandons(st: State, run: seq<Step>)
    requires Wf(st) && Exclusive(st.threads)
    decreases |run|
  {
    if run == [] || !CanStep(st, run[0]) then true
    else
      StepKeepsBasics(st, run[0]);
      (forall q :: !Abandons(st, run[0], q)) && NeverAbandons(After(st, run[0]), run[1..])
  }

  /** Over a whole run, queues have listener maps exactly when no creation is abandoned. */
  lemma {:induction false} ListenerMapsIff(st: State, run: seq<Step>)
    requires Wf(st) && Exclusive(st.threads) && StoredInv(st) && forall q :: !Bare(st, q)
    ensures NeverBare(st, run) <==> NeverAbandons(st, run)
    decreases |run|
  {
    if run != [] && CanStep(st, run[0]) {
      var st' := After(st, run[0]);
      StepKeepsBasics(st, run[0]);
      StepKeepsStored(st, run[0]);
      forall q ensures Bare(st', q) <==> Abandons(st, run[0], q) {
        BareAfterStepIff(st, run[0], q);
      }
      if forall q :: !Bare(st', q) {
        ListenerMapsIff(st', run[1..]);
      }
    }
  }

  // ---------------------------------------------------------------- insertions under a shared lock

  /** The queue that a publish found is stored, or has a listener map. */
  ghost predicate Found(s: NodeState, t: Thread) {
    t.PubWaiting? || t.PubReading? ==> t.params.queueName in s.queues || t.params.queueName in s.subs
  }

  ghost predicate FoundInv(st: State) {
    forall i :: 0 <= i < |st.threads| ==> Found(st.node, st.threads[i])
  }

  /** A name once stored or listened to stays stored or listened to. */
  lemma NamesStay(st: State, i: nat, p: Text, q: Text)
    requires Wf(st) && CanMove(st, i, p) && (q in st.node.queues || q in st.node.subs)
    ensures q in Move(st, i, p).node.queues || q in Move(st, i, p).node.subs
  {
  }

  lemma StepKeepsFound(st: State, s: Step)
    requires Wf(st) && CanStep(st, s) && FoundInv(st)
    ensures FoundInv(After(st, s))
  {
    var st' := After(st, s);
    forall j | 0 <= j < |st'.threads| ensures Found(st'.node, st'.threads[j]) {
      if j < |st.threads| {
        var t := st.threads[j];
        assert Found(st.node, t);
        if s.Moves? && (t.PubWaiting? || t.PubReading?) {
          NamesStay(st, s.i, s.q, t.params.queueName);
        }
      }
    }
  }

  lemma {:induction false} RunKeepsFound(st: State, run: seq<Step>)
    requires Wf(st) && Exclusive(st.threads) && FoundInv(st) && RunLocks(st, run).Some?
    ensures FoundInv(RunLocks(st, run).value)
    decreases |run|
  {
    if run != [] {
      StepKeepsBasics(st, run[0]);
      StepKeepsFound(st, run[0]);
      RunKeepsFound(After(st, run[0]), run[1..]);
    }
  }

  /** Copying the listeners under the shared lock inserts a listener map exactly when the queue was left
   *  bare by an abandoned creation, or is being created under a name nobody had listened to. */
  lemma SharedInsertIff(rx: Engine, run: seq<Step>, i: nat)
    requires RunLocks(Start(rx), run).Some?
    requires var st := RunLocks(Start(rx), run).value; i < |st.threads| && st.threads[i].PubReading?
    ensures var st := RunLocks(Start(rx), run).value;
            var q := st.threads[i].params.queueName;
            Move(st, i, []).node != st.node <==> Bare(st, q) || (BeingCreated(st, q) && q !in st.node.subs)
  {
    RunKeepsFound(Start(rx), run);
    var st := RunLocks(Start(rx), run).value;
    var q := st.threads[i].params.queueName;
    assert Found(st.node, st.threads[i]);
    if q in st.node.subs {
      assert Touch(st.node, q).subs == st.node.subs;
    } else {
      assert q in Touch(st.node, q).subs;
    }
  }
}
