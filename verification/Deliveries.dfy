/** A publish from its copy to its end, while other calls run. */
module Deliveries {
  import opened Basics
  import opened NodeCore
  import opened NodeLocks
  import opened Connections
  import opened Linearization
  import opened LockedDelivery
  import H = History

  /** A publish that has copied the listeners. */
  predicate Copied(t: Thread) {
    t.PubSending? || t.Published?
  }

  /** The ids a publish selected from its copy. */
  ghost function Chosen(rx: Engine, t: Thread): seq<nat>
    requires Copied(t)
  {
    Ascending(TargetSet(rx, t.copy, t.params.tag))
  }

  /** How far the publish has come: it has sent to the ids chosen, in order, and has those left to send to;
   *  when it is done it has sent to all, or it threw at the first that was gone. */
  ghost predicate OnCourse(st: State, t: Thread) {
    match t
    case PubSending(_, _, left, sent) => sent + left == Chosen(st.rx, t)
    case Published(_, _, sent, threw) =>
      var all := Chosen(st.rx, t);
      if threw then |sent| < |all| && sent == all[..|sent|] && all[|sent|] in st.gone else sent == all
    case _ => true
  }

  ghost predicate CourseInv(st: State) {
    forall i :: 0 <= i < |st.threads| ==> OnCourse(st, st.threads[i])
  }

  lemma SendKeepsCourse(st: State, i: nat, q: Text)
    requires Wf(st) && ConnInv(st) && CanMove(st, i, q) && st.threads[i].PubSending? && OnCourse(st, st.threads[i])
    ensures OnCourse(Move(st, i, q), Move(st, i, q).threads[i])
  {
    var t := st.threads[i];
    if t.left != [] {
      assert Sends(st, i, t.left[0]);
      SendOutcome(st, i, t.left[0]);
      assert (t.sent + [t.left[0]]) + t.left[1..] == t.sent + t.left;
      assert (t.sent + t.left)[..|t.sent|] == t.sent && (t.sent + t.left)[|t.sent|] == t.left[0];
    } else {
      assert t.sent + t.left == t.sent;
    }
  }

  lemma ReadKeepsCourse(st: State, i: nat, q: Text)
    requires Wf(st) && CanMove(st, i, q) && st.threads[i].PubReading?
    ensures OnCourse(Move(st, i, q), Move(st, i, q).threads[i])
  {
    var t' := Move(st, i, q).threads[i];
    assert [] + t'.left == t'.left;
  }

  lemma OtherKeepsCourse(st: State, i: nat, q: Text)
    requires Wf(st) && CanMove(st, i, q) && !st.threads[i].PubReading? && !st.threads[i].PubSending?
    ensures !Copied(Move(st, i, q).threads[i])
  {
  }

  lemma BystanderKeepsCourse(st: State, i: nat, q: Text, j: nat)
    requires Wf(st) && CanMove(st, i, q) && j < |st.threads| && j != i && OnCourse(st, st.threads[j])
    ensures OnCourse(Move(st, i, q), Move(st, i, q).threads[j])
  {
    assert Move(st, i, q).threads[j] == st.threads[j] && st.gone <= Move(st, i, q).gone && Move(st, i, q).rx == st.rx;
  }

  lemma MoveKeepsCourse(st: State, i: nat, q: Text, j: nat)
    requires Wf(st) && ConnInv(st) && CourseInv(st) && CanMove(st, i, q) && j < |st.threads|
    ensures OnCourse(Move(st, i, q), Move(st, i, q).threads[j])
  {
    assert OnCourse(st, st.threads[j]);
    if i != j {
      BystanderKeepsCourse(st, i, q, j);
    } else if st.threads[i].PubSending? {
      SendKeepsCourse(st, i, q);
    } else if st.threads[i].PubReading? {
      ReadKeepsCourse(st, i, q);
    } else {
      OtherKeepsCourse(st, i, q);
    }
  }

  lemma StepKeepsCourse(st: State, s: Step)
    requires Wf(st) && ConnInv(st) && CourseInv(st) && CanStep(st, s)
    ensures CourseInv(After(st, s))
  {
    forall j: nat | j < |After(st, s).threads| ensures OnCourse(After(st, s), After(st, s).threads[j]) {
      if s.Moves? {
        MoveKeepsCourse(st, s.i, s.q, j);
      } else if j < |st.threads| {
        assert OnCourse(st, st.threads[j]) && After(st, s).threads[j] == st.threads[j];
      }
    }
  }

  ghost predicate Sound(st: State) {
    LockInv(st) && ConnInv(st) && CourseInv(st)
  }

  lemma StepIsSound(st: State, s: Step)
    requires Sound(st) && CanStep(st, s)
    ensures Sound(After(st, s))
  {
    StepKeepsLockInv(st, s);
    StepKeepsConnInv(st, s);
    StepKeepsCourse(st, s);
  }

  lemma {:induction false} RunIsSound(st: State, run: seq<Step>)
    requires Sound(st) && RunLocks(st, run).Some?
    ensures Sound(RunLocks(st, run).value)
    decreases |run|
  {
    if run != [] {
      StepIsSound(st, run[0]);
      RunIsSound(After(st, run[0]), run[1..]);
    }
  }

  // ---------------------------------------------------------------- where the copy was made

  /** The last step of a run. */
  lemma {:induction false} LastStep(st: State, run: seq<Step>)
    requires Wf(st) && Exclusive(st.threads) && RunLocks(st, run).Some? && run != []
    ensures var n := |run| - 1;
            && RunLocks(st, run[..n]).Some? && CanStep(RunLocks(st, run[..n]).value, run[n])
            && RunLocks(st, run).value == After(RunLocks(st, run[..n]).value, run[n])
    decreases |run|
  {
    var n := |run| - 1;
    StepKeepsBasics(st, run[0]);
    if n == 0 {
      assert run[..0] == [] && run[1..] == [];
    } else {
      LastStep(After(st, run[0]), run[1..]);
      assert run[1..][..n - 1] == run[..n][1..] && run[1..][n - 1] == run[n];
    }
  }

  /** Thread `i` is at the copy of its publish in `was`, and `t` is that publish later on. */
  ghost predicate CopiesAt(was: State, s: Step, i: nat, t: Thread) {
    && Copied(t) && s.Moves? && s.i == i && i < |was.threads| && was.threads[i] == PubReading(t.params)
    && t.copy == ListenersOf(was.node, t.params.queueName)
  }

  lemma CopyStays(st: State, s: Step, i: nat)
    requires Wf(st) && CanStep(st, s) && i < |After(st, s).threads| && Copied(After(st, s).threads[i])
    ensures i < |st.threads|
    ensures var t, t' := st.threads[i], After(st, s).threads[i];
            CopiesAt(st, s, i, t') || (Copied(t) && t'.params == t.params && t'.copy == t.copy)
  {
  }

  lemma {:induction false} CopyOrigin(st: State, run: seq<Step>, i: nat) returns (n: nat)
    requires Wf(st) && Exclusive(st.threads) && RunLocks(st, run).Some? && st.threads == []
    requires i < |RunLocks(st, run).value.threads| && Copied(RunLocks(st, run).value.threads[i])
    ensures n < |run| && RunLocks(st, run[..n]).Some?
    ensures CopiesAt(RunLocks(st, run[..n]).value, run[n], i, RunLocks(st, run).value.threads[i])
    decreases |run|
  {
    if run != [] {
      var m := |run| - 1;
      LastStep(st, run);
      CopyStays(RunLocks(st, run[..m]).value, run[m], i);
      if CopiesAt(RunLocks(st, run[..m]).value, run[m], i, RunLocks(st, run).value.threads[i]) {
        n := m;
      } else {
        n := CopyOrigin(st, run[..m], i);
        assert run[..m][..n] == run[..n];
      }
    }
  }

  lemma CopyStep(was: State, s: Step, i: nat, t: Thread)
    requires Wf(was) && CopiesAt(was, s, i, t)
    ensures Move(was, i, []).threads[i] == PubSending(t.params, t.copy, Chosen(was.rx, t), [])
  {
  }

  /** What was selected at the copy is what the publish chose. */
  lemma CopyMeans(was: State, s: Step, i: nat, t: Thread, g: seq<H.Event>)
    requires Wf(was) && CopiesAt(was, s, i, t) && DeliversAfter(was, i, g)
    ensures t.copy == ListenersOf(H.After(g).node, t.params.queueName) && SelectedBy(was.rx, g, t.params, Chosen(was.rx, t))
  {
    CopyStep(was, s, i, t);
  }

  lemma EndOnCourse(rx: Engine, run: seq<Step>, i: nat)
    requires RunLocks(Start(rx), run).Some? && i < |RunLocks(Start(rx), run).value.threads|
    ensures OnCourse(RunLocks(Start(rx), run).value, RunLocks(Start(rx), run).value.threads[i])
  {
    RunIsSound(Start(rx), run);
  }

  // ---------------------------------------------------------------- the theorem

  /** In every run, a publish that has copied its listeners did so at some step `n` before; the ids it
   *  chose are, ascending, the clients selected by the linearized history of that moment, less the change
   *  then pending; and it has sent to them in order: to all of them when it has ended without a throw,
   *  and up to the first whose disconnect has finished when it threw. */
  lemma PublishRunsItsCourse(rx: Engine, run: seq<Step>, i: nat) returns (n: nat, g: seq<H.Event>)
    requires RunLocks(Start(rx), run).Some?
    requires var st := RunLocks(Start(rx), run).value; i < |st.threads| && Copied(st.threads[i])
    ensures n < |run| && RunLocks(Start(rx), run[..n]).Some?
    ensures var was, st := RunLocks(Start(rx), run[..n]).value, RunLocks(Start(rx), run).value;
            var t := st.threads[i];
            && CopiesAt(was, run[n], i, t)
            && UpToPending(was, Linearize(Start(rx), run[..n]), g)
            && t.copy == ListenersOf(H.After(g).node, t.params.queueName)
            && SelectedBy(rx, g, t.params, Chosen(rx, t))
            && OnCourse(st, t)
  {
    n := CopyOrigin(Start(rx), run, i);
    g := ConcurrentDeliveryFollowsHistory(rx, run[..n], i);
    CopyMeans(RunLocks(Start(rx), run[..n]).value, run[n], i, RunLocks(Start(rx), run).value.threads[i], g);
    EndOnCourse(rx, run, i);
  }
}
