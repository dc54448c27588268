/** The controller's single event queue (enclave/agent/controller.py:301-309, called from
    enclave/main.py:246): enabling streaming for a task replaces the queue, and every
    task's events go to the queue that is current when they are emitted. */
module SharedQueue {

  datatype Action = Start(task: nat) | Emit(task: nat, event: string) | End(task: nat)

  datatype Sent = Sent(task: nat, event: string)

  datatype Life = Unborn | Running | Over

  function LifeOf(t: nat, run: seq<Action>): Life {
    if run == [] then Unborn
    else
      var a := run[|run| - 1];
      if a == Start(t) then Running else if a == End(t) then Over else LifeOf(t, run[..|run| - 1])
  }

  /** Every task starts once and emits events between its start and its end only. */
  predicate Lifetimes(run: seq<Action>) {
    run != [] ==>
      var front, a := run[..|run| - 1], run[|run| - 1];
      Lifetimes(front) && LifeOf(a.task, front) == if a.Start? then Unborn else Running
  }

  /** The task whose queue is current; -1 before streaming was ever enabled. */
  function Current(run: seq<Action>): int {
    if run == [] then -1
    else
      var a := run[|run| - 1];
      if a.Start? then a.task else Current(run[..|run| - 1])
  }

  /** The events put into the queue of task `t`, which its connection streams. */
  function QueueOf(t: nat, run: seq<Action>): seq<Sent> {
    if run == [] then []
    else
      var front, a := run[..|run| - 1], run[|run| - 1];
      QueueOf(t, front) + if a.Emit? && Current(front) == t then [Sent(a.task, a.event)] else []
  }

  /** The events that task `t` emits. */
  function EmittedBy(t: nat, run: seq<Action>): seq<Sent> {
    if run == [] then []
    else
      var front, a := run[..|run| - 1], run[|run| - 1];
      EmittedBy(t, front) + if a.Emit? && a.task == t then [Sent(a.task, a.event)] else []
  }

  ghost predicate QueuesAreOwn(run: seq<Action>) {
    forall t: nat :: QueueOf(t, run) == EmittedBy(t, run)
  }

  /** Another task starts between the start of the task that acts at `k` and `k`. */
  predicate Interrupted(run: seq<Action>, i: int, j: int, k: int) {
    0 <= i < j < k < |run| && run[k].Emit? && run[i] == Start(run[k].task) && run[j].Start?
  }

  ghost predicate UndisturbedAt(run: seq<Action>, k: int) {
    forall i, j :: !Interrupted(run, i, j, k)
  }

  /** No task starts between another one's start and last event. */
  ghost predicate Undisturbed(run: seq<Action>) {
    forall k :: UndisturbedAt(run, k)
  }

  // ---- Where a task that acts was started ----

  lemma {:induction false} StartOf(t: nat, run: seq<Action>) returns (i: nat)
    requires LifeOf(t, run) == Running
    ensures i < |run| && run[i] == Start(t)
  {
    if run[|run| - 1] == Start(t) {
      i := |run| - 1;
    } else {
      i := StartOf(t, run[..|run| - 1]);
    }
  }

  lemma {:induction false} StartedIsBorn(t: nat, run: seq<Action>, i: nat)
    requires i < |run| && run[i] == Start(t)
    ensures LifeOf(t, run) != Unborn
  {
    if i < |run| - 1 {
      StartedIsBorn(t, run[..|run| - 1], i);
    }
  }

  /** The task with the current queue was the last one to start. */
  lemma {:induction false} LastStart(run: seq<Action>) returns (i: nat)
    requires Current(run) >= 0
    ensures i < |run| && run[i] == Start(Current(run))
    ensures forall j :: i < j < |run| ==> !run[j].Start?
  {
    var front, a := run[..|run| - 1], run[|run| - 1];
    if a.Start? {
      i := |run| - 1;
    } else {
      i := LastStart(front);
      forall j | i < j < |run| ensures !run[j].Start? {
        if j < |front| { assert !front[j].Start?; }
      }
    }
  }

  lemma {:induction false} SomeStart(run: seq<Action>, i: nat)
    requires i < |run| && run[i].Start?
    ensures Current(run) >= 0
  {
    if i < |run| - 1 {
      SomeStart(run[..|run| - 1], i);
    }
  }

  lemma {:induction false} OneStartEach(run: seq<Action>, i: nat, j: nat)
    requires Lifetimes(run) && i < j < |run| && run[i].Start? && run[j].Start?
    ensures run[i].task != run[j].task
  {
    var front := run[..|run| - 1];
    if j < |run| - 1 {
      OneStartEach(front, i, j);
    } else if run[i].task == run[j].task {
      StartedIsBorn(run[i].task, front, i);
    }
  }

  /** An event goes to its own task's queue exactly if no other task has started since. */
  lemma EmitsToOwn(run: seq<Action>)
    requires run != [] && Lifetimes(run) && run[|run| - 1].Emit?
    ensures var k := |run| - 1;
            Current(run[..k]) == run[k].task <==> UndisturbedAt(run, k)
  {
    var k := |run| - 1;
    var front, t := run[..k], run[k].task;
    var s := StartOf(t, front);
    SomeStart(front, s);
    var last := LastStart(front);
    if Current(front) == t {
      forall i, j ensures !Interrupted(run, i, j, k) {
        if Interrupted(run, i, j, k) {
          assert front[i] == Start(t) && front[j].Start?;
          assert j <= last;
          OneStartEach(run, i, last);
        }
      }
    } else {
      assert front[s].Start? && s != last;
      assert Interrupted(run, s, last, k);
    }
  }

  // ---- The queues ----

  lemma {:induction false} EmittedAreOwn(t: nat, run: seq<Action>)
    ensures forall s <- EmittedBy(t, run) :: s.task == t
  {
    if run != [] {
      EmittedAreOwn(t, run[..|run| - 1]);
    }
  }

  lemma UndisturbedFront(run: seq<Action>)
    requires run != []
    ensures Undisturbed(run) <==> Undisturbed(run[..|run| - 1]) && UndisturbedAt(run, |run| - 1)
  {
    var front := run[..|run| - 1];
    forall i, j, k | k < |front| ensures Interrupted(run, i, j, k) <==> Interrupted(front, i, j, k) {}
    if Undisturbed(front) && UndisturbedAt(run, |run| - 1) {
      forall i, j, k ensures !Interrupted(run, i, j, k) {
        if k < |front| { assert UndisturbedAt(front, k); }
      }
    }
    if Undisturbed(run) {
      assert UndisturbedAt(run, |run| - 1);
      forall i, j, k ensures !Interrupted(front, i, j, k) {
        assert UndisturbedAt(run, k);
      }
    }
  }

  lemma {:induction false} UndisturbedQueues(t: nat, run: seq<Action>)
    requires Lifetimes(run) && Undisturbed(run)
    ensures QueueOf(t, run) == EmittedBy(t, run)
  {
    if run != [] {
      UndisturbedFront(run);
      UndisturbedQueues(t, run[..|run| - 1]);
      hide Undisturbed;
      if run[|run| - 1].Emit? {
        EmitsToOwn(run);
      }
    }
  }

  lemma {:induction false} DisturbedQueue(run: seq<Action>) returns (t: nat, s: Sent)
    requires Lifetimes(run) && !Undisturbed(run)
    ensures s in QueueOf(t, run) && s.task != t
  {
    var front, a := run[..|run| - 1], run[|run| - 1];
    UndisturbedFront(run);
    if !Undisturbed(front) {
      t, s := DisturbedQueue(front);
    } else {
      var i, j :| Interrupted(run, i, j, |run| - 1);
      EmitsToOwn(run);
      SomeStart(front, i);
      t, s := Current(front), Sent(a.task, a.event);
      assert QueueOf(t, run)[|QueueOf(t, front)|] == s;
    }
  }

  /** Every connection streams exactly its own task's events, in order, exactly when no
      task starts between another one's start and last event. */
  lemma QueuesAreOwnExactly(run: seq<Action>)
    requires Lifetimes(run)
    ensures QueuesAreOwn(run) <==> Undisturbed(run)
  {
    if Undisturbed(run) {
      forall t: nat ensures QueueOf(t, run) == EmittedBy(t, run) {
        UndisturbedQueues(t, run);
      }
    } else {
      var t, s := DisturbedQueue(run);
      EmittedAreOwn(t, run);
      assert QueueOf(t, run) != EmittedBy(t, run);
    }
  }

  /** No task starts while another one runs. */
  ghost predicate Sequential(run: seq<Action>) {
    forall i, t: nat :: 0 <= i < |run| && run[i].Start? ==> LifeOf(t, run[..i]) != Running
  }

  /** In particular when tasks run one after the other. */
  lemma SequentialTasks(run: seq<Action>)
    requires Lifetimes(run) && Sequential(run)
    ensures QueuesAreOwn(run)
  {
    forall i, j, k ensures !Interrupted(run, i, j, k) {
      if Interrupted(run, i, j, k) {
        OverStaysOver(run, run[k].task, i, j, k);
      }
    }
    QueuesAreOwnExactly(run);
  }

  lemma {:induction false} LifetimesOfPrefix(run: seq<Action>, k: nat)
    requires Lifetimes(run) && k <= |run|
    ensures Lifetimes(run[..k])
  {
    if k < |run| {
      LifetimesOfPrefix(run[..|run| - 1], k);
      assert run[..|run| - 1][..k] == run[..k];
    } else {
      assert run[..k] == run;
    }
  }

  lemma LifeAt(run: seq<Action>, k: nat)
    requires Lifetimes(run) && k < |run|
    ensures LifeOf(run[k].task, run[..k]) == if run[k].Start? then Unborn else Running
  {
    LifetimesOfPrefix(run, k + 1);
    assert run[..k + 1][..k] == run[..k];
  }

  lemma LifeNext(t: nat, run: seq<Action>, k: nat)
    requires k < |run|
    ensures LifeOf(t, run[..k + 1])
            == if run[k] == Start(t) then Running else if run[k] == End(t) then Over else LifeOf(t, run[..k])
  {
    assert run[..k + 1][..k] == run[..k];
  }

  /** A task that was started at `i` and is not running at `j` emits nothing at `k`. */
  lemma {:induction false} OverStaysOver(run: seq<Action>, t: nat, i: nat, j: nat, k: nat)
    requires Lifetimes(run) && i < j <= k < |run| && run[i] == Start(t)
    requires LifeOf(t, run[..j]) != Running
    ensures LifeOf(t, run[..k]) == Over && run[k] != Start(t) && !(run[k].Emit? && run[k].task == t)
    decreases k
  {
    hide Lifetimes, LifeOf;
    StartedIsBorn(t, run[..k], i);
    LifeAt(run, k);
    if j < k {
      OverStaysOver(run, t, i, j, k - 1);
      LifeNext(t, run, k - 1);
    }
  }

  /** An event that is emitted is the emitting task's, and goes to the current queue and to
      no other, behind what is there. */
  lemma EmissionArrives(run: seq<Action>, s: nat, event: string, t: nat)
    ensures var next := run + [Emit(s, event)];
            && EmittedBy(t, next) == EmittedBy(t, run) + (if t == s then [Sent(s, event)] else [])
            && QueueOf(t, next) == QueueOf(t, run) + (if Current(run) == t then [Sent(s, event)] else [])
  {
    assert (run + [Emit(s, event)])[..|run|] == run;
  }

  /** With two tasks at once, the first one's events reach the second one's connection. */
  lemma OverlappingTasks(event: string)
    ensures var run := [Start(1), Start(2), Emit(1, event)];
            Lifetimes(run) && QueueOf(1, run) == [] && QueueOf(2, run) == [Sent(1, event)]
  {
    var one, two := [Start(1)], [Start(1), Start(2)];
    assert one[..0] == [] && two[..1] == one && (two + [Emit(1, event)])[..2] == two;
    assert two + [Emit(1, event)] == [Start(1), Start(2), Emit(1, event)];
    assert Lifetimes(one) && LifeOf(1, one) == Running && LifeOf(2, one) == Unborn;
    assert Lifetimes(two) && LifeOf(1, two) == Running;
    assert QueueOf(1, one) == [] && QueueOf(2, one) == [];
    assert QueueOf(1, two) == [] && QueueOf(2, two) == [];
    assert Current(two) == 2;
  }
}
