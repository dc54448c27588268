/** The database object, its queries, and the handler of one task request as a sequence of
    its statements (enclave/memory/state_db.py:113-253, enclave/main.py:218-288). */
module TaskHandler {
  import opened Models
  import opened AgentLoop
  import opened Controller
  import L = Ledger

  class TaskStateDB {
    var tables: L.Tables

    constructor ()
      ensures tables == L.Tables([], [], [])
    {
      tables := L.Tables([], [], []);
    }

    method CreateTask(taskId: string, userId: string, description: string) returns (ok: bool)
      modifies this
      ensures match L.Inserted(old(tables), taskId, userId, description)
              case None => !ok && tables == old(tables)
              case Some(inserted) => ok && tables == inserted
    {
      ok := true;
      for i := 0 to |tables.tasks|
        invariant forall j :: 0 <= j < i ==> tables.tasks[j].taskId != taskId
        invariant ok && tables == old(tables)
      {
        if tables.tasks[i].taskId == taskId {
          return false;
        }
      }
      tables := tables.(tasks := tables.tasks + [L.TaskRow(taskId, userId, description, "running", 0)]);
    }

    method CompleteTask(taskId: string, result: TaskResult)
      modifies this
      ensures tables == L.Updated(old(tables), taskId, result.success, result.totalCost)
    {
      var rows := tables.tasks;
      for i := 0 to |rows|
        invariant tables == old(tables) && |rows| == |tables.tasks|
        invariant forall j :: 0 <= j < |rows| ==>
          rows[j] == if j < i then L.UpdateRow(tables.tasks[j], taskId, result.success, result.totalCost) else tables.tasks[j]
      {
        rows := rows[i := L.UpdateRow(rows[i], taskId, result.success, result.totalCost)];
      }
      tables := tables.(tasks := rows);
    }

    method RecordStep(taskId: string, step: StepResult)
      modifies this
      ensures tables == L.Logged(old(tables), taskId, step)
    {
      tables := tables.(steps := tables.steps + [L.StepRowOf(taskId, step)]);
      tables := tables.(costLog := tables.costLog + [L.CostRowOf(taskId, step)]);
    }

    method GetTaskCost(taskId: string) returns (total: int)
      ensures total == L.TaskCost(tables.costLog, taskId)
    {
      total := 0;
      var log := tables.costLog;
      for i := 0 to |log|
        invariant total == L.TaskCost(log[..i], taskId)
      {
        assert log[..i + 1][..i] == log[..i];
        if log[i].taskId == taskId {
          total := total + log[i].cost;
        }
      }
      assert log[..|log|] == log;
    }

    method GetUserTotalCost(userId: string) returns (total: int)
      ensures total == L.UserCost(tables, userId)
    {
      total := 0;
      var log, tasks := tables.costLog, tables.tasks;
      for i := 0 to |log|
        invariant total == L.JoinedCost(log[..i], tasks, userId)
      {
        assert log[..i + 1][..i] == log[..i];
        for j := 0 to |tasks|
          invariant total == L.JoinedCost(log[..i], tasks, userId) + L.JoinedRow(log[i], tasks[..j], userId)
        {
          assert tasks[..j + 1][..j] == tasks[..j];
          if tasks[j].taskId == log[i].taskId && tasks[j].userId == userId {
            total := total + log[i].cost;
          }
        }
        assert tasks[..|tasks|] == tasks;
      }
      assert log[..|log|] == log;
    }
  }

  /** All steps of a result, logged. */
  function LoggedAll(t: L.Tables, taskId: string, steps: seq<StepResult>): L.Tables {
    if steps == [] then t
    else L.Logged(LoggedAll(t, taskId, steps[..|steps| - 1]), taskId, steps[|steps| - 1])
  }

  lemma LoggedNext(t: L.Tables, taskId: string, steps: seq<StepResult>, i: nat)
    requires i < |steps|
    ensures LoggedAll(t, taskId, steps[..i + 1]) == L.Logged(LoggedAll(t, taskId, steps[..i]), taskId, steps[i])
  {
    assert steps[..i + 1][..i] == steps[..i];
  }

  /** The tables after a request was accepted and handled to its end. */
  function HandledTables(t: L.Tables, taskId: string, result: TaskResult): L.Tables {
    LoggedAll(L.Updated(t, taskId, result.success, result.totalCost), taskId, result.steps)
  }

  /** A request without a description, or with an id that is taken, changes no table. */
  method HandleTaskRequest(db: TaskStateDB, controller: AgentController, w: World, task: TaskRequest)
    returns (r: Option<TaskResult>)
    modifies db, controller
    ensures match if task.description == "" then None
                  else L.Inserted(old(db.tables), task.taskId, task.userId, task.description)
            case None => r == None && db.tables == old(db.tables)
            case Some(inserted) =>
              && r == Some(ResultOf(Execute(w, TaskConfig(task, controller.defaultTimeout), TaskStart(task.description))))
              && db.tables == HandledTables(inserted, task.taskId, r.value)
              && r.value.totalCost == SumCost(r.value.steps)
  {
    hide Execute, SumCost, L.Logged;
    if task.description == "" {
      return None;
    }
    var ok := db.CreateTask(task.taskId, task.userId, task.description);
    if !ok {
      return None;
    }
    var result := controller.RunTask(w, task);
    db.CompleteTask(task.taskId, result);
    ghost var updated := db.tables;
    var steps := result.steps;
    for i := 0 to |steps|
      invariant db.tables == LoggedAll(updated, task.taskId, steps[..i])
    {
      LoggedNext(updated, task.taskId, steps, i);
      hide LoggedAll;
      db.RecordStep(task.taskId, steps[i]);
    }
    assert steps[..|steps|] == steps;
    r := Some(result);
  }

  // ---- One handler on its own is one interleaving ----

  function RecordActions(h: nat, count: nat): seq<L.Action> {
    if count == 0 then [] else RecordActions(h, count - 1) + [L.InsertStep(h), L.InsertCost(h)]
  }

  lemma {:induction false} RecordingAll(before: seq<L.Action>, h: nat, id: string, success: bool,
                                       steps: seq<StepResult>, count: nat)
    requires h < |L.Run(before).handlers| && L.Run(before).handlers[h].taskId == id
    requires L.Run(before).handlers[h].progress == L.Logging(success, steps, 0, 0)
    requires count <= |steps|
    ensures var s := L.Run(before + RecordActions(h, count));
            && s.tables == LoggedAll(L.Run(before).tables, id, steps[..count])
            && s.handlers == L.Run(before).handlers[h := L.Run(before).handlers[h].(progress := L.Logging(success, steps, count, count))]
  {
    hide L.Run, L.Do, L.Logged;
    if count == 0 {
      assert before + RecordActions(h, 0) == before;
    } else {
      RecordingAll(before, h, id, success, steps, count - 1);
      var done := before + RecordActions(h, count - 1);
      assert before + RecordActions(h, count) == done + [L.InsertStep(h)] + [L.InsertCost(h)];
      RunOfAppend(done, L.InsertStep(h));
      RunOfAppend(done + [L.InsertStep(h)], L.InsertCost(h));
      LoggedNext(L.Run(before).tables, id, steps, count - 1);
      hide LoggedAll, RecordActions;
      OneStepLogged(L.Run(done), h, id, success, steps, count - 1);
    }
  }

  lemma OneStepLogged(s: L.System, h: nat, id: string, success: bool, steps: seq<StepResult>, k: nat)
    requires h < |s.handlers| && s.handlers[h].taskId == id && k < |steps|
    requires s.handlers[h].progress == L.Logging(success, steps, k, k)
    ensures L.Do(L.Do(s, L.InsertStep(h)), L.InsertCost(h))
            == L.System(L.Logged(s.tables, id, steps[k]), 
                        s.handlers[h := s.handlers[h].(progress := L.Logging(success, steps, k + 1, k + 1))])
  {
    hide L.StepInserted, L.CostInserted;
  }

  lemma RunOfAppend(before: seq<L.Action>, a: L.Action)
    ensures L.Run(before + [a]) == L.Do(L.Run(before), a)
  {
    assert (before + [a])[..|before|] == before;
  }

  /** The handler's statements, one after the other, from any state of the system. */
  function HandlerActions(h: nat, taskId: string, userId: string, description: string, result: TaskResult): seq<L.Action> {
    [L.Accept(taskId, userId, description), L.Finish(h, result.success, result.steps)] + RecordActions(h, |result.steps|)
  }

  /** A request that is accepted, and whose task has ended. */
  lemma AcceptedAndFinished(before: seq<L.Action>, taskId: string, userId: string, description: string, result: TaskResult)
    requires result.totalCost == SumCost(result.steps)
    requires L.Inserted(L.Run(before).tables, taskId, userId, description).Some?
    ensures var s := L.Run(before);
            var h := |s.handlers|;
            var after := L.Run(before + [L.Accept(taskId, userId, description), L.Finish(h, result.success, result.steps)]);
            && after.handlers == s.handlers + [L.Handler(taskId, userId, description, L.Logging(result.success, result.steps, 0, 0))]
            && after.tables == L.Updated(L.Inserted(s.tables, taskId, userId, description).value,
                                         taskId, result.success, result.totalCost)
  {
    hide L.Run, L.Inserted, L.Updated;
    var h := |L.Run(before).handlers|;
    var accept, finish := L.Accept(taskId, userId, description), L.Finish(h, result.success, result.steps);
    RunOfAppend(before, accept);
    RunOfAppend(before + [accept], finish);
    assert before + [accept] + [finish] == before + [accept, finish];
  }

  /** `HandleTaskRequest` is what the interleaving semantics makes of its statements when
      no other handler comes between, and leaves the handler finished. */
  lemma HandlerIsInterleaving(before: seq<L.Action>, taskId: string, userId: string, description: string, result: TaskResult)
    requires result.totalCost == SumCost(result.steps)
    requires L.Inserted(L.Run(before).tables, taskId, userId, description).Some?
    ensures var s := L.Run(before);
            var h := |s.handlers|;
            var after := L.Run(before + HandlerActions(h, taskId, userId, description, result));
            && after.tables == HandledTables(L.Inserted(s.tables, taskId, userId, description).value, taskId, result)
            && |after.handlers| == h + 1 && L.Finished(after.handlers[h])
  {
    hide L.Run, L.Inserted, L.Updated, LoggedAll, RecordActions;
    var h := |L.Run(before).handlers|;
    var begun := before + [L.Accept(taskId, userId, description), L.Finish(h, result.success, result.steps)];
    AcceptedAndFinished(before, taskId, userId, description, result);
    RecordingAll(begun, h, taskId, result.success, result.steps, |result.steps|);
    assert result.steps[..|result.steps|] == result.steps;
    assert before + HandlerActions(h, taskId, userId, description, result)
        == begun + RecordActions(h, |result.steps|);
  }
}
