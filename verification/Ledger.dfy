/** The task database and the handlers that write to it (enclave/memory/state_db.py:113-198
    and 230-253, enclave/main.py:218-331). SQL tables are sequences of rows. */
module Ledger {
  import opened Models

  datatype TaskRow = TaskRow(taskId: string, userId: string, description: string, status: string, totalCost: int)

  datatype CostRow = CostRow(taskId: string, stepNumber: int, cost: int)

  /** An absent value is SQL's NULL. */
  datatype StepRow = StepRow(
    taskId: string,
    stepNumber: int,
    toolName: Option<string>,
    toolArgs: string,
    outputSuccess: Option<bool>,
    outputResult: Option<string>,
    outputError: Option<string>,
    llmResponse: string,
    inputTokens: int,
    outputTokens: int)

  datatype Tables = Tables(tasks: seq<TaskRow>, steps: seq<StepRow>, costLog: seq<CostRow>)

  // ---- The statements ----

  predicate HasTask(tasks: seq<TaskRow>, taskId: string) {
    exists i :: 0 <= i < |tasks| && tasks[i].taskId == taskId
  }

  /** `create_task`: the primary key refuses a second row with the same id. */
  function Inserted(t: Tables, taskId: string, userId: string, description: string): Option<Tables> {
    if HasTask(t.tasks, taskId) then None
    else Some(t.(tasks := t.tasks + [TaskRow(taskId, userId, description, "running", 0)]))
  }

  function UpdateRow(row: TaskRow, taskId: string, success: bool, totalCost: int): TaskRow {
    if row.taskId == taskId
    then row.(status := if success then "completed" else "failed", totalCost := totalCost)
    else row
  }

  /** `complete_task`. */
  function Updated(t: Tables, taskId: string, success: bool, totalCost: int): Tables {
    t.(tasks := seq(|t.tasks|, i requires 0 <= i < |t.tasks| => UpdateRow(t.tasks[i], taskId, success, totalCost)))
  }

  /** An empty tool result is stored as absent. */
  function StepRowOf(taskId: string, step: StepResult): StepRow {
    var output := step.output;
    StepRow(taskId, step.stepNumber, step.toolName, step.toolArgs,
            if output.Some? then Some(output.value.success) else None,
            if output.Some? && output.value.result != "" then Some(output.value.result) else None,
            if output.Some? then Some(output.value.error) else None,
            step.llmResponse, step.inputTokens, step.outputTokens)
  }

  /** The step that a row was made of. */
  function StepFrom(row: StepRow): StepResult {
    StepResult(row.stepNumber, row.toolName, row.toolArgs,
               if row.outputSuccess.Some? then
                 Some(ToolOutput(row.outputSuccess.value,
                                 if row.outputResult.Some? then row.outputResult.value else "",
                                 if row.outputError.Some? then row.outputError.value else ""))
               else None,
               row.llmResponse, row.inputTokens, row.outputTokens)
  }

  /** A row keeps the whole step and its task. */
  lemma StepRowKeeps(taskId: string, step: StepResult)
    ensures StepRowOf(taskId, step).taskId == taskId && StepFrom(StepRowOf(taskId, step)) == step
  {
  }

  function CostRowOf(taskId: string, step: StepResult): CostRow {
    CostRow(taskId, step.stepNumber, StepCost(step))
  }

  /** The two insertions of `record_step`, between which other handlers may run. */
  function StepInserted(t: Tables, taskId: string, step: StepResult): Tables {
    t.(steps := t.steps + [StepRowOf(taskId, step)])
  }

  function CostInserted(t: Tables, taskId: string, step: StepResult): Tables {
    t.(costLog := t.costLog + [CostRowOf(taskId, step)])
  }

  /** `record_step` undisturbed. */
  function Logged(t: Tables, taskId: string, step: StepResult): Tables {
    CostInserted(StepInserted(t, taskId, step), taskId, step)
  }

  /** The step rows of one task, in order. */
  function StepsOf(rows: seq<StepRow>, taskId: string): seq<StepRow> {
    if rows == [] then []
    else
      var row := rows[|rows| - 1];
      StepsOf(rows[..|rows| - 1], taskId) + if row.taskId == taskId then [row] else []
  }

  function StepRows(taskId: string, steps: seq<StepResult>): seq<StepRow> {
    seq(|steps|, i requires 0 <= i < |steps| => StepRowOf(taskId, steps[i]))
  }

  /** `get_task_cost`. */
  function TaskCost(log: seq<CostRow>, taskId: string): int {
    if log == [] then 0
    else
      var row := log[|log| - 1];
      TaskCost(log[..|log| - 1], taskId) + if row.taskId == taskId then row.cost else 0
  }

  /** The rows that one cost row meets in the join with a user's tasks. */
  function JoinedRow(row: CostRow, tasks: seq<TaskRow>, userId: string): int {
    if tasks == [] then 0
    else
      var t := tasks[|tasks| - 1];
      JoinedRow(row, tasks[..|tasks| - 1], userId) + if t.taskId == row.taskId && t.userId == userId then row.cost else 0
  }

  /** `get_user_total_cost`: the sum over the join of cost rows and the user's tasks. */
  function UserCost(t: Tables, userId: string): int {
    JoinedCost(t.costLog, t.tasks, userId)
  }

  function JoinedCost(log: seq<CostRow>, tasks: seq<TaskRow>, userId: string): int {
    if log == [] then 0
    else JoinedCost(log[..|log| - 1], tasks, userId) + JoinedRow(log[|log| - 1], tasks, userId)
  }

  /** What the task table itself says that a user's tasks cost. */
  function StoredCost(tasks: seq<TaskRow>, userId: string): int {
    if tasks == [] then 0
    else
      var t := tasks[|tasks| - 1];
      StoredCost(tasks[..|tasks| - 1], userId) + if t.userId == userId then t.totalCost else 0
  }

  // ---- Handlers, in any interleaving ----

  /** How far the handler of an accepted request has got: it inserts a row for each step,
      and a row with the price of the step behind it. */
  datatype Progress = Working | Logging(success: bool, steps: seq<StepResult>, inserted: nat, priced: nat)

  /** A handler and what its request said. */
  datatype Handler = Handler(taskId: string, userId: string, description: string, progress: Progress)

  datatype System = System(tables: Tables, handlers: seq<Handler>)

  /** One statement of one handler. A request is accepted when its row goes in; its task
      ends with a result whose total is the sum of its steps' costs; then its steps are
      recorded one by one, each by two statements. */
  datatype Action =
    | Accept(taskId: string, userId: string, description: string)
    | Finish(handler: nat, success: bool, steps: seq<StepResult>)
    | InsertStep(handler: nat)
    | InsertCost(handler: nat)

  function Do(s: System, a: Action): System {
    match a
    case Accept(taskId, userId, description) =>
      (match Inserted(s.tables, taskId, userId, description)
       case None => s
       case Some(tables) => System(tables, s.handlers + [Handler(taskId, userId, description, Working)]))
    case Finish(h, success, steps) =>
      if h < |s.handlers| && s.handlers[h].progress.Working? then
        var id := s.handlers[h].taskId;
        System(Updated(s.tables, id, success, SumCost(steps)),
               s.handlers[h := s.handlers[h].(progress := Logging(success, steps, 0, 0))])
      else s
    case InsertStep(h) =>
      if h < |s.handlers| && WantsStep(s.handlers[h].progress) then
        var id, p := s.handlers[h].taskId, s.handlers[h].progress;
        System(StepInserted(s.tables, id, p.steps[p.inserted]),
               s.handlers[h := s.handlers[h].(progress := p.(inserted := p.inserted + 1))])
      else s
    case InsertCost(h) =>
      if h < |s.handlers| && WantsPrice(s.handlers[h].progress) then
        var id, p := s.handlers[h].taskId, s.handlers[h].progress;
        System(CostInserted(s.tables, id, p.steps[p.priced]),
               s.handlers[h := s.handlers[h].(progress := p.(priced := p.priced + 1))])
      else s
  }

  predicate WantsStep(p: Progress) {
    p.Logging? && p.priced == p.inserted < |p.steps|
  }

  predicate WantsPrice(p: Progress) {
    p.Logging? && p.priced < p.inserted <= |p.steps|
  }

  function Run(actions: seq<Action>): System {
    if actions == [] then System(Tables([], [], []), [])
    else Do(Run(actions[..|actions| - 1]), actions[|actions| - 1])
  }

  /** The status column of the task table. */
  function StatusOf(p: Progress): string {
    if p.Working? then "running" else if p.success then "completed" else "failed"
  }

  function Promised(p: Progress): int {
    if p.Working? then 0 else SumCost(p.steps)
  }

  function Recorded(p: Progress): int {
    SumCost(PricedSteps(p))
  }

  function InsertedSteps(p: Progress): seq<StepResult> {
    if p.Working? || p.inserted > |p.steps| then [] else p.steps[..p.inserted]
  }

  function PricedSteps(p: Progress): seq<StepResult> {
    if p.Working? || p.priced > |p.steps| then [] else p.steps[..p.priced]
  }

  /** The price is the next row to insert, or the next step is. */
  predicate InOrder(p: Progress) {
    p.Logging? ==> p.priced <= p.inserted <= p.priced + 1 && p.inserted <= |p.steps|
  }

  /** Row i of the task table belongs to handler i: it says who asked for what, how far the
      task is, and the total of the handler's result; ids are distinct, and the log holds
      what the handler has recorded so far. */
  ghost predicate Agrees(s: System) {
    && |s.tables.tasks| == |s.handlers|
    && (forall i, j :: 0 <= i < j < |s.handlers| ==> s.handlers[i].taskId != s.handlers[j].taskId)
    && (forall i :: 0 <= i < |s.handlers| ==>
          && s.tables.tasks[i].taskId == s.handlers[i].taskId
          && s.tables.tasks[i].userId == s.handlers[i].userId
          && s.tables.tasks[i].description == s.handlers[i].description
          && s.tables.tasks[i].status == StatusOf(s.handlers[i].progress)
          && s.tables.tasks[i].totalCost == Promised(s.handlers[i].progress)
          && TaskCost(s.tables.costLog, s.handlers[i].taskId) == Recorded(s.handlers[i].progress)
          && InOrder(s.handlers[i].progress))
    && (forall row <- s.tables.costLog :: HasTask(s.tables.tasks, row.taskId))
  }

  lemma {:induction false} NoRowsNoCost(log: seq<CostRow>, taskId: string)
    requires forall row <- log :: row.taskId != taskId
    ensures TaskCost(log, taskId) == 0
  {
    if log != [] {
      assert log[|log| - 1] in log;
      NoRowsNoCost(log[..|log| - 1], taskId);
    }
  }

  lemma HasTaskKept(tasks: seq<TaskRow>, more: seq<TaskRow>, taskId: string)
    requires HasTask(tasks, taskId) && |tasks| <= |more|
    requires forall i :: 0 <= i < |tasks| ==> more[i].taskId == tasks[i].taskId
    ensures HasTask(more, taskId)
  {
    var i :| 0 <= i < |tasks| && tasks[i].taskId == taskId;
    assert more[i].taskId == taskId;
  }

  lemma AcceptAgrees(s: System, taskId: string, userId: string, description: string)
    requires Agrees(s)
    ensures Agrees(Do(s, Accept(taskId, userId, description)))
  {
    if !HasTask(s.tables.tasks, taskId) {
      NoRowsNoCost(s.tables.costLog, taskId);
      var s' := Do(s, Accept(taskId, userId, description));
      forall i, j | 0 <= i < j < |s'.handlers| ensures s'.handlers[i].taskId != s'.handlers[j].taskId {
        assert s.tables.tasks[i].taskId == s.handlers[i].taskId;
      }
      forall row | row in s'.tables.costLog ensures HasTask(s'.tables.tasks, row.taskId) {
        HasTaskKept(s.tables.tasks, s'.tables.tasks, row.taskId);
      }
    }
  }

  lemma NothingPriced(success: bool, steps: seq<StepResult>)
    ensures Recorded(Logging(success, steps, 0, 0)) == Recorded(Working)
  {
    assert steps[..0] == [];
  }

  lemma FinishAgrees(s: System, h: nat, success: bool, steps: seq<StepResult>)
    requires Agrees(s)
    ensures Agrees(Do(s, Finish(h, success, steps)))
  {
    hide TaskCost, Recorded, HasTask;
    if h < |s.handlers| && s.handlers[h].progress.Working? {
      var s' := Do(s, Finish(h, success, steps));
      NothingPriced(success, steps);
      forall row | row in s'.tables.costLog ensures HasTask(s'.tables.tasks, row.taskId) {
        HasTaskKept(s.tables.tasks, s'.tables.tasks, row.taskId);
      }
    }
  }

  lemma CostOfAppend(log: seq<CostRow>, row: CostRow, taskId: string)
    ensures TaskCost(log + [row], taskId) == TaskCost(log, taskId) + if row.taskId == taskId then row.cost else 0
  {
    assert (log + [row])[..|log|] == log;
  }

  lemma RecordedNext(p: Progress)
    requires WantsPrice(p)
    ensures Recorded(p.(priced := p.priced + 1)) == Recorded(p) + StepCost(p.steps[p.priced])
  {
    assert p.steps[..p.priced + 1][..p.priced] == p.steps[..p.priced];
  }

  lemma OtherIds(s: System, h: nat, i: nat)
    requires Agrees(s) && h < |s.handlers| && i < |s.handlers| && i != h
    ensures s.handlers[i].taskId != s.handlers[h].taskId
  {
    assert s.handlers[if i < h then i else h].taskId != s.handlers[if i < h then h else i].taskId;
  }

  lemma InsertStepAgrees(s: System, h: nat)
    requires Agrees(s)
    ensures Agrees(Do(s, InsertStep(h)))
  {
    hide TaskCost, HasTask, StepRowOf;
  }

  lemma InsertCostAgrees(s: System, h: nat)
    requires Agrees(s)
    ensures Agrees(Do(s, InsertCost(h)))
  {
    hide TaskCost, Recorded, HasTask;
    if h < |s.handlers| && WantsPrice(s.handlers[h].progress) {
      var s', p, id := Do(s, InsertCost(h)), s.handlers[h].progress, s.handlers[h].taskId;
      RecordedNext(p);
      HandlersTask(s, h);
      forall i | 0 <= i < |s.handlers|
        ensures TaskCost(s'.tables.costLog, s'.handlers[i].taskId) == Recorded(s'.handlers[i].progress)
      {
        CostOfAppend(s.tables.costLog, CostRowOf(id, p.steps[p.priced]), s.handlers[i].taskId);
        if i != h {
          OtherIds(s, h, i);
        }
      }
    }
  }

  lemma HandlersTask(s: System, h: nat)
    requires Agrees(s) && h < |s.handlers|
    ensures HasTask(s.tables.tasks, s.handlers[h].taskId)
  {
    assert s.tables.tasks[h].taskId == s.handlers[h].taskId;
  }

  lemma {:induction false} RunAgrees(actions: seq<Action>)
    ensures Agrees(Run(actions))
  {
    if actions != [] {
      var s := Run(actions[..|actions| - 1]);
      RunAgrees(actions[..|actions| - 1]);
      hide Agrees, Do;
      match actions[|actions| - 1]
      case Accept(taskId, userId, description) => AcceptAgrees(s, taskId, userId, description);
      case Finish(h, success, steps) => FinishAgrees(s, h, success, steps);
      case InsertStep(h) => InsertStepAgrees(s, h);
      case InsertCost(h) => InsertCostAgrees(s, h);
    }
  }

  predicate Finished(h: Handler) {
    h.progress.Logging? && h.progress.inserted == h.progress.priced == |h.progress.steps|
  }

  /** However the handlers interleave: once a task's handler has finished, the costs logged
      for the task add up to the total stored with it. */
  lemma FinishedTasksBalance(actions: seq<Action>, i: nat)
    requires i < |Run(actions).handlers| && Finished(Run(actions).handlers[i])
    ensures var s := Run(actions);
            && i < |s.tables.tasks|
            && TaskCost(s.tables.costLog, s.tables.tasks[i].taskId) == s.tables.tasks[i].totalCost
            && s.tables.tasks[i].totalCost == SumCost(s.handlers[i].progress.steps)
  {
    RunAgrees(actions);
    var steps := Run(actions).handlers[i].progress.steps;
    assert steps[..|steps|] == steps;
  }

  // ---- The rows of one task ----

  /** The cost rows of one task, in order. */
  function CostsOf(log: seq<CostRow>, taskId: string): seq<CostRow> {
    if log == [] then []
    else
      var row := log[|log| - 1];
      CostsOf(log[..|log| - 1], taskId) + if row.taskId == taskId then [row] else []
  }

  function CostRows(taskId: string, steps: seq<StepResult>): seq<CostRow> {
    seq(|steps|, i requires 0 <= i < |steps| => CostRowOf(taskId, steps[i]))
  }

  /** The rows of a task are those its handler has inserted, in order. */
  predicate Rows(t: Tables, h: Handler) {
    && StepsOf(t.steps, h.taskId) == StepRows(h.taskId, InsertedSteps(h.progress))
    && CostsOf(t.costLog, h.taskId) == CostRows(h.taskId, PricedSteps(h.progress))
  }

  ghost predicate RowsAgree(s: System) {
    && (forall i :: 0 <= i < |s.handlers| ==> Rows(s.tables, s.handlers[i]))
    && (forall row <- s.tables.steps :: HasTask(s.tables.tasks, row.taskId))
  }

  lemma {:induction false} NoStepsYet(rows: seq<StepRow>, taskId: string)
    requires forall row <- rows :: row.taskId != taskId
    ensures StepsOf(rows, taskId) == []
  {
    if rows != [] {
      assert rows[|rows| - 1] in rows;
      NoStepsYet(rows[..|rows| - 1], taskId);
    }
  }

  lemma {:induction false} NoCostsYet(log: seq<CostRow>, taskId: string)
    requires forall row <- log :: row.taskId != taskId
    ensures CostsOf(log, taskId) == []
  {
    if log != [] {
      assert log[|log| - 1] in log;
      NoCostsYet(log[..|log| - 1], taskId);
    }
  }

  lemma TasksKept(s: System, a: Action)
    requires forall row <- s.tables.steps :: HasTask(s.tables.tasks, row.taskId)
    ensures forall row <- s.tables.steps :: HasTask(Do(s, a).tables.tasks, row.taskId)
  {
    forall row | row in s.tables.steps ensures HasTask(Do(s, a).tables.tasks, row.taskId) {
      HasTaskKept(s.tables.tasks, Do(s, a).tables.tasks, row.taskId);
    }
  }

  lemma FirstRows(t: Tables, taskId: string, userId: string, description: string)
    requires (forall row <- t.steps :: HasTask(t.tasks, row.taskId)) && (forall row <- t.costLog :: HasTask(t.tasks, row.taskId))
    requires !HasTask(t.tasks, taskId)
    ensures Rows(t, Handler(taskId, userId, description, Working))
  {
    NoStepsYet(t.steps, taskId);
    NoCostsYet(t.costLog, taskId);
  }

  lemma AcceptRowsAgree(s: System, taskId: string, userId: string, description: string)
    requires Agrees(s) && RowsAgree(s)
    ensures RowsAgree(Do(s, Accept(taskId, userId, description)))
  {
    TasksKept(s, Accept(taskId, userId, description));
    if !HasTask(s.tables.tasks, taskId) {
      FirstRows(s.tables, taskId, userId, description);
      hide HasTask, StepsOf, CostsOf, StepRows, CostRows;
    }
  }

  lemma FinishRowsAgree(s: System, h: nat, success: bool, steps: seq<StepResult>)
    requires Agrees(s) && RowsAgree(s)
    ensures RowsAgree(Do(s, Finish(h, success, steps)))
  {
    TasksKept(s, Finish(h, success, steps));
    hide HasTask, StepsOf, CostsOf, StepRows, CostRows;
    assert steps[..0] == [];
  }

  lemma StepsOfAppend(rows: seq<StepRow>, row: StepRow, taskId: string)
    ensures StepsOf(rows + [row], taskId) == StepsOf(rows, taskId) + if row.taskId == taskId then [row] else []
  {
    assert (rows + [row])[..|rows|] == rows;
  }

  lemma CostsOfAppend(log: seq<CostRow>, row: CostRow, taskId: string)
    ensures CostsOf(log + [row], taskId) == CostsOf(log, taskId) + if row.taskId == taskId then [row] else []
  {
    assert (log + [row])[..|log|] == log;
  }

  lemma RowsOfNextStep(t: Tables, h: Handler)
    requires Rows(t, h) && WantsStep(h.progress)
    ensures var p := h.progress;
            Rows(StepInserted(t, h.taskId, p.steps[p.inserted]), h.(progress := p.(inserted := p.inserted + 1)))
  {
    var id, p := h.taskId, h.progress;
    assert StepRowOf(id, p.steps[p.inserted]).taskId == id;
    hide StepRowOf, StepsOf, CostsOf, CostRows;
    StepsOfAppend(t.steps, StepRowOf(id, p.steps[p.inserted]), id);
    assert StepRows(id, p.steps[..p.inserted + 1])
        == StepRows(id, p.steps[..p.inserted]) + [StepRowOf(id, p.steps[p.inserted])];
  }

  lemma RowsOfNextPrice(t: Tables, h: Handler)
    requires Rows(t, h) && WantsPrice(h.progress)
    ensures var p := h.progress;
            Rows(CostInserted(t, h.taskId, p.steps[p.priced]), h.(progress := p.(priced := p.priced + 1)))
  {
    var id, p := h.taskId, h.progress;
    hide StepsOf, CostsOf, StepRows;
    CostsOfAppend(t.costLog, CostRowOf(id, p.steps[p.priced]), id);
    assert CostRows(id, p.steps[..p.priced + 1])
        == CostRows(id, p.steps[..p.priced]) + [CostRowOf(id, p.steps[p.priced])];
  }

  /** A row of another task does not show. */
  lemma OtherRows(t: Tables, h: Handler, taskId: string, step: StepResult)
    requires Rows(t, h) && h.taskId != taskId
    ensures Rows(StepInserted(t, taskId, step), h) && Rows(CostInserted(t, taskId, step), h)
  {
    assert StepRowOf(taskId, step).taskId == taskId;
    hide StepRowOf, StepsOf, CostsOf, StepRows, CostRows;
    StepsOfAppend(t.steps, StepRowOf(taskId, step), h.taskId);
    CostsOfAppend(t.costLog, CostRowOf(taskId, step), h.taskId);
  }

  lemma InsertStepRowsAgree(s: System, h: nat)
    requires Agrees(s) && RowsAgree(s)
    ensures RowsAgree(Do(s, InsertStep(h)))
  {
    hide Rows, HasTask;
    if h < |s.handlers| && WantsStep(s.handlers[h].progress) {
      var s', p, id := Do(s, InsertStep(h)), s.handlers[h].progress, s.handlers[h].taskId;
      HandlersTask(s, h);
      assert StepRowOf(id, p.steps[p.inserted]).taskId == id;
      forall i | 0 <= i < |s.handlers| ensures Rows(s'.tables, s'.handlers[i]) {
        if i == h {
          RowsOfNextStep(s.tables, s.handlers[h]);
        } else {
          OtherIds(s, h, i);
          OtherRows(s.tables, s.handlers[i], id, p.steps[p.inserted]);
        }
      }
    }
  }

  lemma InsertCostRowsAgree(s: System, h: nat)
    requires Agrees(s) && RowsAgree(s)
    ensures RowsAgree(Do(s, InsertCost(h)))
  {
    hide Rows, HasTask;
    if h < |s.handlers| && WantsPrice(s.handlers[h].progress) {
      var s', p, id := Do(s, InsertCost(h)), s.handlers[h].progress, s.handlers[h].taskId;
      forall i | 0 <= i < |s.handlers| ensures Rows(s'.tables, s'.handlers[i]) {
        if i == h {
          RowsOfNextPrice(s.tables, s.handlers[h]);
        } else {
          OtherIds(s, h, i);
          OtherRows(s.tables, s.handlers[i], id, p.steps[p.priced]);
        }
      }
    }
  }

  /** After every interleaving, the step rows of each task are the steps its handler has
      inserted, and its cost rows the prices of those it has priced, in order. */
  lemma {:induction false} RunRowsAgree(actions: seq<Action>)
    ensures RowsAgree(Run(actions))
  {
    if actions != [] {
      var front := actions[..|actions| - 1];
      var s := Run(front);
      RunRowsAgree(front);
      RunAgrees(front);
      hide Agrees, RowsAgree, Do;
      match actions[|actions| - 1]
      case Accept(taskId, userId, description) => AcceptRowsAgree(s, taskId, userId, description);
      case Finish(h, success, steps) => FinishRowsAgree(s, h, success, steps);
      case InsertStep(h) => InsertStepRowsAgree(s, h);
      case InsertCost(h) => InsertCostRowsAgree(s, h);
    }
  }

  /** The row that prices a step row. */
  function PriceOf(row: StepRow): CostRow {
    CostRow(row.taskId, row.stepNumber, TokenCost(row.inputTokens, row.outputTokens))
  }

  /** However the handlers interleave: the step rows of a finished task are the steps of its
      result, each once and in order, and its cost rows price them one by one. */
  lemma FinishedTasksAreRecorded(actions: seq<Action>, i: nat)
    requires i < |Run(actions).handlers| && Finished(Run(actions).handlers[i])
    ensures var s := Run(actions);
            var id := s.handlers[i].taskId;
            var rows, prices := StepsOf(s.tables.steps, id), CostsOf(s.tables.costLog, id);
            var steps := s.handlers[i].progress.steps;
            && |rows| == |steps| == |prices|
            && forall k :: 0 <= k < |rows| ==>
                 rows[k].taskId == id && StepFrom(rows[k]) == steps[k] && prices[k] == PriceOf(rows[k])
  {
    RunRowsAgree(actions);
    var steps := Run(actions).handlers[i].progress.steps;
    assert steps[..|steps|] == steps;
    hide Run, StepsOf, CostsOf;
  }

  // ---- Rows of several tasks ----

  /** Between two tasks the order of the rows is not kept: two handlers that insert their
      steps first leave the prices in the other order. */
  lemma PricesMayCross(a: StepResult, b: StepResult)
    requires StepCost(a) != StepCost(b)
    ensures var start := Run([Accept("a", "u", "d"), Accept("b", "u", "d"), Finish(0, true, [a]), Finish(1, true, [b])]);
            var s := Do(Do(Do(Do(start, InsertStep(0)), InsertStep(1)), InsertCost(1)), InsertCost(0));
            && |s.handlers| == 2 && Finished(s.handlers[0]) && Finished(s.handlers[1])
            && |s.tables.steps| == |s.tables.costLog| == 2
            && forall k :: 0 <= k < 2 ==> s.tables.costLog[k] != PriceOf(s.tables.steps[k])
  {
    TwoAccepted(a, b);
  }

  lemma TwoAccepted(a: StepResult, b: StepResult)
    ensures var start := Run([Accept("a", "u", "d"), Accept("b", "u", "d"), Finish(0, true, [a]), Finish(1, true, [b])]);
            && start.handlers == [Handler("a", "u", "d", Logging(true, [a], 0, 0)),
                                 Handler("b", "u", "d", Logging(true, [b], 0, 0))]
            && start.tables.steps == [] && start.tables.costLog == []
  {
    var actions := [Accept("a", "u", "d"), Accept("b", "u", "d"), Finish(0, true, [a]), Finish(1, true, [b])];
    assert actions[..3][..2][..1][..0] == [] && actions[..3][..2][..1] == actions[..1] && actions[..3][..2] == actions[..2];
    var s1 := Do(Run([]), Accept("a", "u", "d"));
    assert Run(actions[..1]) == s1;
    assert s1.tables.tasks == [TaskRow("a", "u", "d", "running", 0)];
    assert "a" != "b" && !HasTask(s1.tables.tasks, "b");
    var s2 := Do(s1, Accept("b", "u", "d"));
    assert Run(actions[..2]) == s2;
    var s3 := Do(s2, Finish(0, true, [a]));
    assert Run(actions[..3]) == s3;
    assert Run(actions) == Do(s3, Finish(1, true, [b]));
  }

  // ---- The joined total of a user ----

  /** What is logged for a user's tasks, task by task. */
  function LoggedByTask(log: seq<CostRow>, tasks: seq<TaskRow>, userId: string): int {
    if tasks == [] then 0
    else
      var t := tasks[|tasks| - 1];
      LoggedByTask(log, tasks[..|tasks| - 1], userId) + if t.userId == userId then TaskCost(log, t.taskId) else 0
  }

  lemma {:induction false} OneMoreRow(log: seq<CostRow>, row: CostRow, tasks: seq<TaskRow>, userId: string)
    ensures LoggedByTask(log + [row], tasks, userId) == LoggedByTask(log, tasks, userId) + JoinedRow(row, tasks, userId)
  {
    if tasks != [] {
      OneMoreRow(log, row, tasks[..|tasks| - 1], userId);
      assert (log + [row])[..|log|] == log;
    }
  }

  lemma {:induction false} EmptyLog(tasks: seq<TaskRow>, userId: string)
    ensures LoggedByTask([], tasks, userId) == 0
  {
    if tasks != [] {
      EmptyLog(tasks[..|tasks| - 1], userId);
    }
  }

  /** The sum over the join may be taken task by task. */
  lemma {:induction false} JoinByTask(log: seq<CostRow>, tasks: seq<TaskRow>, userId: string)
    ensures JoinedCost(log, tasks, userId) == LoggedByTask(log, tasks, userId)
  {
    if log == [] {
      EmptyLog(tasks, userId);
    } else {
      var front, row := log[..|log| - 1], log[|log| - 1];
      JoinByTask(front, tasks, userId);
      OneMoreRow(front, row, tasks, userId);
      assert front + [row] == log;
    }
  }

  /** What the handlers of a user's tasks have recorded so far. */
  function RecordedCost(tasks: seq<TaskRow>, handlers: seq<Handler>, userId: string): int
    requires |tasks| == |handlers|
  {
    if tasks == [] then 0
    else
      var k := |tasks| - 1;
      RecordedCost(tasks[..k], handlers[..k], userId)
      + if tasks[k].userId == userId then Recorded(handlers[k].progress) else 0
  }

  lemma {:induction false} RecordedByTask(log: seq<CostRow>, tasks: seq<TaskRow>, handlers: seq<Handler>, userId: string)
    requires |tasks| == |handlers|
    requires forall i :: 0 <= i < |tasks| ==> TaskCost(log, tasks[i].taskId) == Recorded(handlers[i].progress)
    ensures LoggedByTask(log, tasks, userId) == RecordedCost(tasks, handlers, userId)
  {
    if tasks != [] {
      RecordedByTask(log, tasks[..|tasks| - 1], handlers[..|tasks| - 1], userId);
    }
  }

  /** After every interleaving, finished or not: the joined total of a user is what the
      handlers of the user's tasks have recorded. */
  lemma UserTotalsBalance(actions: seq<Action>, userId: string)
    ensures var s := Run(actions);
            && |s.tables.tasks| == |s.handlers|
            && UserCost(s.tables, userId) == RecordedCost(s.tables.tasks, s.handlers, userId)
  {
    var s := Run(actions);
    RunAgrees(actions);
    hide Run;
    JoinByTask(s.tables.costLog, s.tables.tasks, userId);
    RecordedByTask(s.tables.costLog, s.tables.tasks, s.handlers, userId);
  }

  lemma {:induction false} FinishedIsStored(tasks: seq<TaskRow>, handlers: seq<Handler>, userId: string)
    requires |tasks| == |handlers|
    requires forall i :: 0 <= i < |tasks| ==> tasks[i].totalCost == Recorded(handlers[i].progress)
    ensures RecordedCost(tasks, handlers, userId) == StoredCost(tasks, userId)
  {
    if tasks != [] {
      FinishedIsStored(tasks[..|tasks| - 1], handlers[..|tasks| - 1], userId);
    }
  }

  lemma FinishedRow(s: System, i: nat)
    requires Agrees(s) && i < |s.handlers| && Finished(s.handlers[i])
    ensures s.tables.tasks[i].totalCost == Recorded(s.handlers[i].progress)
  {
    var steps := s.handlers[i].progress.steps;
    assert steps[..|steps|] == steps;
  }

  /** So when all handlers have finished, it is the sum of the totals stored with the
      user's tasks. */
  lemma FinishedTotalsBalance(actions: seq<Action>, userId: string)
    requires forall h <- Run(actions).handlers :: Finished(h)
    ensures UserCost(Run(actions).tables, userId) == StoredCost(Run(actions).tables.tasks, userId)
  {
    var s := Run(actions);
    UserTotalsBalance(actions, userId);
    RunAgrees(actions);
    hide Agrees, Run, Recorded;
    forall i | 0 <= i < |s.tables.tasks| ensures s.tables.tasks[i].totalCost == Recorded(s.handlers[i].progress) {
      assert s.handlers[i] in s.handlers;
      FinishedRow(s, i);
    }
    FinishedIsStored(s.tables.tasks, s.handlers, userId);
  }
}
