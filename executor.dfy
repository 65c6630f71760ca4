/**
 * The task executor: `run_task` runs one scheduled task through the agent, records the run and
 * queues its result for delivery; `RunSchedulerTick` is one pass of the scheduler loop over the
 * tasks due at that moment. The agent, the clock, the prompt hash, the channel registry and the
 * generated delivery ids are parameters.
 */
module Executor {
  import opened Wrappers
  import opened Text
  import opened Models
  import opened Scheduling
  import opened Db
  import opened Routing

  // ---------------------------------------------------------------------------
  // The agent
  // ---------------------------------------------------------------------------

  /** A message the agent streams back: `kind` is "text" or "result". */
  datatype AgentMessage = AgentMessage(kind: string, text: Option<string> := None)

  /** How one agent invocation ends: its whole message stream, or the exception it raised. */
  datatype AgentOutcome =
    | Replied(messages: seq<AgentMessage>)
    | ProcessError(message: string)   // the agent process failed (e.g. a stale session)
    | OtherError(message: string)     // any other exception

  /** Whether a message contributes to the result text: a text message with non-empty text. */
  predicate IsText(m: AgentMessage) {
    m.kind == "text" && m.text.Some? && m.text.value != ""
  }

  /** The result text of a message stream: the texts of its text messages, in order. */
  function CollectedText(ms: seq<AgentMessage>): string {
    if ms == [] then ""
    else CollectedText(ms[..|ms| - 1]) + (if IsText(ms[|ms| - 1]) then ms[|ms| - 1].text.value else "")
  }

  /** Collecting two streams one after the other collects their concatenation. */
  lemma {:induction false} CollectedTextAppend(a: seq<AgentMessage>, b: seq<AgentMessage>)
    ensures CollectedText(a + b) == CollectedText(a) + CollectedText(b)
    decreases |b|
  {
    if b == [] {
      assert a + b == a;
    } else {
      var last := b[|b| - 1];
      assert (a + b)[..|a + b| - 1] == a + b[..|b| - 1];
      CollectedTextAppend(a, b[..|b| - 1]);
    }
  }

  /** A stream without text messages collects nothing. */
  lemma {:induction false} CollectedTextEmpty(ms: seq<AgentMessage>)
    requires forall k :: 0 <= k < |ms| ==> !IsText(ms[k])
    ensures CollectedText(ms) == ""
    decreases |ms|
  {
    if ms != [] {
      CollectedTextEmpty(ms[..|ms| - 1]);
    }
  }

  /** `_run_task_agent`'s loop: append the text of every text message to the result. */
  method CollectText(ms: seq<AgentMessage>) returns (text: string)
    ensures text == CollectedText(ms)
  {
    text := "";
    var k := 0;
    while k < |ms|
      invariant 0 <= k <= |ms|
      invariant text == CollectedText(ms[..k])
    {
      var m := ms[k];
      if m.kind == "text" && m.text.Some? && m.text.value != "" {
        text := text + m.text.value;
      }
      assert ms[..k + 1][..k] == ms[..k];
      k := k + 1;
    }
    assert ms[..k] == ms;
  }

  /** What one agent call returns to `run_task`: the collected text, or the exception raised. */
  function AgentText(outcome: AgentOutcome): (r: Result<string, string>)
    ensures r.Ok? <==> outcome.Replied?
    ensures outcome.Replied? ==> r.value == CollectedText(outcome.messages)
    ensures !outcome.Replied? ==> r.error == outcome.message
  {
    match outcome
    case Replied(ms) => Ok(CollectedText(ms))
    case ProcessError(m) => Err(m)
    case OtherError(m) => Err(m)
  }

  // ---------------------------------------------------------------------------
  // Collaborators and times
  // ---------------------------------------------------------------------------

  /**
   * What `run_task` calls but does not define: the agent (given the task and the session to
   * resume), the hash of a prompt, the channel registry, the calculator's calendar, `str()` of
   * the calculator's exceptions, and the data directory.
   */
  datatype Env = Env(
    agent: (ScheduledTask, Option<string>) -> AgentOutcome,
    promptHash: string -> string,
    knownPrefix: string -> bool,
    cal: Calendar,
    errorText: ScheduleError -> string,
    dataDir: string)

  /**
   * The clock readings of one run, in milliseconds: the start, the conversation reset before a
   * retry, the next-run computation on the success path and in the error handler, the end of
   * the run, and the moments the task update and the delivery are written.
   */
  datatype Clock = Clock(start: int, reset: int, computed: int, recomputed: int, end: int,
                         recorded: int, enqueued: int)

  // ---------------------------------------------------------------------------
  // Session choice and retry
  // ---------------------------------------------------------------------------

  /** The conversation was created under a system prompt whose hash differs from the current one. */
  predicate PromptChanged(conv: Conversation, currentHash: string) {
    conv.systemPromptHash.Some? && conv.systemPromptHash.value != "" &&
    currentHash != "" && conv.systemPromptHash.value != currentHash
  }

  /**
   * The session a run resumes: the conversation's session, for a task in group mode whose
   * conversation has a non-empty session id, unless the prompt hash changed.
   */
  function ResumeSession(task: ScheduledTask, conv: Option<Conversation>, promptHash: string -> string): (r: Option<string>)
    ensures r.Some? <==>
      && task.contextMode == GROUP && conv.Some?
      && conv.value.sessionId.Some? && conv.value.sessionId.value != ""
      && !PromptChanged(conv.value, promptHash(task.prompt))
    ensures r.Some? ==> r == conv.value.sessionId && r.value != ""
  {
    if task.contextMode == GROUP && conv.Some? && conv.value.sessionId.Some? && conv.value.sessionId.value != "" then
      if PromptChanged(conv.value, promptHash(task.prompt)) then None else conv.value.sessionId
    else None
  }

  /** An isolated task never resumes a session, whatever its conversation holds. */
  lemma IsolatedStartsFresh(task: ScheduledTask, conv: Option<Conversation>, promptHash: string -> string)
    requires task.contextMode == ISOLATED
    ensures ResumeSession(task, conv, promptHash) == None
  {
    assert ISOLATED != GROUP;
  }

  /**
   * The agent part of a run: the sessions the agent was called with, whether the conversation's
   * session was reset before a retry, and what the last call returned.
   */
  datatype AgentRun = AgentRun(calls: seq<Option<string>>, reset: bool, result: Result<string, string>)

  /**
   * Call the agent with `resume`; if that raises a process error while resuming a session, reset
   * the conversation's session and call it once more without one.
   */
  function RunAgent(task: ScheduledTask, resume: Option<string>,
                    agent: (ScheduledTask, Option<string>) -> AgentOutcome): (r: AgentRun)
    ensures 1 <= |r.calls| <= 2 && r.calls[0] == resume
    ensures r.reset <==> |r.calls| == 2
    ensures |r.calls| == 2 <==> agent(task, resume).ProcessError? && resume.Some?
    ensures |r.calls| == 2 ==> r.calls[1] == None
    ensures r.result == AgentText(agent(task, r.calls[|r.calls| - 1]))
  {
    var first := agent(task, resume);
    if first.ProcessError? && resume.Some? then
      AgentRun([resume, None], true, AgentText(agent(task, None)))
    else
      AgentRun([resume], false, AgentText(first))
  }

  /** A run that starts fresh calls the agent exactly once: there is nothing to retry. */
  lemma FreshRunCallsOnce(task: ScheduledTask, agent: (ScheduledTask, Option<string>) -> AgentOutcome)
    ensures RunAgent(task, None, agent).calls == [None]
    ensures !RunAgent(task, None, agent).reset
  {
  }

  // ---------------------------------------------------------------------------
  // Finishing a run
  // ---------------------------------------------------------------------------

  /** The most characters of a result `last_result` keeps. */
  const SUMMARY_LENGTH := 200

  /** `result_text[:200] if result_text else "Completed"`. */
  function Summarize(text: string): (r: string)
    ensures text == "" ==> r == "Completed"
    ensures text != "" ==> |r| == Min(|text|, SUMMARY_LENGTH) && r == text[..|r|]
  {
    if text == "" then "Completed"
    else if |text| <= SUMMARY_LENGTH then text
    else text[..SUMMARY_LENGTH]
  }

  function Min(a: int, b: int): int { if a <= b then a else b }

  /**
   * How the run's `try` ends: what gets recorded (the next run, the summary, the result text and
   * the error message, if any), or the calculator's exception escaping the error handler.
   */
  datatype Finish =
    | Recorded(nextRun: Option<string>, summary: string, resultText: string, error: Option<string>)
    | Escaped(raised: ScheduleError)

  /** The next run the success path or the handler computes: None for a one-shot task. */
  function NextRunAt(task: ScheduledTask, now: int, cal: Calendar): Result<Option<string>, ScheduleError> {
    if IsRecurring(task.scheduleType) then ComputeNextRun(task.scheduleType, task.scheduleValue, None, now, cal)
    else Ok(None)
  }

  /** The `except` handler: the error is recorded with a recomputed next run, unless that raises too. */
  function Handler(task: ScheduledTask, text: string, message: string, env: Env, clock: Clock): (r: Finish)
    ensures r.Recorded? ==> r.summary == "Error: " + message && r.error == Some(message) && r.resultText == text
    ensures r.Escaped? <==> NextRunAt(task, clock.recomputed, env.cal).Err?
    ensures r.Escaped? ==> IsRecurring(task.scheduleType)
    ensures r.Recorded? ==> (r.nextRun.Some? <==> IsRecurring(task.scheduleType))
  {
    match NextRunAt(task, clock.recomputed, env.cal)
    case Ok(next) => Recorded(next, "Error: " + message, text, Some(message))
    case Err(e) => Escaped(e)
  }

  /**
   * The `try` of `run_task` after the agent: compute the next run and the summary; a failure of
   * the agent or of the calculator goes to the handler with the text collected so far.
   */
  function FinishRun(task: ScheduledTask, result: Result<string, string>, env: Env, clock: Clock): Finish {
    match result
    case Err(message) => Handler(task, "", message, env, clock)
    case Ok(text) =>
      match NextRunAt(task, clock.computed, env.cal)
      case Ok(next) => Recorded(next, Summarize(text), text, None)
      case Err(e) => Handler(task, text, env.errorText(e), env, clock)
  }

  /** Everything `run_task` decides before it writes. */
  datatype RunPlan = RunPlan(resume: Option<string>, agentRun: AgentRun, finish: Finish)

  function PlanRun(task: ScheduledTask, conv: Option<Conversation>, env: Env, clock: Clock): RunPlan {
    var resume := ResumeSession(task, conv, env.promptHash);
    var agentRun := RunAgent(task, resume, env.agent);
    RunPlan(resume, agentRun, FinishRun(task, agentRun.result, env, clock))
  }

  /** The logged status: `error` exactly when there is a non-empty error message. */
  function RunStatus(error: Option<string>): (r: string)
    ensures r == ERROR <==> error.Some? && error.value != ""
    ensures r == ERROR || r == SUCCESS
  {
    if error.Some? && error.value != "" then ERROR else SUCCESS
  }

  /** The logged result: the collected text, or None when there is none. */
  function LogResult(text: string): (r: Option<string>)
    ensures r.None? <==> text == ""
    ensures r.Some? ==> r.value == text
  {
    if text != "" then Some(text) else None
  }

  /** Whether a recorded run queues a delivery: it produced text and has no non-empty error. */
  predicate Delivers(f: Finish) {
    f.Recorded? && f.resultText != "" && !(f.error.Some? && f.error.value != "")
  }

  // --- properties of a run ---------------------------------------------------

  /**
   * A cron or interval task keeps a next run whatever happened to the agent: either the run is
   * recorded with a next run, or recomputing it raised and the run escapes unrecorded.
   */
  lemma RecurringKeepsNextRun(task: ScheduledTask, conv: Option<Conversation>, env: Env, clock: Clock)
    requires IsRecurring(task.scheduleType)
    ensures var f := PlanRun(task, conv, env, clock).finish;
      (f.Recorded? ==> f.nextRun.Some?) &&
      (f.Escaped? ==> NextRunAt(task, clock.recomputed, env.cal).Err?)
  {
  }

  /** A one-shot task is always recorded without a next run, so the store marks it completed. */
  lemma OneShotCompletes(task: ScheduledTask, conv: Option<Conversation>, env: Env, clock: Clock, now: string)
    requires !IsRecurring(task.scheduleType)
    ensures var f := PlanRun(task, conv, env, clock).finish;
      f.Recorded? && f.nextRun.None? && AfterRun(task, f.nextRun, f.summary, now).status == Some(COMPLETED)
  {
  }

  /** A run escapes only when the calculator raises in the handler, which needs a recurring task. */
  lemma EscapeNeedsRecurring(task: ScheduledTask, conv: Option<Conversation>, env: Env, clock: Clock)
    ensures PlanRun(task, conv, env, clock).finish.Escaped? ==>
      IsRecurring(task.scheduleType) &&
      ComputeNextRun(task.scheduleType, task.scheduleValue, None, clock.recomputed, env.cal).Err?
  {
  }

  /**
   * An agent that raises leaves no text: the run is logged without a result and queues nothing.
   * An agent that replies, with a next run that computes, is recorded with its text, a summary
   * of it and no error.
   */
  lemma AgentOutcomeDecidesRecord(task: ScheduledTask, conv: Option<Conversation>, env: Env, clock: Clock)
    ensures var p := PlanRun(task, conv, env, clock);
      p.agentRun.result.Err? && p.finish.Recorded? ==>
        p.finish.resultText == "" && p.finish.error == Some(p.agentRun.result.error)
        && LogResult(p.finish.resultText).None? && !Delivers(p.finish)
    ensures var p := PlanRun(task, conv, env, clock);
      p.agentRun.result.Ok? && NextRunAt(task, clock.computed, env.cal).Ok? ==>
        p.finish == Recorded(NextRunAt(task, clock.computed, env.cal).value,
                             Summarize(p.agentRun.result.value), p.agentRun.result.value, None)
  {
  }

  /** The summary is the error when there is one, and otherwise the start of the text. */
  lemma SummaryRule(task: ScheduledTask, conv: Option<Conversation>, env: Env, clock: Clock)
    ensures var f := PlanRun(task, conv, env, clock).finish;
      f.Recorded? ==>
        (f.error.Some? ==> f.summary == "Error: " + f.error.value) &&
        (f.error.None? ==> f.summary == Summarize(f.resultText) && |f.summary| <= SUMMARY_LENGTH)
  {
  }

  /** A run is delivered exactly when it is recorded, logged as a success, and logged with a result. */
  lemma DeliveredIffSuccessWithResult(f: Finish)
    ensures Delivers(f) <==> f.Recorded? && RunStatus(f.error) == SUCCESS && LogResult(f.resultText).Some?
  {
  }

  /** `RecordedRuns(js)`: the ids of the tasks whose run the writes `js` recorded, in order. */
  function RecordedRuns(js: seq<Write>): seq<string> {
    if js == [] then []
    else RecordedRuns(js[..|js| - 1]) + (if js[|js| - 1].TaskRunRecorded? then [js[|js| - 1].taskId] else [])
  }

  lemma {:induction false} RecordedRunsAppend(a: seq<Write>, b: seq<Write>)
    ensures RecordedRuns(a + b) == RecordedRuns(a) + RecordedRuns(b)
    decreases |b|
  {
    if b == [] {
      assert a + b == a;
    } else {
      assert (a + b)[..|a + b| - 1] == a + b[..|b| - 1];
      RecordedRunsAppend(a, b[..|b| - 1]);
    }
  }

  /** The writes of one run, in commit order. */
  function RunWrites(task: ScheduledTask, plan: RunPlan, deliveryId: string, enqueued: bool): (r: seq<Write>)
    ensures RecordedRuns(r) == if plan.finish.Recorded? then [task.id] else []
  {
    var reset := if plan.agentRun.reset then [ConversationUpserted(task.conversation)] else [];
    var record := if plan.finish.Recorded? then [TaskRunRecorded(task.id), RunLogged(task.id)] else [];
    var deliver := if enqueued then [DeliveryEnqueued(deliveryId, task.id)] else [];
    RecordedRunsAppend(reset, record);
    RecordedRunsAppend(reset + record, deliver);
    assert RecordedRuns(reset) == [] by {
      if plan.agentRun.reset { assert reset == [] + reset; }
    }
    assert RecordedRuns(deliver) == [] by {
      if enqueued { assert deliver == [] + deliver; }
    }
    assert plan.finish.Recorded? ==> RecordedRuns(record) == [task.id] by {
      if plan.finish.Recorded? { assert record == [TaskRunRecorded(task.id)] + [RunLogged(task.id)]; }
    }
    reset + record + deliver
  }

  // ---------------------------------------------------------------------------
  // run_task and the scheduler loop
  // ---------------------------------------------------------------------------

  /** How `run_task` returns: normally, or with the exception that escaped it. */
  datatype RunOutcome = Ran | ScheduleRaised(scheduleError: ScheduleError) | StoreRaised(storeError: StoreError)

  /** What a run leaves in the store, and how it returns. */
  datatype RunEffect = RunEffect(tables: Tables, outcome: RunOutcome)

  /**
   * The effect of `run_task` on the tables `t`: the session reset of a retry, then, unless the
   * handler's calculator raised, the task update, the run log under the next id and the queued
   * result of a delivered run (or the duplicate-key error of a taken delivery id).
   */
  function RunTaskEffect(t: Tables, task: ScheduledTask, env: Env, clock: Clock, deliveryId: string): RunEffect {
    var plan := PlanRun(task, Lookup(t.conversations, task.conversation), env, clock);
    var conversations :=
      if plan.agentRun.reset
      then Upserted(t.conversations, task.conversation, None, env.dataDir, env.cal.iso(clock.reset))
      else t.conversations;
    if plan.finish.Escaped? then RunEffect(t.(conversations := conversations), ScheduleRaised(plan.finish.raised))
    else RecordEffect(t.(conversations := conversations), task, plan.finish, env, clock, deliveryId)
  }

  /**
   * The writes that end a recorded run: the task update, the run log under the next id and the
   * queued result of a delivered run, or the duplicate-key error of a taken delivery id.
   */
  function RecordEffect(t: Tables, task: ScheduledTask, f: Finish, env: Env, clock: Clock, deliveryId: string): RunEffect
    requires f.Recorded?
  {
    var queued := Delivers(f) && NewDeliveryId(t.deliveries, deliveryId);
    RunEffect(
      Tables(t.conversations,
             TasksAfterRun(t.tasks, task.id, f.nextRun, f.summary, env.cal.iso(clock.recorded)),
             t.runLogs + [TaskRunLog(t.lastLogId + 1, task.id, env.cal.iso(clock.start), clock.end - clock.start,
                                     RunStatus(f.error), LogResult(f.resultText), f.error)],
             t.deliveries + (if queued then [DeliveryItem(task, f, env, clock, deliveryId)] else []),
             t.lastLogId + 1),
      if Delivers(f) && !queued then StoreRaised(DuplicateKey("delivery_queue", deliveryId)) else Ran)
  }

  /** What a pass of the scheduler leaves in the store, the ids of the tasks whose run returned, and how it ends. */
  datatype PassEffect = PassEffect(tables: Tables, ran: seq<string>, outcome: RunOutcome)

  /**
   * The effect of running `due[k..]` one after the other on the tables `t`, the `k`-th with the
   * clock `clocks(k)` and the delivery id `deliveryIds(k)`; an exception out of a run ends the pass.
   */
  function PassFrom(t: Tables, due: seq<ScheduledTask>, env: Env, clocks: nat -> Clock,
                    deliveryIds: nat -> string, k: nat): PassEffect
    requires k <= |due|
    decreases |due| - k
  {
    if k == |due| then PassEffect(t, [], Ran)
    else
      var e := RunTaskEffect(t, due[k], env, clocks(k), deliveryIds(k));
      if !e.outcome.Ran? then PassEffect(e.tables, [], e.outcome)
      else
        var rest := PassFrom(e.tables, due, env, clocks, deliveryIds, k + 1);
        PassEffect(rest.tables, [due[k].id] + rest.ran, rest.outcome)
  }

  /** One pass of `run_scheduler` at time `now`: the tasks due then, run in `get_due_tasks` order. */
  function Pass(t: Tables, now: int, env: Env, clocks: nat -> Clock, deliveryIds: nat -> string): PassEffect {
    PassFrom(t, DueTasks(t.tasks, env.cal.iso(now)), env, clocks, deliveryIds, 0)
  }

  /**
   * A one-shot task that is the only task due, whose agent replies with some text, ends one pass
   * completed: the pass runs it and returns, the task is `completed` with no next run, one
   * `success` log holds the reply, and one pending delivery of the stripped reply is queued.
   */
  lemma OneShotPass(t: Tables, task: ScheduledTask, now: int, env: Env, clocks: nat -> Clock,
                    deliveryIds: nat -> string, ms: seq<AgentMessage>)
    requires DueTasks(t.tasks, env.cal.iso(now)) == [task]
    requires task.scheduleType == ONCE
    requires forall resume :: env.agent(task, resume) == Replied(ms)
    requires CollectedText(ms) != ""
    requires NewDeliveryId(t.deliveries, deliveryIds(0))
    ensures var p := Pass(t, now, env, clocks, deliveryIds);
      var clock := clocks(0);
      var text := CollectedText(ms);
      var u := FindTask(p.tables.tasks, task.id);
      && p.outcome == Ran && p.ran == [task.id]
      && u.Some? && u.value.status == Some(COMPLETED) && u.value.nextRun.None?
      && |p.tables.runLogs| == |t.runLogs| + 1 && p.tables.runLogs[..|t.runLogs|] == t.runLogs
      && (var log := p.tables.runLogs[|t.runLogs|];
          log.id == t.lastLogId + 1 && log.taskId == task.id && log.status == SUCCESS
          && log.runAt == env.cal.iso(clock.start) && log.durationMs == clock.end - clock.start
          && log.result == Some(text) && log.error.None?)
      && |p.tables.deliveries| == |t.deliveries| + 1 && p.tables.deliveries[..|t.deliveries|] == t.deliveries
      && var d := p.tables.deliveries[|t.deliveries|];
         d.id == deliveryIds(0) && d.taskId == task.id && d.status == PENDING && d.message == StripReplyTags(text)
         && d in PendingDeliveries(p.tables.deliveries, d.channelPrefix)
  {
    var clock := clocks(0);
    var text := CollectedText(ms);
    var tables := OneShotTables(t, task, env, clock, deliveryIds(0), text);
    OneShotRun(t, task, env, clock, deliveryIds(0), ms);
    SingleDuePass(t, task, now, env, clocks, deliveryIds, tables);
    assert task in t.tasks;
    OneShotTablesHold(t, task, env, clock, deliveryIds(0), text);
  }

  /** The tables after the recorded, delivered run of a one-shot task that replied `text`. */
  function OneShotTables(t: Tables, task: ScheduledTask, env: Env, clock: Clock, deliveryId: string, text: string): Tables {
    t.(tasks := TasksAfterRun(t.tasks, task.id, None, Summarize(text), env.cal.iso(clock.recorded)),
       runLogs := t.runLogs + [TaskRunLog(t.lastLogId + 1, task.id, env.cal.iso(clock.start),
                                          clock.end - clock.start, SUCCESS, Some(text), None)],
       deliveries := t.deliveries + [DeliveryItem(task, Recorded(None, Summarize(text), text, None), env, clock, deliveryId)],
       lastLogId := t.lastLogId + 1)
  }

  /**
   * After that run the task is `completed` with no next run, one `success` log holds the reply,
   * and one pending delivery of the stripped reply is queued.
   */
  lemma OneShotTablesHold(t: Tables, task: ScheduledTask, env: Env, clock: Clock, deliveryId: string, text: string)
    requires task in t.tasks
    ensures var after := OneShotTables(t, task, env, clock, deliveryId, text);
      var u := FindTask(after.tasks, task.id);
      && u.Some? && u.value.status == Some(COMPLETED) && u.value.nextRun.None?
      && |after.runLogs| == |t.runLogs| + 1 && after.runLogs[..|t.runLogs|] == t.runLogs
      && (var log := after.runLogs[|t.runLogs|];
          log.id == t.lastLogId + 1 && log.taskId == task.id && log.status == SUCCESS
          && log.runAt == env.cal.iso(clock.start) && log.durationMs == clock.end - clock.start
          && log.result == Some(text) && log.error.None?)
      && |after.deliveries| == |t.deliveries| + 1 && after.deliveries[..|t.deliveries|] == t.deliveries
      && var d := after.deliveries[|t.deliveries|];
         d.id == deliveryId && d.taskId == task.id && d.status == PENDING && d.message == StripReplyTags(text)
         && d in PendingDeliveries(after.deliveries, d.channelPrefix)
  {
    var after := OneShotTables(t, task, env, clock, deliveryId, text);
    var d := DeliveryItem(task, Recorded(None, Summarize(text), text, None), env, clock, deliveryId);
    assert after.deliveries == t.deliveries + [d];
    FindAfterRun(t.tasks, task.id, None, Summarize(text), env.cal.iso(clock.recorded), task.id);
    assert after.deliveries[..|t.deliveries|] == t.deliveries;
    assert after.runLogs[..|t.runLogs|] == t.runLogs;
    EnqueuedIsPending(t.deliveries, d);
  }

  /** The run of a one-shot task whose agent replies with some text, written out. */
  lemma OneShotRun(t: Tables, task: ScheduledTask, env: Env, clock: Clock, deliveryId: string, ms: seq<AgentMessage>)
    requires task.scheduleType == ONCE
    requires forall resume :: env.agent(task, resume) == Replied(ms)
    requires CollectedText(ms) != ""
    requires NewDeliveryId(t.deliveries, deliveryId)
    ensures RunTaskEffect(t, task, env, clock, deliveryId) ==
      RunEffect(OneShotTables(t, task, env, clock, deliveryId, CollectedText(ms)), Ran)
  {
    var text := CollectedText(ms);
    var plan := PlanRun(task, Lookup(t.conversations, task.conversation), env, clock);
    assert env.agent(task, plan.resume) == Replied(ms);
    assert plan.finish == Recorded(None, Summarize(text), text, None);
    assert RunStatus(None) == SUCCESS && LogResult(text) == Some(text);
  }

  /** A pass with one task due is that task's run, when the run returns. */
  lemma SingleDuePass(t: Tables, task: ScheduledTask, now: int, env: Env, clocks: nat -> Clock,
                      deliveryIds: nat -> string, after: Tables)
    requires DueTasks(t.tasks, env.cal.iso(now)) == [task]
    requires RunTaskEffect(t, task, env, clocks(0), deliveryIds(0)) == RunEffect(after, Ran)
    ensures Pass(t, now, env, clocks, deliveryIds) == PassEffect(after, [task.id], Ran)
  {
    assert PassFrom(after, [task], env, clocks, deliveryIds, 1) == PassEffect(after, [], Ran);
  }

  /**
   * The agent part of `run_task`: call the agent, and when resuming a session raises a process
   * error, reset the conversation's session and call it again without one. Returns the collected
   * text, or the message of the exception that ended the attempt.
   */
  method InvokeAgent(store: Store, task: ScheduledTask, resume: Option<string>, env: Env, clock: Clock)
    returns (result: Result<string, string>)
    requires store.Valid()
    modifies store
    ensures store.Valid()
    ensures var run := RunAgent(task, resume, env.agent);
      && result == run.result
      && store.conversations ==
           (if run.reset
            then Upserted(old(store.conversations), task.conversation, None, env.dataDir, env.cal.iso(clock.reset))
            else old(store.conversations))
      && store.journal == old(store.journal) + (if run.reset then [ConversationUpserted(task.conversation)] else [])
    ensures store.tasks == old(store.tasks) && store.runLogs == old(store.runLogs)
    ensures store.deliveries == old(store.deliveries) && store.lastLogId == old(store.lastLogId)
  {
    var reply := env.agent(task, resume);
    if reply.ProcessError? && resume.Some? {
      store.UpsertConversation(task.conversation, None, env.dataDir, env.cal.iso(clock.reset));
      reply := env.agent(task, None);
    }
    if reply.Replied? {
      var text := CollectText(reply.messages);
      result := Ok(text);
    } else {
      result := Err(reply.message);
    }
  }

  /**
   * The rest of `run_task`'s `try` and its `except`: compute the next run and the summary after
   * the agent; on the agent's or the calculator's exception, record the error with a recomputed
   * next run, unless that raises too.
   */
  method Conclude(task: ScheduledTask, result: Result<string, string>, env: Env, clock: Clock)
    returns (finish: Finish)
    ensures finish == FinishRun(task, result, env, clock)
  {
    var resultText := if result.Ok? then result.value else "";
    var failure: Option<string> := if result.Err? then Some(result.error) else None;
    var nextRun: Option<string> := None;
    var summary := "";
    if failure.None? {
      if IsRecurring(task.scheduleType) {
        var computed := ComputeNextRun(task.scheduleType, task.scheduleValue, None, clock.computed, env.cal);
        if computed.Err? {
          failure := Some(env.errorText(computed.error));
        } else {
          nextRun := computed.value;
        }
      }
      summary := if resultText != "" then (if |resultText| <= SUMMARY_LENGTH then resultText else resultText[..SUMMARY_LENGTH])
                 else "Completed";
    }
    if failure.Some? {
      summary := "Error: " + failure.value;
      nextRun := None;
      if IsRecurring(task.scheduleType) {
        var recomputed := ComputeNextRun(task.scheduleType, task.scheduleValue, None, clock.recomputed, env.cal);
        if recomputed.Err? {
          return Escaped(recomputed.error);
        }
        nextRun := recomputed.value;
      }
    }
    finish := Recorded(nextRun, summary, resultText, failure);
  }

  /** The item `run_task` queues for a delivered run. */
  function DeliveryItem(task: ScheduledTask, f: Finish, env: Env, clock: Clock, deliveryId: string): (r: DeliveryQueueItem)
    requires f.Recorded?
    ensures var target := ResolveDeliveryTarget(task, env.knownPrefix);
      && r.id == deliveryId && r.taskId == task.id && r.taskRunLogId.None? && r.status == PENDING
      && r.conversation == target.conversation && r.channelPrefix == target.channelPrefix
      && r.message == StripReplyTags(f.resultText)
  {
    var target := ResolveDeliveryTarget(task, env.knownPrefix);
    NewDelivery(deliveryId, task.id, None, target.conversation, target.channelPrefix,
                StripReplyTags(f.resultText), env.cal.iso(clock.enqueued))
  }

  /** No queued item carries the id `id`. */
  predicate NewDeliveryId(deliveries: seq<DeliveryQueueItem>, id: string) {
    forall i :: 0 <= i < |deliveries| ==> deliveries[i].id != id
  }

  /**
   * The writes at the end of `run_task`: record the run on the task, log it, and queue the
   * result of a delivered run.
   */
  method RecordRun(store: Store, task: ScheduledTask, f: Finish, env: Env, clock: Clock, deliveryId: string)
    returns (outcome: RunOutcome)
    requires store.Valid() && f.Recorded?
    modifies store
    ensures store.Valid()
    ensures var e := RecordEffect(old(store.Contents()), task, f, env, clock, deliveryId);
      store.Contents() == e.tables && outcome == e.outcome
    ensures var queued := Delivers(f) && NewDeliveryId(old(store.deliveries), deliveryId);
      store.journal == old(store.journal) + [TaskRunRecorded(task.id), RunLogged(task.id)] +
                          (if queued then [DeliveryEnqueued(deliveryId, task.id)] else [])
  {
    store.UpdateTaskAfterRun(task.id, f.nextRun, f.summary, env.cal.iso(clock.recorded));
    store.LogTaskRun(task.id, env.cal.iso(clock.start), clock.end - clock.start,
                     RunStatus(f.error), LogResult(f.resultText), f.error);
    outcome := QueueResult(store, task, f, env, clock, deliveryId);
  }

  /** The last write of `run_task`: queue the result of a delivered run for its target. */
  method QueueResult(store: Store, task: ScheduledTask, f: Finish, env: Env, clock: Clock, deliveryId: string)
    returns (outcome: RunOutcome)
    requires store.Valid() && f.Recorded?
    modifies store
    ensures store.Valid()
    ensures store.conversations == old(store.conversations) && store.tasks == old(store.tasks)
    ensures store.runLogs == old(store.runLogs) && store.lastLogId == old(store.lastLogId)
    ensures var queued := Delivers(f) && NewDeliveryId(old(store.deliveries), deliveryId);
      && store.deliveries == old(store.deliveries) + (if queued then [DeliveryItem(task, f, env, clock, deliveryId)] else [])
      && outcome == (if Delivers(f) && !queued then StoreRaised(DuplicateKey("delivery_queue", deliveryId)) else Ran)
      && store.journal == old(store.journal) + (if queued then [DeliveryEnqueued(deliveryId, task.id)] else [])
  {
    outcome := Ran;
    if Delivers(f) {
      var target := ResolveDeliveryTarget(task, env.knownPrefix);
      var queued := store.EnqueueDelivery(deliveryId, task.id, None, target.conversation, target.channelPrefix,
                                          StripReplyTags(f.resultText), env.cal.iso(clock.enqueued));
      if queued.Raised? {
        outcome := StoreRaised(queued.error);
      }
    } else {
      assert store.deliveries == old(store.deliveries) + [];
      assert store.journal == old(store.journal) + [];
    }
  }

  /**
   * `run_task`: choose the session, run the agent (retrying fresh once), then record the run,
   * log it and, for a successful run with text, queue the result without its reply tags for the
   * resolved target. A calculator exception in the handler escapes before any of these writes.
   */
  method RunTask(store: Store, task: ScheduledTask, env: Env, clock: Clock, deliveryId: string)
    returns (outcome: RunOutcome)
    requires store.Valid()
    modifies store
    ensures store.Valid()
    ensures var e := RunTaskEffect(old(store.Contents()), task, env, clock, deliveryId);
      store.Contents() == e.tables && outcome == e.outcome
    ensures var plan := PlanRun(task, old(store.GetConversation(task.conversation)), env, clock);
      && (plan.finish.Recorded? <==> !outcome.ScheduleRaised?)
      && store.journal == old(store.journal) +
           RunWrites(task, plan, deliveryId, Delivers(plan.finish) && NewDeliveryId(old(store.deliveries), deliveryId))
    ensures RecordedRuns(store.journal) == RecordedRuns(old(store.journal)) + (if outcome.ScheduleRaised? then [] else [task.id])
  {
    ghost var plan := PlanRun(task, store.GetConversation(task.conversation), env, clock);
    ghost var t0 := store.Contents();
    ghost var journal0 := store.journal;
    ghost var queued := Delivers(plan.finish) && NewDeliveryId(store.deliveries, deliveryId);
    RunWritesParts(journal0, task, plan, deliveryId, queued);
    RecordedByRun(journal0, task, plan, deliveryId, queued);
    var conv := store.GetConversation(task.conversation);
    var resume := ResumeSession(task, conv, env.promptHash);
    var result := InvokeAgent(store, task, resume, env, clock);
    assert resume == plan.resume && result == plan.agentRun.result;
    var finish := Conclude(task, result, env, clock);
    assert finish == plan.finish;
    ghost var t1 := t0.(conversations := store.conversations);
    assert store.Contents() == t1;
    if finish.Escaped? {
      assert store.journal == store.journal + [] + [];
      return ScheduleRaised(finish.raised);
    }
    outcome := RecordRun(store, task, finish, env, clock, deliveryId);
  }

  /** The writes of a run, part by part. */
  lemma RunWritesParts(journal: seq<Write>, task: ScheduledTask, plan: RunPlan, deliveryId: string, queued: bool)
    ensures journal + RunWrites(task, plan, deliveryId, queued) ==
      journal + (if plan.agentRun.reset then [ConversationUpserted(task.conversation)] else [])
              + (if plan.finish.Recorded? then [TaskRunRecorded(task.id), RunLogged(task.id)] else [])
              + (if queued then [DeliveryEnqueued(deliveryId, task.id)] else [])
  {
    var reset := if plan.agentRun.reset then [ConversationUpserted(task.conversation)] else [];
    var record := if plan.finish.Recorded? then [TaskRunRecorded(task.id), RunLogged(task.id)] else [];
    var deliver := if queued then [DeliveryEnqueued(deliveryId, task.id)] else [];
    assert RunWrites(task, plan, deliveryId, queued) == reset + record + deliver;
    AppendAssoc(journal, reset + record, deliver);
    AppendAssoc(journal, reset, record);
  }

  /** What a run adds to the recorded runs: its task, exactly when it did not escape. */
  lemma RecordedByRun(journal: seq<Write>, task: ScheduledTask, plan: RunPlan, deliveryId: string, queued: bool)
    ensures RecordedRuns(journal + RunWrites(task, plan, deliveryId, queued)) ==
      RecordedRuns(journal) + (if plan.finish.Recorded? then [task.id] else [])
  {
    RecordedRunsAppend(journal, RunWrites(task, plan, deliveryId, queued));
  }

  /** Adding the id of the next due task keeps the ids run a prefix of the due ids. */
  lemma RanPrefixGrows(ran: seq<string>, due: seq<ScheduledTask>, k: nat)
    requires k < |due| && |ran| == k && forall j :: 0 <= j < k ==> ran[j] == due[j].id
    ensures forall j :: 0 <= j < k + 1 ==> (ran + [due[k].id])[j] == due[j].id
  {
  }

  /** A run of `due[k]` moves the remaining pass on by one task, or ends it. */
  lemma PassAdvances(pass: PassEffect, t: Tables, due: seq<ScheduledTask>, env: Env, clocks: nat -> Clock,
                     deliveryIds: nat -> string, k: nat, ran: seq<string>)
    requires k < |due|
    requires var rest := PassFrom(t, due, env, clocks, deliveryIds, k);
      pass.tables == rest.tables && pass.outcome == rest.outcome && pass.ran == ran + rest.ran
    ensures var e := RunTaskEffect(t, due[k], env, clocks(k), deliveryIds(k));
      if e.outcome.Ran? then
        var rest := PassFrom(e.tables, due, env, clocks, deliveryIds, k + 1);
        pass.tables == rest.tables && pass.outcome == rest.outcome && pass.ran == ran + [due[k].id] + rest.ran
      else pass.tables == e.tables && pass.outcome == e.outcome && pass.ran == ran
  {
    var e := RunTaskEffect(t, due[k], env, clocks(k), deliveryIds(k));
    if e.outcome.Ran? {
      var rest := PassFrom(e.tables, due, env, clocks, deliveryIds, k + 1);
      AppendAssoc(ran, [due[k].id], rest.ran);
    }
  }

  /**
   * One pass of `run_scheduler`'s loop: read the tasks due at `now`, then run them one after the
   * other in that order, the `k`-th with the clock `clocks(k)` and the delivery id
   * `deliveryIds(k)`. An exception out of a run ends the pass. Returns the ids of the tasks
   * whose run returned.
   */
  method RunSchedulerTick(store: Store, now: int, env: Env, clocks: nat -> Clock, deliveryIds: nat -> string)
    returns (ran: seq<string>, outcome: RunOutcome)
    requires store.Valid()
    modifies store
    ensures store.Valid()
    ensures var due := old(store.GetDueTasks(env.cal.iso(now)));
      && |ran| <= |due|
      && (forall k :: 0 <= k < |ran| ==> ran[k] == due[k].id)
      && (outcome.Ran? <==> |ran| == |due|)
      && RecordedRuns(store.journal) == RecordedRuns(old(store.journal)) + ran +
           (if outcome.StoreRaised? then [due[|ran|].id] else [])
    ensures var p := Pass(old(store.Contents()), now, env, clocks, deliveryIds);
      store.Contents() == p.tables && ran == p.ran && outcome == p.outcome
  {
    var due := store.GetDueTasks(env.cal.iso(now));
    ghost var pass := PassFrom(store.Contents(), due, env, clocks, deliveryIds, 0);
    ran := [];
    outcome := Ran;
    var k := 0;
    while k < |due|
      invariant store.Valid()
      invariant 0 <= k <= |due| && |ran| == k
      invariant forall j :: 0 <= j < k ==> ran[j] == due[j].id
      invariant RecordedRuns(store.journal) == RecordedRuns(old(store.journal)) + ran
      invariant var rest := PassFrom(store.Contents(), due, env, clocks, deliveryIds, k);
        pass.tables == rest.tables && pass.outcome == rest.outcome && pass.ran == ran + rest.ran
    {
      ghost var before := store.Contents();
      var o := RunTask(store, due[k], env, clocks(k), deliveryIds(k));
      PassAdvances(pass, before, due, env, clocks, deliveryIds, k, ran);
      if !o.Ran? {
        outcome := o;
        return;
      }
      AppendAssoc(RecordedRuns(old(store.journal)), ran, [due[k].id]);
      RanPrefixGrows(ran, due, k);
      ran := ran + [due[k].id];
      k := k + 1;
    }
  }
}
