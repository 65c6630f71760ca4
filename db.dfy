/**
 * The task store: conversations, scheduled tasks, run logs and the delivery queue. The tables
 * are sequences of rows in insertion (rowid) order; the functions in the first half of this
 * module say what each statement does to a table, and the `Store` class performs them in place.
 * Timestamps, generated ids and `datetime.now()` are parameters.
 */
module Db {
  import opened Wrappers
  import opened Text
  import opened Rows
  import opened Models

  // ---------------------------------------------------------------------------
  // parse_channel_prefix
  // ---------------------------------------------------------------------------

  /** The channel of a conversation name that carries no `-`. */
  const DEFAULT_CHANNEL := "chat"

  /** The text before the first `-` of a conversation name, or `"chat"` when there is none. */
  function ParseChannelPrefix(name: string): (r: string)
    ensures '-' in name ==> |r| < |name| && r == name[..|r|] && name[|r|] == '-' && '-' !in r
    ensures '-' !in name ==> r == DEFAULT_CHANNEL
  {
    match FindChar(name, '-')
    case None => DEFAULT_CHANNEL
    case Some(i) => name[..i]
  }

  /** A name built as `prefix-rest` from a dash-free prefix has that prefix as its channel. */
  lemma ChannelOfPrefixedName(prefix: string, rest: string)
    requires '-' !in prefix
    ensures ParseChannelPrefix(prefix + "-" + rest) == prefix
  {
    var name := prefix + "-" + rest;
    assert name[..|prefix|] == prefix && name[|prefix|] == '-';
  }

  /** A documented case: a WhatsApp chat belongs to channel `wa`. */
  lemma WhatsAppChannel()
    ensures ParseChannelPrefix("wa-123@s.whatsapp.net") == "wa"
  {
    assert "wa-123@s.whatsapp.net" == "wa" + "-" + "123@s.whatsapp.net";
    ChannelOfPrefixedName("wa", "123@s.whatsapp.net");
  }

  /** Documented edge cases: a trailing dash leaves the prefix, a leading dash gives the empty channel. */
  lemma DashAtEitherEnd()
    ensures ParseChannelPrefix("wa-") == "wa"
    ensures ParseChannelPrefix("-leading") == ""
  {
    assert "wa-" == "wa" + "-" + "";
    ChannelOfPrefixedName("wa", "");
    assert "-leading" == "" + "-" + "leading";
    ChannelOfPrefixedName("", "leading");
  }

  /** The documented cases of a name without a dash: the default channel. */
  lemma DefaultChannelExamples()
    ensures ParseChannelPrefix("myproject") == DEFAULT_CHANNEL
    ensures ParseChannelPrefix("") == DEFAULT_CHANNEL
  {
    assert forall k :: 0 <= k < |"myproject"| ==> "myproject"[k] != '-';
  }

  // ---------------------------------------------------------------------------
  // Errors and the write journal
  // ---------------------------------------------------------------------------

  /** The database errors the store's statements can raise. */
  datatype StoreError =
    | DuplicateKey(table: string, key: string)  // an INSERT hit an existing primary key
    | NotNull(column: string)                   // an UPDATE set a NOT NULL column to NULL

  /** What a store call did: committed, or raised and changed nothing. */
  datatype Outcome = Done | Raised(error: StoreError)

  /** One committed write, in commit order. */
  datatype Write =
    | ConversationUpserted(name: string)
    | TaskCreated(taskId: string)
    | TaskUpdated(taskId: string)
    | TaskDeleted(taskId: string)       // the task row and its run logs, in one transaction
    | TaskRunRecorded(taskId: string)   // update_task_after_run
    | RunLogged(taskId: string)
    | DeliveryEnqueued(deliveryId: string, taskId: string)
    | DeliveryMarked(deliveryId: string, status: string)

  // ---------------------------------------------------------------------------
  // conversations
  // ---------------------------------------------------------------------------

  /** `get_conversation`. */
  function Lookup(conversations: map<string, Conversation>, name: string): Option<Conversation> {
    if name in conversations then Some(conversations[name]) else None
  }

  /**
   * `upsert_conversation`: insert a new conversation, or overwrite only the session id and the
   * working directory of an existing one.
   */
  function Upserted(conversations: map<string, Conversation>, name: string,
                    sessionId: Option<string>, cwd: string, now: string): map<string, Conversation>
  {
    if name in conversations then
      conversations[name := conversations[name].(sessionId := sessionId, cwd := Some(cwd))]
    else
      conversations[name := Conversation(name, sessionId, Some(cwd), now)]
  }

  /**
   * After an upsert the conversation carries the new session and directory; an existing one keeps
   * its creation time (and every other field), a new one is created now; no other conversation
   * changes.
   */
  lemma UpsertThenLookup(conversations: map<string, Conversation>, name: string,
                         sessionId: Option<string>, cwd: string, now: string, other: string)
    requires forall n :: n in conversations ==> conversations[n].name == n
    ensures var c := Lookup(Upserted(conversations, name, sessionId, cwd, now), name);
      && c.Some? && c.value.name == name
      && c.value.sessionId == sessionId && c.value.cwd == Some(cwd)
      && c.value.createdAt == (if name in conversations then conversations[name].createdAt else now)
      && c.value.systemPromptHash == (if name in conversations then conversations[name].systemPromptHash else None)
    ensures other != name ==>
      Lookup(Upserted(conversations, name, sessionId, cwd, now), other) == Lookup(conversations, other)
  {
  }

  // ---------------------------------------------------------------------------
  // scheduled_tasks
  // ---------------------------------------------------------------------------

  function TaskId(t: ScheduledTask): string { t.id }

  /** `get_task`: the row with the given id. */
  function FindTask(tasks: seq<ScheduledTask>, id: string): (r: Option<ScheduledTask>)
    ensures r.Some? ==> r.value in tasks && r.value.id == id
    ensures r.None? <==> forall i :: 0 <= i < |tasks| ==> tasks[i].id != id
  {
    if tasks == [] then None
    else if tasks[0].id == id then Some(tasks[0])
    else FindTask(tasks[1..], id)
  }

  /** With distinct ids, looking a row up by its id finds that very row. */
  lemma {:induction false} FindTaskFinds(tasks: seq<ScheduledTask>, i: nat)
    requires DistinctBy(tasks, TaskId) && i < |tasks|
    ensures FindTask(tasks, tasks[i].id) == Some(tasks[i])
  {
    if i > 0 {
      assert TaskId(tasks[0]) != TaskId(tasks[i]);
      assert DistinctBy(tasks[1..], TaskId);
      FindTaskFinds(tasks[1..], i - 1);
    }
  }

  /** The row `create_task` inserts. */
  function NewTask(id: string, conversation: string, prompt: string, scheduleType: string,
                   scheduleValue: string, nextRun: Option<string>, contextMode: string,
                   targetConversation: Option<string>, now: string): ScheduledTask
  {
    ScheduledTask(id, conversation, prompt, scheduleType, scheduleValue, contextMode,
                  targetConversation, nextRun, None, None, Some(ACTIVE), now)
  }

  /**
   * `create_task` on a fresh id adds exactly that task, active and due at the given time, and
   * every other id still finds what it found before.
   */
  lemma {:induction false} CreateTaskAddsOne(tasks: seq<ScheduledTask>, t: ScheduledTask, other: string)
    requires FindTask(tasks, t.id).None?
    ensures FindTask(tasks + [t], t.id) == Some(t)
    ensures other != t.id ==> FindTask(tasks + [t], other) == FindTask(tasks, other)
  {
    if tasks != [] {
      assert (tasks + [t])[1..] == tasks[1..] + [t];
      CreateTaskAddsOne(tasks[1..], t, other);
    }
  }

  /** Appending a row whose id no row has keeps the ids distinct. */
  lemma CreateTaskKeepsDistinct(tasks: seq<ScheduledTask>, t: ScheduledTask)
    requires FindTask(tasks, t.id).None? && DistinctBy(tasks, TaskId)
    ensures DistinctBy(tasks + [t], TaskId)
  {
    var s := tasks + [t];
    forall i, j | 0 <= i < j < |s| ensures TaskId(s[i]) != TaskId(s[j]) {
      assert s[i] == tasks[i];
    }
  }

  /** The columns `update_task` may change, in the order it writes them. */
  const UPDATABLE: seq<string> := ["prompt", "schedule_type", "schedule_value", "next_run", "status"]

  /** The whitelisted keys present in `updates`, in whitelist order. */
  function UpdateKeys(updates: map<string, Option<string>>): seq<string> {
    Filter(UPDATABLE, k => k in updates)
  }

  /**
   * The `fields`/`values` lists `update_task` builds: one entry per whitelisted key present in
   * `updates`, in whitelist order, with that key's value.
   */
  method SetClauses(updates: map<string, Option<string>>) returns (keys: seq<string>, values: seq<Option<string>>)
    ensures keys == UpdateKeys(updates)
    ensures forall k :: k in keys <==> k in UPDATABLE && k in updates
    ensures |values| == |keys| && forall i :: 0 <= i < |keys| ==> values[i] == updates[keys[i]]
  {
    keys, values := [], [];
    var i := 0;
    while i < |UPDATABLE|
      invariant 0 <= i <= |UPDATABLE|
      invariant keys == Filter(UPDATABLE[..i], k => k in updates)
      invariant |values| == |keys| && forall j :: 0 <= j < |keys| ==> keys[j] in updates && values[j] == updates[keys[j]]
    {
      var key := UPDATABLE[i];
      UpdateKeysStep(updates, i);
      if key in updates {
        keys := keys + [key];
        values := values + [updates[key]];
      }
      i := i + 1;
    }
    assert UPDATABLE[..i] == UPDATABLE;
  }

  /** The whitelisted keys among the first `i + 1` are those among the first `i`, then the next one if present. */
  lemma UpdateKeysStep(updates: map<string, Option<string>>, i: nat)
    requires i < |UPDATABLE|
    ensures Filter(UPDATABLE[..i + 1], k => k in updates) ==
      Filter(UPDATABLE[..i], k => k in updates) + (if UPDATABLE[i] in updates then [UPDATABLE[i]] else [])
  {
    assert UPDATABLE[..i + 1] == UPDATABLE[..i] + [UPDATABLE[i]];
    FilterSnoc(UPDATABLE[..i], UPDATABLE[i], k => k in updates);
  }

  /**
   * The first whitelisted NOT NULL column (`prompt`, `schedule_type`, `schedule_value`, in table
   * order) that `updates` sets to None, if any; `next_run` and `status` accept NULL.
   */
  function NullViolation(updates: map<string, Option<string>>): Option<string> {
    if "prompt" in updates && updates["prompt"].None? then Some("prompt")
    else if "schedule_type" in updates && updates["schedule_type"].None? then Some("schedule_type")
    else if "schedule_value" in updates && updates["schedule_value"].None? then Some("schedule_value")
    else None
  }

  function Pick(updates: map<string, Option<string>>, key: string, current: string): string {
    if key in updates && updates[key].Some? then updates[key].value else current
  }

  /** The row after `UPDATE scheduled_tasks SET <whitelisted keys> WHERE id = ?`. */
  function ApplyUpdates(t: ScheduledTask, updates: map<string, Option<string>>): ScheduledTask {
    t.(prompt := Pick(updates, "prompt", t.prompt),
       scheduleType := Pick(updates, "schedule_type", t.scheduleType),
       scheduleValue := Pick(updates, "schedule_value", t.scheduleValue),
       nextRun := if "next_run" in updates then updates["next_run"] else t.nextRun,
       status := if "status" in updates then updates["status"] else t.status)
  }

  /**
   * `update_task` touches only whitelisted columns, sets each one it is given, and without a
   * whitelisted key changes nothing.
   */
  lemma UpdateOnlyWhitelisted(t: ScheduledTask, updates: map<string, Option<string>>)
    requires NullViolation(updates).None?
    ensures var u := ApplyUpdates(t, updates);
      && u.id == t.id && u.conversation == t.conversation && u.contextMode == t.contextMode
      && u.targetConversation == t.targetConversation && u.lastRun == t.lastRun
      && u.lastResult == t.lastResult && u.createdAt == t.createdAt
      && ("prompt" in updates ==> u.prompt == updates["prompt"].value)
      && ("schedule_type" in updates ==> u.scheduleType == updates["schedule_type"].value)
      && ("schedule_value" in updates ==> u.scheduleValue == updates["schedule_value"].value)
      && ("next_run" in updates ==> u.nextRun == updates["next_run"])
      && ("status" in updates ==> u.status == updates["status"])
    ensures UpdateKeys(updates) == [] ==> ApplyUpdates(t, updates) == t
  {
    if UpdateKeys(updates) == [] {
      forall k | k in UPDATABLE ensures k !in updates {
        assert k !in UpdateKeys(updates);
      }
      assert "prompt" in UPDATABLE && "schedule_type" in UPDATABLE && "schedule_value" in UPDATABLE;
      assert "next_run" in UPDATABLE && "status" in UPDATABLE;
    }
  }

  /** `UPDATE scheduled_tasks SET ... WHERE id = ?` with a row rewrite `f`. */
  function UpdateTaskRow(tasks: seq<ScheduledTask>, id: string, f: ScheduledTask -> ScheduledTask): seq<ScheduledTask> {
    UpdateWhere(tasks, (t: ScheduledTask) => t.id == id, f)
  }

  /** Rewriting one row without touching ids leaves every id on its row and finds the rewritten row. */
  lemma {:induction false} FindAfterUpdate(tasks: seq<ScheduledTask>, id: string,
                                           f: ScheduledTask -> ScheduledTask, other: string)
    requires forall t :: f(t).id == t.id
    ensures var u := UpdateTaskRow(tasks, id, f);
      && (forall i :: 0 <= i < |u| ==> u[i].id == tasks[i].id)
      && FindTask(u, id) == (if FindTask(tasks, id).Some? then Some(f(FindTask(tasks, id).value)) else None)
      && (other != id ==> FindTask(u, other) == FindTask(tasks, other))
  {
    var u := UpdateTaskRow(tasks, id, f);
    if tasks != [] {
      assert u[1..] == UpdateTaskRow(tasks[1..], id, f);
      FindAfterUpdate(tasks[1..], id, f, other);
    }
  }

  /** The tasks left by `delete_task`. */
  function WithoutTask(tasks: seq<ScheduledTask>, id: string): seq<ScheduledTask> {
    Filter(tasks, (t: ScheduledTask) => t.id != id)
  }

  /** The run logs left by `delete_task`. */
  function WithoutLogs(logs: seq<TaskRunLog>, id: string): seq<TaskRunLog> {
    Filter(logs, (l: TaskRunLog) => l.taskId != id)
  }

  /**
   * After `delete_task` the id finds nothing, every other id finds what it found before, no run
   * log of the task is left and every other run log is kept.
   */
  lemma {:induction false} DeleteTaskRemoves(tasks: seq<ScheduledTask>, logs: seq<TaskRunLog>, id: string, other: string)
    ensures FindTask(WithoutTask(tasks, id), id).None?
    ensures other != id ==> FindTask(WithoutTask(tasks, id), other) == FindTask(tasks, other)
    ensures forall l :: l in WithoutLogs(logs, id) <==> l in logs && l.taskId != id
  {
    var w := WithoutTask(tasks, id);
    assert forall i :: 0 <= i < |w| ==> w[i] in w;
    if tasks != [] && other != id {
      DeleteTaskRemoves(tasks[1..], [], id, other);
      if tasks[0].id != id {
        assert w == [tasks[0]] + WithoutTask(tasks[1..], id);
      }
    }
  }

  function NextRunKey(t: ScheduledTask): string {
    if t.nextRun.Some? then t.nextRun.value else ""
  }

  /** `next_run <= now` as TEXT, on an active task that has a next run. */
  predicate IsDue(t: ScheduledTask, now: string) {
    t.status == Some(ACTIVE) && t.nextRun.Some? && TextLe(t.nextRun.value, now)
  }

  /**
   * `get_due_tasks`: exactly the due tasks, earliest `next_run` first (rows with the same
   * `next_run` in table order).
   */
  function DueTasks(tasks: seq<ScheduledTask>, now: string): (r: seq<ScheduledTask>)
    ensures forall t :: t in r <==> t in tasks && IsDue(t, now)
    ensures SortedBy(r, NextRunKey)
    ensures multiset(r) == multiset(Filter(tasks, t => IsDue(t, now)))
  {
    var due := Filter(tasks, t => IsDue(t, now));
    SortByMembers(due, NextRunKey);
    SortBy(due, NextRunKey)
  }

  /**
   * `update_task_after_run`: the next run, the run time and the summary are always set; the task
   * becomes `completed` when there is no next run and otherwise keeps its status.
   */
  function AfterRun(t: ScheduledTask, nextRun: Option<string>, lastResult: string, now: string): (r: ScheduledTask)
    ensures r.id == t.id && r.nextRun == nextRun && r.lastRun == Some(now) && r.lastResult == Some(lastResult)
    ensures nextRun.None? ==> r.status == Some(COMPLETED)
    ensures nextRun.Some? ==> r.status == t.status
    ensures r == t.(nextRun := r.nextRun, lastRun := r.lastRun, lastResult := r.lastResult, status := r.status)
  {
    t.(nextRun := nextRun, lastRun := Some(now), lastResult := Some(lastResult),
       status := if nextRun.None? then Some(COMPLETED) else t.status)
  }

  /** The task table after `update_task_after_run` on the task `id`. */
  function TasksAfterRun(tasks: seq<ScheduledTask>, id: string, nextRun: Option<string>,
                         lastResult: string, now: string): seq<ScheduledTask>
  {
    UpdateTaskRow(tasks, id, t => AfterRun(t, nextRun, lastResult, now))
  }

  /** After a run is recorded, `get_task` returns the task as `AfterRun` left it; other tasks are unchanged. */
  lemma FindAfterRun(tasks: seq<ScheduledTask>, id: string, nextRun: Option<string>,
                     lastResult: string, now: string, other: string)
    ensures var u := TasksAfterRun(tasks, id, nextRun, lastResult, now);
      && |u| == |tasks|
      && FindTask(u, id) == (if FindTask(tasks, id).Some? then Some(AfterRun(FindTask(tasks, id).value, nextRun, lastResult, now)) else None)
      && (other != id ==> FindTask(u, other) == FindTask(tasks, other))
  {
    FindAfterUpdate(tasks, id, t => AfterRun(t, nextRun, lastResult, now), other);
  }

  /** Whatever a task's status, after a run it is `completed` exactly when its next run is None or it already was. */
  lemma CompletedIffNoNextRun(t: ScheduledTask, nextRun: Option<string>, lastResult: string, now: string)
    requires t.status != Some(COMPLETED)
    ensures AfterRun(t, nextRun, lastResult, now).status == Some(COMPLETED) <==> AfterRun(t, nextRun, lastResult, now).nextRun.None?
  {
  }

  // ---------------------------------------------------------------------------
  // delivery_queue
  // ---------------------------------------------------------------------------

  function DeliveryId(d: DeliveryQueueItem): string { d.id }
  function CreatedAtKey(d: DeliveryQueueItem): string { d.createdAt }

  /** The row `enqueue_delivery` inserts. */
  function NewDelivery(id: string, taskId: string, taskRunLogId: Option<int>, conversation: string,
                       channelPrefix: string, message: string, now: string): DeliveryQueueItem
  {
    DeliveryQueueItem(id, taskId, taskRunLogId, conversation, channelPrefix, message, PENDING, now, None)
  }

  predicate IsPendingFor(d: DeliveryQueueItem, channelPrefix: string) {
    d.channelPrefix == channelPrefix && d.status == PENDING
  }

  /** `get_pending_deliveries`: exactly the pending items of one channel, oldest first. */
  function PendingDeliveries(deliveries: seq<DeliveryQueueItem>, channelPrefix: string): (r: seq<DeliveryQueueItem>)
    ensures forall d :: d in r <==> d in deliveries && IsPendingFor(d, channelPrefix)
    ensures SortedBy(r, CreatedAtKey)
    ensures multiset(r) == multiset(Filter(deliveries, d => IsPendingFor(d, channelPrefix)))
  {
    var pending := Filter(deliveries, d => IsPendingFor(d, channelPrefix));
    SortByMembers(pending, CreatedAtKey);
    SortBy(pending, CreatedAtKey)
  }

  /** A freshly enqueued item is pending and is picked up by its own channel. */
  lemma EnqueuedIsPending(deliveries: seq<DeliveryQueueItem>, d: DeliveryQueueItem)
    requires d.status == PENDING
    ensures d in PendingDeliveries(deliveries + [d], d.channelPrefix)
    ensures forall p :: p != d.channelPrefix ==> d !in PendingDeliveries(deliveries + [d], p)
  {
  }

  /** `mark_delivered`'s change to an item. */
  function MarkedDelivered(d: DeliveryQueueItem, now: string): DeliveryQueueItem {
    d.(status := DELIVERED, deliveredAt := Some(now))
  }

  /** `mark_delivery_failed`'s change to an item: the error text is not stored. */
  function MarkedFailed(d: DeliveryQueueItem): DeliveryQueueItem {
    d.(status := FAILED)
  }

  /** `UPDATE delivery_queue SET ... WHERE id = ?`. */
  function UpdateDelivery(deliveries: seq<DeliveryQueueItem>, id: string,
                          f: DeliveryQueueItem -> DeliveryQueueItem): seq<DeliveryQueueItem>
  {
    UpdateWhere(deliveries, (d: DeliveryQueueItem) => d.id == id, f)
  }

  /**
   * After `mark_delivered` or `mark_delivery_failed` the item has left every channel's pending
   * list, every other pending item is still there, and the item is `delivered` with a delivery
   * time, or `failed`.
   */
  lemma MarkLeavesPending(deliveries: seq<DeliveryQueueItem>, id: string, now: string, delivered: bool, p: string)
    ensures var f := if delivered then (d: DeliveryQueueItem) => MarkedDelivered(d, now) else MarkedFailed;
      var after := UpdateDelivery(deliveries, id, f);
      && (forall d :: d in PendingDeliveries(after, p) ==> d.id != id)
      && (forall d :: d in PendingDeliveries(deliveries, p) && d.id != id ==> d in PendingDeliveries(after, p))
      && (forall i :: 0 <= i < |after| && deliveries[i].id == id ==>
            if delivered then after[i].status == DELIVERED && after[i].deliveredAt.Some?
            else after[i].status == FAILED && after[i].deliveredAt == deliveries[i].deliveredAt)
  {
    var f := if delivered then (d: DeliveryQueueItem) => MarkedDelivered(d, now) else MarkedFailed;
    var after := UpdateDelivery(deliveries, id, f);
    forall d | d in PendingDeliveries(after, p) ensures d.id != id {
      var i :| 0 <= i < |after| && after[i] == d;
    }
    forall d | d in PendingDeliveries(deliveries, p) && d.id != id ensures d in PendingDeliveries(after, p) {
      var i :| 0 <= i < |deliveries| && deliveries[i] == d;
      assert after[i] == d;
    }
  }

  // ---------------------------------------------------------------------------
  // task_run_logs
  // ---------------------------------------------------------------------------

  function LogId(l: TaskRunLog): int { l.id }

  // ---------------------------------------------------------------------------
  // The store
  // ---------------------------------------------------------------------------

  /** The committed contents of the store: its four tables and the last run-log id handed out. */
  datatype Tables = Tables(conversations: map<string, Conversation>, tasks: seq<ScheduledTask>,
                          runLogs: seq<TaskRunLog>, deliveries: seq<DeliveryQueueItem>, lastLogId: int)

  /** One database, used by one caller at a time. */
  class Store {
    var conversations: map<string, Conversation>
    var tasks: seq<ScheduledTask>
    var runLogs: seq<TaskRunLog>
    var deliveries: seq<DeliveryQueueItem>
    /** The last id AUTOINCREMENT handed out to a run log; ids are never reused. */
    var lastLogId: int
    /** Every committed write, oldest first. */
    ghost var journal: seq<Write>

    /** Primary keys are unique, conversations are keyed by name, log ids increase and were handed out. */
    ghost predicate Valid()
      reads this
    {
      && (forall n :: n in conversations ==> conversations[n].name == n)
      && DistinctBy(tasks, TaskId)
      && DistinctBy(deliveries, DeliveryId)
      && IncreasingBy(runLogs, LogId)
      && 0 <= lastLogId
      && (forall l :: l in runLogs ==> 0 < l.id <= lastLogId)
    }

    /** `init_db` on a new database file: four empty tables. */
    constructor ()
      ensures Valid()
      ensures conversations == map[] && tasks == [] && runLogs == [] && deliveries == []
      ensures journal == []
    {
      conversations, tasks, runLogs, deliveries := map[], [], [], [];
      lastLogId := 0;
      journal := [];
    }

    /** What the store holds now, as a value. */
    function Contents(): Tables
      reads this
    {
      Tables(conversations, tasks, runLogs, deliveries, lastLogId)
    }

    /** `get_conversation`. */
    function GetConversation(name: string): Option<Conversation>
      reads this
    {
      Lookup(conversations, name)
    }

    /** `get_task`. */
    function GetTask(id: string): Option<ScheduledTask>
      reads this
    {
      FindTask(tasks, id)
    }

    /** `get_due_tasks` at time `now`. */
    function GetDueTasks(now: string): seq<ScheduledTask>
      reads this
    {
      DueTasks(tasks, now)
    }

    /** `get_pending_deliveries`. */
    function GetPendingDeliveries(channelPrefix: string): seq<DeliveryQueueItem>
      reads this
    {
      PendingDeliveries(deliveries, channelPrefix)
    }

    /** `upsert_conversation`. */
    method UpsertConversation(name: string, sessionId: Option<string>, cwd: string, now: string)
      requires Valid()
      modifies this
      ensures Valid()
      ensures conversations == Upserted(old(conversations), name, sessionId, cwd, now)
      ensures tasks == old(tasks) && runLogs == old(runLogs) && deliveries == old(deliveries)
      ensures lastLogId == old(lastLogId)
      ensures journal == old(journal) + [ConversationUpserted(name)]
    {
      conversations := Upserted(conversations, name, sessionId, cwd, now);
      journal := journal + [ConversationUpserted(name)];
    }

    /** `create_task`; an id already in the table raises and inserts nothing. */
    method CreateTask(id: string, conversation: string, prompt: string, scheduleType: string,
                      scheduleValue: string, nextRun: Option<string>, now: string,
                      contextMode: string := GROUP, targetConversation: Option<string> := None)
      returns (outcome: Outcome)
      requires Valid()
      modifies this
      ensures Valid()
      ensures outcome == Done <==> old(FindTask(tasks, id)).None?
      ensures outcome.Done? ==> tasks == old(tasks) + [NewTask(id, conversation, prompt, scheduleType,
                                  scheduleValue, nextRun, contextMode, targetConversation, now)]
      ensures outcome.Done? ==> journal == old(journal) + [TaskCreated(id)]
      ensures outcome.Raised? ==> outcome.error == DuplicateKey("scheduled_tasks", id)
                                  && tasks == old(tasks) && journal == old(journal)
      ensures conversations == old(conversations) && runLogs == old(runLogs)
      ensures deliveries == old(deliveries) && lastLogId == old(lastLogId)
    {
      if FindTask(tasks, id).Some? {
        return Raised(DuplicateKey("scheduled_tasks", id));
      }
      var t := NewTask(id, conversation, prompt, scheduleType, scheduleValue, nextRun,
                       contextMode, targetConversation, now);
      CreateTaskKeepsDistinct(tasks, t);
      tasks := tasks + [t];
      journal := journal + [TaskCreated(id)];
      outcome := Done;
    }

    /**
     * `update_task`: without a whitelisted key nothing is written; a whitelisted NOT NULL column
     * set to None on an existing row raises and changes nothing; otherwise the row with the id,
     * if any, gets the whitelisted values.
     */
    method UpdateTask(id: string, updates: map<string, Option<string>>) returns (outcome: Outcome)
      requires Valid()
      modifies this
      ensures Valid()
      ensures UpdateKeys(updates) == [] ==> outcome == Done && tasks == old(tasks) && journal == old(journal)
      ensures UpdateKeys(updates) != [] && NullViolation(updates).Some? && old(FindTask(tasks, id)).Some? ==>
                outcome == Raised(NotNull(NullViolation(updates).value)) && tasks == old(tasks) && journal == old(journal)
      ensures UpdateKeys(updates) != [] && (NullViolation(updates).None? || old(FindTask(tasks, id)).None?) ==>
                && outcome == Done
                && tasks == UpdateTaskRow(old(tasks), id, t => ApplyUpdates(t, updates))
                && journal == old(journal) + [TaskUpdated(id)]
      ensures conversations == old(conversations) && runLogs == old(runLogs)
      ensures deliveries == old(deliveries) && lastLogId == old(lastLogId)
    {
      var keys, values := SetClauses(updates);
      if keys == [] {
        return Done;
      }
      var violation := NullViolation(updates);
      if violation.Some? && FindTask(tasks, id).Some? {
        return Raised(NotNull(violation.value));
      }
      var f := t => ApplyUpdates(t, updates);
      FindAfterUpdate(tasks, id, f, id);
      tasks := UpdateTaskRow(tasks, id, f);
      journal := journal + [TaskUpdated(id)];
      outcome := Done;
    }

    /** `delete_task`: the task and all its run logs go in one transaction. */
    method DeleteTask(id: string)
      requires Valid()
      modifies this
      ensures Valid()
      ensures tasks == WithoutTask(old(tasks), id) && runLogs == WithoutLogs(old(runLogs), id)
      ensures conversations == old(conversations) && deliveries == old(deliveries)
      ensures lastLogId == old(lastLogId)
      ensures journal == old(journal) + [TaskDeleted(id)]
    {
      FilterKeepsDistinct(tasks, (t: ScheduledTask) => t.id != id, TaskId);
      FilterKeepsIncreasing(runLogs, (l: TaskRunLog) => l.taskId != id, LogId);
      runLogs := WithoutLogs(runLogs, id);
      tasks := WithoutTask(tasks, id);
      journal := journal + [TaskDeleted(id)];

    }

    /** `update_task_after_run`. */
    method UpdateTaskAfterRun(id: string, nextRun: Option<string>, lastResult: string, now: string)
      requires Valid()
      modifies this
      ensures Valid()
      ensures tasks == TasksAfterRun(old(tasks), id, nextRun, lastResult, now)
      ensures conversations == old(conversations) && runLogs == old(runLogs)
      ensures deliveries == old(deliveries) && lastLogId == old(lastLogId)
      ensures journal == old(journal) + [TaskRunRecorded(id)]
    {
      FindAfterUpdate(tasks, id, t => AfterRun(t, nextRun, lastResult, now), id);
      tasks := TasksAfterRun(tasks, id, nextRun, lastResult, now);
      journal := journal + [TaskRunRecorded(id)];
    }

    /** `log_task_run`: appends one log under the next AUTOINCREMENT id. */
    method LogTaskRun(taskId: string, runAt: string, durationMs: int, status: string,
                      result: Option<string> := None, error: Option<string> := None)
      requires Valid()
      modifies this
      ensures Valid()
      ensures lastLogId == old(lastLogId) + 1
      ensures runLogs == old(runLogs) + [TaskRunLog(lastLogId, taskId, runAt, durationMs, status, result, error)]
      ensures conversations == old(conversations) && tasks == old(tasks) && deliveries == old(deliveries)
      ensures journal == old(journal) + [RunLogged(taskId)]
    {
      var entry := TaskRunLog(lastLogId + 1, taskId, runAt, durationMs, status, result, error);
      forall l | l in runLogs + [entry] ensures 0 < l.id <= lastLogId + 1 {
        if l != entry { assert l in runLogs; }
      }
      forall i, j | 0 <= i < j < |runLogs| + 1 ensures LogId((runLogs + [entry])[i]) < LogId((runLogs + [entry])[j]) {
        assert (runLogs + [entry])[i] in runLogs;
      }
      lastLogId := lastLogId + 1;
      runLogs := runLogs + [entry];
      journal := journal + [RunLogged(taskId)];
    }

    /** `enqueue_delivery` with the generated id `id`; an id already in the queue raises. */
    method EnqueueDelivery(id: string, taskId: string, taskRunLogId: Option<int>, conversation: string,
                           channelPrefix: string, message: string, now: string)
      returns (outcome: Outcome)
      requires Valid()
      modifies this
      ensures Valid()
      ensures outcome == Done <==> forall i :: 0 <= i < |old(deliveries)| ==> old(deliveries)[i].id != id
      ensures outcome.Done? ==> deliveries == old(deliveries) + [NewDelivery(id, taskId, taskRunLogId,
                                  conversation, channelPrefix, message, now)]
      ensures outcome.Done? ==> journal == old(journal) + [DeliveryEnqueued(id, taskId)]
      ensures outcome.Raised? ==> outcome.error == DuplicateKey("delivery_queue", id)
                                  && deliveries == old(deliveries) && journal == old(journal)
      ensures conversations == old(conversations) && tasks == old(tasks)
      ensures runLogs == old(runLogs) && lastLogId == old(lastLogId)
    {
      if exists i :: 0 <= i < |deliveries| && deliveries[i].id == id {
        return Raised(DuplicateKey("delivery_queue", id));
      }
      deliveries := deliveries + [NewDelivery(id, taskId, taskRunLogId, conversation, channelPrefix, message, now)];
      journal := journal + [DeliveryEnqueued(id, taskId)];
      outcome := Done;
    }

    /** `mark_delivered`. */
    method MarkDelivered(id: string, now: string)
      requires Valid()
      modifies this
      ensures Valid()
      ensures deliveries == UpdateDelivery(old(deliveries), id, d => MarkedDelivered(d, now))
      ensures conversations == old(conversations) && tasks == old(tasks)
      ensures runLogs == old(runLogs) && lastLogId == old(lastLogId)
      ensures journal == old(journal) + [DeliveryMarked(id, DELIVERED)]
    {
      deliveries := UpdateDelivery(deliveries, id, d => MarkedDelivered(d, now));
      journal := journal + [DeliveryMarked(id, DELIVERED)];
    }

    /** `mark_delivery_failed`: the error text is accepted and dropped. */
    method MarkDeliveryFailed(id: string, error: string)
      requires Valid()
      modifies this
      ensures Valid()
      ensures deliveries == UpdateDelivery(old(deliveries), id, MarkedFailed)
      ensures conversations == old(conversations) && tasks == old(tasks)
      ensures runLogs == old(runLogs) && lastLogId == old(lastLogId)
      ensures journal == old(journal) + [DeliveryMarked(id, FAILED)]
    {
      deliveries := UpdateDelivery(deliveries, id, MarkedFailed);
      journal := journal + [DeliveryMarked(id, FAILED)];
    }
  }
}
