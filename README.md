# pykoclaw scheduled tasks, modelled in Dafny

pykoclaw runs agent prompts on a schedule. A task is one of three kinds:
- `cron`: a cron expression;
- `interval`: a number of milliseconds;
- `once`: a fixed ISO-8601 time.

Tasks live in an SQLite store next to the agent's conversations, a log of task runs and an
outbox of results waiting for a chat channel ("delivery queue"). Each minute the scheduler
reads the tasks that are due and runs them one after the other. A run picks a session to
resume, calls the agent and retries once without a session if resuming fails. It then records
the next run and a summary on the task and logs the run. When the run produced text and raised
nothing, it queues that text, minus its `<reply>` tags, for the conversation and channel the
task targets. The agent's response stream is consumed by one shared walk. That walk forwards
text blocks, inserts a separator after tool use, falls back to the result text when no text
was streamed, and returns the last result message.

This project models that engine and proves what it promises. It has these modules:
- `Models` (models.dfy): the four records and their defaults.
- `Scheduling` (scheduling.dfy): `compute_next_run`.
- `Db` (db.dfy): the store.
  - The first half has one function per SQL statement, acting on a table held as a sequence
    of rows in rowid order.
  - The class `Store` performs those statements in place. It keeps a ghost journal of
    committed writes, so that write order and atomicity can be stated. `Contents()` gives its
    tables as one `Tables` value.
- `Rows` (rows.dfy): what `WHERE`, `UPDATE … WHERE` and `ORDER BY` on a TEXT column do to a
  sequence of rows.
- `Routing` (routing.dfy): `strip_reply_tags` and `resolve_delivery_target`.
- `Executor` (executor.dfy): `_run_task_agent`, `run_task` and one pass of `run_scheduler`.
  The functions `RunTaskEffect` and `Pass` give what a run and a pass leave in the tables; the
  methods are proved to leave exactly that.
- `SdkConsume` (sdk_consume.dfy): `consume_sdk_response`.
- `Text` (text.dfy): the Python string primitives the code relies on: `strip`, `find`,
  `split("-", 1)`, `endswith`, `join` and `int()`.
- `Wrappers` (wrappers.dfy): `Option` and `Result`.

Outside collaborators are parameters:
- The agent is a function from the task and the session to resume to an `AgentOutcome`: a
  message stream, a `ProcessError` or another exception.
- The clock is given as one `Clock` record of readings per run.
- The cron library is a next-occurrence function.
- `isoformat()` is a formatter from milliseconds to a string.
- Also parameters: `prompt_hash`, `has_known_channel_prefix`, `str()` of the calculator's
  exceptions, the generated delivery ids, and the data directory.

Timestamps kept in rows are strings and are compared as SQLite compares TEXT: code point by
code point (`Rows.TextLe`).

Where the code and its documentation disagree, the model follows the code:
- **An error inside the error handler escapes.** `run_task`'s handler recomputes the next run
  of a cron or interval task. If that computation raises, for example on a malformed interval
  or cron expression, the exception leaves `run_task`. Nothing is then recorded or logged, and
  the scheduler pass ends (`Executor.Finish.Escaped`, `Executor.RunOutcome.ScheduleRaised`).
  So a failure does not always stay inside the run.
- **An empty error message counts as success.** The logged status is `error` only for a
  non-empty message, because `str(e)` of an exception without a message is falsy. A run that
  raised such an exception is logged as `success`, and its text is queued
  (`Executor.RunStatus`, `Executor.Delivers`).
- **Two defaults for `context_mode`.** The table's column default is `'isolated'`, but
  `create_task` always passes a value, with `"group"` as its default. The model uses the
  default of `create_task` and of `ScheduledTask`.
- **A task's status may be NULL.** The `status` column has a default but no NOT NULL
  constraint, so `update_task` can set it to NULL. The model keeps the status as an optional
  value (`Models.ScheduledTask.status`), and only `prompt`, `schedule_type` and
  `schedule_value` are NOT NULL violations (`Db.NullViolation`).
- **"completed" does not imply no next run.** A completed task does not always have a null
  next run. `update_task` can set either field on its own. `update_task_after_run` keeps an
  already completed status when it is given a next run (`Db.CompletedIffNoNextRun` needs a
  task that is not completed).

One place where the model departs from the code on purpose:
- **`system_prompt_hash` is read but not defined.** `run_task` reads `conv.system_prompt_hash`
  (src/pykoclaw/scheduler.py:134), but `Conversation` has no such field and the conversations
  table has no such column. As written, that read raises `AttributeError` for a group-mode task
  whose conversation has a session. It happens before the `try` of line 146, so nothing is
  recorded and the exception ends `run_scheduler`. The model instead treats the field as
  optional, never written by the store (`Models.Conversation.systemPromptHash`). So such a run
  resumes its session, which is what the surrounding code evidently intends.

## Model

| member | source | states |
|---|---|---|
| Models.ScheduledTaskDefaults | src/pykoclaw/models.py:11-23 | A task built from its required fields is in group mode and active, with no target, next run, last run or last result |
| Models.DeliveryQueueItemDefaults | src/pykoclaw/models.py:36-45 | A queue item built from its required fields is pending, undelivered and linked to no run log |
| Models.ConversationDefaults | src/pykoclaw/models.py:4-8 | A conversation needs only a name and a creation time; session and directory default to None |
| Models.TaskRunLogDefaults | src/pykoclaw/models.py:26-33 | A run log has no result and no error unless they are given |
| Scheduling.ComputeNextRun | src/pykoclaw/scheduling.py:6-26 | `once` returns the schedule value unchanged. Only `cron` and `interval` can raise. The result is None exactly for an unknown schedule type. A recurring schedule that does not raise always yields a time |
| Scheduling.IntervalAddsMilliseconds | src/pykoclaw/scheduling.py:22-23 | An interval written as an integer `ms` lands exactly `ms` milliseconds after the base |
| Scheduling.IntervalNeedsInteger | src/pykoclaw/scheduling.py:22-23 | An interval value without a digit makes the call raise |
| Scheduling.CronUsesNextOccurrence | src/pykoclaw/scheduling.py:20-21 | A cron schedule yields the formatted first occurrence after the base, or raises for an expression the library rejects |
| Scheduling.CronDependsOnExpressionAndBase | src/pykoclaw/scheduling.py:20-21 | The cron result depends only on the expression and the base, not on the current time |
| Scheduling.OnceIgnoresBase | src/pykoclaw/scheduling.py:24-25 | A one-off schedule gives the same time whatever the base and the clock |
| Scheduling.DefaultBaseIsNow | src/pykoclaw/scheduling.py:17-18 | Omitting the base is the same as passing the current time |
| Text.Strip | src/pykoclaw/scheduler.py:40 | `strip()` never lengthens a string, and what it returns has no whitespace at either end |
| Text.LStripSpec | src/pykoclaw/scheduler.py:40 | What `lstrip()` keeps is a suffix of the input, and everything it drops is whitespace |
| Text.RStripSpec | src/pykoclaw/scheduler.py:40 | What `rstrip()` keeps is a prefix of the input, and everything it drops is whitespace |
| Text.StripIsSlice | src/pykoclaw/scheduler.py:40 | `strip()` returns one contiguous slice of its input and removes only whitespace around it |
| Text.StripIdempotent | src/pykoclaw/scheduler.py:40 | Stripping twice is stripping once |
| Text.StripEmpty | src/pykoclaw/scheduler.py:40-41 | A block strips to the empty string, and is then dropped from the join, exactly when it is all whitespace |
| Text.IndexOfSpec | src/pykoclaw/scheduler.py:27 | The search the pattern performs finds the first occurrence at or after the start position, or reports that there is none |
| Text.IndexOfHere | src/pykoclaw/scheduler.py:27 | An occurrence at the start position is the one found |
| Text.FindChar | src/pykoclaw/db.py:173-174 | The first dash of a name: a dash with no dash before it; None exactly when there is no dash |
| Text.Join | src/pykoclaw/scheduler.py:41 | Joining no parts gives the empty string, and joining one part gives that part |
| Text.JoinSnoc | src/pykoclaw/scheduler.py:41 | Joining one more part appends the separator and that part |
| Text.ParseIntNeedsDigit | src/pykoclaw/scheduling.py:23 | `int()` accepts no string without a decimal digit |
| Text.ParseFormatInt | src/pykoclaw/scheduling.py:23 | `int(str(n)) == n` for every integer, so every integer interval is accepted |
| Rows.Filter | src/pykoclaw/db.py:359-360 | `WHERE` keeps exactly the rows that satisfy the condition |
| Rows.FilterKeepsIncreasing | src/pykoclaw/db.py:347 | Deleting run logs keeps the remaining log ids increasing |
| Rows.FilterKeepsDistinct | src/pykoclaw/db.py:348 | Deleting rows never creates a duplicate primary key |
| Rows.SortBy | src/pykoclaw/db.py:361 | `ORDER BY` returns a permutation of its rows, sorted by the TEXT order of the key |
| Rows.Insert | src/pykoclaw/db.py:361 | Inserting into a sorted list keeps it sorted and adds exactly the one row |
| Rows.SortByMembers | src/pykoclaw/db.py:361 | Sorting keeps exactly the rows it was given |
| Rows.TextLeTotal | src/pykoclaw/db.py:360-361 | Any two TEXT values compare one way or the other |
| Rows.TextLeTrans | src/pykoclaw/db.py:360-361 | The TEXT order is transitive |
| Rows.TextLeAntisym | src/pykoclaw/db.py:360-361 | Two TEXT values each at most the other are equal |
| Db.ParseChannelPrefix | src/pykoclaw/db.py:171-175 | With a dash, the channel is the dash-free text before the first dash; without one, it is `chat` |
| Db.ChannelOfPrefixedName | src/pykoclaw/db.py:173-174 | A name built as `prefix-rest` from a dash-free prefix has that prefix as its channel |
| Db.WhatsAppChannel | src/pykoclaw/db.py:173-174 | `wa-123@s.whatsapp.net` belongs to channel `wa` |
| Db.DashAtEitherEnd | src/pykoclaw/db.py:173-174 | A trailing dash leaves the prefix; a leading dash gives the empty channel |
| Db.DefaultChannelExamples | src/pykoclaw/db.py:175 | A name without a dash, the empty name included, belongs to `chat` |
| Db.UpsertThenLookup | src/pykoclaw/db.py:242-259 | After an upsert, `get_conversation` returns the new session and directory. An existing conversation keeps its creation time; a new one is created now. No other conversation changes |
| Db.FindTask | src/pykoclaw/db.py:303-307 | `get_task` returns a row with the id, and None exactly when no row has it |
| Db.FindTaskFinds | src/pykoclaw/db.py:303-307 | With distinct ids, `get_task` on a row's id returns that row |
| Db.CreateTaskAddsOne | src/pykoclaw/db.py:267-300 | Creating a task with a fresh id makes that id find the new task, and every other id finds what it found before |
| Db.CreateTaskKeepsDistinct | src/pykoclaw/db.py:280-299 | Inserting a fresh id keeps task ids a primary key |
| Db.SetClauses | src/pykoclaw/db.py:328-334 | The SET list holds exactly the whitelisted keys present, in whitelist order, each with its value |
| Db.UpdateOnlyWhitelisted | src/pykoclaw/db.py:327-341 | `update_task` changes only the five whitelisted columns and sets each one given, `status` and `next_run` to NULL too. Without a whitelisted key it changes nothing |
| Db.FindAfterUpdate | src/pykoclaw/db.py:340 | Updating by id keeps every id on its row; the id finds the rewritten row and other ids find what they found |
| Db.DeleteTaskRemoves | src/pykoclaw/db.py:344-352 | After `delete_task` the id finds nothing and other ids are unaffected. No run log of the task is left, and every other run log is kept |
| Db.DueTasks | src/pykoclaw/db.py:355-365 | `get_due_tasks` returns exactly the active tasks with a next run not after now, sorted by next run, each once |
| Db.AfterRun | src/pykoclaw/db.py:368-380 | After a run the task has the given next run, a last run and the summary. Its status becomes `completed` when there is no next run and is kept otherwise; nothing else changes |
| Db.FindAfterRun | src/pykoclaw/db.py:368-380 | `get_task` after `update_task_after_run` returns the task as the run left it, and other tasks unchanged |
| Db.CompletedIffNoNextRun | src/pykoclaw/db.py:375 | A task that was not completed is completed after a run exactly when it has no next run |
| Db.PendingDeliveries | src/pykoclaw/db.py:211-222 | `get_pending_deliveries` returns exactly the pending items of the channel, oldest first, each once |
| Db.EnqueuedIsPending | src/pykoclaw/db.py:191-196 | A freshly queued item is pending for its own channel and for no other |
| Db.MarkLeavesPending | src/pykoclaw/db.py:225-239 | After it is marked, an item leaves every pending list, and other pending items stay. It is `delivered` with a delivery time, or `failed` with its delivery time untouched |
| Db.Store.constructor | src/pykoclaw/db.py:105-168 | A new database has four empty tables and satisfies the key invariants |
| Db.Store.UpsertConversation | src/pykoclaw/db.py:242-254 | Performs the upsert on the conversations, touches nothing else and keeps the invariants |
| Db.Store.CreateTask | src/pykoclaw/db.py:267-300 | A fresh id appends the new active task; a taken id raises a duplicate-key error and inserts nothing |
| Db.Store.UpdateTask | src/pykoclaw/db.py:327-341 | With no whitelisted key nothing is written. Setting `prompt`, `schedule_type` or `schedule_value` to None on an existing row raises and changes nothing. Otherwise the row gets the whitelisted values, NULL included for `next_run` and `status` |
| Db.Store.DeleteTask | src/pykoclaw/db.py:344-352 | The task and all its run logs are removed as one write (one transaction), and the other tables are untouched |
| Db.Store.UpdateTaskAfterRun | src/pykoclaw/db.py:368-380 | The task table becomes the after-run table, and nothing else changes |
| Db.Store.LogTaskRun | src/pykoclaw/db.py:383-400 | Appends one log under the next AUTOINCREMENT id, keeping log ids increasing |
| Db.Store.EnqueueDelivery | src/pykoclaw/db.py:178-208 | A fresh id appends a pending item created now; a taken id raises a duplicate-key error and queues nothing |
| Db.Store.MarkDelivered | src/pykoclaw/db.py:225-231 | The item becomes `delivered` with a delivery time, and nothing else changes |
| Db.Store.MarkDeliveryFailed | src/pykoclaw/db.py:234-239 | The item becomes `failed`; the error text is dropped, and nothing else changes |
| Routing.BlocksLackClose | src/pykoclaw/scheduler.py:27 | A non-greedy match never contains its closing pattern |
| Routing.ReplyBlocksLackCloseTag | src/pykoclaw/scheduler.py:27 | No extracted reply block contains `</reply>` |
| Routing.NoBlocksIff | src/pykoclaw/scheduler.py:27 | There is no match exactly when no opening pattern is followed by a closing one |
| Routing.NoBlocksUnchanged | src/pykoclaw/scheduler.py:37-39 | A text has no reply block exactly when no `<reply>` is followed by `</reply>`, and such a text comes back unchanged |
| Routing.FirstClose | src/pykoclaw/scheduler.py:27 | After an opening pattern and a body without the closing pattern, the first closing pattern is the one after the body |
| Routing.LeadingBlockOf | src/pykoclaw/scheduler.py:27 | A text that opens with a complete block yields that block first, and the scan resumes after its end |
| Routing.LeadingBlock | src/pykoclaw/scheduler.py:27-39 | A text that opens with a complete reply block yields that block first; the following blocks are those found after its `</reply>` |
| Routing.SingleBlock | src/pykoclaw/scheduler.py:30-41 | A reply wrapped in one block comes back without its tags and stripped |
| Routing.AfterFirstDash | src/pykoclaw/scheduler.py:80-82 | The origin suffix is the text after the first dash, so that channel, dash and suffix rebuild the name; it is empty without a dash |
| Routing.TargetChannelMatchesConversation | src/pykoclaw/scheduler.py:57-101 | Every resolved channel is the channel that the resolved conversation name parses to |
| Routing.KnownTargetKept | src/pykoclaw/scheduler.py:57-72 | A candidate with a known prefix, or any candidate of an origin without one, is used as it is; with no target that is the task's own conversation |
| Routing.DashTail | src/pykoclaw/scheduler.py:80-85 | The origin's suffix equals the candidate or ends with `-candidate` exactly when the origin ends with `-candidate` |
| Routing.BareTargetInheritsChannel | src/pykoclaw/scheduler.py:74-101 | A bare candidate of an origin with a known prefix is delivered on the origin's channel |
| Routing.BareTargetDashBoundary | src/pykoclaw/scheduler.py:76-101 | A bare candidate is routed to the origin exactly when the origin ends with a dash and the candidate; otherwise it goes to `prefix-candidate` |
| Executor.CollectText | src/pykoclaw/scheduler.py:111-122 | The loop returns the concatenated text of the stream's non-empty text messages |
| Executor.CollectedTextAppend | src/pykoclaw/scheduler.py:119-120 | Collecting two streams in turn collects their concatenation |
| Executor.CollectedTextEmpty | src/pykoclaw/scheduler.py:111-122 | A stream without text messages yields the empty result |
| Executor.ResumeSession | src/pykoclaw/scheduler.py:128-141 | A session is resumed exactly when the task is in group mode, the conversation has a non-empty session and its prompt hash did not change; the session resumed is the conversation's |
| Executor.IsolatedStartsFresh | src/pykoclaw/scheduler.py:130 | An isolated task never resumes a session |
| Executor.RunAgent | src/pykoclaw/scheduler.py:146-158 | The agent is called once with the chosen session. It is retried exactly when resuming raised a process error; the retry is fresh and comes after a session reset. The result is the last call's |
| Executor.FreshRunCallsOnce | src/pykoclaw/scheduler.py:150-151 | A run that starts fresh calls the agent exactly once and resets nothing |
| Executor.Summarize | src/pykoclaw/scheduler.py:165 | The summary is `Completed` for no text, and otherwise the first 200 characters of the text |
| Executor.Handler | src/pykoclaw/scheduler.py:167-174 | The handler records `Error: message` with the error and the text so far. A recurring task keeps a next run and a one-shot task gets none. It escapes exactly when recomputing the next run raises, which only a recurring task can do |
| Executor.RunStatus | src/pykoclaw/scheduler.py:186 | The logged status is `error` exactly for a non-empty error message, and `success` otherwise |
| Executor.LogResult | src/pykoclaw/scheduler.py:187 | The logged result is the text, or None exactly when there is no text |
| Executor.RecurringKeepsNextRun | src/pykoclaw/scheduler.py:160-174 | A cron or interval task is recorded with a next run even when the agent fails, unless recomputing it raises |
| Executor.OneShotCompletes | src/pykoclaw/scheduler.py:160-180 | A task that is not recurring is always recorded with no next run and so becomes completed |
| Executor.EscapeNeedsRecurring | src/pykoclaw/scheduler.py:167-174 | A run escapes only when the task is recurring and the handler's next-run computation raises |
| Executor.AgentOutcomeDecidesRecord | src/pykoclaw/scheduler.py:143-169 | A failed agent leaves no text, so nothing is logged as result or queued. A reply with a computable next run is recorded with its text, its summary and no error |
| Executor.SummaryRule | src/pykoclaw/scheduler.py:165-169 | The summary is `Error: message` on error, and otherwise the text's first 200 characters or `Completed` |
| Executor.DeliveredIffSuccessWithResult | src/pykoclaw/scheduler.py:186-191 | A run is queued exactly when it is recorded, logged as a success and logged with a result |
| Executor.RunWrites | src/pykoclaw/scheduler.py:157-200 | The writes of a run record the task's run exactly once when the run does not escape, and not at all when it does |
| Executor.InvokeAgent | src/pykoclaw/scheduler.py:146-158 | Returns the agent part's result. The conversation's session is reset, and one upsert written, exactly when the run retried; nothing else changes |
| Executor.Conclude | src/pykoclaw/scheduler.py:146-174 | The `try`/`except` after the agent ends as its specification function says: recorded, or escaped |
| Executor.DeliveryItem | src/pykoclaw/scheduler.py:191-200 | The queued item is pending for the resolved target and channel, unlinked to a log, and holds the text without reply tags |
| Executor.RecordRun | src/pykoclaw/scheduler.py:176-200 | Records the run on the task and logs it with its status, result, error and duration under the next log id. It then queues the item of a delivered run, or raises on a taken delivery id |
| Executor.QueueResult | src/pykoclaw/scheduler.py:191-200 | Queues the item exactly for a delivered run with a fresh id; a taken id raises; other tables untouched |
| Executor.RunTask | src/pykoclaw/scheduler.py:125-200 | The whole run, as a function of the tables before it: session reset only on retry. An escape writes nothing else. Otherwise the task update, the log and the delivery follow the plan, and the writes come in that order. The run adds its task to the recorded runs exactly when it does not escape |
| Executor.RecordedByRun | src/pykoclaw/scheduler.py:176-180 | A run adds its task to the recorded runs exactly when it does not escape |
| Executor.RunSchedulerTick | src/pykoclaw/scheduler.py:207-210 | The due tasks run in `get_due_tasks` order. The ids that ran are a prefix of the due ids, all of them unless a run raised, and each such run is recorded once, in order. The tables after the pass are those of the runs applied one after the other, each as `RunTask` specifies it |
| Executor.PassAdvances | src/pykoclaw/scheduler.py:207-209 | A run of the next due task moves the rest of the pass on by one task, or ends it with the run's exception |
| Executor.SingleDuePass | src/pykoclaw/scheduler.py:207-209 | A pass with one task due is that task's run, when the run returns |
| Executor.OneShotRun | src/pykoclaw/scheduler.py:125-200 | A one-shot task whose agent replies with text is recorded with no next run, logged as a success with that text, and queued; nothing else changes |
| Executor.OneShotTablesHold | src/pykoclaw/scheduler.py:176-200 | After that run the task is completed with no next run, one success log holds the reply, and one pending delivery holds the stripped reply |
| Executor.OneShotPass | src/pykoclaw/scheduler.py:125-210 | A one-shot task due alone whose agent replies with text: the pass runs it and returns; the task ends completed with no next run, with one more success log holding the reply and one more pending delivery of the stripped reply for its channel |
| SdkConsume.ConsumeSdkResponse | src/pykoclaw/sdk_consume.py:22-77 | The loop makes the callback calls of the walk and returns its final result |
| SdkConsume.ConsumeInv | src/pykoclaw/sdk_consume.py:39-77 | The walk's invariant holds over the whole stream |
| SdkConsume.TextsForwardedInOrder | src/pykoclaw/sdk_consume.py:51-59 | With `on_text`, every non-empty text block is forwarded exactly once, in stream order |
| SdkConsume.NoTextCallsWithoutOnText | src/pykoclaw/sdk_consume.py:53-75 | Without `on_text`, only `on_result` is called |
| SdkConsume.SeparatorOnlyBetweenTexts | src/pykoclaw/sdk_consume.py:55-64 | A separator is sent only right before a text, and only after an earlier text |
| SdkConsume.StreamedAsReference | src/pykoclaw/sdk_consume.py:48-64 | With `on_text`, the separator and chunk calls are exactly: each non-empty text block in stream order, preceded by the separator exactly when a tool-use block lies between it and the previous non-empty text block, across message boundaries |
| SdkConsume.ConsumeSepInv | src/pykoclaw/sdk_consume.py:39-64 | Throughout the walk, the text flag says whether text was seen and the pending flag says whether a tool-use gap follows the last text |
| SdkConsume.GapSnoc | src/pykoclaw/sdk_consume.py:53-64 | A text block closes a tool-use gap, a tool-use block opens one only after text, and other blocks leave it as it was |
| SdkConsume.HasTextSnoc | src/pykoclaw/sdk_consume.py:53-59 | One more block has text exactly when it or an earlier block does |
| SdkConsume.NoFallbackAfterStreamedText | src/pykoclaw/sdk_consume.py:69-72 | The result text is never sent to `on_text` after streamed text |
| SdkConsume.FallbackWhenNoText | src/pykoclaw/sdk_consume.py:66-75 | With no text seen, a non-empty result text goes to `on_text`, then the message goes to `on_result` |
| SdkConsume.ResultsDeliveredInOrder | src/pykoclaw/sdk_consume.py:74-75 | With `on_result`, every result message is handed over once, in order; without it, none |
| SdkConsume.FinalIsLastResult | src/pykoclaw/sdk_consume.py:48-77 | The returned value is the last result message, and None exactly when the stream has none |
| SdkConsume.StreamedReplyExample | src/pykoclaw/sdk_consume.py:51-75 | Text, tool use, text, result: two texts with one separator between them, no fallback, and the result returned |

## Left out

- `ThreadSafeConnection` and its lock: the model's store is used by one caller at a time. The transaction of `delete_task` is modelled as a single write.
- SQL text, `init_db`'s file handling, indexes and `PRAGMA journal_mode=WAL`: the tables are sequences of rows.
- Store failures other than a duplicate primary key or a NOT NULL violation (disk, locking, closed connection).
- Foreign keys: the schema declares them, but SQLite does not enforce them unless told to, and the code never tells it to.
- `uuid.uuid4()`, `datetime.now()` and `isoformat()` are parameters. Time is an integer of milliseconds.
- The cron library: a next-occurrence function given as a parameter.
- Timezones and the datetime arithmetic of `timedelta`: time is an integer of milliseconds.
- Executor.RunTask: the duration is the difference of two millisecond readings. The truncation of microseconds that `total_seconds() * 1000` performs is not modelled.
- Text.ParseInt: accepts ASCII decimal digits only. Python's `int()` also accepts other Unicode decimal digits.
- The agent's own writes are not part of this model: `query_agent` in agent_core.py upserts the conversation's session after each result.
- Printing and logging: nothing they do reaches the store.
- `run_scheduler`'s endless loop and its 60-second sleep are not modelled. `Executor.RunSchedulerTick` models one pass.
- An exception out of `run_task` is modelled as ending the pass, because it ends `run_scheduler`.
- Tools, plugins, configuration and the channels that read the delivery queue are not part of this model.
- `get_tasks_for_conversation`, `get_all_tasks` and `list_conversations` are not modelled. They are listing queries that `run_task` and `run_scheduler` do not use.
- `has_known_channel_prefix` (the plugin registry) and `prompt_hash` are not part of this model. They are parameters.
- Executor.ResumeSession: does not model the `AttributeError` that reading the undefined `system_prompt_hash` raises in the code as written; the field is treated as optional and never set, as explained above.
- Scheduling.IntervalAddsMilliseconds: Python's `datetime` only reaches years 1 to 9999, so an interval that takes the next run past that range raises `OverflowError`; time here is an unbounded integer of milliseconds, so the model always succeeds.
- Scheduling.ComputeNextRun: `int()` refuses decimal strings of more than 4300 digits by default, and `croniter` and `timedelta` have their own range limits; the model accepts every integer and every time the calendar parameter gives.
- Db.FindTask: a row whose `status` is NULL cannot be loaded into the `ScheduledTask` model, whose `status` is a string, so `get_task` raises on it in the code; the model returns such a row with a None status. `get_due_tasks` never meets one, because its `status = 'active'` condition excludes NULL.
- `Rows.SortBy`: rows with equal keys are kept in table order. SQLite does not promise any order for such ties, so the model picks one.
- `Routing.LeadingBlock`: states how the scan goes on after the first block; it does not state a closed form for a text of several blocks.
