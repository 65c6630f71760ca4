/** The four persisted records and the string values their status-like columns take. */
module Models {
  import opened Wrappers

  /**
   * A named agent conversation. `systemPromptHash` is read by the task executor but is neither a
   * field of the record nor a column of its table, so that read raises; here it is an optional
   * field that the store never writes.
   */
  datatype Conversation = Conversation(
    name: string,
    sessionId: Option<string> := None,
    cwd: Option<string> := None,
    createdAt: string,
    systemPromptHash: Option<string> := None)

  /**
   * A scheduled prompt, as a row of its table. Timestamps are ISO-8601 strings, as stored. The
   * status column accepts NULL (only `update_task` can write one), so it is optional here.
   */
  datatype ScheduledTask = ScheduledTask(
    id: string,
    conversation: string,
    prompt: string,
    scheduleType: string,
    scheduleValue: string,
    contextMode: string := GROUP,
    targetConversation: Option<string> := None,
    nextRun: Option<string> := None,
    lastRun: Option<string> := None,
    lastResult: Option<string> := None,
    status: Option<string> := Some(ACTIVE),
    createdAt: string)

  /** One execution of a task, as logged. */
  datatype TaskRunLog = TaskRunLog(
    id: int,
    taskId: string,
    runAt: string,
    durationMs: int,
    status: string,
    result: Option<string> := None,
    error: Option<string> := None)

  /** One result waiting in the outbox for a channel to pick it up. */
  datatype DeliveryQueueItem = DeliveryQueueItem(
    id: string,
    taskId: string,
    taskRunLogId: Option<int> := None,
    conversation: string,
    channelPrefix: string,
    message: string,
    status: string := PENDING,
    createdAt: string,
    deliveredAt: Option<string> := None)

  // Schedule types.
  const CRON := "cron"
  const INTERVAL := "interval"
  const ONCE := "once"

  // Context modes.
  const GROUP := "group"
  const ISOLATED := "isolated"

  // Task statuses.
  const ACTIVE := "active"
  const PAUSED := "paused"
  const COMPLETED := "completed"

  // Run-log statuses.
  const SUCCESS := "success"
  const ERROR := "error"

  // Delivery statuses.
  const PENDING := "pending"
  const DELIVERED := "delivered"
  const FAILED := "failed"

  /** A task built from its required fields shares the conversation's session and is active. */
  lemma ScheduledTaskDefaults(id: string, conversation: string, prompt: string,
                              scheduleType: string, scheduleValue: string, createdAt: string)
    ensures var t := ScheduledTask(id, conversation, prompt, scheduleType, scheduleValue,
                                   createdAt := createdAt);
      && t.contextMode == GROUP && t.status == Some(ACTIVE)
      && t.targetConversation == None && t.nextRun == None
      && t.lastRun == None && t.lastResult == None
  {
  }

  /** A queue item built from its required fields is pending, undelivered and unlinked to a log. */
  lemma DeliveryQueueItemDefaults(id: string, taskId: string, conversation: string,
                                  channelPrefix: string, message: string, createdAt: string)
    ensures var d := DeliveryQueueItem(id, taskId, conversation := conversation,
                                       channelPrefix := channelPrefix, message := message,
                                       createdAt := createdAt);
      && d.status == PENDING && d.deliveredAt == None && d.taskRunLogId == None
  {
  }

  /** Only the name and the creation time of a conversation are required. */
  lemma ConversationDefaults(name: string, createdAt: string)
    ensures var c := Conversation(name, createdAt := createdAt);
      && c.sessionId == None && c.cwd == None && c.systemPromptHash == None
  {
  }

  /** A run log carries neither a result nor an error unless one is given. */
  lemma TaskRunLogDefaults(id: int, taskId: string, runAt: string, durationMs: int, status: string)
    ensures var l := TaskRunLog(id, taskId, runAt, durationMs, status);
      && l.result == None && l.error == None
  {
  }
}
