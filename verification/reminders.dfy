/** Reminders created from the model's `createReminder` tool call
    (`createRemindersFromOpenAI` and the tool-response text in
    src/entities/OpenAI.ts). */
module Reminders {
  import opened Wrappers

  /** A user of the assistant: its id and its IANA timezone name. */
  datatype User = User(id: string, timeZone: string)

  /** The units a recurrence can be counted in. */
  datatype Unit = Day | Week | Month | Year

  /** How often a reminder repeats. The frequency is taken from the model as
      given: nothing checks that it is positive. */
  datatype Recurrence = Recurrence(frequency: int, unit: Unit)

  /** The decoded arguments of a `createReminder` call: the reminder text,
      the local wall-clock time `YYYY-MM-DD HH:mm:ss.SSS`, and an optional
      recurrence. */
  datatype ReminderArgs = ReminderArgs(content: string, reminderAt: string, recurrence: Option<Recurrence>)

  /** A reminder to persist. `triggerAt` is a UTC instant in milliseconds, or
      `None` for an invalid date (a wall-clock text that does not parse). */
  datatype Reminder = Reminder(userId: string, triggerAt: Option<int>, content: string, recurrence: Option<Recurrence>)

  /** The lead time: every reminder fires one minute before the named time. */
  const OneMinuteMs: int := 60_000

  /** Builds the reminder for `user`. `toUtc(wallClock, timeZone)` stands for
      reading a wall-clock time in a timezone and converting it to a UTC
      instant in milliseconds; `None` is a text that does not parse, which
      yields an invalid date rather than an error, and stays invalid when the
      minute is subtracted. */
  function CreateReminder(args: ReminderArgs, user: User, toUtc: (string, string) -> Option<int>): (r: Reminder)
    ensures r.triggerAt.Some? <==> toUtc(args.reminderAt, user.timeZone).Some?
    ensures r.triggerAt.Some? ==> r.triggerAt.value + OneMinuteMs == toUtc(args.reminderAt, user.timeZone).value
    ensures r.userId == user.id
    ensures r.content == args.content
    ensures r.recurrence == args.recurrence
  {
    var at := toUtc(args.reminderAt, user.timeZone);
    Reminder(user.id, if at.Some? then Some(at.value - OneMinuteMs) else None, args.content, args.recurrence)
  }

  const CreatedText: string := "Reminder created and will be remindered at "
  const RecurrenceText: string := " with recurrence "

  /** The text of the tool message answering a `createReminder` call.
      `show` stands for the JSON rendering of a recurrence. */
  function ToolResponse(reminder: Reminder, reminderAt: string, show: Recurrence -> string): (s: string)
    ensures |CreatedText + reminderAt| <= |s|
    ensures s[..|CreatedText + reminderAt|] == CreatedText + reminderAt
    ensures reminder.recurrence.None? <==> s == CreatedText + reminderAt
    ensures reminder.recurrence.Some? ==>
              s[|CreatedText + reminderAt|..] == RecurrenceText + show(reminder.recurrence.value)
  {
    match reminder.recurrence
    case Some(rec) => CreatedText + reminderAt + RecurrenceText + show(rec)
    case None => CreatedText + reminderAt
  }

  /** Whether a tool-response text mentions a recurrence after the time. */
  predicate MentionsRecurrence(s: string, reminderAt: string) {
    var head := CreatedText + reminderAt + RecurrenceText;
    |head| <= |s| && s[..|head|] == head
  }

  /** The tool response mentions a recurrence exactly when the reminder has one. */
  lemma ToolResponseMentionsRecurrence(reminder: Reminder, reminderAt: string, show: Recurrence -> string)
    ensures MentionsRecurrence(ToolResponse(reminder, reminderAt, show), reminderAt)
            <==> reminder.recurrence.Some?
  {
    var s := ToolResponse(reminder, reminderAt, show);
    var head := CreatedText + reminderAt + RecurrenceText;
    if reminder.recurrence.Some? {
      assert s == head + show(reminder.recurrence.value);
      assert s[..|head|] == head;
    } else {
      assert |s| < |head|;
    }
  }
}
