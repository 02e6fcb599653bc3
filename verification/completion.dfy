/** One conversational turn (`runCompletion` in src/entities/OpenAI.ts): build
    the prompt, ask the model, act on at most one `createReminder` tool call,
    ask again for a confirmation, and collect what is to be saved. */
module Completion {
  import opened Wrappers
  import opened Messages
  import R = Reminders

  /** Why the model stopped producing output. */
  datatype FinishReason = Stop | Length | ToolCalls | ContentFilter | FunctionCall

  /** One choice of a completion: the finish reason and the message's text
      and tool calls, each of which may be absent. */
  datatype Choice = Choice(finishReason: FinishReason, content: Option<string>, toolCalls: Option<seq<ToolCall>>)

  datatype ChatCompletion = ChatCompletion(choices: seq<Choice>)

  /** What a turn needs from outside: the instruction text, the model as a
      function of the prompt, the decoding of tool arguments (`None` when
      they are not valid JSON or do not destructure), the local-time-to-UTC
      conversion (`None` for a text that does not parse) and the JSON
      rendering of a recurrence. */
  datatype Env = Env(
    instructions: string,
    complete: seq<PromptEntry> -> ChatCompletion,
    decodeArgs: string -> Option<R.ReminderArgs>,
    toUtc: (string, string) -> Option<int>,
    showRecurrence: R.Recurrence -> string)

  /** The ways a turn aborts before saving anything: a completion without
      choices, a `tool_calls` finish without a tool call, tool arguments that
      do not decode. */
  datatype TurnError = NoChoices | MissingToolCall | MalformedArguments

  /** The observable outcome of a turn: the prompts sent to the model in
      order, the reminder handed to storage (absent when none was created),
      the batch of messages to save, and the reply. */
  datatype Turn = Turn(
    prompts: seq<seq<PromptEntry>>,
    reminder: Option<R.Reminder>,
    saved: seq<Message>,
    reply: Option<Message>)

  /** JavaScript truthiness of an optional string: present and non-empty. */
  predicate Truthy(c: Option<string>) {
    c.Some? && c.value != ""
  }

  const NowText: string := "The now of the user in 24-Hour Clock Time is "

  /** The system entry grounding the user's current local time. */
  function NowEntry(now: string): PromptEntry {
    SystemEntry(Some(NowText + now))
  }

  /** The message recording what the user wrote. */
  function UserMessage(user: R.User, text: string): Message {
    Message(User, Some(text), user.id, None, None)
  }

  /** The assistant message recording the tool call the turn acts on. */
  function ToolCallMessage(user: R.User, call: ToolCall): Message {
    Message(Assistant, None, user.id, Some(call.id), Some(call))
  }

  /** The tool message answering that call. */
  function ToolReplyMessage(user: R.User, call: ToolCall, response: string): Message {
    Message(Tool, Some(response), user.id, Some(call.id), None)
  }

  /** The first prompt: instructions, the mapped history, the mapped user
      message, and the current local time last. */
  function FirstPrompt(instructions: string, history: seq<Message>, userMessage: Message, now: string): (p: seq<PromptEntry>)
    ensures |p| == |history| + 3
    ensures p[0] == SystemEntry(Some(instructions))
    ensures p[1..|history| + 1] == BuildMessages(history)
    ensures p[|history| + 1] == BuildEntry(userMessage)
    ensures p[|p| - 1] == NowEntry(now)
  {
    [SystemEntry(Some(instructions))] + BuildMessages(history) + BuildMessages([userMessage]) + [NowEntry(now)]
  }

  /** The roles of the first prompt: system, the history's roles in order,
      user, system. */
  lemma FirstPromptRoles(instructions: string, history: seq<Message>, userMessage: Message, now: string)
    requires userMessage.role == User
    ensures var p := FirstPrompt(instructions, history, userMessage, now);
            && EntryRole(p[0]) == System
            && (forall i :: 0 <= i < |history| ==> EntryRole(p[i + 1]) == history[i].role)
            && EntryRole(p[|history| + 1]) == User
            && EntryRole(p[|history| + 2]) == System
  {
    var p := FirstPrompt(instructions, history, userMessage, now);
    forall i | 0 <= i < |history|
      ensures EntryRole(p[i + 1]) == history[i].role
    {
      assert p[i + 1] == p[1..|history| + 1][i];
    }
  }

  /** The tool call the turn acts on: the first one; its absence is the
      runtime error of indexing a missing or empty list. */
  function SelectToolCall(choice: Choice): (r: Result<ToolCall, TurnError>)
    ensures r.Success? <==> choice.toolCalls.Some? && |choice.toolCalls.value| > 0
    ensures r.Success? ==> r.value == choice.toolCalls.value[0]
    ensures r.Failure? ==> r.error == MissingToolCall
  {
    if choice.toolCalls.Some? && |choice.toolCalls.value| > 0 then Success(choice.toolCalls.value[0])
    else Failure(MissingToolCall)
  }

  /** The final assistant message, made only when the final completion has
      non-empty text. */
  function FinalMessage(user: R.User, final: ChatCompletion): (r: Result<Option<Message>, TurnError>)
    ensures r.Failure? <==> |final.choices| == 0
    ensures r.Failure? ==> r.error == NoChoices
    ensures r.Success? ==> (r.value.Some? <==> Truthy(final.choices[0].content))
    ensures r.Success? && r.value.Some? ==>
              r.value.value == Message(Assistant, final.choices[0].content, user.id, None, None)
  {
    if |final.choices| == 0 then Failure(NoChoices)
    else if Truthy(final.choices[0].content) then
      Success(Some(Message(Assistant, final.choices[0].content, user.id, None, None)))
    else Success(None)
  }

  /** Appends the final assistant message, if any, to the batch to save. */
  function Conclude(prompts: seq<seq<PromptEntry>>, reminder: Option<R.Reminder>, saved: seq<Message>,
                    final: Result<Option<Message>, TurnError>): (r: Result<Turn, TurnError>)
    ensures r.Failure? <==> final.Failure?
    ensures r.Failure? ==> r.error == final.error
    ensures r.Success? ==>
              && r.value.prompts == prompts
              && r.value.reminder == reminder
              && r.value.reply == final.value
              && |r.value.saved| == |saved| + (if final.value.Some? then 1 else 0)
              && r.value.saved[..|saved|] == saved
              && (final.value.Some? ==> r.value.saved[|saved|] == final.value.value)
  {
    match final
    case Failure(e) => Failure(e)
    case Success(None) => Success(Turn(prompts, reminder, saved, None))
    case Success(Some(m)) => Success(Turn(prompts, reminder, saved + [m], Some(m)))
  }

  /** The two messages a `createReminder` call adds: the assistant call and
      the tool message answering it with the tool-response text. */
  function ToolExchange(env: Env, user: R.User, call: ToolCall, args: R.ReminderArgs): seq<Message> {
    var reminder := R.CreateReminder(args, user, env.toUtc);
    [ToolCallMessage(user, call),
     ToolReplyMessage(user, call, R.ToolResponse(reminder, args.reminderAt, env.showRecurrence))]
  }

  /** The rest of a turn whose first completion asked for `call` with the
      decoded `args`: the reminder is created, the call and its answer are
      appended to the batch and to the prompt, and the model is asked again. */
  function ToolTurn(env: Env, user: R.User, prompt: seq<PromptEntry>, userMessage: Message,
                    call: ToolCall, args: R.ReminderArgs): (r: Result<Turn, TurnError>)
    ensures var second := prompt + BuildMessages(ToolExchange(env, user, call, args));
            && (r.Success? <==> |env.complete(second).choices| > 0)
            && (r.Failure? ==> r.error == NoChoices)
            && (r.Success? ==>
                  && r.value.reminder == Some(R.CreateReminder(args, user, env.toUtc))
                  && r.value.saved == [userMessage] + ToolExchange(env, user, call, args)
                                      + (if r.value.reply.Some? then [r.value.reply.value] else [])
                  && r.value.prompts == [prompt, prompt + BuildMessages(r.value.saved[1..3])]
                  && (r.value.reply.Some? <==> Truthy(env.complete(second).choices[0].content))
                  && (r.value.reply.Some? ==>
                        r.value.reply.value == Message(Assistant, env.complete(second).choices[0].content, user.id, None, None)))
  {
    var exchange := ToolExchange(env, user, call, args);
    var second := prompt + BuildMessages(exchange);
    var r := Conclude([prompt, second], Some(R.CreateReminder(args, user, env.toUtc)), [userMessage] + exchange,
                      FinalMessage(user, env.complete(second)));
    assert r.Success? ==> r.value.saved[1..3] == exchange;
    r
  }

  /** The prompt of the first completion of a turn. */
  function OpeningPrompt(env: Env, user: R.User, text: string, stored: Option<seq<Message>>, now: string): seq<PromptEntry> {
    FirstPrompt(env.instructions, stored.GetOr([]), UserMessage(user, text), now)
  }

  /** One turn for `user`, who wrote `text`; `stored` is the loaded history
      (absent is read as empty) and `now` the user's formatted local time. */
  function RunCompletion(env: Env, user: R.User, text: string, stored: Option<seq<Message>>, now: string): (r: Result<Turn, TurnError>)
    // The first prompt is the opening layout over the loaded history.
    ensures r.Success? ==>
              |r.value.prompts| >= 1 && r.value.prompts[0] == OpeningPrompt(env, user, text, stored, now)
    // The batch starts with the user message and belongs to the user.
    ensures r.Success? ==>
              && |r.value.saved| >= 1
              && r.value.saved[0] == UserMessage(user, text)
              && (forall i :: 0 <= i < |r.value.saved| ==> r.value.saved[i].userId == user.id)
    ensures r.Success? ==> ToolMessagesAnswered(r.value.saved)
    // The reply comes from the completion of the last prompt sent, exactly
    // when it has text, and is then the last message saved.
    ensures r.Success? ==>
              var last := env.complete(r.value.prompts[|r.value.prompts| - 1]);
              && |last.choices| > 0
              && (r.value.reply.Some? <==> Truthy(last.choices[0].content))
              && (r.value.reply.Some? ==>
                    && r.value.reply.value == Message(Assistant, last.choices[0].content, user.id, None, None)
                    && r.value.saved[|r.value.saved| - 1] == r.value.reply.value)
    // Without a tool call: one completion, no reminder, user message and reply only.
    ensures var first := env.complete(OpeningPrompt(env, user, text, stored, now));
            |first.choices| > 0 && first.choices[0].finishReason != ToolCalls ==>
              && r.Success?
              && |r.value.prompts| == 1
              && r.value.reminder.None?
              && r.value.saved == [UserMessage(user, text)] + (if r.value.reply.Some? then [r.value.reply.value] else [])
    // A first completion without choices aborts the turn.
    ensures |env.complete(OpeningPrompt(env, user, text, stored, now)).choices| == 0 ==> r == Failure(NoChoices)
    // With a tool call: the first call only; the turn aborts exactly when the
    // call is missing, its arguments do not decode, or the second completion
    // has no choices. Otherwise a reminder is created, the batch is the user
    // message, the call and its answer, and the optional reply, and the
    // second prompt is the first followed by the call and its answer.
    ensures var first := env.complete(OpeningPrompt(env, user, text, stored, now));
            |first.choices| > 0 && first.choices[0].finishReason == ToolCalls ==>
              && (r == Failure(MissingToolCall) <==> SelectToolCall(first.choices[0]).Failure?)
              && (SelectToolCall(first.choices[0]).Success? ==>
                    var call := first.choices[0].toolCalls.value[0];
                    && (r == Failure(MalformedArguments) <==> env.decodeArgs(call.arguments).None?)
                    && (env.decodeArgs(call.arguments).Some? ==>
                          var args := env.decodeArgs(call.arguments).value;
                          var exchange := ToolExchange(env, user, call, args);
                          var second := OpeningPrompt(env, user, text, stored, now) + BuildMessages(exchange);
                          && (r.Success? <==> |env.complete(second).choices| > 0)
                          && (r.Failure? ==> r.error == NoChoices)
                          && (r.Success? ==>
                                && r.value.reminder == Some(R.CreateReminder(args, user, env.toUtc))
                                && r.value.saved == [UserMessage(user, text)] + exchange
                                                    + (if r.value.reply.Some? then [r.value.reply.value] else [])
                                && r.value.prompts == [r.value.prompts[0], r.value.prompts[0] + BuildMessages(r.value.saved[1..3])])))
    // A turn fails only on a completion without choices, a missing tool
    // call or undecodable arguments.
    ensures r.Failure? ==>
              var first := env.complete(OpeningPrompt(env, user, text, stored, now));
              match r.error
              case NoChoices =>
                |first.choices| == 0
                || (&& first.choices[0].finishReason == ToolCalls
                    && SelectToolCall(first.choices[0]).Success?
                    && env.decodeArgs(first.choices[0].toolCalls.value[0].arguments).Some?)
              case MissingToolCall =>
                |first.choices| > 0 && first.choices[0].finishReason == ToolCalls
                && SelectToolCall(first.choices[0]).Failure?
              case MalformedArguments =>
                |first.choices| > 0 && first.choices[0].finishReason == ToolCalls
                && SelectToolCall(first.choices[0]).Success?
                && env.decodeArgs(first.choices[0].toolCalls.value[0].arguments).None?
  {
    var userMessage := UserMessage(user, text);
    var prompt := OpeningPrompt(env, user, text, stored, now);
    var first := env.complete(prompt);
    if |first.choices| == 0 then Failure(NoChoices)
    else if first.choices[0].finishReason == ToolCalls then
      match SelectToolCall(first.choices[0])
      case Failure(e) => Failure(e)
      case Success(call) =>
        match env.decodeArgs(call.arguments)
        case None => Failure(MalformedArguments)
        case Some(args) => ToolTurn(env, user, prompt, userMessage, call, args)
    else
      Conclude([prompt], None, [userMessage], FinalMessage(user, first))
  }

  /** A reminder is created exactly when the first completion asks for a tool
      call, and then exactly one tool message is saved; otherwise none is. */
  lemma {:induction false} OneToolMessagePerReminder(env: Env, user: R.User, text: string, stored: Option<seq<Message>>, now: string)
    ensures var r := RunCompletion(env, user, text, stored, now);
            var first := env.complete(OpeningPrompt(env, user, text, stored, now));
            r.Success? ==>
              && |first.choices| > 0
              && (r.value.reminder.Some? <==> first.choices[0].finishReason == ToolCalls)
              && CountRole(r.value.saved, Tool) == (if r.value.reminder.Some? then 1 else 0)
  {
    var r := RunCompletion(env, user, text, stored, now);
    if r.Success? {
      var t := r.value;
      var tail := if t.reply.Some? then [t.reply.value] else [];
      assert CountRole(tail, Tool) == 0;
      if t.reminder.Some? {
        var head := t.saved[..3];
        assert t.saved == head + tail;
        CountRoleAppend(head, tail, Tool);
        assert head == [head[0]] + [head[1]] + [head[2]];
        CountRoleAppend([head[0]] + [head[1]], [head[2]], Tool);
        CountRoleAppend([head[0]], [head[1]], Tool);
      } else {
        assert t.saved == [t.saved[0]] + tail;
        CountRoleAppend([t.saved[0]], tail, Tool);
      }
    }
  }

  /** Only the first tool call is acted upon: whatever follows it in the
      first completion's list, the turn is the same. */
  lemma FirstToolCallWins(env: Env, user: R.User, text: string, stored: Option<seq<Message>>, now: string, later: seq<ToolCall>)
    requires var first := env.complete(OpeningPrompt(env, user, text, stored, now));
             |first.choices| > 0 && first.choices[0].toolCalls.Some? && |first.choices[0].toolCalls.value| > 0
    ensures var p := OpeningPrompt(env, user, text, stored, now);
            var first := env.complete(p);
            var c := first.choices[0];
            var c' := c.(toolCalls := Some([c.toolCalls.value[0]] + later));
            var env' := env.(complete := q => if q == p then ChatCompletion([c'] + first.choices[1..]) else env.complete(q));
            RunCompletion(env', user, text, stored, now) == RunCompletion(env, user, text, stored, now)
  {
  }

  /** Once the saved batch is appended to the stored history, the next turn's
      prompt replays the old history and then this turn's batch, in order. */
  lemma NextTurnReplaysTranscript(env: Env, user: R.User, text: string, stored: Option<seq<Message>>, now: string,
                                  nextText: string, nextNow: string)
    ensures var r := RunCompletion(env, user, text, stored, now);
            r.Success? ==>
              var h := stored.GetOr([]);
              var next := OpeningPrompt(env, user, nextText, Some(h + r.value.saved), nextNow);
              && |next| == |h| + |r.value.saved| + 3
              && next[1..|h| + |r.value.saved| + 1] == BuildMessages(h) + BuildMessages(r.value.saved)
  {
    var r := RunCompletion(env, user, text, stored, now);
    if r.Success? {
      BuildMessagesAppend(stored.GetOr([]), r.value.saved);
    }
  }
}
