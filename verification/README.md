# WhatsApp reminder assistant: one conversational turn

This project models in Dafny the core of a conversational reminder assistant. A user
writes free text. The assistant sends it to a chat-completion model together with the
stored conversation. When the model asks for its single tool, `createReminder`, the
assistant creates a reminder and asks the model a second time for a confirmation. It
then saves the new messages and replies.

The model covers three parts of `src/entities/OpenAI.ts`:

- `buildMessagesToOpenAI` (module `Messages`). It maps stored messages to role-tagged
  prompt entries in order. `PromptEntry` is a tagged variant with one shape per role:
  tool entries carry the tool-call id, assistant entries an optional one-element
  tool-call list, and system and user entries their content only.
- `createRemindersFromOpenAI` and the tool-response text (module `Reminders`). Instants
  are integer milliseconds. The reminder fires at the UTC instant of the requested
  wall-clock time minus exactly one minute (`OneMinuteMs`). Content and recurrence pass
  through unchanged.
- The turn logic of `runCompletion` (module `Completion`). `RunCompletion` returns the
  prompts sent to the model in order, the reminder handed to storage, the batch of
  messages to save, and the reply.

The outside world becomes parameters, bundled in `Completion.Env`:
- the model is a function from a prompt to a completion;
- `JSON.parse` of the tool arguments and the destructuring of its result (line 227) are
  one decoder. It returns `None` where either would throw: text that is not JSON, or
  JSON such as `null` that cannot be destructured;
- the timezone conversion is an opaque function `(wall-clock text, timezone) -> UTC ms`.
  It returns `None` for text it cannot parse. moment then yields an invalid date
  without throwing, and the reminder is still built and saved, with an absent trigger
  time;
- `JSON.stringify` of a recurrence is an opaque rendering function;
- the instruction text is a string field.

The user's formatted current local time is passed in as a string.

Where the source would throw a `TypeError` or a JSON error, `RunCompletion` returns a
`TurnError` instead. This happens when a completion has no choices, when a `tool_calls`
finish comes without a tool call, or when the tool arguments do not decode. The turn
then ends before anything is saved, as in the source, where the throw comes before the
save calls.

Two behaviours of the code are kept as they are:
- the tool schema (`src/entities/OpenAI.ts:85-89`) declares `frequency` an integer, and
  nothing checks that it is positive, so `Recurrence.frequency` is any `int`. The unit
  is not checked either: the enum at line 93 only guides the model, and the source would
  store any string, such as `"hour"`. The closed `Unit` type cannot hold such a value,
  so a unit outside day, week, month and year is not represented;
- a JSON parse failure (line 160) aborts the turn, and so does the model
  (`MalformedArguments`).

## Model

| member | source | states |
|---|---|---|
| Messages.BuildEntry | src/entities/OpenAI.ts:199-219 | Each entry has its message's role and content. A tool entry's `tool_call_id` is the message's tool id. An assistant entry has the one-element list `[toolCall]` exactly when the message has a tool call, and no list otherwise. Reading the entry back gives the message's role, content, tool id (for tool messages) and tool call (for assistant messages). |
| Messages.BuildEntrySameShape | src/entities/OpenAI.ts:199-219 | Two messages map to the same entry if and only if they agree on role, content and their role's tool field. |
| Messages.BuildMessages | src/entities/OpenAI.ts:196-221 | One entry per message, in the same order, each the per-role mapping of the message at that position. |
| Messages.BuildMessagesAppend | src/entities/OpenAI.ts:196-221 | Mapping a concatenation gives the concatenation of the mappings. |
| Messages.BuildMessagesKeepsRoles | src/entities/OpenAI.ts:199-219 | Each entry has the same role as the message at the same position. |
| Reminders.CreateReminder | src/entities/OpenAI.ts:223-239 | When `reminder_at` parses in the user's timezone, the trigger time plus exactly one minute is its UTC instant. When it does not parse, the trigger time is an invalid date. User id, content and recurrence pass through unchanged. |
| Reminders.ToolResponse | src/entities/OpenAI.ts:165-169 | The tool response starts with "Reminder created and will be remindered at " and then `reminder_at`. It is exactly that when there is no recurrence. Otherwise " with recurrence " and the rendered recurrence follow. |
| Reminders.ToolResponseMentionsRecurrence | src/entities/OpenAI.ts:165-169 | The response mentions a recurrence if and only if the reminder has one. |
| Completion.FirstPrompt | src/entities/OpenAI.ts:126-137 | The first prompt has length history + 3. In order it holds the instructions system entry, the mapped history, the mapped user message, and the "now" system entry last. |
| Completion.FirstPromptRoles | src/entities/OpenAI.ts:126-137 | The first prompt's roles are, in order: system, the history's roles, user, system. |
| Completion.SelectToolCall | src/entities/OpenAI.ts:150-151 | The call acted on is the first of the list. Selection fails exactly when the list is absent or empty. |
| Completion.FinalMessage | src/entities/OpenAI.ts:179-187 | The call fails if the completion has no choices. Otherwise it makes an assistant message with the first choice's content, owned by the user, exactly when that content is a non-empty string. |
| Completion.Conclude | src/entities/OpenAI.ts:179-193 | Keeps the prompts, the reminder and the collected batch. Appends the final assistant message, if any, as the last saved message and returns it as the reply. |
| Completion.ToolTurn | src/entities/OpenAI.ts:153-193 | After a tool call, the turn completes exactly when the second completion has choices, and otherwise fails with `NoChoices`. On completion the reminder is the one built from the call's arguments. The batch is exactly the user message, the assistant call, the tool answer and the optional reply. The call and its answer are `ToolExchange` (lines 153-171: the assistant call, the reminder of line 164, the response text of lines 165-169, and the tool message, pushed together at line 171). The second prompt is the first followed by the call and the answer, mapped. The reply exists exactly when the second completion's content is non-empty. |
| Completion.RunCompletion | src/entities/OpenAI.ts:118-194 | The first prompt is the opening layout over the stored history, an absent history counting as empty (`OpeningPrompt`, lines 124-137, with the "now" entry `NowEntry`, lines 130-136). The batch starts with the user message (`UserMessage`, line 122). Every saved message belongs to the user, and every tool message follows the assistant call it answers, with that call's id. With no tool call: one completion, no reminder, and exactly the user message and optional reply saved. With a tool call, only the first call is used. The turn fails exactly when that call is missing (`MissingToolCall`), its arguments do not decode (`MalformedArguments`), or the second completion has no choices (`NoChoices`). Otherwise the reminder is built from the arguments. The batch is exactly the user message, the assistant call (`ToolCallMessage`, lines 153-159: no content, the call's id and the call), the tool answer (`ToolReplyMessage`, line 170), both built by `ToolExchange` (lines 153-171), and the optional reply. The second prompt is the first followed by those two mapped. A first completion without choices fails with `NoChoices`. The reply exists exactly when the last completion's content is non-empty, and is then the last saved message. |
| Completion.OneToolMessagePerReminder | src/entities/OpenAI.ts:142-171 | On a turn that completes, a reminder is created if and only if the first finish reason is `tool_calls`. Exactly one tool message is then saved, and none otherwise. |
| Completion.FirstToolCallWins | src/entities/OpenAI.ts:143-151 | Changing the tool calls after the first one leaves the whole turn unchanged. |
| Completion.NextTurnReplaysTranscript | src/entities/OpenAI.ts:124-129 | When the saved batch is appended to the stored history, the next turn's prompt holds the old history's entries and then this batch's entries, in order. |

## Left out

- The chat-completion client (`getChatCompletion`, the DeepSeek endpoint, model name, tool schema): remote calls. Their results are the `Env.complete` parameter. The model is a function of the prompt. The two prompts of a turn always differ in length, so this does not tie the second answer to the first.
- The `INSTRUCTIONS` and `TOOLS` constants: opaque data. The instruction text is `Env.instructions`, and the tool schema is not represented.
- The DynamoDB gateways (`getDynamoMessagesByUserId`, `saveDynamoMessages`, `saveReminderDynamo`) and the `Promise.all` that runs the two saves: I/O. The values handed to the saves are `Turn.reminder` and `Turn.saved`. The loaded history is the `stored` parameter.
- `sendInfoLog`: a fire-and-forget logging side effect.
- moment-timezone: tz database, parsing of `YYYY-MM-DD HH:mm:ss.SSS`, and formatting of the current time. The conversion is `Env.toUtc`, and the formatted "now" is a parameter.
- `JSON.parse` and the `as CreateReminderOpenAI` cast: the decoder returns a typed record, and the source checks no schema. An object with missing or ill-typed fields (say `{}`, whose `content` is `undefined`) is not represented: the decoder either returns a whole record or `None`. `JSON.stringify` of the recurrence is `Env.showRecurrence`.
- `choice.message` being absent (the `?.` on line 180): the message of a choice is always present in the model.
- The `Message`, `Reminder` and `User` classes (`src/entities/Messages.ts`, `Reminder.ts`, `User.ts`) are not part of this model. Their constructors and getters are taken to store and return the given fields.
- Roles outside system, user, assistant and tool: the source's `default` branch would map any other role string like system and user. The model's `Role` has exactly the four roles.
- `src/gateway/dynamoDB/DynamoDBParameters.ts`: environment-driven AWS configuration with no logic.
