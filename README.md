# Telegram AI chat bot: a Dafny model of its handlers

This project models the core of a Telegram bot that puts OpenAI chat and image
models behind a chat interface (`handler.py` and `function.py`):

- who may use the bot. A message is admitted from the owner and the admin
  always, and from everyone else only while the process-wide switch
  `ALL_USERS_ACCESS` is set; `/enable_all` and `/disable_all` control it. A
  button press is put to the same test, but about the author of the message
  that carries the keyboard, which is the bot itself. So while the switch is
  clear every press is refused, the owner's and the admin's included, and the
  denial names the bot's ID;
- the per-user settings record: model, labels, history budget, history, message
  counter, voice answers, role, picture quality and size. Every command, menu
  button and chat turn reads and updates it;
- the chat turn:
  - the prompt is added to the history;
  - the history is trimmed to a character budget (`prune_messages`);
  - the role is put in front as a system entry for the two models that take one;
  - the answer is recorded;
  - the answer is sent, as Markdown when it holds a code fence and as plain
    text otherwise, then the speech when voice answers are on;
  - an answer of at most 4096 characters goes as one message, the label then
    the answer, so that message can exceed 4096 characters by the label;
  - a longer answer goes in chunks. A plain chunk holds at most 4096
    characters unless it is a single over-long line; a Markdown chunk has no
    character bound, since that chunker counts lines;
  - if anything in that raises, the plain fallback runs;
- the picture turn for DALL·E 3;
- the menu screens, the history ("context") screen and its chunked sending, the
  role capture, and the summary and information screens.

Each module follows a part of the program:

- `Lines` and `Decimal`: line splitting and joining, and decimal numerals.
- `UserData`: the record and the model table.
- `History`: `prune_messages`.
- `Summary`: `info_menu_func`.
- `Chunking`: the three chunkers, `send_history`, `send_message_kwargs_long` and
  `send_message_md_long`. Each loop is a method proved equal to a fold that
  states it.
- `Dispatch`: the choice of send strategy and the fallback.
- `Access`: `checkAccess` and the two switch commands, as a class holding the
  switch.
- `Menu`: the button data, the setting buttons and the screen texts.
- `Handler`: a class `Bot` holding the live records, the awaiting-role state and
  the module-wide `sysMassage` variable. Its methods are the message and
  callback handlers.

How the outside world appears in the model:

- A handler returns what it sends as a list of `Effect` values.
- The remote calls are parameters of the handlers:
  - the transcription of a voice message;
  - the canned reply;
  - the chat completion, the generated picture or the reading of a photo
    (`None` when the call raises);
  - which sends fail, as a predicate over the running number of the attempt.
- Saving a record to storage is counted by the ghost field `saves`.

Two behaviours of the code that one might not expect:

- **Plain long answers.** One might expect the chunks of a long plain answer,
  joined with line breaks, to give back the answer. They do not:
  - the chunker appends a line to a non-empty chunk as `line + "\n"`, so no
    break separates a chunk's first line from its second;
  - in the first chunk that second line is the label's blank line, so one break
    goes missing between the label and the answer (`Chunking.KwargsLabelBreaks`);
  - in every later chunk the first two lines of the answer run together
    (`Chunking.KwargsGluesAfterCut`);
  - a chunk that holds more than one line ends with a stray break.
  - What is kept is every character other than the line breaks
    (`Chunking.KwargsChunksKeepCharacters`).
- **Short histories.** One might expect a history no longer than the budget to
  be kept whole. The code keeps it whole only when it is shorter than the
  budget, or when its oldest entry is not empty. At exactly the budget, an
  empty oldest entry is dropped, because the loop stops as soon as the
  remaining budget reaches zero (`History.PrunedKeepsAll`,
  `History.EmptyOldestDroppedAtFullBudget`).

## Model

| member | source | states |
|---|---|---|
| History.PruneMessages | function.py:49-68 | the loop over the reversed history returns what `Pruned` keeps, within the budget, and a suffix of the history whose oldest entry may be cut |
| History.PrunedWithinBudget | function.py:53-66 | nothing is kept under a budget of zero or less; what is kept never exceeds the budget |
| History.PrunedIsTrimmedSuffix | function.py:53-68 | what is kept is the newest entries in their original order; only the oldest kept entry may be cut, to a prefix of its content with its role |
| History.PrunedFillsBudget | function.py:55-66 | either the whole history is kept or the kept content fills the budget exactly |
| History.PrunedKeepsAll | function.py:53-66 | the whole history is kept exactly when it fits the budget and, if it fills the budget exactly, its oldest entry is not empty |
| History.PrunedKeepsAllUnderBudget | function.py:53-66 | a history shorter than the budget is kept whole |
| History.EmptyOldestDroppedAtFullBudget | function.py:55-58 | a history that exactly fills the budget after an empty oldest entry loses that entry |
| History.PrunedKeepsNewest | function.py:60-66 | under a positive budget the newest entry is always sent, with its role, whole or cut to the budget |
| History.PrunedRoles | function.py:60-66 | trimming introduces no role that the history did not have |
| Summary.InfoMenuReadsBack | function.py:31-46 | the summary screen states the message count, the model label, voice on or off, whether a role is set, the picture quality and the size, and each can be read back from its line |
| UserData.ChoiceOfModelName | handler.py:219-360 | every model of the table is recognised from its API name, and the table entry found is that model |
| UserData.StartRecordConsistent | handler.py:163-172 | the `/start` defaults name a model of the table with its own labels and hold no system entry |
| Access.DenialNamesUser | handler.py:105-109 | the denial answer names the ID of the user turned away, readable back from the text |
| Access.DenialTextInjective | handler.py:105-109 | two different users get different denials |
| Access.AccessGate.constructor | handler.py:71-75 | the owner and admin IDs are fixed at start-up and the switch starts cleared |
| Access.AccessGate.Check | handler.py:85-110 | a user is admitted exactly when they are the owner or the admin or the switch is set; an admitted user gets no message, a refused one gets the denial naming their ID |
| Access.AccessGate.EnableAll | handler.py:113-127 | the owner or the admin sets the switch and is told so; anyone else is told they lack permission and the switch stays |
| Access.AccessGate.DisableAll | handler.py:130-144 | the owner or the admin clears the switch and is told so; anyone else is told they lack permission and the switch stays |
| Chunking.SendHistoryChunks | handler.py:565-591 | the context-sending loop yields the chunks of the fold that states it; they are bounded and rebuild the history |
| Chunking.HistoryChunksBounded | handler.py:565-591 | every context chunk is shorter than 4096 characters, unless it is a single over-long line of the history |
| Chunking.HistoryChunksWithBreakBounded | handler.py:565-591 | with the break that separates it from the next line, every context chunk stays within 4096 characters, unless it is a single over-long line |
| Chunking.HistoryChunksRebuild | handler.py:565-589 | the context chunks joined by line breaks are the history. When its first line is 4096 characters or longer, an empty chunk comes first and the rest rebuild it |
| Chunking.SendKwargsLongChunks | handler.py:991-1011 | the plain long chunking loop yields the chunks of the fold that states it; they keep every character of the heading, a break and the answer, line breaks aside, and are bounded |
| Chunking.KwargsChunksBounded | handler.py:991-1011 | every plain long chunk is at most 4096 characters, unless it is a single over-long line |
| Chunking.KwargsChunksKeepCharacters | handler.py:991-1011 | the plain long chunks hold every character of the content other than line breaks, in order |
| Chunking.KwargsLabelBreaks | handler.py:991-1011 | for every model label and a short two-line answer, the one chunk is the label, the first line, a break, the second line and a break: one break fewer after the label than in the text, so the chunk is not the text |
| Chunking.KwargsGluesAfterCut | handler.py:999-1004 | the line that starts a new chunk after a cut and the line after it run together, with no break between them |
| Chunking.SendMdLongChunks | handler.py:1029-1046 | the Markdown long chunking loop yields the chunks of the fold that states it; they rebuild the heading in asterisks, a break and the answer (after an empty first chunk when the first line is too long) |
| Chunking.MdChunksRebuild | handler.py:1029-1046 | the Markdown chunks joined by line breaks are the content, after an empty first chunk when its first line is 4096 characters or longer |
| Chunking.MdChunkUnbounded | handler.py:1037-1042 | the Markdown chunker tests the number of lines in the chunk, not its characters: two lines of nearly 4096 characters each go into one chunk longer than the limit |
| Lines.HasFenceIff | handler.py:1080 | the fence test holds exactly when "```" occurs somewhere in the answer |
| Dispatch.ChooseSpec | handler.py:1078-1131 | Markdown is chosen exactly when the answer holds a code fence and chunking exactly when it is longer than 4096; the fallback is never Markdown and keeps the length test |
| Dispatch.Run | handler.py:1078-1131 | the sends of a block go through in order up to the first failing one, which raises and ends the block |
| Dispatch.DeliverWithoutFailure | handler.py:1078-1110 | when no send fails, exactly the chosen block is delivered and no error is raised |
| Dispatch.DeliverShape | handler.py:1078-1131 | everything delivered belongs to the chosen block or to the plain fallback; the fallback runs only after a failure, and the error reply only after two |
| Dispatch.DeliverSpeech | handler.py:1056-1131 | speech is only ever of the whole answer and only with voice answers on; with them on and no failure it is delivered |
| Dispatch.SpeechFailureRepeatsText | handler.py:1111-1131 | a failure of the speech after a short plain answer went through makes the fallback send the answer a second time, then the speech |
| Dispatch.MarkdownLongKeepsText | handler.py:1029-1046 | for every answer label of the model table, the long Markdown messages rebuild the label in asterisks, a break and the answer |
| Dispatch.ShortSendsWhole | handler.py:981-1027 | a short path sends one message ending with the whole answer, longer than it by the label, plus the two asterisks on the Markdown path |
| Dispatch.ShortOverLimit | handler.py:1078-1110 | the length test is on the answer alone: an answer of exactly 4096 characters takes a short path, first attempt and fallback, and the message sent is longer than 4096 by the label |
| Dispatch.PlainLongChunks | handler.py:991-1018 | the long plain messages keep every character of the label and the answer and none is over the limit unless it is one over-long line |
| Menu.ActionOf | buttons.py:4-108 | each accepted button datum belongs to an offered button, and that button's datum is the one given |
| Menu.ActionOfDataOf | buttons.py:4-108 | every offered button's datum selects that button |
| Menu.ApplyPutsInEffect | handler.py:219-512 | a setting button is a no-op exactly when its setting is already in effect; otherwise the setting takes effect, and pressing again changes nothing |
| Menu.ApplyFrames | handler.py:219-360 | a setting changes only its own fields; a model switch sets the three labels from the table and resets the budget to 128000 except for DALL·E 3; consistency is kept |
| Menu.RoleTextReadsBack | handler.py:729-736 | the role can be read back from the role screen, except that a role literally "Undefined" reads as no role |
| Menu.RoleTextSameScreen | handler.py:729-736 | two records show the same role screen exactly when their roles agree once "Undefined" is taken as no role; a role "Undefined" looks like no role at all |
| Menu.InfoNamesUser | handler.py:856-872 | the information screen names the user who pressed the button, whatever the role holds |
| Menu.GenerateHistoryEmpty | handler.py:561-562 | the context text is empty exactly when the history is |
| Menu.GenerateHistorySnoc | handler.py:561-562 | a further entry is added after a blank line as role, colon, break, content |
| Handler.RouteOfNewValue | handler.py:113-900 | while a role is awaited every message other than the four commands registered before the capture is taken as the role, `/help` included; otherwise none is |
| Handler.RequestShape | handler.py:936-958 | the request leads with the role as a system entry exactly for gpt-4o-mini and gpt-4o; the rest is the trimmed history, within the budget, with no other system entry, ending in the prompt (cut to the budget if longer) |
| Handler.AnsweredBookkeeping | handler.py:934-973 | a completed exchange adds the prompt and the answer, in that order, and counts one more message; nothing else changes |
| Handler.FitAfterTurn | handler.py:934-973 | a turn keeps a record consistent and free of system entries |
| Handler.Bot.constructor | handler.py:795-811 | no records, no awaiting state, the shared role variable unbound |
| Handler.Bot.Start | handler.py:152-179 | an admitted user's record is reset to the defaults and saved, their state cleared, the greeting sent; a refused user changes nothing |
| Handler.Bot.OpenMenu | handler.py:182-194 | the state cleared and the summary sent with the main keyboard |
| Handler.Bot.Help | handler.py:883-896 | the state cleared and the command list sent |
| Handler.Bot.ProcessNewValue | handler.py:795-826 | the role from the message, or the one left in the shared variable, is stored and saved, the state cleared and the role screen shown; with the variable never bound nothing is stored |
| Handler.Bot.Chat | handler.py:899-1170 | a canned reply ends the turn; a text model runs the chat turn, DALL·E 3 the picture turn, any other model only leaves the notice |
| Handler.Bot.TextTurn | handler.py:934-1131 | the prompt is kept even when the call fails; a completed call adds the answer, counts, saves once, then the answer is delivered; a failed call gets the error reply |
| Handler.Bot.PictureTurn | handler.py:1133-1170 | a generated picture counts the exchange, saves and is sent; a failed call gets the error reply and changes nothing |
| Handler.Bot.PhotoTurn | handler.py:1172-1232 | a refused user gets only the denial; otherwise the state is cleared, the hold-on notice sent and the photo put to the vision model with its caption, or "What's in the picture?" without one; a reading counts one more message, is saved once and sent after the notice is removed, and a failed download or call gets the error reply and changes no record |
| Handler.Bot.HandleMessage | handler.py:113-1199 | the message goes to the first registered handler that takes it, and the new state and effects are that handler's: the switch commands change only the switch; `/start`, `/menu`, `/help`, a captured role and a chat turn each as stated for their handler; a photo as stated for `Handler.Bot.PhotoTurn`; other messages change nothing. Other users' records and awaiting states stay, and the awaiting state only shrinks |
| Handler.Bot.EnterScreen | handler.py:197-216 | a screen button clears the state and shows its screen; like every button, it is refused with the denial naming the keyboard message's author when that author is not admitted |
| Handler.Bot.ChangeSetting | handler.py:219-512 | only the acknowledgement when the setting is in effect, otherwise the record changed, saved and the screen redrawn; the awaiting state stays |
| Handler.Bot.ShowHistory | handler.py:537-558 | the history sent in chunks followed by the context menu, "Context is empty" when there is none, nothing but the acknowledgement when the message already says so |
| Handler.Bot.ClearHistory | handler.py:611-634 | history emptied and counter zeroed, always saved; the message rewritten only when it does not already say so |
| Handler.Bot.ChangeValue | handler.py:743-758 | the user enters the awaiting-role state and is asked for the role |
| Handler.Bot.DeleteValue | handler.py:761-791 | the state cleared; the role removed and saved unless there is none |
| Handler.Bot.BackToMenu | handler.py:829-842 | the state cleared and the summary shown, with no acknowledgement of the press |
| Handler.Bot.ShowInfo | handler.py:845-880 | the state cleared and the information screen shown |
| Handler.Bot.HandleCallback | handler.py:197-880 | a press goes to the handler its data selects, with that handler's new state and effects; unknown data changes nothing; any known press is refused, whoever pressed, when the author of the keyboard's message is not admitted; only the presser's record and awaiting state can change, only `change_value` enters the awaiting state, and the shared role variable stays |

## Left out

- Telegram I/O (aiogram): sending, editing and deleting messages are recorded as `Effect` values and not interpreted; HTML and Markdown rendering is not modelled.
- The OpenAI calls (chat completion, image generation, photo reading, Whisper transcription, text-to-speech) are parameters: the model sees their results, not how they are obtained.
- A chat or vision completion whose content is `None`, and a failing transcription, are not modelled; an answer is a string.
- Persistence (`get_or_create_user_data`, `save_user_data` in a module that is not part of this model) is replaced by the map of live records and the `saves` counter; the model assumes the same record object is returned for a user each time.
- The throttling middleware and the `throttling_key` flags are left out: they only delay or drop messages.
- In the photo handler, fetching the file, its base64 encoding and the request to the vision model (`download_and_encode_image`, `process_image_with_gpt`, handler.py:1202-1227) are one parameter: the reading of the photo, `None` when any of them raises. The picture itself is not part of the request the model records, only its question.
- The photo handler's other sends (the hold-on notice, removing it, sending the reading) are not modelled as failing.
- The start-up time on the information screen is a parameter `startedAt`; clocks are not modelled.
- `simple_bot_responses` is a parameter `canned` (the empty string meaning no canned reply).
- Concurrency between handlers is not modelled: each handler runs to completion on its own.
- Failures of sends other than the answer's (the hold-on notice, the typing action, the menu edits) are not modelled; only the answer's sends can fail.
- The conversation state is keyed by the user id alone; aiogram keys it by chat and user.
- The error reply does not carry the exception's text.
- The texts of `text.py` (greeting, help, role prompt) are the constants of `Canned`, not their wording.
- `main.py` (start-up and polling) is not part of this model.
- Handler.Bot.constructor: requires the blank record to be consistent (`Fit`), that is to name a model of the table with its own labels and hold no system entry; this stands for what `get_or_create_user_data` creates, in a module that is not part of this model.
- Chunking.SendMdLongChunks: states the rebuilding of the content but no length bound, because the source bounds the number of lines instead of characters (as `Chunking.MdChunkUnbounded` shows).
