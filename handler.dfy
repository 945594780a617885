/** The bot's message and callback handlers over the live session records.

    `live` holds the record object each user's handlers load and change in
    place (a user without one reads as `blank`); `saves` counts the writes
    of a record to storage. `awaiting` holds the users whose conversation
    is in the awaiting-role state, and `sysMassage` is the one module-wide
    variable the role capture writes and reads, shared by all users and
    unbound until first written.

    The remote calls are parameters of the handlers: the transcription of a
    voice message, the optional canned reply, the chat completion and the
    generated picture and the reading of a photo (`None` when the call
    raises), and which sends of the answer fail. */
module Handler {

  import opened Wrappers
  import opened UserData
  import opened Transport
  import opened History
  import opened Summary
  import opened Chunking
  import opened Dispatch
  import opened Access
  import opened Menu

  /** What an incoming message carries. */
  datatype Content =
    | Text(text: string)
    | Voice(transcript: string)   // the transcription of the voice message
    | Photo(caption: string)      // a photo; the empty caption stands for none
    | Other

  datatype Incoming = Incoming(fromUser: int, content: Content)

  /** A button press: who pressed it, who wrote the message the keyboard is
      attached to (the bot, for its own menus), that message's text, and
      the button's data. */
  datatype Callback = Callback(fromUser: int, messageAuthor: int, messageText: string, data: string)

  /** The message handlers in the order they are registered; the first whose
      filter matches takes the message. */
  datatype Route =
    | EnableAllCommand
    | DisableAllCommand
    | StartCommand
    | MenuCommand
    | NewValue
    | HelpCommand
    | ChatTurn
    | PhotoVision
    | Unhandled

  function RouteOf(c: Content, awaiting: bool): Route {
    if c == Text("/enable_all") then EnableAllCommand
    else if c == Text("/disable_all") then DisableAllCommand
    else if c == Text("/start") then StartCommand
    else if c == Text("/menu") then MenuCommand
    else if awaiting then NewValue
    else if c == Text("/help") then HelpCommand
    else if c.Text? || c.Voice? then ChatTurn
    else if c.Photo? then PhotoVision
    else Unhandled
  }

  /** While a role is awaited, every message other than the four commands
      registered before the role capture is taken as the role — "/help"
      included — and without that state nothing is. */
  lemma RouteOfNewValue(c: Content, awaiting: bool)
    ensures RouteOf(c, awaiting) == NewValue <==>
      awaiting && c !in {Text("/enable_all"), Text("/disable_all"), Text("/start"), Text("/menu")}
    ensures awaiting ==> RouteOf(Text("/help"), awaiting) == NewValue
    ensures !awaiting ==> RouteOf(Text("/help"), awaiting) == HelpCommand
  {
  }

  /** The role the capture stores: the transcription of a voice message,
      the text of a text message, and otherwise whatever the shared
      variable last held (`None` if it was never written). */
  function NewRole(c: Content, stale: Option<string>): Option<string> {
    match c
    case Voice(t) => Some(t)
    case Text(t) => if t != "" then Some(t) else stale
    case _ => stale
  }

  /** The prompt of a chat turn. */
  function Prompt(c: Content): string {
    match c
    case Voice(t) => t
    case Text(t) => t
    case _ => ""
  }

  function WithTurn(r: Record, role: Role, text: string): Record {
    r.(messages := r.messages + [Message(role, text)])
  }

  /** The record after a completed exchange. */
  function Answered(asked: Record, answer: string): Record {
    WithTurn(asked, Assistant, answer).(countMessages := asked.countMessages + 1)
  }

  /** The message list of the chat-completion call for a record whose
      history already holds the new prompt: the trimmed history, led by the
      role as a system entry for the two models that take one. */
  function RequestFor(asked: Record): seq<Message> {
    var pruned := Pruned(asked.messages, asked.maxOut);
    if TakesSystemEntry(asked.model) then [Message(System, asked.systemMessage)] + pruned else pruned
  }

  /** The request carries a system entry exactly for gpt-4o-mini and gpt-4o,
      and only in front: the rest is the trimmed history, within the budget,
      with no system entry, and ending with the prompt (cut to the budget
      if it is longer). */
  lemma RequestShape(r: Record, prompt: string)
    requires NoSystemEntries(r.messages) && r.maxOut > 0
    ensures var asked := WithTurn(r, User, prompt);
      var req := RequestFor(asked);
      var lead := if TakesSystemEntry(r.model) then 1 else 0;
      && (req[0].role == System <==> TakesSystemEntry(r.model))
      && req[lead..] == Pruned(asked.messages, r.maxOut)
      && TotalLength(req[lead..]) <= r.maxOut
      && (forall i :: lead <= i < |req| ==> req[i].role != System)
      && req[|req| - 1].role == User
      && req[|req| - 1].content == if |prompt| <= r.maxOut then prompt else prompt[..r.maxOut]
  {
    var asked := WithTurn(r, User, prompt);
    var ms := asked.messages;
    assert forall i :: 0 <= i < |ms| ==> ms[i].role != System by {
      forall i | 0 <= i < |ms|
        ensures ms[i].role != System
      {
        if i < |r.messages| {
          assert ms[i] == r.messages[i];
        }
      }
    }
    PrunedKeepsNewest(ms, r.maxOut);
    PrunedRoles(ms, r.maxOut, System);
    PrunedWithinBudget(ms, r.maxOut);
    var pruned := Pruned(ms, r.maxOut);
    var req := RequestFor(asked);
    if TakesSystemEntry(r.model) {
      assert req[1..] == pruned;
    } else {
      assert req[0..] == pruned;
    }
  }

  /** A completed exchange adds the prompt and the answer to the history,
      in that order, and counts one more message; nothing else changes. */
  lemma AnsweredBookkeeping(r: Record, prompt: string, answer: string)
    ensures var done := Answered(WithTurn(r, User, prompt), answer);
      && done.messages == r.messages + [Message(User, prompt), Message(Assistant, answer)]
      && done.countMessages == r.countMessages + 1
      && done.(messages := r.messages, countMessages := r.countMessages) == r
      && (NoSystemEntries(r.messages) ==> NoSystemEntries(done.messages))
  {
    var done := Answered(WithTurn(r, User, prompt), answer);
    assert done.messages == r.messages + [Message(User, prompt), Message(Assistant, answer)];
  }

  /** A turn keeps a record fit: its model and labels are untouched and
      only user and assistant entries are added. */
  lemma FitAfterTurn(r: Record, prompt: string, answer: string)
    requires Fit(r)
    ensures Fit(WithTurn(r, User, prompt))
    ensures Fit(Answered(WithTurn(r, User, prompt), answer))
  {
    var asked := WithTurn(r, User, prompt);
    assert asked.messages == r.messages + [Message(User, prompt)];
    AnsweredBookkeeping(r, prompt, answer);
  }

  /** The effects of a delivered answer: each send that went through, then
      the error reply if the fallback raised too. */
  function SendEffects(o: Outcome): seq<Effect> {
    DeliveredAll(o.delivered) + (if o.raised then [ErrorReply] else [])
  }

  function DeliveredAll(sends: seq<Send>): (r: seq<Effect>)
    ensures |r| == |sends| && forall i :: 0 <= i < |r| ==> r[i] == Delivered(sends[i])
    decreases |sends|
  {
    if sends == [] then [] else [Delivered(sends[0])] + DeliveredAll(sends[1..])
  }

  function SendTexts(chunks: seq<string>): (r: seq<Effect>)
    ensures |r| == |chunks| && forall i :: 0 <= i < |r| ==> r[i] == SendText(chunks[i])
    decreases |chunks|
  {
    if chunks == [] then [] else [SendText(chunks[0])] + SendTexts(chunks[1..])
  }

  /** The record a chat-completion turn leaves: the prompt stays in the
      history even when the call fails; a completed call adds the answer
      and counts the exchange. */
  function TurnRecord(asked: Record, answer: Option<string>): Record {
    match answer
    case None => asked
    case Some(text) => Answered(asked, text)
  }

  /** The effects of a chat-completion turn after the hold-on notice: the
      request, then either the error reply or the typing action, the
      removal of the notice and the delivered answer. */
  function TurnEffects(asked: Record, answer: Option<string>, fails: nat -> bool): seq<Effect> {
    var request := ChatRequest(asked.model, RequestFor(asked));
    match answer
    case None => [request, ErrorReply]
    case Some(text) =>
      [request, Typing, DeleteTemporary] + SendEffects(Deliver(asked.modelMessageChat, text, asked.voiceAnswer, fails))
  }

  /** The effects of a picture turn after the hold-on notice. */
  function PictureEffects(r: Record, prompt: string, picture: Option<string>): seq<Effect> {
    var request := ImageRequest(prompt, r.picSize, r.picGrade);
    match picture
    case None => [request, ErrorReply]
    case Some(url) => [request, UploadingPhoto, DeleteTemporary, SendPhoto(url)]
  }

  /** Storing a user's record twice leaves the second. */
  lemma StoreTwice(m: map<int, Record>, u: int, first: Record, second: Record)
    ensures m[u := first][u := second] == m[u := second]
  {
  }

  /** Every stored record names a model of the table with its labels, and
      its history has no system entry. */
  predicate Fit(r: Record) {
    Consistent(r) && NoSystemEntries(r.messages)
  }

  class Bot {
    const gate: AccessGate
    /** The start-up time shown by the information screen. */
    const startedAt: string
    /** What a user without a record gets. */
    const blank: Record
    var live: map<int, Record>
    var awaiting: set<int>
    var sysMassage: Option<string>
    ghost var saves: nat

    ghost predicate Valid()
      reads this
    {
      Fit(blank) && forall u :: u in live ==> Fit(live[u])
    }

    constructor (gate: AccessGate, startedAt: string, blank: Record)
      requires Fit(blank)
      ensures this.gate == gate && this.startedAt == startedAt && this.blank == blank
      ensures live == map[] && awaiting == {} && sysMassage == None && saves == 0
      ensures Valid()
    {
      this.gate := gate;
      this.startedAt := startedAt;
      this.blank := blank;
      live := map[];
      awaiting := {};
      sysMassage := None;
      saves := 0;
    }

    /** The record the handlers of `userId` work on. */
    function Current(userId: int): Record
      reads this
    {
      if userId in live then live[userId] else blank
    }

    predicate Admits(userId: int)
      reads gate
    {
      gate.Privileged(userId) || gate.allUsersAccess
    }

    /** A handler turned the user away: nothing changed, and the one answer
        names the ID the gate was asked about. */
    twostate predicate Refused(userId: int, effects: seq<Effect>)
      reads this
    {
      unchanged(this) && effects == [Answer(DenialText(userId))]
    }

    /** `/start`: every field back to the defaults, the awaiting state
        cleared, one save, the greeting. */
    twostate predicate StartDone(userId: int, effects: seq<Effect>)
      reads this
    {
      if !old(Admits(userId)) then Refused(userId, effects)
      else
        && live == old(live)[userId := StartRecord] && awaiting == old(awaiting) - {userId}
        && sysMassage == old(sysMassage) && saves == old(saves) + 1
        && effects == [Notice(StartMessage)]
    }

    method Start(userId: int) returns (effects: seq<Effect>)
      requires Valid()
      modifies this
      ensures Valid() && StartDone(userId, effects)
    {
      var admitted, denial := gate.Check(userId);
      if !admitted {
        return denial;
      }
      awaiting := awaiting - {userId};
      StartRecordConsistent();
      live := live[userId := StartRecord];
      saves := saves + 1;
      effects := [Notice(StartMessage)];
    }

    /** `/menu`: the state cleared and the summary with the main keyboard. */
    twostate predicate MenuDone(userId: int, effects: seq<Effect>)
      reads this
    {
      if !old(Admits(userId)) then Refused(userId, effects)
      else
        && live == old(live) && awaiting == old(awaiting) - {userId}
        && sysMassage == old(sysMassage) && saves == old(saves)
        && effects == [AnswerMenu(InfoMenu(old(Current(userId))), MainKeyboard)]
    }

    method OpenMenu(userId: int) returns (effects: seq<Effect>)
      requires Valid()
      modifies this
      ensures Valid() && MenuDone(userId, effects)
    {
      var admitted, denial := gate.Check(userId);
      if !admitted {
        return denial;
      }
      awaiting := awaiting - {userId};
      effects := [AnswerMenu(InfoMenu(Current(userId)), MainKeyboard)];
    }

    /** `/help`: the state cleared and the command list. */
    twostate predicate HelpDone(userId: int, effects: seq<Effect>)
      reads this
    {
      if !old(Admits(userId)) then Refused(userId, effects)
      else
        && live == old(live) && awaiting == old(awaiting) - {userId}
        && sysMassage == old(sysMassage) && saves == old(saves)
        && effects == [Notice(HelpMessage)]
    }

    method Help(userId: int) returns (effects: seq<Effect>)
      requires Valid()
      modifies this
      ensures Valid() && HelpDone(userId, effects)
    {
      var admitted, denial := gate.Check(userId);
      if !admitted {
        return denial;
      }
      awaiting := awaiting - {userId};
      effects := [Notice(HelpMessage)];
    }

    /** `process_new_value`: the role taken from the message (or left over in
        the shared variable) is stored and saved, and the state cleared. When
        the variable was never bound the handler fails before anything is
        stored and the state stays. */
    twostate predicate NewValueDone(userId: int, c: Content, effects: seq<Effect>)
      reads this
    {
      if !old(Admits(userId)) then Refused(userId, effects)
      else
        && sysMassage == NewRole(c, old(sysMassage))
        && if sysMassage.None? then
             live == old(live) && awaiting == old(awaiting) && saves == old(saves) && effects == []
           else
             var r := old(Current(userId)).(systemMessage := sysMassage.value);
             && live == old(live)[userId := r] && awaiting == old(awaiting) - {userId}
             && saves == old(saves) + 1
             && effects == [AnswerMenu(RoleText(r), RoleKeyboard)]
    }

    method ProcessNewValue(userId: int, c: Content) returns (effects: seq<Effect>)
      requires Valid()
      modifies this
      ensures Valid() && NewValueDone(userId, c, effects)
    {
      var admitted, denial := gate.Check(userId);
      if !admitted {
        return denial;
      }
      sysMassage := NewRole(c, sysMassage);
      if sysMassage.None? {
        return [];
      }
      var r := Current(userId).(systemMessage := sysMassage.value);
      live := live[userId := r];
      saves := saves + 1;
      awaiting := awaiting - {userId};
      effects := [AnswerMenu(RoleText(r), RoleKeyboard)];
    }

    /** `chatgpt_text_handler` for a text or voice message: after the
        hold-on notice, a canned reply ends the turn; otherwise a text model
        runs the chat turn, DALL·E 3 the picture turn, and any other model
        nothing more. The awaiting state and the shared role stay. */
    twostate predicate ChatDone(userId: int, c: Content, canned: string, answer: Option<string>,
                                picture: Option<string>, fails: nat -> bool, effects: seq<Effect>)
      reads this
    {
      if !old(Admits(userId)) then Refused(userId, effects)
      else
        var r := old(Current(userId));
        && awaiting == old(awaiting) && sysMassage == old(sysMassage)
        && if canned != "" then
             live == old(live) && saves == old(saves) && effects == [Notice(HoldOn), DeleteTemporary, Reply(canned)]
           else if IsTextModel(r.model) then
             var asked := WithTurn(r, User, Prompt(c));
             && live == old(live)[userId := TurnRecord(asked, answer)]
             && saves == old(saves) + (if answer.Some? then 1 else 0)
             && effects == [Notice(HoldOn)] + TurnEffects(asked, answer, fails)
           else if r.model == "dall-e-3" then
             && live == (if picture.Some? then old(live)[userId := r.(countMessages := r.countMessages + 1)] else old(live))
             && saves == old(saves) + (if picture.Some? then 1 else 0)
             && effects == [Notice(HoldOn)] + PictureEffects(r, Prompt(c), picture)
           else
             live == old(live) && saves == old(saves) && effects == [Notice(HoldOn)]
    }

    method Chat(userId: int, c: Content, canned: string, answer: Option<string>,
                picture: Option<string>, fails: nat -> bool) returns (effects: seq<Effect>)
      requires Valid()
      modifies this
      ensures Valid() && ChatDone(userId, c, canned, answer, picture, fails, effects)
    {
      var admitted, denial := gate.Check(userId);
      if !admitted {
        return denial;
      }
      var userData := Current(userId);
      effects := [Notice(HoldOn)];
      var userPrompt := Prompt(c);
      if canned != "" {
        effects := effects + [DeleteTemporary, Reply(canned)];
        return;
      }
      if IsTextModel(userData.model) {
        var more := TextTurn(userId, userPrompt, answer, fails);
        effects := effects + more;
      } else if userData.model == "dall-e-3" {
        var more := PictureTurn(userId, userPrompt, picture);
        effects := effects + more;
      }
    }

    /** The chat-completion part of a turn: the prompt goes into the history
        before trimming, the role only into the request; a completed call
        adds the answer, counts the exchange and saves before the answer is
        sent. */
    method TextTurn(userId: int, prompt: string, answer: Option<string>, fails: nat -> bool)
      returns (effects: seq<Effect>)
      requires Valid()
      modifies this
      ensures Valid()
      ensures awaiting == old(awaiting) && sysMassage == old(sysMassage)
      ensures var asked := WithTurn(old(Current(userId)), User, prompt);
        && live == old(live)[userId := TurnRecord(asked, answer)]
        && saves == old(saves) + (if answer.Some? then 1 else 0)
        && effects == TurnEffects(asked, answer, fails)
    {
      var userData := Current(userId);
      var asked := WithTurn(userData, User, prompt);
      FitAfterTurn(userData, prompt, if answer.Some? then answer.value else "");
      ghost var before := live;
      live := live[userId := asked];
      var pruned := PruneMessages(asked.messages, asked.maxOut);
      var request := pruned;
      if asked.model == "gpt-4o-mini" || asked.model == "gpt-4o" {
        request := [Message(System, asked.systemMessage)] + pruned;
      }
      assert request == RequestFor(asked);
      // the request, then the typing action, the save, and the removal of
      // the temporary message before the answer is sent
      if answer.None? {
        return [ChatRequest(asked.model, request), ErrorReply];
      }
      var done := Answered(asked, answer.value);
      assert done == TurnRecord(asked, answer);
      live := live[userId := done];
      assert live == before[userId := done] by {
        StoreTwice(before, userId, asked, done);
      }
      saves := saves + 1;
      var outcome := Deliver(done.modelMessageChat, answer.value, done.voiceAnswer, fails);
      assert done.modelMessageChat == asked.modelMessageChat && done.voiceAnswer == asked.voiceAnswer;
      effects := [ChatRequest(asked.model, request), Typing, DeleteTemporary] + SendEffects(outcome);
    }

    /** The picture part of a turn: a generated picture counts the exchange
        and saves; the history is not touched. */
    method PictureTurn(userId: int, prompt: string, picture: Option<string>) returns (effects: seq<Effect>)
      requires Valid()
      modifies this
      ensures Valid()
      ensures awaiting == old(awaiting) && sysMassage == old(sysMassage)
      ensures var r := old(Current(userId));
        && live == (if picture.Some? then old(live)[userId := r.(countMessages := r.countMessages + 1)] else old(live))
        && saves == old(saves) + (if picture.Some? then 1 else 0)
        && effects == PictureEffects(r, prompt, picture)
    {
      var userData := Current(userId);
      effects := [ImageRequest(prompt, userData.picSize, userData.picGrade)];
      if picture.None? {
        effects := effects + [ErrorReply];
        return;
      }
      effects := effects + [UploadingPhoto];
      live := live[userId := userData.(countMessages := userData.countMessages + 1)];
      saves := saves + 1;
      effects := effects + [DeleteTemporary, SendPhoto(picture.value)];
    }

    /** The question put to the vision model: the photo's caption, or a
        fixed question when it has none. */
    function VisionPrompt(caption: string): string {
      if caption == "" then "What's in the picture?" else caption
    }

    /** The photo handler after its access check: the state cleared, the
        hold-on notice, the photo and its question sent to the vision model;
        a reading counts one more message, saves, and is sent after the
        notice is removed, while a failed download or call gets the error
        reply and changes no record. */
    twostate predicate PhotoDone(userId: int, caption: string, vision: Option<string>, effects: seq<Effect>)
      reads this
    {
      if !old(Admits(userId)) then Refused(userId, effects)
      else
        var r := old(Current(userId));
        && awaiting == old(awaiting) - {userId} && sysMassage == old(sysMassage)
        && live == (if vision.Some? then old(live)[userId := r.(countMessages := r.countMessages + 1)] else old(live))
        && saves == old(saves) + (if vision.Some? then 1 else 0)
        && effects == [Notice(HoldOn), VisionRequest(VisionPrompt(caption))] +
             (if vision.Some? then [DeleteTemporary, Answer(vision.value)] else [ErrorReply])
    }

    method PhotoTurn(userId: int, caption: string, vision: Option<string>) returns (effects: seq<Effect>)
      requires Valid()
      modifies this
      ensures Valid() && PhotoDone(userId, caption, vision, effects)
    {
      var admitted, denial := gate.Check(userId);
      if !admitted {
        return denial;
      }
      awaiting := awaiting - {userId};
      var userData := Current(userId);
      effects := [Notice(HoldOn), VisionRequest(VisionPrompt(caption))];
      if vision.None? {
        effects := effects + [ErrorReply];
        return;
      }
      // `update_user_data`: one more message, then the save
      live := live[userId := userData.(countMessages := userData.countMessages + 1)];
      saves := saves + 1;
      effects := effects + [DeleteTemporary, Answer(vision.value)];
    }

    /** A message, handed to the first registered handler that takes it:
        the switch commands change only the gate, every other handler only
        the sender's record and awaiting state and the shared role
        variable; other messages change nothing. */
    method HandleMessage(m: Incoming, canned: string, answer: Option<string>,
                         picture: Option<string>, vision: Option<string>,
                         fails: nat -> bool) returns (effects: seq<Effect>)
      requires Valid()
      modifies this, gate
      ensures Valid()
      ensures var uid := m.fromUser;
        match RouteOf(m.content, old(uid in awaiting))
        case EnableAllCommand =>
          && unchanged(this) && gate.allUsersAccess == (gate.Privileged(uid) || old(gate.allUsersAccess))
          && effects == [Answer(if gate.Privileged(uid) then EnabledText else NoPermissionText)]
        case DisableAllCommand =>
          && unchanged(this) && gate.allUsersAccess == (!gate.Privileged(uid) && old(gate.allUsersAccess))
          && effects == [Answer(if gate.Privileged(uid) then DisabledText else NoPermissionText)]
        case StartCommand => unchanged(gate) && StartDone(uid, effects)
        case MenuCommand => unchanged(gate) && MenuDone(uid, effects)
        case NewValue => unchanged(gate) && NewValueDone(uid, m.content, effects)
        case HelpCommand => unchanged(gate) && HelpDone(uid, effects)
        case ChatTurn => unchanged(gate) && ChatDone(uid, m.content, canned, answer, picture, fails, effects)
        case PhotoVision => unchanged(gate) && PhotoDone(uid, m.content.caption, vision, effects)
        case Unhandled => unchanged(gate) && unchanged(this) && effects == []
      ensures live - {m.fromUser} == old(live) - {m.fromUser}
      ensures awaiting <= old(awaiting)
      ensures RouteOf(m.content, old(m.fromUser in awaiting)) == NewValue && old(Admits(m.fromUser))
              && NewRole(m.content, old(sysMassage)).Some? ==>
        && Current(m.fromUser).systemMessage == NewRole(m.content, old(sysMassage)).value
        && m.fromUser !in awaiting
    {
      var uid := m.fromUser;
      match RouteOf(m.content, uid in awaiting)
      case EnableAllCommand => effects := gate.EnableAll(uid);
      case DisableAllCommand => effects := gate.DisableAll(uid);
      case StartCommand => effects := Start(uid);
      case MenuCommand => effects := OpenMenu(uid);
      case NewValue => effects := ProcessNewValue(uid, m.content);
      case HelpCommand => effects := Help(uid);
      case ChatTurn => effects := Chat(uid, m.content, canned, answer, picture, fails);
      case PhotoVision => effects := PhotoTurn(uid, m.content.caption, vision);
      case Unhandled => effects := [];
    }

    // -------------------------------------------------------------------
    // Callbacks. The gate is asked about the author of the message the
    // keyboard belongs to; the record and the state are those of the user
    // who pressed the button.

    /** A screen-entry button: the state cleared and the screen shown. */
    twostate predicate EnterDone(cb: Callback, s: Screen, effects: seq<Effect>)
      reads this
    {
      if !old(Admits(cb.messageAuthor)) then Refused(cb.messageAuthor, effects)
      else
        var view := ScreenView(s, old(Current(cb.fromUser)));
        && live == old(live) && awaiting == old(awaiting) - {cb.fromUser}
        && sysMassage == old(sysMassage) && saves == old(saves)
        && effects == [Edit(view.text, Some(view.keyboard)), AnswerCallback]
    }

    method EnterScreen(cb: Callback, s: Screen) returns (effects: seq<Effect>)
      requires Valid()
      modifies this
      ensures Valid() && EnterDone(cb, s, effects)
    {
      var admitted, denial := gate.Check(cb.messageAuthor);
      if !admitted {
        return denial;
      }
      awaiting := awaiting - {cb.fromUser};
      var view := ScreenView(s, Current(cb.fromUser));
      effects := [Edit(view.text, Some(view.keyboard)), AnswerCallback];
    }

    /** A setting button: only the acknowledgement when the setting is
        already in effect; otherwise the record changed, saved, and the
        screen redrawn. The awaiting state is left as it is. */
    twostate predicate SettingDone(cb: Callback, st: Setting, effects: seq<Effect>)
      reads this
    {
      if !old(Admits(cb.messageAuthor)) then Refused(cb.messageAuthor, effects)
      else
        var r := old(Current(cb.fromUser));
        && awaiting == old(awaiting) && sysMassage == old(sysMassage)
        && if InEffect(st, r) then
             live == old(live) && saves == old(saves) && effects == [AnswerCallback]
           else
             var r' := Apply(st, r).value;
             var view := SettingView(st, r');
             && live == old(live)[cb.fromUser := r'] && saves == old(saves) + 1
             && effects == [Edit(view.text, Some(view.keyboard)), AnswerCallback]
    }

    method ChangeSetting(cb: Callback, st: Setting) returns (effects: seq<Effect>)
      requires Valid()
      modifies this
      ensures Valid() && SettingDone(cb, st, effects)
    {
      var admitted, denial := gate.Check(cb.messageAuthor);
      if !admitted {
        return denial;
      }
      var userData := Current(cb.fromUser);
      ApplyPutsInEffect(st, userData);
      ApplyFrames(st, userData);
      match Apply(st, userData)
      case None =>
        effects := [AnswerCallback];
      case Some(r') =>
        live := live[cb.fromUser := r'];
        saves := saves + 1;
        var view := SettingView(st, r');
        effects := [Edit(view.text, Some(view.keyboard)), AnswerCallback];
    }

    /** `context`: the history sent in chunks followed by the context menu,
        or "Context is empty" when there is none; nothing but the
        acknowledgement when the message already says so. */
    twostate predicate HistoryShown(cb: Callback, effects: seq<Effect>)
      reads this
    {
      if !old(Admits(cb.messageAuthor)) then Refused(cb.messageAuthor, effects)
      else
        var history := GenerateHistory(old(Current(cb.fromUser)).messages);
        && unchanged(this)
        && effects ==
             if cb.messageText == "Context is empty" then [AnswerCallback]
             else if history == "" then [Edit("Context is empty", Some(ContextKeyboard)), AnswerCallback]
             else SendTexts(HistoryChunks(history)) + [SendContextMenu, Edit("Context:", None), AnswerCallback]
    }

    method ShowHistory(cb: Callback) returns (effects: seq<Effect>)
      ensures HistoryShown(cb, effects)
    {
      var admitted, denial := gate.Check(cb.messageAuthor);
      if !admitted {
        return denial;
      }
      var history := GenerateHistory(Current(cb.fromUser).messages);
      if cb.messageText == "Context is empty" {
        return [AnswerCallback];
      }
      if history == "" {
        return [Edit("Context is empty", Some(ContextKeyboard)), AnswerCallback];
      }
      var chunks := SendHistoryChunks(history);
      effects := SendTexts(chunks) + [SendContextMenu, Edit("Context:", None), AnswerCallback];
    }

    /** `clear`: the history emptied and the counter zeroed, always saved;
        the message is rewritten only if it does not already say so. */
    twostate predicate ClearDone(cb: Callback, effects: seq<Effect>)
      reads this
    {
      if !old(Admits(cb.messageAuthor)) then Refused(cb.messageAuthor, effects)
      else
        && awaiting == old(awaiting) && sysMassage == old(sysMassage)
        && live == old(live)[cb.fromUser := old(Current(cb.fromUser)).(messages := [], countMessages := 0)]
        && saves == old(saves) + 1
        && effects == if cb.messageText == "Context cleared" then [AnswerCallback]
                      else [Edit("Context cleared", Some(ContextKeyboard)), AnswerCallback]
    }

    method ClearHistory(cb: Callback) returns (effects: seq<Effect>)
      requires Valid()
      modifies this
      ensures Valid() && ClearDone(cb, effects)
    {
      var admitted, denial := gate.Check(cb.messageAuthor);
      if !admitted {
        return denial;
      }
      var r := Current(cb.fromUser).(messages := [], countMessages := 0);
      live := live[cb.fromUser := r];
      saves := saves + 1;
      if cb.messageText == "Context cleared" {
        return [AnswerCallback];
      }
      effects := [Edit("Context cleared", Some(ContextKeyboard)), AnswerCallback];
    }

    /** `change_value`: the only way into the awaiting-role state. */
    twostate predicate ChangeValueDone(cb: Callback, effects: seq<Effect>)
      reads this
    {
      if !old(Admits(cb.messageAuthor)) then Refused(cb.messageAuthor, effects)
      else
        && live == old(live) && awaiting == old(awaiting) + {cb.fromUser}
        && sysMassage == old(sysMassage) && saves == old(saves)
        && effects == [EditNotice(RolePrompt), AnswerCallback]
    }

    method ChangeValue(cb: Callback) returns (effects: seq<Effect>)
      requires Valid()
      modifies this
      ensures Valid() && ChangeValueDone(cb, effects)
    {
      var admitted, denial := gate.Check(cb.messageAuthor);
      if !admitted {
        return denial;
      }
      awaiting := awaiting + {cb.fromUser};
      effects := [EditNotice(RolePrompt), AnswerCallback];
    }

    /** `delete_value`: the state cleared; the role removed and saved unless
        there is none, in which case only the acknowledgement. */
    twostate predicate DeleteDone(cb: Callback, effects: seq<Effect>)
      reads this
    {
      if !old(Admits(cb.messageAuthor)) then Refused(cb.messageAuthor, effects)
      else
        && awaiting == old(awaiting) - {cb.fromUser} && sysMassage == old(sysMassage)
        && if old(Current(cb.fromUser)).systemMessage == "" then
             live == old(live) && saves == old(saves) && effects == [AnswerCallback]
           else
             var r := old(Current(cb.fromUser)).(systemMessage := "");
             && live == old(live)[cb.fromUser := r] && saves == old(saves) + 1
             && effects == [Edit(RoleText(r), Some(RoleKeyboard)), AnswerCallback]
    }

    method DeleteValue(cb: Callback) returns (effects: seq<Effect>)
      requires Valid()
      modifies this
      ensures Valid() && DeleteDone(cb, effects)
    {
      var admitted, denial := gate.Check(cb.messageAuthor);
      if !admitted {
        return denial;
      }
      awaiting := awaiting - {cb.fromUser};
      var userData := Current(cb.fromUser);
      if userData.systemMessage == "" {
        return [AnswerCallback];
      }
      var r := userData.(systemMessage := "");
      live := live[cb.fromUser := r];
      saves := saves + 1;
      effects := [Edit(RoleText(r), Some(RoleKeyboard)), AnswerCallback];
    }

    /** `back_menu`: the state cleared and the summary shown; this handler
        does not acknowledge the press. */
    twostate predicate BackDone(cb: Callback, effects: seq<Effect>)
      reads this
    {
      if !old(Admits(cb.messageAuthor)) then Refused(cb.messageAuthor, effects)
      else
        && live == old(live) && awaiting == old(awaiting) - {cb.fromUser}
        && sysMassage == old(sysMassage) && saves == old(saves)
        && effects == [Edit(InfoMenu(old(Current(cb.fromUser))), Some(MainKeyboard))]
    }

    method BackToMenu(cb: Callback) returns (effects: seq<Effect>)
      requires Valid()
      modifies this
      ensures Valid() && BackDone(cb, effects)
    {
      var admitted, denial := gate.Check(cb.messageAuthor);
      if !admitted {
        return denial;
      }
      awaiting := awaiting - {cb.fromUser};
      effects := [Edit(InfoMenu(Current(cb.fromUser)), Some(MainKeyboard))];
    }

    /** `info`: the state cleared and the information screen. */
    twostate predicate InfoDone(cb: Callback, effects: seq<Effect>)
      reads this
    {
      if !old(Admits(cb.messageAuthor)) then Refused(cb.messageAuthor, effects)
      else
        && live == old(live) && awaiting == old(awaiting) - {cb.fromUser}
        && sysMassage == old(sysMassage) && saves == old(saves)
        && effects == [Edit(InfoText(startedAt, cb.fromUser, old(Current(cb.fromUser))), None), AnswerCallback]
    }

    method ShowInfo(cb: Callback) returns (effects: seq<Effect>)
      requires Valid()
      modifies this
      ensures Valid() && InfoDone(cb, effects)
    {
      var admitted, denial := gate.Check(cb.messageAuthor);
      if !admitted {
        return denial;
      }
      awaiting := awaiting - {cb.fromUser};
      effects := [Edit(InfoText(startedAt, cb.fromUser, Current(cb.fromUser)), None), AnswerCallback];
    }

    /** A button press, handed to the handler its data selects; data no
        handler is registered for changes nothing. Every handler asks the
        gate about the author of the keyboard's message, so while that
        author is not admitted every button is refused, whoever pressed it.
        Only the presser's record and awaiting state can change, only
        `change_value` enters the awaiting-role state, and the shared role
        variable is never touched. */
    method HandleCallback(cb: Callback) returns (effects: seq<Effect>)
      requires Valid()
      modifies this
      ensures Valid()
      ensures match ActionOf(cb.data)
        case None => unchanged(this) && effects == []
        case Some(Enter(s)) => EnterDone(cb, s, effects)
        case Some(Set(st)) => SettingDone(cb, st, effects)
        case Some(ShowContext) => HistoryShown(cb, effects)
        case Some(ClearContext) => ClearDone(cb, effects)
        case Some(ChangeRole) => ChangeValueDone(cb, effects)
        case Some(DeleteRole) => DeleteDone(cb, effects)
        case Some(BackMenu) => BackDone(cb, effects)
        case Some(Info) => InfoDone(cb, effects)
      ensures ActionOf(cb.data).Some? && !old(Admits(cb.messageAuthor)) ==>
        unchanged(this) && effects == [Answer(DenialText(cb.messageAuthor))]
      ensures sysMassage == old(sysMassage)
      ensures live - {cb.fromUser} == old(live) - {cb.fromUser}
      ensures awaiting - {cb.fromUser} == old(awaiting) - {cb.fromUser}
      ensures awaiting <= old(awaiting) + {cb.fromUser}
      ensures cb.fromUser !in old(awaiting) && cb.fromUser in awaiting ==> ActionOf(cb.data) == Some(ChangeRole)
    {
      match ActionOf(cb.data)
      case None => effects := [];
      case Some(Enter(s)) => effects := EnterScreen(cb, s);
      case Some(Set(st)) => effects := ChangeSetting(cb, st);
      case Some(ShowContext) => effects := ShowHistory(cb);
      case Some(ClearContext) => effects := ClearHistory(cb);
      case Some(ChangeRole) => effects := ChangeValue(cb);
      case Some(DeleteRole) => effects := DeleteValue(cb);
      case Some(BackMenu) => effects := BackToMenu(cb);
      case Some(Info) => effects := ShowInfo(cb);
    }
  }
}
