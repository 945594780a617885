/** The settings menu: the callback data of its buttons, what each setting
    button does to the session record, and the texts its screens show.
    Every setting button is a no-op (the press is only acknowledged) when
    the record already has the value the button sets. */
module Menu {

  import opened Wrappers
  import opened Lines
  import opened Decimal
  import opened UserData
  import opened Transport

  datatype Screen = ModelScreen | PictureScreen | ContextScreen | VoiceScreen | RoleScreen

  /** What a setting button asks for. */
  datatype Setting =
    | SetModel(choice: ModelChoice)
    | SetGrade(grade: string)
    | SetSize(size: string)
    | SetVoice(on: bool)

  /** What a button press asks for. */
  datatype Action =
    | Enter(screen: Screen)        // model_choice, pic_setup, context_work, voice_answer_work, system_value_work
    | Set(setting: Setting)        // the model, quality, size and voice buttons
    | ShowContext                  // context
    | ClearContext                 // clear
    | ChangeRole                   // change_value
    | DeleteRole                   // delete_value
    | BackMenu                     // back_menu
    | Info                         // info

  /** The actions the keyboards offer. */
  predicate Offered(a: Action) {
    match a
    case Set(SetGrade(g)) => g == "standard" || g == "hd"
    case Set(SetSize(z)) => z == "1024x1024" || z == "1024x1792" || z == "1792x1024"
    case _ => true
  }

  /** The callback data of a button. */
  function DataOf(a: Action): string
    requires Offered(a)
  {
    match a
    case Enter(ModelScreen) => "model_choice"
    case Enter(PictureScreen) => "pic_setup"
    case Enter(ContextScreen) => "context_work"
    case Enter(VoiceScreen) => "voice_answer_work"
    case Enter(RoleScreen) => "system_value_work"
    case Set(SetModel(Gpt4oMini)) => "gpt_4o_mini"
    case Set(SetModel(Gpt4o)) => "gpt_4_o"
    case Set(SetModel(O1Mini)) => "gpt_o1_mini"
    case Set(SetModel(O1Preview)) => "gpt_o1_preview"
    case Set(SetModel(DallE3)) => "dall_e_3"
    case Set(SetGrade(g)) => if g == "standard" then "set_sd" else "set_hd"
    case Set(SetSize(z)) =>
      if z == "1024x1024" then "set_1024x1024"
      else if z == "1024x1792" then "set_1024x1792"
      else "set_1792x1024"
    case Set(SetVoice(on)) => if on then "voice_answer_add" else "voice_answer_del"
    case ShowContext => "context"
    case ClearContext => "clear"
    case ChangeRole => "change_value"
    case DeleteRole => "delete_value"
    case BackMenu => "back_menu"
    case Info => "info"
  }

  /** The handler a callback's data selects (`F.data == ...`); `None` for
      data no handler is registered for. */
  function ActionOf(data: string): (r: Option<Action>)
    ensures r.Some? ==> Offered(r.value) && DataOf(r.value) == data
  {
    if data == "model_choice" then Some(Enter(ModelScreen))
    else if data == "pic_setup" then Some(Enter(PictureScreen))
    else if data == "context_work" then Some(Enter(ContextScreen))
    else if data == "voice_answer_work" then Some(Enter(VoiceScreen))
    else if data == "system_value_work" then Some(Enter(RoleScreen))
    else if data == "gpt_4o_mini" then Some(Set(SetModel(Gpt4oMini)))
    else if data == "gpt_4_o" then Some(Set(SetModel(Gpt4o)))
    else if data == "gpt_o1_mini" then Some(Set(SetModel(O1Mini)))
    else if data == "gpt_o1_preview" then Some(Set(SetModel(O1Preview)))
    else if data == "dall_e_3" then Some(Set(SetModel(DallE3)))
    else if data == "set_sd" then Some(Set(SetGrade("standard")))
    else if data == "set_hd" then Some(Set(SetGrade("hd")))
    else if data == "set_1024x1024" then Some(Set(SetSize("1024x1024")))
    else if data == "set_1024x1792" then Some(Set(SetSize("1024x1792")))
    else if data == "set_1792x1024" then Some(Set(SetSize("1792x1024")))
    else if data == "voice_answer_add" then Some(Set(SetVoice(true)))
    else if data == "voice_answer_del" then Some(Set(SetVoice(false)))
    else if data == "context" then Some(ShowContext)
    else if data == "clear" then Some(ClearContext)
    else if data == "change_value" then Some(ChangeRole)
    else if data == "delete_value" then Some(DeleteRole)
    else if data == "back_menu" then Some(BackMenu)
    else if data == "info" then Some(Info)
    else None
  }

  /** Every button's data selects that button's handler: with the
      postcondition of `ActionOf`, data and actions are in one-to-one
      correspondence. */
  lemma ActionOfDataOf(a: Action)
    requires Offered(a)
    ensures ActionOf(DataOf(a)) == Some(a)
  {
    match a
    case Enter(s) => ScreenDataSelects(s);
    case Set(SetModel(m)) => ModelDataSelects(m);
    case Set(SetGrade(g)) => GradeDataSelects(g);
    case Set(SetSize(z)) => SizeDataSelects(z);
    case Set(SetVoice(on)) => VoiceDataSelects(on);
    case ShowContext => ContextDataSelects(a);
    case ClearContext => ContextDataSelects(a);
    case ChangeRole => ChangeRoleDataSelects();
    case DeleteRole => DeleteRoleDataSelects();
    case BackMenu => BackDataSelects();
    case Info => InfoDataSelects();
  }

  lemma ScreenDataSelects(s: Screen)
    ensures ActionOf(DataOf(Enter(s))) == Some(Enter(s))
  {
  }

  lemma ModelDataSelects(m: ModelChoice)
    ensures ActionOf(DataOf(Set(SetModel(m)))) == Some(Set(SetModel(m)))
  {
  }

  lemma GradeDataSelects(g: string)
    requires g == "standard" || g == "hd"
    ensures ActionOf(DataOf(Set(SetGrade(g)))) == Some(Set(SetGrade(g)))
  {
  }

  lemma SizeDataSelects(z: string)
    requires z == "1024x1024" || z == "1024x1792" || z == "1792x1024"
    ensures ActionOf(DataOf(Set(SetSize(z)))) == Some(Set(SetSize(z)))
  {
  }

  lemma VoiceDataSelects(on: bool)
    ensures ActionOf(DataOf(Set(SetVoice(on)))) == Some(Set(SetVoice(on)))
  {
  }

  lemma ContextDataSelects(a: Action)
    requires a.ShowContext? || a.ClearContext?
    ensures ActionOf(DataOf(a)) == Some(a)
  {
  }

  lemma ChangeRoleDataSelects()
    ensures ActionOf(DataOf(ChangeRole)) == Some(ChangeRole)
  {
  }

  lemma DeleteRoleDataSelects()
    ensures ActionOf(DataOf(DeleteRole)) == Some(DeleteRole)
  {
  }

  lemma BackDataSelects()
    ensures ActionOf(DataOf(BackMenu)) == Some(BackMenu)
  {
  }

  lemma InfoDataSelects()
    ensures ActionOf(DataOf(Info)) == Some(Info)
  {
  }

  /** The record already has what the setting sets. */
  predicate InEffect(st: Setting, r: Record) {
    match st
    case SetModel(m) => r.model == ModelName(m)
    case SetGrade(g) => r.picGrade == g
    case SetSize(z) => r.picSize == z
    case SetVoice(on) => r.voiceAnswer == on
  }

  /** A setting button: `None` when it is a no-op, otherwise the changed
      record. A model comes with its display name and answer label from
      the table; a text model also resets the history budget to 128000,
      while DALL·E 3 leaves the budget alone. */
  function Apply(st: Setting, r: Record): Option<Record> {
    if InEffect(st, r) then None
    else
      match st
      case SetModel(m) =>
        Some(r.(model := ModelName(m), modelMessageInfo := DisplayName(m), modelMessageChat := ChatLabel(m),
                maxOut := if m == DallE3 then r.maxOut else 128000))
      case SetGrade(g) => Some(r.(picGrade := g))
      case SetSize(z) => Some(r.(picSize := z))
      case SetVoice(on) => Some(r.(voiceAnswer := on))
  }

  /** A setting is a no-op exactly when it is already in effect; otherwise
      it puts itself in effect, so pressing the same button twice changes
      nothing the second time. */
  lemma ApplyPutsInEffect(st: Setting, r: Record)
    ensures Apply(st, r).None? <==> InEffect(st, r)
    ensures Apply(st, r).Some? ==> InEffect(st, Apply(st, r).value)
    ensures Apply(st, r).Some? ==> Apply(st, Apply(st, r).value).None?
  {
  }

  /** A setting touches only its own fields: the history, the counter and
      the role are never changed, the budget only by a switch to a text
      model, and a model switch leaves the record consistent. */
  lemma ApplyFrames(st: Setting, r: Record)
    ensures Apply(st, r).Some? ==>
      var r' := Apply(st, r).value;
      && r'.messages == r.messages && r'.countMessages == r.countMessages
      && r'.systemMessage == r.systemMessage
      && (r'.maxOut != r.maxOut ==> st.SetModel? && st.choice != DallE3 && r'.maxOut == 128000)
      && (st.SetModel? ==> Consistent(r') && ChoiceOf(r'.model) == Some(st.choice))
      && (!st.SetModel? ==>
            r'.model == r.model && r'.modelMessageInfo == r.modelMessageInfo && r'.modelMessageChat == r.modelMessageChat)
      && (Consistent(r) ==> Consistent(r'))
  {
    if st.SetModel? {
      ChoiceOfModelName(st.choice);
    }
  }

  // ---------------------------------------------------------------------
  // Screen texts.

  /** A screen: its text and its keyboard. */
  datatype View = View(text: string, keyboard: Keyboard)

  function RoleShown(r: Record): string {
    if r.systemMessage == "" then "Undefined" else r.systemMessage
  }

  function RoleText(r: Record): string {
    RolePrefix + RoleShown(r)
  }

  function ModelText(r: Record): string {
    "<i>Model:</i> " + r.modelMessageInfo + " "
  }

  function PictureText(r: Record): string {
    r.picGrade + " : " + r.picSize + " "
  }

  /** The screen a menu button opens. */
  function ScreenView(s: Screen, r: Record): View {
    match s
    case ModelScreen => View(ModelText(r), ModelKeyboard)
    case PictureScreen => View(PictureText(r), PictureKeyboard)
    case ContextScreen => View("<i>Messages:</i> " + NatToString(r.countMessages) + " ", ContextKeyboard)
    case VoiceScreen => View("<i>Audio:</i> " + (if r.voiceAnswer then "on" else "off"), VoiceKeyboard)
    case RoleScreen => View(RoleText(r), RoleKeyboard)
  }

  /** The screen a setting button leaves behind once it changed `r'`. The
      voice buttons word it differently: "enabled" after switching on,
      "off" after switching off. */
  function SettingView(st: Setting, r': Record): View {
    match st
    case SetModel(_) => View(ModelText(r'), ModelKeyboard)
    case SetGrade(_) => View(PictureText(r'), PictureKeyboard)
    case SetSize(_) => View(PictureText(r'), PictureKeyboard)
    case SetVoice(on) => View("<i>Audio:</i> " + (if on then "enabled" else "off"), VoiceKeyboard)
  }

  const RolePrefix := "<i>Role:</i> "

  /** What a reader of the role screen learns about the role: the text
      after the prefix, with "Undefined" read as no role. */
  function ReadRole(text: string): Option<string> {
    match Between(text, RolePrefix, "")
    case None => None
    case Some(shown) => Some(if shown == "Undefined" then "" else shown)
  }

  /** The role as the role screen can tell it: a role that is literally
      "Undefined" cannot be told from no role. */
  function Discernible(role: string): string {
    if role == "Undefined" then "" else role
  }

  /** The role screen reads back as the role it was drawn from, except
      that a role "Undefined" reads as no role. */
  lemma RoleTextReadsBack(r: Record)
    ensures ReadRole(RoleText(r)) == Some(Discernible(r.systemMessage))
  {
    assert RoleText(r) == RolePrefix + RoleShown(r) + "";
    BetweenRoundTrip(RolePrefix, RoleShown(r), "");
  }

  /** Two records give the same role screen exactly when their roles are
      the same once "Undefined" is read as no role; in particular the role
      "Undefined" shows the same screen as no role at all. */
  lemma RoleTextSameScreen(r: Record, s: Record)
    ensures RoleText(r) == RoleText(s) <==> Discernible(r.systemMessage) == Discernible(s.systemMessage)
    ensures RoleText(r.(systemMessage := "Undefined")) == RoleText(r.(systemMessage := ""))
  {
    RoleTextReadsBack(r);
    RoleTextReadsBack(s);
  }

  const UserIdLabel := "<i>User ID:</i> <b>"

  /** The nine lines of the information screen. */
  function InfoLines(startedAt: string, userId: int, r: Record): seq<string> {
    [
      "<i>Date:</i> <b>" + startedAt + "</b>",
      UserIdLabel + IntToString(userId) + "</b>",
      "<i>Model:</i> <b>" + r.modelMessageInfo + "</b>",
      "<i>Image</i>",
      "<i>Quality:</i> <b>" + r.picGrade + "</b>",
      "<i>Size:</i> <b>" + r.picSize + "</b>",
      "<i>Messages:</i> <b>" + NatToString(r.countMessages) + "</b>",
      "<i>Audios:</i> <b>" + (if r.voiceAnswer then "on" else "off") + "</b>",
      "<i>Role:</i> <b>" + RoleShown(r) + "</b>"
    ]
  }

  /** The information screen (`process_callback_info`); `startedAt` is the
      start-up time the bot formats once. */
  function InfoText(startedAt: string, userId: int, r: Record): string {
    Join(InfoLines(startedAt, userId, r))
  }

  /** The user ID the second line of a text names. */
  function InfoUserId(text: string): Option<int> {
    var lines := Split(text);
    if |lines| < 2 then None
    else
      match Between(lines[1], UserIdLabel, "</b>")
      case None => None
      case Some(digits) => ParseInt(digits)
  }

  /** The information screen names the user who pressed the button, whatever
      the role holds, as long as the start-up time is one line. */
  lemma InfoNamesUser(startedAt: string, userId: int, r: Record)
    requires '\n' !in startedAt
    ensures InfoUserId(InfoText(startedAt, userId, r)) == Some(userId)
  {
    var ls := InfoLines(startedAt, userId, r);
    var digits := IntToString(userId);
    IntToStringOneLine(userId);
    assert '\n' !in ls[0] && '\n' !in ls[1];
    assert Join(ls) == ls[0] + "\n" + Join(ls[1..]);
    assert Join(ls[1..]) == ls[1] + "\n" + Join(ls[2..]) by {
      assert ls[1..][1..] == ls[2..];
    }
    SplitCons(ls[0], Join(ls[1..]));
    SplitCons(ls[1], Join(ls[2..]));
    BetweenRoundTrip(UserIdLabel, digits, "</b>");
    ParseIntToString(userId);
  }

  // ---------------------------------------------------------------------
  // The context as text.

  /** One history entry as the context shows it: the role, a colon, a
      break, the content. */
  function Entry(m: Message): string {
    RoleName(m.role) + ":\n" + m.content
  }

  /** `generate_history`: the entries separated by blank lines. */
  function GenerateHistory(ms: seq<Message>): string
    decreases |ms|
  {
    if ms == [] then ""
    else if |ms| == 1 then Entry(ms[0])
    else Entry(ms[0]) + "\n\n" + GenerateHistory(ms[1..])
  }

  /** The context text is empty exactly when there is no history: every
      entry shows at least its role. */
  lemma GenerateHistoryEmpty(ms: seq<Message>)
    ensures GenerateHistory(ms) == "" <==> ms == []
  {
    if ms != [] {
      assert |Entry(ms[0])| >= 2;
      assert |GenerateHistory(ms)| >= |Entry(ms[0])|;
    }
  }

  /** A further turn adds its entry after a blank line. */
  lemma {:induction false} GenerateHistorySnoc(ms: seq<Message>, m: Message)
    ensures GenerateHistory(ms + [m]) ==
      if ms == [] then Entry(m) else GenerateHistory(ms) + "\n\n" + Entry(m)
    decreases |ms|
  {
    if |ms| == 1 {
      assert (ms + [m])[1..] == [m];
    } else if |ms| > 1 {
      assert (ms + [m])[1..] == ms[1..] + [m];
      GenerateHistorySnoc(ms[1..], m);
    }
  }
}
