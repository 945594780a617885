/** The main-menu summary of a session (`info_menu_func`): seven lines
    giving the message counter, the model's display name, whether voice
    answers are on, whether a role is set, and the picture quality and size.
    A reader for that text shows what the summary conveys. */
module Summary {

  import opened Wrappers
  import opened Lines
  import opened Decimal
  import opened UserData

  const MessagesLabel := "<i>Messages:</i> <b>"
  const ModelLabel := "<i>Model:</i> <b>"
  const AudioLabel := "<i>Audio:</i> <b>"
  const RoleLabel := "<i>Role:</i> <b>"
  const PictureLine := "<i>Picture</i>"
  const QualityLabel := "<i>Quality:</i> <b>"
  const SizeLabel := "<i>Size:</i> <b>"
  const Close := "</b>"

  /** `info_menu_func(user_id)` for the session `s`: its seven lines joined
      by line breaks. */
  function InfoMenu(s: Record): string {
    Join(InfoMenuLines(s))
  }

  function InfoMenuLines(s: Record): seq<string> {
    var voice := if s.voiceAnswer then "Enabled" else "Disabled";
    var role := if s.systemMessage != "" then "Set" else "Absent";
    [
      MessagesLabel + NatToString(s.countMessages) + Close,
      ModelLabel + s.modelMessageInfo + Close,
      AudioLabel + voice + Close,
      RoleLabel + role + Close,
      PictureLine,
      QualityLabel + s.picGrade + Close,
      SizeLabel + s.picSize + Close
    ]
  }

  /** What a reader of the summary learns about the session. */
  datatype Facts = Facts(
    count: nat, modelInfo: string, voiceOn: bool, roleSet: bool, grade: string, size: string)

  function FactsOf(s: Record): Facts {
    Facts(s.countMessages, s.modelMessageInfo, s.voiceAnswer, s.systemMessage != "", s.picGrade, s.picSize)
  }

  function ReadFlag(word: Option<string>, yes: string, no: string): Option<bool> {
    if word == Some(yes) then Some(true) else if word == Some(no) then Some(false) else None
  }

  /** Reads a summary back; `None` if the text is not shaped like one. */
  function ReadInfoMenu(text: string): Option<Facts> {
    var lines := Split(text);
    if |lines| != 7 || lines[4] != PictureLine then None
    else
      var count := Between(lines[0], MessagesLabel, Close);
      var model := Between(lines[1], ModelLabel, Close);
      var voice := ReadFlag(Between(lines[2], AudioLabel, Close), "Enabled", "Disabled");
      var role := ReadFlag(Between(lines[3], RoleLabel, Close), "Set", "Absent");
      var grade := Between(lines[5], QualityLabel, Close);
      var size := Between(lines[6], SizeLabel, Close);
      if count.None? || model.None? || voice.None? || role.None? || grade.None? || size.None? then None
      else
        match ParseNat(count.value)
        case None => None
        case Some(n) => Some(Facts(n, model.value, voice.value, role.value, grade.value, size.value))
  }

  /** The summary states the counter, the display name, the quality and the
      size verbatim, "Enabled" exactly when voice answers are on and "Set"
      exactly when a role is set — provided the display name, quality and
      size are single-line texts, as every value the menus write is. */
  lemma InfoMenuReadsBack(s: Record)
    requires '\n' !in s.modelMessageInfo && '\n' !in s.picGrade && '\n' !in s.picSize
    ensures ReadInfoMenu(InfoMenu(s)) == Some(FactsOf(s))
  {
    var voice := if s.voiceAnswer then "Enabled" else "Disabled";
    var role := if s.systemMessage != "" then "Set" else "Absent";
    InfoMenuSplit(s);
    BetweenRoundTrip(MessagesLabel, NatToString(s.countMessages), Close);
    BetweenRoundTrip(ModelLabel, s.modelMessageInfo, Close);
    BetweenRoundTrip(AudioLabel, voice, Close);
    BetweenRoundTrip(RoleLabel, role, Close);
    BetweenRoundTrip(QualityLabel, s.picGrade, Close);
    BetweenRoundTrip(SizeLabel, s.picSize, Close);
    ParseNatToString(s.countMessages);
  }

  /** The summary's lines are single lines, so splitting it gives them back. */
  lemma InfoMenuSplit(s: Record)
    requires '\n' !in s.modelMessageInfo && '\n' !in s.picGrade && '\n' !in s.picSize
    ensures Split(InfoMenu(s)) == InfoMenuLines(s)
  {
    NatToStringOneLine(s.countMessages);
    var ls := InfoMenuLines(s);
    assert forall i :: 0 <= i < 7 ==> '\n' !in ls[i];
    SplitJoin(ls);
  }
}
