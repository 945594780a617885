/** The per-user record the handlers load, change and save, and the fixed
    table of models the settings menu offers. The record's storage (its
    loading and saving) is not part of this model: the handlers see it as a
    value they read and replace. */
module UserData {

  import opened Wrappers

  datatype Role = User | Assistant | System

  /** The role tag as the chat history and the model request spell it. */
  function RoleName(r: Role): string {
    match r
    case User => "user"
    case Assistant => "assistant"
    case System => "system"
  }

  /** One entry of the chat history: `{"role": ..., "content": ...}`. */
  datatype Message = Message(role: Role, content: string)

  /** The session record: which model answers, how it is labelled, how many
      characters of history go with a request, the history itself, the
      counter of completed exchanges, and the voice, role and picture
      settings. */
  datatype Record = Record(
    model: string,
    modelMessageInfo: string,
    modelMessageChat: string,
    maxOut: int,
    messages: seq<Message>,
    countMessages: nat,
    voiceAnswer: bool,
    systemMessage: string,
    picGrade: string,
    picSize: string)

  /** The five models of the selection screen. */
  datatype ModelChoice = Gpt4oMini | Gpt4o | O1Mini | O1Preview | DallE3

  /** The model identifier sent to the remote API. */
  function ModelName(m: ModelChoice): string {
    match m
    case Gpt4oMini => "gpt-4o-mini"
    case Gpt4o => "gpt-4o"
    case O1Mini => "o1-mini"
    case O1Preview => "o1-preview"
    case DallE3 => "dall-e-3"
  }

  /** The name shown in menus (`model_message_info`). */
  function DisplayName(m: ModelChoice): string {
    match m
    case Gpt4oMini => "4o mini"
    case Gpt4o => "4o"
    case O1Mini => "o1 mini"
    case O1Preview => "o1"
    case DallE3 => "DALL·E 3"
  }

  /** The label put in front of every answer (`model_message_chat`). */
  function ChatLabel(m: ModelChoice): string {
    DisplayName(m) + ":\n\n"
  }

  /** The model whose identifier is `model`, if it is one of the table's. */
  function ChoiceOf(model: string): (r: Option<ModelChoice>)
    ensures r.Some? ==> ModelName(r.value) == model
  {
    if model == "gpt-4o-mini" then Some(Gpt4oMini)
    else if model == "gpt-4o" then Some(Gpt4o)
    else if model == "o1-mini" then Some(O1Mini)
    else if model == "o1-preview" then Some(O1Preview)
    else if model == "dall-e-3" then Some(DallE3)
    else None
  }

  /** The table's identifiers are distinct: each names exactly one model. */
  lemma ChoiceOfModelName(m: ModelChoice)
    ensures ChoiceOf(ModelName(m)) == Some(m)
  {
  }

  /** The four models answered through the chat-completion call. */
  predicate IsTextModel(model: string) {
    model == "gpt-4o-mini" || model == "gpt-4o" || model == "o1-mini" || model == "o1-preview"
  }

  /** The two models that receive the role as a leading system entry. */
  predicate TakesSystemEntry(model: string) {
    model == "gpt-4o-mini" || model == "gpt-4o"
  }

  /** The display name and the answer label belong to the selected model. */
  predicate Consistent(r: Record) {
    match ChoiceOf(r.model)
    case None => false
    case Some(m) => r.modelMessageInfo == DisplayName(m) && r.modelMessageChat == ChatLabel(m)
  }

  /** The history holds only user and assistant turns: the role is a
      transient entry of each request, never a stored one. */
  predicate NoSystemEntries(ms: seq<Message>) {
    forall i :: 0 <= i < |ms| ==> ms[i].role != System
  }

  /** What `/start` writes into every field. */
  const StartRecord := Record(
    "gpt-4o-mini", "4o mini", "4o mini:\n\n", 128000, [], 0,
    false, "", "standard", "1024x1024")

  lemma StartRecordConsistent()
    ensures Consistent(StartRecord) && NoSystemEntries(StartRecord.messages)
    ensures StartRecord.model == ModelName(Gpt4oMini)
  {
  }
}
