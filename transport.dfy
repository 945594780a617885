/** What the handlers ask of the chat transport and of the remote models,
    recorded as effects in the order they are issued. Rendering (HTML,
    Markdown, bold entities) is not interpreted: an effect names the text
    and the mode it is sent in. */
module Transport {

  import opened Wrappers
  import opened UserData

  /** The inline keyboards of the menu screens. */
  datatype Keyboard =
    | MainKeyboard
    | ModelKeyboard
    | PictureKeyboard
    | ContextKeyboard
    | VoiceKeyboard
    | RoleKeyboard

  /** The fixed texts of the bot, which the model does not spell out. */
  datatype Canned =
    | StartMessage      // the greeting of `/start`
    | HelpMessage       // the command list of `/help`
    | RolePrompt        // the request to enter a role
    | HoldOn            // "request is being processed"

  /** One send of a model's answer. */
  datatype Send =
    | MarkdownAnswer(text: string)          // one chunk of the long Markdown path
    | MarkdownReply(text: string)           // the short Markdown path, as a reply
    | PlainAnswer(text: string)             // one chunk of the long plain path
    | BoldReply(heading: string, body: string)  // the short plain path: bold heading, then body
    | Audio(text: string)                   // speech synthesised from `text`, sent as audio

  datatype Effect =
    | Answer(text: string)                           // a new message in the chat
    | Notice(canned: Canned)                         // a new message with a fixed text
    | EditNotice(canned: Canned)                     // the callback's message rewritten to a fixed text
    | AnswerMenu(text: string, keyboard: Keyboard)   // a new message with a keyboard
    | Reply(text: string)                            // a reply to the user's message
    | ErrorReply                                     // the reply "An error occurred: ..."
    | Edit(text: string, markup: Option<Keyboard>)   // the callback's message rewritten
    | AnswerCallback                                 // the button press acknowledged
    | SendText(text: string)                         // one history chunk sent to the user
    | SendContextMenu                                // "Actions with context:" with its keyboard
    | DeleteTemporary                                // the "request is being processed" note removed
    | Typing                                         // the "typing" chat action
    | UploadingPhoto                                 // the "upload_photo" chat action
    | ChatRequest(model: string, messages: seq<Message>)  // the chat-completion call
    | ImageRequest(prompt: string, size: string, quality: string)  // the image-generation call
    | VisionRequest(prompt: string)                  // the gpt-4o call on a photo and its question
    | SendPhoto(url: string)                         // the generated picture
    | Delivered(send: Send)                          // one send of an answer that went through
}
