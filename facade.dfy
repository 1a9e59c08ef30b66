/** The submission facade: what `handleReview` does to the chat, the input
    box and the socket. */
module Facade {
  import opened Wrappers
  import opened JsText
  import opened Protocol
  import opened Messages
  import opened Reconciler

  const DisconnectedText: string := "🔌 接続が切れています。自動で再接続中です。少し待ってからもう一度お試しください。"

  /** The language selected before the user picks one. */
  const DefaultLanguage: string := "React (JavaScript)"

  /** The chat after a submission, the input box's text, and the frame sent, if any. */
  datatype Submission = Submission(chat: Chat, code: string, sent: Option<Request>)

  /** The user's message for a submission. */
  function UserMessage(code: string, language: string): Message {
    Message(code, User, Some(language), Unmarked)
  }

  /** One press of the review button with input `code` and `language`,
      `isOpen` telling whether the socket is open. */
  function Submit(chat: Chat, code: string, language: string, isOpen: bool): (r: Submission) {
    if Trim(code) == "" || !isOpen then
      Submission(if !isOpen then Chat(chat.messages + [AiText(DisconnectedText)], chat.isLoading) else chat, code, None)
    else
      Submission(Chat(chat.messages + [UserMessage(code, language)], true), "", Some(Request(code, language, ReviewQuestion)))
  }

  /** Not open: one disconnected notice, nothing sent, input kept.  Open and
      blank: nothing changes.  Otherwise the user message is shown, the input
      cleared, busy set and the request sent. */
  lemma SubmitCases(chat: Chat, code: string, language: string, isOpen: bool)
    ensures var r := Submit(chat, code, language, isOpen);
      (!isOpen ==>
        r == Submission(Chat(chat.messages + [AiText(DisconnectedText)], chat.isLoading), code, None)) &&
      (isOpen && IsBlank(code) ==> r == Submission(chat, code, None)) &&
      (isOpen && !IsBlank(code) ==>
        r.chat == Chat(chat.messages + [UserMessage(code, language)], true) &&
        r.code == "" && r.sent == Some(Request(code, language, ReviewQuestion)))
  {
    TrimEmptyIffBlank(code);
  }

  /** A frame is sent exactly when the socket is open and the input is not
      blank; then the request carries the text and language of the user
      message shown, and the submission never touches the stream marker. */
  lemma SentIffShown(chat: Chat, code: string, language: string, isOpen: bool)
    ensures var r := Submit(chat, code, language, isOpen);
      (r.sent.Some? <==> isOpen && !IsBlank(code)) &&
      (r.sent.Some? ==>
        r.chat.messages[|chat.messages|].text == r.sent.value.code &&
        r.chat.messages[|chat.messages|].language == Some(r.sent.value.language)) &&
      StreamCount(r.chat.messages) == StreamCount(chat.messages)
  {
    SubmitCases(chat, code, language, isOpen);
    StreamCountConcat(chat.messages, [AiText(DisconnectedText)]);
    StreamCountConcat(chat.messages, [UserMessage(code, language)]);
  }

  /** While the socket is not open, every submission, blank or not, adds one
      disconnected notice and no user message. */
  lemma NotOpenAddsNotice(chat: Chat, code: string, language: string)
    ensures var r := Submit(chat, code, language, false);
      |r.chat.messages| == |chat.messages| + 1 &&
      r.chat.messages[|chat.messages|] == AiText(DisconnectedText) &&
      (forall i :: |chat.messages| <= i < |r.chat.messages| ==> r.chat.messages[i].sender == Ai) &&
      r.sent.None? && r.chat.isLoading == chat.isLoading
  {
    SubmitCases(chat, code, language, false);
  }
}
