/** The frames exchanged over the review socket, as records: the outgoing
    review request and the already-parsed incoming status frame. */
module Protocol {
  import opened Wrappers

  /** A `status` value none of the handler's branches tests for. */
  type OtherStatus = s: string | s != "PENDING" && s != "DELTA" && s != "ERROR" && s != "END" && s != "COMPLETED"
    witness ""

  /** One inbound frame, by its `status` field.  A field the frame lacks is
      `None`; `Unknown` stands for every other `status` value. */
  datatype Event =
    | Pending
    | Delta(text: Option<string>)
    | Error(message: Option<string>)
    | End
    | Completed(review: string)
    | Unknown(status: OtherStatus)

  /** The outbound frame `{code, language, question}`. */
  datatype Request = Request(code: string, language: string, question: string)

  /** The fixed instruction sent with every submission. */
  const ReviewQuestion: string := "このコードをレビューして、エラーの根本原因と改善点を初心者向けに解説してください。"
}
