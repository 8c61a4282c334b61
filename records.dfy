/** The SDK records the scripts read, reduced to the attributes they touch. */
module Records {
  import opened Outcomes
  import opened PyText

  /** A chat session as `list_chat_sessions()` lists it. */
  datatype Session = Session(id: string, name: Attr, createdAt: Attr)

  /** A deployment conversation as `list_deployment_conversations()` lists it. */
  datatype Conversation = Conversation(id: string, name: Attr, createdAt: Attr)

  /** What `export_chat_session` returned: `bytes` (carrying the text that
      `decode("utf-8", errors="ignore")` makes of them), a `str`, or any other object. */
  datatype ExportBody = Bytes(decoded: string) | Str(text: string) | OtherBody

  /** One item of a list-valued message text: a dict (whose `"text"` key may be missing,
      None or a string) or any other object with its `str()`. */
  datatype TextItem = DictItem(text: Attr) | OtherItem(shown: string)

  /** The `text` attribute of a message: missing, a list, or any other value given by
      its truthiness and its `str()` (a string is truthy iff it is non-empty). */
  datatype TextValue =
    | NoTextAttr
    | TextList(items: seq<TextItem>, shown: string)
    | TextScalar(truthy: bool, shown: string)

  /** A chat message; `shown` is `str(m)` of the message object itself. */
  datatype Message = Message(role: Attr, text: TextValue, shown: string)

  /** The `chat_history` attribute of a full session from `get_chat_session`. */
  datatype History = NoHistoryAttr | NullHistory | Messages(msgs: seq<Message>)

  /** The SDK's answers for one listed chat session: the clock reading `str(time.time())`
      the script would take, `to_dict()` (already serialised by `json.dump`),
      `export_chat_session` and `get_chat_session`. */
  datatype SessionCalls = SessionCalls(
    session: Session,
    clock: string,
    toDict: Outcome<string>,
    exported: Outcome<ExportBody>,
    full: Outcome<History>)

  /** The SDK's answers for one listed deployment conversation: the clock reading and
      `export_deployment_conversation`, whose `conversation_export_html` may be None. */
  datatype ConvoCalls = ConvoCalls(convo: Conversation, clock: string, exported: Outcome<Option<string>>)

  /** A listed deployment with the answer of `list_deployment_conversations` for it. */
  datatype DeploymentCalls = DeploymentCalls(id: string, name: Attr, convos: Outcome<seq<ConvoCalls>>)
}
