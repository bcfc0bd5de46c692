/** The two Messenger Platform message shapes the analytics client consumes,
    given as readers: a webhook callback (`{entry: [{messaging: [...]}, ...]}`)
    read into the list of messaging events it carries, and a Send API request
    and response read into the message that was sent and to whom. The
    translators in module Translation are proved against these readers. */
module Messenger {
  import opened JsValues

  /** The `messaging` list of one webhook entry, if the entry has one. */
  function MessagingOf(entry: Value): Option<seq<Value>> {
    if entry.Obj? && "messaging" in entry.fields && entry.fields["messaging"].Arr?
    then Some(entry.fields["messaging"].items)
    else None
  }

  predicate IsEntry(entry: Value) {
    MessagingOf(entry).Some?
  }

  /** The messaging events of a list of entries, entry by entry, in order;
      `None` as soon as one entry is not a well-formed entry. */
  function ReadEntries(entries: seq<Value>): (r: Option<seq<Value>>)
    ensures r.Some? <==> forall i | 0 <= i < |entries| :: IsEntry(entries[i])
  {
    if entries == [] then Some([])
    else
      match (MessagingOf(entries[0]), ReadEntries(entries[1..]))
      case (Some(first), Some(rest)) => Some(first + rest)
      case _ => None
  }

  /** The messaging events a webhook callback carries. */
  function ReadWebhook(body: Value): Option<seq<Value>> {
    if body.Obj? && "entry" in body.fields && body.fields["entry"].Arr?
    then ReadEntries(body.fields["entry"].items)
    else None
  }

  /** What a Send API request sends: a text message (with its optional
      quick replies) or an attachment of some type with its payload. */
  datatype SentMessage =
    | TextMessage(text: Value, quickReplies: Value)
    | AttachmentMessage(kind: Value, payload: Value)

  /** The message a Send API request body sends; an `attachment` takes
      precedence over `text`, as in the Send API. */
  function ReadSendRequest(request: Value): Option<SentMessage> {
    if !request.Obj? then None
    else
      var message := Prop(request, "message");
      if !message.Obj? then None
      else if "attachment" in message.fields then
        var attachment := message.fields["attachment"];
        if attachment.Obj?
        then Some(AttachmentMessage(Prop(attachment, "type"), Prop(attachment, "payload")))
        else None
      else if "text" in message.fields then
        Some(TextMessage(message.fields["text"], Prop(message, "quick_replies")))
      else None
  }

  /** The (message id, recipient id) pair of a Send API response. */
  function ReadSendResponse(response: Value): Option<(Value, Value)> {
    if response.Obj? && "message_id" in response.fields && "recipient_id" in response.fields
    then Some((response.fields["message_id"], response.fields["recipient_id"]))
    else None
  }
}
