/** The event translation of src/index.js: the webhook envelope the incoming
    middleware wraps an incoming Messenger event in, and the Send API request
    and response the outgoing middleware rebuilds from an outgoing event.
    Each builder is proved against the reader of module Messenger that
    consumes what it builds. */
module Translation {
  import opened JsValues
  import opened Messenger

  /** A bot-framework event as far as the middlewares read it: its platform,
      its type, its `__id`, its platform-specific `raw` value and `bp`, the
      host framework handle through which the logger is reached. */
  datatype Event = Event(platform: string, kind: string, id: Value, raw: Value, bp: Value)

  /** One call into the analytics client, with the arguments it received. */
  datatype Call =
    | IncomingCall(payload: Value)
    | OutgoingCall(payload: Value, response: Value)

  predicate IsFacebook(e: Event) {
    e.platform == "facebook"
  }

  /** The outgoing event types for which a Send API request is rebuilt. */
  const TrackedKinds: set<string> := {"text", "template", "attachment"}

  /** What a middleware does before it would call `next`: the call it makes
      into the client, if any, and the TypeError it throws, if any. When it
      throws, `next` is not called. */
  datatype Effect = Effect(call: Option<Call>, thrown: Option<TypeError>)

  /** Neither a call nor an error. */
  const Skip: Effect := Effect(None, None)

  /** `event.bp.logger.verbose(...)` can be called: `bp` and its `logger`
      are not nullish and `verbose` is a function. */
  predicate HasVerboseLogger(bp: Value) {
    !bp.Nullish() && !Prop(bp, "logger").Nullish() && Prop(Prop(bp, "logger"), "verbose").Function?
  }

  /** Handing a call to the client: the argument `callback(event.bp.logger)`
      is evaluated first, so a nullish `bp` throws before the call is made;
      then the call is made; then `event.bp.logger.verbose(...)` is called,
      which throws unless the logger has a `verbose` function. */
  function Forward(bp: Value, call: Call): (r: Effect)
    ensures r.call.Some? <==> !bp.Nullish()
    ensures r.call.Some? ==> r.call.value == call
    ensures r.thrown.None? <==> HasVerboseLogger(bp)
  {
    match Member(bp, "logger")
    case Err(error) => Effect(None, Some(error))
    case Ok(logger) => Effect(Some(call), Invoke(logger, "verbose"))
  }

  // ---------------------------------------------------------------------
  // Incoming

  /** `{entry: [{messaging: [raw]}]}`: the webhook callback that delivered
      `raw`, rebuilt for the analytics client. */
  function Envelope(raw: Value): (r: Value)
    ensures ReadWebhook(r) == Some([raw])
    ensures |r.fields["entry"].items| == 1
  {
    var entry := Obj(map["messaging" := Arr([raw])]);
    assert ReadEntries([entry][1..]) == Some([]);
    assert MessagingOf(entry) == Some([raw]);
    assert [raw] + [] == [raw];
    Obj(map["entry" := Arr([entry])])
  }

  /** What the incoming middleware does with an event before `next`: a
      facebook event is handed to the client wrapped in its envelope. */
  function IncomingTrack(e: Event): (r: Effect)
    ensures r.call.Some? <==> IsFacebook(e) && !e.bp.Nullish()
    ensures r.call.Some? ==>
              r.call.value.IncomingCall? && ReadWebhook(r.call.value.payload) == Some([e.raw])
    ensures r.thrown.None? <==> !IsFacebook(e) || HasVerboseLogger(e.bp)
  {
    if IsFacebook(e) then Forward(e.bp, IncomingCall(Envelope(e.raw))) else Skip
  }

  // ---------------------------------------------------------------------
  // Outgoing

  /** The Send API response `{message_id: __id, recipient_id: raw.to}`; its
      message id is the event's own id, not one Facebook issued. */
  function OutgoingResponse(id: Value, raw: Value): (r: Value)
    requires !raw.Nullish()
    ensures ReadSendResponse(r) == Some((id, Prop(raw, "to")))
  {
    Obj(map["message_id" := id, "recipient_id" := Prop(raw, "to")])
  }

  /** The message an outgoing event of a tracked type sends, read off the
      event's raw value: a text with its quick replies; a template, whose
      attachment payload is `raw.payload`; or an attachment of type
      `raw.type` whose payload is the whole raw value. */
  function SentBy(kind: string, raw: Value): SentMessage
    requires kind in TrackedKinds && !raw.Nullish()
  {
    if kind == "text" then TextMessage(Prop(raw, "message"), Prop(raw, "quick_replies"))
    else if kind == "template" then AttachmentMessage(Str("template"), Prop(raw, "payload"))
    else AttachmentMessage(Prop(raw, "type"), raw)
  }

  /** The Send API request rebuilt for an outgoing event; `None` (the
      "noop" branch) for every other event type. */
  function OutgoingPayload(kind: string, raw: Value): (r: Option<Value>)
    requires !raw.Nullish()
    ensures r.Some? <==> kind in TrackedKinds
    ensures r.Some? ==> r.value.Truthy() && ReadSendRequest(r.value) == Some(SentBy(kind, raw))
  {
    if kind == "text" then
      Some(Obj(map["message" := Obj(map[
        "text" := Prop(raw, "message"),
        "quick_replies" := Prop(raw, "quick_replies")])]))
    else if kind == "template" then
      Some(Obj(map["message" := Obj(map[
        "attachment" := Obj(map["type" := Str("template"), "payload" := Prop(raw, "payload")])])]))
    else if kind == "attachment" then
      Some(Obj(map["message" := Obj(map[
        "attachment" := Obj(map["type" := Prop(raw, "type"), "payload" := raw])])]))
    else
      None
  }

  /** What the outgoing middleware does with an event before `next`: the
      `raw.to` read throws on a nullish `raw`; otherwise a facebook event of
      a tracked type is handed to the client with its request and response,
      and any other type is skipped. */
  function OutgoingTrack(e: Event): (r: Effect)
    ensures r.thrown == Some(CannotReadProperty("to")) <==> IsFacebook(e) && e.raw.Nullish()
    ensures r.call.Some? <==>
              IsFacebook(e) && !e.raw.Nullish() && e.kind in TrackedKinds && !e.bp.Nullish()
    ensures r.call.Some? ==>
              && r.call.value.OutgoingCall?
              && ReadSendRequest(r.call.value.payload) == Some(SentBy(e.kind, e.raw))
              && ReadSendResponse(r.call.value.response) == Some((e.id, Prop(e.raw, "to")))
    ensures r.thrown.None? <==>
              !IsFacebook(e) || (!e.raw.Nullish() && (e.kind !in TrackedKinds || HasVerboseLogger(e.bp)))
  {
    if !IsFacebook(e) then Skip
    else
      match Member(e.raw, "to")
      case Err(error) => Effect(None, Some(error))
      case Ok(_) =>
        var response := OutgoingResponse(e.id, e.raw);
        match OutgoingPayload(e.kind, e.raw)
        case None => Skip
        case Some(payload) => Forward(e.bp, OutgoingCall(payload, response))
  }

  // ---------------------------------------------------------------------
  // Properties of the outgoing translation

  /** A text request carries exactly the two keys `text` and
      `quick_replies`; `quick_replies` is passed through even when the raw
      value has none (it is then `undefined`). */
  lemma TextPayloadExact(raw: Value)
    requires !raw.Nullish()
    ensures var p := OutgoingPayload("text", raw).value;
            && p.fields.Keys == {"message"}
            && p.fields["message"].fields.Keys == {"text", "quick_replies"}
            && p.fields["message"].fields["quick_replies"] == Prop(raw, "quick_replies")
            && (!raw.Obj? || "quick_replies" !in raw.fields ==>
                  p.fields["message"].fields["quick_replies"] == Undefined)
  {
  }

  /** The rebuilt response depends on the event's id and recipient only,
      whatever the event's type. */
  lemma ResponseIgnoresKind(e1: Event, e2: Event)
    requires e1.platform == e2.platform && e1.id == e2.id && e1.raw == e2.raw
    requires OutgoingTrack(e1).call.Some? && OutgoingTrack(e2).call.Some?
    ensures OutgoingTrack(e1).call.value.response == OutgoingTrack(e2).call.value.response
  {
  }

  /** Two different tracked types never yield the same request: the request
      determines which branch built it. */
  lemma PayloadDeterminesKind(k1: string, k2: string, raw: Value)
    requires !raw.Nullish() && k1 in TrackedKinds && k2 in TrackedKinds && k1 != k2
    ensures OutgoingPayload(k1, raw) != OutgoingPayload(k2, raw)
  {
  }

  /** The envelope carries exactly one key, `entry`, holding one entry that
      carries exactly one key, `messaging`, holding exactly `[raw]`. */
  lemma EnvelopeExact(raw: Value)
    ensures var r := Envelope(raw);
            && r.fields.Keys == {"entry"}
            && r.fields["entry"] == Arr([Obj(map["messaging" := Arr([raw])])])
  {
  }

  /** A template request carries exactly `message.attachment`, whose keys
      are exactly `type`, the constant `'template'`, and `payload`, which is
      `raw.payload`. */
  lemma TemplatePayloadExact(raw: Value)
    requires !raw.Nullish()
    ensures var p := OutgoingPayload("template", raw).value;
            && p.fields.Keys == {"message"}
            && p.fields["message"].fields.Keys == {"attachment"}
            && p.fields["message"].fields["attachment"] ==
                 Obj(map["type" := Str("template"), "payload" := Prop(raw, "payload")])
  {
  }

  /** An attachment request carries exactly `message.attachment`, whose keys
      are exactly `type`, which is `raw.type`, and `payload`, which is the
      whole raw value. */
  lemma AttachmentPayloadExact(raw: Value)
    requires !raw.Nullish()
    ensures var p := OutgoingPayload("attachment", raw).value;
            && p.fields.Keys == {"message"}
            && p.fields["message"].fields.Keys == {"attachment"}
            && p.fields["message"].fields["attachment"] ==
                 Obj(map["type" := Prop(raw, "type"), "payload" := raw])
  {
  }
}
