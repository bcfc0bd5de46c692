/** The module's live state and its handlers: the analytics client created
    at init from the loaded configuration, the three middlewares the host
    framework calls once per event, and the `/config` routes. Calls into the
    analytics client are recorded in a ghost log instead of being performed;
    `next` is recorded by a ghost count of its calls. */
module Plugin {
  import opened JsValues
  import opened Translation
  import opened Config

  /** A JavaScript object with an identity: two properties that hold the
      same `JsObject` see each other's changes to it. */
  class JsObject {
    var fields: map<string, Value>

    /** `{}`. */
    constructor ()
      ensures fields == map[]
    {
      fields := map[];
    }
  }

  /** What a property holds: a shared object, or a value whose identity the
      model does not track (a primitive, typically). */
  datatype Slot = Shared(obj: JsObject) | Plain(value: Value) {
    predicate Truthy() {
      Shared? || value.Truthy()
    }
  }

  /** The analytics client (`dialog`): the credentials it sends with every
      call, the `context` the attach middleware hands on to each outgoing
      event, and the calls made to it so far. */
  class DialogClient {
    var apiToken: Value
    var botId: Value
    var context: Slot
    ghost var calls: seq<Call>

    /** `new Dialog(accessToken, botId)`. */
    constructor (accessToken: Value, botId: Value)
      ensures apiToken == accessToken && this.botId == botId
      ensures context == Plain(Undefined) && calls == []
    {
      apiToken := accessToken;
      this.botId := botId;
      context := Plain(Undefined);
      calls := [];
    }

    /** `dialog.incoming(payload, callback)`. */
    method Incoming(payload: Value)
      modifies this`calls
      ensures calls == old(calls) + [IncomingCall(payload)]
    {
      calls := calls + [IncomingCall(payload)];
    }

    /** `dialog.outgoing(payload, response, callback)`. */
    method Outgoing(payload: Value, response: Value)
      modifies this`calls
      ensures calls == old(calls) + [OutgoingCall(payload, response)]
    {
      calls := calls + [OutgoingCall(payload, response)];
    }
  }

  /** The object an outgoing event holds under `event.dialog`. */
  class EventDialog {
    var context: Slot

    constructor (context: Slot)
      ensures this.context == context
    {
      this.context := context;
    }
  }

  /** How a middleware ends: it called `next`, or it threw. */
  datatype Completion = Next | Threw(error: TypeError)

  /** The plugin after `init`: the client, the contents of the config file
      and the `DIALOG_TOKEN` the process was started with. */
  class BotModule {
    const dialog: DialogClient
    var configFile: Option<Json>
    const envToken: Option<string>
    ghost var nextCalls: nat

    /** After `init` the config file exists, and every handler keeps it so. */
    ghost predicate Valid()
      reads this
    {
      configFile.Some?
    }

    /** `init`: load the configuration and create the client from it. */
    constructor Init(configFile: Option<Json>, envToken: Option<string>)
      ensures Valid()
      ensures this.configFile == Some(LoadConfig(configFile, envToken).file)
      ensures this.envToken == envToken
      ensures fresh(dialog) && dialog.calls == [] && dialog.context == Plain(Undefined)
      ensures dialog.apiToken == Prop(Obj(LoadConfig(configFile, envToken).config), "accessToken")
      ensures dialog.botId == Prop(Obj(LoadConfig(configFile, envToken).config), "botId")
      ensures nextCalls == 0
    {
      var loaded := LoadConfig(configFile, envToken);
      this.configFile := Some(loaded.file);
      this.envToken := envToken;
      var config := Obj(loaded.config);
      dialog := new DialogClient(Prop(config, "accessToken"), Prop(config, "botId"));
      nextCalls := 0;
    }

    /** `incomingMiddleware`: a facebook event is handed to the client
        wrapped in a webhook envelope; `next` is called unless reaching the
        logger through `event.bp` threw. */
    method IncomingMiddleware(e: Event) returns (c: Completion)
      modifies this`nextCalls, dialog`calls
      ensures c.Threw? <==> IncomingTrack(e).thrown.Some?
      ensures c.Threw? ==> c.error == IncomingTrack(e).thrown.value
      ensures dialog.calls == old(dialog.calls) +
                (match IncomingTrack(e).call case Some(call) => [call] case None => [])
      ensures nextCalls == old(nextCalls) + (if c.Next? then 1 else 0)
    {
      if e.platform == "facebook" {
        var payload := Envelope(e.raw);
        var logger := Member(e.bp, "logger");
        if logger.Err? {
          return Threw(logger.error);
        }
        dialog.Incoming(payload);
        var thrown := Invoke(logger.value, "verbose");
        if thrown.Some? {
          return Threw(thrown.value);
        }
      }
      nextCalls := nextCalls + 1;
      return Next;
    }

    /** `outgoingMiddleware`: for a facebook event the Send API response and
        request are rebuilt and, when the event's type has a request, handed
        to the client; `next` is called unless reading `event.raw.to` or
        reaching the logger through `event.bp` threw. */
    method OutgoingMiddleware(e: Event) returns (c: Completion)
      modifies this`nextCalls, dialog`calls
      ensures c.Threw? <==> OutgoingTrack(e).thrown.Some?
      ensures c.Threw? ==> c.error == OutgoingTrack(e).thrown.value
      ensures dialog.calls == old(dialog.calls) +
                (match OutgoingTrack(e).call case Some(call) => [call] case None => [])
      ensures nextCalls == old(nextCalls) + (if c.Next? then 1 else 0)
    {
      if e.platform == "facebook" {
        var to := Member(e.raw, "to");
        if to.Err? {
          return Threw(to.error);
        }
        var response := OutgoingResponse(e.id, e.raw);
        var payload := OutgoingPayload(e.kind, e.raw);
        if payload.Some? {
          var logger := Member(e.bp, "logger");
          if logger.Err? {
            return Threw(logger.error);
          }
          dialog.Outgoing(payload.value, response);
          var thrown := Invoke(logger.value, "verbose");
          if thrown.Some? {
            return Threw(thrown.value);
          }
        }
      }
      nextCalls := nextCalls + 1;
      return Next;
    }

    /** `outgoingAttachMiddleware`: `event.dialog.context` is set to the
        client's own context object, shared and not copied, or to a new
        empty object when the client's context is falsy. Assigning to a
        property of a nullish `event.dialog` throws. */
    method OutgoingAttachMiddleware(target: EventDialog?) returns (c: Completion)
      modifies this`nextCalls, target
      ensures c.Threw? <==> target == null
      ensures target != null && dialog.context.Truthy() ==> target.context == dialog.context
      ensures target != null && !dialog.context.Truthy() ==>
                target.context.Shared? && fresh(target.context.obj) && target.context.obj.fields == map[]
      ensures nextCalls == old(nextCalls) + (if c.Next? then 1 else 0)
    {
      if target == null {
        return Threw(CannotSetProperty("context"));
      }
      if dialog.context.Truthy() {
        target.context := dialog.context;
      } else {
        var empty := new JsObject();
        target.context := Shared(empty);
      }
      nextCalls := nextCalls + 1;
      return Next;
    }

    /** GET /config: the loaded configuration. */
    method GetConfig() returns (config: Json)
      requires Valid()
      modifies this`configFile
      ensures Valid()
      ensures configFile == old(configFile)
      ensures config == LoadConfig(configFile, envToken).config
    {
      var loaded := LoadConfig(configFile, envToken);
      configFile := Some(loaded.file);
      config := loaded.config;
    }

    /** POST /config: save the posted credentials and set them on the live
        client, then answer 200; no other field of the client changes.
        Destructuring a nullish body throws before anything is saved. */
    method PostConfig(body: Value) returns (status: Result<int>)
      requires Valid()
      modifies this`configFile, dialog`apiToken, dialog`botId
      ensures Valid()
      ensures status.Err? <==> body.Nullish()
      ensures status.Ok? ==> status.value == 200
      ensures status.Err? ==>
                configFile == old(configFile) && dialog.apiToken == old(dialog.apiToken)
                && dialog.botId == old(dialog.botId)
      ensures status.Ok? ==> configFile == Some(Saved(Prop(body, "accessToken"), Prop(body, "botId")))
      ensures status.Ok? ==> dialog.apiToken == Prop(body, "accessToken") && dialog.botId == Prop(body, "botId")
      ensures dialog.context == old(dialog.context) && dialog.calls == old(dialog.calls)
    {
      var accessToken := Member(body, "accessToken");
      if accessToken.Err? {
        return Err(accessToken.error);
      }
      var botId := Prop(body, "botId");
      configFile := Some(Saved(accessToken.value, botId));
      dialog.apiToken := accessToken.value;
      dialog.botId := botId;
      return Ok(200);
    }
  }
}
