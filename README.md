# botpress-dialog: event translation for Dialog Analytics

A Dafny model of the `botpress-dialog` module (`src/index.js`). The module is
a Botpress plugin that forwards Facebook Messenger conversation events to
the Dialog Analytics client. The model covers:

- the **incoming middleware**, which wraps a Messenger event in the webhook
  envelope `{entry: [{messaging: [raw]}]}` and reports it through the
  event's logger;
- the **outgoing middleware**, which rebuilds a Send API response
  `{message_id, recipient_id}` and a Send API request whose shape depends on
  the event type (`text`, `template` or `attachment`). Any other type is
  skipped;
- the **attach middleware**, which points the event's `dialog.context` at
  the client's `context` object (shared, not copied), or at a new `{}`;
- **`loadConfig`** and **`saveConfig`** on the JSON config file, with the
  `DIALOG_TOKEN` override;
- the **completion callback**, which sorts a response into a transport
  error, an application error or a success;
- the **`/config` routes**, where POST updates the live client's
  credentials in place.

Modules:

- `JsValues` (`js_values.dfy`): JavaScript values, truthiness, property
  reads that throw a `TypeError` on `null`/`undefined`, and method calls
  that throw on a property that is not a function.
- `Messenger` (`messenger.dfy`): reference definitions, not code of the
  module. They read the Messenger Platform formats the analytics client
  consumes: a webhook callback into the list of messaging events it
  carries, and a Send API request and response into the message sent and
  its recipient. Each builder in `Translation` is proved against them: the
  reader reads back what the builder produced as the event's own fields.
- `Translation` (`translation.dfy`): the pure builders of both middlewares.
- `Config` (`config.dfy`): `loadConfig`/`saveConfig` over the file's
  contents.
- `Callback` (`callback.dfy`): the response classifier and the logger.
- `Plugin` (`plugin.dfy`): the live state as classes. `DialogClient` holds
  the client's `apiToken`, `botId` and `context`, plus a ghost log of the
  calls made into it. `BotModule` holds the client, the config file and
  `DIALOG_TOKEN`, plus a ghost count of `next()` calls. The middlewares and
  routes are its methods. `JsObject` is an object with an identity, so that
  a context shared by the client and an event stays one object.

Behaviour of the code worth knowing:

- On a facebook event whose `raw` is `null` or `undefined`, the outgoing
  middleware throws when it reads `event.raw.to` (src/index.js:60), so
  `next()` is not called on that path (`OutgoingMiddleware`).
- Both tracking middlewares reach the logger through `event.bp`: first as
  the argument `callback(event.bp.logger)`, before the client is called,
  then for `event.bp.logger.verbose(...)`, after it (src/index.js:48-49 and
  :95-96). A missing `bp`, logger or `verbose` throws there, and `next()` is
  not called.
- `DIALOG_TOKEN` takes effect only when it is truthy (src/index.js:23): an
  empty value does not override the stored token (`Config.Overrides`).
- POST `/config` puts the posted token on the live client even when
  `DIALOG_TOKEN` is set (src/index.js:172-173). GET `/config`, and the next
  `init`, report the environment token instead (`PostConfig` together with
  `PostThenGet`).
- A credential missing from the POST body is `undefined`. JSON
  serialisation drops it from the file (src/index.js:13, `Saved`).

## Model

| member | source | states |
|---|---|---|
| `Translation.Envelope` | src/index.js:40-46 | the envelope has one entry, and a webhook reader finds exactly `[raw]` in it |
| `Translation.IncomingTrack` | src/index.js:38-50 | a call is made exactly for facebook events whose `bp` is not nullish; its payload reads back as exactly `[event.raw]`; a facebook event throws exactly when its `bp.logger.verbose` cannot be called |
| `Translation.OutgoingResponse` | src/index.js:58-61 | the response reads back as (`event.__id`, `raw.to`) |
| `Translation.Forward` | src/index.js:48-49 | a call is made exactly when `event.bp` is not nullish (the argument `callback(event.bp.logger)` is read first); the handler throws exactly when `event.bp.logger.verbose` cannot be called |
| `Translation.OutgoingPayload` | src/index.js:63-92 | a request exists exactly for `text`, `template` and `attachment`, and it is truthy. It reads back as the text with `raw.quick_replies`, as a `'template'` attachment carrying `raw.payload`, or as a `raw.type` attachment carrying the whole `raw` |
| `Translation.OutgoingTrack` | src/index.js:55-98 | the `raw.to` read throws exactly for facebook events with nullish `raw`; a call is made exactly for facebook events of a tracked type with a `bp`; the call's request and response read back as the event's fields; nothing throws for untracked types, and a tracked event throws exactly when its `bp.logger.verbose` cannot be called |
| `Translation.TextPayloadExact` | src/index.js:65-71 | a text request has exactly the keys `message.text` and `message.quick_replies`; `quick_replies` is passed through, `undefined` when absent |
| `Translation.TemplatePayloadExact` | src/index.js:72-80 | a template request has exactly the key `message.attachment`, which is exactly `{type: 'template', payload: raw.payload}` |
| `Translation.AttachmentPayloadExact` | src/index.js:81-89 | an attachment request has exactly the key `message.attachment`, which is exactly `{type: raw.type, payload: raw}` |
| `Translation.EnvelopeExact` | src/index.js:40-46 | the envelope has exactly the key `entry`, holding one entry with exactly the key `messaging`, holding `[raw]` |
| `Translation.ResponseIgnoresKind` | src/index.js:58-61 | two tracked events with the same id and raw get the same response, whatever their types |
| `Translation.PayloadDeterminesKind` | src/index.js:72-89 | different tracked types never build the same request, even a `template` and an `attachment` whose `raw.type` is `'template'` |
| `Config.OverridesOf` | src/index.js:22-23 | the override object holds `accessToken` only, and only when `DIALOG_TOKEN` is truthy |
| `Config.LoadConfig` | src/index.js:16-26 | a missing file becomes the defaults; the result has the file's keys plus the override; every stored key other than an overridden `accessToken` keeps its value; an override sets `accessToken` to the environment token |
| `Config.Saved` | src/index.js:12-14 | the stored file holds `accessToken` and `botId` exactly when each is defined, with the posted values |
| `Config.MissingFileDefaults` | src/index.js:17-20 | a missing file yields `botId = ''` and `accessToken = ''`, or the environment token |
| `Config.LoadConfigIdempotent` | src/index.js:16-26 | loading a second time reads the same configuration and leaves the file unchanged |
| `Config.NoOverrideReadsFile` | src/index.js:22-25 | without a truthy `DIALOG_TOKEN`, the configuration equals the file's contents |
| `Config.PostThenGet` | src/index.js:163-176 | after POST, GET returns the posted `botId`, and the posted `accessToken` unless a truthy `DIALOG_TOKEN` takes its place; undefined credentials are absent |
| `Callback.Classify` | src/index.js:28-35 | a truthy `error` is a transport error whatever the body; otherwise a body with a truthy `error` is an application error; otherwise success. Exactly one of the three applies |
| `Callback.LinesFor` | src/index.js:30-34 | at most one debug line per response; none exactly on success; a transport error logs `error.message`; an application error logs `body.code` and `body.error` |
| `Callback.TransportErrorWins` | src/index.js:30-32 | with a transport error, the line logged does not depend on the body |
| `Callback.Report` | src/index.js:29-35 | the logger gains exactly the lines of `LinesFor`, so at most one |
| `Plugin.DialogClient.constructor` | src/index.js:149 | the client starts with the given token and bot id, an `undefined` context and no calls |
| `Plugin.DialogClient.Incoming` | src/index.js:48 | records one incoming call with its payload |
| `Plugin.DialogClient.Outgoing` | src/index.js:95 | records one outgoing call with its payload and response |
| `Plugin.BotModule.Init` | src/index.js:147-149 | the config file exists afterwards; the client holds the loaded `accessToken` and `botId` (override included) and has made no calls |
| `Plugin.BotModule.IncomingMiddleware` | src/index.js:38-53 | the client's log gains exactly the `IncomingTrack` call; the method throws exactly what `IncomingTrack` throws, and otherwise calls `next` exactly once |
| `Plugin.BotModule.OutgoingMiddleware` | src/index.js:55-101 | the client's log gains exactly the `OutgoingTrack` call, or nothing on the skip path; the method throws exactly what `OutgoingTrack` throws, and otherwise calls `next` exactly once |
| `Plugin.BotModule.OutgoingAttachMiddleware` | src/index.js:103-107 | `event.dialog.context` becomes the client's own context (the same object) when that is truthy, otherwise a new empty object; throws on a null `event.dialog`; otherwise `next` is called once |
| `Plugin.BotModule.GetConfig` | src/index.js:163-165 | returns the loaded configuration; an existing file is left unchanged |
| `Plugin.BotModule.PostConfig` | src/index.js:167-176 | the file becomes the saved credentials and the client's `apiToken` and `botId` become the posted values; the client's `context` and call log are unchanged; a nullish body throws and changes nothing |

## Left out

- File-system access and JSON (de)serialisation: the config file is modelled
  by its contents, a JSON object. A file whose JSON is not an object is not
  modelled. The file path (`configFile`, from `bp.projectLocation`) is not
  part of this model.
- `Config.Saved`: only top-level `undefined` properties are dropped. The
  posted values come from a parsed JSON body, so they hold no `undefined`
  inside.
- The analytics client library (`dialog-api`): its network calls, its use of
  the callbacks, and its own changes to `context` are not part of this model.
  Its calls are recorded in a ghost log; `context` starts as `undefined`.
- `Plugin.BotModule.OutgoingAttachMiddleware`: the context is shared, not
  copied, when the client holds it as a `JsObject` (`Slot.Shared`). A
  context held as a plain value (`Slot.Plain`, such as an object literal
  value) has no identity in the model, so only its value at the time of
  the call is kept.
- `Plugin.BotModule.IncomingMiddleware`, `Plugin.BotModule.OutgoingMiddleware`:
  the callback handed to the client, and the text of the verbose log line,
  are not recorded; the logger's `verbose` is assumed to return normally
  when it is a function. The callback is modelled on its own by
  `Callback.Report`.
- The exposed `bp.dialog` methods (`attach`, `track`, `event`, `link`)
  belong to the foreign client and are not modelled.
- Host-framework plumbing: `checkVersion`, middleware registration and
  ordering, the router, HTTP request and response objects. The POST body is
  passed as a value; the 200 status is a returned value.
- Events reaching a middleware before `init`, while `dialog` is still
  `null`, are not modelled: the client exists from construction on.
- `Plugin.BotModule.OutgoingAttachMiddleware`: `event.dialog` is modelled as
  an object or `null`. A primitive there (which throws in strict mode) is
  not modelled, and neither are arrays.
- JavaScript values (`JsValues`): numbers are integers (no floating point, no NaN), and
  object key order is not kept. Built-in properties of strings, arrays and
  `Object.prototype` are not modelled; none of the names the module reads
  is one.
- `event.platform` and `event.type` are taken to be strings, so `==` is
  string equality.
- Logger message text and `util.inspect` formatting: a log line records
  only which values it reports.
- `src/views/index.jsx`, the settings form in the browser, is not part of
  this model.
