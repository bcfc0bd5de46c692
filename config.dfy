/** The plugin's configuration: the JSON object stored in
    `botpress-dialog.json`, read by `loadConfig` with the `DIALOG_TOKEN`
    environment variable laid over it, and written by `saveConfig`. The file
    is modelled by its contents (`None` when it does not exist); the
    environment variable by its value (`None` when it is not set). */
module Config {
  import opened JsValues

  /** A JSON object: property names to values. */
  type Json = map<string, Value>

  /** What `loadConfig` writes when the file does not exist. */
  const DefaultConfig: Json := map["accessToken" := Str(""), "botId" := Str("")]

  /** The environment variable takes effect only when it is truthy: an
      empty `DIALOG_TOKEN` is ignored. */
  predicate Overrides(env: Option<string>) {
    env.Some? && Str(env.value).Truthy()
  }

  /** The `overrides` object `loadConfig` builds. */
  function OverridesOf(env: Option<string>): (r: Json)
    ensures r.Keys <= {"accessToken"}
    ensures "accessToken" in r <==> Overrides(env)
    ensures Overrides(env) ==> r["accessToken"] == Str(env.value)
  {
    if Overrides(env) then map["accessToken" := Str(env.value)] else map[]
  }

  /** The file contents after `loadConfig` and the configuration it returns. */
  datatype Loaded = Loaded(file: Json, config: Json)

  /** `loadConfig`: create the file with the defaults if it is missing, then
      return its contents with the overrides assigned over them. */
  function LoadConfig(file: Option<Json>, env: Option<string>): (r: Loaded)
    ensures r.file == if file.Some? then file.value else DefaultConfig
    ensures r.config.Keys == r.file.Keys + OverridesOf(env).Keys
    ensures forall k | k in r.file && !(k == "accessToken" && Overrides(env)) :: r.config[k] == r.file[k]
    ensures Overrides(env) ==> r.config["accessToken"] == Str(env.value)
  {
    var stored := if file.Some? then file.value else DefaultConfig;
    Loaded(stored, stored + OverridesOf(env))
  }

  /** The file `saveConfig({accessToken, botId})` leaves behind, as read back:
      JSON serialisation omits a property whose value is `undefined`. */
  function Saved(accessToken: Value, botId: Value): (r: Json)
    ensures r.Keys <= {"accessToken", "botId"}
    ensures "accessToken" in r <==> !accessToken.Undefined?
    ensures "botId" in r <==> !botId.Undefined?
    ensures "accessToken" in r ==> r["accessToken"] == accessToken
    ensures "botId" in r ==> r["botId"] == botId
  {
    (if accessToken.Undefined? then map[] else map["accessToken" := accessToken])
    + (if botId.Undefined? then map[] else map["botId" := botId])
  }

  /** A missing file is read as empty credentials (with the environment
      token laid over the empty access token). */
  lemma MissingFileDefaults(env: Option<string>)
    ensures LoadConfig(None, env).file == DefaultConfig
    ensures LoadConfig(None, env).config["botId"] == Str("")
    ensures LoadConfig(None, env).config["accessToken"] ==
              if Overrides(env) then Str(env.value) else Str("")
  {
  }

  /** Loading again changes nothing: the file `loadConfig` leaves behind is
      read back to the same configuration and is not rewritten. */
  lemma LoadConfigIdempotent(file: Option<Json>, env: Option<string>)
    ensures LoadConfig(Some(LoadConfig(file, env).file), env) == LoadConfig(file, env)
  {
  }

  /** Without a (non-empty) environment token the configuration is exactly
      the file's contents. */
  lemma NoOverrideReadsFile(file: Json, env: Option<string>)
    requires !Overrides(env)
    ensures LoadConfig(Some(file), env).config == file
  {
  }

  /** GET /config after POST /config: the posted bot id is read back; the
      posted access token is read back unless a non-empty `DIALOG_TOKEN` is
      set, which then wins. A credential posted as `undefined` is absent. */
  lemma PostThenGet(accessToken: Value, botId: Value, env: Option<string>)
    ensures var config := LoadConfig(Some(Saved(accessToken, botId)), env).config;
            && ("botId" in config <==> !botId.Undefined?)
            && ("botId" in config ==> config["botId"] == botId)
            && (Overrides(env) ==> config["accessToken"] == Str(env.value))
            && (!Overrides(env) ==> ("accessToken" in config <==> !accessToken.Undefined?))
            && (!Overrides(env) && "accessToken" in config ==> config["accessToken"] == accessToken)
            && config.Keys <= {"accessToken", "botId"}
  {
  }
}
