/**
  The bot's settings (`whatsapp-bot/config.py`): defaults for the server,
  the MCP endpoint and the database file, and the field validators that
  reject an empty required value and normalise the Evolution API URL.
  Loading `.env` and caching the single settings object are not modelled:
  the environment arrives as a value and the settings are returned as one.
 */
module Config {
  import opened Common
  import opened Text

  const DefaultHost: string := "0.0.0.0"
  const DefaultPort: int := 8000
  const DefaultDebug: bool := false
  const DefaultMcpServerUrl: string := "http://127.0.0.1:7860/gradio_api/mcp/sse"
  const DefaultDatabaseFile: string := "portfolio.db"

  /** The message pydantic gives a required field that is absent. */
  const MissingField: string := "Field required"

  datatype Settings = Settings(
    host: string,
    port: int,
    debug: bool,
    openaiApiKey: string,
    evolutionApiUrl: string,
    evolutionInstanceName: string,
    evolutionApiKey: string,
    mcpServerUrl: string,
    databaseFile: string,
    allowedWhatsappNumber: string,
    logfireToken: Option<string>)

  /** What the environment supplies for each field, `None` when it is absent. */
  datatype Environment = Environment(
    host: Option<string>,
    port: Option<int>,
    debug: Option<bool>,
    openaiApiKey: Option<string>,
    evolutionApiUrl: Option<string>,
    evolutionInstanceName: Option<string>,
    evolutionApiKey: Option<string>,
    mcpServerUrl: Option<string>,
    databaseFile: Option<string>,
    allowedWhatsappNumber: Option<string>,
    logfireToken: Option<string>)

  /** The shared shape of the four plain validators: `if not v: raise
      ValueError(message)`, otherwise the value itself. */
  function Required(v: string, message: string): (r: Result<string, string>)
    ensures r.Ok? <==> v != []
    ensures r.Ok? ==> r.value == v
    ensures r.Err? ==> r.error == message
  {
    if v == [] then Err(message) else Ok(v)
  }

  function ValidateOpenaiApiKey(v: string): (r: Result<string, string>)
    ensures r.Ok? <==> v != []
    ensures r.Ok? ==> r.value == v
    ensures r.Err? ==> r.error == "OPENAI_API_KEY is required"
  {
    Required(v, "OPENAI_API_KEY is required")
  }

  function ValidateEvolutionInstanceName(v: string): (r: Result<string, string>)
    ensures r.Ok? <==> v != []
    ensures r.Ok? ==> r.value == v
    ensures r.Err? ==> r.error == "EVOLUTION_INSTANCE_NAME is required"
  {
    Required(v, "EVOLUTION_INSTANCE_NAME is required")
  }

  function ValidateEvolutionApiKey(v: string): (r: Result<string, string>)
    ensures r.Ok? <==> v != []
    ensures r.Ok? ==> r.value == v
    ensures r.Err? ==> r.error == "EVOLUTION_API_KEY is required"
  {
    Required(v, "EVOLUTION_API_KEY is required")
  }

  function ValidateAllowedWhatsappNumber(v: string): (r: Result<string, string>)
    ensures r.Ok? <==> v != []
    ensures r.Ok? ==> r.value == v
    ensures r.Err? ==> r.error == "ALLOWED_WHATSAPP_NUMBER is required"
  {
    Required(v, "ALLOWED_WHATSAPP_NUMBER is required")
  }

  /** The URL validator: the emptiness test comes first, then every trailing
      `/` is removed. The stored value is a prefix of the input that does not
      end in `/`, and only slashes were cut off. */
  function ValidateEvolutionApiUrl(v: string): (r: Result<string, string>)
    ensures r.Err? <==> v == []
    ensures r.Err? ==> r.error == "EVOLUTION_API_URL is required"
    ensures r.Ok? ==> StartsWith(v, r.value)
    ensures r.Ok? ==> r.value == [] || r.value[|r.value| - 1] != '/'
    ensures r.Ok? ==> forall i :: |r.value| <= i < |v| ==> v[i] == '/'
  {
    if v == [] then Err("EVOLUTION_API_URL is required") else Ok(RStripSlash(v))
  }

  /** Removing trailing slashes a second time changes nothing. */
  lemma {:induction false} ApiUrlStripIdempotent(v: string)
    ensures RStripSlash(RStripSlash(v)) == RStripSlash(v)
  {
    RStripSlashFixed(RStripSlash(v));
  }

  /** Because emptiness is tested before stripping, a URL made only of slashes
      passes the validator and is stored as the empty string. */
  lemma {:induction false} SlashOnlyUrlBecomesEmpty(v: string)
    requires v != []
    requires forall i :: 0 <= i < |v| ==> v[i] == '/'
    ensures ValidateEvolutionApiUrl(v) == Ok([])
  {
  }

  /** The outcome of one field: absent, or the validator's verdict. */
  function Field(v: Option<string>, validated: Result<string, string>): seq<string>
  {
    match v
    case None => [MissingField]
    case Some(_) => if validated.Err? then [validated.error] else []
  }

  function Validated(v: Option<string>, validate: string -> Result<string, string>): Result<string, string>
  {
    match v
    case None => Err(MissingField)
    case Some(x) => validate(x)
  }

  /** Every failing field, in declaration order; pydantic reports them all at once. */
  function SettingsErrors(env: Environment): seq<string>
  {
    Field(env.openaiApiKey, Validated(env.openaiApiKey, ValidateOpenaiApiKey))
    + Field(env.evolutionApiUrl, Validated(env.evolutionApiUrl, ValidateEvolutionApiUrl))
    + Field(env.evolutionInstanceName, Validated(env.evolutionInstanceName, ValidateEvolutionInstanceName))
    + Field(env.evolutionApiKey, Validated(env.evolutionApiKey, ValidateEvolutionApiKey))
    + Field(env.allowedWhatsappNumber, Validated(env.allowedWhatsappNumber, ValidateAllowedWhatsappNumber))
  }

  function OrDefault<T>(v: Option<T>, default: T): T {
    if v.Some? then v.value else default
  }

  /** `Settings()`: construct the settings from the environment. Loading
      succeeds exactly when the five required fields are present and
      non-empty; the stored URL has its trailing slashes removed and every
      other value is kept as supplied, with the defaults filling the gaps. */
  function LoadSettings(env: Environment): (r: Result<Settings, seq<string>>)
    ensures r.Ok? <==>
      && env.openaiApiKey.Some? && env.openaiApiKey.value != []
      && env.evolutionApiUrl.Some? && env.evolutionApiUrl.value != []
      && env.evolutionInstanceName.Some? && env.evolutionInstanceName.value != []
      && env.evolutionApiKey.Some? && env.evolutionApiKey.value != []
      && env.allowedWhatsappNumber.Some? && env.allowedWhatsappNumber.value != []
    ensures r.Err? ==> r.error != []
    ensures r.Ok? ==>
      && r.value.openaiApiKey == env.openaiApiKey.value
      && r.value.evolutionApiUrl == RStripSlash(env.evolutionApiUrl.value)
      && r.value.evolutionInstanceName == env.evolutionInstanceName.value
      && r.value.evolutionApiKey == env.evolutionApiKey.value
      && r.value.allowedWhatsappNumber == env.allowedWhatsappNumber.value
      && r.value.logfireToken == env.logfireToken
      && r.value.host == OrDefault(env.host, DefaultHost)
      && r.value.port == OrDefault(env.port, DefaultPort)
      && r.value.debug == OrDefault(env.debug, DefaultDebug)
      && r.value.mcpServerUrl == OrDefault(env.mcpServerUrl, DefaultMcpServerUrl)
      && r.value.databaseFile == OrDefault(env.databaseFile, DefaultDatabaseFile)
  {
    var errors := SettingsErrors(env);
    if errors != [] then Err(errors)
    else
      Ok(Settings(
        OrDefault(env.host, DefaultHost),
        OrDefault(env.port, DefaultPort),
        OrDefault(env.debug, DefaultDebug),
        env.openaiApiKey.value,
        RStripSlash(env.evolutionApiUrl.value),
        env.evolutionInstanceName.value,
        env.evolutionApiKey.value,
        OrDefault(env.mcpServerUrl, DefaultMcpServerUrl),
        OrDefault(env.databaseFile, DefaultDatabaseFile),
        env.allowedWhatsappNumber.value,
        env.logfireToken))
  }

  /** Without overrides the server listens on 0.0.0.0:8000 without reload,
      talks to the local MCP endpoint and keeps its ledger in portfolio.db. */
  lemma DefaultsApplied(env: Environment)
    requires LoadSettings(env).Ok?
    requires env.host.None? && env.port.None? && env.debug.None?
    requires env.mcpServerUrl.None? && env.databaseFile.None?
    ensures var s := LoadSettings(env).value;
      && s.host == "0.0.0.0" && s.port == 8000 && s.debug == false
      && s.mcpServerUrl == "http://127.0.0.1:7860/gradio_api/mcp/sse"
      && s.databaseFile == "portfolio.db"
  {
  }

  /** An empty required value is reported with its own message. */
  lemma EmptyValueReported(env: Environment)
    ensures env.openaiApiKey == Some([]) ==> "OPENAI_API_KEY is required" in SettingsErrors(env)
    ensures env.evolutionApiUrl == Some([]) ==> "EVOLUTION_API_URL is required" in SettingsErrors(env)
    ensures env.evolutionInstanceName == Some([]) ==> "EVOLUTION_INSTANCE_NAME is required" in SettingsErrors(env)
    ensures env.evolutionApiKey == Some([]) ==> "EVOLUTION_API_KEY is required" in SettingsErrors(env)
    ensures env.allowedWhatsappNumber == Some([]) ==> "ALLOWED_WHATSAPP_NUMBER is required" in SettingsErrors(env)
  {
  }
}
