/** Configuration record, its validation, and the rewrite of the driver
    endpoint that `Load` performs once validation has passed
    (config/config.go). */
module Config {
  import opened Wrappers

  datatype AIConfig = AIConfig(model: string, apiKey: string, baseURL: string)

  /** `timeout` is a Go `time.Duration`, a count of nanoseconds. */
  datatype Config = Config(
    deepSeek: AIConfig,
    qwen: AIConfig,
    gemini: AIConfig,
    geminiProxy: string,
    maxRounds: int,
    timeout: int)

  const TargetIncomplete := "AI configuration is incomplete"
  const DriverIncomplete := "Driver AI configuration is incomplete"
  const MaxRoundsMessage := "MaxRounds must be greater than 0"
  const TimeoutMessage := "Timeout must be greater than 0"
  const EndpointPrefix := "https://generativelanguage.googleapis.com/v1/models/"
  const EndpointMiddle := ":generateContent?key="

  /** A target model needs a key, an endpoint and a model name. */
  function CheckTargetAIConfig(c: AIConfig): (r: Outcome)
    ensures r.Pass? <==> c.apiKey != [] && c.baseURL != [] && c.model != []
    ensures r.Fail? ==> r.message == TargetIncomplete
  {
    if c.apiKey == "" || c.baseURL == "" || c.model == "" then Fail(TargetIncomplete) else Pass
  }

  /** The driver model needs a key and a model name; its endpoint may be
      empty because `Load` builds it. */
  function CheckDriverAIConfig(c: AIConfig): (r: Outcome)
    ensures r.Pass? <==> c.apiKey != [] && c.model != []
    ensures r.Fail? ==> r.message == DriverIncomplete
  {
    if c.apiKey == "" || c.model == "" then Fail(DriverIncomplete) else Pass
  }

  /** Prefix a component's error with its name, as `fmt.Errorf("%s config
      error: %v", ...)` does. */
  function Wrap(component: string, message: string): string {
    component + " config error: " + message
  }

  /** The five checks, stopping at the first failure. */
  function CheckConfig(c: Config): (r: Outcome)
    ensures r.Pass? <==>
      && CheckTargetAIConfig(c.deepSeek).Pass?
      && CheckTargetAIConfig(c.qwen).Pass?
      && CheckDriverAIConfig(c.gemini).Pass?
      && c.maxRounds > 0
      && c.timeout > 0
    ensures r.Pass? ==> c.maxRounds >= 1
  {
    match CheckTargetAIConfig(c.deepSeek)
    case Fail(e) => Fail(Wrap("DeepSeek", e))
    case Pass =>
      match CheckTargetAIConfig(c.qwen)
      case Fail(e) => Fail(Wrap("Qwen", e))
      case Pass =>
        match CheckDriverAIConfig(c.gemini)
        case Fail(e) => Fail(Wrap("Gemini", e))
        case Pass =>
          if c.maxRounds <= 0 then Fail(MaxRoundsMessage)
          else if c.timeout <= 0 then Fail(TimeoutMessage)
          else Pass
  }

  /** Every failing check with its message, in the order the checks are
      listed: an independent statement of what can be wrong with `c`. */
  function Problems(c: Config): seq<string> {
    (if CheckTargetAIConfig(c.deepSeek).Fail? then [Wrap("DeepSeek", TargetIncomplete)] else [])
    + (if CheckTargetAIConfig(c.qwen).Fail? then [Wrap("Qwen", TargetIncomplete)] else [])
    + (if CheckDriverAIConfig(c.gemini).Fail? then [Wrap("Gemini", DriverIncomplete)] else [])
    + (if c.maxRounds <= 0 then [MaxRoundsMessage] else [])
    + (if c.timeout <= 0 then [TimeoutMessage] else [])
  }

  /** `CheckConfig` passes exactly when nothing is wrong, and otherwise
      reports the first problem in the order DeepSeek, Qwen, Gemini,
      MaxRounds, Timeout. */
  lemma CheckConfigReportsFirstProblem(c: Config)
    ensures CheckConfig(c) == if Problems(c) == [] then Pass else Fail(Problems(c)[0])
  {
  }

  /** A target configuration that passes also passes as a driver
      configuration, and a driver configuration may lack an endpoint. */
  lemma TargetCheckIsStricter(c: AIConfig)
    ensures CheckTargetAIConfig(c).Pass? ==> CheckDriverAIConfig(c).Pass?
    ensures CheckDriverAIConfig(c).Pass? && c.baseURL == [] ==> CheckTargetAIConfig(c).Fail?
  {
  }

  /** The Gemini endpoint URL that `Load` stores, built from the model
      name and the key. */
  function GeminiEndpoint(model: string, apiKey: string): (url: string)
    ensures |url| == |EndpointPrefix| + |model| + |EndpointMiddle| + |apiKey|
    ensures url[..|EndpointPrefix|] == EndpointPrefix
    ensures url[|EndpointPrefix|..|EndpointPrefix| + |model|] == model
    ensures url[|EndpointPrefix| + |model|..|url| - |apiKey|] == EndpointMiddle
    ensures url[|url| - |apiKey|..] == apiKey
  {
    EndpointPrefix + model + EndpointMiddle + apiKey
  }

  /** `c` with the Gemini endpoint replaced by the one built from its own
      Gemini model and key; nothing else changes. */
  function WithGeminiEndpoint(c: Config): (r: Config)
    ensures r.deepSeek == c.deepSeek && r.qwen == c.qwen && r.geminiProxy == c.geminiProxy
    ensures r.maxRounds == c.maxRounds && r.timeout == c.timeout
    ensures r.gemini.model == c.gemini.model && r.gemini.apiKey == c.gemini.apiKey
    ensures r.gemini.baseURL == GeminiEndpoint(c.gemini.model, c.gemini.apiKey)
  {
    c.(gemini := c.gemini.(baseURL := GeminiEndpoint(c.gemini.model, c.gemini.apiKey)))
  }

  /** The rewrite keeps a valid configuration valid, and the rewritten one
      still has at least one round. */
  lemma EndpointKeepsConfigValid(c: Config)
    requires CheckConfig(c).Pass?
    ensures CheckConfig(WithGeminiEndpoint(c)).Pass?
    ensures WithGeminiEndpoint(c).maxRounds >= 1
  {
  }

  /** The package-level configuration that `Load` validates and then
      rewrites in place. */
  class Loader {
    var config: Config

    /** `loaded` is what reading the configuration file produced. */
    constructor (loaded: Config)
      ensures config == loaded
    {
      config := loaded;
    }

    /** Validate; on failure return the error and leave the configuration
        alone, on success rewrite the Gemini endpoint and return the
        configuration. */
    method Load() returns (r: Result<Config>)
      modifies this
      ensures CheckConfig(old(config)).Fail? ==>
        r == Failure(CheckConfig(old(config)).message) && config == old(config)
      ensures CheckConfig(old(config)).Pass? ==>
        config == WithGeminiEndpoint(old(config)) && r == Success(config)
      ensures r.Success? ==> CheckConfig(config).Pass? && config.maxRounds >= 1
    {
      var check := CheckConfig(config);
      if check.Fail? {
        return Failure(check.message);
      }
      EndpointKeepsConfigValid(config);
      config := config.(gemini := config.gemini.(baseURL := GeminiEndpoint(config.gemini.model, config.gemini.apiKey)));
      r := Success(config);
    }
  }
}
