/**
 * The agent's configuration, read once from the process environment. The environment is a
 * map; a missing key is `undefined`.
 */
module Config {
  import opened Wrappers
  import opened Text

  type Env = map<string, string>

  /** `required(name)`: fails when the variable is undefined or empty. */
  function Required(env: Env, name: string): (r: Result<string>)
    ensures r.Ok? <==> name in env && env[name] != ""
    ensures r.Ok? ==> r.value == env[name]
  {
    if name in env && env[name] != "" then Ok(env[name])
    else Err("Missing required env var: " + name)
  }

  /** `optional(name, fallback)`: the fallback only for an undefined variable; "" is kept. */
  function Optional(env: Env, name: string, fallback: string): (r: string)
    ensures name in env ==> r == env[name]
    ensures name !in env ==> r == fallback
  {
    if name in env then env[name] else fallback
  }

  /** `parseInt(s, 10)`: leading whitespace, an optional sign, then the longest digit prefix; NaN is None. */
  function ParseInt(s: string): (r: Option<int>)
  {
    var t := TrimStart(s);
    var neg := t != [] && t[0] == '-';
    var u := if t != [] && (t[0] == '-' || t[0] == '+') then t[1..] else t;
    var ds := DigitPrefix(u);
    var v: int := if ds == [] then 0 else DigitsValue(ds);
    if ds == [] then None else if neg then Some(-v) else Some(v)
  }

  function DigitPrefix(s: string): (ds: string)
    ensures |ds| <= |s| && AllDigits(ds) && ds == s[..|ds|]
    ensures |ds| < |s| ==> !IsDigit(s[|ds|])
  {
    if s != [] && IsDigit(s[0]) then [s[0]] + DigitPrefix(s[1..]) else []
  }

  /** A rendered non-negative integer parses back to itself. */
  lemma ParseIntOfNatToString(n: nat)
    ensures ParseInt(NatToString(n)) == Some(n)
  {
    var s := NatToString(n);
    assert !IsSpace(s[0]);
    assert TrimStart(s) == s;
    assert s[0] != '-' && s[0] != '+';
    AllDigitsPrefix(s);
    NatToStringValue(n);
  }

  lemma DefaultPort()
    ensures ParseInt("3001") == Some(3001)
  {
    var s := "3001";
    assert !IsSpace(s[0]) && s[0] != '-' && s[0] != '+';
    assert TrimStart(s) == s;
    assert AllDigits(s);
    AllDigitsPrefix(s);
    assert s[..3] == "300" && s[..3][..2] == "30" && s[..3][..2][..1] == "3";
    assert DigitsValue("3") == 3;
    assert DigitsValue("30") == 30;
    assert DigitsValue("300") == 300;
    assert DigitsValue(s) == 3001;
  }

  lemma {:induction false} AllDigitsPrefix(s: string)
    requires AllDigits(s)
    ensures DigitPrefix(s) == s
  {
    if s != [] {
      AllDigitsPrefix(s[1..]);
    }
  }

  datatype AgentConfig = AgentConfig(
    privateKey: string,
    rpcUrl: string,
    indexerRpc: string,
    negotiatorInftAddress: string,
    usageCreditsAddress: string,
    rfqMarketAddress: string,
    twilioAccountSid: string,
    twilioAuthToken: string,
    twilioAgentNumber: string,
    supplierNumber: string,
    ngrokUrl: string,
    agentPublicUrl: string,
    zgComputeBaseUrl: string,
    zgComputeApiKey: string,
    llmModel: string,
    agentPort: Option<int>)

  /** A field read with `optional`: the variable's value when it is defined (even ""), else the fallback. */
  predicate Setting(env: Env, name: string, fallback: string, v: string) {
    (name in env ==> v == env[name]) && (name !in env ==> v == fallback)
  }

  /** Building the config object: only PRIVATE_KEY is required, every other field has a default. */
  function LoadConfig(env: Env): (r: Result<AgentConfig>)
    ensures r.Err? <==> ("PRIVATE_KEY" !in env || env["PRIVATE_KEY"] == "")
    ensures r.Ok? ==> r.value.privateKey == env["PRIVATE_KEY"]
    ensures r.Ok? ==> var c := r.value;
      && Setting(env, "RPC_URL", "https://evmrpc-testnet.0g.ai", c.rpcUrl)
      && Setting(env, "INDEXER_RPC", "https://indexer-storage-testnet-turbo.0g.ai", c.indexerRpc)
      && Setting(env, "NEGOTIATOR_INFT_ADDRESS", "", c.negotiatorInftAddress)
      && Setting(env, "USAGE_CREDITS_ADDRESS", "", c.usageCreditsAddress)
      && Setting(env, "RFQ_MARKET_ADDRESS", "", c.rfqMarketAddress)
      && Setting(env, "TWILIO_ACCOUNT_SID", "", c.twilioAccountSid)
      && Setting(env, "TWILIO_AUTH_TOKEN", "", c.twilioAuthToken)
      && Setting(env, "TWILIO_AGENT_NUMBER", "", c.twilioAgentNumber)
      && Setting(env, "TWILIO_SUPPLIER_A_NUMBER", "+14802088823", c.supplierNumber)
      && Setting(env, "NGROK_URL", "", c.ngrokUrl)
      && Setting(env, "AGENT_PUBLIC_URL", "", c.agentPublicUrl)
      && Setting(env, "ZG_COMPUTE_BASE_URL", "https://api.0g.ai/v1", c.zgComputeBaseUrl)
      && Setting(env, "ZG_COMPUTE_API_KEY", "no-key-needed", c.zgComputeApiKey)
      && Setting(env, "LLM_MODEL", "meta-llama/Llama-3.3-70B-Instruct", c.llmModel)
    ensures r.Ok? && "AGENT_PORT" in env ==> r.value.agentPort == ParseInt(env["AGENT_PORT"])
    ensures r.Ok? && "AGENT_PORT" !in env ==> r.value.agentPort == Some(3001)
  {
    match Required(env, "PRIVATE_KEY")
    case Err(e) => Err(e)
    case Ok(key) =>
      DefaultPort();
      Ok(AgentConfig(
        privateKey := key,
        rpcUrl := Optional(env, "RPC_URL", "https://evmrpc-testnet.0g.ai"),
        indexerRpc := Optional(env, "INDEXER_RPC", "https://indexer-storage-testnet-turbo.0g.ai"),
        negotiatorInftAddress := Optional(env, "NEGOTIATOR_INFT_ADDRESS", ""),
        usageCreditsAddress := Optional(env, "USAGE_CREDITS_ADDRESS", ""),
        rfqMarketAddress := Optional(env, "RFQ_MARKET_ADDRESS", ""),
        twilioAccountSid := Optional(env, "TWILIO_ACCOUNT_SID", ""),
        twilioAuthToken := Optional(env, "TWILIO_AUTH_TOKEN", ""),
        twilioAgentNumber := Optional(env, "TWILIO_AGENT_NUMBER", ""),
        supplierNumber := Optional(env, "TWILIO_SUPPLIER_A_NUMBER", "+14802088823"),
        ngrokUrl := Optional(env, "NGROK_URL", ""),
        agentPublicUrl := Optional(env, "AGENT_PUBLIC_URL", ""),
        zgComputeBaseUrl := Optional(env, "ZG_COMPUTE_BASE_URL", "https://api.0g.ai/v1"),
        zgComputeApiKey := Optional(env, "ZG_COMPUTE_API_KEY", "no-key-needed"),
        llmModel := Optional(env, "LLM_MODEL", "meta-llama/Llama-3.3-70B-Instruct"),
        agentPort := ParseInt(Optional(env, "AGENT_PORT", "3001"))))
  }

  /** `s.replace(/\/$/, "")`: one trailing slash at most is removed. */
  function StripTrailingSlash(s: string): (r: string)
    ensures r == s || r + "/" == s
    ensures EndsWith(s, "/") <==> r != s
  {
    if EndsWith(s, "/") then s[..|s| - 1] else s
  }

  /** Only one slash goes: a URL ending in "//" still ends in "/" afterwards. */
  lemma StripOnlyOne(s: string)
    requires EndsWith(s, "//")
    ensures EndsWith(StripTrailingSlash(s), "/")
  {
    var r := StripTrailingSlash(s);
    assert s[|s| - 2..] == "//";
    assert r == s[..|s| - 1];
    assert r[|r| - 1..] == [s[|s| - 2]] == "/";
  }

  /** `getAgentPublicUrl()`: AGENT_PUBLIC_URL when non-empty, else NGROK_URL, without one trailing "/". */
  function GetAgentPublicUrl(cfg: AgentConfig): (r: string)
    ensures cfg.agentPublicUrl != "" ==> r == StripTrailingSlash(cfg.agentPublicUrl)
    ensures cfg.agentPublicUrl == "" ==> r == StripTrailingSlash(cfg.ngrokUrl)
  {
    StripTrailingSlash(if cfg.agentPublicUrl != "" then cfg.agentPublicUrl else cfg.ngrokUrl)
  }
}
