/** The image-provider factory: the names a provider type is parsed from,
    the list of supported providers, the dispatch to a provider's
    constructor, and the option list built from a configuration. The
    constructors themselves are collaborators: the model records which one
    is called and with which options. */
module ImageFactory {
  import opened Wrappers
  import Text
  import ImageProvider

  /** `ProviderType` is a string type: any string can be one. */
  type ProviderType = string

  const OpenAI: ProviderType := "openai"
  const Stability: ProviderType := "stability"
  const DashScope: ProviderType := "dashscope"
  const Ernie: ProviderType := "ernie"
  const Hunyuan: ProviderType := "hunyuan"

  /** `SupportedProviders`. */
  const SupportedProviders: seq<ProviderType> := [OpenAI, Stability, DashScope, Ernie, Hunyuan]

  /** `unicode.ToLower`: the evaluators' model of it (ASCII and Latin-1),
      extended by the two letters outside Latin-1 whose lower case is ASCII,
      capital I with dot above and the Kelvin sign. Together these are every
      character that lowers into an alias name. */
  function LowerChar(c: char): char
  {
    if c == '\U{0130}' then 'i'
    else if c == '\U{212A}' then 'k'
    else Text.ToLowerChar(c)
  }

  /** `strings.ToLower`, character by character. */
  function Lower(s: string): (l: string)
    ensures |l| == |s|
  {
    seq(|s|, i requires 0 <= i < |s| => LowerChar(s[i]))
  }

  /** The names each supported provider is parsed from, its own first. */
  function Aliases(p: ProviderType): seq<string>
  {
    if p == OpenAI then ["openai", "dall-e", "dalle", "gpt-image"]
    else if p == Stability then ["stability", "stable-diffusion", "sd"]
    else if p == DashScope then ["dashscope", "aliyun", "wanx", "tongyi"]
    else if p == Ernie then ["ernie", "baidu", "wenxin", "yige"]
    else if p == Hunyuan then ["hunyuan", "tencent"]
    else []
  }

  const UnknownProvider := "unknown provider: "
  const UnknownProviderType := "unknown provider type: "

  /** `ParseProviderType`: the lower-cased name switched on; an unknown name
      gives the empty type and an error naming the input as given. */
  function ParseProviderType(s: string): (ProviderType, Option<string>)
  {
    var l := Lower(s);
    if l == "openai" || l == "dall-e" || l == "dalle" || l == "gpt-image" then (OpenAI, None)
    else if l == "stability" || l == "stable-diffusion" || l == "sd" then (Stability, None)
    else if l == "dashscope" || l == "aliyun" || l == "wanx" || l == "tongyi" then (DashScope, None)
    else if l == "ernie" || l == "baidu" || l == "wenxin" || l == "yige" then (Ernie, None)
    else if l == "hunyuan" || l == "tencent" then (Hunyuan, None)
    else ("", Some(UnknownProvider + s))
  }

  /** Lower-casing twice is lower-casing once. */
  lemma LowerIdempotent(s: string)
    ensures Lower(Lower(s)) == Lower(s)
  {
    forall i | 0 <= i < |s|
      ensures Lower(Lower(s))[i] == Lower(s)[i]
    {
      var c := s[i];
      assert LowerChar(LowerChar(c)) == LowerChar(c);
    }
  }

  /** Every alias parses to its provider; so no name is the alias of two
      providers. */
  lemma AliasTable(p: ProviderType, a: string)
    requires p in SupportedProviders && a in Aliases(p)
    ensures ParseProviderType(a) == (p, None)
  {
    if p == OpenAI {
      OpenAIAliases(a);
    } else if p == Stability {
      StabilityAliases(a);
    } else if p == DashScope {
      DashScopeAliases(a);
    } else if p == Ernie {
      ErnieAliases(a);
    } else {
      HunyuanAliases(a);
    }
  }

  lemma OpenAIAliases(a: string)
    requires a in Aliases(OpenAI)
    ensures ParseProviderType(a) == (OpenAI, None)
  {
    assert Lower("openai") == "openai" && Lower("dall-e") == "dall-e";
    assert Lower("dalle") == "dalle" && Lower("gpt-image") == "gpt-image";
  }

  lemma StabilityAliases(a: string)
    requires a in Aliases(Stability)
    ensures ParseProviderType(a) == (Stability, None)
  {
    assert Lower("stability") == "stability" && Lower("stable-diffusion") == "stable-diffusion";
    assert Lower("sd") == "sd";
  }

  lemma DashScopeAliases(a: string)
    requires a in Aliases(DashScope)
    ensures ParseProviderType(a) == (DashScope, None)
  {
    assert Lower("dashscope") == "dashscope" && Lower("aliyun") == "aliyun";
    assert Lower("wanx") == "wanx" && Lower("tongyi") == "tongyi";
  }

  lemma ErnieAliases(a: string)
    requires a in Aliases(Ernie)
    ensures ParseProviderType(a) == (Ernie, None)
  {
    assert Lower("ernie") == "ernie" && Lower("baidu") == "baidu";
    assert Lower("wenxin") == "wenxin" && Lower("yige") == "yige";
  }

  lemma HunyuanAliases(a: string)
    requires a in Aliases(Hunyuan)
    ensures ParseProviderType(a) == (Hunyuan, None)
  {
    assert Lower("hunyuan") == "hunyuan" && Lower("tencent") == "tencent";
  }

  /** A parse succeeds exactly when the lower-cased name is an alias of the
      type it gives, which is then a supported provider; a failed parse gives
      the empty type and an error naming the input as given. */
  lemma ParseProviderTypeMeaning(s: string)
    ensures ParseProviderType(s).1.None? <==> Lower(s) in Aliases(ParseProviderType(s).0)
    ensures ParseProviderType(s).1.None? ==> ParseProviderType(s).0 in SupportedProviders
    ensures ParseProviderType(s).1.Some? ==> ParseProviderType(s) == ("", Some(UnknownProvider + s))
  {
  }

  /** The parse reads only the lower-cased name: names equal up to case give
      the same result but for the error text, and a name parses as its own
      lower case does. */
  lemma CaseInsensitive(s: string, t: string)
    requires Lower(s) == Lower(t)
    ensures ParseProviderType(s).0 == ParseProviderType(t).0
    ensures ParseProviderType(s).1.None? <==> ParseProviderType(t).1.None?
    ensures ParseProviderType(Lower(s)).0 == ParseProviderType(s).0
  {
    LowerIdempotent(s);
    assert Lower(Lower(s)) == Lower(s);
  }

  /** The mixed-case names of the factory's table parse as their lower case. */
  lemma ParseExamples()
    ensures ParseProviderType("OpenAI") == (OpenAI, None)
    ensures ParseProviderType("DALL-E") == (OpenAI, None)
  {
    assert Lower("OpenAI") == "openai";
    assert Lower("DALL-E") == "dall-e";
  }

  /** Aliases of the factory's table parse to their providers. */
  lemma ParseAliasExamples()
    ensures ParseProviderType("sd") == (Stability, None)
    ensures ParseProviderType("tongyi") == (DashScope, None)
    ensures ParseProviderType("baidu") == (Ernie, None)
    ensures ParseProviderType("tencent") == (Hunyuan, None)
  {
    assert Lower("sd") == "sd";
    assert Lower("tongyi") == "tongyi";
    assert Lower("baidu") == "baidu";
    assert Lower("tencent") == "tencent";
  }

  /** An unknown name and the empty name are errors naming the input. */
  lemma ParseUnknownExamples()
    ensures ParseProviderType("unknown") == ("", Some(UnknownProvider + "unknown"))
    ensures ParseProviderType("") == ("", Some(UnknownProvider))
  {
    assert Lower("unknown") == "unknown";
    assert UnknownProvider + "" == UnknownProvider;
  }

  /** Five distinct providers, each parsed back from its own name; every
      successful parse gives one of them. */
  lemma SupportedProvidersMeaning(s: string)
    ensures |SupportedProviders| == 5
    ensures forall i, j :: 0 <= i < j < |SupportedProviders| ==> SupportedProviders[i] != SupportedProviders[j]
    ensures forall p :: p in SupportedProviders ==> ParseProviderType(p) == (p, None)
    ensures ParseProviderType(s).1.None? ==> ParseProviderType(s).0 in SupportedProviders
  {
    forall p | p in SupportedProviders
      ensures ParseProviderType(p) == (p, None)
    {
      AliasTable(p, p);
    }
  }

  // ---------------------------------------------------------------------------
  // NewImageProvider and NewImageProviderFromConfig

  /** An option passed to a provider's constructor; a timeout is a
      `time.Duration` in nanoseconds. */
  datatype ProviderOption =
    | WithAPIKey(key: string)
    | WithSecretKey(secret: string)
    | WithBaseURL(url: string)
    | WithModel(model: string)
    | WithTimeout(nanoseconds: int)
    | WithMaxRetries(retries: int)

  /** The constructor called and the options it receives. */
  datatype Construction = Construction(provider: ProviderType, options: seq<ProviderOption>)

  /** `NewImageProvider`: the constructor of the exact type named (no
      lower-casing here), else an error. */
  function NewImageProvider(providerType: ProviderType, opts: seq<ProviderOption>): (r: Result<Construction>)
  {
    if providerType == OpenAI || providerType == Stability || providerType == DashScope
       || providerType == Ernie || providerType == Hunyuan
    then Ok(Construction(providerType, opts))
    else Err(UnknownProviderType + providerType)
  }

  /** Dispatch reaches a constructor exactly for the supported types, which
      receives the options unchanged; a type in another case is unknown. */
  lemma NewImageProviderMeaning(providerType: ProviderType, opts: seq<ProviderOption>)
    ensures NewImageProvider(providerType, opts).Ok? <==> providerType in SupportedProviders
    ensures NewImageProvider(providerType, opts).Ok? ==>
      NewImageProvider(providerType, opts).value == Construction(providerType, opts)
    ensures NewImageProvider(providerType, opts).Err? ==>
      NewImageProvider(providerType, opts).error == UnknownProviderType + providerType
    ensures NewImageProvider("OpenAI", opts).Err?
  {
  }

  datatype ProviderConfig = ProviderConfig(
    providerType: ProviderType, apiKey: string, secretKey: string, baseURL: string,
    model: string, timeoutSeconds: int, maxRetries: int)

  const NanosPerSecond := 1_000_000_000

  /** `opts = append(opts, o)` under a condition. */
  function AppendIf(opts: seq<ProviderOption>, cond: bool, o: ProviderOption): seq<ProviderOption>
  {
    if cond then opts + [o] else opts
  }

  /** The option list of `NewImageProviderFromConfig`: the API key always,
      then each other setting in turn when it is non-empty or positive. */
  function ConfigOptions(cfg: ProviderConfig): seq<ProviderOption>
  {
    var opts := [WithAPIKey(cfg.apiKey)];
    var opts := AppendIf(opts, cfg.secretKey != "", WithSecretKey(cfg.secretKey));
    var opts := AppendIf(opts, cfg.baseURL != "", WithBaseURL(cfg.baseURL));
    var opts := AppendIf(opts, cfg.model != "", WithModel(cfg.model));
    var opts := AppendIf(opts, cfg.timeoutSeconds > 0, WithTimeout(ImageProvider.Wrap64(cfg.timeoutSeconds * NanosPerSecond)));
    AppendIf(opts, cfg.maxRetries > 0, WithMaxRetries(cfg.maxRetries))
  }

  /** `NewImageProviderFromConfig`. */
  function NewImageProviderFromConfig(cfg: ProviderConfig): Result<Construction>
  {
    NewImageProvider(cfg.providerType, ConfigOptions(cfg))
  }

  /** The position of an option kind in the list. */
  function Rank(o: ProviderOption): nat
  {
    match o
    case WithAPIKey(_) => 0
    case WithSecretKey(_) => 1
    case WithBaseURL(_) => 2
    case WithModel(_) => 3
    case WithTimeout(_) => 4
    case WithMaxRetries(_) => 5
  }

  predicate RankIncreasing(opts: seq<ProviderOption>)
  {
    forall i, j :: 0 <= i < j < |opts| ==> Rank(opts[i]) < Rank(opts[j])
  }

  /** One conditional append of an option ranked above all present keeps the
      ranks increasing and adds that option alone. */
  lemma AppendIfRanked(opts: seq<ProviderOption>, cond: bool, o: ProviderOption)
    requires RankIncreasing(opts) && forall x :: x in opts ==> Rank(x) < Rank(o)
    ensures RankIncreasing(AppendIf(opts, cond, o))
    ensures forall x :: x in AppendIf(opts, cond, o) <==> x in opts || (cond && x == o)
    ensures forall x :: x in AppendIf(opts, cond, o) ==> Rank(x) <= Rank(o)
  {
    if cond {
      forall i, j | 0 <= i < j < |opts| + 1
        ensures Rank((opts + [o])[i]) < Rank((opts + [o])[j])
      {
        assert (opts + [o])[i] == opts[i] && opts[i] in opts;
      }
    }
  }

  /** The list as built, one conditional append at a time. */
  lemma ConfigOptionsSteps(cfg: ProviderConfig)
    ensures var o0 := [WithAPIKey(cfg.apiKey)];
      var o1 := AppendIf(o0, cfg.secretKey != "", WithSecretKey(cfg.secretKey));
      var o2 := AppendIf(o1, cfg.baseURL != "", WithBaseURL(cfg.baseURL));
      var o3 := AppendIf(o2, cfg.model != "", WithModel(cfg.model));
      var o4 := AppendIf(o3, cfg.timeoutSeconds > 0, WithTimeout(ImageProvider.Wrap64(cfg.timeoutSeconds * NanosPerSecond)));
      ConfigOptions(cfg) == AppendIf(o4, cfg.maxRetries > 0, WithMaxRetries(cfg.maxRetries))
  {
  }

  /** The API key comes first, even when empty, and the kinds that follow
      appear at most once each, in a fixed order. */
  lemma ConfigOptionsOrder(cfg: ProviderConfig)
    ensures |ConfigOptions(cfg)| >= 1 && ConfigOptions(cfg)[0] == WithAPIKey(cfg.apiKey)
    ensures RankIncreasing(ConfigOptions(cfg))
  {
    var o0 := [WithAPIKey(cfg.apiKey)];
    var o1 := AppendIf(o0, cfg.secretKey != "", WithSecretKey(cfg.secretKey));
    var o2 := AppendIf(o1, cfg.baseURL != "", WithBaseURL(cfg.baseURL));
    var o3 := AppendIf(o2, cfg.model != "", WithModel(cfg.model));
    var o4 := AppendIf(o3, cfg.timeoutSeconds > 0, WithTimeout(ImageProvider.Wrap64(cfg.timeoutSeconds * NanosPerSecond)));
    var o5 := AppendIf(o4, cfg.maxRetries > 0, WithMaxRetries(cfg.maxRetries));
    ConfigOptionsSteps(cfg);
    AppendIfRanked(o0, cfg.secretKey != "", WithSecretKey(cfg.secretKey));
    AppendIfRanked(o1, cfg.baseURL != "", WithBaseURL(cfg.baseURL));
    AppendIfRanked(o2, cfg.model != "", WithModel(cfg.model));
    AppendIfRanked(o3, cfg.timeoutSeconds > 0, WithTimeout(ImageProvider.Wrap64(cfg.timeoutSeconds * NanosPerSecond)));
    AppendIfRanked(o4, cfg.maxRetries > 0, WithMaxRetries(cfg.maxRetries));
    assert o1[0] == o2[0] == o3[0] == o4[0] == o5[0] == WithAPIKey(cfg.apiKey);
  }

  /** The options are the API key and each setting that is non-empty or
      positive, carrying that setting. */
  lemma ConfigOptionsMembers(cfg: ProviderConfig)
    ensures forall o :: o in ConfigOptions(cfg) <==>
      || o == WithAPIKey(cfg.apiKey)
      || (cfg.secretKey != "" && o == WithSecretKey(cfg.secretKey))
      || (cfg.baseURL != "" && o == WithBaseURL(cfg.baseURL))
      || (cfg.model != "" && o == WithModel(cfg.model))
      || (cfg.timeoutSeconds > 0 && o == WithTimeout(ImageProvider.Wrap64(cfg.timeoutSeconds * NanosPerSecond)))
      || (cfg.maxRetries > 0 && o == WithMaxRetries(cfg.maxRetries))
  {
    ConfigOptionsSteps(cfg);
  }

  /** Each optional setting appears exactly when it is set. */
  lemma OptionalSettings(cfg: ProviderConfig)
    ensures (exists o :: o in ConfigOptions(cfg) && o.WithSecretKey?) <==> cfg.secretKey != ""
    ensures (exists o :: o in ConfigOptions(cfg) && o.WithBaseURL?) <==> cfg.baseURL != ""
    ensures (exists o :: o in ConfigOptions(cfg) && o.WithModel?) <==> cfg.model != ""
    ensures (exists o :: o in ConfigOptions(cfg) && o.WithTimeout?) <==> cfg.timeoutSeconds > 0
    ensures (exists o :: o in ConfigOptions(cfg) && o.WithMaxRetries?) <==> cfg.maxRetries > 0
  {
    ConfigOptionsMembers(cfg);
    if cfg.secretKey != "" { assert WithSecretKey(cfg.secretKey) in ConfigOptions(cfg); }
    if cfg.baseURL != "" { assert WithBaseURL(cfg.baseURL) in ConfigOptions(cfg); }
    if cfg.model != "" { assert WithModel(cfg.model) in ConfigOptions(cfg); }
    if cfg.timeoutSeconds > 0 {
      assert WithTimeout(ImageProvider.Wrap64(cfg.timeoutSeconds * NanosPerSecond)) in ConfigOptions(cfg);
    }
    if cfg.maxRetries > 0 { assert WithMaxRetries(cfg.maxRetries) in ConfigOptions(cfg); }
  }

  /** The configuration of the factory's test: an OpenAI provider with a key,
      a model, a 30-second timeout and 3 retries calls the OpenAI constructor
      with exactly those four options, in that order. */
  lemma FromConfigExample()
    ensures NewImageProviderFromConfig(ProviderConfig(OpenAI, "test-key", "", "", "dall-e-3", 30, 3))
            == Ok(Construction(OpenAI, [WithAPIKey("test-key"), WithModel("dall-e-3"),
                                        WithTimeout(30_000_000_000), WithMaxRetries(3)]))
  {
    var cfg := ProviderConfig(OpenAI, "test-key", "", "", "dall-e-3", 30, 3);
    assert ImageProvider.Wrap64(30 * NanosPerSecond) == 30_000_000_000;
    ConfigOptionsSteps(cfg);
    assert ConfigOptions(cfg) == [WithAPIKey("test-key"), WithModel("dall-e-3"),
                                  WithTimeout(30_000_000_000), WithMaxRetries(3)];
    assert OpenAI in SupportedProviders;
  }

  /** The configuration's type is not lower-cased: the factory succeeds
      exactly for the five supported names as written. */
  lemma FromConfigTypeExact(cfg: ProviderConfig)
    ensures NewImageProviderFromConfig(cfg).Ok? <==> cfg.providerType in SupportedProviders
    ensures NewImageProviderFromConfig(cfg).Ok? ==>
      NewImageProviderFromConfig(cfg).value == Construction(cfg.providerType, ConfigOptions(cfg))
  {
  }
}
