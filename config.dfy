/** Application settings (core/config.py): the provider enumeration, the field
    defaults and bounds, the two field validators and the provider selectors. */
module Config {
  import opened Wrappers
  import opened Strings

  datatype LlmProvider = Google | OpenAI | Anthropic

  /** The string value behind each enumeration member. */
  function ProviderValue(p: LlmProvider): string {
    match p
    case Google => "google"
    case OpenAI => "openai"
    case Anthropic => "anthropic"
  }

  /** The database URL that the shipped `.env` template leaves in place. */
  const PlaceholderDatabaseUrl: string := "your_database_url_here"

  /** The settings object after loading.  `temperature` is a float in the
      source; it is kept as a real here. */
  datatype Settings = Settings(
    llmProvider: LlmProvider,
    googleApiKey: Option<string>,
    openaiApiKey: Option<string>,
    anthropicApiKey: Option<string>,
    databaseUrl: Option<string>,
    googleModel: string,
    openaiModel: string,
    anthropicModel: string,
    temperature: real,
    maxRetries: int,
    requestTimeout: int,
    corsOrigins: string)

  /** The bounds the fields declare (`ge`/`le`). */
  predicate FieldBoundsHold(s: Settings) {
    0.0 <= s.temperature <= 2.0 &&
    0 <= s.maxRetries <= 10 &&
    10 <= s.requestTimeout <= 600
  }

  /** Every field at its declared default. */
  function DefaultSettings(): (s: Settings)
    ensures FieldBoundsHold(s)
    ensures s.llmProvider == Google && s.databaseUrl == None
    ensures s.googleApiKey == None && s.openaiApiKey == None && s.anthropicApiKey == None
  {
    Settings(Google, None, None, None, None,
             "gemini-pro", "gpt-4-turbo-preview", "claude-3-sonnet-20240229",
             0.0, 3, 120, "*")
  }

  /** Whether a database URL counts as configured: set, non-empty and not the
      placeholder.  Both the SQL executor and the validation engine test this. */
  predicate DatabaseConfigured(url: Option<string>) {
    url.Some? && url.value != "" && url.value != PlaceholderDatabaseUrl
  }

  /** The raw value the `llm_provider` validator receives.  Enumeration members
      are `str` instances too, because the enumeration derives from `str`. */
  datatype RawProvider = Text(s: string) | Member(p: LlmProvider) | NonString(repr: string)

  /** `validate_provider`: string input is lower-cased, anything else passes through. */
  function ValidateProvider(v: RawProvider): (r: RawProvider)
    ensures v.NonString? ==> r == v
    ensures v.Text? ==> r == Text(Lower(v.s))
    ensures v.Member? ==> r == Text(ProviderValue(v.p))
  {
    match v
    case Text(s) => Text(Lower(s))
    case Member(p) =>
      LowerOfLowercase(ProviderValue(p));
      Text(Lower(ProviderValue(p)))
    case NonString(_) => v
  }

  /** Lower-casing a string without capital letters changes nothing. */
  lemma LowerOfLowercase(s: string)
    requires forall i :: 0 <= i < |s| ==> !('A' <= s[i] <= 'Z')
    ensures Lower(s) == s
  {
  }

  /** The enumeration's own coercion of the validated value (by value). */
  function CoerceProvider(v: RawProvider): Option<LlmProvider> {
    match v
    case Member(p) => Some(p)
    case NonString(_) => None
    case Text(s) =>
      if s == "google" then Some(Google)
      else if s == "openai" then Some(OpenAI)
      else if s == "anthropic" then Some(Anthropic)
      else None
  }

  /** With the validator in front, a provider name is accepted in any letter
      case, and only the three names are. */
  lemma ProviderNameCaseInsensitive(s: string, p: LlmProvider)
    ensures CoerceProvider(ValidateProvider(Text(s))) == Some(p) <==> Lower(s) == ProviderValue(p)
  {
  }

  /** The validator is idempotent. */
  lemma ValidateProviderIdempotent(v: RawProvider)
    ensures ValidateProvider(ValidateProvider(v)) == ValidateProvider(v)
  {
    match v
    case Text(s) =>
      assert Lower(Lower(s)) == Lower(s);
    case Member(p) =>
    case NonString(_) =>
  }

  /** `[origin.strip() for origin in parts if origin.strip()]` */
  function StrippedNonEmpty(parts: seq<string>): seq<string> {
    if parts == [] then []
    else if Strip(parts[0]) == "" then StrippedNonEmpty(parts[1..])
    else [Strip(parts[0])] + StrippedNonEmpty(parts[1..])
  }

  /** An origin as the parser produces it. */
  predicate IsCleanOrigin(o: string) {
    o != "" && IsStripped(o) && ',' !in o
  }

  lemma {:induction false} StrippedNonEmptyClean(parts: seq<string>)
    requires forall i :: 0 <= i < |parts| ==> ',' !in parts[i]
    ensures forall i :: 0 <= i < |StrippedNonEmpty(parts)| ==> IsCleanOrigin(StrippedNonEmpty(parts)[i])
  {
    if parts != [] {
      var rest := StrippedNonEmpty(parts[1..]);
      StrippedNonEmptyClean(parts[1..]);
      var h := Strip(parts[0]);
      if h != "" {
        StripResult(parts[0]);
        StripKeepsAbsent(parts[0], ',');
        assert IsCleanOrigin(h);
        var r := [h] + rest;
        assert StrippedNonEmpty(parts) == r;
        forall i | 0 <= i < |r| ensures IsCleanOrigin(r[i]) {
          if i > 0 { assert r[i] == rest[i - 1]; }
        }
      }
    }
  }

  /** `parse_cors_origins`: every parsed origin is non-empty, has no
      surrounding whitespace and no comma; "*" alone allows every origin. */
  function ParseCorsOrigins(v: string): (r: seq<string>)
    ensures forall i :: 0 <= i < |r| ==> IsCleanOrigin(r[i])
    ensures v == "*" ==> r == ["*"]
  {
    if v == "*" then ["*"]
    else
      SplitPiecesWithout(v, ',');
      StrippedNonEmptyClean(Split(v, ","));
      StrippedNonEmpty(Split(v, ","))
  }

  lemma {:induction false} StrippedNonEmptyKeepsClean(parts: seq<string>)
    requires forall i :: 0 <= i < |parts| ==> IsCleanOrigin(parts[i])
    ensures StrippedNonEmpty(parts) == parts
  {
    if parts != [] {
      StripStripped(parts[0]);
      StrippedNonEmptyKeepsClean(parts[1..]);
    }
  }

  /** A comma-joined list of clean origins parses back to the same list, in order. */
  lemma CorsOriginsRoundTrip(origins: seq<string>)
    requires forall i :: 0 <= i < |origins| ==> IsCleanOrigin(origins[i])
    ensures ParseCorsOrigins(Join(origins, ",")) == origins
  {
    var v := Join(origins, ",");
    if origins == [] {
      assert Split(v, ",") == [""];
    } else {
      SplitJoin(origins, ',');
      if v == "*" {
        SplitWithout("*", ',');
      } else {
        StrippedNonEmptyKeepsClean(origins);
      }
    }
  }

  function MissingKeyMessage(p: LlmProvider): string {
    match p
    case Google => "GOOGLE_API_KEY is required when using Google provider"
    case OpenAI => "OPENAI_API_KEY is required when using OpenAI provider"
    case Anthropic => "ANTHROPIC_API_KEY is required when using Anthropic provider"
  }

  /** `get_required_api_key`: the selected provider's key; a missing or empty
      key is the `ValueError` naming that provider's variable. */
  function GetRequiredApiKey(s: Settings): (r: Result<string, string>)
    ensures r.Ok? ==> r.value != ""
    ensures r.Err? <==> (s.llmProvider == Google && s.googleApiKey.GetOr("") == "") ||
                        (s.llmProvider == OpenAI && s.openaiApiKey.GetOr("") == "") ||
                        (s.llmProvider == Anthropic && s.anthropicApiKey.GetOr("") == "")
    ensures r.Err? ==> r.error == MissingKeyMessage(s.llmProvider)
  {
    match s.llmProvider
    case Google =>
      if s.googleApiKey.GetOr("") == "" then Err(MissingKeyMessage(Google)) else Ok(s.googleApiKey.value)
    case OpenAI =>
      if s.openaiApiKey.GetOr("") == "" then Err(MissingKeyMessage(OpenAI)) else Ok(s.openaiApiKey.value)
    case Anthropic =>
      if s.anthropicApiKey.GetOr("") == "" then Err(MissingKeyMessage(Anthropic)) else Ok(s.anthropicApiKey.value)
  }

  /** `get_model_name` */
  function GetModelName(s: Settings): (r: string)
    ensures s.llmProvider == Google ==> r == s.googleModel
    ensures s.llmProvider == OpenAI ==> r == s.openaiModel
    ensures s.llmProvider == Anthropic ==> r == s.anthropicModel
  {
    match s.llmProvider
    case Google => s.googleModel
    case OpenAI => s.openaiModel
    case Anthropic => s.anthropicModel
  }

  /** Two settings that agree on the provider and on that provider's key and
      model give the same key and model: the other providers' fields are never read. */
  lemma SelectionReadsOnlySelectedProvider(s: Settings, t: Settings)
    requires s.llmProvider == t.llmProvider
    requires s.llmProvider == Google ==> s.googleApiKey == t.googleApiKey && s.googleModel == t.googleModel
    requires s.llmProvider == OpenAI ==> s.openaiApiKey == t.openaiApiKey && s.openaiModel == t.openaiModel
    requires s.llmProvider == Anthropic ==> s.anthropicApiKey == t.anthropicApiKey && s.anthropicModel == t.anthropicModel
    ensures GetRequiredApiKey(s) == GetRequiredApiKey(t)
    ensures GetModelName(s) == GetModelName(t)
  {
  }

  /** With the defaults, the model is Google's default and the key is missing. */
  lemma DefaultSelection()
    ensures GetModelName(DefaultSettings()) == "gemini-pro"
    ensures GetRequiredApiKey(DefaultSettings()) == Err("GOOGLE_API_KEY is required when using Google provider")
  {
  }
}
