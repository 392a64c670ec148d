/** Reading settings from the environment: strings with defaults, required strings, booleans
    and integers, and the `Config` record built from them. The environment is a map from
    variable names to values; a name absent from the map is an unset variable. */
module ConfigLoader {
  import opened Wrappers
  import opened PyStr

  type Env = map<string, string>

  /** The `ValueError` message of a missing required variable. */
  function MissingMessage(key: string): string {
    "환경변수 '" + key + "'가 설정되어 있지 않습니다."
  }

  /** The `ValueError` message of a variable that does not read as an integer. */
  function NotIntMessage(key: string, raw: string): string {
    "환경변수 '" + key + "'는 int 여야 합니다. 현재 값: " + raw
  }

  /** `get_env`: the variable's value, else the default; a required variable that ends up
      `None` or empty is an error. */
  function GetEnv(env: Env, key: string, default: Option<string>, required: bool)
    : (r: Result<Option<string>, string>)
    ensures r.Err? <==> required && (if key in env then env[key] == "" else default.None? || default.value == "")
    ensures r.Err? ==> r.error == MissingMessage(key)
    ensures r.Ok? ==> r.value == (if key in env then Some(env[key]) else default)
  {
    var value := if key in env then Some(env[key]) else default;
    if required && (value.None? || value.value == "") then Err(MissingMessage(key))
    else Ok(value)
  }

  /** The values `get_bool` reads as true, after stripping and lowercasing. */
  const Truthy: set<string> := {"1", "true", "yes", "y", "on"}

  /** `get_bool`: the default when unset, otherwise whether the stripped, lowercased value is
      one of the truthy words. */
  function GetBool(env: Env, key: string, default: bool): bool {
    if key !in env then default else Lower(Strip(env[key])) in Truthy
  }

  /** Python's `int` on a decimal string: surrounding whitespace, an optional sign, and digits
      with single underscores between them. */
  predicate IntDigits(b: string) {
    && b != [] && IsDigit(b[0]) && IsDigit(b[|b| - 1])
    && (forall i :: 0 <= i < |b| ==> IsDigit(b[i]) || b[i] == '_')
    && !Contains(b, "__")
  }

  function ParseInt(s: string): (r: Option<int>)
    ensures r.Some? ==> !IsBlank(s)
  {
    ParseSigned(Strip(s))
  }

  /** `int` on a string with no surrounding whitespace. */
  function ParseSigned(t: string): (r: Option<int>)
    ensures r.Some? ==> t != []
  {
    var neg := t != [] && t[0] == '-';
    var body := if t != [] && (t[0] == '-' || t[0] == '+') then t[1..] else t;
    if IntDigits(body) then
      var magnitude: int := BodyValue(body);
      Some(if neg then -magnitude else magnitude)
    else None
  }

  /** The number an `int` body denotes: its digits, underscores dropped. */
  function BodyValue(body: string): nat
    requires IntDigits(body)
  {
    WithoutDigits(body);
    DigitsValue(Without(body, '_'))
  }

  /** `get_int`: the default when unset or empty, otherwise the value read as an integer, or
      an error when it does not read as one. */
  function GetInt(env: Env, key: string, default: int): (r: Result<int, string>)
    ensures key !in env || env[key] == "" ==> r == Ok(default)
    ensures key in env && env[key] != "" ==>
      (r.Ok? <==> ParseInt(env[key]).Some?) &&
      (r.Ok? ==> r.value == ParseInt(env[key]).value) &&
      (r.Err? ==> r.error == NotIntMessage(key, env[key]))
  {
    if key !in env || env[key] == "" then Ok(default)
    else
      var parsed := ParseInt(env[key]);
      if parsed.Some? then Ok(parsed.value) else Err(NotIntMessage(key, env[key]))
  }

  /** The settings of `Config`. */
  datatype Config = Config(
    openAiApiKey: string,
    unsplashAccessKey: string,
    pexelsApiKey: string,
    pixabayApiKey: string,
    logLevel: string,
    videoOutputDir: string)

  /** A variable that is never required reads as a string once it has a default. */
  function Optional(env: Env, key: string, default: string): string {
    if key in env then env[key] else default
  }

  /** The class body of `Config`, evaluated against the environment. */
  function LoadConfig(env: Env): Result<Config, string> {
    match GetEnv(env, "OPENAI_API_KEY", None, true)
    case Err(e) => Err(e)
    case Ok(openAi) =>
      Ok(Config(
        openAi.value,
        Optional(env, "UNSPLASH_ACCESS_KEY", ""),
        Optional(env, "PEXELS_API_KEY", ""),
        Optional(env, "PIXABAY_API_KEY", ""),
        Optional(env, "LOG_LEVEL", "INFO"),
        Optional(env, "VIDEO_OUTPUT_DIR", "output")))
  }

  // ---------------------------------------------------------------------------------------
  // What the settings promise

  /** The characters left after dropping underscores from `IntDigits` are all digits. */
  lemma {:induction false} WithoutDigits(b: string)
    requires forall i :: 0 <= i < |b| ==> IsDigit(b[i]) || b[i] == '_'
    ensures AllDigits(Without(b, '_'))
  {
    if b != [] {
      WithoutDigits(b[1..]);
    }
  }

  /** An optional string setting is the given value when set (even when empty), else the
      default; it never fails. */
  lemma GetEnvOptional(env: Env, key: string, default: string)
    ensures GetEnv(env, key, Some(default), false) == Ok(Some(Optional(env, key, default)))
  {
  }

  /** A set value the truthy list does not name, the empty string included, reads as false
      whatever the default. */
  lemma GetBoolIgnoresDefault(env: Env, key: string)
    requires key in env && Lower(Strip(env[key])) !in Truthy
    ensures !GetBool(env, key, true) && !GetBool(env, key, false)
  {
  }

  lemma GetBoolEmpty(env: Env, key: string)
    requires key in env && env[key] == ""
    ensures !GetBool(env, key, true)
  {
    TruthyWords();
    assert Strip(env[key]) == [];
    assert Lower([]) == [];
  }

  /** Lower-case ASCII letters and digits only. */
  predicate LowerAlnum(w: string) {
    forall i :: 0 <= i < |w| ==> 'a' <= w[i] <= 'z' || IsDigit(w[i])
  }

  lemma TruthyWords()
    ensures forall w :: w in Truthy ==> w != [] && LowerAlnum(w)
  {
  }

  /** Upper-casing a lower-case word and lower-casing it again gives it back; the upper-cased
      word has no whitespace. */
  lemma LowerUpper(w: string)
    requires LowerAlnum(w)
    ensures Lower(Upper(w)) == w
    ensures forall i :: 0 <= i < |w| ==> !IsSpace(Upper(w)[i])
  {
  }

  /** A truthy word reads as true in any letter case, with any surrounding whitespace. */
  lemma GetBoolTruthy(env: Env, key: string, w: string, pre: string, post: string)
    requires w in Truthy && IsBlank(pre) && IsBlank(post)
    requires key in env && env[key] == pre + Upper(w) + post
    ensures GetBool(env, key, false)
  {
    TruthyWords();
    var u := Upper(w);
    LowerUpper(w);
    assert u != [] && IsTrimmed(u);
    StripAround(pre, u, post);
  }

  /** `str(n)` for an integer. */
  function IntToString(n: int): (r: string)
    ensures r != [] && (IsDigit(r[0]) || r[0] == '-') && IsDigit(r[|r| - 1])
  {
    if n < 0 then "-" + NatToString(-n) else NatToString(n)
  }

  /** A sign (or none) followed by plain digits reads as the number they denote. */
  lemma ParseIntDigits(t: string, neg: bool, d: string)
    requires d != [] && AllDigits(d) && t == (if neg then "-" else "") + d
    ensures ParseInt(t) == Some(if neg then -(DigitsValue(d) as int) else DigitsValue(d))
  {
    assert IsTrimmed(t) by {
      assert IsDigit(d[|d| - 1]) && t[|t| - 1] == d[|d| - 1];
    }
    StripTrimmed(t);
    ParseSignedDigits(t, neg, d);
  }

  lemma ParseSignedDigits(t: string, neg: bool, d: string)
    requires d != [] && AllDigits(d) && t == (if neg then "-" else "") + d
    ensures ParseSigned(t) == Some(if neg then -(DigitsValue(d) as int) else DigitsValue(d))
  {
    PlainDigits(d);
    var body := if t[0] == '-' || t[0] == '+' then t[1..] else t;
    assert body == d by {
      if neg {
        assert t[1..] == d;
      }
    }
    assert (t[0] == '-') == neg;
    assert BodyValue(d) == DigitsValue(d);
  }

  /** Plain digits are a valid `int` body with no underscore to drop. */
  lemma PlainDigits(d: string)
    requires d != [] && AllDigits(d)
    ensures IntDigits(d) && Without(d, '_') == d && d[0] != '-' && d[0] != '+'
  {
    assert '_' !in d by {
      assert forall i :: 0 <= i < |d| ==> d[i] != '_';
    }
    WithoutAbsent(d, '_');
    NotContainsFirst(d, "__");
  }

  /** Every integer written out reads back as itself. */
  lemma ParseIntRoundTrip(n: int)
    ensures ParseInt(IntToString(n)) == Some(n)
  {
    if n < 0 {
      ParseIntDigits(IntToString(n), true, NatToString(-n));
    } else {
      ParseIntDigits(IntToString(n), false, NatToString(n));
      assert "" + NatToString(n) == NatToString(n);
    }
  }

  /** A set integer variable that is its own decimal string reads as that integer. */
  lemma GetIntWritten(env: Env, key: string, default: int, n: int)
    requires key in env && env[key] == IntToString(n)
    ensures GetInt(env, key, default) == Ok(n)
  {
    ParseIntRoundTrip(n);
  }

  /** The `Config` rules: the OpenAI key is required and non-empty; the other keys default to
      the empty string, the log level to `INFO` and the output directory to `output`. */
  lemma ConfigRules(env: Env)
    ensures LoadConfig(env).Err? <==> "OPENAI_API_KEY" !in env || env["OPENAI_API_KEY"] == ""
    ensures LoadConfig(env).Err? ==> LoadConfig(env).error == MissingMessage("OPENAI_API_KEY")
    ensures LoadConfig(env).Ok? ==> var c := LoadConfig(env).value;
      && c.openAiApiKey == env["OPENAI_API_KEY"] && c.openAiApiKey != ""
      && c.unsplashAccessKey == (if "UNSPLASH_ACCESS_KEY" in env then env["UNSPLASH_ACCESS_KEY"] else "")
      && c.pexelsApiKey == (if "PEXELS_API_KEY" in env then env["PEXELS_API_KEY"] else "")
      && c.pixabayApiKey == (if "PIXABAY_API_KEY" in env then env["PIXABAY_API_KEY"] else "")
      && c.logLevel == (if "LOG_LEVEL" in env then env["LOG_LEVEL"] else "INFO")
      && c.videoOutputDir == (if "VIDEO_OUTPUT_DIR" in env then env["VIDEO_OUTPUT_DIR"] else "output")
  {
  }
}
