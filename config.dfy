/** Process configuration: `getHost`, `getEnv` and the settings read at start (transferwise.go:28-38, 62-70, 363-380). */
module Config {

  const HostProduction := "api.transferwise.com"
  const HostSandbox := "api.sandbox.transferwise.tech"
  const Production := "production"
  const Sandbox := "sandbox"
  const FallbackInterval := "1"
  const FallbackMargin := "0"

  /**
   * Lower case of one rune as Go's `strings.ToLower` gives it, as far as the result can be ASCII:
   * A-Z, the dotted capital I (U+0130) and the Kelvin sign (U+212A). Every other rune is kept;
   * Go maps the remaining upper-case runes to non-ASCII runes, which compare the same way here.
   */
  function LowerChar(c: char): char {
    if 'A' <= c <= 'Z' then (c as int + 32) as char
    else if c == '\U{0130}' then 'i'
    else if c == '\U{212A}' then 'k'
    else c
  }

  function ToLower(s: string): (r: string)
    ensures |r| == |s|
    ensures forall i :: 0 <= i < |s| ==> r[i] == LowerChar(s[i])
  {
    if s == [] then [] else [LowerChar(s[0])] + ToLower(s[1..])
  }

  lemma ToLowerIdempotent(s: string)
    ensures ToLower(ToLower(s)) == ToLower(s)
  {
  }

  /** Upper-case form of an ASCII lower-case letter. */
  function UpperAscii(c: char): char
    requires 'a' <= c <= 'z'
  {
    (c as int - 32) as char
  }

  predicate IsLowerAsciiWord(w: string) {
    forall i :: 0 <= i < |w| ==> 'a' <= w[i] <= 'z'
  }

  /** s spells the lower-case word w with any mix of upper and lower case letters. */
  predicate SpellsIgnoringCase(s: string, w: string)
    requires IsLowerAsciiWord(w)
  {
    && |s| == |w|
    && forall i :: 0 <= i < |s| ==>
         || s[i] == w[i]
         || s[i] == UpperAscii(w[i])
         || (w[i] == 'i' && s[i] == '\U{0130}')
         || (w[i] == 'k' && s[i] == '\U{212A}')
  }

  lemma LowerCharIs(c: char, w: char)
    requires 'a' <= w <= 'z'
    ensures LowerChar(c) == w <==>
      c == w || c == UpperAscii(w) || (w == 'i' && c == '\U{0130}') || (w == 'k' && c == '\U{212A}')
  {
  }

  lemma ToLowerIsWord(s: string, w: string)
    requires IsLowerAsciiWord(w)
    ensures ToLower(s) == w <==> SpellsIgnoringCase(s, w)
  {
  }

  /**
   * The provider host for an ENV value: a host exactly when ENV spells one of the two names in any
   * case, and "" (every call disabled) otherwise.
   */
  function GetHost(env: string): (host: string)
    ensures host == HostSandbox <==> SpellsIgnoringCase(env, Sandbox)
    ensures host == HostProduction <==> SpellsIgnoringCase(env, Production)
    ensures host == "" <==> !SpellsIgnoringCase(env, Sandbox) && !SpellsIgnoringCase(env, Production)
  {
    ToLowerIsWord(env, Sandbox);
    ToLowerIsWord(env, Production);
    match ToLower(env)
    case "sandbox" => HostSandbox
    case "production" => HostProduction
    case _ => ""
  }

  /** Only the case of ENV is ignored: lowering it first changes nothing. */
  lemma GetHostIgnoresCase(env: string)
    ensures GetHost(ToLower(env)) == GetHost(env)
  {
    ToLowerIdempotent(env);
  }

  /** The variable's value whenever it is set, even to "", and the fallback only when it is unset. */
  function GetEnv(environment: map<string, string>, key: string, fallback: string): (v: string)
    ensures key in environment ==> v == environment[key]
    ensures key !in environment ==> v == fallback
  {
    if key in environment then environment[key] else fallback
  }

  /** The settings computed once at start-up. */
  datatype Settings = Settings(
    env: string,
    host: string,
    apiToken: string,
    margin: string,
    interval: string,
    toMail: string,
    fromMail: string,
    mailPass: string)

  function LoadSettings(environment: map<string, string>): (s: Settings)
    ensures "ENV" in environment ==> s.env == environment["ENV"]
    ensures "ENV" !in environment ==> s.env == ""
    ensures s.host == GetHost(s.env)
    ensures s.host != "" ==> "ENV" in environment
    ensures "API_TOKEN" in environment ==> s.apiToken == environment["API_TOKEN"]
    ensures "API_TOKEN" !in environment ==> s.apiToken == ""
    ensures "MARGIN" in environment ==> s.margin == environment["MARGIN"]
    ensures "MARGIN" !in environment ==> s.margin == FallbackMargin
    ensures "INTERVAL" in environment ==> s.interval == environment["INTERVAL"]
    ensures "INTERVAL" !in environment ==> s.interval == FallbackInterval
  {
    var env := GetEnv(environment, "ENV", "");
    Settings(
      env,
      GetHost(env),
      GetEnv(environment, "API_TOKEN", ""),
      GetEnv(environment, "MARGIN", FallbackMargin),
      GetEnv(environment, "INTERVAL", FallbackInterval),
      GetEnv(environment, "TO_MAIL", ""),
      GetEnv(environment, "FROM_MAIL", ""),
      GetEnv(environment, "MAIL_PASS", ""))
  }
}
