/**
 * The rate limiter's settings, read from the process environment: the IP
 * rule, the optional default token rule, and per-token overrides written as
 * `TOKEN:REQUESTS:WINDOW_SECONDS:BLOCK_DURATION_MINUTES` items separated by
 * commas. The environment is an explicit map from the variables it reads to their values.
 */
module Configuration {
  import opened Wrappers
  import opened Strings
  import opened Domain

  /** The environment variables the limiter reads. */
  datatype Var =
    | IPRequests | IPWindowSeconds | IPBlockMinutes
    | TokenDefaultRequests | TokenDefaultWindowSeconds | TokenDefaultBlockMinutes
    | Tokens

  /** The name of each variable in the process environment. */
  function Name(v: Var): string {
    match v
    case IPRequests => "RATE_LIMIT_IP_REQUESTS"
    case IPWindowSeconds => "RATE_LIMIT_IP_WINDOW_SECONDS"
    case IPBlockMinutes => "RATE_LIMIT_IP_BLOCK_DURATION_MINUTES"
    case TokenDefaultRequests => "RATE_LIMIT_TOKEN_DEFAULT_REQUESTS"
    case TokenDefaultWindowSeconds => "RATE_LIMIT_TOKEN_DEFAULT_WINDOW_SECONDS"
    case TokenDefaultBlockMinutes => "RATE_LIMIT_TOKEN_DEFAULT_BLOCK_DURATION_MINUTES"
    case Tokens => "TOKENS"
  }

  /** The values of those variables that are set. */
  type Env = map<Var, string>

  const OverrideFormat := "token override must follow TOKEN:REQUESTS:WINDOW_SECONDS:BLOCK_DURATION_MINUTES: "

  /** The limiter part of the configuration. */
  datatype RateLimiterConfig = RateLimiterConfig(
    ipRule: RateLimitRule,
    defaultTokenRule: RateLimitRule,
    tokenRules: map<string, RateLimitRule>)

  /** One parsed override item. */
  datatype Override = Override(token: string, rule: RateLimitRule)

  /** `os.Getenv`: an unset variable reads as the empty string. */
  function Lookup(env: Env, v: Var): string {
    if v in env then env[v] else ""
  }

  /** The value of `v` without surrounding white space, or `fallback` when that is empty. */
  function GetEnv(env: Env, v: Var, fallback: string): (r: string)
    ensures IsBlank(Lookup(env, v)) ==> r == fallback
    ensures !IsBlank(Lookup(env, v)) ==> r == TrimSpace(Lookup(env, v)) && r != [] && IsTrimmed(r)
  {
    var value := TrimSpace(Lookup(env, v));
    if value == [] then fallback else value
  }

  /** A rule from a request budget, a window in seconds and a block duration in minutes. */
  function MakeRule(requests: int, windowSeconds: int, blockMinutes: int): RateLimitRule {
    RateLimitRule(requests, windowSeconds * Second, blockMinutes * Minute)
  }

  /** An integer setting read through `GetEnv`; the error names the variable. */
  function IntSetting(env: Env, v: Var, fallback: string): (r: Result<int, string>)
    ensures r.Failure? ==> r.error == "invalid " + Name(v)
  {
    ParseSetting(v, GetEnv(env, v, fallback))
  }

  /** The number in `text`, or the error naming the variable `v`. */
  function ParseSetting(v: Var, text: string): (r: Result<int, string>)
    ensures r.Failure? <==> Atoi(text).None?
    ensures r.Success? ==> Some(r.value) == Atoi(text)
    ensures r.Failure? ==> r.error == "invalid " + Name(v)
  {
    match Atoi(text)
    case None => Failure("invalid " + Name(v))
    case Some(n) => Success(n)
  }

  /**
   * The default token rule: the zero rule when the request budget is unset
   * or blank; otherwise the budget, parsed without trimming, with a window
   * of 1 second and a block of 5 minutes unless configured.
   */
  function BuildOptionalTokenRule(env: Env): (r: Result<RateLimitRule, string>)
    ensures IsBlank(Lookup(env, TokenDefaultRequests)) ==> r == Success(ZeroRule)
    ensures r.Success? && r.value != ZeroRule ==> Atoi(Lookup(env, TokenDefaultRequests)).Some?
  {
    var requestsText := Lookup(env, TokenDefaultRequests);
    if TrimSpace(requestsText) == [] then Success(ZeroRule)
    else
      match Atoi(requestsText)
      case None => Failure("invalid " + Name(TokenDefaultRequests))
      case Some(requests) =>
        var windowSeconds :- IntSetting(env, TokenDefaultWindowSeconds, "1");
        var blockMinutes :- IntSetting(env, TokenDefaultBlockMinutes, "5");
        Success(MakeRule(requests, windowSeconds, blockMinutes))
  }

  // ---------------------------------------------------------------------------
  // Token overrides
  // ---------------------------------------------------------------------------

  /**
   * One `TOKEN:REQUESTS:WINDOW_SECONDS:BLOCK_DURATION_MINUTES` item. The
   * item is trimmed and must have exactly four colon-separated fields; the
   * token is trimmed, the three numbers are parsed as they stand.
   */
  function ParseOverride(item: string): (r: Result<Override, string>)
    ensures r.Success? ==> Occurrences(TrimSpace(item), ':') == 3
    ensures r.Success? ==> IsTrimmed(r.value.token)
  {
    var parts := Split(TrimSpace(item), ':');
    if |parts| != 4 then Failure(OverrideFormat + item)
    else
      var token := TrimSpace(parts[0]);
      match Atoi(parts[1])
      case None => Failure("invalid requests for token " + token)
      case Some(requests) =>
        match Atoi(parts[2])
        case None => Failure("invalid window seconds for token " + token)
        case Some(windowSeconds) =>
          match Atoi(parts[3])
          case None => Failure("invalid block minutes for token " + token)
          case Some(blockMinutes) => Success(Override(token, MakeRule(requests, windowSeconds, blockMinutes)))
  }

  /**
   * The three numbers of an item are parsed as they stand: a field that
   * starts with white space is rejected with that field's message, though
   * the item as a whole is trimmed and the token is trimmed too.
   */
  lemma PaddedNumberRejected(item: string, parts: seq<string>)
    requires parts == Split(TrimSpace(item), ':') && |parts| == 4
    ensures parts[1] != [] && IsSpace(parts[1][0]) ==>
      ParseOverride(item) == Failure("invalid requests for token " + TrimSpace(parts[0]))
    ensures Atoi(parts[1]).Some? && parts[2] != [] && IsSpace(parts[2][0]) ==>
      ParseOverride(item) == Failure("invalid window seconds for token " + TrimSpace(parts[0]))
    ensures Atoi(parts[1]).Some? && Atoi(parts[2]).Some? && parts[3] != [] && IsSpace(parts[3][0]) ==>
      ParseOverride(item) == Failure("invalid block minutes for token " + TrimSpace(parts[0]))
  {
  }

  /** The parse of every item, in order. */
  function ParseEach(items: seq<string>): (parsed: seq<Result<Override, string>>)
    ensures |parsed| == |items|
  {
    seq(|items|, i requires 0 <= i < |items| => ParseOverride(items[i]))
  }

  /**
   * The overrides from parsed items taken in order: each item's rule
   * replaces any earlier rule for the same token, and the first item that
   * did not parse is the error.
   */
  function Overrides(parsed: seq<Result<Override, string>>): (r: Result<map<string, RateLimitRule>, string>)
    decreases |parsed|
  {
    if parsed == [] then Success(map[])
    else
      var overrides :- Overrides(parsed[..|parsed| - 1]);
      var o :- parsed[|parsed| - 1];
      Success(overrides[o.token := o.rule])
  }

  /** The overrides in the `TOKENS` variable: none when it is unset or blank. */
  function TokenOverrides(env: Env): (r: Result<map<string, RateLimitRule>, string>)
    ensures r.Success? ==> |r.value| <= Occurrences(TrimSpace(Lookup(env, Tokens)), ',') + 1
  {
    var raw := TrimSpace(Lookup(env, Tokens));
    if raw == [] then Success(map[])
    else
      OverridesSize(ParseEach(Split(raw, ',')));
      Overrides(ParseEach(Split(raw, ',')))
  }

  /** A map of overrides has at most one entry per parsed item. */
  lemma {:induction false} OverridesSize(parsed: seq<Result<Override, string>>)
    decreases |parsed|
    ensures Overrides(parsed).Success? ==> |Overrides(parsed).value| <= |parsed|
  {
    if parsed != [] {
      OverridesSize(parsed[..|parsed| - 1]);
    }
  }

  /** Once a prefix of the items fails, the whole list fails with the same error. */
  lemma {:induction false} PrefixFailureSticks(parsed: seq<Result<Override, string>>, i: nat)
    requires i <= |parsed| && Overrides(parsed[..i]).Failure?
    decreases |parsed| - i
    ensures Overrides(parsed) == Overrides(parsed[..i])
  {
    if i < |parsed| {
      assert parsed[..i + 1][..i] == parsed[..i];
      PrefixFailureSticks(parsed, i + 1);
    } else {
      assert parsed[..i] == parsed;
    }
  }

  /** The list parses exactly when every item does. */
  lemma {:induction false} OverridesIffEveryItemParses(parsed: seq<Result<Override, string>>)
    decreases |parsed|
    ensures Overrides(parsed).Success? <==> forall i :: 0 <= i < |parsed| ==> parsed[i].Success?
  {
    if parsed != [] {
      var init := parsed[..|parsed| - 1];
      OverridesIffEveryItemParses(init);
      assert forall i :: 0 <= i < |init| ==> init[i] == parsed[i];
    }
  }

  /** The first item that does not parse decides the error; no partial map is returned. */
  lemma {:induction false} FirstErrorWins(parsed: seq<Result<Override, string>>, j: nat)
    requires j < |parsed| && parsed[j].Failure?
    requires forall i :: 0 <= i < j ==> parsed[i].Success?
    ensures Overrides(parsed) == Failure(parsed[j].error)
  {
    var init := parsed[..j];
    OverridesIffEveryItemParses(init);
    assert forall i :: 0 <= i < j ==> init[i] == parsed[i];
    assert parsed[..j + 1][..j] == init;
    PrefixFailureSticks(parsed, j + 1);
  }

  /** Every token in the map comes from an item that parsed. */
  lemma {:induction false} OverrideKeysComeFromItems(parsed: seq<Result<Override, string>>)
    requires Overrides(parsed).Success?
    decreases |parsed|
    ensures forall t :: t in Overrides(parsed).value ==>
      exists i :: 0 <= i < |parsed| && parsed[i].Success? && parsed[i].value.token == t
  {
    if parsed != [] {
      var init := parsed[..|parsed| - 1];
      OverrideKeysComeFromItems(init);
      assert forall i :: 0 <= i < |init| ==> init[i] == parsed[i];
    }
  }

  /** Each token maps to the rule of the last item that names it. */
  lemma {:induction false} LastItemWins(parsed: seq<Result<Override, string>>)
    requires Overrides(parsed).Success?
    decreases |parsed|
    ensures forall i :: 0 <= i < |parsed| && parsed[i].Success? && LastFor(parsed, i) ==>
      parsed[i].value.token in Overrides(parsed).value &&
      Overrides(parsed).value[parsed[i].value.token] == parsed[i].value.rule
  {
    if parsed != [] {
      var init := parsed[..|parsed| - 1];
      OverridesIffEveryItemParses(parsed);
      LastItemWins(init);
      assert forall i :: 0 <= i < |init| ==> init[i] == parsed[i];
      forall i | 0 <= i < |init| && parsed[i].Success? && LastFor(parsed, i)
        ensures LastFor(init, i)
      {
      }
    }
  }

  /** No later parsed item names the same token as item `i`. */
  predicate LastFor(parsed: seq<Result<Override, string>>, i: nat)
    requires i < |parsed| && parsed[i].Success?
  {
    forall j :: i < j < |parsed| && parsed[j].Success? ==> parsed[j].value.token != parsed[i].value.token
  }

  /** An item that is empty or only white space, such as the one after a trailing comma, is rejected. */
  lemma BlankItemRejected(item: string)
    requires IsBlank(item)
    ensures ParseOverride(item) == Failure(OverrideFormat + item)
  {
  }

  /** A `TOKENS` value ending in a comma is rejected as a whole. */
  lemma TrailingCommaRejected(env: Env)
    requires var raw := TrimSpace(Lookup(env, Tokens)); raw != [] && raw[|raw| - 1] == ','
    ensures TokenOverrides(env).Failure?
  {
    var raw := TrimSpace(Lookup(env, Tokens));
    var items := Split(raw, ',');
    SplitEndingWithSeparator(raw, ',');
    LastItemRejected(items);
    assert TokenOverrides(env) == Overrides(ParseEach(items));
  }

  /** When the last item is blank, the parsed list as a whole fails. */
  lemma LastItemRejected(items: seq<string>)
    requires items != [] && items[|items| - 1] == []
    ensures Overrides(ParseEach(items)).Failure?
  {
    var last := |items| - 1;
    BlankItemRejected(items[last]);
    var parsed := ParseEach(items);
    assert parsed[last].Failure?;
    OverridesIffEveryItemParses(parsed);
  }

  /** An unset or blank `TOKENS` gives no overrides and no error. */
  lemma BlankTokensGiveNoOverrides(env: Env)
    requires IsBlank(Lookup(env, Tokens))
    ensures TokenOverrides(env) == Success(map[])
  {
  }

  /** The text of one override item. */
  function FormatOverride(token: string, requests: int, windowSeconds: int, blockMinutes: int): string {
    Join([token, Itoa(requests), Itoa(windowSeconds), Itoa(blockMinutes)], ':')
  }

  /** A number written by `Itoa` holds no colon and ends in a digit. */
  lemma ItoaHasNoColon(n: int)
    ensures ':' !in Itoa(n) && IsDigit(Itoa(n)[|Itoa(n)| - 1])
  {
    ItoaShape(n);
  }

  /**
   * An item written from a trimmed token (possibly empty) without colons and three
   * integers parses back to that token and the rule with the window in
   * seconds and the block in minutes.
   */
  lemma ParseFormattedOverride(token: string, requests: int, windowSeconds: int, blockMinutes: int)
    requires IsTrimmed(token) && ':' !in token
    ensures ParseOverride(FormatOverride(token, requests, windowSeconds, blockMinutes)) ==
      Success(Override(token, RateLimitRule(requests, windowSeconds * Second, blockMinutes * Minute)))
  {
    var r, w, b := Itoa(requests), Itoa(windowSeconds), Itoa(blockMinutes);
    ItoaHasNoColon(requests);
    ItoaHasNoColon(windowSeconds);
    ItoaHasNoColon(blockMinutes);
    var parts := [token, r, w, b];
    var item := FormatOverride(token, requests, windowSeconds, blockMinutes);
    var tail := Join(parts[1..], ':');
    assert parts[1..] == [r, w, b] && [r, w, b][1..] == [w, b] && [w, b][1..] == [b];
    assert Join([w, b], ':') == w + [':'] + b;
    assert tail == r + [':'] + (w + [':'] + b);
    assert item == token + [':'] + tail;
    assert IsTrimmed(item) by {
      assert item[|item| - 1] == b[|b| - 1];
      if token == [] {
        assert item == [':'] + tail;
      } else {
        assert item[0] == token[0];
      }
    }
    SplitJoin(parts, ':');
    AtoiItoa(requests);
    AtoiItoa(windowSeconds);
    AtoiItoa(blockMinutes);
  }

  /** Taking one more parsed item: its rule is added, or its error ends the whole list. */
  lemma OverridesStep(parsed: seq<Result<Override, string>>, i: nat, overrides: map<string, RateLimitRule>)
    requires i < |parsed| && Overrides(parsed[..i]) == Success(overrides)
    ensures parsed[i].Success? ==>
      Overrides(parsed[..i + 1]) == Success(overrides[parsed[i].value.token := parsed[i].value.rule])
    ensures parsed[i].Failure? ==> Overrides(parsed) == Failure(parsed[i].error)
  {
    assert parsed[..i + 1][..i] == parsed[..i];
    if parsed[i].Failure? {
      PrefixFailureSticks(parsed, i + 1);
    }
  }

  /**
   * The token overrides, parsed item by item into a map that is filled in
   * place; the first item that does not parse ends the parse with its error.
   */
  method BuildTokenOverrides(env: Env) returns (r: Result<map<string, RateLimitRule>, string>)
    ensures r == TokenOverrides(env)
  {
    var raw := TrimSpace(Lookup(env, Tokens));
    if raw == [] {
      return Success(map[]);
    }
    var overrides: map<string, RateLimitRule> := map[];
    var items := Split(raw, ',');
    ghost var parsed := ParseEach(items);
    assert TokenOverrides(env) == Overrides(parsed);
    var i := 0;
    while i < |items|
      invariant 0 <= i <= |items|
      invariant Overrides(parsed[..i]) == Success(overrides)
      invariant TokenOverrides(env) == Overrides(parsed)
    {
      OverridesStep(parsed, i, overrides);
      var item := items[i];
      ghost var p := parsed[i];
      assert p == ParseOverride(item);
      var parts := Split(TrimSpace(item), ':');
      if |parts| != 4 {
        assert p == Failure(OverrideFormat + item);
        return Failure(OverrideFormat + item);
      }
      var token := TrimSpace(parts[0]);
      var requests := Atoi(parts[1]);
      if requests.None? {
        assert p == Failure("invalid requests for token " + token);
        return Failure("invalid requests for token " + token);
      }
      var windowSeconds := Atoi(parts[2]);
      if windowSeconds.None? {
        assert p == Failure("invalid window seconds for token " + token);
        return Failure("invalid window seconds for token " + token);
      }
      var blockMinutes := Atoi(parts[3]);
      if blockMinutes.None? {
        assert p == Failure("invalid block minutes for token " + token);
        return Failure("invalid block minutes for token " + token);
      }
      assert p == Success(Override(token, MakeRule(requests.value, windowSeconds.value, blockMinutes.value)));
      overrides := overrides[token := MakeRule(requests.value, windowSeconds.value, blockMinutes.value)];
      i := i + 1;
    }
    assert parsed[..|items|] == parsed;
    r := Success(overrides);
  }

  // ---------------------------------------------------------------------------
  // The whole limiter configuration
  // ---------------------------------------------------------------------------

  /**
   * The IP rule from its three settings; with all three unset it is 10
   * requests per second with a 5-minute block.
   */
  function IPRuleSetting(env: Env): (r: Result<RateLimitRule, string>)
    ensures IsBlank(Lookup(env, IPRequests)) && IsBlank(Lookup(env, IPWindowSeconds)) && IsBlank(Lookup(env, IPBlockMinutes)) ==>
      r == Success(RateLimitRule(10, Second, 5 * Minute))
  {
    assert IsBlank(Lookup(env, IPRequests)) && IsBlank(Lookup(env, IPWindowSeconds)) && IsBlank(Lookup(env, IPBlockMinutes)) ==>
      IntSetting(env, IPRequests, "10") == Success(10) && IntSetting(env, IPWindowSeconds, "1") == Success(1)
      && IntSetting(env, IPBlockMinutes, "5") == Success(5) by {
      if IsBlank(Lookup(env, IPRequests)) && IsBlank(Lookup(env, IPWindowSeconds)) && IsBlank(Lookup(env, IPBlockMinutes)) {
        IPSettingDefaults(env);
      }
    }
    RuleFrom(IntSetting(env, IPRequests, "10"), IntSetting(env, IPWindowSeconds, "1"), IntSetting(env, IPBlockMinutes, "5"))
  }

  /** A rule from its three settings, the first failing setting giving the error. */
  function RuleFrom(requests: Result<int, string>, windowSeconds: Result<int, string>, blockMinutes: Result<int, string>)
    : (r: Result<RateLimitRule, string>)
    ensures r.Success? <==> requests.Success? && windowSeconds.Success? && blockMinutes.Success?
    ensures r.Success? ==> r.value == RateLimitRule(requests.value, windowSeconds.value * Second, blockMinutes.value * Minute)
    ensures requests.Failure? ==> r == Failure(requests.error)
    ensures requests.Success? && windowSeconds.Failure? ==> r == Failure(windowSeconds.error)
    ensures requests.Success? && windowSeconds.Success? && blockMinutes.Failure? ==> r == Failure(blockMinutes.error)
  {
    var n :- requests;
    var seconds :- windowSeconds;
    var minutes :- blockMinutes;
    Success(MakeRule(n, seconds, minutes))
  }

  /** The configuration from its three parts, the first failing part giving the error. */
  function Assemble(ipRule: Result<RateLimitRule, string>, defaultTokenRule: Result<RateLimitRule, string>,
                    tokenRules: Result<map<string, RateLimitRule>, string>): (r: Result<RateLimiterConfig, string>)
    ensures r.Success? <==> ipRule.Success? && defaultTokenRule.Success? && tokenRules.Success?
    ensures r.Success? ==> r.value == RateLimiterConfig(ipRule.value, defaultTokenRule.value, tokenRules.value)
    ensures ipRule.Failure? ==> r == Failure(ipRule.error)
    ensures ipRule.Success? && defaultTokenRule.Failure? ==> r == Failure(defaultTokenRule.error)
  {
    var ip :- ipRule;
    var defaultRule :- defaultTokenRule;
    var overrides :- tokenRules;
    Success(RateLimiterConfig(ip, defaultRule, overrides))
  }

  /**
   * The limiter configuration an environment describes: the IP rule, then
   * the default token rule, then the overrides; the first part that fails
   * is the error.
   */
  function RateLimiterSettings(env: Env): Result<RateLimiterConfig, string> {
    Assemble(IPRuleSetting(env), BuildOptionalTokenRule(env), TokenOverrides(env))
  }

  /** Builds the limiter configuration; the overrides come from `BuildTokenOverrides`. */
  method BuildRateLimiterConfig(env: Env) returns (r: Result<RateLimiterConfig, string>)
    ensures r == RateLimiterSettings(env)
  {
    var ipRule :- IPRuleSetting(env);
    var defaultTokenRule :- BuildOptionalTokenRule(env);
    var tokenRules :- BuildTokenOverrides(env);
    r := Success(RateLimiterConfig(ipRule, defaultTokenRule, tokenRules));
  }

  lemma AtoiOfDefaults()
    ensures Atoi("10") == Some(10) && Atoi("1") == Some(1) && Atoi("5") == Some(5)
  {
    assert AllDigits("1") && AllDigits("5") && AllDigits("10");
    assert "10"[..1] == "1" && "1"[..0] == "" && "5"[..0] == "";
    assert DigitsValue("1") == 1 && DigitsValue("5") == 5;
    assert DigitsValue("10") == DigitsValue("1") * 10 + 0;
  }

  /** The IP settings read their defaults when unset or blank. */
  lemma IPSettingDefaults(env: Env)
    requires IsBlank(Lookup(env, IPRequests)) && IsBlank(Lookup(env, IPWindowSeconds)) && IsBlank(Lookup(env, IPBlockMinutes))
    ensures IntSetting(env, IPRequests, "10") == Success(10)
    ensures IntSetting(env, IPWindowSeconds, "1") == Success(1)
    ensures IntSetting(env, IPBlockMinutes, "5") == Success(5)
  {
    AtoiOfDefaults();
  }

  /** An empty environment gives the default IP rule, no default token rule and no overrides. */
  lemma EmptyEnvironmentDefaults()
    ensures RateLimiterSettings(map[]) == Success(RateLimiterConfig(RateLimitRule(10, Second, 5 * Minute), ZeroRule, map[]))
  {
    var env: Env := map[];
    assert Lookup(env, IPRequests) == [] && Lookup(env, IPWindowSeconds) == [] && Lookup(env, IPBlockMinutes) == [];
    var ipRule := IPRuleSetting(env);
    assert ipRule == Success(RateLimitRule(10, Second, 5 * Minute));
    assert BuildOptionalTokenRule(env) == Success(ZeroRule);
    assert TokenOverrides(env) == Success(map[]);
  }

  /** With a default token budget set, the token window and block default to 1 second and 5 minutes. */
  lemma TokenRuleDefaults(env: Env, requests: int)
    requires Atoi(Lookup(env, TokenDefaultRequests)) == Some(requests)
    requires IsBlank(Lookup(env, TokenDefaultWindowSeconds)) && IsBlank(Lookup(env, TokenDefaultBlockMinutes))
    ensures BuildOptionalTokenRule(env) == Success(RateLimitRule(requests, Second, 5 * Minute))
  {
    AtoiOfDefaults();
  }

  /** The IP rule converts its three configured settings: the window from seconds, the block from minutes. */
  lemma IPRuleValue(env: Env, requests: int, windowSeconds: int, blockMinutes: int)
    requires IntSetting(env, IPRequests, "10") == Success(requests)
    requires IntSetting(env, IPWindowSeconds, "1") == Success(windowSeconds)
    requires IntSetting(env, IPBlockMinutes, "5") == Success(blockMinutes)
    ensures IPRuleSetting(env) == Success(RateLimitRule(requests, windowSeconds * Second, blockMinutes * Minute))
  {
  }

  /** The first failing IP setting, in the order requests, window, block, is the error. */
  lemma IPRuleErrorOrder(env: Env)
    ensures IntSetting(env, IPRequests, "10").Failure? ==>
      IPRuleSetting(env) == Failure("invalid " + Name(IPRequests))
    ensures IntSetting(env, IPRequests, "10").Success? && IntSetting(env, IPWindowSeconds, "1").Failure? ==>
      IPRuleSetting(env) == Failure("invalid " + Name(IPWindowSeconds))
    ensures (IntSetting(env, IPRequests, "10").Success? && IntSetting(env, IPWindowSeconds, "1").Success?
             && IntSetting(env, IPBlockMinutes, "5").Failure?) ==>
      IPRuleSetting(env) == Failure("invalid " + Name(IPBlockMinutes))
  {
  }

  /**
   * A configured default token rule: an unparseable budget fails, and
   * otherwise the rule holds the budget and the converted window and block
   * settings, the window's error coming before the block's.
   */
  lemma TokenRuleValue(env: Env)
    requires !IsBlank(Lookup(env, TokenDefaultRequests))
    ensures Atoi(Lookup(env, TokenDefaultRequests)).None? ==>
      BuildOptionalTokenRule(env) == Failure("invalid " + Name(TokenDefaultRequests))
    ensures Atoi(Lookup(env, TokenDefaultRequests)).Some? && IntSetting(env, TokenDefaultWindowSeconds, "1").Failure? ==>
      BuildOptionalTokenRule(env) == Failure("invalid " + Name(TokenDefaultWindowSeconds))
    ensures (Atoi(Lookup(env, TokenDefaultRequests)).Some? && IntSetting(env, TokenDefaultWindowSeconds, "1").Success?
             && IntSetting(env, TokenDefaultBlockMinutes, "5").Failure?) ==>
      BuildOptionalTokenRule(env) == Failure("invalid " + Name(TokenDefaultBlockMinutes))
    ensures (Atoi(Lookup(env, TokenDefaultRequests)).Some? && IntSetting(env, TokenDefaultWindowSeconds, "1").Success?
             && IntSetting(env, TokenDefaultBlockMinutes, "5").Success?) ==>
      BuildOptionalTokenRule(env) == Success(RateLimitRule(Atoi(Lookup(env, TokenDefaultRequests)).value,
        IntSetting(env, TokenDefaultWindowSeconds, "1").value * Second,
        IntSetting(env, TokenDefaultBlockMinutes, "5").value * Minute))
  {
  }

  /** Any integer setting reads back the number written in it, with or without surrounding white space. */
  lemma IntSettingReadsNumber(env: Env, v: Var, fallback: string, n: int)
    requires TrimSpace(Lookup(env, v)) == Itoa(n)
    ensures IntSetting(env, v, fallback) == Success(n)
  {
    ItoaShape(n);
    AtoiItoa(n);
  }

  /**
   * White space around a number is accepted in the IP budget, which is read
   * through `GetEnv`, and rejected in the default token budget, which is not.
   */
  lemma PaddedBudgetAsymmetry(env: Env, n: int)
    requires var v := Lookup(env, IPRequests); v != [] && IsSpace(v[0]) && TrimSpace(v) == Itoa(n)
    requires Lookup(env, TokenDefaultRequests) == Lookup(env, IPRequests)
    ensures IntSetting(env, IPRequests, "10") == Success(n)
    ensures BuildOptionalTokenRule(env) == Failure("invalid " + Name(TokenDefaultRequests))
  {
    ItoaShape(n);
    AtoiItoa(n);
  }
}
