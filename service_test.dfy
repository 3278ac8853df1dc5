/**
 * The service's test scenarios as verified methods: each builds an empty
 * map-based store and a service, issues the scenario's requests at one
 * instant `now`, and promises the decisions the scenario checks for.
 */
module ServiceScenarios {
  import opened Wrappers
  import opened Strings
  import opened Domain
  import opened Storage
  import opened Service

  /** A service over `storage`; the scenarios only use configurations that construction accepts. */
  method NewTestLimiter(storage: MockStore, cfg: Config) returns (service: RateLimiterService)
    requires Usable(cfg.defaultIPRule)
    ensures service.storage == storage && service.config == cfg
  {
    var created := NewRateLimiterService(storage, cfg);
    service := created.value;
  }

  /** An IP-only request with a normalised IP resolves to the IP rule, keyed by the IP itself. */
  lemma ResolvesByIP(cfg: Config, ip: string)
    requires ip != [] && IsNormalized(ip)
    ensures ResolveRule(cfg, RateLimitRequest(ip, "")) == Success(Resolution(cfg.defaultIPRule, BuildKeys(IPPrefix, ip)))
    ensures BuildKeys(IPPrefix, ip).identifier == ip
  {
    RulePrecedence(cfg, RateLimitRequest(ip, ""));
  }

  /** A request with a normalised token resolves by its token, whatever its IP. */
  lemma ResolvesByToken(cfg: Config, ip: string, token: string, rule: RateLimitRule)
    requires token != [] && IsNormalized(token)
    requires if token in cfg.tokenRules then rule == cfg.tokenRules[token] else rule == cfg.defaultTokenRule && Usable(rule)
    ensures ResolveRule(cfg, RateLimitRequest(ip, token)) == Success(Resolution(rule, BuildKeys(TokenPrefix, token)))
    ensures BuildKeys(TokenPrefix, token).identifier == token
  {
    RulePrecedence(cfg, RateLimitRequest(ip, token));
  }

  lemma LiteralsNormalized()
    ensures IsNormalized("192.168.1.1") && IsNormalized("10.0.0.1")
    ensures IsNormalized("abc123") && IsNormalized("dynamic")
  {
  }

  /**
   * What the scenarios expect of a request from an identity whose count
   * before the request is `before`, under the budget of `res`: allowed with
   * the incremented count while within the budget, `Blocked` with count
   * N + 1 on the request that exceeds it, and `Blocked` with count 0 after.
   */
  predicate Expected(res: Resolution, before: int, d: Decision, e: Option<Error>) {
    var limit := res.rule.requests;
    && (before < limit ==> e == None && d == Decision(true, res.keys.identifier, res.rule, before + 1))
    && (before == limit ==> e == Some(Blocked) && d == Decision(false, res.keys.identifier, res.rule, limit + 1))
    && (before > limit ==> e == Some(Blocked) && d == Decision(false, res.keys.identifier, res.rule, 0))
  }

  /**
   * One more request from an identity whose count is `before` (and which is
   * unblocked up to the budget, blocked past it) meets `Expected`, and leaves
   * the identity in the same shape with count `before + 1`.
   */
  lemma NextRequest(res: Resolution, s: StoreState, before: int, now: int)
    requires res.rule.blockDuration > 0
    requires before <= res.rule.requests ==>
      CountOf(s.counts, res.keys.counterKey) == before && res.keys.blockKey !in s.blocks
    requires before > res.rule.requests ==> BlockedAt(s, res.keys.blockKey, now)
    ensures var o := Evaluate(res, s, map[], now);
      && Expected(res, before, o.decision, o.err)
      && (before + 1 <= res.rule.requests ==>
            CountOf(o.state.counts, res.keys.counterKey) == before + 1 && res.keys.blockKey !in o.state.blocks)
      && (before + 1 > res.rule.requests ==> BlockedAt(o.state, res.keys.blockKey, now))
  {
    if before < res.rule.requests {
      WithinBudgetAllowed(res, s, map[], now);
    } else if before == res.rule.requests {
      OverBudgetBlocks(res, s, map[], now);
    } else {
      BlockShortCircuits(res, s, map[], now);
    }
  }

  /** Every recorded outcome is the expected one for the count before it, starting from `c`. */
  predicate AllExpected(res: Resolution, c: int, decisions: seq<Decision>, errs: seq<Option<Error>>) {
    |decisions| == |errs| && forall k :: 0 <= k < |decisions| ==> Expected(res, c + k, decisions[k], errs[k])
  }

  /** Recording one more expected outcome keeps every outcome expected. */
  lemma ExpectedSnoc(res: Resolution, c: int, decisions: seq<Decision>, errs: seq<Option<Error>>, d: Decision, e: Option<Error>)
    requires AllExpected(res, c, decisions, errs) && Expected(res, c + |decisions|, d, e)
    ensures AllExpected(res, c, decisions + [d], errs + [e])
  {
    var ds, es := decisions + [d], errs + [e];
    forall k | 0 <= k < |ds|
      ensures Expected(res, c + k, ds[k], es[k])
    {
      if k < |decisions| {
        assert ds[k] == decisions[k] && es[k] == errs[k];
      }
    }
  }

  /** One request from an identity whose count is `before`, in the shape `NextRequest` describes. */
  method AllowOnce(service: RateLimiterService, req: RateLimitRequest, res: Resolution, before: int, now: int)
      returns (d: Decision, e: Option<Error>)
    requires ResolveRule(service.config, req) == Success(res) && service.storage.faults == map[]
    requires res.rule.blockDuration > 0
    requires before <= res.rule.requests ==>
      CountOf(service.storage.counts, res.keys.counterKey) == before && res.keys.blockKey !in service.storage.blocks
    requires before > res.rule.requests ==> BlockedAt(service.storage.State(), res.keys.blockKey, now)
    modifies service.storage`counts, service.storage`blocks, service.storage`calls
    ensures Expected(res, before, d, e)
    ensures before + 1 <= res.rule.requests ==>
      CountOf(service.storage.counts, res.keys.counterKey) == before + 1 && res.keys.blockKey !in service.storage.blocks
    ensures before + 1 > res.rule.requests ==> BlockedAt(service.storage.State(), res.keys.blockKey, now)
  {
    ghost var s := service.storage.State();
    NextRequest(res, s, before, now);
    assert Decide(service.config, req, s, map[], now) == Evaluate(res, s, map[], now);
    d, e := service.Allow(req, now);
  }

  /**
   * `n` requests in a row with the same request at the same instant, as the
   * scenarios' loops issue them, for an identity with count `c` within its
   * budget of N and no block marker: the requests that bring the count to
   * N are allowed, the next one is denied with `Blocked` and count N + 1 and
   * sets the block, and every later one is rejected by the block check alone.
   */
  method AllowRepeatedly(service: RateLimiterService, req: RateLimitRequest, res: Resolution, c: nat, n: nat, now: int)
      returns (decisions: seq<Decision>, errs: seq<Option<Error>>)
    requires ResolveRule(service.config, req) == Success(res) && service.storage.faults == map[]
    requires res.keys.blockKey !in service.storage.blocks && res.rule.blockDuration > 0
    requires CountOf(service.storage.counts, res.keys.counterKey) == c <= res.rule.requests
    modifies service.storage`counts, service.storage`blocks, service.storage`calls
    ensures |decisions| == n && AllExpected(res, c, decisions, errs)
  {
    decisions, errs := [], [];
    for i := 0 to n
      invariant service.storage.faults == map[]
      invariant c + i <= res.rule.requests ==>
        CountOf(service.storage.counts, res.keys.counterKey) == c + i && res.keys.blockKey !in service.storage.blocks
      invariant c + i > res.rule.requests ==> BlockedAt(service.storage.State(), res.keys.blockKey, now)
      invariant |decisions| == i && AllExpected(res, c, decisions, errs)
    {
      var d, e := AllowOnce(service, req, res, c + i, now);
      ExpectedSnoc(res, c, decisions, errs, d, e);
      decisions, errs := decisions + [d], errs + [e];
    }
  }

  /** Three requests from one IP under a budget of three are all allowed, with counts 1, 2, 3. */
  method AllowsWithinIPLimit(now: int) returns (decisions: seq<Decision>, errs: seq<Option<Error>>)
    ensures |decisions| == 3 && |errs| == 3
    ensures forall i :: 0 <= i < 3 ==>
      errs[i] == None && decisions[i] == Decision(true, "192.168.1.1", RateLimitRule(3, Second, Minute), i + 1)
  {
    var storage := new MockStore();
    var cfg := Config(RateLimitRule(3, Second, Minute), ZeroRule, map[]);
    var service := NewTestLimiter(storage, cfg);
    var req := RateLimitRequest("192.168.1.1", "");
    LiteralsNormalized();
    ResolvesByIP(cfg, req.ip);
    decisions, errs := AllowRepeatedly(service, req, Resolution(cfg.defaultIPRule, BuildKeys(IPPrefix, req.ip)), 0, 3, now);
  }

  /**
   * Under a budget of two, the third request from one IP is denied with
   * `Blocked`, and the fourth is rejected by the block check alone.
   */
  method BlocksAfterExceedingIPLimit(now: int) returns (decisions: seq<Decision>, errs: seq<Option<Error>>)
    ensures |decisions| == 4 && |errs| == 4
    ensures errs[0] == None && errs[1] == None
    ensures errs[2] == Some(Blocked) && decisions[2] == Decision(false, "10.0.0.1", RateLimitRule(2, Second, Minute), 3)
    ensures errs[3] == Some(Blocked) && decisions[3] == Decision(false, "10.0.0.1", RateLimitRule(2, Second, Minute), 0)
  {
    var storage := new MockStore();
    var cfg := Config(RateLimitRule(2, Second, Minute), ZeroRule, map[]);
    var service := NewTestLimiter(storage, cfg);
    var req := RateLimitRequest("10.0.0.1", "");
    LiteralsNormalized();
    ResolvesByIP(cfg, req.ip);
    decisions, errs := AllowRepeatedly(service, req, Resolution(cfg.defaultIPRule, BuildKeys(IPPrefix, req.ip)), 0, 4, now);
  }

  /** Five requests with token `abc123` are allowed under its override, although the IP budget is one. */
  method UsesTokenOverride(now: int) returns (decisions: seq<Decision>, errs: seq<Option<Error>>)
    ensures |decisions| == 5 && |errs| == 5
    ensures forall i :: 0 <= i < 5 ==>
      errs[i] == None && decisions[i] == Decision(true, "abc123", RateLimitRule(5, Second, Minute), i + 1)
  {
    var storage := new MockStore();
    var tokenRule := RateLimitRule(5, Second, Minute);
    var cfg := Config(RateLimitRule(1, Second, Minute), ZeroRule, map["abc123" := tokenRule]);
    var service := NewTestLimiter(storage, cfg);
    var req := RateLimitRequest("203.0.113.10", "abc123");
    LiteralsNormalized();
    ResolvesByToken(cfg, req.ip, req.token, tokenRule);
    decisions, errs := AllowRepeatedly(service, req, Resolution(tokenRule, BuildKeys(TokenPrefix, req.token)), 0, tokenRule.requests, now);
  }

  /** A token without an override gets the default token rule: two requests allowed, the third blocked. */
  method DefaultTokenRule(now: int) returns (decisions: seq<Decision>, errs: seq<Option<Error>>)
    ensures |decisions| == 3 && |errs| == 3
    ensures forall i :: 0 <= i < 2 ==>
      errs[i] == None && decisions[i] == Decision(true, "dynamic", RateLimitRule(2, Second, Minute), i + 1)
    ensures errs[2] == Some(Blocked) && decisions[2] == Decision(false, "dynamic", RateLimitRule(2, Second, Minute), 3)
  {
    var storage := new MockStore();
    var tokenRule := RateLimitRule(2, Second, Minute);
    var cfg := Config(RateLimitRule(1, Second, Minute), tokenRule, map[]);
    var service := NewTestLimiter(storage, cfg);
    var req := RateLimitRequest("198.51.100.5", "dynamic");
    LiteralsNormalized();
    ResolvesByToken(cfg, req.ip, req.token, tokenRule);
    decisions, errs := AllowRepeatedly(service, req, Resolution(tokenRule, BuildKeys(TokenPrefix, req.token)), 0, 3, now);
  }
}
