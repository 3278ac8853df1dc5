/**
 * The decision service: which rule applies to a request, which store keys
 * it is counted under, and the check-block / increment / set-block sequence
 * that turns the store's answer into an allow-or-deny decision.
 */
module Service {
  import opened Wrappers
  import opened Strings
  import opened Domain
  import opened Storage

  /** The limits the service applies; a zero `defaultTokenRule` means none is configured. */
  datatype Config = Config(
    defaultIPRule: RateLimitRule,
    defaultTokenRule: RateLimitRule,
    tokenRules: map<string, RateLimitRule>)

  /** The store keys of one identity, and the identity itself after normalisation. */
  datatype ResolvedKeys = ResolvedKeys(counterKey: string, blockKey: string, identifier: string)

  /** The rule chosen for a request and the keys it is counted under. */
  datatype Resolution = Resolution(rule: RateLimitRule, keys: ResolvedKeys)

  const IPPrefix := "ip"
  const TokenPrefix := "token"
  const KeyNamespace := "ratelimit:"
  const BlockSuffix := ":block"

  // ---------------------------------------------------------------------------
  // Identity normalisation and keys
  // ---------------------------------------------------------------------------

  /** Trimmed and free of upper-case letters. */
  predicate IsNormalized(id: string) {
    IsTrimmed(id) && HasNoUpper(id)
  }

  /** The identifier with white space trimmed and letters lower-cased. */
  function Normalize(identifier: string): (id: string)
    ensures id == ToLower(TrimSpace(identifier))
    ensures IsNormalized(id)
    ensures |id| == |TrimSpace(identifier)|
    ensures IsNormalized(identifier) ==> id == identifier
  {
    var trimmed := TrimSpace(identifier);
    var id := ToLower(trimmed);
    assert id != [] ==> id[0] == Lower(trimmed[0]) && id[|id| - 1] == Lower(trimmed[|trimmed| - 1]);
    assert HasNoUpper(trimmed) ==> id == trimmed by {
      if HasNoUpper(trimmed) {
        ToLowerFixesLowerCase(trimmed);
      }
    }
    id
  }

  /** `ratelimit:<prefix>:<id>` and `ratelimit:<prefix>:<id>:block` for the normalised identifier. */
  function BuildKeys(prefix: string, identifier: string): (k: ResolvedKeys)
    ensures k.identifier == ToLower(TrimSpace(identifier))
    ensures IsNormalized(k.identifier) && |k.identifier| == |TrimSpace(identifier)|
    ensures k.counterKey == KeyNamespace + prefix + ":" + k.identifier
    ensures k.blockKey == k.counterKey + BlockSuffix
    ensures |k.counterKey| == |KeyNamespace| + |prefix| + 1 + |k.identifier|
  {
    var id := Normalize(identifier);
    var counterKey := KeyNamespace + prefix + ":" + id;
    ResolvedKeys(counterKey, counterKey + BlockSuffix, id)
  }

  /** Building keys again from an already normalised identifier changes nothing. */
  lemma BuildKeysIdempotent(prefix: string, identifier: string)
    ensures var k := BuildKeys(prefix, identifier);
      BuildKeys(prefix, k.identifier) == k
  {
  }

  /** Identifiers that differ only in case and surrounding white space share their keys. */
  lemma BuildKeysIgnoresCaseAndSpace(prefix: string, a: string, b: string)
    requires ToLower(TrimSpace(a)) == ToLower(TrimSpace(b))
    ensures BuildKeys(prefix, a) == BuildKeys(prefix, b)
  {
  }

  /** Within one category, distinct normalised identifiers get distinct counter and block keys. */
  lemma {:induction false} KeysInjective(prefix: string, a: string, b: string)
    requires Normalize(a) != Normalize(b)
    ensures BuildKeys(prefix, a).counterKey != BuildKeys(prefix, b).counterKey
    ensures BuildKeys(prefix, a).blockKey != BuildKeys(prefix, b).blockKey
  {
    var n := |KeyNamespace + prefix + ":"|;
    var ka, kb := BuildKeys(prefix, a), BuildKeys(prefix, b);
    assert ka.counterKey[n..] == Normalize(a);
    assert kb.counterKey[n..] == Normalize(b);
    assert ka.blockKey[..|ka.counterKey|] == ka.counterKey;
    assert kb.blockKey[..|kb.counterKey|] == kb.counterKey;
  }

  /** IP identities and token identities never share a counter key or a block key. */
  lemma CategoriesDisjoint(ip: string, token: string)
    ensures BuildKeys(IPPrefix, ip).counterKey != BuildKeys(TokenPrefix, token).counterKey
    ensures BuildKeys(IPPrefix, ip).blockKey != BuildKeys(TokenPrefix, token).blockKey
  {
    CategoryCharacter(IPPrefix, ip);
    CategoryCharacter(TokenPrefix, token);
  }

  /** Both keys carry the first character of their category right after the namespace. */
  lemma CategoryCharacter(prefix: string, identifier: string)
    requires prefix != []
    ensures var k := BuildKeys(prefix, identifier);
      |k.counterKey| > |KeyNamespace| && k.counterKey[|KeyNamespace|] == prefix[0]
      && |k.blockKey| > |KeyNamespace| && k.blockKey[|KeyNamespace|] == prefix[0]
  {
    var k := BuildKeys(prefix, identifier);
    var n := |KeyNamespace|;
    var head := KeyNamespace + prefix;
    assert head[n] == prefix[0];
    assert (head + ":")[n] == prefix[0];
    assert k.counterKey == (head + ":") + Normalize(identifier);
    assert k.counterKey[n] == prefix[0];
    assert k.blockKey == k.counterKey + BlockSuffix;
  }

  /**
   * The two key families are not disjoint: the counter key of identifier
   * `<id>:block` is the block key of identifier `<id>`.
   */
  lemma CounterKeyCanEqualBlockKey(prefix: string, id: string)
    requires IsNormalized(id)
    ensures BuildKeys(prefix, id + BlockSuffix).counterKey == BuildKeys(prefix, id).blockKey
  {
    var longer := id + BlockSuffix;
    assert IsNormalized(longer) by {
      forall i | 0 <= i < |longer|
        ensures !IsUpper(longer[i])
      {
        if i < |id| {
          assert longer[i] == id[i];
        } else {
          assert longer[i] == BlockSuffix[i - |id|];
        }
      }
      assert longer[|longer| - 1] == 'k';
      assert longer[0] == if id == [] then ':' else id[0];
    }
    var head := KeyNamespace + prefix + ":";
    assert head + longer == (head + id) + BlockSuffix;
  }

  // ---------------------------------------------------------------------------
  // Rule resolution
  // ---------------------------------------------------------------------------

  /** Whether the request is limited by its token (an override, or a usable default token rule). */
  predicate UsesToken(cfg: Config, req: RateLimitRequest) {
    var token := TrimSpace(req.token);
    token != [] && (token in cfg.tokenRules || Usable(cfg.defaultTokenRule))
  }

  /**
   * The rule and keys for a request: the override of the trimmed token if
   * there is one, else the default token rule if it is usable, else the
   * default IP rule, which needs a non-blank IP.
   */
  function ResolveRule(cfg: Config, req: RateLimitRequest): (r: Result<Resolution, Error>)
    ensures r.Success? ==> r.value.keys.identifier != [] && IsNormalized(r.value.keys.identifier)
    ensures r.Failure? <==> !UsesToken(cfg, req) && IsBlank(req.ip)
    ensures r.Failure? ==> r.error.Validation?
  {
    var token := TrimSpace(req.token);
    if token != [] && token in cfg.tokenRules then
      Success(Resolution(cfg.tokenRules[token], BuildKeys(TokenPrefix, token)))
    else if token != [] && Usable(cfg.defaultTokenRule) then
      Success(Resolution(cfg.defaultTokenRule, BuildKeys(TokenPrefix, token)))
    else
      var ip := TrimSpace(req.ip);
      if ip == [] then Failure(Validation("ip address is required when token has no override"))
      else Success(Resolution(cfg.defaultIPRule, BuildKeys(IPPrefix, ip)))
  }

  /** The precedence of rules, case by case. */
  lemma RulePrecedence(cfg: Config, req: RateLimitRequest)
    ensures var token := TrimSpace(req.token);
      token != [] && token in cfg.tokenRules ==>
        ResolveRule(cfg, req) == Success(Resolution(cfg.tokenRules[token], BuildKeys(TokenPrefix, token)))
    ensures var token := TrimSpace(req.token);
      token != [] && token !in cfg.tokenRules && Usable(cfg.defaultTokenRule) ==>
        ResolveRule(cfg, req) == Success(Resolution(cfg.defaultTokenRule, BuildKeys(TokenPrefix, token)))
    ensures var ip := TrimSpace(req.ip);
      !UsesToken(cfg, req) && ip != [] ==>
        ResolveRule(cfg, req) == Success(Resolution(cfg.defaultIPRule, BuildKeys(IPPrefix, ip)))
  {
  }

  /** When the token decides, the IP plays no part. */
  lemma TokenResolutionIgnoresIP(cfg: Config, req: RateLimitRequest, otherIP: string)
    requires UsesToken(cfg, req)
    ensures ResolveRule(cfg, req) == ResolveRule(cfg, req.(ip := otherIP))
  {
  }

  /** Lower-casing `ABC123` gives `abc123`. */
  lemma LowerOfABC123()
    ensures ToLower("ABC123") == "abc123"
  {
    var r := ToLower("ABC123");
    assert r[0] == Lower('A') == 'a';
    assert r[1] == Lower('B') == 'b';
    assert r[2] == Lower('C') == 'c';
  }

  /** `ABC123` and `abc123` are both trimmed, differ, and share their token keys. */
  lemma CaseVariantsShareKeys()
    ensures TrimSpace("ABC123") == "ABC123" && TrimSpace("abc123") == "abc123"
    ensures "ABC123" != "abc123"
    ensures BuildKeys(TokenPrefix, "ABC123") == BuildKeys(TokenPrefix, "abc123")
  {
    var upper, lower := "ABC123", "abc123";
    assert IsTrimmed(upper) && IsTrimmed(lower);
    assert upper[0] != lower[0];
    LowerOfABC123();
    assert IsNormalized(lower);
  }

  /**
   * The override lookup is case-sensitive while keys are lower-cased: a
   * token that matches an override key only up to case misses the override,
   * falls back to the default token rule, and yet is counted under the
   * override's keys (`CaseVariantsShareKeys` gives such a pair).
   */
  lemma OverrideLookupIsCaseSensitive(cfg: Config, req: RateLimitRequest, key: string)
    requires key in cfg.tokenRules && Usable(cfg.defaultTokenRule)
    requires var token := TrimSpace(req.token);
      token != [] && token !in cfg.tokenRules && Normalize(token) == Normalize(key)
    ensures ResolveRule(cfg, req) == Success(Resolution(cfg.defaultTokenRule, BuildKeys(TokenPrefix, key)))
    ensures IsTrimmed(key) ==>
      ResolveRule(cfg, req.(token := key)) == Success(Resolution(cfg.tokenRules[key], BuildKeys(TokenPrefix, key)))
  {
  }

  // ---------------------------------------------------------------------------
  // The decision
  // ---------------------------------------------------------------------------

  /** What one `Allow` call returns, the store it leaves and the calls it made. */
  datatype Outcome = Outcome(decision: Decision, err: Option<Error>, state: StoreState, calls: seq<StoreCall>)

  /**
   * One `Allow` call against a store in state `s` whose operations in
   * `faults` fail, at instant `now`.
   */
  function Decide(cfg: Config, req: RateLimitRequest, s: StoreState, faults: map<StoreOp, string>, now: int): (o: Outcome)
    ensures o.decision.allowed <==> o.err == None
    ensures o.err.Some? && o.err.value != Blocked ==> o.decision == ZeroDecision
  {
    match ResolveRule(cfg, req)
    case Failure(e) => Outcome(ZeroDecision, Some(e), s, [])
    case Success(res) => Evaluate(res, s, faults, now)
  }

  /** The store steps of `Decide` for a request already resolved to `res`. */
  function Evaluate(res: Resolution, s: StoreState, faults: map<StoreOp, string>, now: int): (o: Outcome)
    ensures o.decision.allowed <==> o.err == None
    ensures o.err.Some? && o.err.value != Blocked ==> o.decision == ZeroDecision
  {
    var rule, keys := res.rule, res.keys;
    var checked := [IsBlockedCall(keys.blockKey)];
    if IsBlockedOp in faults then Outcome(ZeroDecision, Some(Store(faults[IsBlockedOp])), s, checked)
    else if BlockedAt(s, keys.blockKey, now) then
      Outcome(Decision(false, keys.identifier, rule, 0), Some(Blocked), s, checked)
    else
      var unblocked := ExpiryChecked(s, keys.blockKey, now);
      var counted := [IsBlockedCall(keys.blockKey), IncrementCall(keys.counterKey, rule.window)];
      if IncrementOp in faults then Outcome(ZeroDecision, Some(Store(faults[IncrementOp])), unblocked, counted)
      else
        var incremented := Incremented(unblocked, keys.counterKey);
        var count := CountOf(incremented.counts, keys.counterKey);
        if count > rule.requests then
          var blocking := [IsBlockedCall(keys.blockKey), IncrementCall(keys.counterKey, rule.window),
                           SetBlockCall(keys.blockKey, rule.blockDuration)];
          if SetBlockOp in faults then Outcome(ZeroDecision, Some(Store(faults[SetBlockOp])), incremented, blocking)
          else
            Outcome(Decision(false, keys.identifier, rule, count), Some(Blocked),
                    BlockSet(incremented, keys.blockKey, rule.blockDuration, now), blocking)
        else Outcome(Decision(true, keys.identifier, rule, count), None, incremented, counted)
  }

  /** A request that resolves to no rule fails validation and never reaches the store. */
  lemma UnresolvedTouchesNothing(cfg: Config, req: RateLimitRequest, s: StoreState, faults: map<StoreOp, string>, now: int)
    requires !UsesToken(cfg, req) && IsBlank(req.ip)
    ensures var o := Decide(cfg, req, s, faults, now);
      && o.decision == ZeroDecision && o.err.Some? && o.err.value.Validation?
      && o.state == s && o.calls == []
  {
  }

  /** A blocked identity is rejected after the block check alone: no increment, count 0. */
  lemma BlockShortCircuits(res: Resolution, s: StoreState, faults: map<StoreOp, string>, now: int)
    requires IsBlockedOp !in faults && BlockedAt(s, res.keys.blockKey, now)
    ensures Evaluate(res, s, faults, now) ==
      Outcome(Decision(false, res.keys.identifier, res.rule, 0), Some(Blocked), s, [IsBlockedCall(res.keys.blockKey)])
  {
  }

  /**
   * An identity that is not blocked is incremented exactly once, with the
   * rule's window; a block is set, once, exactly when the new count exceeds
   * the budget.
   */
  lemma IncrementsExactlyOnce(res: Resolution, s: StoreState, faults: map<StoreOp, string>, now: int)
    requires IsBlockedOp !in faults && !BlockedAt(s, res.keys.blockKey, now)
    ensures var o := Evaluate(res, s, faults, now);
      && 2 <= |o.calls| <= 3
      && o.calls[..2] == [IsBlockedCall(res.keys.blockKey), IncrementCall(res.keys.counterKey, res.rule.window)]
      && (|o.calls| == 3 <==> IncrementOp !in faults && CountOf(s.counts, res.keys.counterKey) + 1 > res.rule.requests)
      && (|o.calls| == 3 ==> o.calls[2] == SetBlockCall(res.keys.blockKey, res.rule.blockDuration))
  {
  }

  /**
   * Within budget: allowed, with the resolved rule and the post-increment
   * count; the only change to the block markers is dropping an expired one.
   */
  lemma WithinBudgetAllowed(res: Resolution, s: StoreState, faults: map<StoreOp, string>, now: int)
    requires IsBlockedOp !in faults && IncrementOp !in faults && !BlockedAt(s, res.keys.blockKey, now)
    requires CountOf(s.counts, res.keys.counterKey) + 1 <= res.rule.requests
    ensures var o := Evaluate(res, s, faults, now);
      && o.err == None
      && o.decision == Decision(true, res.keys.identifier, res.rule, CountOf(s.counts, res.keys.counterKey) + 1)
      && o.state.counts == s.counts[res.keys.counterKey := CountOf(s.counts, res.keys.counterKey) + 1]
      && o.state.blocks == s.blocks - {res.keys.blockKey}
  {
  }

  /** Over budget: denied with `Blocked` and the count, and the block marker is set for the rule's duration. */
  lemma OverBudgetBlocks(res: Resolution, s: StoreState, faults: map<StoreOp, string>, now: int)
    requires IsBlockedOp !in faults && IncrementOp !in faults && SetBlockOp !in faults
    requires !BlockedAt(s, res.keys.blockKey, now)
    requires CountOf(s.counts, res.keys.counterKey) + 1 > res.rule.requests
    ensures var o := Evaluate(res, s, faults, now);
      && o.err == Some(Blocked)
      && o.decision == Decision(false, res.keys.identifier, res.rule, CountOf(s.counts, res.keys.counterKey) + 1)
      && o.state.counts == s.counts[res.keys.counterKey := CountOf(s.counts, res.keys.counterKey) + 1]
      && (res.rule.blockDuration > 0 ==> BlockedAt(o.state, res.keys.blockKey, now))
      && (res.rule.blockDuration <= 0 ==> res.keys.blockKey !in o.state.blocks)
  {
  }

  /**
   * A failing store call ends the decision: it is the last call made, its
   * error is returned unchanged, and the decision is the zero decision.
   */
  lemma StoreErrorsPropagate(res: Resolution, s: StoreState, faults: map<StoreOp, string>, now: int)
    ensures var o := Evaluate(res, s, faults, now);
      forall i :: 0 <= i < |o.calls| && OpOf(o.calls[i]) in faults ==>
        && i == |o.calls| - 1
        && o.err == Some(Store(faults[OpOf(o.calls[i])]))
        && o.decision == ZeroDecision
    ensures var o := Evaluate(res, s, faults, now);
      o.err.Some? && o.err.value.Store? ==> o.calls != [] && OpOf(o.calls[|o.calls| - 1]) in faults
  {
  }

  /** A decision changes the counter and block marker of its own identity and nothing else. */
  lemma TouchesOnlyOwnKeys(res: Resolution, s: StoreState, faults: map<StoreOp, string>, now: int)
    ensures var o := Evaluate(res, s, faults, now);
      forall k :: k != res.keys.counterKey ==> CountOf(o.state.counts, k) == CountOf(s.counts, k)
    ensures var o := Evaluate(res, s, faults, now);
      forall k :: k != res.keys.blockKey ==>
        (k in o.state.blocks <==> k in s.blocks) && (k in s.blocks ==> o.state.blocks[k] == s.blocks[k])
  {
  }

  // ---------------------------------------------------------------------------
  // Repeated requests from one identity
  // ---------------------------------------------------------------------------

  /**
   * The outcomes of `n` requests that all resolve to `res`, at the same
   * instant, against a store that does not fail: each consults the block
   * marker first, and none ends in a store error.
   */
  function Repeat(res: Resolution, s: StoreState, now: int, n: nat): (outs: seq<Outcome>)
    ensures |outs| == n
    ensures forall k :: 0 <= k < n ==> outs[k].calls != [] && outs[k].calls[0] == IsBlockedCall(res.keys.blockKey)
    ensures forall k :: 0 <= k < n ==> !(outs[k].err.Some? && outs[k].err.value.Store?)
    decreases n
  {
    if n == 0 then []
    else
      var o := Evaluate(res, s, map[], now);
      [o] + Repeat(res, o.state, now, n - 1)
  }

  /** Once an identity is blocked, every further request is rejected by the block check alone. */
  lemma {:induction false} StaysBlocked(res: Resolution, s: StoreState, now: int, n: nat)
    decreases n
    requires BlockedAt(s, res.keys.blockKey, now)
    ensures forall k :: 0 <= k < n ==>
      Repeat(res, s, now, n)[k] ==
        Outcome(Decision(false, res.keys.identifier, res.rule, 0), Some(Blocked), s, [IsBlockedCall(res.keys.blockKey)])
  {
    if n > 0 {
      BlockShortCircuits(res, s, map[], now);
      StaysBlocked(res, s, now, n - 1);
      var outs := Repeat(res, s, now, n);
      assert outs[1..] == Repeat(res, s, now, n - 1);
    }
  }

  /**
   * With a non-positive block duration no marker is ever left behind: an
   * identity at or over its budget is incremented, rejected with its new
   * count and has its marker cleared, request after request.
   */
  lemma {:induction false} KeepsCountingWithoutBlock(res: Resolution, s: StoreState, now: int, n: nat)
    decreases n
    requires res.rule.blockDuration <= 0
    requires !BlockedAt(s, res.keys.blockKey, now)
    requires CountOf(s.counts, res.keys.counterKey) >= res.rule.requests
    ensures var c, outs := CountOf(s.counts, res.keys.counterKey), Repeat(res, s, now, n);
      forall k :: 0 <= k < n ==>
        && outs[k].err == Some(Blocked)
        && outs[k].decision == Decision(false, res.keys.identifier, res.rule, c + k + 1)
        && outs[k].calls == [IsBlockedCall(res.keys.blockKey), IncrementCall(res.keys.counterKey, res.rule.window),
                             SetBlockCall(res.keys.blockKey, res.rule.blockDuration)]
  {
    if n > 0 {
      var c := CountOf(s.counts, res.keys.counterKey);
      var outs := Repeat(res, s, now, n);
      var o := Evaluate(res, s, map[], now);
      assert outs[0] == o;
      assert outs[1..] == Repeat(res, o.state, now, n - 1);
      OverBudgetBlocks(res, s, map[], now);
      IncrementsExactlyOnce(res, s, map[], now);
      assert CountOf(o.state.counts, res.keys.counterKey) == c + 1;
      KeepsCountingWithoutBlock(res, o.state, now, n - 1);
    }
  }

  /**
   * An identity at exactly its budget and not blocked: the next request is
   * rejected with count N + 1 and sets the block; what follows depends on
   * the sign of the block duration.
   */
  lemma CrossesBudget(res: Resolution, s: StoreState, now: int, n: nat)
    requires !BlockedAt(s, res.keys.blockKey, now)
    requires CountOf(s.counts, res.keys.counterKey) == res.rule.requests && n > 0
    ensures var outs := Repeat(res, s, now, n);
      && outs[0].err == Some(Blocked)
      && outs[0].decision == Decision(false, res.keys.identifier, res.rule, res.rule.requests + 1)
      && outs[0].calls == [IsBlockedCall(res.keys.blockKey), IncrementCall(res.keys.counterKey, res.rule.window),
                           SetBlockCall(res.keys.blockKey, res.rule.blockDuration)]
    ensures var outs := Repeat(res, s, now, n);
      res.rule.blockDuration > 0 ==>
      forall k :: 0 < k < n ==>
        && outs[k].err == Some(Blocked)
        && outs[k].decision == Decision(false, res.keys.identifier, res.rule, 0)
        && outs[k].calls == [IsBlockedCall(res.keys.blockKey)]
    ensures var c, outs := res.rule.requests, Repeat(res, s, now, n);
      res.rule.blockDuration <= 0 ==>
      forall k :: 0 < k < n ==>
        && outs[k].err == Some(Blocked)
        && outs[k].decision == Decision(false, res.keys.identifier, res.rule, c + k + 1)
        && outs[k].calls == [IsBlockedCall(res.keys.blockKey), IncrementCall(res.keys.counterKey, res.rule.window),
                             SetBlockCall(res.keys.blockKey, res.rule.blockDuration)]
  {
    var c := CountOf(s.counts, res.keys.counterKey);
    var outs := Repeat(res, s, now, n);
    var o := Evaluate(res, s, map[], now);
    assert outs[0] == o;
    assert outs[1..] == Repeat(res, o.state, now, n - 1);
    OverBudgetBlocks(res, s, map[], now);
    IncrementsExactlyOnce(res, s, map[], now);
    if res.rule.blockDuration > 0 {
      StaysBlocked(res, o.state, now, n - 1);
    } else {
      assert CountOf(o.state.counts, res.keys.counterKey) == c + 1;
      KeepsCountingWithoutBlock(res, o.state, now, n - 1);
    }
  }

  /**
   * For an identity with count `c` within a budget of N and not blocked,
   * the next N - c requests are allowed with counts c+1 .. N and the one
   * after is rejected with count N + 1 and sets the block. With a positive
   * block duration every later one is rejected by the block check alone;
   * with a non-positive one every later one is counted and rejected again.
   */
  lemma {:induction false} BudgetExactlyN(res: Resolution, s: StoreState, now: int, n: nat)
    decreases n
    requires !BlockedAt(s, res.keys.blockKey, now)
    requires 0 <= CountOf(s.counts, res.keys.counterKey) <= res.rule.requests
    ensures var c, outs := CountOf(s.counts, res.keys.counterKey), Repeat(res, s, now, n);
      forall k :: 0 <= k < n && c + k < res.rule.requests ==>
        outs[k].err == None && outs[k].decision == Decision(true, res.keys.identifier, res.rule, c + k + 1)
    ensures var c, outs := CountOf(s.counts, res.keys.counterKey), Repeat(res, s, now, n);
      forall k :: 0 <= k < n && c + k == res.rule.requests ==>
        && outs[k].err == Some(Blocked)
        && outs[k].decision == Decision(false, res.keys.identifier, res.rule, res.rule.requests + 1)
        && outs[k].calls == [IsBlockedCall(res.keys.blockKey), IncrementCall(res.keys.counterKey, res.rule.window),
                             SetBlockCall(res.keys.blockKey, res.rule.blockDuration)]
    ensures var c, outs := CountOf(s.counts, res.keys.counterKey), Repeat(res, s, now, n);
      res.rule.blockDuration > 0 ==>
      forall k :: 0 <= k < n && c + k > res.rule.requests ==>
        && outs[k].err == Some(Blocked)
        && outs[k].decision == Decision(false, res.keys.identifier, res.rule, 0)
        && outs[k].calls == [IsBlockedCall(res.keys.blockKey)]
    ensures var c, outs := CountOf(s.counts, res.keys.counterKey), Repeat(res, s, now, n);
      res.rule.blockDuration <= 0 ==>
      forall k :: 0 <= k < n && c + k > res.rule.requests ==>
        && outs[k].err == Some(Blocked)
        && outs[k].decision == Decision(false, res.keys.identifier, res.rule, c + k + 1)
        && outs[k].calls == [IsBlockedCall(res.keys.blockKey), IncrementCall(res.keys.counterKey, res.rule.window),
                             SetBlockCall(res.keys.blockKey, res.rule.blockDuration)]
  {
    if n > 0 {
      var c := CountOf(s.counts, res.keys.counterKey);
      var outs := Repeat(res, s, now, n);
      var o := Evaluate(res, s, map[], now);
      assert outs[0] == o;
      assert outs[1..] == Repeat(res, o.state, now, n - 1);
      if c < res.rule.requests {
        WithinBudgetAllowed(res, s, map[], now);
        assert CountOf(o.state.counts, res.keys.counterKey) == c + 1;
        BudgetExactlyN(res, o.state, now, n - 1);
      } else {
        CrossesBudget(res, s, now, n);
      }
    }
  }

  // ---------------------------------------------------------------------------
  // The service object
  // ---------------------------------------------------------------------------

  class RateLimiterService {
    const storage: MockStore
    const config: Config

    constructor (storage: MockStore, config: Config)
      ensures this.storage == storage && this.config == config
    {
      this.storage := storage;
      this.config := config;
    }

    /**
     * Decides one request at instant `now`: the result, the new store
     * contents and the calls made are those `Decide` describes.
     */
    method Allow(req: RateLimitRequest, now: int) returns (decision: Decision, err: Option<Error>)
      modifies storage`counts, storage`blocks, storage`calls
      ensures var o := Decide(config, req, old(storage.State()), storage.faults, now);
        && decision == o.decision && err == o.err
        && storage.State() == o.state
        && storage.calls == old(storage.calls) + o.calls
    {
      var resolved := ResolveRule(config, req);
      if resolved.Failure? {
        return ZeroDecision, Some(resolved.error);
      }
      decision, err := Enforce(resolved.value, now);
    }

    /** The store steps of `Allow` for a request resolved to `res`, as `Evaluate` describes them. */
    method Enforce(res: Resolution, now: int) returns (decision: Decision, err: Option<Error>)
      modifies storage`counts, storage`blocks, storage`calls
      ensures var o := Evaluate(res, old(storage.State()), storage.faults, now);
        && decision == o.decision && err == o.err
        && storage.State() == o.state
        && storage.calls == old(storage.calls) + o.calls
    {
      var rule, keys := res.rule, res.keys;
      ghost var s0, calls0 := storage.State(), storage.calls;

      var blocked := storage.IsBlocked(keys.blockKey, now);
      if blocked.Failure? {
        return ZeroDecision, Some(blocked.error);
      }
      if blocked.value {
        return Decision(false, keys.identifier, rule, 0), Some(Blocked);
      }
      ghost var s1 := ExpiryChecked(s0, keys.blockKey, now);
      assert storage.State() == s1;

      var counted := storage.Increment(keys.counterKey, rule.window);
      assert storage.calls == calls0 + [IsBlockedCall(keys.blockKey), IncrementCall(keys.counterKey, rule.window)];
      if counted.Failure? {
        return ZeroDecision, Some(counted.error);
      }
      var count := counted.value;

      if count > rule.requests {
        var setErr := storage.SetBlock(keys.blockKey, rule.blockDuration, now);
        assert storage.calls == calls0 + [IsBlockedCall(keys.blockKey), IncrementCall(keys.counterKey, rule.window),
                                          SetBlockCall(keys.blockKey, rule.blockDuration)];
        if setErr.Some? {
          return ZeroDecision, setErr;
        }
        return Decision(false, keys.identifier, rule, count), Some(Blocked);
      }
      return Decision(true, keys.identifier, rule, count), None;
    }
  }

  /**
   * Builds the service, refusing a missing store and a default IP rule
   * without a positive budget and window.
   */
  method NewRateLimiterService(storage: MockStore?, cfg: Config) returns (r: Result<RateLimiterService, Error>)
    ensures storage == null ==> r == Failure(Validation("storage is required"))
    ensures storage != null && !Usable(cfg.defaultIPRule) ==>
      r == Failure(Validation("default IP rule must have positive values"))
    ensures storage != null && Usable(cfg.defaultIPRule) ==>
      r.Success? && fresh(r.value) && r.value.storage == storage && r.value.config == cfg
  {
    if storage == null {
      return Failure(Validation("storage is required"));
    }
    if !Usable(cfg.defaultIPRule) {
      return Failure(Validation("default IP rule must have positive values"));
    }
    var service := new RateLimiterService(storage, cfg);
    r := Success(service);
  }
}
