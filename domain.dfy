/** The rate limiter's value types: rules, requests, decisions and errors. */
module Domain {

  /** A Go `time.Duration`: a count of nanoseconds. */
  type Duration = int

  const Second: Duration := 1_000_000_000
  const Minute: Duration := 60 * Second

  /** A request budget over a window, and how long to block once it is exceeded. */
  datatype RateLimitRule = RateLimitRule(requests: int, window: Duration, blockDuration: Duration)

  /** The Go zero value of a rule; as a default token rule it means "none configured". */
  const ZeroRule := RateLimitRule(0, 0, 0)

  /** A rule that can actually limit: a positive budget over a positive window. */
  predicate Usable(rule: RateLimitRule) {
    rule.requests > 0 && rule.window > 0
  }

  datatype RateLimitRequest = RateLimitRequest(ip: string, token: string)

  datatype Decision = Decision(allowed: bool, identifier: string, appliedRule: RateLimitRule, currentCount: int)

  /** The Go zero value of a decision, returned beside every error other than `Blocked`. */
  const ZeroDecision := Decision(false, "", ZeroRule, 0)

  /**
   * `Blocked` is the sentinel `ErrBlocked`; `Validation` covers configuration
   * and request errors; `Store` is a failure reported by the counter store.
   */
  datatype Error = Blocked | Validation(message: string) | Store(message: string)
}
