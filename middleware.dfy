/**
 * The HTTP middleware in front of the limiter: the client identity it reads
 * from the request headers, and the response it gives for each outcome of
 * `Allow` — pass to the next handler, 429 with the rate-limit message, or
 * 500 — passing everything through when no limiter is configured.
 */
module Middleware {
  import opened Wrappers
  import opened Strings
  import opened Domain
  import opened Storage
  import opened Service

  /**
   * The parts of an HTTP request the middleware reads; an absent header is
   * the empty string, as Go's `Header.Get` returns it.
   */
  datatype HttpRequest = HttpRequest(forwardedFor: string, realIP: string, apiKey: string, remoteAddr: string)

  /** Either the request goes on to the next handler, or the middleware answers it. */
  datatype Response = PassThrough | Reply(status: int, contentType: string, body: string)

  const RateLimitExceededMessage := "you have reached the maximum number of requests or actions allowed within a certain time frame"
  const PlainText := "text/plain; charset=utf-8"
  const StatusTooManyRequests := 429
  const StatusInternalServerError := 500

  /** The rate-limit answer: 429, plain text, the fixed message. */
  const TooManyRequests := Reply(StatusTooManyRequests, PlainText, RateLimitExceededMessage)

  /** Go's `http.Error` with the status text of 500, which ends the body with a newline. */
  const InternalServerError := Reply(StatusInternalServerError, PlainText, "Internal Server Error\n")

  // ---------------------------------------------------------------------------
  // The client identity
  // ---------------------------------------------------------------------------

  /**
   * The client IP: the first entry of a non-blank `X-Forwarded-For`, else a
   * non-blank `X-Real-IP`, else the host part of the remote address, or the
   * whole remote address when `hostOf` (Go's `net.SplitHostPort`) rejects it.
   */
  function ExtractIP(r: HttpRequest, hostOf: string -> Option<string>): (ip: string)
    ensures !IsBlank(r.forwardedFor) ==> IsTrimmed(ip) && ',' !in ip
    ensures !IsBlank(r.forwardedFor) && ',' !in r.forwardedFor ==> ip == TrimSpace(r.forwardedFor)
    ensures IsBlank(r.forwardedFor) && !IsBlank(r.realIP) ==> ip == TrimSpace(r.realIP) && ip != []
    ensures IsBlank(r.forwardedFor) && IsBlank(r.realIP) ==>
      ip == (match hostOf(TrimSpace(r.remoteAddr))
             case Some(host) => host
             case None => TrimSpace(r.remoteAddr))
  {
    var forwarded := TrimSpace(r.forwardedFor);
    if forwarded != [] then
      var parts := Split(forwarded, ',');
      assert ',' !in forwarded ==> parts == [forwarded] by {
        if ',' !in forwarded {
          SplitWithoutSeparator(forwarded, ',');
        }
      }
      TrimSpace(parts[0])
    else
      var realIP := TrimSpace(r.realIP);
      if realIP != [] then realIP
      else
        var remote := TrimSpace(r.remoteAddr);
        match hostOf(remote)
        case Some(host) => host
        case None => remote
  }

  /**
   * With an `X-Forwarded-For` that reads `client,rest` once trimmed, the
   * client entry (trimmed) is the IP, whatever the other headers say; an
   * empty client entry gives the empty IP.
   */
  lemma FirstForwardedEntryWins(r: HttpRequest, hostOf: string -> Option<string>, client: string, rest: string)
    requires TrimSpace(r.forwardedFor) == client + [','] + rest && ',' !in client
    ensures ExtractIP(r, hostOf) == TrimSpace(client)
  {
    var xff := TrimSpace(r.forwardedFor);
    assert xff[|client|] == ',';
    assert !IsBlank(xff);
    var i := IndexOf(xff, ',');
    assert i == |client|;
    assert xff[..i] == client;
    assert Split(xff, ',')[0] == client;
  }

  /**
   * The request handed to the limiter: the extracted IP and the trimmed
   * `API_KEY` header, which is empty exactly when the header is blank and
   * which the service's own trimming leaves as it is.
   */
  function LimiterRequest(r: HttpRequest, hostOf: string -> Option<string>): (req: RateLimitRequest)
    ensures req.ip == ExtractIP(r, hostOf)
    ensures IsTrimmed(req.token) && TrimSpace(req.token) == req.token
    ensures req.token == [] <==> IsBlank(r.apiKey)
  {
    RateLimitRequest(ExtractIP(r, hostOf), TrimSpace(r.apiKey))
  }

  // ---------------------------------------------------------------------------
  // The response
  // ---------------------------------------------------------------------------

  /**
   * The response to an outcome of `Allow`: 429 for the `Blocked` error, 500
   * for any other error, 429 for a denial without error, and on to the next
   * handler for an allowed request.
   */
  function Respond(d: Decision, err: Option<Error>): (resp: Response)
    ensures resp == PassThrough <==> err.None? && d.allowed
    ensures resp == TooManyRequests <==> err == Some(Blocked) || (err.None? && !d.allowed)
    ensures resp == InternalServerError <==> err.Some? && err.value != Blocked
  {
    if err.Some? then
      if err.value == Blocked then TooManyRequests else InternalServerError
    else if !d.allowed then TooManyRequests
    else PassThrough
  }

  /**
   * Against the service, the response follows the error alone: a request
   * passes exactly when it is allowed, gets 429 exactly when it is
   * `Blocked`, and gets 500 exactly for a validation or store error, so a
   * denial without error never reaches the middleware.
   */
  lemma ResponseFollowsError(cfg: Config, req: RateLimitRequest, s: StoreState, faults: map<StoreOp, string>, now: int)
    ensures var o := Decide(cfg, req, s, faults, now);
      && (Respond(o.decision, o.err) == PassThrough <==> o.decision.allowed)
      && (Respond(o.decision, o.err) == TooManyRequests <==> o.err == Some(Blocked))
      && (Respond(o.decision, o.err) == InternalServerError <==> o.err.Some? && (o.err.value.Store? || o.err.value.Validation?))
      && (!o.decision.allowed ==> o.err.Some?)
  {
  }

  /**
   * An `X-Forwarded-For` that starts with a comma once trimmed, on a request
   * without `API_KEY`, gives the empty IP; the service rejects it as a
   * validation error without touching the store, and the client gets 500.
   */
  lemma LeadingCommaIsServerError(cfg: Config, r: HttpRequest, hostOf: string -> Option<string>,
                                  s: StoreState, faults: map<StoreOp, string>, now: int)
    requires TrimSpace(r.forwardedFor) != [] && TrimSpace(r.forwardedFor)[0] == ','
    requires IsBlank(r.apiKey)
    ensures LimiterRequest(r, hostOf).ip == []
    ensures var o := Decide(cfg, LimiterRequest(r, hostOf), s, faults, now);
      && Respond(o.decision, o.err) == InternalServerError
      && o.state == s && o.calls == []
  {
    var xff := TrimSpace(r.forwardedFor);
    assert xff == [] + [','] + xff[1..];
    FirstForwardedEntryWins(r, hostOf, [], xff[1..]);
    var req := LimiterRequest(r, hostOf);
    assert req.ip == [] && req.token == [];
    UnresolvedTouchesNothing(cfg, req, s, faults, now);
    var o := Decide(cfg, req, s, faults, now);
    assert o.err.Some? && o.err.value.Validation?;
  }

  // ---------------------------------------------------------------------------
  // The handler
  // ---------------------------------------------------------------------------

  /** The store a limiter updates, if there is a limiter. */
  function StoreOf(limiter: RateLimiterService?): set<MockStore> {
    if limiter == null then {} else {limiter.storage}
  }

  /**
   * One request through the middleware at instant `now`: without a limiter
   * it passes; otherwise the limiter decides the request built from the
   * headers, and the response is the one `Respond` gives for its outcome.
   */
  method Handle(limiter: RateLimiterService?, r: HttpRequest, hostOf: string -> Option<string>, now: int)
      returns (resp: Response)
    modifies StoreOf(limiter)`counts, StoreOf(limiter)`blocks, StoreOf(limiter)`calls
    ensures limiter == null ==> resp == PassThrough
    ensures limiter != null ==>
      var o := Decide(limiter.config, LimiterRequest(r, hostOf), old(limiter.storage.State()), limiter.storage.faults, now);
      && resp == Respond(o.decision, o.err)
      && limiter.storage.State() == o.state
      && limiter.storage.calls == old(limiter.storage.calls) + o.calls
  {
    if limiter == null {
      return PassThrough;
    }
    var ip := ExtractIP(r, hostOf);
    var token := TrimSpace(r.apiKey);
    var decision, err := limiter.Allow(RateLimitRequest(ip, token), now);
    resp := Respond(decision, err);
  }
}
