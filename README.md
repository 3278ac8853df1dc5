# Rate limiter with blocking — a verified model

This project models the core of a Go HTTP rate limiter. The limiter counts
requests per client identity in a store and blocks an identity for a while
once it exceeds its budget. A client is identified by an API token when one
applies, otherwise by its IP address.

The model covers four parts:

- **The decision service** (`service.dfy`, module `Service`). It chooses the
  rule for a request: a per-token override, then the default token rule,
  then the default IP rule. It builds the normalised store keys
  `ratelimit:<ip|token>:<id>` and `…:block`. It then runs the sequence
  check block, increment, set block. `Allow` is a method on a
  `RateLimiterService` object that updates a store object in place. Its
  postcondition ties its result, the new store contents and the calls it
  made to the pure function `Decide`, and the properties are lemmas about
  `Decide`.
- **The in-memory store of the test suite** (`storage.dfy`, class
  `MockStore`). It keeps a counter map and a block-marker map. It also has a
  `faults` map naming the store operations that fail, so that the
  service's error paths can be stated. With no faults it is the test suite's
  mock. Its four test scenarios are verified methods in `service_test.dfy`.
- **The configuration loader** (`config.dfy`). It reads the IP rule, the
  optional default token rule and the per-token overrides from the
  environment, given as a map. Overrides are written
  `TOKEN:REQUESTS:WINDOW_SECONDS:BLOCK_DURATION_MINUTES`, separated by
  commas. `BuildTokenOverrides` keeps the source's loop and is proved equal
  to the specification function `TokenOverrides`.
- **The HTTP middleware** (`middleware.dfy`). It extracts the client IP from
  `X-Forwarded-For`, `X-Real-IP` or the remote address, maps each outcome of
  `Allow` to a response (pass, 429 or 500), and passes everything through
  when no limiter is configured.

`strings.dfy` models the Go library functions the core calls:
`strings.TrimSpace`, `strings.ToLower`, `strings.Split` and `strconv.Atoi`.
It also defines `Join` and `Itoa`, which the core does not call. They are
the inverses of `Split` and `Atoi` and serve only to state the round trips
proved about them.

Some points of the code that the model follows as written:

- The validation error for a request with no usable token and a blank IP is
  "ip address is required when token has no override"
  (`internal/core/services/rate_limiter_service.go:89`).
- The configuration loader does not check token-override rules or the
  default token rule for positive values (`internal/config/config.go:125-190`).
  The service uses the default token rule only when its budget and window
  are positive (`internal/core/services/rate_limiter_service.go:82`). It uses
  an override whatever its values. The default IP rule is checked once, when
  the service is built (`internal/core/services/rate_limiter_service.go:30-32`).

## Model

| member | source | states |
|---|---|---|
| Strings.TrimSpace | internal/config/config.go:193 | The result is trimmed, and is the input itself when the input is already trimmed. It is empty exactly when the input is all white space, using the `unicode.IsSpace` set. |
| Strings.TrimSpaceIsInfix | internal/config/config.go:193 | The result is the part of the input that starts where the leading white space ends. Only white space comes before it and only white space comes after it. |
| Strings.TrimSpaceIdempotent | internal/adapters/http/middleware/rate_limiter_middleware.go:25 | Trimming twice is trimming once. The middleware trims the token and the service trims it again. |
| Strings.ToLower | internal/core/services/rate_limiter_service.go:96 | Keeps the length and lower-cases each character. |
| Strings.ToLowerFixesLowerCase | internal/core/services/rate_limiter_service.go:96 | A string without upper-case letters is unchanged by lower-casing. |
| Strings.Split | internal/config/config.go:160 | There is one piece more than there are separators. No piece holds the separator. The first piece is the text before the first separator. |
| Strings.SplitWithoutSeparator | internal/adapters/http/middleware/rate_limiter_middleware.go:52 | A string without the separator splits into itself alone. |
| Strings.SplitAfterFirstSeparator | internal/config/config.go:163 | Splitting `a + sep + b`, where `a` has no separator, gives `a` and then the pieces of `b`. |
| Strings.SplitJoin | internal/config/config.go:163 | Splitting pieces joined by a separator that none of them contains gives the pieces back. |
| Strings.JoinSplit | internal/config/config.go:160 | Joining the pieces of a split with the same separator gives the input back. |
| Strings.SplitEndingWithSeparator | internal/config/config.go:160 | A string ending with the separator splits into pieces of which the last is empty. |
| Strings.Atoi | internal/config/config.go:131 | A parsed number has no white space at either end, so `Atoi` accepts no padding. |
| Strings.ItoaShape | internal/config/config.go:169-180 | A printed integer is non-empty and ends in a digit. It starts with a minus sign exactly when the number is negative, and every other character is a digit. |
| Strings.DigitsValueOfNatToString | internal/config/config.go:169 | The digits printed for a natural number read back as that number. |
| Strings.AtoiItoa | internal/config/config.go:169-180 | Every integer survives printing and parsing back. |
| Storage.MockStore.constructor | internal/core/services/rate_limiter_service_test.go:152-157 | The new store has no counters, no block markers, no faults and no calls. |
| Storage.MockStore.Increment | internal/core/services/rate_limiter_service_test.go:159-162 | Adds one to the key's counter, starting from zero when the key is absent, and returns the new value. It logs the call. A configured fault returns the store error and leaves the counters unchanged. |
| Storage.MockStore.IsBlocked | internal/core/services/rate_limiter_service_test.go:164-174 | Reports a marker that is present and not yet expired. An expired marker is deleted and reads as not blocked. A configured fault returns the store error. |
| Storage.MockStore.SetBlock | internal/core/services/rate_limiter_service_test.go:176-183 | A positive duration sets a marker that expires at `now + duration`. A non-positive duration deletes the marker. A configured fault returns the store error. |
| Service.Normalize | internal/core/services/rate_limiter_service.go:96 | The result is `ToLower(TrimSpace(identifier))`. It is normalised and has the trimmed length. An identifier that is already normalised is kept as it is. |
| Service.BuildKeys | internal/core/services/rate_limiter_service.go:95-102 | The identifier in the keys is `ToLower(TrimSpace(identifier))`, normalised and of the trimmed length. The block key is the counter key followed by `:block`. The counter key is exactly `ratelimit:`, the prefix, a colon and that identifier. |
| Service.BuildKeysIdempotent | internal/core/services/rate_limiter_service.go:95-102 | Building keys again from the normalised identifier gives the same keys. |
| Service.BuildKeysIgnoresCaseAndSpace | internal/core/services/rate_limiter_service.go:95-102 | Identifiers that differ only in case and surrounding white space share both keys. |
| Service.KeysInjective | internal/core/services/rate_limiter_service.go:98-99 | Within a category, distinct normalised identifiers get distinct counter keys and distinct block keys. |
| Service.CategoryCharacter | internal/core/services/rate_limiter_service.go:98-99 | Both keys carry the category's first letter right after `ratelimit:`. |
| Service.CategoriesDisjoint | internal/core/services/rate_limiter_service.go:80-92 | An IP identity and a token identity never share a counter key or a block key. |
| Service.CounterKeyCanEqualBlockKey | internal/core/services/rate_limiter_service.go:98-99 | The counter key of identifier `<id>:block` equals the block key of `<id>`, so the two key families can collide. |
| Service.ResolveRule | internal/core/services/rate_limiter_service.go:76-93 | Resolution fails exactly when no token rule applies and the IP is blank, and it fails with a validation error. A resolved identifier is non-empty and normalised. |
| Service.RulePrecedence | internal/core/services/rate_limiter_service.go:77-92 | The token override comes first, then a usable default token rule, then the default IP rule under the trimmed IP. Each comes with its own keys. |
| Service.TokenResolutionIgnoresIP | internal/core/services/rate_limiter_service.go:77-85 | When a token rule applies, changing the IP changes nothing. |
| Service.LowerOfABC123 | internal/core/services/rate_limiter_service.go:96 | Lower-casing `ABC123` gives `abc123`. |
| Service.CaseVariantsShareKeys | internal/core/services/rate_limiter_service.go:79-80 | `ABC123` and `abc123` are distinct trimmed tokens with the same keys. |
| Service.OverrideLookupIsCaseSensitive | internal/core/services/rate_limiter_service.go:79-83 | A token that matches an override only up to case misses it and gets the default token rule, yet it is counted under that override's keys. |
| Service.Decide | internal/core/services/rate_limiter_service.go:41-68 | A decision is allowed exactly when there is no error. Every error other than `Blocked` comes with the zero decision. |
| Service.Evaluate | internal/core/services/rate_limiter_service.go:47-67 | For the store steps after resolution: allowed exactly when there is no error, and a store error comes with the zero decision. |
| Service.UnresolvedTouchesNothing | internal/core/services/rate_limiter_service.go:42-45 | A request with no usable token and a blank IP fails validation. The store is not called and is left unchanged. |
| Service.BlockShortCircuits | internal/core/services/rate_limiter_service.go:47-53 | A blocked identity is denied with `Blocked` and count 0 after the block check alone, and the store is unchanged. |
| Service.IncrementsExactlyOnce | internal/core/services/rate_limiter_service.go:55-63 | An unblocked identity is incremented exactly once, with the rule's window. `SetBlock` is called, once, exactly when the new count exceeds the budget. |
| Service.WithinBudgetAllowed | internal/core/services/rate_limiter_service.go:55-67 | Within budget the request is allowed with the rule and the new count. Only its own counter changes, and an expired marker is dropped. |
| Service.OverBudgetBlocks | internal/core/services/rate_limiter_service.go:60-64 | Over budget the request is denied with `Blocked` and the count. A block is in force afterwards when the duration is positive, and cleared when it is not. |
| Service.StoreErrorsPropagate | internal/core/services/rate_limiter_service.go:47-63 | A failing store call is the last call made. Its error is returned unchanged with the zero decision. |
| Service.TouchesOnlyOwnKeys | internal/core/services/rate_limiter_service.go:47-67 | A decision leaves every other counter and block marker as it was. |
| Service.Repeat | internal/core/services/rate_limiter_service_test.go:23-31 | `n` successive requests give `n` outcomes. Each consults the block marker first, and against a store that does not fail none ends in a store error. |
| Service.StaysBlocked | internal/core/services/rate_limiter_service_test.go:60-64 | Once an identity is blocked, every further request at that instant is rejected by the block check alone. |
| Service.BudgetExactlyN | internal/core/services/rate_limiter_service.go:47-67 | From count `c` within a budget of N, for any block duration: requests up to count N are allowed with counts c+1..N, and the next is denied with count N+1 and makes the three calls check block, increment, set block. With a positive block duration every later request is rejected by the block check alone, with count 0. With a zero or negative one every later request is counted again and denied with its new count, making the same three calls. |
| Service.CrossesBudget | internal/core/services/rate_limiter_service.go:47-67 | At exactly its budget, the next request is denied with count N+1 and sets the block; later requests follow the block duration's sign as in BudgetExactlyN. |
| Service.KeepsCountingWithoutBlock | internal/core/services/rate_limiter_service.go:55-65 | With a zero or negative block duration no marker stays in force: each request at or over the budget is incremented, denied with its new count and clears the marker again. |
| Service.RateLimiterService.constructor | internal/core/services/rate_limiter_service.go:37 | The service holds the given store and configuration. |
| Service.RateLimiterService.Allow | internal/core/services/rate_limiter_service.go:41-68 | The result, the new store contents and the calls made are those `Decide` gives for the store before the call. |
| Service.RateLimiterService.Enforce | internal/core/services/rate_limiter_service.go:47-67 | The store steps of `Allow` after resolution are those `Evaluate` gives. |
| Service.NewRateLimiterService | internal/core/services/rate_limiter_service.go:26-38 | A missing store and a default IP rule without a positive budget and window are each refused with their message. Otherwise a fresh service holds the store and the configuration. |
| ServiceScenarios.NewTestLimiter | internal/core/services/rate_limiter_service_test.go:138-145 | Construction succeeds for a usable IP rule and keeps the store and configuration. |
| ServiceScenarios.ResolvesByIP | internal/core/services/rate_limiter_service_test.go:24 | An IP-only request resolves to the IP rule under its own IP, whatever the default token rule is. |
| ServiceScenarios.ResolvesByToken | internal/core/services/rate_limiter_service_test.go:89 | A token request resolves to the token's override, or else to the default token rule, keyed by the token. |
| ServiceScenarios.LiteralsNormalized | internal/core/services/rate_limiter_service_test.go:24 | The scenario identifiers are already normalised. |
| ServiceScenarios.NextRequest | internal/core/services/rate_limiter_service_test.go:46-64 | One more request meets the expected outcome for its count: allowed, then denied with count N+1, then denied with count 0. It leaves the identity one request further on. |
| ServiceScenarios.AllowOnce | internal/core/services/rate_limiter_service_test.go:24 | One `Allow` call on the object has the outcome `NextRequest` describes. |
| ServiceScenarios.AllowRepeatedly | internal/core/services/rate_limiter_service_test.go:23-31 | `n` calls in a row each give the expected outcome for the count before them. |
| ServiceScenarios.AllowsWithinIPLimit | internal/core/services/rate_limiter_service_test.go:11-32 | Under a budget of 3, three requests from one IP are allowed with counts 1, 2 and 3. |
| ServiceScenarios.BlocksAfterExceedingIPLimit | internal/core/services/rate_limiter_service_test.go:34-65 | Under a budget of 2, the third request is denied with `Blocked` and count 3. The fourth is denied by the block check with count 0. |
| ServiceScenarios.UsesTokenOverride | internal/core/services/rate_limiter_service_test.go:67-100 | Five token requests are allowed under the token's override, whose rule is applied, although the IP budget is 1. |
| ServiceScenarios.DefaultTokenRule | internal/core/services/rate_limiter_service_test.go:102-135 | An unknown token gets the default token rule: two requests are allowed and the third is `Blocked`. |
| Configuration.GetEnv | internal/config/config.go:192-198 | A blank or unset variable gives the fallback. Otherwise the result is the variable's value with the surrounding white space trimmed, and it is non-empty. |
| Configuration.IntSetting | internal/config/config.go:91-102 | A setting that does not parse fails with `invalid <NAME>`. |
| Configuration.ParseSetting | internal/config/config.go:91-102 | The setting fails exactly when its text does not parse as a number, and then the error names the variable. Otherwise it is the parsed number. |
| Configuration.IntSettingReadsNumber | internal/config/config.go:91-102 | A variable holding a printed number, with or without surrounding white space, reads back as that number. |
| Configuration.BuildOptionalTokenRule | internal/config/config.go:125-151 | A blank budget gives the zero rule, meaning none is configured. A non-zero rule needs the budget to parse as it stands, untrimmed. TokenRuleValue gives the rule and the errors for every configured budget. |
| Configuration.ParseOverride | internal/config/config.go:163-186 | An item that parses has exactly three colons once trimmed, and a trimmed token. |
| Configuration.PaddedNumberRejected | internal/config/config.go:167-180 | The three numbers of an override are parsed without trimming. A field that starts with white space is rejected with that field's own message, though the item and the token are trimmed. |
| Configuration.ParseEach | internal/config/config.go:162 | Every item is parsed, in order. |
| Configuration.PrefixFailureSticks | internal/config/config.go:164-180 | Once a prefix of the items fails, the whole list fails with the same error. |
| Configuration.OverridesSize | internal/config/config.go:162-189 | The map built from the parsed items has at most one entry per item. |
| Configuration.TokenOverrides | internal/config/config.go:153-190 | The overrides read from `TOKENS` have at most one entry per comma-separated item. |
| Configuration.OverridesIffEveryItemParses | internal/config/config.go:162-189 | The overrides parse exactly when every item parses. |
| Configuration.FirstErrorWins | internal/config/config.go:164-180 | The first item that fails gives the error, and no partial map is returned. |
| Configuration.OverrideKeysComeFromItems | internal/config/config.go:182 | Every token in the map comes from an item that parsed. |
| Configuration.LastItemWins | internal/config/config.go:182-186 | Each token maps to the rule of the last item naming it. |
| Configuration.BlankItemRejected | internal/config/config.go:163-165 | A blank item is rejected with the format message. |
| Configuration.TrailingCommaRejected | internal/config/config.go:160-165 | A `TOKENS` value ending in a comma is rejected as a whole. |
| Configuration.BlankTokensGiveNoOverrides | internal/config/config.go:154-157 | An unset or blank `TOKENS` gives an empty map and no error. |
| Configuration.ItoaHasNoColon | internal/config/config.go:163 | A printed number holds no colon and ends in a digit. |
| Configuration.ParseFormattedOverride | internal/config/config.go:163-186 | An item written from a trimmed token without colons, the empty token included, and three integers parses back to that token. Its rule has the window in seconds and the block in minutes. |
| Configuration.OverridesStep | internal/config/config.go:162-187 | One more item adds its rule, or its error ends the whole list. |
| Configuration.BuildTokenOverrides | internal/config/config.go:153-190 | The loop over the items computes exactly `TokenOverrides`. |
| Configuration.IPRuleSetting | internal/config/config.go:91-102 | With the three IP settings unset or blank, the IP rule is 10 requests per second with a 5-minute block. IPRuleValue and IPRuleErrorOrder give the rule and the errors for configured settings. |
| Configuration.RuleFrom | internal/config/config.go:91-119 | The rule exists exactly when all three settings parse, and then holds the budget, the window in seconds times `time.Second` and the block in minutes times `time.Minute`. Otherwise the first failing setting, in the order requests, window, block, is the error. |
| Configuration.IPRuleValue | internal/config/config.go:91-119 | Whatever the three IP settings parse to, the IP rule is that budget with the window converted from seconds and the block from minutes. |
| Configuration.IPRuleErrorOrder | internal/config/config.go:91-102 | An unparseable IP setting fails the IP rule with its own message, checked in the order requests, window, block. |
| Configuration.Assemble | internal/config/config.go:104-122 | The configuration exists exactly when all three parts do, and holds them. The IP rule's error comes first, then the default token rule's. |
| Configuration.BuildRateLimiterConfig | internal/config/config.go:90-123 | Computes exactly `RateLimiterSettings`. |
| Configuration.AtoiOfDefaults | internal/config/config.go:91-99 | The default texts `10`, `1` and `5` parse to 10, 1 and 5. |
| Configuration.IPSettingDefaults | internal/config/config.go:91-102 | Unset IP settings read 10 requests, 1 second and 5 minutes. |
| Configuration.EmptyEnvironmentDefaults | internal/config/config.go:90-123 | An empty environment gives the default IP rule, no default token rule and no overrides. |
| Configuration.TokenRuleValue | internal/config/config.go:125-150 | With a non-blank budget: an unparseable budget fails with its message; otherwise a bad window, then a bad block, fails with its message; otherwise the rule is the budget with the window converted from seconds and the block from minutes. |
| Configuration.TokenRuleDefaults | internal/config/config.go:136-150 | With a token budget set, the token window and block default to 1 second and 5 minutes. |
| Configuration.PaddedBudgetAsymmetry | internal/config/config.go:126-131 | A padded number is accepted as the IP budget, which is trimmed, and rejected as the default token budget, which is not. |
| Middleware.ExtractIP | internal/adapters/http/middleware/rate_limiter_middleware.go:49-69 | With a non-blank `X-Forwarded-For`, the IP is trimmed and holds no comma, and is the trimmed header when the header has a single entry. Otherwise it is the trimmed non-blank `X-Real-IP`. Otherwise it is the host of the trimmed remote address, or that address when it has no port. |
| Middleware.FirstForwardedEntryWins | internal/adapters/http/middleware/rate_limiter_middleware.go:50-56 | For an `X-Forwarded-For` that reads `client,rest` once trimmed, where `client` has no comma, the trimmed `client` is the IP, whatever the other headers say. |
| Middleware.LimiterRequest | internal/adapters/http/middleware/rate_limiter_middleware.go:24-27 | The request given to the limiter holds the extracted IP and the trimmed `API_KEY`. The token is empty exactly when the header is blank, and trimming it again changes nothing. |
| Middleware.Respond | internal/adapters/http/middleware/rate_limiter_middleware.go:28-44 | Passes exactly when there is no error and the request is allowed. Gives 429 exactly for `Blocked` or for a denial without error. Gives 500 exactly for any other error. |
| Middleware.ResponseFollowsError | internal/adapters/http/middleware/rate_limiter_middleware.go:28-44 | Against the service, the response depends on the error alone: pass when allowed, 429 for `Blocked`, 500 for validation and store errors. The branch for a denial without error is never reached. |
| Middleware.LeadingCommaIsServerError | internal/adapters/http/middleware/rate_limiter_middleware.go:50-56 | An `X-Forwarded-For` that starts with a comma once trimmed, without `API_KEY`, gives the empty IP. This is a validation error that touches no store, and the client gets 500. |
| Middleware.Handle | internal/adapters/http/middleware/rate_limiter_middleware.go:16-47 | Without a limiter the request passes (fail-open). Otherwise the response is `Respond` of the outcome `Decide` gives for the extracted IP and the trimmed `API_KEY`, and the store changes as `Decide` says. |

## Left out

- The Redis store adapter, the server entry point, the demo handler, loading `.env` files and the Redis settings are not part of this model. Only the limiter part of the configuration is modelled.
- Request contexts, cancellation and concurrency are left out. Each `Allow` call is atomic and runs at a single instant `now`, given as a parameter in nanoseconds where the test store calls `time.Now()`.
- The store's window argument is not used, as in the test store. Counter expiry is a Redis feature and is not modelled. The Redis store calls `Expire(key, window)` on every increment (internal/adapters/storage/redis/redis_storage.go:52-54), so a counter lives until `window` after the last request rather than the first; nothing in this model states a window anchored at first use.
- Integers are unbounded: there is no 64-bit overflow of `n * time.Second` or `n * time.Minute`, and no `Atoi` range error.
- Strings.ToLower: lower-cases ASCII letters only, because Go's Unicode case mapping is not modelled.
- Configuration.IntSetting: the error message omits the wrapped `strconv` cause that Go appends with `%w`. The same holds for the other configuration error messages.
- The environment is a map from the seven variables the limiter reads to their values, rather than a map from arbitrary names.
- Go's distinction between a nil and an empty `TokenRules` map is not modelled. Both are the empty map.
- Middleware.ExtractIP: `net.SplitHostPort` is a function parameter `hostOf` returning the host or nothing.
- Header name canonicalisation is not modelled; each header is a field of `HttpRequest`.
- Logging of store failures, the `X-Content-Type-Options` header that `http.Error` adds, and the next handler's own response are not modelled. `PassThrough` stands for calling it.
- Service.OverrideLookupIsCaseSensitive: states the case-mismatch behaviour for any pair of tokens equal up to case, when the default token rule is usable. Without a usable default token rule the mismatching token falls through to the IP rule, or to the validation error when the IP is blank.
- Service.KeysInjective: holds only for Dafny strings, which hold valid Unicode scalar values. Go strings are byte strings, and Go's `strings.ToLower` writes U+FFFD for each invalid UTF-8 byte, so in Go the tokens "\xff" and "\xfe" share keys.
- Service.TouchesOnlyOwnKeys: holds because the model keeps counters and block markers in two separate maps, as the test store does. The Redis store keeps both in one keyspace, where the key collision of Service.CounterKeyCanEqualBlockKey becomes interference between identities: a client sending `X-Forwarded-For: 10.0.0.1:block` increments `ratelimit:ip:10.0.0.1:block`, and afterwards IP 10.0.0.1 is reported as blocked. The Redis store is not part of this model.
- The store's `faults` field has no counterpart in the test store, which never fails. It stands for a failing Redis.
