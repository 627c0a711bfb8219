# payment-service dispatch core, modelled in Dafny

This project models the gateway dispatch engine of the payment service (rauf/payment-service, written in Go), together with its request validators and its SQL null helpers, and proves properties of the model.

- **Ordered registry** (`OrderedRegistry`). This is the generic name-to-value registry: a map, plus the sequence of names in registration order. It is a class whose two fields are reassigned by Register, Unregister and SetOrder. Every method is proved against a pure specification function (`Values`, `RemoveFirst`, `OrderVerdict`, `PreferenceList`). The registry's invariant is that the map's keys and the order sequence's names are the same set, with no repeats.
- **Legacy gateway registry** (`GatewayRegistry`). This is the older, non-generic copy. The model pins down its two observable differences: SetOrder has no length check, and an unknown preferred name is an error.
- **Gateways** (`Gateway`, `LegacyGateway`).
  - `Send` is the straight-line pipeline: configuration checks, serialize, transport, nil-payload check, deserialize.
  - `SendWithRetry` is the bounded retry loop. It is proved equal to the recursive specification `RetryFrom`, and lemmas about `RetryFrom` state what the loop guarantees.
  - The older, untyped gateway is proved to coincide with the generic one.
- **Errors** (`ErrorChain`). A Go error is a plain error (`Leaf`) or a wrapping error (`Wrap`, as built by `fmt.Errorf("…: %w", cause)`). `Is` walks the chain the way `errors.Is` does.
- **Circuit-breaker bank** (`CircuitBreaker`). The bank creates one breaker per gateway name, lazily, on top of the ordered registry. A breaker is opaque. Whether it admits a request is an oracle of the breaker and its history. The `done(success)` callback appends the outcome to that history.
- **Router** (`Router`). SendMessage walks the preference-ordered candidates. It skips a candidate whose breaker rejects it. Otherwise it runs the operation once, reports the outcome, and returns the first success, or "all gateways failed" wrapping the last operation error.
- **Validators** (`Validation`, `Handlers`). Each validator is a fixed sequence of conditional `Add` calls on a `validation.Errors` object.
- **Null helpers** (`NullUtil`). `NewNullString` (trim, then blank means NULL) and `NewNullRawMessage` (nil means NULL).

Oracles stand in for everything outside the core:
- The serializer, the transport and the data format are functions.
- The transport answer depends on which send of the call it is.
- The context is a function from the wait number to "timer elapsed" or "context done (deadline or cancel)".
- `NextBackoff` is an uninterpreted function.
- The router's operation is a function of the candidate's position and the gateway.
- A gateway's `Name()` is the function `nameOf`.
- Go's zero value of a type parameter is an explicit `zero` argument: a nil gateway or a nil breaker.

## Model

| member | source | states |
|---|---|---|
| OrderedRegistry.IndexOf | internal/registry/registry.go:111-117 | the index of the first occurrence of the name, or -1 exactly when it is absent |
| OrderedRegistry.RemoveFirstIsWithout | internal/registry/registry.go:44-49 | on a repeat-free order, removing the first occurrence removes every occurrence and keeps the others in their relative order |
| OrderedRegistry.ValuesAllPresent | internal/registry/registry.go:65-78 | when every listed name is registered, List has one value per name, position by position |
| OrderedRegistry.ValuesAreLookups | internal/registry/registry.go:123-130 | for registered names, List's values and Go's map indexing agree |
| OrderedRegistry.ListConsistent | internal/registry/registry.go:65-78 | under the invariant, List returns as many values as there are registered names, in registration order |
| OrderedRegistry.ConsistentSize | internal/registry/registry.go:9-13 | under the invariant, the order sequence is as long as the map is large |
| OrderedRegistry.ConsistentRegister | internal/registry/registry.go:30-32 | Register of a new name keeps the map/order invariant |
| OrderedRegistry.ConsistentUnregister | internal/registry/registry.go:43-49 | Unregister of a registered name keeps the map/order invariant |
| OrderedRegistry.FirstUnknown | internal/registry/registry.go:88-92 | SetOrder's membership loop finds nothing exactly when every listed name is registered; a name it finds is listed and unregistered |
| OrderedRegistry.OrderVerdict | internal/registry/registry.go:84-92 | SetOrder accepts exactly when the length matches and every name is registered |
| OrderedRegistry.PreferenceRegistered | internal/registry/registry.go:111-131 | under the invariant, a registered preference gives its value first, then the values of all other names in order; as many values as names, and the same multiset as List |
| OrderedRegistry.PreferenceFallback | internal/registry/registry.go:107-121 | an empty or unregistered preference gives exactly List() |
| OrderedRegistry.Registry.constructor | internal/registry/registry.go:15-20 | NewRegistry: empty map and order, which satisfy the invariant |
| OrderedRegistry.Registry.Register | internal/registry/registry.go:22-33 | a duplicate fails with "value already registered" and changes nothing; otherwise it maps the name and appends it; keeps the invariant |
| OrderedRegistry.Registry.Unregister | internal/registry/registry.go:35-51 | an absent name fails with "value not found" and changes nothing; otherwise it deletes the name and removes its first occurrence from order; keeps the invariant |
| OrderedRegistry.Registry.Get | internal/registry/registry.go:53-63 | the stored value exactly when the name is registered, otherwise the zero value and "value not found" |
| OrderedRegistry.Registry.List | internal/registry/registry.go:65-78 | the values of the registered names, in order-sequence order |
| OrderedRegistry.Registry.SetOrder | internal/registry/registry.go:80-96 | the verdict is OrderVerdict; the map is untouched; order becomes the argument exactly when accepted |
| OrderedRegistry.Registry.ListWithPreference | internal/registry/registry.go:99-132 | the result is PreferenceList of the current fields |
| OrderedRegistry.PreferredFirst | internal/registry/registry.go:123-131 | the list-building loop yields the preferred value followed by the map-indexed value of every other position, in order |
| OrderedRegistry.SetOrderBreaksInvariant | internal/registry/registry.go:80-96 | the order ["key1","key1","key3"] passes both checks on three registered names and breaks the invariant |
| OrderedRegistry.StaleNameListsZero | internal/registry/registry.go:35-51 | after that, Unregister("key1") leaves a stale "key1", and preferring it lists the zero value first |
| OrderedRegistry.PermutationVerdictSound | internal/registry/registry.go:80-96 | with a duplicate check added, an order is accepted exactly when it is a permutation of the registered names |
| OrderedRegistry.Registry.SetOrderChecked | internal/registry/registry.go:80-96 | corrected SetOrder: verdict is PermutationVerdict and the invariant holds afterwards |
| OrderedRegistry.PreferMiddleExample | internal/registry/registry_test.go:168 | preferring key2 of three gives value2, value1, value3 |
| OrderedRegistry.PreferUnknownExample | internal/registry/registry_test.go:170 | preferring the unknown key4 gives value1, value2, value3 |
| GatewayRegistry.LegacyOrderVerdict | internal/gateway/registry.go:78-90 | the legacy SetOrder accepts exactly when every listed name is registered; no length check |
| GatewayRegistry.LegacyPreferenceList | internal/gateway/registry.go:93-126 | a successful result for a non-empty preference has one value per name of the order |
| GatewayRegistry.PreferenceVersionsDiffer | internal/gateway/registry.go:113-115 | the legacy ListWithPreference fails exactly for an empty order or an unknown non-empty preference ("preferred gateway not found"), where the generic one falls back to List; elsewhere both agree |
| GatewayRegistry.ShorterOrderAccepted | internal/gateway/registry.go:78-90 | an order that leaves a registered name out is accepted (the generic version refuses it); List then omits that gateway, and preferring it fails |
| GatewayRegistry.Registry.constructor | internal/gateway/registry.go:14-19 | NewGatewayRegistry: empty map and order |
| GatewayRegistry.Registry.Register | internal/gateway/registry.go:21-32 | a duplicate fails with "gateway already registered" and nothing changes; otherwise insert and append; keeps the invariant |
| GatewayRegistry.Registry.Unregister | internal/gateway/registry.go:34-50 | an absent name fails with "gateway not found"; otherwise it is removed from map and order, others keep their order; keeps the invariant |
| GatewayRegistry.Registry.Get | internal/gateway/registry.go:52-61 | the gateway exactly when registered, otherwise nil and "gateway not found" |
| GatewayRegistry.Registry.List | internal/gateway/registry.go:63-76 | the gateways of the registered names, in order |
| GatewayRegistry.Registry.SetOrder | internal/gateway/registry.go:78-90 | the verdict is LegacyOrderVerdict; order becomes the argument exactly when accepted |
| GatewayRegistry.Registry.ListWithPreference | internal/gateway/registry.go:93-126 | the result is LegacyPreferenceList of the current fields |
| ErrorChain.WrapNil | internal/router/router.go:66 | wrapping a nil error gives a plain error whose text ends in "%!w(<nil>)", and errors.Is finds nothing on it but itself |
| ErrorChain.IsTransitive | internal/gateway/base_gateway.go:49-51 | errors.Is sees every error of the cause's chain through a wrap |
| ErrorChain.WrapTextPrefix | internal/router/router.go:66 | a wrapping error's text is its message, ": ", then the cause's text |
| Gateway.Send | internal/gateway/base_gateway.go:67-95 | the stages a send runs are a prefix of serialize, transport, deserialize; a success ran all three |
| Gateway.SendChecksInOrder | internal/gateway/base_gateway.go:69-79 | a nil serde fails first, then a nil handler, both before any stage; the transport runs exactly when serialization succeeded; a serialize failure is "error marshaling data" |
| Gateway.SendSucceedsIff | internal/gateway/base_gateway.go:67-95 | a send succeeds exactly when every stage succeeds and the payload is non-nil; its value is the decoded response |
| Gateway.SendKeepsTransportCause | internal/gateway/base_gateway.go:81-92 | a transport failure is "error sending data" wrapping its cause, still visible to errors.Is; a nil payload is "received nil response"; a decode failure is "error unmarshaling response" |
| Gateway.Name | internal/gateway/base_gateway.go:97-102 | "unnamed gateway" for an empty configured name, otherwise the configured name; never empty |
| Gateway.CtxErr | internal/gateway/base_gateway.go:58-60 | ctx.Err() of a done context is a deadline or a cancellation |
| Gateway.SendWithRetry | internal/gateway/base_gateway.go:38-65 | the result, the number of sends and the waits begun equal RetryFrom's |
| Gateway.RetryShape | internal/gateway/base_gateway.go:42-62 | between 1 and MaxRetries + 1 sends; wait k lasts NextBackoff(k); waits happen only between sends, except one cut short by the context |
| Gateway.RetryUnroll | internal/gateway/base_gateway.go:42-62 | after j retried sends, the run is those sends and backoffs followed by the run from attempt j |
| Gateway.LastIrrelevant | internal/gateway/base_gateway.go:42-56 | within the budget, the previous send's error does not affect the rest of the run |
| Gateway.FirstSuccessReturned | internal/gateway/base_gateway.go:42-47 | a success at send j, after j retried failures, is returned at once after exactly j + 1 sends |
| Gateway.SuccessIsFirstSuccess | internal/gateway/base_gateway.go:42-47 | a successful call returns its last send's value, and every earlier send failed without aborting and its wait elapsed |
| Gateway.ExhaustionAfterMaxRetries | internal/gateway/base_gateway.go:49-56 | a gateway that always fails without aborting is sent to MaxRetries + 1 times, ending in "max retries reached, last error" wrapping the last error |
| Gateway.CancellationAborts | internal/gateway/base_gateway.go:51-53 | a send error carrying a deadline or cancellation (and not ErrGatewayUnavailable) ends the call at once with "operation cancelled or timed out" |
| Gateway.ContextDoneDuringWait | internal/gateway/base_gateway.go:58-61 | a context done during wait j ends the call with "context cancelled" wrapping ctx.Err(), with no further send |
| Gateway.NegativeMaxRetries | internal/gateway/base_gateway.go:64 | with MaxRetries < 0 there is no send and no wait, and the error is "all retries failed" over nil |
| Gateway.UnavailableIsRetried | internal/gateway/base_gateway.go:49-53 | an error whose chain holds ErrGatewayUnavailable never aborts the loop, even when it also holds a cancellation |
| Gateway.AlwaysUnavailableExample | internal/gateway/base_gateway_test.go:220-239 | a transport that always answers ErrGatewayUnavailable gets MaxRetries + 1 sends and "max retries reached" |
| LegacyGateway.AsGeneric | internal/gateway/gateway.go:27-41 | the legacy gateway seen as a generic one keeps its name, handler and retry configuration, and has a serde exactly when it has a data format |
| LegacyGateway.Send | internal/gateway/gateway.go:70-96 | the stages a send runs are a prefix of the pipeline; a success ran all of it |
| LegacyGateway.SendAgrees | internal/gateway/gateway.go:70-96 | the legacy Send yields the same outcome and stages as the generic send |
| LegacyGateway.Name | internal/gateway/gateway.go:98-103 | "unnamed gateway" for an empty name, otherwise the name; the same as the generic Name |
| LegacyGateway.SendWithRetry | internal/gateway/gateway.go:43-68 | the legacy loop returns exactly what the generic RetryFrom does for the same gateway, data and context |
| LegacyGateway.LegacyRetryBounds | internal/gateway/gateway.go:45-59 | at most MaxRetries + 1 sends (none when negative); a success returns the last send's value |
| CircuitBreaker.NewBreaker | internal/router/circuit_breaker.go:51-53 | the breaker is built from the bank's settings with only Name replaced |
| CircuitBreaker.Ensure | internal/router/circuit_breaker.go:46-58 | a known name leaves the bank unchanged; a new name registers exactly one breaker under it and appends the name |
| CircuitBreaker.AllowSpec | internal/router/circuit_breaker.go:26-36 | isRequestAllowed leaves the registry as Ensure does, answers what the name's breaker decides on its history, and records that answer |
| CircuitBreaker.ReportSpec | internal/router/router.go:54-61 | done(success) changes no breaker and appends the outcome to that name's history |
| CircuitBreaker.OtherHistoriesUnchanged | internal/router/circuit_breaker.go:26-36 | Allow and done touch only the history of their own name |
| CircuitBreaker.EnsureKeepsWellFormed | internal/router/circuit_breaker.go:46-58 | ensuring keeps the bank's invariant, adds exactly one breaker for a new name and none for a known one, and leaves the other names as they were |
| CircuitBreaker.EnsureIdempotent | internal/router/circuit_breaker.go:38-49 | ensuring twice is ensuring once, and an existing breaker is never replaced |
| CircuitBreaker.StepsKeepWellFormed | internal/router/circuit_breaker.go:26-36 | Allow and done keep the bank's invariant |
| CircuitBreaker.BalancedSteps | internal/router/router.go:44-61 | a rejection, or an admission answered by one report, keeps every history balanced |
| CircuitBreaker.CircuitBreakers.constructor | internal/router/circuit_breaker.go:19-24 | newCircuitBreakers: an empty registry with nil as zero value, and the settings unchanged |
| CircuitBreaker.CircuitBreakers.EnsureCircuitBreaker | internal/router/circuit_breaker.go:46-58 | never fails (Register runs only after Get found the name absent), and the new state is Ensure of the old |
| CircuitBreaker.CircuitBreakers.GetCircuitBreaker | internal/router/circuit_breaker.go:38-44 | succeeds for every name and returns the breaker built for that name, creating it if absent |
| CircuitBreaker.CircuitBreakers.IsRequestAllowed | internal/router/circuit_breaker.go:26-36 | the answer and the new state are those of Allow |
| CircuitBreaker.CircuitBreakers.Done | internal/router/router.go:54-61 | the new state is Report of the old |
| Router.Router.constructor | internal/router/router.go:22-30 | NewRouter: the given registry and a fresh, empty breaker bank with the given settings |
| Router.Router.SendMessage | internal/router/router.go:37-67 | the result, the positions at which the operation ran, and the bank's new state are those of Route over the registry's fields on entry |
| Router.Router.TryInOrder | internal/router/router.go:43-66 | the loop over the candidates yields RouteFrom from position 0 with no error yet |
| Router.Router.TryOne | internal/router/router.go:44-61 | a rejection leaves the operation unrun and no report; an admission runs the operation once and reports whether it succeeded |
| Router.DeniedSkipped | internal/router/router.go:44-47 | a candidate its breaker rejects is never invoked and gets no report; the run continues from the next candidate, and that breaker's history gains only the rejection |
| Router.RouteInOrder | internal/router/router.go:43-52 | candidates are invoked in strictly increasing list positions, each at most once, all within the list |
| Router.RouteSuccess | internal/router/router.go:53-59 | a success is Response{Name(), result} of the last invoked candidate, and every earlier invocation failed |
| Router.RouteFailure | internal/router/router.go:61-66 | a failure means every invocation failed, and the error is "all gateways failed" wrapping the last operation error; rejections never overwrite it |
| Router.RouteReportsOnce | internal/router/router.go:44-61 | every admission is followed by exactly one report, so balanced breaker histories stay balanced |
| Router.RouteKeepsBank | internal/router/router.go:43-65 | the bank's invariant survives a SendMessage |
| Router.AllRejected | internal/router/router.go:44-47 | when every breaker rejects, no operation runs and the error wraps the initial nil error |
| Router.EmptyRegistryFails | internal/router/router.go:38-41 | an empty order, whatever the map holds, makes ListWithPreference fail; SendMessage then returns "failed to get preferred gateways list" wrapping "no registry registered", runs nothing and leaves the bank untouched |
| Router.FallbackExample | internal/router/router_test.go:58-74 | preferred gateway1 fails with ErrGatewayUnavailable, and gateway2 serves the request; gateway1's breaker sees an admission and done(false), gateway2's an admission and done(true) |
| Router.AllFailExample | internal/router/router_test.go:76-88 | both gateways fail, and the message is "all gateways failed: gateway unavailable" |
| Router.UnknownPreferredExample | internal/router/router_test.go:145-151 | an unknown preferred name routes to the first registered gateway |
| Router.PreferFirstRegistered | internal/registry/registry.go:123-131 | preferring the first of two names keeps the registration order |
| Validation.Errors.constructor | internal/validation/validation.go:7-9 | the zero value holds no errors and is valid |
| Validation.Errors.IsValid | internal/validation/validation.go:11-13 | valid exactly when the list is empty |
| Validation.Errors.Add | internal/validation/validation.go:15-17 | appends exactly FieldError{field, message}, keeps the earlier entries, and leaves the value invalid |
| Validation.Errors.Error | internal/validation/validation.go:19-21 | always "validation failed" |
| Validation.ErrorIgnoresContents | internal/validation/validation.go:19-21 | any two Errors values report the same non-empty text |
| Handlers.Utf8Len | cmd/api/handlers/models.go:65 | len of a Go string is its UTF-8 byte length, between one and four bytes per character |
| Handlers.AsciiUtf8Len | cmd/api/handlers/models.go:65 | for ASCII text the byte length is the character count |
| Handlers.LowerRune | cmd/api/handlers/models.go:76 | lowering yields an ASCII letter exactly from ASCII, U+0130 or U+212A, and keeps lower-case letters |
| Handlers.Lower | cmd/api/handlers/models.go:76 | strings.ToLower lowers rune by rune and keeps the length |
| Handlers.LowerForgetsCase | cmd/api/handlers/models.go:76 | a word and its upper-case form lower alike |
| Handlers.TransactionApiRequest.Validate | cmd/api/handlers/models.go:60-80 | the errors recorded are TransactionErrors of the request, in a fresh Errors |
| Handlers.UpdateStatusApiRequest.Validate | cmd/api/handlers/models.go:82-96 | the errors recorded are UpdateStatusErrors of the request |
| Handlers.GatewayACallbackRequest.Validate | cmd/api/handlers/models.go:98-109 | the errors recorded are CallbackErrors of ref_id and status |
| Handlers.GatewayBCallbackRequest.Validate | cmd/api/handlers/models.go:111-122 | the errors recorded are CallbackErrors of ref_id and status |
| Handlers.TransactionErrorsInOrder | cmd/api/handlers/models.go:60-80 | errors come in the order amount, currency, payment_method, customer_id, type, each field at most once |
| Handlers.UpdateStatusErrorsInOrder | cmd/api/handlers/models.go:82-96 | errors come in the order ref_id, gateway, status, each at most once |
| Handlers.CallbackErrorsInOrder | cmd/api/handlers/models.go:98-122 | errors come in the order ref_id, status, each at most once |
| Handlers.TransactionMessages | cmd/api/handlers/models.go:62-78 | an error is recorded exactly when its check fails: amount ≤ 0, currency not 3 bytes, empty payment method, customer ID or type, or a lowered type outside {deposit, withdrawal} |
| Handlers.UpdateStatusMessages | cmd/api/handlers/models.go:84-95 | an error is recorded exactly for an empty ref_id, gateway or status, or a lowered status outside {pending, success, failed} |
| Handlers.CallbackMessages | cmd/api/handlers/models.go:100-121 | both callbacks record exactly the ref_id and status errors of the update rule |
| Handlers.TransactionValidIff | cmd/api/handlers/models.go:60-80 | a transaction request is valid exactly when all five checks pass |
| Handlers.UpdateStatusValidIff | cmd/api/handlers/models.go:82-96 | an update request is valid exactly when ref_id and gateway are set and the status is allowed |
| Handlers.CallbackValidIff | cmd/api/handlers/models.go:98-122 | a callback is valid exactly when ref_id is set and the status is allowed |
| Handlers.MembershipIgnoresCase | cmd/api/handlers/models.go:76 | membership in the allowed sets ignores ASCII case |
| Handlers.InvalidTransactionExample | cmd/api/handlers/transaction_test.go:63-71 | only amount -100 set: five errors, in field order |
| Handlers.ValidTransactionExample | cmd/api/handlers/transaction_test.go:43-51 | the deposit of 100 USD by card is valid |
| Handlers.InvalidUpdateStatusExample | cmd/api/handlers/transaction_test.go:135-145 | empty ref_id and gateway and status "invalid" give the three errors the test expects |
| Handlers.CaseExamples | cmd/api/handlers/models.go:12-21 | "DEPOSIT", "Pending" and "FAİLED" pass the membership tests |
| Handlers.CurrencyCountsBytes | cmd/api/handlers/models.go:65 | the currency check counts bytes: a euro sign is 3 bytes |
| NullUtil.TrimLeft | internal/utils/nullutil/null.go:12 | drops exactly a run of leading spaces |
| NullUtil.TrimRight | internal/utils/nullutil/null.go:12 | drops exactly a run of trailing spaces |
| NullUtil.TrimSpaceSpec | internal/utils/nullutil/null.go:12 | strings.TrimSpace keeps a slice of the input with only spaces around it, and neither of its ends is a space |
| NullUtil.TrimSpaceTrimmed | internal/utils/nullutil/null.go:12 | a string without spaces at its ends is unchanged by trimming |
| NullUtil.TrimSpaceIdempotent | internal/utils/nullutil/null.go:12 | trimming twice is trimming once |
| NullUtil.BlankIffAllSpace | internal/utils/nullutil/null.go:12-15 | a string trims to "" exactly when all its characters are spaces |
| NullUtil.NewNullString | internal/utils/nullutil/null.go:11-17 | NULL with an empty string exactly for a blank input; otherwise valid with the trimmed, non-empty string and no spaces at its ends |
| NullUtil.NewNullStringIdempotent | internal/utils/nullutil/null.go:11-17 | feeding the stored string back gives the same result |
| NullUtil.SpacesAroundIgnored | internal/utils/nullutil/null.go:11-17 | spaces around a value do not change what is stored |
| NullUtil.NewNullRawMessage | internal/utils/nullutil/null.go:19-24 | NULL exactly for a nil message; any other message, even empty, is kept unchanged |
| NullUtil.EmptyMessageIsValid | internal/utils/nullutil/null.go:19-24 | an empty, non-nil document is stored as valid, and nil as NULL |
| NullUtil.PaddedExample | internal/utils/nullutil/null.go:11-17 | "  card \n" is stored as "card" |
| NullUtil.BlankExample | internal/utils/nullutil/null.go:11-17 | a string of a space, a tab and an ideographic space is NULL, and so is "" |

## Left out

- Concurrency is not modelled: the `sync.RWMutex` locking of both registries, the check-then-register race in ensureCircuitBreaker, and the race between the backoff timer and `ctx.Done()`. Every operation runs sequentially. The select's outcome is the oracle `ctx`.
- The gobreaker state machine (closed, open, half-open, counts, timeouts) is a foreign library. A breaker is the settings it was built from, and its Allow is the oracle `decide` over its history. The ReadyToTrip, OnStateChange and IsSuccessful callbacks of the settings are left out.
- Backoff strategies (internal/backoff) use floating point and time.Duration. `NextBackoff` is an uninterpreted function, and waits are recorded by duration, not slept.
- Transports, serializers and data formats (internal/protocol, internal/serde, internal/format) are oracles. The context passed to the transport is folded into the transport oracle's answer.
- Logging (`slog`) is not modelled.
- The HTTP layer, persistence and service orchestration are not part of this model.
- ErrorChain.Is: compares errors by value. Go compares the sentinel ErrGatewayUnavailable by pointer identity, so a different error with the same text would not match in Go.
- Router.Router.TryOne: on a rejection, its `result` out-parameter is a placeholder that the loop ignores. The source has no result at that point.
- Router: the `errors.Is(err, ErrGatewayUnavailable) { continue }` branch after done(false) is not written out. It continues exactly as falling through does, and `err` already holds the operation error.
- OrderedRegistry.Registry.SetOrder: the order is a value. Go keeps the caller's slice (registry.go:94), so a later Register `append` (registry.go:31) or Unregister splice (registry.go:46) can write through to the caller's array. That sharing is not modelled.
- GatewayRegistry.Registry.SetOrder: the same. The caller's slice is kept (gateway/registry.go:88), and the in-place Unregister splice (gateway/registry.go:45) can change it. That sharing is not modelled.
- Router.RouteFrom: Go calls `g.Name()` on every candidate (router.go:44). A nil gateway panics there: one registered as nil, or the zero value that ListWithPreference returns for a stale name (see OrderedRegistry.StaleNameListsZero). The model has no panic outcome: it applies `nameOf` and the operation to that value and returns a normal result.
- Gateway.RetryConfig: Go calls `Backoff.NextBackoff(attempt)` as it enters the select (base_gateway.go:61), even when the context is already done. A nil backoff strategy, as in a zero `backoff.RetryConfig{}` with MaxRetries > 0, panics at the first failed send that does not abort. The model's `nextBackoff` is a total function, so that panic is not represented.
- Router.Router.SendMessage: the registry is read, not locked.
- Handlers.LowerRune: lowers ASCII capitals, U+0130 and U+212A, and keeps every other rune. Go lowers many more runes, but none of them to ASCII, so no membership test in the allowed sets can tell the difference.
- Handlers.TransactionApiRequest.Validate: the amount is a real number. The float64 NaN, which passes Go's `Amount <= 0` check, is not represented.
- Handlers.Utf8Len: strings are sequences of Unicode scalar values. Invalid UTF-8 byte strings, which Go strings may hold, are not represented.
- Handlers: the Description, PreferredGateway and Metadata fields of transactionApiRequest, and the CreatedAt fields of the callbacks, are carried or dropped but never validated in the source either. The response struct transactionApiResponse is not modelled.
- NullUtil.IsSpace: follows unicode.IsSpace (Latin-1 spaces and the White_Space runes). That is the set strings.TrimSpace uses.

## Findings

| source | as written | input that shows it | evidently intended | confidence | as-written member | corrected member |
|---|---|---|---|---|---|---|
| internal/registry/registry.go:84-94 | SetOrder checks only the length and that each name is registered, so an order with a repeated name replaces the order sequence | three registered names key1, key2, key3, then SetOrder(["key1","key1","key3"]) is accepted; key2 vanishes from List, and after Unregister("key1") the stale "key1" makes ListWithPreference("key1") return the zero value first | the new order is a permutation of the registered names, keeping the map/order invariant | medium; not executed | OrderedRegistry.SetOrderBreaksInvariant | OrderedRegistry.PermutationVerdictSound |
