# VOT Tradings: verified model of the gateway

This project models the parts of the VOT Tradings gateway that hold real state
and real arithmetic, and proves what they keep. Check it with
`dafny verify dfyconfig.toml` (Dafny 4.11).

| module | what it models |
|---|---|
| `TokenRotation` | the Questrade refresh-token protocol: one server, one stored row, any number of unsynchronised clients, interleaved step by step |
| `Questrade` | one Questrade client as a class, its calls as runs of that protocol, and the timing of its access-token cache |
| `Calendar`, `PdtGate` | business-day arithmetic, the Pattern Day Trader gate, and the 14-day prefetch it reads |
| `Gateway`, `GateTrace` | order, credential and token handlers of all users interleaved over shared tables; the steps behind each call to Alpaca |
| `TokenLineage`, `TokenSafety`, `TokenUse`, `Reconnecting` | the Questrade calls in the gateway as runs of the token protocol; what its guarantees come to there; how many tokens a call uses; reconnecting over a stale row |
| `Isolation`, `CredentialTrace` | independence of users; where credential rows come from |
| `OrderServer`, `OrderOutcomes`, `LoneRequests` | the order handler as a class; what an order or an import comes to from start to finish |
| `Balance` | the concurrent balance fan-out and the roll-up into US dollars |
| `PriceStream` | the price stream's producer, consumer, unbuffered channel and cancellation |
| `Credentials` | the credential table and the import of the gateway's own credentials |
| `Wrappers`, `Models`, `Seqs` | shared data types and filtering of sequences |

Assumptions. Broker replies, clock readings, store failures and the schedule are
arbitrary inputs. A store operation that reports failure has not taken effect
(a save that takes effect but reports failure is `SaveOk`, since the client
only logs the difference), and no save takes effect after its call has
returned. Refresh tokens of one user form one lineage, numbered by generation,
and the server accepts only the newest, which is what section 6 of RFC 6749 and
the comment at internal/brokerage/questrade/client.go:4-6 describe. A new
access token is never empty where spacing of exchanges is claimed. In the
gateway every use of a Questrade client (an account, a quote, Questrade's share
of a balance) is one request of its own, since the factory builds a new client
each time; `TokenLineage.Lineage` numbers its token strings. A restart of the
gateway is the death of every request under way: requests die at any step and
take their clients with them. Time is UTC.
`trade_date` is a DATE, so the prefetch compares dates. Row ids of orders are
fresh. The Go version in go.mod gives each loop iteration its own variable, so
each status points to its own account.

Where the code and what is said about it differ, the model follows the code:

- The gateway repository's README (line 43) says a user locked out of Questrade can reconnect with a fresh
  token. `ReconnectWorksIff` shows that this works exactly when the stored row
  is empty or already holds that token; otherwise the stored token shadows it
  in every run in which the row can be read. `ReconnectIsShadowed` shows the
  same for the handlers: after the fresh token is saved, no Questrade request of
  that user is ever answered. The comment at
  internal/brokerage/questrade/client.go:92-94 describes the code.
- internal/db/oauth_tokens.go:11-15 says that the stored row keeps a restart
  from stranding the integration. `RestartLocksOut` shows a restart that strands
  it, between the exchange and the save, and `LockedOutIff` exactly which do.
- internal/engine/pdt.go:34-35 speaks of a trailing 5-business-day window.
  `CountMeetsRuleIff` and `WindowHoldsItsDatesIff` show when the window holds
  five business dates: on a weekday after midnight, or at a weekend midnight.
  It holds six at a weekday midnight and four on the rest of a weekend.

## Model

| member | source | states |
|---|---|---|
| TokenRotation.AtMostOneUnsaved | internal/brokerage/questrade/client.go:95-148 | in every reachable state, after any failures and losses, at most one client is between a successful exchange and its save, and nothing and nobody else knows the server's current token |
| TokenRotation.SavesInIssueOrder | internal/brokerage/questrade/client.go:136-145 | the tokens saved over any run strictly rise in generation, all exceed what the row held, and the last one is what the row holds at the end |
| TokenRotation.StoredNeverGoesDown | internal/db/oauth_tokens.go:50-59 | between any two points of any run the stored generation does not fall |
| TokenRotation.StrandedIff | internal/brokerage/questrade/client.go:120-145 | the current token is known to nobody at the end of a run if and only if it was so at the start, or a reply was lost, or an abandoned request was served, or the sole holder was discarded before its token was stored |
| TokenRotation.KnownIffSomeRunExchanges | internal/brokerage/questrade/client.go:103-128 | some continuation achieves an exchange if and only if somebody or something still has the current token |
| TokenRotation.NothingLostNothingMissing | internal/brokerage/questrade/client.go:103-145 | without those losses the current token is in the row (in the configuration while the row is empty) or with exactly one live client |
| TokenRotation.RowAgreesWhenQuiet | internal/brokerage/questrade/client.go:141-145 | if moreover all saves succeed, row and server agree whenever no client is inside ensureAuth |
| TokenRotation.NextLoneClientSucceeds | internal/brokerage/questrade/client.go:103-147 | from such a state the next client that runs alone and can read the row exchanges its token and stores the successor |
| TokenRotation.ReconnectWorksIff | internal/brokerage/questrade/client.go:89-112 | whatever the user's old clients are doing, a freshly configured token is ever exchanged, while loads succeed, if and only if the row is empty or holds that token |
| TokenRotation.ReconnectAtAnyTime | internal/brokerage/questrade/client.go:89-112 | configuring a fresh token in any reachable state leads to such a situation: no old client and no travelling request has it |
| Reconnecting.ReconnectIsShadowed | internal/httpapi/credential_handlers.go:56-78 | through the handlers: over a stale row, saving a fresh token is answered, and then in every run with successful loads no Questrade request of the user is, and the row never changes |
| Questrade.AuthStepsRun | internal/brokerage/questrade/client.go:103-147 | a lone call that misses the cache is a possible run of the rotation protocol and ends in the state NetAfter describes |
| Questrade.Client.EnsureAuth | internal/brokerage/questrade/client.go:95-148 | the method leaves server, row, token fields and cache as its specification says, for every outcome of load, exchange, reply and save, and touches no other row; an answered grant leaves the reply's access token, its API server without trailing slashes and its expiry, anything else leaves these three alone; the cache is what the calls of this client so far make of it |
| Questrade.TrimRightSlash | internal/brokerage/questrade/client.go:137 | what is kept is the start of the address, ends in no slash, and only slashes are cut off |
| Questrade.Client.GetAccount | internal/brokerage/questrade/client.go:192-222 | one or two authorized requests depending on the cached account id, with their effect on the token state; an account is returned exactly if all of them succeed with a non-empty answer, each of its fields from its own field of the first balance; the account id, once found, is kept even if the balances then fail |
| Questrade.Client.GetQuote | internal/brokerage/questrade/client.go:250-271 | two authorized requests with their effect on the token state; a quote, the first entry, is returned exactly if both succeed with a non-empty answer |
| Questrade.OAuthTokenStore.LoadRefreshToken | internal/db/oauth_tokens.go:38-48 | a missing row is no error and no token |
| Questrade.OAuthTokenStore.SaveRefreshToken | internal/db/oauth_tokens.go:51-59 | upserts exactly the row of this user and broker |
| Questrade.Client.constructor | internal/brokerage/questrade/client.go:55-65 | a new client has the configured token, no calls behind it and an empty cache |
| Questrade.CachedTokenOutlivesRequest | internal/brokerage/questrade/client.go:99-139 | over all calls of one client, with the others doing as they please in between: on the cached path more than 20 seconds of the token's life remain, and more than 10 after a request capped at the HTTP timeout |
| Questrade.ExchangesAreSpaced | internal/brokerage/questrade/client.go:99-139 | over all calls of one client, after a successful exchange no later call goes to the token endpoint before the lifetime less 30 seconds has passed since the reply |
| Questrade.TokensPerVisit | internal/brokerage/questrade/client.go:150-222 | while the user's other clients do as they please in between, the second request of a new client uses no token if it comes before renewal is due, and later is granted one exactly if it reaches the endpoint and nobody has rotated since |
| TokenLineage.EveryRunRotates | internal/brokerage/questrade/client.go:95-148 | every run of the gateway, all users' requests interleaved in any way, is for each user with one token lineage a run of the rotation protocol |
| TokenLineage.GatewayRuns | internal/userbrokers/factory.go:82-86 | the lineage only constrains what the token endpoint answers: the gateway's part of such a run is an ordinary gateway run |
| TokenSafety.OneUnsavedPerUser | internal/brokerage/questrade/client.go:95-148 | across all users' interleavings at most one of a user's requests holds an issued token that is not saved; it is the accepted one, and neither the row nor the credentials have it |
| TokenSafety.StoredGenerationNeverFalls | internal/db/oauth_tokens.go:50-59 | between any two points of any gateway run the generation in the user's token row does not fall |
| TokenSafety.LockedOutIff | internal/brokerage/questrade/client.go:120-145 | a user ends up locked out if and only if it was so at the start, or an abandoned exchange was served, or a request ended, or died with the gateway, while its client had the only copy of the accepted token |
| TokenSafety.RestartLocksOut | internal/db/oauth_tokens.go:11-15 | a request that dies between the exchange and the save locks its user out, whatever happens later |
| TokenSafety.HomeOrInOneHand | internal/brokerage/questrade/client.go:103-145 | without such a loss the accepted token is always where the next client looks for it, or exactly one of the user's requests has it |
| TokenSafety.HomeWhenQuiet | internal/brokerage/questrade/client.go:141-145 | if moreover no token save fails, it is there whenever none of the user's requests is inside ensureAuth |
| TokenSafety.LoneCallRotates | internal/brokerage/questrade/client.go:103-147 | while the accepted token is where the next client looks for it, the next call of a connected user, if nothing goes wrong with it, is answered and stores the successor |
| TokenUse.TokensPerRequest | internal/brokerage/questrade/client.go:99-222 | however requests and restarts interleave, an account or quote request whose first exchange is answered uses exactly one refresh token if its second API request comes within the access token's lifetime less 30 seconds of the reply, or not at all; if it comes later, and only then, it goes back to the token endpoint and uses at most one more |
| Calendar.BusinessDaysBack | internal/engine/pdt.go:22-32 | the walk terminates at the closed form, for every start and every number of days |
| Calendar.StartDayIsLatest | internal/engine/pdt.go:17-32 | the walk ends on a weekday, the latest day with exactly n weekdays from it up to the start |
| Calendar.WalksCompose | internal/engine/pdt.go:22-32 | walking back m and then n business days is walking back m + n |
| Calendar.StartDayMonotone | internal/engine/pdt.go:22-32 | the walk is monotone on days and constant exactly across weekend days |
| Calendar.WindowStartMonotoneIff | internal/engine/pdt.go:22-32 | on instants it is monotone for a pair exactly unless only weekend days separate them and the later has the earlier time of day |
| Calendar.WindowStartNotMonotone | internal/engine/pdt.go:22-32 | the exception occurs: a Saturday evening maps to a later start than the Sunday morning after it |
| Calendar.FiveBusinessDaysReach | internal/engine/pdt.go:37 | five business days reach back 7 calendar days from a weekday, 5 from a Saturday, 6 from a Sunday |
| Calendar.WindowSize | internal/engine/pdt.go:36-46 | the exact number of business dates in the window for every instant and window length, with no weekday of the window left out of the count |
| Calendar.WindowHoldsItsDatesIff | internal/engine/pdt.go:34-46 | the window holds the n business dates it is named after if and only if it is a weekday after midnight or a weekend midnight |
| PdtGate.CountDayTradesInWindow | internal/engine/pdt.go:36-49 | the loop counts exactly the matching rows in the window |
| PdtGate.CheckPDT | internal/engine/pdt.go:63-78 | restricted exactly with equity under 25,000 and three or more counted trades; the reported count is the count (0 above the threshold), and the reason is given exactly when restricted |
| PdtGate.DayTradeStore.ListRecent | internal/db/day_trades.go:24-44 | each row of that user and broker from the last 14 calendar dates, as often as it is in the table, and no other |
| PdtGate.GateSeesTheWholeTable | internal/db/day_trades.go:21-29 | the gate answers on the fetched rows, in any order, as on the whole table, for every prefetch not later than the check |
| PdtGate.LookbackSufficesIff | internal/db/day_trades.go:21-29 | a prefetch of k calendar days is enough for every table, account and clock reading if and only if k is at least 7 |
| PdtGate.CountMeetsRuleIff | internal/engine/pdt.go:34-49 | the count is that of the five business dates ending with today, for every set of trades, exactly on a weekday after midnight or a weekend midnight |
| PdtGate.GateRule | internal/engine/pdt.go:59-78 | whenever the count meets the rule (a weekday after midnight, a weekend midnight) the gate refuses exactly accounts under 25,000 whose user made three or more day trades there on the last five business dates, and reports that number |
| PdtGate.CountNeverRisesIff | internal/engine/pdt.go:36-49 | without new trades the count does not rise as time passes, except exactly from past midnight to a later midnight across weekend days |
| PdtGate.ClearFromSeventhDay | internal/engine/pdt.go:36-78 | from the seventh calendar day after the latest trade (the eighth at midnight) no account is restricted |
| PdtGate.ClearIff | internal/engine/pdt.go:36-78 | exactly when every account without newer trades is clear, for every clock reading: seven days after the latest trade on a weekday, five on a Saturday, six on a Sunday, one more at midnight |
| Gateway.AtMostOneCall | internal/httpapi/order_handlers.go:64-121 | in every run of interleaved requests each calls PlaceOrder at most once; refused requests never reach the broker and failed calls are never persisted |
| Gateway.NoOrderUnaccounted | internal/httpapi/order_handlers.go:100-121 | in every state of every run each order a broker returned is replied, and persisted or lost, exactly once, unless its request, alive or cut off by a restart, stands between the call and the reply (the persist) |
| Gateway.RepliesMatchOrders | internal/httpapi/order_handlers.go:100-121 | once no request stands there, the 201 replies are exactly the orders the brokers returned, each with its requester's id, and these are exactly the persisted rows plus the failed persists |
| Gateway.RowsBelongToRequesters | internal/httpapi/order_handlers.go:112-114 | every row carries its requester's id and is what the broker returned for that request's own validated form |
| GateTrace.GateBeforeAlpaca | internal/httpapi/order_handlers.go:75-107 | in every run each Alpaca call was preceded in its own request by an account fetch, a day-trade fetch and an unrestricted check of just those facts, in that order; unless the clock stepped back the check was right about the whole day_trades table |
| Gateway.OthersNotGated | internal/httpapi/order_handlers.go:75-79 | calls to other brokers are made without the check |
| OrderServer.Server.HandleCreateOrder | internal/httpapi/order_handlers.go:28-122 | the handler, start to finish, takes exactly the gateway's steps and gives the reply they end in |
| OrderOutcomes.CreatedIff | internal/httpapi/order_handlers.go:32-121 | the broker is called exactly for a well-formed order of a connected user that passes the gate if it is for Alpaca, and the call has the broker, symbol, side, kind, quantity and limit price of the form; the reply is 201 exactly if the broker then returns the order, and reply and ledger have that order with only the user id changed |
| OrderOutcomes.ValidIffWellFormed | internal/httpapi/order_handlers.go:32-62 | validation accepts exactly the well-formed forms, and what it accepts says in each field what the form says |
| OrderOutcomes.CallsSayWhatFormsSay | internal/httpapi/order_handlers.go:100-106 | in every interleaved run each call to a broker has the broker, symbol, side, kind, quantity and limit price of its own request's form |
| OrderOutcomes.RepliesMean | internal/httpapi/order_handlers.go:32-111 | each error reply (400, 404, 502 for the account, 500, 403, 502 for the order) is given exactly for its own reason |
| OrderOutcomes.RefusedByTheRule | internal/httpapi/order_handlers.go:75-98 | on a weekday after midnight or a weekend midnight an acceptable Alpaca order is answered 403 exactly if equity is under 25,000 and the user made three or more day trades there on the last five business dates |
| Isolation.OthersDoNotMatter | internal/httpapi/order_handlers.go:112-137 | for every interleaved trace, removing all other users' requests leaves a user's credentials, tokens, order history, connected brokers and replies the same |
| Isolation.HistoryIsOwn | internal/db/orders.go:34-56 | in every run a user's order history is exactly the ledger rows of the user's own requests |
| LoneRequests.LoneImport | internal/httpapi/credential_handlers.go:102-158 | an import request that runs alone in the gateway leaves the rows and the reply of one import of the credential store, whichever saves fail |
| CredentialTrace.RowsFollowTheirUser | internal/httpapi/credential_handlers.go:56-158 | in every run of interleaved requests each credential row was there at the start or holds exactly what a save or import of its own user carried, and a row that is gone was deleted by its own user |
| CredentialTrace.SaveRepliesMean | internal/httpapi/credential_handlers.go:56-74 | a save answered 204 has stored exactly the secrets it carried for its user and broker and nothing else, any other reply has changed nothing; 400 and 500 exactly for their reasons |
| CredentialTrace.DeleteRepliesMean | internal/httpapi/credential_handlers.go:76-92 | after a delete answered 204 the named row is gone and every other row as it was, any other reply has changed nothing; 400 and 500 exactly for their reasons |
| CredentialTrace.GoneStaysGone | internal/db/broker_credentials.go:103-112 | a row that is gone stays gone in every run until its own user saves that broker or imports |
| CredentialTrace.ImportedTokenIsConfigured | internal/userbrokers/factory.go:82-86 | an imported Questrade token is the configured token that the next Questrade call of the user starts from |
| CredentialTrace.QuestradeRefusalsMean | internal/userbrokers/factory.go:60-66 | a Questrade call is refused exactly if the store fails or the user has not connected the broker, each with its own reply |
| Balance.FanOut | internal/httpapi/market_handlers.go:54-64 | for every order in which the goroutines finish the results are those of fetching one by one |
| Balance.HandleBalance | internal/httpapi/market_handlers.go:54-84 | for every order one status per broker: a broker that answered shows its own account, on a record of its own, and its equity in dollars (times the rate for CAD, as it is otherwise), one that did not shows its error; the roll-up lists the accounts that answered in broker order and totals them in dollars |
| Balance.EquitiesAddUp | internal/httpapi/market_handlers.go:68-79 | the dollar equities of the statuses sum to the unified total |
| Balance.OtherStatusesUnaffected | internal/httpapi/market_handlers.go:68-77 | a broker's reply changes no status but its own |
| Balance.OtherContributionsUnaffected | internal/httpapi/market_handlers.go:68-79 | a broker's reply changes the totals by exactly its own contribution |
| Balance.AggregateBalances | internal/engine/balance.go:32-44 | each total is the plain sum over the accounts not in CAD plus the rate times the plain sum over those in CAD |
| Balance.SumInDollars | internal/engine/balance.go:17-41 | the same for the sum that the laws below speak of |
| Balance.SumConcat | internal/engine/balance.go:36-41 | totals add over concatenation of account lists |
| Balance.SumPermutation | internal/engine/balance.go:36-41 | totals do not depend on the order of the accounts |
| PriceStream.Decode | internal/brokerage/oanda/client.go:297-324 | exactly two-sided PRICE lines give a tick, with the line's instrument and time, its first bid as bid and its first ask as ask, zero for what does not parse |
| PriceStream.Produce | internal/brokerage/oanda/client.go:295-331 | the scan loop sends such ticks of such lines in order, none skipped, up to the tick at which the context is done |
| PriceStream.WrittenQuoteTheLines | internal/httpapi/stream_handlers.go:80-93 | in every run the ticks on the socket are, in order and each once, those of two-sided PRICE lines scanned, none skipped, with their bids as bids and asks as asks |
| PriceStream.Forward | internal/httpapi/stream_handlers.go:80-93 | the socket loop writes the ticks in order up to the first failing write |
| PriceStream.RunsAreLoops | internal/brokerage/oanda/client.go:290-331 | in every run each side does what its loop does on its own, cut off exactly at the offer at which the producer notices the end of the context and at the write that fails, also while a tick is being offered or written |
| PriceStream.EveryProduceRuns | internal/brokerage/oanda/client.go:290-331 | for all lines and every point at which the context may be done, some run has the producer return having sent exactly what the scan loop sends |
| PriceStream.EveryForwardRuns | internal/httpapi/stream_handlers.go:80-93 | for all lines and every write that may fail, some run has the consumer write exactly what the socket loop writes |
| PriceStream.WrittenIsPrefixOfRead | internal/brokerage/oanda/client.go:295-331 | in every run the written ticks are a prefix of the valid lines read, at most one tick is sent beyond them, and nothing is dropped short of a cancellation |
| PriceStream.ScannedInOrder | internal/brokerage/oanda/client.go:294-296 | lines are scanned in arrival order, none skipped or repeated |
| PriceStream.ShutdownIsBounded | internal/httpapi/stream_handlers.go:71-93 | after a cancellation every run under every schedule is at most as long as a measure of the state |
| PriceStream.NothingLeftIffBothDone | internal/httpapi/stream_handlers.go:71-93 | after a cancellation no step is left if and only if both loops have returned and the channel is closed |
| PriceStream.NeverBlocksOnSend | internal/brokerage/oanda/client.go:326-330 | a producer whose consumer has left can always leave its select |
| PriceStream.ProducerStopsAfterConsumerLeaves | internal/brokerage/oanda/client.go:290-332 | from every reachable state after the consumer left, the producer stops within the measure, sends nothing more, and closes the channel exactly once |
| PriceStream.ClosedForGood | internal/brokerage/oanda/client.go:290-292 | after the close nothing is sent and the channel is not closed again |
| Credentials.CredentialStore.Save | internal/db/broker_credentials.go:34-54 | upserts exactly the row of this user and broker |
| Credentials.CredentialStore.Delete | internal/db/broker_credentials.go:104-112 | removes exactly that row; a missing row or unknown broker is no error |
| Credentials.CredentialStore.ListConnectedBrokers | internal/db/broker_credentials.go:83-101 | exactly the user's connected brokers, each once, in name order |
| Credentials.CredentialStore.ImportEnv | internal/httpapi/credential_handlers.go:102-158 | one import leaves exactly the rows and reports exactly the list its specification gives, for every set of failing saves; the report is exactly what is newly connected |
| Credentials.ImportStores | internal/httpapi/credential_handlers.go:119-155 | which settings each broker requires, and under which key each setting is stored |
| Credentials.ReportIsWhatIsNew | internal/httpapi/credential_handlers.go:117-157 | the report has exactly the newly connected brokers, each once, in name order |
| Credentials.RepeatedImports | internal/httpapi/credential_handlers.go:94-158 | over any sequence of imports existing rows never change, and a new row appears exactly for a configured, unconnected broker whose save succeeded at least once |
| Credentials.ImportIsNoOpIff | internal/httpapi/credential_handlers.go:94-158 | importing changes and reports nothing, whatever fails, if and only if every configured broker is stored |
| Credentials.CleanImportSettles | internal/httpapi/credential_handlers.go:94-158 | one import whose saves all succeed reaches that state after any history |

## Left out

- GateTrace.GateBeforeAlpaca: does not claim that concurrent requests together stay under the day-trade limit; the gate works on a snapshot and nothing writes day_trades.
- Gateway.RepliesMatchOrders: an error from PlaceOrder does not show that the broker refused the order, so nothing is claimed about orders whose reply was lost; a request stopped while PlaceOrder is under way has either not called yet or is one of these.
- Questrade.Client.EnsureAuth: the store is always present, as the factory builds it; a nil store behaves like one whose loads and saves all fail.
- Questrade.ExchangesAreSpaced: durations are unbounded integers; overflow of a 64-bit duration for lifetimes of centuries is not modelled.
- TokenLineage.EveryRunRotates: while the requests run, every Questrade credential the user saves or imports carries the configured generation; a user who reconnects with a token of another lineage is covered by TokenRotation.ReconnectWorksIff only.
- Isolation.OthersDoNotMatter: broker replies are inputs, so two users who share one Questrade login are outside the statement.
- PriceStream.ShutdownIsBounded: no line arrives after the cancellation, as closing the response body ensures; a spurious endless body is not modelled.
- Balance.FanOut: a goroutine's write to its own slot is one step; the order in which the writes happen is arbitrary.
- Prices, rates and money are real numbers; float64 rounding, infinities and NaN are not modelled.
- HTTP, JSON, WebSocket framing, CORS, logging and shutdown: I/O and library code, present only as success, failure and lost replies.
- SQL: tables are maps and sequences with the filter each query states; the ORDER BY created_at of the order history is not modelled.
- Encryption, password hashing and sessions: library primitives with thin wrappers.
- The bodies of the Alpaca and OANDA REST calls and the choice of base URLs in the factory: their replies are inputs.
- Market holidays, local time zones and daylight saving: the code ignores holidays, and the model fixes UTC.
- The web client, configuration loading and the features the repository lists as not built.
