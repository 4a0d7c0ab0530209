# up-bank-exporter, modelled in Dafny

up-bank-exporter is a Prometheus exporter for the Up bank API. It has three moving parts, and this project models each one:

- **The metrics refresher** (`Client`, from up/client.go) lists every account and every webhook. It follows the `links.next` cursor page by page, sending `page[size]=100` on the first request only. It then sets the `up_bank_accounts_count` gauge, one `up_bank_account_balance` series per account, and `up_bank_webhooks_count`. The follow-up requests go through the request editor `updateRequestWithPageToken`. That editor replaces the request URL with the parsed cursor.
- **The webhook receiver** (`Webhooks`, from up/webhooks.go) does the following for each request:
  1. Reads the body.
  2. Hex-decodes the `X-Up-Authenticity-Signature` header.
  3. Checks the HMAC of the raw body against the decoded header.
  4. Unmarshals the event.
  5. Resolves the event's `up_bank_webhook_requests` series.
  6. If the event names a transaction, fetches it and counts it in `up_bank_transaction_count` and `up_bank_transaction_amount`.
- **The instrumented transport** (`PromHttpClient`, from up/promhttpclient.go) wraps every outbound call to the API. It holds the `up_bank_http_outgoing_inflights` gauge for the length of the call. When a response arrives, it counts and observes the call under the (path, code) label pair.

The supporting modules are:

- `Metrics`: labelled Prometheus vectors, written as maps from a label tuple to a value.
- `Hex`: `hex.DecodeString` and its encoder.
- `Decimal`: the base-10 rendering of the status code.
- `Http`: the shared value types.
- `Wrappers`: `Option` and `Result`.

Each object that the Go code mutates is a class. The collectors of each Go file are one class: `Client.Gauges`, `Webhooks.Counters` and `PromHttpClient.Collectors`. The handler and the clients are classes whose methods change those collectors through field-level `modifies` frames. Each method's `ensures` states the whole new state of its collectors, and says which series stay unchanged.

Anything the exporter receives from outside is a parameter:

- **Upstream answers.** Every call to the API returns an answer, and the answers come as a finite sequence `up`. The i-th request sent receives `up[i]`.
- **`url.Parse`.** This is a function parameter `parse`.
- **The request body.** Whether the body could be read is an input.
- **The header value.** The raw header string is an input.
- **The unmarshal result.** What `json.Unmarshal` left in the event, plus its error, is an input.
- **The transaction fetch.** The answer to the transaction fetch is an input.
- **Elapsed time.** The elapsed milliseconds of a call are an input.
- **HMAC-SHA256.** This is the handler's function-valued field `hmac`.

A Go panic is one of the modelled outcomes, not an escape:

- `Return.Panicked` (a method that panicked)
- `Listing.Crashed` (a listing that ended in a panic)
- `Reply.Aborted` (a request the HTTP server dropped)

Deferred `Dec()` calls run on every path, including a panicking one.

### Behaviour modelled as written

- **Listing.** `JSON200` is dereferenced without checking the status code. An answer with no `JSON200` ends the listing in a panic.
- **Cursors.** A cursor that `url.Parse` rejects ends the listing. The listing returns the parse error, and no request is sent for that cursor.
- **Balance series.** A balance series is keyed by all five labels. An account that changes its display name leaves its old series in place. A later account with the same label tuple overwrites the earlier one.
- **The client field.** `NewUpWebhookHandler` never sets the handler's API client `c`. Any event that names a transaction therefore panics on the nil client.
- **The request counter.** `handleWebhookRequest` calls `webhookRequests.With(...)` but never increments it. The series is created and stays at 0.
- **Transaction labels.** The transaction label map has three keys: `account_id`, `status` and `currency_code`. Both transaction vectors declare only `account_id` and `status`, and the model keeps the three-key tuple. The Prometheus client would reject such a map at run time. That library check is not modelled (see below).
- **Unmarshal errors.** An unmarshal error writes a 400 but does not return. The event is still handled with whatever `json.Unmarshal` left in it.
- **Handling errors.** `ServeHTTP` discards the error of `handleWebhookRequest`, so a failed transaction fetch still answers 200.
- **Code label.** The code label is the decimal rendering of the status code. Distinct codes get distinct series.

## Model

| member | source | states |
|---|---|---|
| Client.UpdateRequestWithPageToken | up/client.go:121-128 | A cursor that parses replaces the request's URL with the parsed URL and returns no error. A cursor that does not parse returns the parse error and leaves the request unchanged. |
| Client.FollowUpRequest | up/client.go:76-78 | A follow-up request is built without `page[size]`, and the editor rewrites it. It goes to exactly the parsed cursor, or fails with the cursor's parse error. |
| Client.FollowFrom | up/client.go:75-83 | Each followed cursor uses up one upstream answer, and the walk never runs past the last answer. |
| Client.FollowedCursors | up/client.go:75-78 | Follow-up request k goes to the parsed `links.next` of the k-th page fetched. |
| Client.FollowEndsAtVerdict | up/client.go:70-83 | The walk ends at the first answer without a usable cursor. The outcome is every earlier page's data followed by that answer's verdict. |
| Client.ListingOutcome | up/client.go:70-83 | Every answer before the stop was a page with a parsable cursor. At the stop: a fetch error gives that error; a nil `JSON200` gives a panic; a last page gives all pages' data in fetch order; an unparsable cursor gives the parse error. |
| Client.FirstErrorEndsListing | up/client.go:70-81 | The first failing fetch ends the listing with its own error, and no request follows it. |
| Client.TargetsShape | up/client.go:70-78 | There is one request per page. Only the first carries `page[size]=100`. Request k+1 goes to the k-th followed cursor. |
| Client.ListAll | up/client.go:68-83 | The loop builds the first request with `page[size]=100` and one request per followed cursor. The listing it returns and the targets of the requests it sends are exactly those of the walk `Follow`, which the lemmas above characterise. |
| Client.SetBalances | up/client.go:86-94 | After the balance loop, the series present are the old ones plus one per label tuple of the listed accounts. |
| Client.BalanceLastWriteWins | up/client.go:86-94 | A label tuple's series holds the balance of the last account carrying that tuple. |
| Client.BalanceUntouched | up/client.go:86-94 | A series that no listed account carries keeps its old value, or stays absent. |
| Client.UpMetricsClient.UpdateAccountsMetrics | up/client.go:67-97 | On a complete listing: returns nil, the count is the number of accounts, and balances are set per account. On a listing error: returns that error. On a nil `JSON200`: panics. When the listing fails, both gauges are unchanged. |
| Client.UpMetricsClient.UpdateWebhookMetrics | up/client.go:99-119 | Same as above for webhooks and their count gauge. |
| Hex.Decode | up/webhooks.go:62 | A successful decoding has half as many bytes as the text has characters. |
| Hex.DecodeSucceedsIff | up/webhooks.go:62-66 | `hex.DecodeString` succeeds exactly on text of even length made of hex digits. |
| Hex.DecodeEncode | up/webhooks.go:62-66 | Decoding the hex encoding of any byte string gives that byte string back. |
| Webhooks.SignatureRejects | up/webhooks.go:62-66 | The header yields no signature, and the request gets 401, exactly when it is empty or is not well-formed hex. |
| Webhooks.SignatureOfEncoding | up/webhooks.go:62-66 | The hex rendering of a non-empty MAC is read back as that MAC. |
| Webhooks.UpWebhookHandler.New | up/webhooks.go:46-48 | The constructor keeps the secret key and leaves the API client nil. |
| Webhooks.UpWebhookHandler.Authenticate | up/webhooks.go:81-90 | The check passes exactly when the body's MAC under the secret key has the signature's length and agrees with it byte for byte, as `hmac.Equal` compares. |
| Webhooks.UpWebhookHandler.AuthenticIff | up/webhooks.go:62-71 | A readable body passes both signature checks exactly when the header is well-formed hex whose decoding is the body's non-empty MAC under the secret key. |
| Webhooks.UpWebhookHandler.SignedBodyAuthentic | up/webhooks.go:81-90 | A sender that hex-encodes the body's MAC is accepted. |
| Webhooks.UpWebhookHandler.AlteredSignatureRejected | up/webhooks.go:81-90 | Changing any single byte of a matching signature makes `authenticate` fail. |
| Webhooks.UpWebhookHandler.FetchIffReferenced | up/webhooks.go:92-101 | A transaction is fetched, by the id the event names, exactly when the event names one and the client is set. It is counted exactly when that fetch returns a transaction. |
| Webhooks.UpWebhookHandler.SyntaxErrorBodyHandled | up/webhooks.go:73-78 | A body with a JSON syntax error, which `json.Unmarshal` rejects before decoding anything, leaves the zero event. Handling that event fetches nothing, cannot panic, counts nothing and resolves the ("", "") request series; with the contract of `ServeHTTP`, such a request answers 400 and is not aborted. A type error can instead leave the transaction reference set, and that event is handled like any other. |
| Webhooks.UpWebhookHandler.HandleTransaction | up/webhooks.go:103-121 | A nil client panics before fetching. A fetch error is returned. A nil `JSON200` panics. A transaction adds 1 to its count series and its amount to its amount series, under (account_id, status, currency_code). Otherwise both counters are unchanged. |
| Webhooks.UpWebhookHandler.HandleWebhookRequest | up/webhooks.go:92-101 | The request series is resolved without being incremented. The event's transaction, if any, is handled, and the method panics, returns or counts exactly as that does. |
| Webhooks.UpWebhookHandler.ServeHTTP | up/webhooks.go:50-79 | An unreadable body gets 400. A missing or bad signature gets 401 and touches no series. An authentic request is unmarshalled and handled: it answers 400 on an unmarshal error, otherwise 200, and is aborted if the handling panicked. The inflight gauge ends where it began. |
| Metrics.Resolve | up/webhooks.go:95 | `With` alone creates the series at 0 if it is absent and changes no value. |
| Metrics.Add | up/webhooks.go:118-119 | `With(k).Add(d)` moves only the series at k, by d. |
| Metrics.Set | up/client.go:87-93 | `With(k).Set(v)` on a gauge vector leaves v in the series at k, whatever it held, and no other series changes. |
| Metrics.Observe | up/promhttpclient.go:60-61 | `With(k).Observe(x)` appends x to the observations of the series at k, and no other series changes. |
| PromHttpClient.LabelsFor | up/promhttpclient.go:55-58 | The path label is the request's URL path. The code label reads back as the response's status code. |
| PromHttpClient.DistinctCodesDistinctSeries | up/promhttpclient.go:55-58 | Responses with different status codes on the same path are recorded under different series. |
| Decimal.ParseFormatInt | up/promhttpclient.go:57 | The base-10 rendering of a status code reads back as that code. |
| Decimal.FormatIntInjective | up/promhttpclient.go:57 | Distinct codes render differently. |
| PromHttpClient.PromHttpClient.Do | up/promhttpclient.go:43-64 | The wrapped call's response and error pass through unchanged, and the inflight gauge ends where it began. On an error, no labelled series moves. On a response, the request total goes up by one, and latency and content length are each observed once, under (path, code). |

## Left out

- `UpdateMetrics`, up/client.go:56-65, runs the two refreshes concurrently under an errgroup. Concurrency is not modelled; each refresh is modelled on its own.
- `NewUpMetricsClient` (up/client.go:41-54) builds the generated client, bearer-token authentication and the transport. The generated client is not part of this model; its requests and answers are the upstream sequence.
- up/handler.go, main.go and tools.go (HTTP routing, flags, start-up) are not part of this model.
- `Client.ListAll`, `Client.UpMetricsClient.UpdateAccountsMetrics` and `Client.UpMetricsClient.UpdateWebhookMetrics` require a finite upstream (`Finite`): the last answer is one after which the loop sends no further request (an error, a nil `JSON200`, a page without `links.next`, or a cursor that does not parse). An API that hands out usable `links.next` forever would make the Go loop run forever; that case is not modelled.
- HMAC-SHA256 is an uninterpreted function field. Its cryptographic properties are not modelled, and neither is the constant-time comparison of `hmac.Equal`. The `hash.Write` error branch at up/webhooks.go:84-87 cannot happen and is left out.
- `PromHttpClient.PromHttpClient.Do` does not model the `log.Println` of the transport error at up/promhttpclient.go:50; logging has no effect on the response, the error or the metrics.
- JSON decoding is not modelled. What `json.Unmarshal` produced and its error are inputs. So is the result of reading the body.
- `url.Parse` internals are not modelled; it is the parameter `parse`. Only a URL's path is read.
- The context timeout and the error texts of `http.Error` are not modelled. Each reply is its status code.
- Floating point is not modelled. Balances, amounts, sizes and counts are integers in base units. Latency is in whole milliseconds.
- Histogram buckets are not modelled. A histogram keeps the list of its observations.
- `Webhooks.UpWebhookHandler.HandleTransaction` does not model the panic that the Prometheus client raises when a label map does not match the vector's declared label names. The three-key transaction map is recorded as it is built.
- `Webhooks.UpWebhookHandler.HandleTransaction` also does not model the panic that Prometheus raises when a negative amount is added to a counter. A debit is added as a negative number.
- Label values are not checked for valid UTF-8, which the Prometheus client also checks.
- Prometheus registration (`promauto`) and the HTTP exposition of the metrics are not modelled.
