# PIX payment ledger of the cinepremium2 server, in Dafny

This project models the payment core of `server.js`, an Express server that sells products paid by PIX through the OndaPay provider. What is modelled:

- **Purchase table** (`PurchaseHistory`). It holds one record per payment attempt: `nome`, `telefone`, `status`, `transactionId` and `dataTransacao`, keyed by an auto-incremented id. Class `Ledger.PurchaseLedger` holds the table as a map from id to record, plus the next free id.
- **Token cache** (`ondaPayToken`, `getOndaPayToken`). This is class `OndaPay.TokenCache`.
- **Provider** (OndaPay). It is an oracle, class `OndaPay.Provider`. Its login and deposit answers are fixed in advance, and every call to it is logged.
- **`POST /gerarqrcode`** (module `Checkout`). It checks the required fields and applies the per-phone rate limit (3 attempts per hour, 5 per 30 days, counted before the new record exists). It then records the attempt as `Gerado` and builds the deposit payload: `external_id` as a decimal string, the CPF reduced to its digits, and `dueDate` as `YYYY-MM-DD HH:MM:SS`. It makes the deposit, retrying once with a forced new token after a 401. On success it stores the provider's `id_transaction`.
- **`POST /ondapay-webhook`** (module `Webhook`). It rejects a notification with a missing field. It compares the status with `PAID_OUT` ignoring case, parses `external_id` as `parseInt(…, 10)` does, and marks that one record `Sucesso`.
- **`POST /check-local-status`** (module `Webhook`). It looks a record up by `transactionId`. An unknown id is answered with `Gerado`.
- **`PUT /api/products/reorder`** (module `Catalog`). It gives the product listed at position `i` the `orderIndex` `i`.

The pure pieces of the routes are functions with lemmas (`JsText`, and the decision functions in each module). Each state change of the source is a method on a class whose `ensures` ties the new state to those functions. Time is an injected integer `now`, in milliseconds. The expiry's local calendar fields are an input too.

Files: `wrappers.dfy`, `js_text.dfy`, `ledger.dfy`, `ondapay.dfy`, `checkout.dfy`, `webhook.dfy`, `catalog.dfy`.

## Model

| member | source | states |
|---|---|---|
| JsText.Truthy | server.js:117 | JavaScript truthiness of a string field: present and not the empty string (also used at lines 203 and 241) |
| JsText.NatToString | server.js:139 | `id.toString()` is a non-empty run of digits with no leading zero (except for 0); one digit below 10, two below 100 |
| JsText.NatToStringValue | server.js:139 | reading the decimal string back gives the id |
| JsText.Pad2 | server.js:134 | `String(n).padStart(2,'0')` is all digits, exactly two for n < 100, and unpadded from 10 up |
| JsText.PadValue | server.js:134 | a padded field reads back to the number that was padded |
| JsText.LeadingZeroValue | server.js:134 | a leading `'0'` does not change a digit run's value |
| JsText.StripNonDigits | server.js:143 | `cpf.replace(/\D/g,'')` contains only `0`-`9` and is no longer than `cpf` |
| JsText.StripNonDigitsCounts | server.js:143 | every digit occurs as often as in `cpf`, and no other character occurs |
| JsText.StripNonDigitsAppend | server.js:143 | the filter works piecewise over concatenation, so the digits keep their order |
| JsText.StripNonDigitsOfDigits | server.js:143 | a string of digits only is returned unchanged |
| JsText.StripNonDigitsIdempotent | server.js:143 | stripping twice is stripping once |
| JsText.TrimStart | server.js:210 | `parseInt` skips exactly the leading ECMAScript white space |
| JsText.LeadingDigits | server.js:210 | the longest all-digit prefix: followed by the end or a non-digit |
| JsText.ParseInt | server.js:210-211 | NaN exactly when no digit follows the white space and optional sign; otherwise the sign times the value of the leading digits |
| JsText.ParseIntOfNatToString | server.js:210 | `parseInt` of a record id's decimal string, followed by anything that does not start with a digit, gives the id back |
| JsText.NothingToSkip | server.js:210 | a string starting with a digit is read by `parseInt` as it is, with a positive sign |
| JsText.LeadingDigitsOf | server.js:210 | a digit run before a non-digit is exactly what `parseInt` reads |
| JsText.ToUpperAt | server.js:208 | `toUpperCase` maps each position through the per-character mapping |
| JsText.UpperCharIs | server.js:208 | the characters whose upper case is a given ASCII capital or `_` are exactly its case-insensitive spellings |
| JsText.ToUpperMatches | server.js:208 | `s.toUpperCase() === w` for an upper-case word `w` iff `s` spells `w` ignoring case, with dotless i and long s taken into account |
| JsText.ToUpper | server.js:208 | the model's per-character upper case keeps the length of the string |
| Ledger.CountSince | server.js:125-126 | the number of the phone's records stamped at or after `since`, never more than the records in the table |
| Ledger.CountAfterInsert | server.js:125-131 | a new attempt adds one to exactly the windows of its phone that contain its time |
| Ledger.CountAfterRewrite | server.js:172 | rewriting a record's status or transaction id changes no count |
| Ledger.CountWindowMonotone | server.js:123-126 | the 30-day count is never below the hourly count |
| Ledger.CountAtLeast | server.js:125-126 | any set of recent attempts of a phone bounds its count from below |
| Ledger.SubsetCard | server.js:125-126 | a subset of attempts is no larger than the set it is part of |
| Ledger.FirstWithTransaction | server.js:243 | finds the lowest id in range whose `transactionId` equals the key, or proves that none in range has it |
| Ledger.MarkedPaid | server.js:217-220 | the record with that id, if any, gets status `Sucesso`; no other record or field changes; no key is added |
| Ledger.MarkedPaidIdempotent | server.js:217-220 | marking paid twice equals marking paid once |
| Ledger.MarkedPaidCommutes | server.js:217-220 | two updates may be applied in either order |
| Ledger.PurchaseLedger.Count | server.js:125-126 | the count is the number of the phone's records stamped at or after `since` |
| Ledger.PurchaseLedger.FindByTransaction | server.js:243 | none exactly when no record has that `transactionId`; else a matching record with no lower matching id |
| Ledger.PurchaseLedger.Create | server.js:131 | a fresh id: the next counter value, not in use before; a `Gerado` record without transaction id, stamped `now`; nothing else changes |
| Ledger.PurchaseLedger.SetTransactionId | server.js:172 | only that record's `transactionId` changes |
| Ledger.PurchaseLedger.MarkPaid | server.js:217-222 | the table becomes `MarkedPaid` of the old one; one row updated iff the id exists; `Sucesso` never reverts |
| OndaPay.CacheHit | server.js:89 | `ondaPayToken && !forceNew`: the cache is used only for a truthy token when no new one is forced |
| OndaPay.IsUnauthorized | server.js:157 | `error.response && error.response.status === 401`: only an HTTP answer with status 401 triggers the retry |
| OndaPay.GetToken | server.js:88-108 | a truthy cached token, not forced, is returned with no call and no change; otherwise exactly one login; success caches and returns its token; failure clears the cache and fails |
| OndaPay.FailedLoginClearsCache | server.js:103-106 | after a failed login the cache is empty, and the next call logs in again even without force |
| OndaPay.TokenReused | server.js:89-91 | a non-empty token just obtained is served from the cache by the next non-forced call |
| OndaPay.Provider.Login | server.js:93-99 | the next scripted login answer is consumed and one login call is logged |
| OndaPay.Provider.Deposit | server.js:152-154 | the next scripted deposit answer is consumed and the call with its payload and bearer token is logged |
| OndaPay.TokenCache.Get | server.js:88-108 | the returned token, the new cache, the provider's remaining answers and its log are exactly those of `GetToken` |
| Checkout.HasRequiredFields | server.js:117 | `value && nome && telefone && cpf && email` is truthy: a non-zero amount and four non-empty strings |
| Checkout.Denied | server.js:127 | denied when the hourly count is at least 3 or the 30-day count at least 5 |
| Checkout.RateLimited | server.js:122-127 | the decision on the counts taken over the existing records; a denied phone has at least one record within the last 30 days |
| Checkout.ThreeInAnHourDeny | server.js:122-129 | three attempts by a phone within the last hour deny the next one |
| Checkout.FiveInAMonthDeny | server.js:122-129 | five attempts within 30 days deny the next one, whatever the hourly count |
| Checkout.AllowedAfterTheHour | server.js:123-127 | once all of a phone's attempts are over an hour old, it is denied iff it has 5 in the 30 days |
| Checkout.AllowedAttemptCounted | server.js:125-131 | an allowed attempt raises both of its phone's counts by one, to at most 3 and 5 |
| Checkout.DueDate | server.js:134-135 | for a valid date with a 4-digit year: 19 characters, with `-`, `-`, ` `, `:`, `:` at positions 4, 7, 10, 13, 16 |
| Checkout.FourDigits | server.js:135 | a year from 1000 to 9999 prints as four digits |
| Checkout.Show | server.js:141 | a template literal prints a present title as it is and an absent one as `undefined` |
| Checkout.Description | server.js:141 | the text is the title (`undefined` when absent), then `' - '`, then the description when it is truthy and nothing otherwise |
| Checkout.DueDateRoundTrip | server.js:134-135 | the due date reads back to the calendar fields it was printed from |
| Checkout.BuildPayload | server.js:137-144 | the deposit body for the record id; its properties are stated by `PayloadFacts` |
| Checkout.PayloadFacts | server.js:137-144 | `external_id` parses back to the record id; the document is all digits and has the CPF's digits in order; the due date reads back to the expiry; amount, webhook, name and e-mail are copied over |
| Checkout.PayWithRetry | server.js:147-169 | the exchange makes at most four calls and consumes at most two deposit answers; an accepted charge consumed one |
| Checkout.RetryProtocol | server.js:147-169 | at most two deposits, all with the same payload; two iff the first token was obtained, the first deposit was refused with 401 and the forced login succeeded; then the calls are an optional login, a deposit, a login, and a deposit with the new cached token |
| Checkout.CachedTokenFirst | server.js:147-154 | with a truthy cached token the first call is the deposit, with that token |
| Checkout.NoRetryOtherwise | server.js:165-168 | a failure other than 401 gets no second deposit |
| Checkout.RetryAfterExpiredToken | server.js:155-164 | a 401, a successful forced login, then a success: one charge with the second answer's transaction id, the three calls in order, the new token cached |
| Checkout.AcceptedFromLastDeposit | server.js:171-172 | an accepted charge carries the transaction id of the last deposit answer consumed |
| Checkout.CountDepositsAppend | server.js:147-169 | deposit counts add up over concatenated call logs |
| Checkout.HttpStatus | server.js:118-191 | the status codes the route sends: 400 for missing fields (line 118), 429 for the rate limit (line 128), 200 for a session (line 182), 400 for a failed charge (line 191) |
| Checkout.ErrorMessage | server.js:183-191 | a refusal with a non-empty `msg` gives its first value; an empty `msg` gives `undefined`; a token failure, a refusal without `msg` and no response give the generic message |
| Checkout.ReplyOf | server.js:174-191 | 200 iff the charge was accepted, with the provider's transaction id, `qrcode` and `qrcode_base64` and an expiry 30 minutes after `now`; otherwise 400 with `{error: ErrorMessage(r)}` |
| Checkout.DepositWithRetry | server.js:147-169 | the imperative retry produces the result, cache, provider state and calls of `PayWithRetry` |
| Checkout.RecordAndCharge | server.js:131-182 | exactly one `Gerado` record is added under the next id, stamped `now`; the exchange is `PayWithRetry` on the built payload; the record's transaction id is the accepted charge's, and stays absent on failure |
| Checkout.CreateSession | server.js:114-193 | `MissingFields` (HTTP 400) iff a required field is falsy; `TooManyAttempts` (HTTP 429) iff the counts taken before the new record deny; in both cases nothing changes and the provider is not called. A session is sent with 200. Otherwise exactly one `Gerado` record is added, stamped `now`; the exchange is `PayWithRetry` on the built payload; the record's transaction id is the accepted charge's, and stays absent on failure |
| Webhook.IsPaidOut | server.js:208 | `status.toUpperCase() === 'PAID_OUT'`; only an eight-character status can match |
| Webhook.IsPaidOutIgnoresCase | server.js:208 | the status matches iff it spells `PAID_OUT` in any mix of cases |
| Webhook.Decide | server.js:202-214 | rejected iff a field is falsy, or the status is `PAID_OUT` and `external_id` is NaN; ignored iff fields present and status not `PAID_OUT`; else the id is `parseInt(external_id)` |
| Webhook.Handle | server.js:202-230 | 400 iff rejected; when not paying the table is unchanged; when paying only the named record's status becomes `Sucesso`; keys never change |
| Webhook.HandleIdempotent | server.js:217-220 | a repeated notification gives the same reply and no further change |
| Webhook.HandleCommutes | server.js:217-220 | notifications arriving out of order leave the same table |
| Webhook.HandleMovesForward | server.js:217-220 | `Sucesso` never reverts, transaction ids are untouched, statuses stay `Gerado`/`Sucesso` |
| Webhook.OndapayWebhook | server.js:196-235 | the reply and the new table are those of `Handle`; the id counter is unchanged |
| Webhook.StatusQuery | server.js:241-251 | 400 iff the id is falsy; the id is echoed; `Gerado` when no record has it; the stored status of the record the lookup finds |
| Webhook.CheckLocalStatus | server.js:238-257 | over the whole table: unknown id gives `{id, 'Gerado'}`; a known id gives the status of the record the lookup finds |
| Webhook.OnlyMatch | server.js:243 | when one record alone carries a transaction id, the lookup finds that record |
| Webhook.PaidOutNamesRecord | server.js:208-214 | a `PAID_OUT` notification whose `external_id` is a record id's decimal string pays exactly that id |
| Webhook.PaidNotificationIsPolled | server.js:208-251 | a record alone carrying `tx`, once a `PAID_OUT` notification names its id, is acknowledged and then polled as `Sucesso` |
| Catalog.Assign | server.js:295 | updating one product's `orderIndex` adds or removes no product |
| Catalog.Reordered | server.js:294-296 | the loop adds or removes no product |
| Catalog.LastIndexOf | server.js:294-296 | the last position of an id in the order |
| Catalog.ReorderedAt | server.js:294-296 | a listed product has its last listed position as `orderIndex`, other fields unchanged; an unlisted product is untouched |
| Catalog.Catalog.Reorder | server.js:288-302 | 400 with no update iff `order` is missing or not an array; otherwise the table is `Reordered` of the old one |

## Left out

- Express setup, sessions, `/login`, `/auth`, `/logout`, `requireLogin` and `/admin` (server.js:15-75) are framework and cookie plumbing. The admin check is an equality against environment variables.
- The HTTP calls and the database queries are not modelled as such. The provider is an oracle with scripted answers, and an exhausted script answers as an unreachable provider. The table is an in-memory map. The provider credentials are not modelled.
- Checkout.CreateSession: the amount `parseFloat((value / 100).toFixed(2))` is floating point. The payload keeps the integer cents.
- Checkout.CreateSession: the local-time `Date` arithmetic and the `setMinutes` carry are not modelled. The calendar fields of the expiry are an input. `expirationTimestamp` is `now` plus 30 minutes, although the source reads the clock a second time.
- The `models` directory is not part of this model. A new record's `dataTransacao` is taken to be `now`, the database default the rate limiter relies on.
- Ledger.PurchaseLedger.FindByTransaction: `findOne` has no ordering, so the source only promises some record with that `transactionId`. The model picks the lowest id.
- JsText.ParseInt: JavaScript numbers lose precision above 2^53. The model's integers are exact.
- JsText.ToUpper, JsText.ToUpperAt: only the ASCII letters, dotless i and long s are mapped, each to one character; every other character is left as it is. JavaScript also maps some characters to several: sharp s (U+00DF) to `SS`, and the ligatures U+FB00-U+FB06 to `FF`, `FI`, `FL`, `FFI`, `FFL` and `ST`. The model's upper case therefore keeps the length, and JsText.ToUpperMatches is stated only for words without `F` or `S`. `PAID_OUT` has neither letter, so the webhook's comparison is modelled exactly.
- Request fields are modelled as strings, and `value` as an integer. A value of another JavaScript type is not modelled: a numeric `cpf` throws on `replace`, and `NaN` is falsy. An absent field is `undefined`. A `null` title would print as `null`; this is not modelled.
- Checkout.ErrorMessage: the provider's `msg` is taken as the sequence of its values. For a string `msg`, that sequence is its characters.
- Storage faults and the 500 replies (server.js:231-234, 253-256, 298-301) are not modelled. Neither is a reorder loop left half done by a failing update.
- Concurrency is not modelled: overlapping token refreshes, and the rate limiter's non-atomic check-then-create.
- Logging, `app.listen` and the warm-up `getOndaPayToken()` at start-up (server.js:346-349) are not modelled.
- Product create, delete and list, and the purchase-history search (server.js:259-343), are thin database wrappers.

## Behaviour of the code worth knowing

- The stored statuses are the strings `'Gerado'` and `'Sucesso'`.
- `parseInt` accepts an `external_id` such as `"12abc"` as 12. It also skips leading white space and a sign. Only an id with no leading digits is rejected.
- An empty `msg` object yields `res.json({error: undefined})` (`Failed(None)`), which sends `{}` to the client, not the generic message.
- A token login failure is always reported with the generic message.
