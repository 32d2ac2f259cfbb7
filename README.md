# Checkbox API client — a Dafny model

`checkbox_api.py` is a thin client for the Checkbox fiscal cash-register REST
API: cashier sign-in, the shift lifecycle and receipt issuance. Around the HTTP
plumbing it holds a small amount of deterministic logic, which this project
models and proves things about:

- **Result normalisation** (`results.dfy`): every outcome of a call — a
  response, an `HTTPError`, any other transport failure — becomes one uniform
  `Result` record (`_error`, `_parse`, the exception handlers of `_request`).
- **URL composition and operation dispatch** (`endpoints.dfy`): the URL
  `_request` builds, and for each public operation the request it issues
  (`Send`) or the result it returns without a request (`Immediate`).
- **Receipt construction** (`receipts.dfy`): the receipt payload of
  `create_receipt` (goods, the single payment, the optional discount) and the
  three-way dispatch on the payment method (sale, prepayment, settlement of a
  prepayment).
- Supporting modules: `json.dfy` (decoded JSON values and Python
  truthiness), `money.dfy` (conversion of decimal amounts to minor units),
  `text.dfy` (`lstrip('/')` and `str()` of integers), `wrappers.dfy` (`Option`).

The transport is a parameter: an `Outcome` says what the HTTP library did with
a request, and `Endpoints.Perform` gives the result a caller then receives.
The fresh uuids of `open_shift` and `create_receipt` are parameters too.
`BuildGoods` and `CreateReceipt` are methods because the source builds the
goods list with an appending loop and adds `discounts` to the receipt in place;
each is proved equal to a specification function (`Goods`, `Dispatch` of
`ReceiptOf`) whose properties are stated in its contract and in lemmas.

`_error` uses the payload's `"message"` only when that value is truthy (an
empty or null message falls back to the error kind), and a falsy payload
(JSON `null`, `0`, `""`, `[]`, `{}`) gives `data` `{}`.

## Model

| member | source | states |
|---|---|---|
| Results.Error | checkbox_api.py:50-53 | a failure record: `success` false, the given status and error kind; `error_description` is the payload's truthy `"message"`, else the kind (never falsy for a non-empty kind); `data` is the payload, or `{}` when it is missing or falsy |
| Results.Parse | checkbox_api.py:55-61 | `success` exactly when 200 <= status < 300, status copied, `data` the decoded body or `{"raw": text}`, no error keys |
| Results.HttpErrorPayload | checkbox_api.py:86-89 | payload of an HTTP error: the response's decoded body, else `{"raw": response text}`, else with no response `{"raw": str(e)}` |
| Results.OrEmpty | checkbox_api.py:51 | `payload or {}`: the payload when present and truthy, else the empty object |
| Results.Message | checkbox_api.py:51 | the description comes from the payload exactly when it is an object with a truthy `"message"`, and is then that value |
| Results.HttpErrorStatus | checkbox_api.py:85 | the attached response's status, or 400 when none is attached |
| Results.Normalise | checkbox_api.py:81-93 | a completed response is parsed; an HTTP error gives exactly `Error` of the response's status (400 without one), "HTTP error" and the error payload, so its data is that payload (or `{}` when falsy) and its description the payload's truthy message or "HTTP error"; a network error gives 400, "Network error", `{"detail": msg}`; only a completed response can succeed |
| Results.FailureKinds | checkbox_api.py:82-93 | the `error` field alone tells the three outcome kinds apart (absent, "HTTP error", "Network error"), both directions |
| Results.FailuresNeverSucceed | checkbox_api.py:83-93 | an HTTP or network error is never reported as success and always carries a description |
| Results.SuccessCarriesBody | checkbox_api.py:55-61 | a 2xx response with a JSON body yields success with exactly that body |
| Results.ErrorAsWritten | checkbox_api.py:50-53 | `_error` as written raises exactly when the payload is truthy and not an object, and otherwise equals `Error` |
| Results.NormaliseAsWritten | checkbox_api.py:83-93 | `_request`'s mapping as written raises exactly for an HTTP error whose response body decodes to a truthy non-object, and otherwise equals `Normalise` |
| Results.AsWrittenRaisesOnListBody | checkbox_api.py:86-90 | a 500 whose body is `["busy"]` makes the as-written mapping raise |
| Results.CorrectedReturnsOnListBody | checkbox_api.py:86-90 | the corrected mapping returns a 500 "HTTP error" record carrying that body |
| Text.LStripSlashes | checkbox_api.py:71 | the result is a suffix of the endpoint, everything removed is `/`, and it does not start with `/` |
| Text.LStripIgnoresSlashes | checkbox_api.py:71 | stripping `k` extra leading slashes gives the same result, for every `k` |
| Text.LStripSplits | checkbox_api.py:71 | an endpoint is its leading slashes followed by what stripping keeps |
| Text.LStripIdempotent | checkbox_api.py:71 | stripping twice equals stripping once |
| Text.NatToString | checkbox_api.py:166 | decimal digits, non-empty, no leading zero, whose value is the number |
| Text.IntToString | checkbox_api.py:166 | a leading `-` exactly for negatives, followed by the digits of the magnitude |
| Text.IntToStringRoundTrip | checkbox_api.py:166 | reading back the written integer gives the integer |
| Text.IntToStringInjective | checkbox_api.py:166 | distinct integers are written differently |
| Text.OptIntToString | checkbox_api.py:147 | a missing id is written `None`, a present one as its decimal |
| Endpoints.RequestUrl | checkbox_api.py:71 | the URL is `api_url + api_version`, exactly one `/`, then the stripped endpoint (never a second `/` after the root) |
| Endpoints.UrlIgnoresLeadingSlashes | checkbox_api.py:71 | leading slashes on the endpoint do not change the URL |
| Endpoints.UrlOfPlainEndpoint | checkbox_api.py:71 | an endpoint without a leading slash is appended unchanged after `/` |
| Endpoints.Perform | checkbox_api.py:72-93 | an immediate result is returned as is; a sent request yields the normalised outcome |
| Endpoints.ImmediateIgnoresTransport | checkbox_api.py:99-100 | an operation rejected locally returns the same result whatever the transport would do |
| Endpoints.BadRequest | checkbox_api.py:100 | status 400, "Bad request" as error and description, `{"detail": detail}` as data |
| Endpoints.CashierSignin | checkbox_api.py:95-101 | no request exactly when login or password is missing or empty, then the bad-request result; otherwise POST `cashier/signin` with body `{login, password}` and no extra headers |
| Endpoints.SigninRejectedLocally | checkbox_api.py:99-100 | a blank credential yields status 400 and "Bad request" for any transport |
| Endpoints.OpenShift | checkbox_api.py:103-110 | POST `shifts` with licence key and bearer token, body `{"id": <shift id>}` |
| Endpoints.StatusShift | checkbox_api.py:112-118 | GET `shifts/<id>` with the bearer token and an empty body |
| Endpoints.CloseShift | checkbox_api.py:120-126 | POST `shifts/<id>/close` with licence key and bearer token and an empty body |
| Endpoints.ShiftUrls | checkbox_api.py:116 | status and close requests go to `<root>/shifts/<id>` and `<root>/shifts/<id>/close` |
| Money.RoundHalfEven | checkbox_api.py:149 | the result is within half a unit of `n / p`, and even on an exact half |
| Money.RoundHalfEvenUnique | checkbox_api.py:149 | those two properties determine the rounded value uniquely |
| Money.ToMinor | checkbox_api.py:149 | an amount in hundredths, rounded to nearest with ties to even |
| Money.ToMinorExact | checkbox_api.py:165 | an amount with at most two decimals converts exactly |
| Money.ToMinorOfPrice | checkbox_api.py:149 | 19.99 converts to 1999 |
| Money.ToMinorOfHalfUnit | checkbox_api.py:178 | 5.5 converts to 550 |
| Money.ToMinorTieGoesEven | checkbox_api.py:165 | on the exact decimal 10.005 (1000.5 cents) the model's conversion gives the even neighbour 1000 |
| Receipts.MethodOf | checkbox_api.py:190-196 | PREPAYMENT and POSTPAID are recognised exactly by their strings; everything else, a missing method included, is a sale |
| Receipts.ModeOf | checkbox_api.py:177 | a value discount exactly when the type is the string VALUE; every other type, a missing one included, passes the amount through |
| Receipts.GoodLineOf | checkbox_api.py:144-155 | code `order_product_<id>` (`None` when missing), the product's name, its price in minor units, quantity 1000, not a return or payout |
| Receipts.PaymentOf | checkbox_api.py:163-171 | label `Order #<order_id>`, total in minor units, type, payment system, rrn from the invoice id, owner the client's full name, no signature |
| Receipts.MapSeq | checkbox_api.py:143-155 | the mapped list has the input's length and the image of each element at its position |
| Receipts.Goods | checkbox_api.py:142-155 | one goods line per product, same length, same order |
| Receipts.DiscountOf | checkbox_api.py:176-188 | type "DISCOUNT", mode copied, name "Знижка"; a VALUE amount in minor units (0 when missing), any other mode's amount passed on unchanged (null when missing) |
| Receipts.ReceiptOf | checkbox_api.py:142-188 | id, cashier and phone copied; each good has code `order_product_<id>`, the product's name and price in minor units, quantity 1000, not a return or payout; exactly one payment labelled `Order #<order_id>`, total in minor units, no signature; no rounding; discounts present exactly when a discount is given, then one entry |
| Receipts.GoodCodeIdentifiesProduct | checkbox_api.py:147 | two goods with the same code have the same order-product id, a missing id included |
| Receipts.OrderLabelIdentifiesOrder | checkbox_api.py:166 | the payment label determines the order id |
| Receipts.PriceExactInCents | checkbox_api.py:149 | a price with at most two decimals is sent as exactly that many cents |
| Receipts.DiscountExamples | checkbox_api.py:176-180 | VALUE 5.5 is sent as 550; PERCENT 10 is sent as 10 |
| Receipts.ListJson | checkbox_api.py:160-162 | a list is serialised element by element, in order |
| Receipts.GoodLineJson | checkbox_api.py:145-154 | keys `good` (with `code`, `name`, `price`), `quantity`, `is_return`, `is_winnings_payout`, each holding the line's value |
| Receipts.PaymentJson | checkbox_api.py:163-171 | keys `type`, `value`, `label`, `payment_system`, `rrn`, `owner_name`, `signature_required`, each holding the payment's value |
| Receipts.DiscountJson | checkbox_api.py:182-187 | keys `type`, `mode`, `value`, `name`, each holding the discount's value |
| Receipts.ReceiptJson | checkbox_api.py:157-174 | the receipt object is exactly its fields and always holds `goods` |
| Receipts.ReceiptFields | checkbox_api.py:157-188 | the receipt's keys are id, cashier_name, goods, delivery, payments, rounding, plus discounts exactly when a discount was added; id and cashier name as strings, delivery `{"phone": phone}`, rounding as given, and the serialised lists under goods, payments and discounts |
| Receipts.WithoutGoods | checkbox_api.py:199 | the settlement body has every receipt key but `goods`, each with its unchanged value |
| Receipts.Dispatch | checkbox_api.py:190-202 | PREPAYMENT posts the full receipt to `prepayment-receipts`; POSTPAID without a relation id returns 400 "Bad request" and sends nothing, with one posts the receipt without goods to `prepayment-receipts/<relation_id>`; anything else posts the full receipt to `receipts/sell`; every request carries `Authorization: Bearer <token>` |
| Receipts.SentBodyKeys | checkbox_api.py:193-202 | a sent body lacks `goods` exactly for POSTPAID and agrees with the receipt on every other key |
| Receipts.BuildGoods | checkbox_api.py:142-155 | the loop's list equals `Goods(products)` |
| Receipts.CreateReceipt | checkbox_api.py:128-202 | the action equals `Dispatch` of the receipt built from the inputs |

## Findings

| source | as written | input that shows it | evidently intended | confidence | as-written member | corrected member |
|---|---|---|---|---|---|---|
| checkbox_api.py:51 | `(payload or {}).get("message")` assumes the payload is a dictionary, but the HTTP-error handler (line 87) passes whatever `e.response.json()` decodes to; a truthy list, string or number raises `AttributeError` out of the `except` block, so the call raises to its caller | an `HTTPError` whose response (status 500) has body `["busy"]` (`Results.AsWrittenRaisesOnListBody`) | a failure record with status 500, error and description "HTTP error", and the body as data, as for every other failure | not executed; high | Results.NormaliseAsWritten | Results.Normalise |

## Left out

- HTTP transport (`requests.Session`, `session.request`, `raise_for_status`, the timeout): replaced by the `Outcome` parameter. Which statuses reach `_parse` and which raise `HTTPError` is decided inside the library and is not modelled.
- Decoding response bodies: the decoded body is an `Option<Json>` input (None when it is not JSON).
- Results.Normalise: does not model the `logging` calls made before returning a failure.
- Session headers (`accept`, `Content-Type`, `X-Client-Name`, `X-Client-Version`) and their merging with per-call headers; `params`; `method.upper()`. An `Action` carries only the per-call headers.
- Money.ToMinor: computes `round(x * 100)` exactly on a decimal amount with ties to even, instead of on the binary-float product; the source can differ near half-cent boundaries (10.005 gives 1001 with floats, because `float(10.005) * 100` is slightly above 1000.5, and 1000 here), and for amounts beyond double precision.
- Money.ToMinorTieGoesEven: states the exact-decimal result 1000 for 10.005; the source's float arithmetic yields 1001 for that amount.
- `uuid.uuid4()`: the shift id and receipt id are parameters.
- JSON numbers are exact decimals; floats, NaN and infinities are not modelled. Objects are maps, so key order is not modelled.
- Input dictionaries are typed records: a key read with `.get` and no default is an `Option` (sent as null when missing), a key read with a default falls back to it; values of an unexpected type (a `product_price` of null, which makes `float()` raise, a non-string `discount_type`) are not modelled, and an empty discount dictionary is represented like `None` (both falsy).
- `CheckboxConfig` fields other than `api_url` and `api_version`: `client_name` and `client_version` only feed session headers, `timeout_sec` only the transport, and `check_url` is read nowhere in the file. The default values of the configuration are not modelled either.
