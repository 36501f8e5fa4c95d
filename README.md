# MuseWallet SDK for Laravel, modelled in Dafny

The SDK is a PHP client for the MusePay card-issuing API. This project models the parts of it
that decide something.

- **Request signing.** Every outbound call carries an RSA signature over a canonical message:
  - the service writes `partner_id`, `sign_type`, `timestamp` and `nonce` over the caller's data;
  - `SignatureParameters::extract` keeps the fields the endpoint declares, drops null and empty
    values, JSON-encodes composites after sorting their top-level keys, and key-sorts the
    result;
  - the pairs are joined as `k=v&k=v` and signed.
- **The retry loop of `makeRequest`.** The same signed request is sent up to `retry_attempts`
  times, with a `2^k` second back-off between attempts.
- **Webhook verification and dispatch.** Verification checks testing mode first, then whether a
  secret is set, then an HMAC-SHA256 comparison. Dispatch is a fixed table from the webhook's
  type to an event class, with aliases.
- **`getCardProducts` and `queryApplyResult`.**
- **The business-code table** and its `isSuccess` / `isRetryable` / `requiresUserAction`
  predicates, and **the response formatter** built on it.
- **The six enum tables**: currencies, application, KYC and card statuses, card levels and
  document types.
- **The response records** and their `fromArray` / `toArray`.
- **The webhook event classes** and their payload getters.

How the PHP is represented:

- **PHP values.** PHP arrays with string keys are `seq<(string, Value)>` in insertion order
  (`PhpValue`). `??` and `isset` are `Isset` / `Index`, and `array_merge` is `Merge`.
- **Built-in functions.**
  - `ksort` is an insertion sort proved to be a permutation, sorted and canonical (`KeyOrder`).
  - Loose `in_array` follows the PHP 8 comparison of numeric strings (`PhpNumeric`).
- **Type errors.** PHP's weak-mode coercion into `string` and `?string` properties and returns
  is modelled: an integer becomes its decimal text, and an array raises a `TypeError`.
- **Primitives passed in.** The cryptographic and JSON primitives are fields of the `Primitives`
  value passed in, so every property holds whatever they compute (`External`). So are the clock
  and the HTTP client: the `k`-th call yields `outcomes(k)`.
- **The service.** `MuseWalletService` is a class whose fields the constructor sets. Its loops
  (`getCardProducts`, the `foreach` of the signing step, the `while` of `makeRequest`) are
  methods proved against specification functions.
- **Records and events.** The response records and events are datatypes, and their getters are
  fields or functions over the stored payload.

What the code does at the edges of the retry loop and the code table:

- A non-2xx response is retried. `handleErrorResponse`
  (src/Services/MuseWalletService.php:421) throws inside the `try`, and `catch (\Exception $e)`
  at line 423 catches it. It therefore counts as an attempt, sleeps and retries like a transport
  failure. `RequestRetry.ErrorStatusRetried` shows a 500 followed by a 200 succeeding on the
  second call.
- A 2xx response whose body is not a JSON array is not retried (src/Services/MuseWalletService.php:418).
  `$response->json()` returns null, and returning null from a method declared `: array` raises
  a `TypeError`, which `catch (\Exception)` does not catch (`RequestRetry.NonArrayBodyNotRetried`).
- A `retry_attempts` of 0 or less makes no HTTP call (src/Services/MuseWalletService.php:406).
  The loop body never runs, and the final exception ends in "Unknown error"
  (`RequestRetry.Retried`).
- The error-code table `MuseWalletErrorCodes::all()` has 18 entries
  (src/Services/MuseWalletErrorCodes.php:108-202). `MuseWalletErrorCodes.LookupDomain` states
  the exact set.

## Model

| member | source | states |
|---|---|---|
| PhpValue.GetSound | src/Services/SignatureParameters.php:182-185 | a key lookup `$a[$k]` returns a value stored under that key, and fails only when no entry has the key |
| PhpValue.GetAt | src/Services/SignatureParameters.php:182-185 | an entry whose key no earlier entry carries is what a lookup of that key returns |
| PhpValue.Put | src/Services/MuseWalletService.php:451-454 | `$a[$k] = $v` makes the key read `$v`, leaves every other key as it was, and adds no other entry |
| PhpValue.Merge | src/Services/MuseWalletService.php:400 | `array_merge($a, $b)` with string keys: every key of `$b` reads `$b`'s value, every other key reads `$a`'s; distinct keys stay distinct |
| PhpValue.UcFirst | src/Services/MuseWalletService.php:124 | `ucfirst` upper-cases a leading ASCII lower-case letter and keeps every other character; a string not starting with one is returned unchanged |
| PhpValue.StrToLower | src/Services/MuseWalletService.php:411 | `strtolower` keeps the length, leaves no ASCII upper-case letter, lower-cases each one by the ASCII offset and keeps every other character |
| PhpValue.CoerceString | src/DataTransferObjects/MuseWalletResponse.php:25-32 | passing a value to a `string` property: text is kept unchanged; null or an array is a type error, anything else converts |
| PhpValue.CoerceNullableString | src/DataTransferObjects/CardInfoResponse.php:43-66 | passing `$x ?? null` to a `?string` property: a missing or null value gives null, text is kept unchanged, an array is a type error |
| KeyOrder.LessTotal | src/Services/SignatureParameters.php:202 | the key order `ksort` uses is total on distinct strings |
| KeyOrder.LessTransitive | src/Services/SignatureParameters.php:202 | the key order `ksort` uses is transitive |
| KeyOrder.KSortPermutes | src/Services/SignatureParameters.php:188-202 | `ksort` returns the same entries (a permutation, as multisets) |
| KeyOrder.KSortSorted | src/Services/SignatureParameters.php:188-202 | `ksort` of an array with distinct keys leaves the keys strictly ascending |
| KeyOrder.SortedUnique | src/Services/SignatureParameters.php:202 | two strictly key-sorted arrays holding the same entries are equal |
| KeyOrder.KSortCanonical | src/Services/SignatureParameters.php:188 | `ksort` gives the same array for any two orderings of the same entries |
| PhpNumeric.LooseEqualsDecimal | src/Services/MuseWalletErrorCodes.php:269-277 | two decimal literals without a leading zero are loosely equal (`==`) exactly when identical |
| PhpNumeric.InArrayLooseDecimal | src/Services/MuseWalletErrorCodes.php:269-294 | loose `in_array` of a decimal literal in a list of decimal literals is plain membership |
| PhpNumeric.InArrayLooseLeadingSpace | src/Services/MuseWalletErrorCodes.php:269-294 | a leading space on the needle does not change the outcome of loose `in_array` against decimal literals |
| PhpNumeric.InArrayLooseWords | src/Enums/ApplyStatus.php:94-119 | loose `in_array` against a list of words starting with a letter is plain membership, for every needle |
| PhpNumeric.InArrayLooseDisjoint | src/Services/MuseWalletErrorCodes.php:269-294 | no string is loosely found in two lists of decimal literals that share no element |
| PhpNumeric.ZeroNotInDecimals | src/Enums/KycStatus.php:81-84 | `"0"` is loosely equal to no decimal literal without a leading zero |
| Currency.Label | src/Enums/Currency.php:118-121 | the entry's name for a supported code, "Unknown" otherwise |
| Currency.Network | src/Enums/Currency.php:140-143 | the entry's network for a supported code, "Unknown" otherwise |
| Currency.IsSupported | src/Enums/Currency.php:129-132 | `isSupported` holds exactly for the nine listed codes; ether is listed as "Ethereum", so the ticker "ETH" is not supported |
| Currency.DecimalsSixOrEighteen | src/Enums/Currency.php:61-110 | every supported asset has 6 or 18 decimals |
| Currency.LabelKnownIffSupported | src/Enums/Currency.php:118-143 | the label, and the network, is "Unknown" exactly for unsupported codes |
| ApplyStatus.Label | src/Enums/ApplyStatus.php:83-86 | the table label for the nine statuses, "Unknown" otherwise |
| ApplyStatus.IsSuccessful | src/Enums/ApplyStatus.php:94-97 | loose `in_array` against words is exact: holds exactly for APPROVED, CARD_APPROVED, ISSUED and CARD_SHIPPED |
| ApplyStatus.IsPending | src/Enums/ApplyStatus.php:105-108 | holds exactly for CARD_INIT, CARD_REVIEWING and APPLYING |
| ApplyStatus.IsRejected | src/Enums/ApplyStatus.php:116-119 | holds exactly for REJECTED and CARD_REJECT |
| ApplyStatus.Partition | src/Enums/ApplyStatus.php:62-119 | each of the nine statuses satisfies exactly one predicate; an unknown status is labelled "Unknown" and satisfies none |
| ApplyStatus.LabelKnownIffListed | src/Enums/ApplyStatus.php:62-86 | the label is "Unknown" exactly for statuses outside the table |
| KycStatus.Label | src/Enums/KycStatus.php:59-62 | the table label for "0" to "4", "Unknown" otherwise |
| KycStatus.PendingDecimals | src/Enums/KycStatus.php:81-84 | the pending list holds plain decimal literals |
| KycStatus.IsApproved | src/Enums/KycStatus.php:70-73 | holds exactly for the status labelled "Approved" |
| KycStatus.IsPending | src/Enums/KycStatus.php:81-84 | loose `in_array`: among plain decimals, holds exactly for "1" and "2" |
| KycStatus.IsRejected | src/Enums/KycStatus.php:92-95 | holds exactly for the status labelled "Refused" |
| KycStatus.PaddedPending | src/Enums/KycStatus.php:81-84 | the comparison is numeric: " 1" is pending although it is not a table status |
| KycStatus.Disjoint | src/Enums/KycStatus.php:70-95 | no string is in two of approved / pending / rejected, and "0" (NOT_SET) is in none |
| KycStatus.LabelKnownIffListed | src/Enums/KycStatus.php:42-62 | the label is "Unknown" exactly for statuses outside the table |
| CardStatus.Label | src/Enums/CardStatus.php:42-62 | the table label for the five statuses, "Unknown" otherwise |
| CardStatus.IsUsable | src/Enums/CardStatus.php:70-73 | holds exactly for the status labelled "Active" |
| CardStatus.CanBeActivated | src/Enums/CardStatus.php:81-84 | holds exactly for the status labelled "Inactive" |
| CardStatus.UsableNotActivatable | src/Enums/CardStatus.php:70-84 | no status is both usable and activatable, and both are table statuses |
| CardStatus.LabelKnownIffListed | src/Enums/CardStatus.php:42-62 | the label is "Unknown" exactly for statuses outside the table |
| CardLevel.Label | src/Enums/CardLevel.php:59-62 | the table label for "1" to "5", "Unknown" otherwise |
| CardLevel.ValidLevels | src/Enums/CardLevel.php:15-73 | `isValid` holds exactly for "1" to "5", each labelled "Level n"; "999" and "0" are invalid |
| CardLevel.IsValid | src/Enums/CardLevel.php:70-73 | `isValid(l)` iff `label(l) != 'Unknown'` |
| DocumentType.Label | src/Enums/DocumentType.php:41-44 | the table label for "1" and "2", "Unknown" otherwise |
| DocumentType.ValidTypes | src/Enums/DocumentType.php:15-55 | PASSPORT is "1", ID_CARD is "2", and `isValid` holds exactly for them |
| DocumentType.IsValid | src/Enums/DocumentType.php:52-55 | `isValid(t)` iff `label(t) != 'Unknown'` |
| MuseWalletErrorCodes.LookupDomain | src/Services/MuseWalletErrorCodes.php:108-202 | the table has an entry exactly for its 18 listed codes |
| MuseWalletErrorCodes.Get | src/Services/MuseWalletErrorCodes.php:210-217 | the table entry for a known code; for any other code message "Unknown Error", description "Unknown error code: " and the code, and a fixed suggestion; never fails |
| MuseWalletErrorCodes.UnknownMessageOnlyOutsideTable | src/Services/MuseWalletErrorCodes.php:108-217 | `get(c)` has message "Unknown Error" exactly when c is not a table code |
| MuseWalletErrorCodes.Message | src/Services/MuseWalletErrorCodes.php:225-228 | the message of `get(c)` |
| MuseWalletErrorCodes.Description | src/Services/MuseWalletErrorCodes.php:236-239 | the description of `get(c)` |
| MuseWalletErrorCodes.Suggestion | src/Services/MuseWalletErrorCodes.php:247-250 | the suggestion of `get(c)` |
| MuseWalletErrorCodes.SystemErrorMessage | src/Services/MuseWalletErrorCodes.php:131-135 | code "500" reads "System Error" and is not a success |
| MuseWalletErrorCodes.ClassifiedCodesInTable | src/Services/MuseWalletErrorCodes.php:108-294 | the success, retryable and user-action codes are all table codes |
| MuseWalletErrorCodes.IsSuccess | src/Services/MuseWalletErrorCodes.php:258-261 | a success code is a table code whose message is "Success" |
| MuseWalletErrorCodes.IsRetryable | src/Services/MuseWalletErrorCodes.php:269-277 | loose `in_array`: among decimal literals, holds exactly for "500" and "412" |
| MuseWalletErrorCodes.RequiresUserAction | src/Services/MuseWalletErrorCodes.php:285-294 | loose `in_array`: among decimal literals, holds exactly for "10211001", "10211027" and "202203" |
| MuseWalletErrorCodes.IsRetryableLeadingSpace | src/Services/MuseWalletErrorCodes.php:269-277 | loose `in_array` ignores a leading space: `isRetryable(" " + c)` iff `isRetryable(c)` |
| MuseWalletErrorCodes.PaddedCodeRetryable | src/Services/MuseWalletErrorCodes.php:269-277 | " 500" is retryable although it has no table entry |
| MuseWalletErrorCodes.ClassesDisjoint | src/Services/MuseWalletErrorCodes.php:258-294 | no string, however spelled, is in two of success / retryable / user-action |
| MuseWalletErrorCodes.FormatError | src/Services/MuseWalletErrorCodes.php:303-314 | echoes `code` and `additional_info` (null when absent) and takes message, description and suggestion from `get(code)`; five distinct keys |
| MuseWalletResponseFormatter.Success | src/Services/MuseWalletResponseFormatter.php:21-29 | HTTP 200 with `success` true, `code` "200", the message (default "Success") and the data |
| MuseWalletResponseFormatter.FromApiResponse | src/Services/MuseWalletResponseFormatter.php:37-53 | `success` is `isSuccess(code)`; HTTP is 200 iff success, else 400; the code is echoed as received; message, description and suggestion come from `get(code)`; `data` and `original_message` default to null; an array code is a type error |
| MuseWalletResponseFormatter.FromApiResponseMissingCode | src/Services/MuseWalletResponseFormatter.php:37-53 | a response without a code is answered with HTTP 400, code "500" and message "System Error" |
| MuseWalletResponseFormatter.Error | src/Services/MuseWalletResponseFormatter.php:64-79 | `success` false, the code, the three texts of `get(code)`, `additional_info` (null when absent), and the caller's HTTP status (default 400) |
| MuseWalletResponseFormatter.ValidationError | src/Services/MuseWalletResponseFormatter.php:87-96 | HTTP 422, `success` false, code "400", message "Validation Failed", and the errors echoed |
| MuseWalletResponseFormatter.Exception | src/Services/MuseWalletResponseFormatter.php:105-121 | HTTP 500, code "500"; the description is the exception's message only in debug mode, else "Internal server error"; `trace` is present iff debug |
| MuseWalletResponseFormatter.ErrorDetails | src/Services/MuseWalletResponseFormatter.php:135-142 | the `error_details` entry: the code as received, the three texts of `get(code)`, and the `is_retryable` and `requires_user_action` flags |
| MuseWalletResponseFormatter.EnhanceResponse | src/Services/MuseWalletResponseFormatter.php:129-144 | every original key other than `error_details` keeps its value; `error_details` is added or overwritten with the code defaulting to "500"; keys stay distinct; an array code is a type error |
| MuseWalletResponse.CodeOf | src/DataTransferObjects/MuseWalletResponse.php:28 | `code ?? '500'` coerced to a string: "500" when missing or null, the text when it is text, a type error for an array |
| MuseWalletResponse.MessageOf | src/DataTransferObjects/MuseWalletResponse.php:29 | `message ?? 'Unknown error'` coerced to a string |
| MuseWalletResponse.Field | src/DataTransferObjects/CardInfoResponse.php:50-63 | `$data[$key] ?? null` into a `?string`: null when missing, the text when it is text, a type error for an array |
| MuseWalletResponse.ReadFields | src/DataTransferObjects/CardInfoResponse.php:43-66 | reading a list of payload keys gives one value per key, each what `Field` reads, or fails exactly when one key does |
| MuseWalletResponse.ReadFieldsNoPayload | src/DataTransferObjects/CardInfoResponse.php:45 | a payload that is not an array leaves every property null |
| MuseWalletResponse.ReadRow | src/DataTransferObjects/CardInfoResponse.php:43-137 | reading keys back from an array holding each property under its key, as `toArray` writes them, gives the written values |
| MuseWalletResponse.PropertiesArray | src/DataTransferObjects/CardInfoResponse.php:117-137 | the array a derived `toArray` returns: `code`, `message`, then each property under its key (null when unset), in that order; the keys are distinct, each reads back its value, and no other key is written |
| MuseWalletResponse.FromArray | src/DataTransferObjects/MuseWalletResponse.php:25-32 | code and message with their defaults, data defaulting to null; fails exactly when code or message is an array |
| MuseWalletResponse.IsSuccessfulCode | src/DataTransferObjects/MuseWalletResponse.php:39-42 | `$this->code === '200'`; `MissingCodeNotSuccessful` and `IntegerCodeSuccessful` state its consequences for parsed bodies |
| MuseWalletResponse.IsSuccessful | src/DataTransferObjects/MuseWalletResponse.php:39-42 | the response's code is "200" |
| MuseWalletResponse.ToArray | src/DataTransferObjects/MuseWalletResponse.php:49-56 | three distinct keys echoing code, message and data |
| MuseWalletResponse.FromArrayToArray | src/DataTransferObjects/MuseWalletResponse.php:25-56 | parsing what `toArray` wrote gives back the response |
| MuseWalletResponse.ToArrayFromArray | src/DataTransferObjects/MuseWalletResponse.php:25-56 | `toArray(fromArray(r))` reproduces r's code, message and (when present) data |
| MuseWalletResponse.MissingCodeNotSuccessful | src/DataTransferObjects/MuseWalletResponse.php:28-42 | a response without a code is never successful |
| MuseWalletResponse.IntegerCodeSuccessful | src/DataTransferObjects/MuseWalletResponse.php:28-42 | an integer code 200 is coerced to "200" and counts as success |
| CardInfoResponse.FromArray | src/DataTransferObjects/CardInfoResponse.php:43-66 | the 14 properties are `Field` reads of `response['data'] ?? []` in order, code and message take their defaults, the raw payload is kept; fails exactly when one read fails |
| CardInfoResponse.FromArrayDefaults | src/DataTransferObjects/CardInfoResponse.php:43-66 | without a payload array every property is null; without a code the response is not successful |
| CardInfoResponse.ToArray | src/DataTransferObjects/CardInfoResponse.php:117-137 | distinct keys: `code` reads the code, `message` the message, and each of the 14 properties reads its value (null when unset) under the key `fromArray` reads; no other key, and no raw `data` key |
| CardInfoResponse.RoundTrip | src/DataTransferObjects/CardInfoResponse.php:43-137 | `toArray`'s code and message parse back as written, and parsing a body whose payload is `toArray`'s output gives back the same response, the raw payload aside |
| CardInfoResponse.PropertyFromPayload | src/DataTransferObjects/CardInfoResponse.php:43-66 | each property is the payload's text under its key, null when the key is missing |
| CardInfoResponse.MaskedCardNumber | src/DataTransferObjects/CardInfoResponse.php:93-100 | null iff the number is missing or shorter than 4; otherwise 8 characters: "****" and the last four of the number |
| CardInfoResponse.IsActive | src/DataTransferObjects/CardInfoResponse.php:107-110 | active exactly when the status is set and `CardStatus::isUsable` accepts it; an active card is never activatable |
| CardHolderResponse.FromArray | src/DataTransferObjects/CardHolderResponse.php:38-56 | the 9 properties are `Field` reads of the payload in order, code and message take their defaults; fails exactly when one read fails |
| CardHolderResponse.FromArrayDefaults | src/DataTransferObjects/CardHolderResponse.php:38-56 | without a payload array every property is null; without a code the response is not successful |
| CardHolderResponse.ToArray | src/DataTransferObjects/CardHolderResponse.php:93-108 | distinct keys: `code` reads the code, `message` the message, and each of the 9 properties reads its value (null when unset) under the key `fromArray` reads; no other key, and no raw `data` key |
| CardHolderResponse.RoundTrip | src/DataTransferObjects/CardHolderResponse.php:38-108 | `toArray`'s code and message parse back as written, and parsing a body whose payload is `toArray`'s output gives back the same response, the raw payload aside |
| CardHolderResponse.PropertyFromPayload | src/DataTransferObjects/CardHolderResponse.php:38-86 | each property (and so `getUserId`, `getUserXid`, `getKycStatus`) is the payload's text under its key, null when missing |
| CardApplicationResponse.FromArray | src/DataTransferObjects/CardApplicationResponse.php:34-48 | `apply_id`, `request_id`, `user_id`, `status`, `card_id` are `Field` reads of the payload, code and message take their defaults |
| CardApplicationResponse.FromArrayDefaults | src/DataTransferObjects/CardApplicationResponse.php:34-48 | without a payload array every property is null; without a code the response is not successful |
| CardApplicationResponse.ToArray | src/DataTransferObjects/CardApplicationResponse.php:95-106 | distinct keys: `code` reads the code, `message` the message, and each of the 5 properties reads its value (null when unset) under the key `fromArray` reads; no other key, and no raw `data` key |
| CardApplicationResponse.RoundTrip | src/DataTransferObjects/CardApplicationResponse.php:34-106 | `toArray`'s code and message parse back as written, and parsing a body whose payload is `toArray`'s output gives back the same response, the raw payload aside |
| CardApplicationResponse.PropertyFromPayload | src/DataTransferObjects/CardApplicationResponse.php:34-88 | each property (and so each getter) is the payload's text under its key, null when missing |
| PartnerBalanceResponse.FromArray | src/DataTransferObjects/PartnerBalanceResponse.php:34-48 | `currency`, `balance`, `availableBalance`, `freezeBalance`, `pendingSettleBalance` are `Field` reads of the payload, code and message take their defaults |
| PartnerBalanceResponse.FromArrayDefaults | src/DataTransferObjects/PartnerBalanceResponse.php:34-48 | without a payload array every property is null; without a code the response is not successful |
| PartnerBalanceResponse.ToArray | src/DataTransferObjects/PartnerBalanceResponse.php:85-96 | distinct keys: `code` reads the code, `message` the message, and each of the 5 properties reads its value (null when unset) under the key `fromArray` reads; no other key, and no raw `data` key |
| PartnerBalanceResponse.RoundTrip | src/DataTransferObjects/PartnerBalanceResponse.php:34-96 | `toArray`'s code and message parse back as written, and parsing a body whose payload is `toArray`'s output gives back the same response, the raw payload aside |
| PartnerBalanceResponse.PropertyFromPayload | src/DataTransferObjects/PartnerBalanceResponse.php:34-48 | each property is the payload's text under its key, null when missing |
| PartnerBalanceResponse.SuccessfulBalance | src/DataTransferObjects/PartnerBalanceResponse.php:34-48 | a code "200" body with a balance gives a successful response holding that balance |
| TopUpResponse.FromArray | src/DataTransferObjects/TopUpResponse.php:36-52 | the 7 properties are `Field` reads of the payload, code and message take their defaults |
| TopUpResponse.FromArrayDefaults | src/DataTransferObjects/TopUpResponse.php:36-52 | without a payload array every property is null; without a code the response is not successful |
| TopUpResponse.ToArray | src/DataTransferObjects/TopUpResponse.php:79-92 | distinct keys: `code` reads the code, `message` the message, and each of the 7 properties reads its value (null when unset) under the key `fromArray` reads; no other key, and no raw `data` key |
| TopUpResponse.RoundTrip | src/DataTransferObjects/TopUpResponse.php:36-92 | `toArray`'s code and message parse back as written, and parsing a body whose payload is `toArray`'s output gives back the same response, the raw payload aside |
| TopUpResponse.PropertyFromPayload | src/DataTransferObjects/TopUpResponse.php:36-52 | each property is the payload's text under its key, null when missing |
| TopUpResponse.IsTopUpSuccessful | src/DataTransferObjects/TopUpResponse.php:69-72 | a success code and a status of exactly "completed" or "success"; `TopUpSuccessImpliesSuccess` states its consequences |
| TopUpResponse.TopUpSuccessImpliesSuccess | src/DataTransferObjects/TopUpResponse.php:69-72 | a successful top-up has a success code; a pending or missing status is never a successful top-up |
| KycLinkResponse.FromArray | src/DataTransferObjects/KycLinkResponse.php:31-42 | `user_xid` and `link` are `Field` reads of the payload, code and message take their defaults |
| KycLinkResponse.FromArrayDefaults | src/DataTransferObjects/KycLinkResponse.php:31-42 | without a payload array both properties are null; without a code the response is not successful |
| KycLinkResponse.ToArray | src/DataTransferObjects/KycLinkResponse.php:69-77 | distinct keys: `code` reads the code, `message` the message, and each of `user_xid` and `link` reads its value (null when unset) under the key `fromArray` reads; no other key, and no raw `data` key |
| KycLinkResponse.RoundTrip | src/DataTransferObjects/KycLinkResponse.php:31-77 | `toArray`'s code and message parse back as written, and parsing a body whose payload is `toArray`'s output gives back the same response, the raw payload aside |
| KycLinkResponse.PropertyFromPayload | src/DataTransferObjects/KycLinkResponse.php:31-52 | each property (and so `getLink`) is the payload's text under its key, null when missing |
| KycLinkResponse.HasLink | src/DataTransferObjects/KycLinkResponse.php:59-62 | `hasLink` iff the link is set and is neither "" nor "0" |
| MuseWalletWebhookEvent.New | src/Events/MuseWalletWebhookEvent.php:28-34 | payload and signature are stored unchanged; the event type is `type`, else `event_type`, else "unknown"; an array there is a type error |
| MuseWalletWebhookEvent.GetData | src/Events/MuseWalletWebhookEvent.php:71-74 | `payload['data']`, `[]` when missing, a type error when it is not an array |
| MuseWalletWebhookEvent.DataField | src/Events/CardCreatedEvent.php:15-18 | `$this->payload['data'][$key]`: absent without a data array, otherwise the data's `??` lookup |
| MuseWalletWebhookEvent.Text | src/Events/CardCreatedEvent.php:15-18 | a getter `data[key] ?? null` into `?string`: null when missing, the text when text, a type error for an array |
| MuseWalletWebhookEvent.TextOr | src/Events/TopUpCompletedEvent.php:15-18 | a getter with a fallback key reads the fallback only when the first key is missing or null |
| MuseWalletWebhookEvent.NoDataNoText | src/Events/CardActivatedEvent.php:15-38 | without a data array every getter is null |
| MuseWalletWebhookEvent.IntegerFieldAsText | src/Events/KycApprovedEvent.php:35-38 | an integer field reads as its decimal text |
| CardCreatedEvent.GettersReadData | src/Events/CardCreatedEvent.php:15-38 | `getCardId`, `getUserId`, `getCardStatus` read `card_id`, `user_id`, `status` of the data, null when missing |
| CardCreatedEvent.NoDataAllNull | src/Events/CardCreatedEvent.php:15-38 | every getter is null without a data array |
| CardActivatedEvent.GettersReadData | src/Events/CardActivatedEvent.php:15-38 | `getCardId`, `getUserId`, `getActivatedAt` read their data fields, null when missing |
| CardActivatedEvent.NoDataAllNull | src/Events/CardActivatedEvent.php:15-38 | every getter is null without a data array |
| CardBlockedEvent.GettersReadData | src/Events/CardBlockedEvent.php:15-48 | `getCardId`, `getUserId`, `getBlockReason` (only `reason`, no fallback), `getBlockedAt` read their data fields, null when missing |
| CardBlockedEvent.NoDataAllNull | src/Events/CardBlockedEvent.php:15-48 | every getter is null without a data array |
| KycApprovedEvent.GettersReadData | src/Events/KycApprovedEvent.php:15-48 | `getUserId`, `getUserXid`, `getKycLevel`, `getApprovedAt` read their data fields unchanged, null when missing |
| KycApprovedEvent.NoDataAllNull | src/Events/KycApprovedEvent.php:15-48 | every getter is null without a data array |
| KycRejectedEvent.GettersReadData | src/Events/KycRejectedEvent.php:15-48 | `getRejectionReason` is `reason ?? rejection_reason ?? null`; `getUserId`, `getUserXid`, `getRejectedAt` read their data fields |
| KycRejectedEvent.NoDataAllNull | src/Events/KycRejectedEvent.php:15-48 | every getter is null without a data array |
| ApplicationRejectedEvent.GettersReadData | src/Events/ApplicationRejectedEvent.php:15-58 | `getApplicationId` is `apply_id ?? application_id ?? null`, `getRejectionReason` is `reason ?? rejection_reason ?? null`; `getRequestId`, `getUserId`, `getRejectedAt` read their data fields |
| ApplicationRejectedEvent.NoDataAllNull | src/Events/ApplicationRejectedEvent.php:15-58 | every getter is null without a data array |
| TopUpCompletedEvent.GettersReadData | src/Events/TopUpCompletedEvent.php:15-59 | `getTopUpId` is `topup_id ?? request_id ?? null`; card, user and currency read their fields; the amount is null iff `amount` is missing or null |
| TopUpCompletedEvent.NoDataAllNull | src/Events/TopUpCompletedEvent.php:15-59 | every getter, and the amount, is null without a data array |
| TransactionCompletedEvent.GettersReadData | src/Events/TransactionCompletedEvent.php:15-69 | transaction, card, user, currency and merchant name read their data fields, null when missing; the amount is null iff `amount` is missing or null |
| TransactionCompletedEvent.NoDataAllNull | src/Events/TransactionCompletedEvent.php:15-69 | every getter, and the amount, is null without a data array |
| TransactionFailedEvent.GettersReadData | src/Events/TransactionFailedEvent.php:15-59 | `getFailureReason` is `reason ?? failure_reason ?? null`; transaction, card and user read their fields; the amount is null iff `amount` is missing or null |
| TransactionFailedEvent.NoDataAllNull | src/Events/TransactionFailedEvent.php:15-59 | every getter, and the amount, is null without a data array |
| SignatureParameters.GetFieldsForEndpoint | src/Services/SignatureParameters.php:142-149 | the four common fields in order, then the endpoint's business fields (none for an unknown endpoint) |
| SignatureParameters.ShouldIncludeFieldCharacterised | src/Services/SignatureParameters.php:158-162 | a field is signed iff it is a common field or one the endpoint declares |
| SignatureParameters.UnknownEndpointSignsCommonFields | src/Services/SignatureParameters.php:142-149 | an endpoint outside the table signs exactly the four common fields |
| SignatureParameters.CommonFieldsIncluded | src/Services/SignatureParameters.php:142-149 | `partner_id`, `sign_type`, `timestamp`, `nonce` are signed for every endpoint |
| SignatureParameters.Contribution | src/Services/SignatureParameters.php:182-198 | a scalar is kept unchanged unless it is `''`; a composite becomes the JSON of its top-level-key-sorted entries, kept unless the encoding fails or is `[]`, `{}` or `null` |
| SignatureParameters.ExtractedCharacterised | src/Services/SignatureParameters.php:176-203 | the output is strictly sorted by key and, at every key, holds the contribution of a declared, set field, and nothing otherwise |
| SignatureParameters.ExtractedKeysDeclaredAndPresent | src/Services/SignatureParameters.php:176-184 | every output key is declared for the endpoint and set in the data |
| SignatureParameters.ExtractedReadsDeclaredFields | src/Services/SignatureParameters.php:176-184 | data that agree on the declared fields give the same output: undeclared fields never matter |
| SignatureParameters.FalsyScalarsKept | src/Services/SignatureParameters.php:182-198 | `0`, `'0'` and `false` are kept as they are |
| SignatureParameters.EmptyCompositeDropped | src/Services/SignatureParameters.php:187-193 | an empty array (encoded `[]`) is dropped |
| SignatureParameters.CompositeOrderIrrelevant | src/Services/SignatureParameters.php:188 | two composites with the same entries in another top-level order contribute the same string |
| SignatureParameters.Extract | src/Services/SignatureParameters.php:176-203 | the `foreach` and the final `ksort` compute the characterised output: sorted, and at each key the contribution of a declared set field |
| RequestSigning.Timestamp | src/Services/MuseWalletService.php:453 | `(string)time()` is never empty |
| RequestSigning.Stamped | src/Services/MuseWalletService.php:451-454 | `partner_id`, `sign_type` "RSA", `timestamp` and `nonce` equal to the timestamp are written over the data; every other key is unchanged |
| RequestSigning.AuthParams | src/Services/MuseWalletService.php:489-495 | the returned auth params: distinct keys among the five, the partner id, "RSA", the timestamp, `nonce` equal to it, and the signature |
| RequestSigning.AuthParamsKeys | src/Services/MuseWalletService.php:489-495 | the auth params hold exactly the five keys `partner_id`, `sign_type`, `timestamp`, `nonce`, `sign` |
| RequestSigning.SignatureRequestData | src/Services/MuseWalletService.php:448-496 | signing fails, with "Invalid private key provided", exactly when the private key does not parse, and in no other case |
| RequestSigning.SignatureParamsCharacterised | src/Services/MuseWalletService.php:451-457 | the signed pairs are strictly sorted; `sign_type` "RSA", `timestamp` and `nonce` (both the clock reading) are always signed with the service's values, `partner_id` unless it is empty; every other key carries the caller's contribution exactly when the endpoint declares it |
| RequestSigning.CallerAuthFieldsIgnored | src/Services/MuseWalletService.php:451-464 | whatever the caller puts in the four auth fields, the signed message is the same |
| RequestSigning.UndeclaredFieldUnsigned | src/Services/MuseWalletService.php:457-464 | setting a field the endpoint does not declare leaves the signed message unchanged |
| RequestSigning.PayloadCharacterised | src/Services/MuseWalletService.php:397-400 | the payload sent reads the auth params at the five auth keys and the caller's data at every other key |
| RequestSigning.PayloadAuthValues | src/Services/MuseWalletService.php:489-495 | the `nonce` and `sign` sent are the service's, whatever the caller sent |
| RequestSigning.SignedPayloadKeepsEntry | src/Services/MuseWalletService.php:397-400 | with a key that parses, the payload sent keeps the caller's entry at every key outside the five |
| RequestRetry.ErrorMessage | src/Services/MuseWalletService.php:526-543 | "API request failed with status N: " followed by the body's `message`, else its `error`, else "Unknown error" |
| RequestRetry.Classify | src/Services/MuseWalletService.php:407-423 | an attempt is caught iff the client threw or the status is not 2xx (with the `handleErrorResponse` message); a 2xx array body is returned; a 2xx non-array body escapes as a type error |
| RequestRetry.RunFrom | src/Services/MuseWalletService.php:406-436 | from attempt a, at most `retryAttempts - a` calls, one sleep fewer than calls, the j-th lasting `2^(a+j+1)`; exhausted at once when `a >= retryAttempts` |
| RequestRetry.Retried | src/Services/MuseWalletService.php:404-436 | at most `retryAttempts` calls and fewer sleeps, the j-th sleep `2^(j+1)`; no call and "… attempts: Unknown error" when `retryAttempts <= 0` |
| RequestRetry.CaughtStep | src/Services/MuseWalletService.php:423-429 | a caught attempt advances the loop by one call and at most one sleep, to the same run |
| RequestRetry.FirstUncaughtDecides | src/Services/MuseWalletService.php:406-423 | the first attempt that is not caught decides the result, after exactly that many calls |
| RequestRetry.FirstSuccessReturned | src/Services/MuseWalletService.php:406-419 | the body of the first 2xx array response is returned after k+1 calls when all earlier attempts were caught |
| RequestRetry.AllCaughtExhausts | src/Services/MuseWalletService.php:423-436 | when every attempt is caught, all calls are made and the final error quotes the last caught message |
| RequestRetry.AllFailedMessage | src/Services/MuseWalletService.php:425-436 | all-caught: `retryAttempts` calls, `retryAttempts - 1` sleeps, and "API request failed after N attempts: " with the last message |
| RequestRetry.ErrorStatusRetried | src/Services/MuseWalletService.php:417-429 | a 500 then a 200 with an array body succeeds on the second call after one 2-second sleep |
| RequestRetry.NonArrayBodyNotRetried | src/Services/MuseWalletService.php:417-418 | a 2xx body that is not an array ends the loop at once with a type error |
| MuseWallet.ProductFields | src/Services/MuseWalletService.php:122-127 | a listed product has distinct keys: the id, `ucfirst(key) . ' Card'`, the key as type, and `configured` true |
| MuseWallet.ListedProductConfigured | src/Services/MuseWalletService.php:120-129 | every listed product comes from a configured entry with a non-empty id |
| MuseWallet.CardProductsAppend | src/Services/MuseWalletService.php:120-129 | listing is compositional: configuration order is kept |
| MuseWallet.ConfiguredProductListed | src/Services/MuseWalletService.php:120-129 | every configured entry with a non-empty id is listed |
| MuseWallet.AllConfiguredListed | src/Services/MuseWalletService.php:120-129 | with every id set, one product per entry, in configuration order |
| MuseWallet.ApplyResultData | src/Services/MuseWalletService.php:178-185 | the query holds `request_id` and `user_id`, and `apply_id` iff it is given and not empty |
| MuseWallet.ApplyIdNotSigned | src/Services/MuseWalletService.php:178-187 | `apply_id` is not signed for the apply-result endpoint, so it never changes the signed message |
| MuseWallet.ApplyResultPayload | src/Services/MuseWalletService.php:397-400 | signing keeps the query's `request_id`, `user_id` and `apply_id` in the payload sent |
| MuseWallet.MuseWalletService.constructor | src/Services/MuseWalletService.php:55-65 | each setting is the configured value or its default (base URL, "" , "", 30, 3, false, false, true) |
| MuseWallet.MuseWalletService.GetCardProducts | src/Services/MuseWalletService.php:114-132 | the `foreach` returns exactly the listed products |
| MuseWallet.MuseWalletService.GenerateSignatureRequestData | src/Services/MuseWalletService.php:448-496 | computes `SignatureRequestData`: the invalid-key error, or the auth params over the signature of the joined message |
| MuseWallet.MuseWalletService.JoinPairs | src/Services/MuseWalletService.php:460-464 | the `foreach` builds the `&`-join of `key=value` over the pairs in order |
| MuseWallet.MuseWalletService.RequestResult | src/Services/MuseWalletService.php:392-437 | the invalid-key error before any call, otherwise the result of the retry loop |
| MuseWallet.MuseWalletService.MakeRequest | src/Services/MuseWalletService.php:392-437 | an invalid key fails with no call and no sleep; otherwise the calls and sleeps of the retry loop, every call the same lower-cased verb, URL and merged payload |
| MuseWallet.MuseWalletService.SendWithRetries | src/Services/MuseWalletService.php:404-436 | the `while` loop computes the result, call count and sleeps of `Retried`, sending the same request each time |
| MuseWallet.MuseWalletService.QueryApplyResult | src/Services/MuseWalletService.php:176-192 | a `post` to the apply-result endpoint carrying `request_id`, `user_id` and `apply_id` when given, parsed as a card application; the request's error otherwise |
| MuseWallet.MuseWalletService.VerifyWebhookSignature | src/Services/MuseWalletService.php:505-518 | true iff testing mode, or an empty secret, or the HMAC-SHA256 of the payload's JSON under the secret equals the signature; an array secret is a type error |
| MuseWallet.MuseWalletService.ProcessWebhook | src/Services/MuseWalletService.php:312-335 | a rejected signature fails with "Invalid webhook signature" before dispatch; otherwise `{status: processed, event_type: type ?? event_type ?? 'unknown'}`, dispatching only when events and dispatch-on-webhook are on |
| MuseWallet.ForgedSignatureRejected | src/Services/MuseWalletService.php:312-317 | outside testing mode with a secret set, a wrong signature is rejected |
| MuseWallet.TestingModeAcceptsAnySignature | src/Services/MuseWalletService.php:505-509 | in testing mode any signature is accepted |
| MuseWallet.RoutedWebhookDispatched | src/Services/MuseWalletService.php:319-381 | an accepted webhook with a routed type reports that type and dispatches the event carrying payload and signature |
| MuseWallet.UnknownTypeIgnored | src/Services/MuseWalletService.php:319-374 | an accepted webhook with an unknown type is processed without error and dispatches nothing |
| MuseWallet.UntypedWebhookReportedUnknown | src/Services/MuseWalletService.php:319-346 | an accepted webhook without a type is reported as "unknown" and dispatches nothing |
| WebhookDispatch.Route | src/Services/MuseWalletService.php:346-374 | the event class of `type ?? event_type ?? ''` when the table has it, none otherwise; an array key is an error |
| WebhookDispatch.Dispatch | src/Services/MuseWalletService.php:344-381 | an event is dispatched iff the type routes, with the routed class, the payload and the signature |
| WebhookDispatch.Aliases | src/Services/MuseWalletService.php:349-370 | APPLY_AUDIT / application.approved, CARD_TOP_UP / topup.completed and CARD_BILL_TRANSACTION / transaction.completed reach the same event |
| WebhookDispatch.EveryEventRoutable | src/Services/MuseWalletService.php:349-370 | every event class is reached from some type |
| WebhookDispatch.DispatchedEventCarriesType | src/Services/MuseWalletService.php:344-381 | a routed webhook dispatches exactly one event, whose type is the routing key |
| WebhookDispatch.UntypedNotDispatched | src/Services/MuseWalletService.php:346-374 | a webhook without `type` or `event_type` dispatches nothing |

## Left out

- The cryptographic and JSON primitives are not implemented. `openssl_pkey_get_private`,
  `openssl_sign` with SHA-1 and `base64_encode` (RSASSA-PKCS1-v1_5, section 8.2 of RFC 8017),
  `json_encode`, `hash_hmac('sha256')` (RFC 2104) and `hash_equals` are fields of a
  `Primitives` value. Key validity is its `privateKeyParses` predicate. The webhook HMAC uses
  the default-flag `json_encode`, the signing path the unescaped one.
- Laravel's facades are left out:
  - the HTTP client transport becomes the `outcomes` parameter, one outcome per call;
  - `Log` is left out, and so is the logging in the constructor;
  - `Event::dispatch` becomes the event `ProcessWebhook` returns;
  - `Cache` is left out.
- `config()` reads made at call time are parameters: the webhook secret, `dispatch_on_webhook`
  and `card_products`.
- `time()` is a parameter. `sleep()` is recorded in a ghost log of durations rather than
  performed. The webhook event's `receivedAt` date is left out.
- Floating point is left out: `getBalanceFloat`, `getAvailableBalanceFloat`,
  `getFreezeBalanceFloat`, `getAmountFloat` and the events' `getAmount` conversion. Only
  whether the amount is null is modelled.
- Loose comparison of numeric strings uses exact rationals. The rounding to IEEE doubles in
  PHP's comparison is not modelled; it only matters for literals beyond double precision, and
  no code the SDK compares is one.
- `ksort` orders string keys byte-wise. PHP arrays with integer keys, and the `SORT_REGULAR`
  numeric comparison of numeric-string keys, are not modelled; the signed field names are
  words.
- Values hold no floats or objects, and arrays have string keys only.
- Each attempt's response is represented by its status and the decoded body the client would
  return, not by headers or raw text.
- CardInfoResponse.MaskedCardNumber: strings are sequences of characters, while PHP's `strlen`
  and `substr` count bytes. For a number holding a multi-byte UTF-8 character the model's length
  and last four characters differ from PHP's; ASCII numbers, the case the API sends, agree.
- PhpValue.UcFirst: works on characters, where PHP works on bytes; only ASCII letters change
  in both, so multi-byte input is not modelled byte by byte.
- PhpValue.StrToLower: works on characters, where PHP works on bytes; only ASCII letters change
  in both, so multi-byte input is not modelled byte by byte.
- The API wrappers that only forward to `makeRequest` are not modelled one by one:
  `getPartnerBalance` (its cache), `createCardHolder`, `applyCard`, `getCard`, `activateCard`,
  `topUpCard`, `uploadKyc` and `generateKycLink`. Their signing and retries are
  `MakeRequest`'s; `QueryApplyResult` shows one such wrapper in full.
- Also not modelled: `queryCardApplicationStatus`, which only throws a deprecation exception,
  and `logAction`, which only logs.
- The `mock_responses` setting is stored by the constructor, but no modelled code reads it.
- `ApplicationApprovedEvent` is an event kind without getters. Its class is not part of this
  model.
- The request validation classes (src/Http/Requests), the controller, the service provider,
  the facade, the configuration file and the exception class are framework wiring.
- The DTO getters that return a stored property are the record's fields. The `PropertyFromPayload`
  lemmas state what they return.
