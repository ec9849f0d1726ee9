# A model of the kraken.py REST client

`kraken.py` defines `class Api`, a small client for the Kraken exchange's
REST API. This project models its local logic and proves properties of it:
- the argument checks and parameter maps of the private endpoint wrappers
  (`add_order`, `get_closed_orders`, `query_orders_info`,
  `get_trades_history`, `query_trades_info`, `get_open_positions`,
  `get_ledgers_infos`, `get_trade_volume`);
- the per-pair polling cursors of `get_ohlc_data`, `get_recent_spread_data`
  and `get_recent_trades`;
- the two dispatchers `send_api_request` and `send_private_api_request`,
  which check the response envelope, inject the nonce and load the key
  lazily;
- the request signature computed by `_sign`.

Layout, one module per file:

- `wrappers.dfy` (`Wrappers`): `Option` and `Result`.
- `pyvalues.dfy` (`PyValues`): the Python values the client handles.
  - A request-dictionary `Value`; `None` is `Null`.
  - The decoded JSON reply, `Json`.
  - The exceptions that can leave a method, `Error`.
  - `str(n)` (`IntToString`) and `int(s)` (`ParseInt`, `ToInt`), with their round trip.
- `txids.dfy` (`Txids`): `str.split(",")` and its inverse `Join`. The txid
  limit is stated both ways: as a segment count and as a comma count.
- `signing.dfy` (`Signing`): `_sign`.
  - SHA-256, HMAC-SHA512 (RFC 2104), base64 (section 4 of RFC 4648), UTF-8
    and `urllib.parse.urlencode` are function-valued fields of a
    `Primitives` record, so any behaviour of them is allowed.
  - The model fixes only which inputs reach which step, and in which order.
  - The signature lemmas assume only properties the real routines have:
    - UTF-8 and base64 encoding are injective;
    - a SHA-256 digest is 32 bytes long;
    - an HMAC-SHA512 digest is 64 bytes long.
  - `SamplePrimitivesWellBehaved` shows that these assumptions can be met.
  - Neither digest is injective, so each lemma's conclusion names the
    collision that would be needed for two signatures to coincide:
    - different paths give different signatures unless HMAC collides on the
      two messages;
    - different signed texts give different signatures unless HMAC collides
      on the two messages or SHA-256 collides on the two texts.
  - A secret with a non-ASCII character raises ValueError before any
    decoding, as `base64.b64decode` does for a text argument.
- `dispatch.dfy` (`Dispatch`): the outbound request (`Get` or `Post`), the
  envelope check (`Normalize`), `load_key` and `send_private_api_request`
  (`PrivateDispatch`), as functions of the prior credentials, the clock
  reading, the key file's contents and the decoded reply.
- `facade.dfy` (`Facade`): each private wrapper's checks and parameter map, as a function
  returning `Failure(error)` when the wrapper raises before sending.
- `cursors.dfy` (`Cursors`): the three polling operations as functions of
  the cursor table before the call, returning the outcome, the request sent
  and the table after the call.
- `kraken.dfy` (`Kraken`): `class Api`.
  - Its fields are the three cursor maps and the two credentials; the methods update them in place.
  - Each method's postcondition equates its results and new state with the specification function above.

Where the source behaves oddly, the model follows the code as written:
- `add_order`'s order-type list lacks a comma, so it accepts
  "stop-loss-profit-limitstop-loss-limit" and neither of the two names
  meant (`OrderTypesAsWritten`).
- `get_closed_orders` compares `start` with `""`, so its default `None`
  arguments put `start` and `end` holding `None` into the request
  dictionary, and so into the signed text (`ClosedOrdersDefaultsSendRange`).
- `get_ledgers_infos` puts the builtin `type` under "type2" and never
  uses its `type2` argument (`LedgersParams`).
- A `since` of 0 with a stored cursor of 0 makes the polling methods call
  themselves forever; this is modelled as `RecursionError`.
- Two envelope details follow the code, not a description of the protocol
  in which the dispatcher returns `result` and a missing `result` is its
  own error kind:
  - the envelope check returns the whole decoded reply, not its `result`;
  - a missing `result` raises `APIError` with the reply's `error` field.

## Model

| member | source | states |
|---|---|---|
| PyValues.NatToDecimal | kraken.py:65 | the decimal text `str(n)` of a natural number is non-empty and all digits |
| PyValues.DecimalRoundTrip | kraken.py:65-66 | reading back the digits of `n` gives `n` |
| PyValues.ParseDigits | kraken.py:66 | `int()` of a run of digits is its decimal value |
| PyValues.ParseNegatedDigits | kraken.py:66 | `int()` of "-" followed by digits is the negated decimal value |
| PyValues.ParseIntToString | kraken.py:65-66 | `int(str(n)) == n` for every integer `n` |
| PyValues.IntToStringInjective | kraken.py:383 | distinct integers have distinct `str()` texts |
| PyValues.Index | kraken.py:327 | `j[key]` succeeds iff `j` is a dict holding `key` and then returns that entry; otherwise it raises KeyError(key) or TypeError |
| PyValues.ToIntOfDecimalText | kraken.py:66 | a `last` cursor sent as decimal text is read back exactly by `int()` |
| Txids.Split | kraken.py:222 | `txid.split(",")` has at least one segment and no segment contains a comma |
| Txids.SplitLength | kraken.py:222 | the number of segments is the number of commas plus one |
| Txids.JoinSplit | kraken.py:222 | joining the segments with commas gives back the txid string |
| Txids.SplitNoComma | kraken.py:222 | a comma-free string splits into itself alone |
| Txids.SplitAfterComma | kraken.py:222 | splitting `p + "," + t` with `p` comma-free gives `p`, then the segments of `t` |
| Txids.SplitJoin | kraken.py:222 | splitting a comma-joined list of comma-free ids gives back the list |
| Txids.TooManyTxidsIffCommas | kraken.py:222 | more than 20 segments iff at least 20 commas |
| Txids.TooManyTxidsOfJoin | kraken.py:222 | a joined list of comma-free ids is refused iff it has more than 20 ids |
| Signing.DecodeSecret | kraken.py:386 | `base64.b64decode(secret)` succeeds iff the secret is ASCII and decodes; a non-ASCII secret raises ValueError, an undecodable ASCII one binascii.Error |
| Signing.Sign | kraken.py:372-389 | succeeds iff the map holds "nonce" and the secret is ASCII and base64-decodes; then the result is b64encode(HMAC-SHA512(decoded secret, path bytes ++ SHA-256(str(nonce) ++ urlencode(data)))); otherwise, in this order, KeyError("nonce"), ValueError for a non-ASCII secret, or binascii.Error |
| Signing.SignatureBinds | kraken.py:383-389 | with well-behaved primitives, equal signatures mean either an HMAC collision on the two messages, or equal paths together with equal signed texts or a SHA-256 collision on the two texts' bytes |
| Signing.SignSeparatesTexts | kraken.py:380-389 | with well-behaved primitives, two requests to one path whose signed texts (nonce text followed by encoded body) differ carry different signatures, unless HMAC collides on their messages or SHA-256 collides on their texts |
| Signing.SignSeparatesBodies | kraken.py:380-389 | with well-behaved primitives, the same nonce with differently encoded bodies gives different signatures, unless HMAC collides on the messages or SHA-256 collides on the texts |
| Signing.SignSeparatesPaths | kraken.py:384-389 | with well-behaved primitives, different URL paths give different signatures unless HMAC collides on the two messages; no SHA-256 assumption is needed |
| Signing.SamplePrimitivesWellBehaved | kraken.py:380-387 | one concrete choice of the routines meets the assumptions of the signature lemmas: a three-byte-per-code-point text encoding, a constant 32-byte digest, a constant 64-byte HMAC, and one character per byte |
| Dispatch.Normalize | kraken.py:326-328 | the decoded reply is returned unchanged iff it is a dict whose `error` is `[]` and which has `result`; a dict with another `error` raises APIError(error); a missing `error` raises KeyError; a non-dict raises TypeError |
| Dispatch.PrivateDispatch | kraken.py:333-389 | the key file is read iff key or secret is empty, and it replaces both; a missing file raises its Exception and changes nothing; an empty line raises the "No api key" Exception after replacing both; a request is handed to the client iff both credentials are non-empty and the secret is ASCII and decodes, and otherwise the secret's decoding error (ValueError or binascii.Error) is raised; the form map is the caller's map plus "nonce", is the map signed, and carries the key; the outcome is the envelope check of the reply |
| Dispatch.LoadKey | kraken.py:355-364 | a missing file raises its Exception and leaves the credentials alone; otherwise both stripped lines replace key and secret, and the "No api key or no private key" Exception is raised iff one of them is empty |
| Dispatch.PrivateCall | kraken.py:221-228 | a wrapper whose local checks refuse raises their error, sends nothing and leaves the credentials alone; otherwise it dispatches its map |
| Dispatch.SignedNonceIsPostedNonce | kraken.py:339-343 | the text signed starts with `str()` of the very nonce the posted body carries |
| Facade.OrderTypesAsWritten | kraken.py:120-122 | the order-type list has 11 entries, rejects "stop-loss-profit-limit" and "stop-loss-limit", and accepts their concatenation |
| Facade.AddOrderData | kraken.py:127-150 | the `add_order` map always holds pair, type, ordertype and volume with their arguments, and has no key outside the twelve documented ones (never leverage, starttm or expiretm) |
| Facade.AddOrderDataOptional | kraken.py:132-150 | each of price, price2, oflags, userref, validate, close[ordertype], close[price] and close[price2] is present iff its argument is not None, and then holds it |
| Facade.AddOrderParams | kraken.py:118-150 | refused iff the side is not buy/sell, the order type is not in the list, or flags are given outside the flag list; each refusal raises its own message, checked in source order; an accepted call yields the `add_order` map |
| Facade.WithRange | kraken.py:203-208 | refused with "Start is set whereas end is not." iff a start is given without an end |
| Facade.WithRangeEntries | kraken.py:203-208 | an accepted range without a start leaves the map as it was; with a start it adds exactly start and end and changes nothing else |
| Facade.ClosedOrdersParams | kraken.py:203-205 | `get_closed_orders` refuses iff `start != ""` and `end == ""` |
| Facade.ClosedOrdersParamsKeys | kraken.py:200-210 | an accepted map holds trades, ofs and closetime, plus start and end when `start != ""`, plus userref iff it is not None |
| Facade.ClosedOrdersDefaultsSendRange | kraken.py:196-208 | with the default `start = end = None` the call is accepted and its request dictionary (the map that is signed) holds start and end, both None |
| Facade.TradesHistoryParams | kraken.py:237-245 | refused iff start is given without end, raising APIError("Start is set whereas end is not."); the map holds trades, ofs and type, plus start and end exactly when start is given |
| Facade.LedgersParams | kraken.py:278-287 | refused iff start is given without end, raising APIError("Start is set whereas end is not."); the map holds aclass, asset, ofs and the builtin `type` under "type2", plus start and end exactly when start is given |
| Facade.CheckTxids | kraken.py:222-223 | the txid guard raises "Too much transactions in txid (>20)." iff the list has more than 20 segments, i.e. at least 20 commas |
| Facade.QueryOrdersParams | kraken.py:222-226 | refused iff at least 20 commas, raising APIError("Too much transactions in txid (>20)."); otherwise the map is txid and trades, plus userref iff it is not None |
| Facade.QueryTradesParams | kraken.py:255-258 | refused iff at least 20 commas, raising APIError("Too much transactions in txid (>20)."); otherwise the map is exactly txid and trades |
| Facade.OpenPositionsParams | kraken.py:266-269 | refused iff at least 20 commas, raising APIError("Too much transactions in txid (>20)."); otherwise the map is exactly txid and docalcs |
| Facade.TwentyTxidsPass | kraken.py:222-223 | a comma-joined list of comma-free ids passes the guard iff it has at most 20 ids |
| Facade.TradeVolumeParams | kraken.py:310-314 | pair and fee-info are each present iff their argument is not None, and nothing else is |
| Cursors.InitialCursors | kraken.py:18-20 | every known pair starts at cursor 1, and no other pair has an entry |
| Cursors.Respond | kraken.py:65-67 | after a request, the pair's cursor becomes `int(result["last"])` only when the envelope and `last` are good, and the outcome is `result[pair]`; envelope and `last` errors are raised |
| Cursors.SincePoll | kraken.py:56-83 | an unknown pair with since 0 raises KeyError; an effective cursor of 0 gives RecursionError and sends nothing; otherwise a request is sent carrying `since = str(effective cursor)`, and the outcome and new table are those of `Respond` (`r["result"][pair]` after storing `last`); only the pair's entry can change, and only to the reply's `last` |
| Cursors.TradesPoll | kraken.py:85-101 | an unknown pair raises KeyError; an effective cursor of 0 gives RecursionError and sends nothing; otherwise the request always carries the pair and carries `since` iff the stored cursor is not 1, and the outcome and new table are those of `Respond`; only the pair's entry can change, and only to the reply's `last` |
| Cursors.SinceZeroUsesStoredCursor | kraken.py:61-63 | a call with since 0 is the call with the stored cursor |
| Cursors.TradesZeroUsesStoredCursor | kraken.py:89-91 | a trades call with i 0 is the call with the stored cursor |
| Cursors.NextPollResumesFromLast | kraken.py:61-66 | after a reply whose `last` is n, the next call with since 0 asks for data since n |
| Cursors.NextTradesPollResumesFromLast | kraken.py:89-98 | after a reply whose `last` is n (not 1), the next trades call with i 0 asks for data since n |
| Kraken.Api.constructor | kraken.py:12-23 | the three cursor tables start at 1 for every known pair, and key and secret start empty |
| Kraken.Api.SendApiRequest | kraken.py:322-331 | hands the client a GET of the path with the map as query, and returns the envelope check of the reply |
| Kraken.Api.SendPrivateApiRequest | kraken.py:333-353 | outcome, request and new credentials are those of `PrivateDispatch` |
| Kraken.Api.GetOhlcData | kraken.py:56-69 | outcome, request and new OHLC table are those of `SincePoll` on the old table |
| Kraken.Api.GetRecentSpreadData | kraken.py:71-83 | outcome, request and new spread table are those of `SincePoll` on the old table |
| Kraken.Api.GetRecentTrades | kraken.py:85-101 | outcome, request and new trades table are those of `TradesPoll` on the old table |
| Kraken.Api.AddOrder | kraken.py:112-155 | a refused order raises before any key load or request; otherwise the `add_order` map is dispatched |
| Kraken.Api.GetClosedOrders | kraken.py:196-215 | the result is `PrivateCall` of `ClosedOrdersParams`: a refused range raises before anything is sent |
| Kraken.Api.QueryOrdersInfo | kraken.py:217-231 | the result is `PrivateCall` of `QueryOrdersParams` |
| Kraken.Api.GetTradesHistory | kraken.py:233-250 | the result is `PrivateCall` of `TradesHistoryParams` |
| Kraken.Api.QueryTradesInfo | kraken.py:252-261 | the result is `PrivateCall` of `QueryTradesParams` |
| Kraken.Api.GetOpenPositions | kraken.py:263-272 | the result is `PrivateCall` of `OpenPositionsParams` |
| Kraken.Api.GetLedgersInfos | kraken.py:274-292 | the result is `PrivateCall` of `LedgersParams` |
| Kraken.Api.GetTradeVolume | kraken.py:306-319 | the result is the dispatch of `TradeVolumeParams` |

## Left out

- The HTTP transport and the JSON decoder (`requests.Session`, `.get`, `.post`, `.json()`): the decoded reply is a method argument, and a transport failure is not modelled.
- The `r != ""` and `r == ""` checks in both dispatchers compare a response object and a dict with a string. "Empty answer." can therefore never be raised, and the model has no such outcome.
- Reading `datas/pairs`: the known pairs are a constructor argument.
- `load_key`'s file access: the file is an argument that is either absent or its two stripped lines.
- The nonce clock `int(1000*time.time())`: the nonce is an argument. No monotonicity is claimed, since the clock does not guarantee one.
- SHA-256, HMAC-SHA512, base64, UTF-8 encoding and `urlencode` are uninterpreted functions. The signature lemmas assume only `WellBehaved` of them. SHA-256 and HMAC-SHA512 collisions are not excluded but named in the conclusions, because no fixed-length digest can be injective.
- Signing.SignSeparatesTexts: the model does not prove that two different nonces give different signatures. `urlencode` is uninterpreted, so `str(n1) + urlencode(body1)` can equal `str(n2) + urlencode(body2)`. Only different signed texts are shown to separate, and the signed text starts with the posted nonce (`SignedNonceIsPostedNonce`).
- `urlencode` is applied to an unordered map: the insertion order of Python dicts, and therefore the order of the encoded fields, is not modelled.
- The HTTP client drops the entries holding `None` from a GET query or a POST form before encoding them, while `urlencode` in `_sign` writes them as "None". A `Request` is the dictionary handed to the client: a map with `Null` entries is signed with them but posted without them, so with `get_closed_orders`' defaults the signed text holds "start=None&end=None" that the posted body lacks. The client's filtering and the byte-level request are not modelled.
- `send_private_api_request` adds "nonce" to the caller's own dict in place. The model returns the posted map instead, so aliasing of the caller's dict is not modelled.
- AddOrder: the conditional insertions at kraken.py:132-150 are modelled by the `AddOrderData` function, not statement by statement: the method dispatches that map.
- `Error` has no exception chaining. Every wrapper's `raise APIError(e.value)` re-raises the same value, so it is left out. `get_recent_trades` raises `APIError(e)`, wrapping the exception object itself; the model keeps the inner error value. Each re-entry of `get_recent_trades` with `i == 0` adds one more such wrapping layer in the source, so `TradesZeroUsesStoredCursor` holds there only up to that nesting depth of the raised exception.
- PyValues.ParseInt: only ASCII digits are accepted. Python's `int()` also accepts surrounding whitespace, digit-separating underscores, and the decimal digits of every Unicode script (fullwidth "１２" reads as 12); `ParseInt` refuses all of these as a ValueError.
- PyValues.Json: floats are not modelled, and JSON numbers are integers only.
- The `since` and `i` cursor arguments are integers; other Python types for them are not modelled.
- Other endpoints are not part of this model: `get_book`, `get_server_time`, `get_ticker_information`, `get_pairs`, `cancel_order`, `get_account_balance` and `get_trade_balance`.
- Endpoints with broken code paths are not part of this model:
  - `query_ledgers` reads an undefined `txid`, so it fails on every call;
  - `close` lacks `self`, so it fails on every call;
  - `get_open_orders` posts `{"trades": trades}` and returns the reply when `userref` is None; when `userref` is given it writes to an undefined `data` after the request has gone out and raises NameError.
- `print` calls, `server_time` and the never-read `last_update_book` table are left out.
