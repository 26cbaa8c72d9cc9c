# Insight client core, modelled in Dafny

This project models the deterministic core of a JavaScript client for the Insight
blockchain-explorer API (a litecore-lib based Litecoin client):

- `lib/insight.js`: how the `Insight` constructor settles on its server URL and
  network; the argument checks and the request each operation forms
  (`getTransaction`, `getUtxos`, `broadcast`, `address`, `getBlocks`,
  `getBlock`); and how each response callback turns the transport's reply into
  an error argument or a result.
- `lib/models/addressinfo.js`: the `AddressInfo` value object (its argument
  checks, re-wrapping of an existing instance, construct-once properties) and
  `AddressInfo.fromInsight`, which parses and renames an Insight address payload.

Files and modules:

- `wrappers.dfy` (`Wrappers`): Option and Result.
- `decimal.dfy` (`Decimal`): `String(n)` for integral numbers and its reader.
- `litecore_types.dfy` (`LitecoreTypes`): networks, addresses, transactions and
  unspent outputs, reduced to what the client observes of them.
- `js.dfy` (`Js`): JavaScript values, truthiness, `||`, property reads (which
  throw a TypeError on undefined and null), `String(v)`, `join(',')` and
  `split(',')`, and `_.map` with an iteratee that may throw.
- `litecore.dfy` (`Litecore`): the `Env` record of collaborators whose code is not
  part of this model (`Networks.get`, `new Address`, `UnspentOutput`,
  `transaction.serialize`, `JSUtil.isHexa`, `JSON.parse`). Each is an arbitrary
  function, so every property holds whatever they do.
- `addressinfo.dfy` (`AddressInfoModel`): the AddressInfo datatype, its validity
  predicate, construction and `fromInsight`.
- `insight.dfy` (`InsightClient`): the `Insight` class (constant `url`,
  `network` and the collaborators), the request-forming members, the
  query-string reader used to state what `address` sends, the confirmation
  filter, and one function per response callback.

The HTTP transport is an input: an operation yields the `Request` it would send,
and each callback is a function of the `Reply` the transport produced
(`TransportError(failure)` or `Received(statusCode, body)`). A callback ends as a
`Completion`: `Fails(fault)` is `callback(fault)`, `Delivers(result)` is
`callback(null, result)`, and `Throws(error)` is an exception escaping the
response handler, so the caller's callback is never called.

Three behaviours of the code worth knowing:

- When filtering or mapping unspent outputs throws anything other than
  InvalidArgument, the exception is caught and ignored. The handler falls
  through to `callback(null, unspent)` with the unmapped server body (see
  Findings).
- `broadcast` delivers `body.txid`, which is `undefined` when a truthy body has
  no `txid`. The result is `null` only when the body is falsy.
- The AddressInfo amounts are only checked to be numbers, so negative amounts
  are accepted.

## Model

| member | source | states |
|---|---|---|
| `InsightClient.Insight.constructor` | lib/insight.js:24-42 | The fields the constructor fixes are exactly the configuration `Configure` describes: the default network's server, a named network's public server, or the URL verbatim. |
| `InsightClient.DefaultClient` | lib/insight.js:25-27 | With both arguments falsy, the client is the default network's, with that network's public URL. |
| `InsightClient.NamedNetworkClient` | lib/insight.js:28-35 | A truthy first argument naming a network fixes that network. The URL is `https://insight.litecore.io` for livenet and `https://testnet.litecore.io` for any other network, and the second argument is ignored. |
| `InsightClient.ExplicitUrlClient` | lib/insight.js:36-39 | Otherwise the URL is kept verbatim. The network is the one the second argument names, else the default network. |
| `InsightClient.CheckId` | lib/insight.js:57-58 | An id passes exactly when it is a string of length 64; anything else is an InvalidArgument. |
| `InsightClient.IdHexNotChecked` | lib/insight.js:57-58 | The check is on length only: 64 non-hex characters pass. |
| `InsightClient.Insight.Endpoint` | lib/insight.js:266 | A request URL is the server URL's string form followed by the path. |
| `InsightClient.Insight.RequestGet` | lib/insight.js:277-284 | A GET goes to the server URL followed by the path. |
| `InsightClient.Insight.RequestPost` | lib/insight.js:261-269 | A POST sends the data as JSON to the server URL followed by the path. |
| `InsightClient.Insight.GetTransaction` | lib/insight.js:55-60 | Succeeds exactly for 64-character strings, with a GET of `url + '/api/tx/' + txid`; any other argument is an InvalidArgument before any request. |
| `InsightClient.Insight.GetBlock` | lib/insight.js:239-244 | Succeeds exactly for 64-character strings, with a GET of `url + '/api/block/' + blockhash`; any other argument is an InvalidArgument. |
| `InsightClient.Insight.GetBlocks` | lib/insight.js:215-218 | A GET of `url + '/api/blocks/'`. |
| `InsightClient.Insight.Broadcast` | lib/insight.js:139-147 | A value that is neither hex nor a transaction is an InvalidArgument. A transaction is sent serialized, and a refused serialization escapes. A hex string is sent as `rawtx` unchanged, in a POST to `/api/tx/send`. |
| `InsightClient.Insight.GetAddress` | lib/insight.js:167-188 | Undefined or null params throw a TypeError. It succeeds exactly when `new Address` accepts `params.address` (or `params` when that is undefined). The URL is `url + '/api/addr/' + address`, followed by a query string that reads back as exactly the qualifying `from`/`to` bounds, and nothing follows when neither qualifies. |
| `InsightClient.Insight.QueryString` | lib/insight.js:177-186 | The query string is empty exactly when neither bound qualifies. `from` qualifies when it is a number ≥ 0 and `to` when it is a number > 0, so `to = 0` is dropped. Otherwise it is `?` followed by `&from=n` and then `&to=m`, each present only when its bound qualifies, and it reads back as exactly those bounds (the reader also accepts leading zeros, so the contract fixes the bounds, not how the numerals are spelled). |
| `InsightClient.Insight.GetUtxos` | lib/insight.js:81-108 | Undefined or null params throw a TypeError. The addresses are `params.addresses \|\| params.address` when either is defined, else `params`, with a non-array wrapped in a list. It succeeds exactly when every one parses, and otherwise fails with the error of the first refused address. `minconf` defaults to 0. It posts `addrs` as the comma-join of the parsed addresses' strings, in input order. |
| `InsightClient.AddrsRoundTrip` | lib/insight.js:105-108 | The `addrs` body splits back into the address strings in order (none of which holds a comma); for no addresses it is empty. |
| `InsightClient.KeepConfirmed` | lib/insight.js:114 | The filter keeps only records with `confirmations >= minconf`, as many as there are, as a subsequence in server order, never more than the input. |
| `InsightClient.KeepConfirmedIsUnique` | lib/insight.js:114 | Any subsequence of the server records holding only confirmed records, and as many as there are, is the filter's result: the filter keeps exactly those records in server order. |
| `InsightClient.DefaultMinConfNeedsNumericConfirmations` | lib/insight.js:92-96 | With the default `minconf` of 0, only records whose `confirmations` is a number are kept (the model compares numbers only; see Left out). |
| `InsightClient.KeepConfirmedSample` | lib/insight.js:114 | Confirmations 0, 1, 2, 3 with `minconf` 2 keep the last two records, in order. |
| `InsightClient.UnspentOutputs` | lib/insight.js:113-115 | A body that is not an array, or one with an undefined or null record, throws a TypeError. Otherwise the result is `_.map` with `UnspentOutput` over the kept records, and a success holds those records mapped in order. |
| `InsightClient.UnspentOutputsOfRecords` | lib/insight.js:113-115 | For an array with no undefined or null record, the call succeeds exactly when `UnspentOutput` accepts every kept record. A failure is the error from the first refused record. |
| `InsightClient.Rejection` | lib/insight.js:61-62 | A call fails exactly when the transport failed or the status is not 200. The error argument is the transport error when there is one, else the response object or the body, as the operation chooses. |
| `InsightClient.ParsedReply` | lib/insight.js:60-67 | For getTransaction, getBlocks and getBlock, a failure passes `err \|\| res`. A 200 reply delivers exactly the parsed body, and an unparsable body throws a SyntaxError out of the callback. |
| `InsightClient.UtxoReplyAsWritten` | lib/insight.js:109-125 | Failures pass `err \|\| res`. A 200 reply whose filtering or mapping raises InvalidArgument passes that InvalidArgument to the callback. Any other exception is never thrown: the callback delivers the raw body. |
| `InsightClient.UtxoReply` | lib/insight.js:109-125 | The corrected callback. A 200 reply whose records all map is delivered. A delivered result is always the mapped outputs of the confirmed records, in server order, and every filtering or mapping exception is reported. |
| `InsightClient.UtxoReplyDeliversRawBody` | lib/insight.js:113-124 | For a 200 reply with body `{}`, the code as written delivers `{}` as its result, while the corrected callback reports a TypeError. |
| `InsightClient.BroadcastReply` | lib/insight.js:148-153 | A failure passes `err \|\| body`. A 200 reply delivers `body.txid` when the body is truthy and null when it is falsy. |
| `InsightClient.EmptyBodyFaultIsFalsy` | lib/insight.js:149-151 | A non-200 reply with an empty body hands the callback an empty string, which is a falsy error argument. |
| `InsightClient.AddressReply` | lib/insight.js:188-202 | A failure passes `err \|\| body`. A delivered AddressInfo is the valid one `fromInsight` builds from the body. When `fromInsight` fails on a 200 reply, a SyntaxError is passed to the callback and any other error escapes the callback as an exception. |
| `AddressInfoModel.Construct` | lib/models/addressinfo.js:10-27 | An existing instance comes back unchanged, and undefined or null throws a TypeError. Otherwise construction succeeds exactly when every argument check passes, else it is an InvalidArgument. The instance is then valid and its properties are exactly the argument's. |
| `AddressInfoModel.WithoutNewIsWithNew` | lib/models/addressinfo.js:11-13 | Calling without `new` gives the same result as calling with `new`. |
| `AddressInfoModel.RewrapIsIdentity` | lib/models/addressinfo.js:14-16 | Re-wrapping a constructed instance returns it unchanged, so re-wrapping is idempotent. |
| `AddressInfoModel.ConstructFromProperties` | lib/models/addressinfo.js:18-26 | Every valid instance is what constructing from its own properties yields, so an instance is determined by its fields. |
| `AddressInfoModel.EmptyIdsAndNegativeAmountsAccepted` | lib/models/addressinfo.js:18-24 | An empty `transactionIds` array and negative amounts are accepted: only types are checked. |
| `AddressInfoModel.FromInsight` | lib/models/addressinfo.js:29-41 | A successful result is a valid AddressInfo with no properties besides the six. |
| `AddressInfoModel.FromInsightOfString` | lib/models/addressinfo.js:30-32 | A string that does not parse is a SyntaxError and is not replaced by a default. A string whose parse is not itself a string behaves exactly as its parse. |
| `AddressInfoModel.FromInsightRenames` | lib/models/addressinfo.js:33-40 | On a non-string payload, null or undefined is a TypeError. Otherwise it succeeds exactly when `new Address(addrStr)` succeeds, the four `*Sat` amounts are numbers, `transactions` is an array and every id passes `isHexa`. Each result field is then the renamed payload field. A refusal raises the `new Address` error when the address is refused, else InvalidArgument. |
| `AddressInfoModel.FromInsightReadsOnlyInsightFields` | lib/models/addressinfo.js:33-40 | Two payloads that agree on `addrStr`, the four `*Sat` amounts and `transactions` give the same result: no other field is read. |
| `AddressInfoModel.FromInsightSample` | lib/models/addressinfo.js:29-41 | The sample payload with `balanceSat` 500 and one id gives balance 500 and that id. |

## Left out

- The HTTP transport (`request`, the `this.request` field) and the asynchronous
  callback plumbing: network I/O. A request is a value and a reply is an input.
- The `_.isFunction(callback)` checks and the `_.isString(path)` checks in
  `requestGet`/`requestPost`: in the model a callback is always a function and a
  path always a string.
- litecore-lib internals (`Networks.get` on values other than network instances,
  `new Address`, `UnspentOutput`, `serialize`, `JSUtil.isHexa`) and `JSON.parse`:
  foreign code, taken as arbitrary functions. A network instance passed to
  `Networks.get` is assumed to be a registered one and is returned as it is.
- JavaScript number semantics: NaN, infinities and fractions are not values of
  the model. `String(n)` has no exponent form for magnitudes of 10^21 and above.
- JavaScript coercion. Only number values count as numbers in `isNaN(v)`,
  `v >= 0`, `v > 0` and `task.confirmations >= minconf`. So a `from` of null
  (which JavaScript sends as `&from=null`) or a numeric string is treated as
  absent, and a comparison involving a non-number is false.
- Property reads return the object's own property or undefined. Prototype
  properties and getters are not modelled. The keys the core reads are not
  carried by strings, arrays or litecore objects.
- String length: JavaScript counts UTF-16 code units; the model counts characters.
- AddressInfoModel.Construct: the instance shares the argument's `transactionIds`
  array and `Address` object. `defineImmutable` freezes the property bindings, not
  the array, so a holder can still change the ids in place and break the `isHexa`
  check afterwards. The model takes the ids as an immutable sequence, so validity
  is promised only as of construction in the program.

## Findings

| source | as written | input that shows it | evidently intended | confidence | as-written member | corrected member |
|---|---|---|---|---|---|---|
| lib/insight.js:113-124 | An exception other than InvalidArgument while filtering or mapping unspent outputs is caught and ignored. Control then reaches `callback(null, unspent)`, which delivers the unmapped server body as a successful result. | A 200 reply whose body is `{}`: `unspent.filter` is not a function (a TypeError). | Every exception is reported to the callback, and a delivered result is always the mapped, filtered outputs. | medium; not executed | `InsightClient.UtxoReplyAsWritten` (`InsightClient.UtxoReplyDeliversRawBody`) | `InsightClient.UtxoReply` |
