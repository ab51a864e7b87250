# Fast-withdrawal server: withdrawal bookkeeping

This project models how the fast-withdrawal server's `index.js` handles withdrawal requests. The server lets a user who pays on a layer-2 chain ("Thunder" or "BitNames") receive a mainchain payout. This is a model of that bookkeeping, not of the whole service.

- `POST /withdraw` runs a fixed sequence of checks on the request body and on the mainchain node's replies:
  1. missing fields;
  2. string types;
  3. NaN;
  4. positivity;
  5. the limit of a tenth of the balance;
  6. address validity;
  7. the chain-name whitelist.

  A request that passes all of them mints two addresses and builds a record with the fixed fee of 1000 sats. The record is tagged with the hash of its fields and pushed onto the in-memory `withdrawalRequests` array.
- `POST /paid` checks `hash` and `txid`. It finds the first record with that hash and writes `txid` and `paid_at` into it in place, then requests the payout.

The model follows the code as written:
- Nothing is a state field.
- No duplicate hash is rejected.
- The payment verification never stops a payout. The verifiers are `async`, so `!verify(...)` negates a Promise, and that is always false.
- A second `/paid` with the same hash pays out again.

Nothing in the code keeps a state, rejects a duplicate hash or limits a record to one payout. `RepeatedPaidPaysEachTime` and `PayoutWhateverVerification` state that behaviour.

Layout:
- `wrappers.dfy`: `Option`.
- `js.dfy`: the JavaScript semantics the handlers rely on. It covers the values a JSON body can hold, truthiness, `Number.parseFloat` (with its string reading left as a parameter) and `Array.prototype.join`.
- `records.dfy`: the record, the fee constant, the chain whitelist, the trace of calls to the mainchain node, and the invariant of stored records.
- `withdraw.dfy`: the `/withdraw` handler as a pure function, with its properties.
- `paid.dfy`: the `/paid` handler as a pure function on the store, with `find` as `FirstMatch`, and its properties.
- `server.dfy`: the `WithdrawalServer` class and a few other members.
  - The class holds `withdrawalRequests` as a `seq` field. Its `Withdraw` method appends. Its `Paid` method looks up a record and writes `txid` and then `paid_at` into it in place.
  - `Run` and `Payouts` fold sequences of requests, with lemmas about them.
  - A client method replays the double-payout scenario.

How external effects are represented:
- Every awaited call is an input. These are the balance, the `validateaddress` answer (`isvalid`, `error`), the generated layer-2 and layer-1 addresses, the `sendtoaddress` reply and the two clock readings.
- A call that throws is `None`. The handler's promise then rejects, and the model records it as `Threw`, or on `/paid` as an absent payout txid.
- Each result also carries the list of calls the handler issued, in order.
- The hash is an uninterpreted `Digest` of the record's fields.
- Amounts and balances are exact reals, and the limit is `amount > balance * 0.1`.

## Model

| member | source | states |
|---|---|---|
| `Js.JoinOffset` | index.js:165 | each part of `parts.join(sep)` stands, unchanged, at the returned offset of the joined text |
| `Js.JoinOffsetNext` | index.js:165 | each part starts exactly one separator length after the previous part ends |
| `Js.JoinSeparates` | index.js:165 | between consecutive parts of the joined text stands exactly the separator |
| `WithdrawHandler.MissingFields` | index.js:152-162 | a field is listed iff it is falsy, each at most once, in the order destination, amount, chain name |
| `WithdrawHandler.Handle` | index.js:149-256 | a stored record passed every check, including a `validateaddress` answer reporting the address valid, is well formed (known chain, fee 1000, positive amount, hash of its fields), is unpaid, carries the body's destination and chain name, the parsed amount, the replied addresses and timestamp, and follows exactly the calls balance, validate, L2 address, L1 address; a failed local check rejects with no call |
| `WithdrawHandler.MissingFieldsRejectFirst` | index.js:152-167 | any falsy field rejects with the list of falsy fields before any ledger call; the number 0 is reported as missing |
| `WithdrawHandler.MissingMessageListsFields` | index.js:163-166 | the error text is the fixed prefix followed by every missing key, in order, with ", " between consecutive keys and nothing after the last |
| `Js.JoinLength` | index.js:165 | the joined text ends exactly where its last part ends |
| `WithdrawHandler.MissingMessageLength` | index.js:152-166 | the message's length is the prefix, the lengths of the missing keys (22, 17, 18) and ", " between each two of them |
| `WithdrawHandler.MessageDeterminesFields` | index.js:152-166 | two missing-field rejections with the same message miss exactly the same fields |
| `Js.JoinSize` | index.js:165 | the joined text is as long as all parts together plus one separator between each two |
| `WithdrawHandler.AllMissingMessage` | index.js:152-166 | an empty body reports all three keys, in order |
| `WithdrawHandler.CheckOrder` | index.js:169-189 | with all fields present: non-string destination or chain name, else an amount reading as NaN, else an amount ≤ 0 decides the error, each iff its condition holds and the earlier checks passed, with no ledger call |
| `WithdrawHandler.ZeroTextIsNotPositive` | index.js:157-189 | the text "0" is present and is rejected as not positive, not as missing |
| `WithdrawHandler.LimitBoundary` | index.js:191-198 | past the local checks, a throwing balance call stores nothing; the limit rejects iff amount > balance × 0.1, with the limit in the error |
| `WithdrawHandler.TenthOfBalanceIsStored` | index.js:191-256 | for any positive balance, an amount of exactly a tenth of it is stored, with that amount and fee 1000 |
| `WithdrawHandler.AddressRejection` | index.js:200-205 | past the limit, the address check rejects iff `isvalid` is false, after exactly the balance and validate calls; the reason carries the ledger's `error` iff a non-empty one was supplied, and then it is that text |
| `WithdrawHandler.AddressMessage` | index.js:203 | the address message starts with the fixed text and extends past it iff the ledger supplied error text, which then ends the message |
| `WithdrawHandler.UnknownChainRejected` | index.js:208-213 | a chain name other than Thunder and BitNames is rejected only after the balance and address calls, and before any address is minted |
| `WithdrawHandler.StoredWhenAllPass` | index.js:208-256 | when every check passes and both addresses are minted, the request is stored whatever its hash: there is no duplicate check |
| `WithdrawHandler.ScenarioRequest` | index.js:235-256 | balance 1,000,000 and 50,000 on Thunder: stored, unpaid, fee 1000, amount 50,000 |
| `PaidHandler.FirstMatch` | index.js:284 | the result is the least index whose record has the hash, or none when no record has it |
| `PaidHandler.Handle` | index.js:266-324 | rejects iff hash or txid is falsy or not a string or no record has the hash, leaving the store unchanged and issuing no call; otherwise only the first match is replaced by itself stamped with txid and paid_at, and the one call is the payout of its destination and amount |
| `PaidHandler.Rejections` | index.js:269-289 | the three rejections in the handler's order, each leaving the store unchanged with no call; not-found iff no record has the hash |
| `PaidHandler.OnlyFirstMatchStamped` | index.js:284-321 | when some record has the hash, the stamped one is the first; a later record with the same hash is untouched, and only txid and paid_at of the stamped one change |
| `PaidHandler.FirstMatchIgnoresStamps` | index.js:284 | stamping keeps every hash, so the next find returns the same index |
| `PaidHandler.PayoutWhateverVerification` | index.js:291-324 | on a store of well-formed records the verification branch never answers, the payout is requested anyway, and the store stays well formed |
| `PaidHandler.RepeatPaysAgain` | index.js:284-324 | a second identical `/paid` stamps the same record again, with the new paid_at, and requests the same payout again |
| `Server.WithdrawalServer.constructor` | index.js:121 | the store starts empty |
| `Server.WithdrawalServer.Withdraw` | index.js:149-256 | the result is the handler's, the store keeps its invariant, and it gains exactly the stored record at the end, or nothing |
| `Server.WithdrawalServer.Paid` | index.js:266-324 | the in-place update gives exactly the store, outcome and calls of the `/paid` handler, keeps the invariant, and never takes the chain-name branch |
| `Server.RunAppendOnly` | index.js:121-321 | across any sequence of requests no record is removed and no record's fields or hash change |
| `Server.RunKeepsWellFormed` | index.js:209-256 | across any sequence of requests every stored record keeps a known chain name, fee 1000, a positive amount and its hash |
| `Server.RepeatedPaidPaysEachTime` | index.js:284-324 | replaying a successful `/paid` n times requests n payouts |
| `Server.ScenarioDoublePayout` | index.js:235-324 | a stored 50,000 request on Thunder, paid twice through the class, requests the payout (bc1q, 50,000) both times |

## Left out

- HTTP transport is not modelled. This covers Express routing, JSON body parsing, status codes, response objects, the error middleware, the `/` and `/balance` routes and `startServer` (index.js:124-146, 333-357). Each response is reduced to a result datatype.
- What the server does after an awaited call throws is not modelled. The handler's promise rejects. Under Express 4 that is an unhandled rejection: the client gets no response, and on Node 15 and later the process exits, losing `withdrawalRequests`. Under Express 5 the error middleware (index.js:334-337) answers 500. The source pins neither version. `Run` carries on with the store intact after a `Threw`.
- The second `res.json` after the "Invalid L2 chain name" answer is not modelled. It would fail with headers already sent. The model keeps only the flag `chainNotice` and the payout, since the source falls through to the payout either way.
- `utils/bitcoin-rpc.js`, `utils/thunder-cli.js`, `utils/bitnames-cli.js` and `config.js` are not part of this model: they are network, process and filesystem I/O and startup configuration. Their results are method inputs, and a thrown error is `None`. In this repository's `config.js`, `config.bitnames` has no `rpcUrl`. So `execBitnamesCli` always throws (utils/bitnames-cli.js:5-6), and every BitNames `/withdraw` really ends as `Threw(NewL2Address("BitNames"))`. The model leaves the layer-2 address reply as a free input, which covers this case and the case where an `rpcUrl` is configured.
- SHA-256 over `JSON.stringify` is an uninterpreted `Digest` of the record's fields, because it is a foreign library call. `new Date().toISOString()` is an input string for the same reason.
- `Number.parseFloat` reading a string is the parameter `parseText`. Its prefix-parsing rules are not modelled. A parsed `Infinity` is not representable; it would fail the limit check.
- `balance.info * 0.1` is computed exactly, so IEEE rounding at the limit is not modelled.
- The limit's rendering in the error text (`toString`) is the parameter `show`.
- The addresses are opaque strings. The source stores the RPC wrapper object `{ info }`.
- The `server_l2_address == ""` check (index.js:225) is not modelled. It compares a wrapper object and never fires.
- `verifyThunderPayment` and `verifyBitNamesPayment` are not modelled as calls. They are stubs with no effect that resolve to true, and they receive the undefined `request.amount`. Only their effect on control flow (none) is modelled.
- Interleaving of concurrent requests across `await` points is not modelled. Each request is handled to completion before the next.
- Console logging (index.js:17, 70, 255 and others) is left out: it has no effect on the store.
