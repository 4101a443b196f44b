# Product notification functions — a Dafny model

The repository is a set of Firebase Cloud Functions that send push
notifications about products: one when a product document is created
(`sendProductNotification`), one when a product's stock drops to the
low-stock threshold (`checkLowStock`), a callable endpoint that sends a
caller-supplied notification to a topic or to device tokens
(`sendCustomNotification`), and a daily sweep that deletes device tokens a
silent probe can no longer reach (`cleanupInvalidTokens`).

This project models the decision rules under those SDK calls as pure
functions. Every external effect is an input to the model:

- the token list read from the `user_tokens` collection;
- what the transport reports for a send: `Ok(DispatchResult(successCount, failureCount))` or `Err(message)`;
- whether the `notifications_history` write succeeded;
- the outcome of each probe in the sweep.

Each handler returns a record of what it did: whether it read the tokens,
the send it issued, the history write it issued (whether or not the store
accepted it), and the value it resolved with or the error it raised.

Modules:

- `Base` (base.dfy): `Option` and JavaScript string truthiness.
- `Decimal` (decimal.dfy): `String(n)` for integral `n`, with the parser that inverts it.
- `LowStock` (low_stock.dfy): the threshold-crossing guard and facts about histories of stock levels.
- `Messages` (messages.dfy): products, messages and message composition.
- `Delivery` (delivery.dfy): the transport's inputs (targets, delivery options) and results.
- `Reactive` (reactive.dfy): the product-created and product-updated handlers.
- `CustomSend` (custom_send.dfy): the callable endpoint.
- `Cleanup` (cleanup.dfy): the token sweep.

Two behaviours of the code that are easy to misread:

- Missing target. The `invalid-argument` error for a custom send with neither a topic nor tokens is thrown inside the `try` (functions/index.js:137). The `catch` at functions/index.js:145-147 re-raises it as `internal` with message `Tokens o tópico requeridos`, so that is what the caller receives, and what the model returns.
- History write. The `add` to `notifications_history` (functions/index.js:49-56) is inside the `try`, so a failed write is logged and the handler returns null. The model takes the write's outcome as an input and does the same.

## Model

| member | source | states |
|---|---|---|
| LowStock.GuardIsDownwardCrossing | functions/index.js:73 | The update guard holds exactly when the stock goes from above 10 to at or below 10, and it implies the stock decreased |
| LowStock.NoIncreaseFires | functions/index.js:73 | An update that does not lower the stock never passes the guard |
| LowStock.NoConsecutiveFirings | functions/index.js:73 | Of two consecutive updates a→b→c, at most one passes the guard |
| LowStock.FiringsAlternateWithRecoveries | functions/index.js:73 | Along any stock history, the guard's firings and the recoveries above the threshold alternate: their counts differ only by whether the history starts and ends above the threshold |
| LowStock.AtMostOneFiringPerRecovery | functions/index.js:73 | The alert fires at most once more than the stock has recovered above 10, and no more often than it recovered when the history starts low |
| Decimal.NatToString | functions/index.js:90 | Decimal rendering is non-empty, all digits, and has no leading zero |
| Decimal.IntToString | functions/index.js:90 | `String(n)` for an integer below 10^21 in magnitude starts with a minus sign exactly for negative integers |
| Decimal.NatRoundTrip | functions/index.js:90 | Reading back the digits of any natural number yields that number |
| Decimal.IntRoundTrip | functions/index.js:90 | Parsing the decimal rendering yields `n` for every integer, so the `stock` field loses nothing |
| Decimal.IntToStringInjective | functions/index.js:90 | Different stock levels give different `stock` strings |
| Messages.ComposeCreated | functions/index.js:27-37 | The product-created message has the fixed title, a body that yields the product name when the fixed prefix is removed, and data of exactly `type = product_created`, `productId` and `productName` |
| Messages.ComposeLowStock | functions/index.js:82-92 | The low-stock message has the fixed title, a body whose figure after the name is exactly the `stock` string and reads back to the new stock, and data of exactly `type = low_stock`, `productId` and `stock = String(newStock)`, which parses back to the new stock |
| Messages.CreatedAndLowStockDistinct | functions/index.js:29-33 | The two reactive messages differ in title and in their `type` tag |
| Reactive.OnProductCreated | functions/index.js:11-62 | Sends once, to all tokens, with high priority and a 24-hour TTL, exactly when tokens exist. Issues the history write, copying the message and the response's counts unchanged, exactly when that send resolves. Returns the response only when the store accepts that write |
| Reactive.OnStockUpdate | functions/index.js:68-106 | Reads tokens only when the guard holds. Sends the low-stock message with high priority and no TTL exactly when the guard holds and tokens exist. Never writes history. Returns the response exactly when the send resolves |
| Reactive.NoTokensNoEffect | functions/index.js:21-24 | With an empty token list neither handler sends, records or returns anything |
| Reactive.SendErrorLeavesNoTrace | functions/index.js:59-62 | A send that throws leaves no history entry, and each handler returns null |
| Reactive.ConsecutiveUpdatesAlertOnce | functions/index.js:73-80 | Of two consecutive updates of one product, at most one sends a low-stock alert |
| CustomSend.Route | functions/index.js:130-138 | A truthy topic routes to that topic. Otherwise a non-empty token list routes to those tokens. Otherwise there is no route |
| CustomSend.RequestMessage | functions/index.js:122-125 | The title and body pass through verbatim, and `data` is the caller's map or the empty map when absent |
| CustomSend.SendCustomNotification | functions/index.js:110-149 | A falsy title or body raises `invalid-argument` before any send. A send happens exactly when content and a route exist. Success returns `success: true` with the counts passed through. A missing route and a transport error both raise `internal`, carrying the underlying message |
| CustomSend.InvalidArgumentOnlyForContent | functions/index.js:118-120 | The caller sees `invalid-argument` exactly when title or body is falsy, always with the missing-content message |
| CustomSend.TopicTakesPrecedence | functions/index.js:130-132 | With content and a truthy topic, the send goes to the topic even when tokens are supplied |
| CustomSend.MissingTargetIsInternal | functions/index.js:133-147 | Without a truthy topic and with absent or empty tokens, the call raises `internal` with message `Tokens o tópico requeridos` and sends nothing |
| CustomSend.SuccessFlagAlwaysSet | functions/index.js:140-144 | Every successful reply carries `success: true` and follows a send |
| Cleanup.FailedRefs | functions/index.js:162-176 | The deleted references are all of, and only, the documents whose probe failed, one entry per failed probe |
| Cleanup.SweepPartitions | functions/index.js:162-176 | Deleted and kept references together are exactly the scanned documents, as a multiset |
| Cleanup.DeletedIffProbeFailed | functions/index.js:171-175 | With distinct document references, a document is deleted exactly when its probe failed, so documents whose probe succeeded are untouched |
| Cleanup.Sweep | functions/index.js:155-180 | Probes every token in order with the silent `ping` payload. Then commits the batch of failed documents exactly once, as the last step, even when the batch is empty. Reports the number of failed probes, which is the batch size, as the deleted count |

## Left out

- Firebase SDK initialisation, the Firestore reads, writes and batch objects, and `serverTimestamp`. These are I/O: token lists, write outcomes and probe outcomes are inputs, and the creation time is the `ServerTimestamp` placeholder.
- A failed read of `user_tokens`. It happens outside the `try` blocks and rejects the handler's promise. The model assumes the read succeeds.
- The messaging transport (`sendToDevice`, `sendToTopic`, `send`). Only its outcome is an input, and only its options are recorded. The model assumes a topic send reports success and failure counts like a device send. The real shape of the topic response belongs to the messaging library and is not part of this model.
- JavaScript values beyond the modelled types. Title, body and topic are optional strings; a non-string value such as `0` is not modelled. `tokens` is an optional list of strings, `data` an optional string map, and stock an integer. Fractional and non-numeric stock are not modelled.
- The 24-hour schedule of the sweep, all `console.log` and `console.error` output, and the commented-out authentication check. These are platform wiring and logging.
- Concurrency between invocations and at-least-once redelivery of triggers. These belong to the host platform, and the code does nothing about them.
- CustomSend.SendCustomNotification: a null or undefined payload is not modelled. The destructuring at functions/index.js:116 runs before the check at line 118 and outside the `try`, so such a call rejects with a `TypeError` instead of `invalid-argument`. `Request` always stands for an object.
- CustomSend.InvalidArgumentOnlyForContent: holds for every object payload. A null or undefined payload throws at functions/index.js:116 before validation and is not modelled.
- Reactive.OnProductCreated: assumes the product document has a string `name`. A missing `name` would interpolate `undefined` into the body at functions/index.js:30 and leave `productName` undefined at line 35; the model types `Product.name` as a string.
- Cleanup.Sweep: assumes every token document has a string `token` field. A document without one would be probed with an undefined token at functions/index.js:163-170; the model types `TokenDoc.token` as a string.
- Decimal.IntToString: writes every integer out in full digits. JavaScript's `String` switches to exponent form at a magnitude of 10^21, and stock, a double, holds integers exactly only up to 2^53. The model assumes the stock is a safe integer, well below both bounds.
