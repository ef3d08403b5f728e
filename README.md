# Swarrot SQS message provider, modelled in Dafny

Swarrot's `SqsMessageProvider` hands messages from an Amazon SQS queue to a consumer.
It is built with an SQS client, a queue URL and a message cache:

- `get()` pops the cache first. On a miss it issues one `receiveMessage` with
  `QueueUrl` set to the provider's queue, `MaxNumberOfMessages = 9` and `WaitTimeSeconds = 5`.
  It answers null when SQS has nothing. Otherwise it answers a `Message` built from the first entry.
- `ack(message)` issues `deleteMessage` for the message's receipt handle.
- `nack(message, requeue = false)` issues `changeMessageVisibility` with timeout 0 when
  `requeue` is true. Otherwise it issues nothing, and the message reappears once its
  visibility timeout lapses.

The model is built from what tests/Swarrot/Broker/MessageProvider/SqsMessageProviderTest.php
asserts. Where the test is silent (a response of several entries), the model assumes the
usual prefetch: it answers the first entry and pushes the rest to the cache in the order received.

Files:

- `message.dfy` (module `Broker`): `Message`, raw response entries and their translation into messages.
- `message_cache.dfy` (module `Driver`): `PrefetchMessageCache`, a class whose FIFO `seq` field `push` and `pop` update in place.
- `sqs_backend.dfy` (module `SqsBackend`): the SQS calls as values, with the fixed parameters 9, 5 and 0.
- `sqs_message_provider.dfy` (module `MessageProvider`): the specification functions `GetEffect`,
  `AckCalls` and `NackCalls`, lemmas about them, and the class `SqsMessageProvider`.
  Its methods are proved against those functions. A ghost field `calls` records every SQS call issued.
- `consumption.dfy` (module `Consumption`): sequences of get/ack/nack operations and what they deliver,
  cache and issue. Lemmas cover conservation of messages, deletion only through ack,
  requeue only through nack, the queue URL on every call, and draining the cache.
- `scenarios.dfy` (module `Scenarios`): each test case except `testInstance` as a method on a fresh provider
  for queue `"foo"`, plus `PrefetchThree` for a three-entry response, and `GetThenAck`, which runs
  `Get` and then `Ack` on the class and shows the outcome is that of `Consumption.Run`.

The SQS client is not modelled. What `receiveMessage` would answer is passed to `Get` as an
`Option<seq<RawEntry>>`: `None` for a null response, `Some([])` for no messages.

## Model

| member | source | states |
|---|---|---|
| Broker.Translate | tests/Swarrot/Broker/MessageProvider/SqsMessageProviderTest.php:57-62 | one message per raw entry, in order; message i has entry i's `Body` as body and its `ReceiptHandle` as id |
| Broker.EntryRoundTrip | tests/Swarrot/Broker/MessageProvider/SqsMessageProviderTest.php:57-62 | a message built from `{Body, ReceiptHandle}` has that handle as id and that body, and converting it back gives the same entry |
| Driver.PrefetchMessageCache.constructor | tests/Swarrot/Broker/MessageProvider/SqsMessageProviderTest.php:52 | a new prefetch cache is empty |
| Driver.PrefetchMessageCache.Holding | tests/Swarrot/Broker/MessageProvider/SqsMessageProviderTest.php:101-102 | a cache that already holds messages when it is handed to a provider |
| Driver.PrefetchMessageCache.Push | tests/Swarrot/Broker/MessageProvider/SqsMessageProviderTest.php:106 | push appends the message at the tail |
| Driver.PrefetchMessageCache.Pop | tests/Swarrot/Broker/MessageProvider/SqsMessageProviderTest.php:79 | pop on an empty cache gives none and leaves it empty; otherwise it removes and gives the head; the popped message followed by the rest equals the old contents |
| MessageProvider.GetWithCache | tests/Swarrot/Broker/MessageProvider/SqsMessageProviderTest.php:97-108 | on a cache hit, get answers the cached head, issues no receive, pushes nothing and fetches nothing, whatever SQS holds |
| MessageProvider.GetReceivesOnMiss | tests/Swarrot/Broker/MessageProvider/SqsMessageProviderTest.php:67-71 | on a miss, get issues exactly one receive: this queue, 9 messages, 5 seconds (the same call is expected at lines 87-91) |
| MessageProvider.GetWithNoResult | tests/Swarrot/Broker/MessageProvider/SqsMessageProviderTest.php:77-85 | a miss answered by a null or empty response gives no message and leaves the cache empty |
| MessageProvider.GetWithOneEntry | tests/Swarrot/Broker/MessageProvider/SqsMessageProviderTest.php:50-65 | a miss answered by one entry gives a message with that handle and body and leaves the cache empty |
| MessageProvider.GetPrefetches | tests/Swarrot/Broker/MessageProvider/SqsMessageProviderTest.php:57-62 | assumed prefetch, not exercised by the test: a miss answered by K entries answers the first and caches the other K-1 in the order received |
| MessageProvider.GetConserves | tests/Swarrot/Broker/MessageProvider/SqsMessageProviderTest.php:97-108 | get loses and invents no message: the answer followed by the new cache equals the old cache followed by what was fetched |
| MessageProvider.AckDeletes | tests/Swarrot/Broker/MessageProvider/SqsMessageProviderTest.php:110-121 | ack issues exactly one delete, on this queue, for the message's id, and no visibility change |
| MessageProvider.NackNeverDeletes | tests/Swarrot/Broker/MessageProvider/SqsMessageProviderTest.php:123-147 | nack with requeue issues exactly one visibility change to 0 for the message's id; without requeue it issues nothing; it never deletes |
| MessageProvider.SqsMessageProvider.constructor | tests/Swarrot/Broker/MessageProvider/SqsMessageProviderTest.php:36 | the provider binds the given queue URL and cache, has issued no call and leaves the cache untouched |
| MessageProvider.SqsMessageProvider.Get | tests/Swarrot/Broker/MessageProvider/SqsMessageProviderTest.php:50-108 | the answer, the cache's new contents and the calls appended to the log are those of `GetEffect` on the old cache contents |
| MessageProvider.SqsMessageProvider.Ack | tests/Swarrot/Broker/MessageProvider/SqsMessageProviderTest.php:110-121 | appends exactly `AckCalls` (one delete) to the log and leaves the cache unchanged |
| MessageProvider.SqsMessageProvider.Nack | tests/Swarrot/Broker/MessageProvider/SqsMessageProviderTest.php:123-147 | appends exactly `NackCalls` to the log, with `requeue` false by default, and leaves the cache unchanged |
| Consumption.RunConserves | tests/Swarrot/Broker/MessageProvider/SqsMessageProviderTest.php:97-108 | over any sequence of operations, the messages delivered followed by those still cached equal the initial cache followed by everything fetched from SQS |
| Consumption.DeletesAreAcks | tests/Swarrot/Broker/MessageProvider/SqsMessageProviderTest.php:110-147 | over any sequence of operations, the receipt handles deleted are exactly the ids acked, in order; get and nack never delete |
| Consumption.RequeuesAreNacks | tests/Swarrot/Broker/MessageProvider/SqsMessageProviderTest.php:123-147 | over any sequence of operations, the handles made visible again are exactly the ids nacked with requeue, in order |
| Consumption.CallsUseQueue | tests/Swarrot/Broker/MessageProvider/SqsMessageProviderTest.php:36 | every call issued by any sequence of operations carries the queue URL given at construction (`'foo'`, checked at lines 68, 116 and 129) |
| Consumption.DrainCache | tests/Swarrot/Broker/MessageProvider/SqsMessageProviderTest.php:97-108 | k gets on a cache holding at least k messages issue no call, deliver its first k messages in order and leave the rest cached |
| Consumption.PrefetchServesLaterGets | tests/Swarrot/Broker/MessageProvider/SqsMessageProviderTest.php:50-72 | assumed prefetch, not exercised by the test: after one receive of K entries, the next K-1 gets are served from the cache in the order received, with no further call |
| Scenarios.GetWithNoCache | tests/Swarrot/Broker/MessageProvider/SqsMessageProviderTest.php:50-72 | real empty cache, response `[{Body, bar}]`: get answers a message with id `bar`, after exactly one receive `('foo', 9, 5)`, and the cache stays empty |
| Scenarios.GetWithNoResult | tests/Swarrot/Broker/MessageProvider/SqsMessageProviderTest.php:77-92 | empty cache and a null or empty response: get answers none, after exactly one receive `('foo', 9, 5)` |
| Scenarios.GetWithCache | tests/Swarrot/Broker/MessageProvider/SqsMessageProviderTest.php:97-108 | a cache holding a message: get answers it, issues no call and pushes nothing |
| Scenarios.Ack | tests/Swarrot/Broker/MessageProvider/SqsMessageProviderTest.php:110-121 | ack of a message with id `123` issues exactly `deleteMessage('foo', '123')` |
| Scenarios.NackWithRequeue | tests/Swarrot/Broker/MessageProvider/SqsMessageProviderTest.php:123-136 | nack with requeue of id `123` issues exactly `changeMessageVisibility('foo', '123', 0)` and no delete |
| Scenarios.NackWithoutRequeue | tests/Swarrot/Broker/MessageProvider/SqsMessageProviderTest.php:138-147 | nack with the default requeue issues no call at all |
| Scenarios.PrefetchThree | tests/Swarrot/Broker/MessageProvider/SqsMessageProviderTest.php:50-72 | assumed prefetch, not exercised by the test: a response of three entries is answered over three gets in the order received, with one receive in all |
| Scenarios.GetThenAck | tests/Swarrot/Broker/MessageProvider/SqsMessageProviderTest.php:50-121 | `Get` then `Ack` on a provider whose cache holds any messages delivers, leaves cached and issues exactly what `Consumption.Run` gives for the same two operations, so the `Consumption` lemmas hold of the class |

## Left out

- The SQS client (`SqsClient`), the Guzzle `Model` response and its `get('Messages')` lookup: foreign library types. A response is an optional sequence of `{Body, ReceiptHandle}` entries passed to `Get`.
- Prophecy mocks and `shouldBeCalled`/`shouldNotBeCalled`: replaced by the ghost call log `calls`, compared exactly.
- Network behaviour, long polling, authentication, retries, and errors raised by SQS (unknown handle, unreachable backend): I/O with no model here. An SQS failure would propagate unchanged to the caller.
- The no-op cache variant and the cache's key by queue name (the test's `pop(Argument::any())` passes one argument): the test shows neither, so the model has one FIFO cache per provider.
- Message body serialisation, and message properties beyond the empty map a received message gets.
- `testInstance` (lines 42-45): a check of the PHP interface type, which has no counterpart here.
- Ordering for a response of several entries: the test never returns more than one entry. The FIFO order proved in `GetPrefetches`, `PrefetchServesLaterGets` and `PrefetchThree` is the assumed prefetch order, not something this test asserts.
- Concurrency: the provider and its cache are meant for one consumer at a time. Sharing a cache between providers is not modelled.
