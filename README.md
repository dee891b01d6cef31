# Message relay: a Dafny model

A model of the message relay in `index.ts`. Clients register. A client
publishes either directly to another client's id or to a topic channel (a
name containing `/`). Clients subscribe to topics and pull new messages by
polling with a timestamp cursor (`since`).

The three SQLite tables become fields of one `Store` class:

- `clients` is a `map<string, ClientRow>` from id to secret and `last_seen`.
- `subscriptions` is a `map<SubKey, int>` from the composite key `(client_id, channel)` to `last_polled`.
- `messages` is a `seq<Message>` in insertion order.

The four HTTP handlers are methods of `Store` that change these fields. The
authenticated caller id, the clock reading (`Date.now()`) and the generated
UUIDs are parameters of those methods. A generated id comes with a `requires`
that it is not yet in use.

The read-only SQL queries are functions in module `Queries`:

- the topic test `channel.includes("/")`;
- the `COUNT(*)` fan-out;
- the poll `SELECT`.

Lemmas about these functions state the properties the relay relies on:

- subscribe is idempotent;
- `deliveredTo` counts distinct subscribers;
- poll filtering reads the subscription keys but never the `last_polled` or `last_seen` stamps;
- a late subscriber still receives older topic messages.

Module `Scenarios` replays the end-to-end scenarios of `index.test.ts` against the store.

Facts about the code that the model keeps:

- The poll query (index.ts:123-128) has no `ORDER BY`, so the query itself leaves the row order unspecified and the model claims no timestamp ordering. The model returns the visible rows in insertion order: `PollFilterInLogOrder` proves that its result is the subsequence of the log at the visible positions.
- A message's timestamp is whatever `Date.now()` returned when it was published (index.ts:91). No ordering between the timestamps of different messages is assumed.
- Registering an id that is already present violates the primary key of `clients` (index.ts:11), so `Register` requires a fresh id.
- No handler in `index.ts` reads the `secret` column. It is stored at registration and nothing else.

The `Readers` lemma records a property of the code as written. A poll returns a
direct message to any client subscribed to the addressee's id, because
subscribe accepts any channel string. So `deliveredTo == 1` on a direct publish
is not a bound on who can read the message.

## Model

| member | source | states |
|---|---|---|
| `Queries.IsTopic` | index.ts:81 | a target is a topic exactly when some character of it is `/`, and a direct client id otherwise |
| `Queries.RowCountIsClientCount` | index.ts:94-96 | the number of subscription rows on a channel equals the number of distinct clients subscribed to it, since `(client_id, channel)` is the primary key |
| `Queries.DeliveredTo` | index.ts:93-97 | `deliveredTo` is 1 for a direct target whatever the subscriptions are; for a topic it is the number of distinct clients subscribed to exactly that channel |
| `Queries.SubscriberCount` | index.ts:94-96 | the `COUNT(*)` of subscription rows on exactly the channel: never more than the table's row count, and zero exactly when no row names that channel |
| `Queries.SubscribedChannels` | index.ts:126-128 | a channel is in the caller's subscribed set exactly when a `(caller, channel)` subscription row exists |
| `Queries.PollFilter` | index.ts:121-130 | a message is returned exactly when it is in the log, its timestamp is strictly greater than `since`, and its channel is the caller's id or one of the caller's subscribed channels; no more rows than the log holds |
| `Queries.VisiblePositions` | index.ts:124-128 | the positions of the log rows that pass the poll filter: each such position once, in strictly increasing order, and no other position |
| `Queries.PollFilterInLogOrder` | index.ts:121-130 | the poll result is the subsequence of the log at the visible positions, so it lists the visible rows in log order |
| `Queries.PollFilterIgnoresLastPolled` | index.ts:121-133 | two subscription tables with the same keys give the same poll result for every client and cursor, whatever their `last_polled` values are |
| `Queries.Readers` | index.ts:123-128 | a row newer than the cursor reaches a reader exactly when the reader is the addressee or holds a subscription on that exact channel |
| `RelayStore.AfterSubscribe` | index.ts:107-110 | the insert-or-ignore adds the key `(client, channel)` and no other; every existing row keeps its `last_polled`; a new row gets `last_polled = now` |
| `RelayStore.SubscribeIdempotent` | index.ts:107-110 | a second subscribe to the same pair changes nothing, and the row keeps the `last_polled` of the first |
| `RelayStore.SubscribeAddsChannel` | index.ts:107-110 | subscribe adds the channel to the caller's subscribed set and leaves every other client's set unchanged |
| `RelayStore.SubscribeCountsOnce` | index.ts:107-110 | a new subscription raises that topic's fan-out count by exactly one, a repeated one by zero, and no other channel's count changes |
| `RelayStore.LateSubscriberReceives` | index.ts:121-130 | a client that subscribes after a topic message was published receives it on its next poll if it is newer than the cursor |
| `RelayStore.Store.constructor` | index.ts:9-29 | a new database has three empty tables and satisfies the table invariants |
| `RelayStore.Store.Register` | index.ts:64-71 | register adds exactly one client row with the fresh id and secret and `last_seen = now`, returns the pair, and changes no subscription or message; ids and secrets stay unique |
| `RelayStore.Store.Publish` | index.ts:77-99 | publish fails with `RecipientNotFound` exactly when the target is direct and unregistered, and then changes nothing; otherwise it appends one message (given channel, caller as sender, content, `timestamp = now`, parent or none) and reports the id and `DeliveredTo`; clients and subscriptions never change; every direct message keeps naming a registered client |
| `RelayStore.Store.Subscribe` | index.ts:105-111 | the subscription table becomes the insert-or-ignore of `(client, channel, now)`, and clients and messages are unchanged |
| `RelayStore.Store.Poll` | index.ts:118-134 | poll returns the filter of the log and subscriptions from before the call, with a missing or non-numeric `since` read as 0; it then sets the caller's `last_seen` and the `last_polled` of each of the caller's subscriptions to `now`, leaves every other row and every message alone, and adds or removes no key |
| `Scenarios.DirectDelivery` | index.test.ts:22-39 | after two registrations and a direct publish of "hello", the publish reports one recipient and the addressee's poll contains the message from the sender |
| `Scenarios.TopicDelivery` | index.test.ts:74-98 | after a subscription to a topic and a publish of "update" there, the publish reports one recipient and the subscriber's poll contains it |
| `Scenarios.TopicNotForOthers` | index.ts:123-128 | after one client subscribes to a topic and another publishes there, a client that is neither subscribed to the topic nor its addressee polls and gets no rows at all |
| `Scenarios.UnknownRecipient` | index.ts:81-86 | publishing to an unregistered direct id returns `RecipientNotFound`, and a later poll by any client from any cursor returns nothing |
| `Scenarios.RepeatedPoll` | index.ts:121-133 | two polls by the same client with the same cursor and nothing in between return the same rows, although the first poll stamped the cursors |

## Left out

- HTTP routing, the JSON request and response helpers, the fallback route and the global 500 handler are transport plumbing.
- JWT issuing and verification is a foreign library. The caller id that `verify` recovers is a parameter of each method. Register does not return a token.
- `crypto.randomUUID` and `Date.now()` are parameters (fresh ids, `now`). Randomness and the clock are not modelled.
- SQLite setup, the WAL pragma and the `ALTER TABLE` migration are storage configuration.
- Malformed request bodies are not modelled. Examples are a missing `channel`, which makes `channel.includes` throw, and a non-string `content`. The fields are typed strings in the model.
- Concurrency between handlers and storage isolation are not modelled. Each method runs atomically.
- The shared-secret `/incoming` endpoint that the test suite exercises is not part of `index.ts`, so it is not part of this model. The `secret` column is stored but never checked.
- RelayStore.Store.Poll: the cursor is an `Option<int>`. Fractional and infinite values that `Number(...)` can produce from the query string are not modelled; only absent or non-numeric (0) and integer cursors are.
