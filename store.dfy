/** The relay's database as one in-memory store, and the four request handlers
    as methods that change it. The authenticated caller id, the clock reading and
    the freshly generated ids are parameters. */
module RelayStore {
  import opened Tables
  import opened Queries

  datatype PublishError = RecipientNotFound

  /** The body of a successful publish response. */
  datatype Published = Published(id: string, deliveredTo: nat)

  /** The poll cursor: a missing `since` and one that is not a number both
      count as 0. */
  function EffectiveSince(since: Option<int>): int
  {
    match since
    case Some(t) => t
    case None => 0
  }

  /** The subscription table after `INSERT OR IGNORE` of `(client, channel, now)`. */
  function AfterSubscribe(subs: map<SubKey, int>, client: string, channel: string, now: int)
    : (r: map<SubKey, int>)
    ensures r.Keys == subs.Keys + {SubKey(client, channel)}
    ensures forall k :: k in subs ==> r[k] == subs[k]
    ensures SubKey(client, channel) !in subs ==> r[SubKey(client, channel)] == now
  {
    var k := SubKey(client, channel);
    if k in subs then subs else subs[k := now]
  }

  /** Subscribing twice is subscribing once: the second insert is ignored and the
      row keeps the `last_polled` of the first. */
  lemma SubscribeIdempotent(subs: map<SubKey, int>, client: string, channel: string, t1: int, t2: int)
    ensures AfterSubscribe(AfterSubscribe(subs, client, channel, t1), client, channel, t2)
         == AfterSubscribe(subs, client, channel, t1)
  {
  }

  /** Subscribe adds the channel to the caller's subscribed set and leaves every
      other client's set as it was. */
  lemma SubscribeAddsChannel(subs: map<SubKey, int>, client: string, channel: string, now: int, other: string)
    ensures SubscribedChannels(AfterSubscribe(subs, client, channel, now), client)
         == SubscribedChannels(subs, client) + {channel}
    ensures other != client ==>
      SubscribedChannels(AfterSubscribe(subs, client, channel, now), other) == SubscribedChannels(subs, other)
  {
  }

  /** A new subscription adds exactly one to the topic's fan-out count and
      changes no other channel's count; a repeated one changes nothing. */
  lemma SubscribeCountsOnce(subs: map<SubKey, int>, client: string, channel: string, now: int, other: string)
    ensures SubscriberCount(AfterSubscribe(subs, client, channel, now), channel)
         == SubscriberCount(subs, channel) + (if SubKey(client, channel) in subs then 0 else 1)
    ensures other != channel ==>
      SubscriberCount(AfterSubscribe(subs, client, channel, now), other) == SubscriberCount(subs, other)
  {
    var k := SubKey(client, channel);
    var after := AfterSubscribe(subs, client, channel, now);
    if k !in subs {
      assert RowsOn(after, channel) == RowsOn(subs, channel) + {k};
      assert k !in RowsOn(subs, channel);
      assert other != channel ==> RowsOn(after, other) == RowsOn(subs, other);
    }
  }

  /** Delivery is decided when polling, not when publishing: a client that
      subscribes to a topic after a message was published there still receives
      it, provided it is newer than the cursor. */
  lemma LateSubscriberReceives(log: seq<Message>, subs: map<SubKey, int>, client: string,
                               channel: string, now: int, m: Message, since: int)
    requires m in log && m.channel == channel && m.timestamp > since
    ensures m in PollFilter(log, AfterSubscribe(subs, client, channel, now), client, since)
  {
  }

  class Store {
    /** `clients`: id -> (secret, last_seen). */
    var clients: map<string, ClientRow>
    /** `subscriptions`: (client_id, channel) -> last_polled. */
    var subscriptions: map<SubKey, int>
    /** `messages`, in insertion order. */
    var messages: seq<Message>

    /** The table invariants: message ids and client secrets are unique, and
        every direct message names a registered client. */
    ghost predicate Valid()
      reads this
    {
      && (forall i, j :: 0 <= i < j < |messages| ==> messages[i].id != messages[j].id)
      && (forall i :: 0 <= i < |messages| && !IsTopic(messages[i].channel) ==> messages[i].channel in clients)
      && (forall a, b :: a in clients && b in clients && a != b ==> clients[a].secret != clients[b].secret)
    }

    /** A fresh database: three empty tables. */
    constructor ()
      ensures Valid()
      ensures clients == map[] && subscriptions == map[] && messages == []
    {
      clients := map[];
      subscriptions := map[];
      messages := [];
    }

    /** POST /register: insert a client with the fresh id and secret and
        `last_seen = now`, and hand the credentials back. */
    method Register(id: string, secret: string, now: int) returns (newId: string, newSecret: string)
      requires Valid()
      requires id !in clients
      requires forall c :: c in clients ==> clients[c].secret != secret
      modifies this
      ensures Valid()
      ensures newId == id && newSecret == secret
      ensures clients == old(clients)[id := ClientRow(secret, now)]
      ensures subscriptions == old(subscriptions) && messages == old(messages)
    {
      clients := clients[id := ClientRow(secret, now)];
      newId, newSecret := id, secret;
    }

    /** POST /publish by `sender`: a direct target must be a registered client;
        otherwise one message row is appended and the fan-out is reported. */
    method Publish(sender: string, channel: string, content: string, parent: Option<string>,
                   msgId: string, now: int)
      returns (r: Result<Published, PublishError>)
      requires Valid()
      requires forall i :: 0 <= i < |messages| ==> messages[i].id != msgId
      modifies this
      ensures Valid()
      ensures r.Err? <==> !IsTopic(channel) && channel !in old(clients)
      ensures r.Err? ==> r.error == RecipientNotFound && messages == old(messages)
      ensures r.Ok? ==>
        && messages == old(messages) + [Message(msgId, channel, sender, content, now, parent)]
        && r.value == Published(msgId, DeliveredTo(old(subscriptions), channel))
      ensures clients == old(clients) && subscriptions == old(subscriptions)
    {
      if !IsTopic(channel) {
        if channel !in clients {
          return Err(RecipientNotFound);
        }
      }
      messages := messages + [Message(msgId, channel, sender, content, now, parent)];
      var deliveredTo := DeliveredTo(subscriptions, channel);
      r := Ok(Published(msgId, deliveredTo));
    }

    /** POST /subscribe by `client`: insert-or-ignore on `(client, channel)`. */
    method Subscribe(client: string, channel: string, now: int)
      requires Valid()
      modifies this
      ensures Valid()
      ensures subscriptions == AfterSubscribe(old(subscriptions), client, channel, now)
      ensures clients == old(clients) && messages == old(messages)
    {
      var k := SubKey(client, channel);
      if k !in subscriptions {
        subscriptions := subscriptions[k := now];
      }
    }

    /** GET /poll by `client`: return the visible rows newer than the cursor, then
        stamp the caller's `last_seen` and every `last_polled` it owns with `now`. */
    method Poll(client: string, since: Option<int>, now: int) returns (rows: seq<Message>)
      requires Valid()
      modifies this
      ensures Valid()
      ensures rows == PollFilter(old(messages), old(subscriptions), client, EffectiveSince(since))
      ensures messages == old(messages)
      ensures clients.Keys == old(clients).Keys
      ensures forall c :: c in clients ==>
        clients[c] == if c == client then old(clients)[c].(lastSeen := now) else old(clients)[c]
      ensures subscriptions.Keys == old(subscriptions).Keys
      ensures forall k :: k in subscriptions ==>
        subscriptions[k] == if k.client == client then now else old(subscriptions)[k]
    {
      var cursor := EffectiveSince(since);
      rows := PollFilter(messages, subscriptions, client, cursor);
      if client in clients {
        clients := clients[client := clients[client].(lastSeen := now)];
      }
      subscriptions := map k | k in subscriptions :: if k.client == client then now else subscriptions[k];
    }
  }
}
