/** The end-to-end scenarios of the relay's test suite, replayed against the store model. */
module Scenarios {
  import opened Tables
  import opened Queries
  import opened RelayStore

  /** Two clients register; the first publishes "hello" to the second's id. The
      publish reports one recipient and the second client's poll returns it. */
  method DirectDelivery(idA: string, secretA: string, idB: string, secretB: string,
                        msgId: string, t0: int, t1: int, t2: int, t3: int)
    returns (deliveredTo: nat, rows: seq<Message>)
    requires idA != idB && secretA != secretB
    requires !IsTopic(idB)
    requires t2 > 0
    ensures deliveredTo == 1
    ensures exists m :: m in rows && m.content == "hello" && m.sender == idA
  {
    var store := new Store();
    var a, _ := store.Register(idA, secretA, t0);
    var b, _ := store.Register(idB, secretB, t1);
    var r := store.Publish(a, b, "hello", None, msgId, t2);
    deliveredTo := r.value.deliveredTo;
    rows := store.Poll(b, None, t3);
    assert Message(msgId, idB, idA, "hello", t2, None) in rows;
  }

  /** One client subscribes to a topic (the test suite uses "news/general") and
      another publishes "update" there: the publish reports one recipient and
      the subscriber's poll returns the message. Neither subscribe nor a topic
      publish looks at the clients table, so no client needs to be registered. */
  method TopicDelivery(idA: string, idB: string, topic: string, msgId: string, t1: int, t2: int, t3: int)
    returns (deliveredTo: nat, rowsB: seq<Message>)
    requires IsTopic(topic)
    requires t2 > 0
    ensures deliveredTo == 1
    ensures exists m :: m in rowsB && m.content == "update" && m.channel == topic
  {
    var store := new Store();
    store.Subscribe(idB, topic, t1);
    assert Subscribers(store.subscriptions, topic) == {idB};
    var r := store.Publish(idA, topic, "update", None, msgId, t2);
    deliveredTo := r.value.deliveredTo;
    assert deliveredTo == |{idB}|;
    rowsB := store.Poll(idB, None, t3);
    assert Message(msgId, topic, idA, "update", t2, None) in rowsB;
  }

  /** In the same situation, a client that is neither the subscriber nor
      subscribed itself polls and does not see the topic message. */
  method TopicNotForOthers(idA: string, idB: string, idC: string, topic: string, msgId: string,
                           t1: int, t2: int, t3: int)
    returns (rowsC: seq<Message>)
    requires IsTopic(topic) && idC != idB && !IsTopic(idC)
    ensures rowsC == []
  {
    var store := new Store();
    store.Subscribe(idB, topic, t1);
    var r := store.Publish(idA, topic, "update", None, msgId, t2);
    assert topic !in SubscribedChannels(store.subscriptions, idC);
    rowsC := store.Poll(idC, None, t3);
  }

  /** Publishing to an id nobody registered is refused, and no poll, by any
      client from any cursor, returns anything afterwards. */
  method UnknownRecipient(idA: string, secretA: string, target: string, msgId: string,
                          t0: int, t1: int, poller: string, since: Option<int>, t2: int)
    returns (r: Result<Published, PublishError>, rows: seq<Message>)
    requires target != idA && !IsTopic(target)
    ensures r == Err(RecipientNotFound)
    ensures rows == []
  {
    var store := new Store();
    var a, _ := store.Register(idA, secretA, t0);
    r := store.Publish(a, target, "lost", None, msgId, t1);
    rows := store.Poll(poller, since, t2);
  }

  /** Two polls with the same cursor and nothing published or subscribed in
      between return the same rows, although the first one stamped the
      server-side cursors. */
  method RepeatedPoll(store: Store, client: string, since: Option<int>, t1: int, t2: int)
    returns (first: seq<Message>, second: seq<Message>)
    requires store.Valid()
    modifies store
    ensures first == second
  {
    first := store.Poll(client, since, t1);
    ghost var stamped := store.subscriptions;
    second := store.Poll(client, since, t2);
    PollFilterIgnoresLastPolled(store.messages, stamped, old(store.subscriptions), client, EffectiveSince(since));
  }
}
