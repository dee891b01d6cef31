/** The read-only queries the handlers run against the tables: the topic test,
    the fan-out count reported by publish, and the poll filter. */
module Queries {
  import opened Tables

  /** A publish target is a topic exactly when it contains the separator '/';
      anything else names a client directly. A left-to-right scan, as
      `String.prototype.includes("/")` performs it. */
  function IsTopic(channel: string): (r: bool)
    ensures r <==> exists i :: 0 <= i < |channel| && channel[i] == '/'
  {
    if |channel| == 0 then false
    else if channel[0] == '/' then true
    else
      var rest := IsTopic(channel[1..]);
      assert forall i :: 0 < i < |channel| ==> channel[i] == channel[1..][i - 1];
      rest
  }

  /** The subscription rows on exactly this channel. */
  function RowsOn(subs: map<SubKey, int>, channel: string): (r: set<SubKey>)
  {
    set k | k in subs && k.channel == channel
  }

  /** `SELECT COUNT(*) FROM subscriptions WHERE channel=?`. */
  function SubscriberCount(subs: map<SubKey, int>, channel: string): (r: nat)
    ensures r <= |subs|
    ensures r == 0 <==> forall k :: k in subs ==> k.channel != channel
  {
    var rows := RowsOn(subs, channel);
    assert subs.Keys == rows + (subs.Keys - rows) && rows * (subs.Keys - rows) == {};
    assert |subs.Keys| == |subs|;
    assert forall k :: k in subs && k.channel == channel ==> k in RowsOn(subs, channel);
    |RowsOn(subs, channel)|
  }

  /** The clients that hold a subscription on this channel. */
  function Subscribers(subs: map<SubKey, int>, channel: string): (r: set<string>)
  {
    set k | k in subs && k.channel == channel :: k.client
  }

  /** The row count on a channel is the number of distinct subscribed clients,
      because `(client_id, channel)` is the primary key. */
  lemma {:induction false} RowCountIsClientCount(subs: map<SubKey, int>, channel: string)
    ensures SubscriberCount(subs, channel) == |Subscribers(subs, channel)|
  {
    ClientsOfRows(RowsOn(subs, channel), channel);
    assert Subscribers(subs, channel) == set k | k in RowsOn(subs, channel) :: k.client;
  }

  /** Projecting rows that share one channel onto their client loses no row. */
  lemma {:induction false} ClientsOfRows(rows: set<SubKey>, channel: string)
    requires forall k :: k in rows ==> k.channel == channel
    ensures |set k | k in rows :: k.client| == |rows|
    decreases |rows|
  {
    if rows != {} {
      var k :| k in rows;
      var rest := rows - {k};
      ClientsOfRows(rest, channel);
      var restClients := set k' | k' in rest :: k'.client;
      assert k.client !in restClients;
      assert (set k' | k' in rows :: k'.client) == restClients + {k.client};
    }
  }

  /** The `deliveredTo` figure publish reports: 1 for a direct target, the number
      of subscription rows on the exact topic otherwise. */
  function DeliveredTo(subs: map<SubKey, int>, channel: string): (r: nat)
    ensures !IsTopic(channel) ==> r == 1
    ensures IsTopic(channel) ==> r == |Subscribers(subs, channel)|
  {
    if IsTopic(channel) then
      RowCountIsClientCount(subs, channel);
      SubscriberCount(subs, channel)
    else 1
  }

  /** `SELECT channel FROM subscriptions WHERE client_id=?`. */
  function SubscribedChannels(subs: map<SubKey, int>, client: string): (r: set<string>)
    ensures forall ch :: ch in r <==> SubKey(client, ch) in subs
  {
    var r := set k | k in subs && k.client == client :: k.channel;
    assert forall ch :: SubKey(client, ch) in subs ==> SubKey(client, ch).channel in r;
    r
  }

  /** The WHERE clause of the poll query for one message row. */
  predicate Visible(m: Message, subs: map<SubKey, int>, client: string, since: int)
  {
    m.timestamp > since && (m.channel == client || m.channel in SubscribedChannels(subs, client))
  }

  /** The rows the poll query returns, as a filter of the log in insertion order
      (the query has no ORDER BY, so no timestamp ordering is claimed). */
  function PollFilter(log: seq<Message>, subs: map<SubKey, int>, client: string, since: int)
    : (r: seq<Message>)
    ensures forall m :: m in r <==> m in log && Visible(m, subs, client, since)
    ensures |r| <= |log|
  {
    if log == [] then []
    else
      var last := log[|log| - 1];
      assert log == log[..|log| - 1] + [last];
      PollFilter(log[..|log| - 1], subs, client, since) + (if Visible(last, subs, client, since) then [last] else [])
  }

  /** The positions in the log of the rows the poll query returns: every visible
      position once, in strictly increasing order, and no other position. */
  function VisiblePositions(log: seq<Message>, subs: map<SubKey, int>, client: string, since: int)
    : (pos: seq<int>)
    ensures forall i :: 0 <= i < |pos| ==> 0 <= pos[i] < |log|
    ensures forall i, j :: 0 <= i < j < |pos| ==> pos[i] < pos[j]
    ensures forall j :: 0 <= j < |log| ==> (j in pos <==> Visible(log[j], subs, client, since))
  {
    if log == [] then []
    else
      var n := |log| - 1;
      var pos0 := VisiblePositions(log[..n], subs, client, since);
      assert forall j :: 0 <= j < n ==> log[j] == log[..n][j];
      pos0 + (if Visible(log[n], subs, client, since) then [n] else [])
  }

  /** The poll result is the subsequence of the log at the visible positions,
      so it lists the visible rows in log order. */
  lemma {:induction false} PollFilterInLogOrder(log: seq<Message>, subs: map<SubKey, int>, client: string, since: int)
    ensures |PollFilter(log, subs, client, since)| == |VisiblePositions(log, subs, client, since)|
    ensures forall i :: 0 <= i < |VisiblePositions(log, subs, client, since)| ==>
      PollFilter(log, subs, client, since)[i] == log[VisiblePositions(log, subs, client, since)[i]]
  {
    if log != [] {
      var n := |log| - 1;
      var prefix := log[..n];
      PollFilterInLogOrder(prefix, subs, client, since);
      var r0, pos0 := PollFilter(prefix, subs, client, since), VisiblePositions(prefix, subs, client, since);
      var r, pos := PollFilter(log, subs, client, since), VisiblePositions(log, subs, client, since);
      assert r == r0 + (if Visible(log[n], subs, client, since) then [log[n]] else []);
      assert pos == pos0 + (if Visible(log[n], subs, client, since) then [n] else []);
      forall i | 0 <= i < |pos|
        ensures r[i] == log[pos[i]]
      {
        if i < |pos0| {
          assert r[i] == r0[i] == prefix[pos0[i]];
        }
      }
    }
  }

  /** The poll result reads only the keys of the subscription table, never the
      `last_polled` values stored under them. */
  lemma {:induction false} PollFilterIgnoresLastPolled(
    log: seq<Message>, subs1: map<SubKey, int>, subs2: map<SubKey, int>, client: string, since: int)
    requires subs1.Keys == subs2.Keys
    ensures PollFilter(log, subs1, client, since) == PollFilter(log, subs2, client, since)
  {
    if log != [] {
      PollFilterIgnoresLastPolled(log[..|log| - 1], subs1, subs2, client, since);
      assert SubscribedChannels(subs1, client) == SubscribedChannels(subs2, client);
    }
  }

  /** Who reads a row: the addressee named by its channel, and every client with a
      subscription row on exactly that channel. Subscribe does not refuse a
      client id as its channel, so a subscription on another client's id also
      reads that client's direct messages. */
  lemma Readers(log: seq<Message>, subs: map<SubKey, int>, m: Message, reader: string, since: int)
    requires m in log && m.timestamp > since
    ensures m in PollFilter(log, subs, reader, since) <==> reader == m.channel || SubKey(reader, m.channel) in subs
  {
  }
}
