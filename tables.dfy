/** Row types of the relay's three tables: clients, subscriptions and messages. */
module Tables {

  datatype Option<+T> = None | Some(value: T)

  datatype Result<+T, +E> = Ok(value: T) | Err(error: E)

  /** A row of the `clients` table, keyed by the client id. */
  datatype ClientRow = ClientRow(secret: string, lastSeen: int)

  /** The composite primary key `(client_id, channel)` of the `subscriptions` table;
      the table itself maps each key to its `last_polled` timestamp. */
  datatype SubKey = SubKey(client: string, channel: string)

  /** A row of the `messages` table. `channel` is either a client id (direct
      addressing) or a topic name; `parent` is the optional threading reference. */
  datatype Message = Message(
    id: string,
    channel: string,
    sender: string,
    content: string,
    timestamp: int,
    parent: Option<string>)
}
