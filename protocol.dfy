/**
 * Values shared by the server and the browser client of the realtime
 * dashboard: the rows of the `chart_data` table and the messages pushed
 * over the WebSocket channel.
 */
module Protocol {

  /** A sample value. The source stores a REAL; the model treats it as an
      opaque number and never does arithmetic on it. */
  type Value = int

  /** A point in time (CURRENT_TIMESTAMP or `new Date()`), as an opaque,
      ordered integer. */
  type Timestamp = int

  datatype Option<T> = None | Some(value: T)

  /** One row of `chart_data`, as the server lists it and pushes it. */
  datatype Row = Row(id: nat, value: Value, timestamp: Timestamp)

  /** The three message kinds the server sends to a viewer. */
  datatype Message =
    | InitialData(rows: seq<Row>)
    | DataUpdate(row: Row)
    | DataCleared

  function Min(a: int, b: int): int
  {
    if a <= b then a else b
  }
}
