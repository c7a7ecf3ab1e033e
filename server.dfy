/**
 * The request and broadcast logic of the dashboard server (server.js),
 * without Express, SQLite and the `ws` transport: a row table with an
 * AUTOINCREMENT id counter, and a registry of viewer connections, each
 * with a ready-state and the list of messages sent to it so far.
 * Every handler is one atomic step; a storage failure is a boolean input.
 */
module Server {
  import opened Protocol

  /** The `value` field of a POST body after JSON parsing. */
  datatype JsonValue =
    | JNumber(n: Value)
    | JString(s: string)
    | JBool(b: bool)
    | JNull
    | JComposite   // an array or an object
    | Absent       // no `value` field at all

  /** `WebSocket.CONNECTING`, `OPEN`, `CLOSING`, `CLOSED`. */
  datatype ReadyState = Connecting | Open | Closing | Closed

  /** Ready-states only move forward: CONNECTING, OPEN, CLOSING, CLOSED. */
  function Stage(s: ReadyState): nat
  {
    match s
    case Connecting => 0
    case Open => 1
    case Closing => 2
    case Closed => 3
  }

  /** One element of `wss.clients`: its ready-state and every message
      `send` has been called with, oldest first. */
  datatype Connection = Connection(readyState: ReadyState, outbox: seq<Message>)

  /** What a handler answers over HTTP. */
  datatype Response =
    | Created(id: nat, value: Value, timestamp: Timestamp)   // 200, the new sample
    | Listing(rows: seq<Row>)                                // 200, the row list
    | ClearedAll                                             // 200, "All data cleared"
    | BadRequest                                             // 400, value is not a number
    | InternalError                                          // 500, the database reported an error

  function StatusCode(r: Response): int
  {
    match r
    case BadRequest => 400
    case InternalError => 500
    case _ => 200
  }

  // ---------------------------------------------------------------------
  // Ordering of the row list (ORDER BY timestamp ASC)

  predicate SortedByTimestamp(s: seq<Row>)
  {
    forall i, j :: 0 <= i < j < |s| ==> s[i].timestamp <= s[j].timestamp
  }

  lemma SortedCons(x: Row, t: seq<Row>)
    requires SortedByTimestamp(t)
    requires t != [] ==> x.timestamp <= t[0].timestamp
    ensures SortedByTimestamp([x] + t)
  {
  }

  /** Places `r` after every row of `s` whose timestamp is not later. */
  function InsertByTimestamp(r: Row, s: seq<Row>): (t: seq<Row>)
    requires SortedByTimestamp(s)
    ensures SortedByTimestamp(t)
    ensures multiset(t) == multiset(s) + multiset{r}
    ensures t[0] == r || (s != [] && t[0] == s[0])
    decreases |s|
  {
    if s == [] || r.timestamp < s[0].timestamp then
      [r] + s
    else
      var rest := InsertByTimestamp(r, s[1..]);
      assert s == [s[0]] + s[1..];
      SortedCons(s[0], rest);
      [s[0]] + rest
  }

  /** The row list in timestamp order; rows with equal timestamps keep
      their insertion order (the model's choice: SQLite does not fix it). */
  function OrderByTimestamp(s: seq<Row>): (t: seq<Row>)
    ensures SortedByTimestamp(t)
    ensures multiset(t) == multiset(s)
  {
    if s == [] then []
    else
      assert s == s[..|s| - 1] + [s[|s| - 1]];
      InsertByTimestamp(s[|s| - 1], OrderByTimestamp(s[..|s| - 1]))
  }

  lemma {:induction false} InsertLatest(r: Row, s: seq<Row>)
    requires SortedByTimestamp(s)
    requires forall k :: 0 <= k < |s| ==> s[k].timestamp <= r.timestamp
    ensures InsertByTimestamp(r, s) == s + [r]
    decreases |s|
  {
    if s != [] {
      InsertLatest(r, s[1..]);
      assert [s[0]] + (s[1..] + [r]) == s + [r];
    }
  }

  /** When rows were stored with a clock that never went back, listing them
      by timestamp gives them back in insertion (and so id) order. */
  lemma {:induction false} OrderedRowsKeepInsertionOrder(s: seq<Row>)
    requires SortedByTimestamp(s)
    ensures OrderByTimestamp(s) == s
  {
    if s != [] {
      var init := s[..|s| - 1];
      OrderedRowsKeepInsertionOrder(init);
      InsertLatest(s[|s| - 1], init);
      assert init + [s[|s| - 1]] == s;
    }
  }

  // ---------------------------------------------------------------------
  // Broadcast (the `wss.clients.forEach` loops)

  /** Every connection after `m` is sent to the OPEN ones. */
  function BroadcastAll(cs: seq<Connection>, m: Message): (r: seq<Connection>)
    ensures |r| == |cs|
    ensures forall k :: 0 <= k < |cs| ==> r[k].readyState == cs[k].readyState
    ensures forall k :: 0 <= k < |cs| && cs[k].readyState == Open ==> r[k].outbox == cs[k].outbox + [m]
    ensures forall k :: 0 <= k < |cs| && cs[k].readyState != Open ==> r[k].outbox == cs[k].outbox
  {
    if cs == [] then []
    else
      var c := cs[0];
      var c' := if c.readyState == Open then c.(outbox := c.outbox + [m]) else c;
      [c'] + BroadcastAll(cs[1..], m)
  }

  predicate IdsIncreasing(ids: seq<nat>)
  {
    forall i, j :: 0 <= i < j < |ids| ==> ids[i] < ids[j]
  }

  function RowIds(rows: seq<Row>): seq<nat>
  {
    seq(|rows|, k requires 0 <= k < |rows| => rows[k].id)
  }

  // ---------------------------------------------------------------------
  // The server's shared state and its handlers

  class ServerState {
    /** The `chart_data` table, in insertion order. */
    var rows: seq<Row>
    /** The id AUTOINCREMENT hands out next: one more than any id ever
        assigned, whether or not its row still exists. */
    var nextId: nat
    /** `wss.clients`. A connection is identified by its index. */
    var clients: seq<Connection>
    /** Every id ever assigned, in order of assignment. */
    ghost var issued: seq<nat>

    ghost predicate Valid()
      reads this
    {
      && 1 <= nextId
      && IdsIncreasing(issued)
      && (forall k :: 0 <= k < |issued| ==> issued[k] < nextId)
      && IdsIncreasing(RowIds(rows))
      && (forall k :: 0 <= k < |rows| ==> rows[k].id in issued)
    }

    /** A fresh database and no viewer yet. */
    constructor ()
      ensures Valid()
      ensures rows == [] && nextId == 1 && clients == [] && issued == []
    {
      rows := [];
      nextId := 1;
      clients := [];
      issued := [];
    }

    /** Sends `m` to every connection whose ready-state is OPEN. */
    method BroadcastToOpen(m: Message)
      modifies this`clients
      ensures clients == BroadcastAll(old(clients), m)
    {
      var i := 0;
      while i < |clients|
        invariant 0 <= i <= |clients| == |old(clients)|
        invariant forall k :: 0 <= k < i ==> clients[k].readyState == old(clients)[k].readyState
        invariant forall k :: 0 <= k < i && old(clients)[k].readyState == Open ==>
                    clients[k].outbox == old(clients)[k].outbox + [m]
        invariant forall k :: 0 <= k < i && old(clients)[k].readyState != Open ==>
                    clients[k] == old(clients)[k]
        invariant forall k :: i <= k < |clients| ==> clients[k] == old(clients)[k]
      {
        if clients[i].readyState == Open {
          clients := clients[i := clients[i].(outbox := clients[i].outbox + [m])];
        }
        i := i + 1;
      }
      var expected := BroadcastAll(old(clients), m);
      assert forall k :: 0 <= k < |clients| ==> clients[k] == expected[k];
    }

    /** POST /api/data. `body` is the request's `value` field; `insertFails`
        is whether the INSERT reports an error; `storedAt` is the row's
        CURRENT_TIMESTAMP, `respondedAt` and `broadcastAt` the two separate
        `new Date()` readings of the response and of the broadcast. */
    method Post(body: JsonValue, insertFails: bool, storedAt: Timestamp,
                respondedAt: Timestamp, broadcastAt: Timestamp) returns (res: Response)
      requires Valid()
      modifies this
      ensures Valid()
      ensures StatusCode(res) == (if !body.JNumber? then 400 else if insertFails then 500 else 200)
      ensures !body.JNumber? ==>
        res == BadRequest && rows == old(rows) && nextId == old(nextId) &&
        clients == old(clients) && issued == old(issued)
      ensures body.JNumber? && insertFails ==>
        res == InternalError && rows == old(rows) && nextId == old(nextId) &&
        clients == old(clients) && issued == old(issued)
      ensures body.JNumber? && !insertFails ==>
        var id := old(nextId);
        && res == Created(id, body.n, respondedAt)
        && rows == old(rows) + [Row(id, body.n, storedAt)]
        && (forall k :: 0 <= k < |old(issued)| ==> old(issued)[k] < id)
        && issued == old(issued) + [id]
        && nextId == id + 1
        && clients == BroadcastAll(old(clients), DataUpdate(Row(id, body.n, broadcastAt)))
    {
      if !body.JNumber? {
        return BadRequest;
      }
      if insertFails {
        return InternalError;
      }
      var id := nextId;
      var row := Row(id, body.n, storedAt);
      assert RowIds(rows + [row]) == RowIds(rows) + [id];
      rows := rows + [row];
      issued := issued + [id];
      nextId := nextId + 1;
      res := Created(id, body.n, respondedAt);
      BroadcastToOpen(DataUpdate(Row(id, body.n, broadcastAt)));
    }

    /** GET /api/data. Changes nothing. */
    method Get(queryFails: bool) returns (res: Response)
      ensures StatusCode(res) == (if queryFails then 500 else 200)
      ensures queryFails ==> res == InternalError
      ensures !queryFails ==>
        res.Listing? && SortedByTimestamp(res.rows) && multiset(res.rows) == multiset(rows)
      ensures !queryFails ==> res == Listing(OrderByTimestamp(rows))
    {
      if queryFails {
        return InternalError;
      }
      res := Listing(OrderByTimestamp(rows));
    }

    /** DELETE /api/data. The id counter is left alone, as AUTOINCREMENT
        never reuses an id. */
    method Delete(deleteFails: bool) returns (res: Response)
      requires Valid()
      modifies this
      ensures Valid()
      ensures StatusCode(res) == (if deleteFails then 500 else 200)
      ensures deleteFails ==>
        res == InternalError && rows == old(rows) && nextId == old(nextId) &&
        clients == old(clients) && issued == old(issued)
      ensures !deleteFails ==>
        res == ClearedAll && rows == [] && nextId == old(nextId) &&
        issued == old(issued) && clients == BroadcastAll(old(clients), DataCleared)
    {
      if deleteFails {
        return InternalError;
      }
      rows := [];
      res := ClearedAll;
      BroadcastToOpen(DataCleared);
    }

    /** The `connection` event: a new OPEN connection joins `wss.clients`
        and is sent the ordered row list, unless that query fails. */
    method Connect(queryFails: bool) returns (index: nat)
      requires Valid()
      modifies this
      ensures Valid()
      ensures index == |old(clients)|
      ensures clients == old(clients) +
        [Connection(Open, if queryFails then [] else [InitialData(OrderByTimestamp(rows))])]
      ensures rows == old(rows) && nextId == old(nextId) && issued == old(issued)
    {
      index := |clients|;
      var outbox := if queryFails then [] else [InitialData(OrderByTimestamp(rows))];
      clients := clients + [Connection(Open, outbox)];
    }

    /** The transport moves connection `index` to another ready-state
        (closing handshake, network error). */
    method SetReadyState(index: nat, s: ReadyState)
      requires Valid()
      requires index < |clients|
      requires Stage(clients[index].readyState) <= Stage(s)
      modifies this
      ensures Valid()
      ensures clients == old(clients)[index := old(clients)[index].(readyState := s)]
      ensures rows == old(rows) && nextId == old(nextId) && issued == old(issued)
    {
      clients := clients[index := clients[index].(readyState := s)];
    }
  }
  /** Two samples are stored with ids 1 and 2 and listed in that order. */
  method TwoSamplesListed(a: Value, b: Value, t1: Timestamp, t2: Timestamp)
    returns (first: Response, second: Response, listed: Response)
    requires t1 <= t2
    ensures first == Created(1, a, t1) && second == Created(2, b, t2)
    ensures listed == Listing([Row(1, a, t1), Row(2, b, t2)])
  {
    var server := new ServerState();
    first := server.Post(JNumber(a), false, t1, t1, t1);
    assert server.rows == [Row(1, a, t1)] && server.nextId == 2 && server.clients == [];
    second := server.Post(JNumber(b), false, t2, t2, t2);
    var stored := [Row(1, a, t1), Row(2, b, t2)];
    assert server.rows == stored;
    OrderedRowsKeepInsertionOrder(stored);
    listed := server.Get(false);
  }

  /** A viewer that connects after a sample was stored is greeted with
      exactly that row, and then sees the next sample pushed to it. */
  method ViewerJoinsAfterSample(a: Value, b: Value, t1: Timestamp, t2: Timestamp)
    returns (outbox: seq<Message>)
    ensures outbox == [InitialData([Row(1, a, t1)]), DataUpdate(Row(2, b, t2))]
  {
    var server := new ServerState();
    var first := server.Post(JNumber(a), false, t1, t1, t1);
    assert server.rows == [Row(1, a, t1)] && server.clients == [];
    OrderedRowsKeepInsertionOrder(server.rows);
    var viewer := server.Connect(false);
    assert server.clients == [Connection(Open, [InitialData([Row(1, a, t1)])])];
    var second := server.Post(JNumber(b), false, t2, t2, t2);
    assert |server.clients| == 1 && server.clients[0].readyState == Open;
    outbox := server.clients[viewer].outbox;
  }

  /** After a clear the list is empty, and the next sample does not get
      the id of a deleted row. */
  method IdsContinueAfterClear(a: Value, b: Value, t1: Timestamp, t2: Timestamp)
    returns (first: Response, emptied: Response, second: Response)
    ensures first == Created(1, a, t1)
    ensures emptied == Listing([])
    ensures second == Created(2, b, t2)
  {
    var server := new ServerState();
    first := server.Post(JNumber(a), false, t1, t1, t1);
    assert server.nextId == 2 && server.clients == [];
    var cleared := server.Delete(false);
    assert server.rows == [] && server.nextId == 2;
    emptied := server.Get(false);
    second := server.Post(JNumber(b), false, t2, t2, t2);
  }
}
