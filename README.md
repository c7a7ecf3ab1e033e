# Realtime dashboard: server state machine and viewer state

A Dafny model of the two logic layers of a small realtime dashboard. Clients
POST numeric samples. The server stores them in a `chart_data` table and pushes
each change to every connected viewer over a WebSocket. Each viewer page keeps
a bounded buffer of chart points and a table of the newest rows.

- `protocol.dfy` (module `Protocol`): the values both sides share. These are a
  table row `Row(id, value, timestamp)` and the three pushed messages
  `initialData`, `dataUpdate` and `dataCleared`.
- `server.dfy` (module `Server`, from `server.js`): class `ServerState`. It holds
  the row table in insertion order, the AUTOINCREMENT counter `nextId`, and
  `wss.clients` as a sequence of connections. Each connection has a ready-state
  and an outbox, the list of every message sent to it. One method per handler:
  POST, GET, DELETE and the `connection` event. The broadcast loop sends only to
  OPEN connections. A database error is a boolean input of each handler, so
  every error branch is stated. Each clock reading is a parameter.
- `client.dfy` (module `Client`, from `public/app.js`): class `ViewState`. It
  holds `chartData`, the chart, and the table body. The chart is represented by
  the array its dataset plots, so the model can tell "the array the page
  pushes to" from "the array the chart shows". Pure functions give the
  point conversion, the bounded push and the newest-10 selection.

Sample values and timestamps are opaque integers (`Protocol.Value`,
`Protocol.Timestamp`).

Where the code and its documented design differ, the model follows the code:

- POST only checks that `value` is a JSON number (`typeof`). There is no
  separate finiteness check.
- A broadcast skips connections that are not OPEN. It never unregisters them.
- A new connection gets `initialData` only when its query succeeds.
  Otherwise it gets nothing.
- Ids are never reused after DELETE, because the column is AUTOINCREMENT.
  `nextId` survives every clear.

One exception: the `dataCleared` reset of the page (public/app.js:152-155) is
modelled twice (see "## Findings").

- `Client.ViewState.OnMessageAsWritten` is the handler as written.
- `Client.ViewState.OnMessage` is the corrected handler, and it is the one the
  rest of the client model uses.

## Model

| member | source | states |
|---|---|---|
| `Server.OrderByTimestamp` | server.js:62-68 | the listed rows are in non-decreasing timestamp order and are exactly the table's rows (same multiset) |
| `Server.OrderedRowsKeepInsertionOrder` | server.js:62 | when rows were stored with non-decreasing timestamps, the timestamp-ordered list equals insertion (id) order |
| `Server.BroadcastAll` | server.js:94-101 | every OPEN connection gets exactly one more message, `m`, at the end of its outbox; other outboxes and all ready-states are unchanged; no connection is added or dropped |
| `Server.ServerState.BroadcastToOpen` | server.js:94-101 | the `forEach` loop leaves the connections exactly as `BroadcastAll` describes, and changes nothing else |
| `Server.ServerState.constructor` | server.js:19-23 | an empty table, no viewers, and the first id handed out is 1 |
| `Server.ServerState.Post` | server.js:38-58 | a non-number value gives 400 and changes nothing; an insert error gives 500 and changes nothing; otherwise one row is appended with a fresh id that is larger than every id ever issued, the response carries that id and value, the same id and value go to every OPEN client as `dataUpdate`, and the id invariants are kept |
| `Server.ServerState.Get` | server.js:61-70 | a query error gives 500; otherwise the response lists every row in non-decreasing timestamp order, the same list a new connection receives as `initialData`; nothing changes |
| `Server.ServerState.Delete` | server.js:73-91 | an error gives 500 and changes nothing; otherwise the table is empty, `nextId` is kept, and every OPEN client gets one `dataCleared` |
| `Server.ServerState.Connect` | server.js:104-113 | the new OPEN connection is appended; its outbox is one `initialData` holding the ordered row list, or empty when the query fails; nothing else changes |
| `Server.ServerState.SetReadyState` | server.js:115-117 | the transport moves one connection's ready-state forward (CONNECTING, OPEN, CLOSING, CLOSED) and changes nothing else |
| `Server.TwoSamplesListed` | server.js:38-68 | two successful POSTs get ids 1 and 2, and GET lists them in that order |
| `Server.ViewerJoinsAfterSample` | server.js:94-113 | a viewer that connects after one sample gets `initialData` with that row, then the next sample as `dataUpdate` |
| `Server.IdsContinueAfterClear` | server.js:19-22 | after a DELETE, GET lists nothing and the next POST gets id 2, not the deleted row's id 1 |
| `Client.ToPoints` | public/app.js:13-16 | one point per item, in the same order, with x the item's timestamp and y its value |
| `Client.Pushed` | public/app.js:98-106 | the new point is last; below 100 points, the length grows by one and the old points stay as a prefix; at 100 or more, the oldest point is dropped and the length is unchanged |
| `Client.PushAllWindow` | public/app.js:94-110 | after any run of pushes, the buffer is the newest part of old points plus pushed points; its length is min(L+k, 100) when it starts at L ≤ 100 (so the bound of 100 is kept), and stays L when it starts above 100 |
| `Client.Reverse` | public/app.js:82 | `reverse()` puts element k at position n-1-k |
| `Client.RecentRows` | public/app.js:78-82 | the selection has min(n, 10) rows; row k is input row n-1-k, so the newest comes first |
| `Client.TableFor` | public/app.js:69-91 | the table is the placeholder exactly when the input is empty; otherwise it holds the newest min(n, 10) rows, newest first |
| `Client.ViewState.constructor` | public/app.js:5-6 | no chart and an empty `chartData` |
| `Client.ViewState.CreateChart` | public/app.js:9-23 | `chartData` becomes a new array of the converted points, not truncated, and the new chart plots that array |
| `Client.ViewState.AddDataToChart` | public/app.js:94-110 | with no chart, nothing changes; otherwise `chartData` becomes the bounded push of the new point |
| `Client.ViewState.UpdateDataTable` | public/app.js:69-91 | after the row-by-row loop, the table is the placeholder for empty input, or the newest rows, newest first |
| `Client.ViewState.ResetChartAsWritten` | public/app.js:152-155 | as written: with a chart, `chartData` becomes a new empty array, and the chart keeps its old array |
| `Client.ViewState.ResetChart` | public/app.js:152-155 | corrected: with a chart, the plotted array is emptied in place; with no chart, nothing changes |
| `Client.ViewState.OnMessageAsWritten` | public/app.js:132-159 | as written: `initialData` builds a fresh array from the payload, the chart plots it, the table is rebuilt, and the old array is not touched; `dataUpdate` pushes the point onto `chartData` when a chart exists, leaves a chart that plots another array untouched, and sets the table from the refetched list, if any; `dataCleared` with a chart rebinds `chartData` to a fresh empty array while the chart keeps its old points; `dataCleared` without a chart changes only the table; the table always becomes the placeholder on `dataCleared`; an unknown type changes nothing |
| `Client.ViewState.OnMessage` | public/app.js:132-159 | corrected: `initialData` rebuilds chart and table from the payload; `dataUpdate` pushes the point when a chart exists and sets the table from the refetched list, if any; `dataCleared` empties the chart's points only when a chart exists and always shows the placeholder; an unknown type changes nothing; the old array is not touched by `initialData`; unlike the source, the chart keeps plotting `chartData` |
| `Client.StaleChartAfterClear` | public/app.js:150-155 | as written: after `initialData`, `dataCleared` and `dataUpdate` go through `OnMessageAsWritten`, the chart still plots the first point, and the new point sits in an array the chart does not show |
| `Client.ChartFollowsBufferAfterClear` | public/app.js:135-157 | corrected: the same three messages leave the chart plotting exactly the buffer, which holds only the point pushed after the clear |

## Left out

- Express routing, HTTP plumbing, JSON parsing and serialisation: each request is a method call. Its body is the parsed `value` field, and its result is a `Response`. `StatusCode` maps each response to its status code (400, 500 or 200), and the contracts of `Post`, `Get` and `Delete` state which code each case returns.
- SQLite itself, the SQL text and the database file: the table is a sequence of rows and a counter. The model always starts from a new, empty table. It does not model an existing `chart_data.db` present at startup.
- AUTOINCREMENT exhaustion (SQLITE_FULL past the largest 64-bit rowid): ids are unbounded naturals.
- Order of rows with equal timestamps: SQLite does not fix it. `Server.OrderByTimestamp` keeps insertion order among equal timestamps; this is the model's choice. What the source promises is sortedness and permutation, and `Server.ServerState.Get` states that separately from the exact list.
- WebSocket transport and connection lifecycle: `ws` drops closed connections from `wss.clients`. Here they stay in the sequence. A broadcast skips them, so what is sent is the same. A connection is identified by its position.
- Asynchronous interleaving: each handler and each message callback is one atomic step. In the source, the `initialData` query of a new connection completes later. A broadcast issued in between could reach the viewer first. The model does not capture that.
- Clocks: CURRENT_TIMESTAMP and the two separate `new Date()` readings in POST are separate parameters. The same holds for the page's `new Date(...)` conversions, which the model keeps as the timestamp itself.
- Floating point: `REAL`, `parseFloat`, `toFixed` and `Math.random`. Values are opaque integers.
- Chart.js rendering, chart options, `chart.update`, DOM markup, status text, `alert` and `confirm`: the model keeps only the plotted points and the rows the table shows. The page's initial table markup is represented as an empty table body.
- The refetch after `dataUpdate` is a parameter of `Client.ViewState.OnMessage` and `Client.ViewState.OnMessageAsWritten`: the row list GET returned, or None when the request fails or returns a non-list. A non-list makes `updateDataTable` throw before it changes the table.
- `sendData`, the button and keypress handlers (public/app.js:162-225): UI events and network calls.
- The input array of `updateDataTable` being left intact (`slice` copies before `reverse`): in the model rows arrive as immutable sequences, so this holds by construction.

## Findings

| source | as written | input that shows it | evidently intended | confidence | as-written member | corrected member |
|---|---|---|---|---|---|---|
| public/app.js:152-155 | `chartData = []` binds a new array. The chart's dataset still holds the array it was created with (public/app.js:23), so `chart.update()` redraws the old points. Every later `addDataToChart` pushes to an array the chart never shows. | `initialData` with one row, then `dataCleared`, then `dataUpdate` with another row | the chart is emptied, as the comment at line 151 says, and then plots the points that arrive after the clear | not executed; high | `Client.StaleChartAfterClear` (through `Client.ViewState.OnMessageAsWritten`, which calls `Client.ViewState.ResetChartAsWritten`) | `Client.ChartFollowsBufferAfterClear` (using `Client.ViewState.ResetChart`, which `Client.ViewState.OnMessage` calls) |
