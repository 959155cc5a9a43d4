# Collaborative canvas server: a Dafny model

This project models the server module of a real-time collaborative canvas
built on SpacetimeDB. The module holds two keyed tables. The `shape` table is
keyed by an unsigned 32-bit id and stores each shape's kind, bounding box,
colour, rotation, creator and creation time. The `user` table is keyed by the
caller's identity and stores an optional display name, an online flag and the
last cursor position. Eight reducers are the only operations that change the
tables: `CreateShape`, `MoveShape`, `UpdateShape`, `DeleteShape`,
`ClientConnected`, `ClientDisconnected`, `UpdateCursor` and `SetUserName`.

The model has four modules:

- `Rows` (rows.dfy): the row types, the two tables as finite maps, and the
  invariant `Keyed` (every row sits under its own primary key).
- `Reducers` (reducers.dfy): each reducer as a function from the tables
  before the call to the tables after it. Each contract states which rows
  and columns change, which stay, and what happens on a missing key. Laws
  that relate several calls are lemmas here: composition of updates, commuting
  disjoint updates, idempotent retries, deletion is final, reconnects.
- `Server` (server.dfy): the class `Database`, whose `shape` and `user` map
  fields are changed in place by one method per reducer, in the form the
  source uses: find the row, assign the columns, write the row back. Each
  method `modifies` only the field of the table it writes. Each ensures the
  reducer's function of the old tables and keeps `Valid()`.
- `History` (history.dfy): histories of reducer calls applied in commit
  order, with lemmas proved by induction over any history.

Each reducer is one atomic step. The caller's identity, the commit
timestamp and the new shape's id are explicit parameters. The source draws
the id from `Random.Shared.Next()`; the model takes it as an input and
requires it to be unused. Floats are modelled as `real`, because the server
only copies them into rows (or writes the constant 0) and never computes
with them. `Identity` is an opaque byte string compared only for equality.
`Timestamp` is a count of microseconds.

The `Type` and `Color` columns are declared `string?` in the source. The code
only ever writes non-null strings to them: `CreateShape` takes non-nullable
`type` and `color`, and `UpdateShape` writes the colour only when it is
non-null. So the model stores them as `string`. No reducer checks the value
of `Type`, and the model does not either.

The design describes `online` as true while at least one session of the
identity is active. The program keeps a single flag instead.
`ClientConnected` sets it, and any `ClientDisconnected` clears it
(server/Lib.cs:104-107). Two clients that share one identity token therefore
show the user offline as soon as either of them disconnects, even though the
other is still connected. The model follows the program. The lemma
`Reducers.OneDisconnectEndsPresence` shows this: two connects followed by
one disconnect leave the user offline.

## Model

| member | source | states |
|---|---|---|
| Reducers.CreateShape | server/Lib.cs:32-48 | exactly one new shape row, under the given unused id, with the given kind, x, y, width, height and colour, rotation 0, creator = caller, created at = commit timestamp; every existing shape and the whole user table unchanged |
| Reducers.MoveShape | server/Lib.cs:50-59 | on an existing shape, x and y become the arguments and every other column of that shape and every other row is unchanged; on a missing id the tables are exactly as before |
| Reducers.UpdateShape | server/Lib.cs:61-72 | width, height, colour and rotation each take the argument when it is present and keep their prior value when it is absent; x, y, id, kind, creator and creation time never change; other rows unchanged; missing id is a no-op |
| Reducers.DeleteShape | server/Lib.cs:74-78 | afterwards no shape with that id exists, every other shape and every user is unchanged; a missing id is a no-op |
| Reducers.ClientConnected | server/Lib.cs:80-99 | the caller's row exists afterwards and is online; a known caller keeps name and cursor; an unknown caller is seeded with no name and cursor (0,0); no other row changes |
| Reducers.ClientDisconnected | server/Lib.cs:101-109 | the caller's row becomes offline and keeps name and cursor; a caller without a row is a no-op; no other row changes |
| Reducers.UpdateCursor | server/Lib.cs:111-120 | only the caller's own cursor columns change, to the arguments; name and online kept; other users and the shape table untouched; no row means no-op |
| Reducers.SetUserName | server/Lib.cs:122-130 | only the caller's own name changes, to the argument; online and cursor kept; other users and the shape table untouched; no row means no-op |
| Reducers.UpdateShapeComposes | server/Lib.cs:61-72 | two updates of one shape equal a single update whose each column is the later present write: last write wins per column, and writes to different columns are both kept |
| Reducers.DisjointUpdatesCommute | server/Lib.cs:61-72 | two updates of one shape that touch disjoint columns give the same state in either commit order (no lost update) |
| Reducers.MoveAndUpdateIdempotent | server/Lib.cs:50-72 | repeating a MoveShape or an UpdateShape call gives the state of a single call, so retries are safe |
| Reducers.DeleteIsFinal | server/Lib.cs:50-78 | deleting twice equals deleting once, and a MoveShape or UpdateShape on the deleted id afterwards changes nothing |
| Reducers.ReconnectKeepsProfile | server/Lib.cs:80-109 | disconnect then connect gives exactly the state of one connect, so name and cursor persist across reconnects; connecting twice equals connecting once |
| Reducers.OneDisconnectEndsPresence | server/Lib.cs:80-109 | after two connects of one identity and a single disconnect the user is offline: online is one flag, not a count of sessions |
| Server.Database.CreateShape | server/Lib.cs:32-48 | the shape table becomes `Reducers.CreateShape` of the old tables, one key is added, the user table is outside the frame, keys stay valid |
| Server.Database.MoveShape | server/Lib.cs:50-59 | the tables become `Reducers.MoveShape` of the old tables, only the shape table may change, and a missing id leaves it identical |
| Server.Database.UpdateShape | server/Lib.cs:61-72 | the tables become `Reducers.UpdateShape` of the old tables, only the shape table may change, and a missing id leaves it identical |
| Server.Database.DeleteShape | server/Lib.cs:74-78 | the tables become `Reducers.DeleteShape` of the old tables, the id is gone, only the shape table may change |
| Server.Database.ClientConnected | server/Lib.cs:80-99 | the tables become `Reducers.ClientConnected` of the old tables, the caller is present, online and stored under its own identity, only the user table may change |
| Server.Database.ClientDisconnected | server/Lib.cs:101-109 | the tables become `Reducers.ClientDisconnected` of the old tables, only the user table may change, a missing caller leaves it identical |
| Server.Database.UpdateCursor | server/Lib.cs:111-120 | the tables become `Reducers.UpdateCursor` of the old tables, only the user table may change, a missing caller leaves it identical |
| Server.Database.SetUserName | server/Lib.cs:122-130 | the tables become `Reducers.SetUserName` of the old tables, only the user table may change, a missing caller leaves it identical |
| History.Run | server/Lib.cs:80-130 | over any history of calls, no user row is ever removed, and every row stays under its own primary key |
| History.UserRowFollowsOwnCalls | server/Lib.cs:80-130 | after any history, a user's row equals the row that user's own connect, disconnect, cursor and rename calls alone produce: no other caller and no shape reducer changes it |
| History.ShapeFollowsLastWrites | server/Lib.cs:50-78 | a shape that no call deletes survives any history; its id, kind, creator and creation time never change; its position is the arguments of the last move of that shape and its colour the argument of the last colour update, in commit order (`LastPosition` and `LastColor` are proved to pick exactly the last matching call) |
| History.CreatedIdsDistinct | server/Lib.cs:32-48 | in a history without deletions in which every insert used an unused id, all created shapes are still present and no two CreateShape calls share an id |

## Left out

- Random id generation (`Random.Shared.Next()` cast to `uint`) is not modelled: the id is a parameter, and `CreateShape` requires it to be unused. Nothing in the server guarantees that, so uniqueness is an assumption of the model, not a property of the program.
- A duplicate-key `Insert` is not modelled. Its behaviour belongs to the database runtime. In `History`, a history whose `CreateShape` names an id in use has no result (`Run` is `None`).
- Reducer scheduling, atomicity and serialization are provided by the SpacetimeDB runtime. The model treats each reducer as one atomic step and a history as a sequence in commit order.
- Subscriptions, snapshots and the broadcast of row changes to clients are runtime services and are not modelled.
- Single-precision float rounding is not modelled, because the server only stores and copies these values.
- The client (React components, shape rendering, connection bootstrap and token storage) is presentation and I/O, and is not part of this model.
