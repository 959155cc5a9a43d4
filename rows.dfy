/** Row types of the canvas server module: the `user` and `shape` tables and
    the identities, timestamps and ids that key or annotate their rows.

    The server stores single-precision floats but never computes with them:
    every float is only copied from a reducer argument into a row (or set to
    the constant 0). They are modelled as `real`. */
module Rows {

  datatype Option<+T> = None | Some(value: T) {
    /** The present value, or `prior` when absent. */
    function GetOr(prior: T): T {
      match this
      case Some(v) => v
      case None => prior
    }
  }

  /** An opaque identity token, compared only for equality. The model does not
      fix its length. */
  datatype Identity = Identity(bytes: seq<bv8>)

  /** A server-assigned commit timestamp, in microseconds since the Unix epoch. */
  datatype Timestamp = Timestamp(microsSinceUnixEpoch: int)

  /** The unsigned 32-bit primary key of the `shape` table. */
  newtype u32 = x: int | 0 <= x < 0x1_0000_0000

  type ShapeId = u32

  /** A row of the `user` table; `name` is absent until the user sets one. */
  datatype User = User(
    identity: Identity,
    name: Option<string>,
    online: bool,
    cursorX: real,
    cursorY: real)

  /** A row of the `shape` table. `kind` is the `Type` column: any string the
      client sent ("rectangle" and "circle" in practice, never checked). */
  datatype Shape = Shape(
    id: ShapeId,
    kind: string,
    x: real,
    y: real,
    width: real,
    height: real,
    color: string,
    rotation: real,
    createdBy: Identity,
    createdAt: Timestamp)

  /** The whole database: both tables, each a finite map from primary key to row. */
  datatype Tables = Tables(shape: map<ShapeId, Shape>, user: map<Identity, User>)

  /** Primary-key lookup, the `Find` on a table's unique index. */
  function Find<K, V>(m: map<K, V>, k: K): Option<V> {
    if k in m then Some(m[k]) else None
  }

  /** Every row is stored under its own primary-key column. */
  ghost predicate Keyed(t: Tables) {
    && (forall id :: id in t.shape ==> t.shape[id].id == id)
    && (forall u :: u in t.user ==> t.user[u].identity == u)
  }

  /** `m'` holds exactly the rows of `m` at every key other than `k`. */
  ghost predicate AgreeExcept<K, V>(m: map<K, V>, m': map<K, V>, k: K) {
    && m.Keys - {k} == m'.Keys - {k}
    && forall j :: j in m && j != k ==> j in m' && m'[j] == m[j]
  }

  /** The columns fixed at creation: key, kind, creator and creation time. */
  ghost predicate SameProvenance(s: Shape, s': Shape) {
    s'.id == s.id && s'.kind == s.kind && s'.createdBy == s.createdBy && s'.createdAt == s.createdAt
  }
}
