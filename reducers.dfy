/** The eight reducers of the canvas server module as functions from the
    tables before the call to the tables after it. Each reducer is one atomic
    step; the caller's identity, the commit timestamp and the id of a new shape
    are parameters. */
module Reducers {
  import opened Rows

  /** `CreateShape`: insert one new shape with rotation 0, stamped with its
      creator and creation time. The id comes from a random generator that
      is not part of this model; it must not be in use. */
  function CreateShape(t: Tables, sender: Identity, timestamp: Timestamp, newId: ShapeId,
                       kind: string, x: real, y: real, width: real, height: real, color: string): (r: Tables)
    requires newId !in t.shape
    ensures r.user == t.user
    ensures r.shape.Keys == t.shape.Keys + {newId}
    ensures forall id :: id in t.shape ==> r.shape[id] == t.shape[id]
    ensures var s := r.shape[newId];
      && s.id == newId && s.kind == kind
      && s.x == x && s.y == y && s.width == width && s.height == height
      && s.color == color && s.rotation == 0.0
      && s.createdBy == sender && s.createdAt == timestamp
    ensures Keyed(t) ==> Keyed(r)
  {
    var row := Shape(newId, kind, x, y, width, height, color, 0.0, sender, timestamp);
    t.(shape := t.shape[newId := row])
  }

  /** `MoveShape`: overwrite the position of an existing shape; on a missing
      id, do nothing. */
  function MoveShape(t: Tables, shapeId: ShapeId, newX: real, newY: real): (r: Tables)
    ensures r.user == t.user
    ensures r.shape.Keys == t.shape.Keys
    ensures AgreeExcept(t.shape, r.shape, shapeId)
    ensures shapeId !in t.shape ==> r == t
    ensures shapeId in t.shape ==> var s, s' := t.shape[shapeId], r.shape[shapeId];
      && s'.x == newX && s'.y == newY
      && s'.width == s.width && s'.height == s.height
      && s'.color == s.color && s'.rotation == s.rotation
      && SameProvenance(s, s')
    ensures Keyed(t) ==> Keyed(r)
  {
    match Find(t.shape, shapeId)
    case None => t
    case Some(shape) =>
      var moved := shape.(x := newX, y := newY);
      t.(shape := t.shape[shapeId := moved])
  }

  /** `UpdateShape`: on an existing shape, overwrite each of width, height,
      color and rotation whose argument is present; on a missing id, do nothing. */
  function UpdateShape(t: Tables, shapeId: ShapeId, width: Option<real>, height: Option<real>,
                       color: Option<string>, rotation: Option<real>): (r: Tables)
    ensures r.user == t.user
    ensures r.shape.Keys == t.shape.Keys
    ensures AgreeExcept(t.shape, r.shape, shapeId)
    ensures shapeId !in t.shape ==> r == t
    ensures shapeId in t.shape ==> var s, s' := t.shape[shapeId], r.shape[shapeId];
      && s'.width == width.GetOr(s.width)
      && s'.height == height.GetOr(s.height)
      && s'.color == color.GetOr(s.color)
      && s'.rotation == rotation.GetOr(s.rotation)
      && s'.x == s.x && s'.y == s.y
      && SameProvenance(s, s')
    ensures Keyed(t) ==> Keyed(r)
  {
    match Find(t.shape, shapeId)
    case None => t
    case Some(shape) =>
      var s1 := if width.Some? then shape.(width := width.value) else shape;
      var s2 := if height.Some? then s1.(height := height.value) else s1;
      var s3 := if color.Some? then s2.(color := color.value) else s2;
      var s4 := if rotation.Some? then s3.(rotation := rotation.value) else s3;
      t.(shape := t.shape[shapeId := s4])
  }

  /** `DeleteShape`: remove the shape with that id; a missing id is a no-op. */
  function DeleteShape(t: Tables, shapeId: ShapeId): (r: Tables)
    ensures r.user == t.user
    ensures shapeId !in r.shape
    ensures r.shape.Keys == t.shape.Keys - {shapeId}
    ensures forall id :: id in r.shape ==> r.shape[id] == t.shape[id]
    ensures shapeId !in t.shape ==> r == t
    ensures Keyed(t) ==> Keyed(r)
  {
    t.(shape := t.shape - {shapeId})
  }

  /** `ClientConnected`: mark a known caller online, keeping name and cursor;
      seed an unknown caller with no name, online, cursor at the origin. */
  function ClientConnected(t: Tables, sender: Identity): (r: Tables)
    ensures r.shape == t.shape
    ensures r.user.Keys == t.user.Keys + {sender}
    ensures AgreeExcept(t.user, r.user, sender)
    ensures var u' := r.user[sender];
      && u'.online
      && (sender in t.user ==> var u := t.user[sender];
            u'.identity == u.identity && u'.name == u.name && u'.cursorX == u.cursorX && u'.cursorY == u.cursorY)
      && (sender !in t.user ==>
            u'.identity == sender && u'.name == None && u'.cursorX == 0.0 && u'.cursorY == 0.0)
    ensures Keyed(t) ==> Keyed(r)
  {
    match Find(t.user, sender)
    case Some(user) => t.(user := t.user[sender := user.(online := true)])
    case None => t.(user := t.user[sender := User(sender, None, true, 0.0, 0.0)])
  }

  /** `ClientDisconnected`: mark the caller offline, keeping name and cursor;
      a caller without a row is a no-op. */
  function ClientDisconnected(t: Tables, sender: Identity): (r: Tables)
    ensures r.shape == t.shape
    ensures r.user.Keys == t.user.Keys
    ensures AgreeExcept(t.user, r.user, sender)
    ensures sender !in t.user ==> r == t
    ensures sender in t.user ==> var u, u' := t.user[sender], r.user[sender];
      && !u'.online
      && u'.identity == u.identity && u'.name == u.name && u'.cursorX == u.cursorX && u'.cursorY == u.cursorY
    ensures Keyed(t) ==> Keyed(r)
  {
    match Find(t.user, sender)
    case Some(user) => t.(user := t.user[sender := user.(online := false)])
    case None => t
  }

  /** `UpdateCursor`: overwrite the caller's own cursor position; a caller
      without a row is a no-op. */
  function UpdateCursor(t: Tables, sender: Identity, x: real, y: real): (r: Tables)
    ensures r.shape == t.shape
    ensures r.user.Keys == t.user.Keys
    ensures AgreeExcept(t.user, r.user, sender)
    ensures sender !in t.user ==> r == t
    ensures sender in t.user ==> var u, u' := t.user[sender], r.user[sender];
      && u'.cursorX == x && u'.cursorY == y
      && u'.identity == u.identity && u'.name == u.name && u'.online == u.online
    ensures Keyed(t) ==> Keyed(r)
  {
    match Find(t.user, sender)
    case Some(user) => t.(user := t.user[sender := user.(cursorX := x, cursorY := y)])
    case None => t
  }

  /** `SetUserName`: overwrite the caller's own name; a caller without a row
      is a no-op. */
  function SetUserName(t: Tables, sender: Identity, name: string): (r: Tables)
    ensures r.shape == t.shape
    ensures r.user.Keys == t.user.Keys
    ensures AgreeExcept(t.user, r.user, sender)
    ensures sender !in t.user ==> r == t
    ensures sender in t.user ==> var u, u' := t.user[sender], r.user[sender];
      && u'.name == Some(name)
      && u'.identity == u.identity && u'.online == u.online
      && u'.cursorX == u.cursorX && u'.cursorY == u.cursorY
    ensures Keyed(t) ==> Keyed(r)
  {
    match Find(t.user, sender)
    case Some(user) => t.(user := t.user[sender := user.(name := Some(name))])
    case None => t
  }

  // ---------------------------------------------------------------------
  // Laws relating several reducer calls
  // ---------------------------------------------------------------------

  /** The later of two optional writes to the same column: the second when it
      is present, otherwise the first. */
  function Later<T>(first: Option<T>, second: Option<T>): Option<T> {
    if second.Some? then second else first
  }

  /** Two `UpdateShape` calls on one shape act like a single call whose every
      column is the later of the two writes: same-column writes resolve
      last-write-wins, writes to different columns are both kept. */
  lemma UpdateShapeComposes(t: Tables, shapeId: ShapeId,
      w1: Option<real>, h1: Option<real>, c1: Option<string>, r1: Option<real>,
      w2: Option<real>, h2: Option<real>, c2: Option<string>, r2: Option<real>)
    ensures UpdateShape(UpdateShape(t, shapeId, w1, h1, c1, r1), shapeId, w2, h2, c2, r2)
         == UpdateShape(t, shapeId, Later(w1, w2), Later(h1, h2), Later(c1, c2), Later(r1, r2))
  {
  }

  /** Two `UpdateShape` calls on one shape whose present arguments touch
      disjoint columns give the same state in either commit order: no update
      is lost. */
  lemma DisjointUpdatesCommute(t: Tables, shapeId: ShapeId,
      w1: Option<real>, h1: Option<real>, c1: Option<string>, r1: Option<real>,
      w2: Option<real>, h2: Option<real>, c2: Option<string>, r2: Option<real>)
    requires !(w1.Some? && w2.Some?) && !(h1.Some? && h2.Some?)
    requires !(c1.Some? && c2.Some?) && !(r1.Some? && r2.Some?)
    ensures UpdateShape(UpdateShape(t, shapeId, w1, h1, c1, r1), shapeId, w2, h2, c2, r2)
         == UpdateShape(UpdateShape(t, shapeId, w2, h2, c2, r2), shapeId, w1, h1, c1, r1)
  {
  }

  /** Retrying `MoveShape` or `UpdateShape` gives the state a single call gives. */
  lemma MoveAndUpdateIdempotent(t: Tables, shapeId: ShapeId, x: real, y: real,
      w: Option<real>, h: Option<real>, c: Option<string>, rot: Option<real>)
    ensures MoveShape(MoveShape(t, shapeId, x, y), shapeId, x, y) == MoveShape(t, shapeId, x, y)
    ensures UpdateShape(UpdateShape(t, shapeId, w, h, c, rot), shapeId, w, h, c, rot)
         == UpdateShape(t, shapeId, w, h, c, rot)
  {
  }

  /** Deleting twice gives the state deleting once gives, and a move or an
      update applied after the delete changes nothing: the deleted shape does
      not reappear. */
  lemma DeleteIsFinal(t: Tables, shapeId: ShapeId, x: real, y: real,
      w: Option<real>, h: Option<real>, c: Option<string>, rot: Option<real>)
    ensures DeleteShape(DeleteShape(t, shapeId), shapeId) == DeleteShape(t, shapeId)
    ensures MoveShape(DeleteShape(t, shapeId), shapeId, x, y) == DeleteShape(t, shapeId)
    ensures UpdateShape(DeleteShape(t, shapeId), shapeId, w, h, c, rot) == DeleteShape(t, shapeId)
  {
  }

  /** A disconnect followed by a reconnect restores exactly the state a single
      connect gives: name and cursor survive, the user is online again. */
  lemma ReconnectKeepsProfile(t: Tables, sender: Identity)
    ensures ClientConnected(ClientDisconnected(t, sender), sender) == ClientConnected(t, sender)
    ensures ClientConnected(ClientConnected(t, sender), sender) == ClientConnected(t, sender)
  {
  }

  /** The `online` column is one flag per identity, not a count of sessions:
      when one identity connects twice (two clients sharing a token) and one
      of the two sessions ends, the user is marked offline although the other
      session is still connected. */
  lemma OneDisconnectEndsPresence(t: Tables, sender: Identity)
    ensures !ClientDisconnected(ClientConnected(ClientConnected(t, sender), sender), sender).user[sender].online
  {
  }
}
