/** The server module's database as mutable state: the `shape` and `user`
    tables are fields that only the eight reducer methods change. Each method
    finds the row by primary key, assigns the columns the reducer writes and
    stores the row back, or leaves the tables alone when the key is missing;
    its contract ties the new tables to the reducer's function in `Reducers`
    and frames the table it does not touch. */
module Server {
  import opened Rows
  import Reducers

  class Database {
    var shape: map<ShapeId, Shape>
    var user: map<Identity, User>

    /** Both tables as one value. */
    function State(): Tables
      reads this
    {
      Tables(shape, user)
    }

    /** The database invariant: every row sits under its own primary key.
        Because of it, storing a row with `shape[shapeId := s]` is the same
        as the source writing the row back through its primary-key column
        (`ctx.Db.shape.Id.Update(shape)`), and a caller's user row carries
        the caller's identity. */
    ghost predicate Valid()
      reads this
    {
      Keyed(State())
    }

    /** A freshly published module starts with both tables empty. */
    constructor ()
      ensures Valid()
      ensures shape == map[] && user == map[]
    {
      shape := map[];
      user := map[];
    }

    method CreateShape(sender: Identity, timestamp: Timestamp, newId: ShapeId, kind: string,
                       x: real, y: real, width: real, height: real, color: string)
      requires Valid()
      requires newId !in shape
      modifies this`shape
      ensures Valid()
      ensures State() == Reducers.CreateShape(old(State()), sender, timestamp, newId, kind, x, y, width, height, color)
      ensures shape.Keys == old(shape.Keys) + {newId}
    {
      var row := Shape(newId, kind, x, y, width, height, color, 0.0, sender, timestamp);
      shape := shape[newId := row];
    }

    method MoveShape(shapeId: ShapeId, newX: real, newY: real)
      requires Valid()
      modifies this`shape
      ensures Valid()
      ensures State() == Reducers.MoveShape(old(State()), shapeId, newX, newY)
      ensures shapeId !in old(shape) ==> shape == old(shape)
    {
      if shapeId in shape {
        var s := shape[shapeId];
        s := s.(x := newX);
        s := s.(y := newY);
        shape := shape[shapeId := s];
      }
    }

    method UpdateShape(shapeId: ShapeId, width: Option<real>, height: Option<real>,
                       color: Option<string>, rotation: Option<real>)
      requires Valid()
      modifies this`shape
      ensures Valid()
      ensures State() == Reducers.UpdateShape(old(State()), shapeId, width, height, color, rotation)
      ensures shapeId !in old(shape) ==> shape == old(shape)
    {
      if shapeId in shape {
        var s := shape[shapeId];
        if width.Some? { s := s.(width := width.value); }
        if height.Some? { s := s.(height := height.value); }
        if color.Some? { s := s.(color := color.value); }
        if rotation.Some? { s := s.(rotation := rotation.value); }
        shape := shape[shapeId := s];
      }
    }

    method DeleteShape(shapeId: ShapeId)
      requires Valid()
      modifies this`shape
      ensures Valid()
      ensures State() == Reducers.DeleteShape(old(State()), shapeId)
      ensures shapeId !in shape
    {
      shape := shape - {shapeId};
    }

    method ClientConnected(sender: Identity)
      requires Valid()
      modifies this`user
      ensures Valid()
      ensures State() == Reducers.ClientConnected(old(State()), sender)
      ensures sender in user && user[sender].online && user[sender].identity == sender
    {
      if sender in user {
        var u := user[sender];
        u := u.(online := true);
        user := user[sender := u];
      } else {
        user := user[sender := User(sender, None, true, 0.0, 0.0)];
      }
    }

    method ClientDisconnected(sender: Identity)
      requires Valid()
      modifies this`user
      ensures Valid()
      ensures State() == Reducers.ClientDisconnected(old(State()), sender)
      ensures sender !in old(user) ==> user == old(user)
    {
      if sender in user {
        var u := user[sender];
        u := u.(online := false);
        user := user[sender := u];
      }
    }

    method UpdateCursor(sender: Identity, x: real, y: real)
      requires Valid()
      modifies this`user
      ensures Valid()
      ensures State() == Reducers.UpdateCursor(old(State()), sender, x, y)
      ensures sender !in old(user) ==> user == old(user)
    {
      if sender in user {
        var u := user[sender];
        u := u.(cursorX := x, cursorY := y);
        user := user[sender := u];
      }
    }

    method SetUserName(sender: Identity, name: string)
      requires Valid()
      modifies this`user
      ensures Valid()
      ensures State() == Reducers.SetUserName(old(State()), sender, name)
      ensures sender !in old(user) ==> user == old(user)
    {
      if sender in user {
        var u := user[sender];
        u := u.(name := Some(name));
        user := user[sender := u];
      }
    }
  }
}
