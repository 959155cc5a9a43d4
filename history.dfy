/** A history of reducer calls, applied one after another in commit order,
    and what any such history guarantees about the tables. Each call
    carries what its reducer context supplies: the caller's identity and
    the commit timestamp. */
module History {
  import opened Rows
  import Reducers

  /** A reducer with its arguments. For `CreateShape` the new id is part of
      the call, in place of the random draw. */
  datatype Reducer =
    | CreateShape(newId: ShapeId, kind: string, x: real, y: real, width: real, height: real, color: string)
    | MoveShape(shapeId: ShapeId, newX: real, newY: real)
    | UpdateShape(shapeId: ShapeId, setWidth: Option<real>, setHeight: Option<real>,
                  setColor: Option<string>, setRotation: Option<real>)
    | DeleteShape(shapeId: ShapeId)
    | ClientConnected
    | ClientDisconnected
    | UpdateCursor(x: real, y: real)
    | SetUserName(name: string)

  datatype Call = Call(sender: Identity, timestamp: Timestamp, reducer: Reducer)

  /** One committed call. `None` when a `CreateShape` names an id already in
      use: such a history lies outside this model. */
  function Apply(t: Tables, c: Call): (r: Option<Tables>)
    ensures r.None? <==> c.reducer.CreateShape? && c.reducer.newId in t.shape
  {
    match c.reducer
    case CreateShape(id, kind, x, y, w, h, color) =>
      if id in t.shape then None
      else Some(Reducers.CreateShape(t, c.sender, c.timestamp, id, kind, x, y, w, h, color))
    case MoveShape(id, nx, ny) => Some(Reducers.MoveShape(t, id, nx, ny))
    case UpdateShape(id, w, h, color, rot) => Some(Reducers.UpdateShape(t, id, w, h, color, rot))
    case DeleteShape(id) => Some(Reducers.DeleteShape(t, id))
    case ClientConnected => Some(Reducers.ClientConnected(t, c.sender))
    case ClientDisconnected => Some(Reducers.ClientDisconnected(t, c.sender))
    case UpdateCursor(x, y) => Some(Reducers.UpdateCursor(t, c.sender, x, y))
    case SetUserName(name) => Some(Reducers.SetUserName(t, c.sender, name))
  }

  /** The tables after every call of `calls`, in order. A user row, once
      created, is never removed, and every row stays under its own key. */
  function Run(t: Tables, calls: seq<Call>): (r: Option<Tables>)
    ensures r.Some? ==> t.user.Keys <= r.value.user.Keys
    ensures r.Some? && Keyed(t) ==> Keyed(r.value)
    decreases |calls|
  {
    if calls == [] then Some(t)
    else match Run(t, calls[..|calls| - 1])
      case None => None
      case Some(mid) => Apply(mid, calls[|calls| - 1])
  }

  lemma RunAppend(t: Tables, calls: seq<Call>, c: Call)
    ensures Run(t, calls + [c]) == match Run(t, calls) case None => None case Some(mid) => Apply(mid, c)
  {
  }

  // ---------------------------------------------------------------------
  // Presence: a user's row is shaped only by that user's own calls
  // ---------------------------------------------------------------------

  /** A call made by `u` that writes the `user` table. */
  predicate IsPresenceOf(c: Call, u: Identity) {
    c.sender == u && (c.reducer.ClientConnected? || c.reducer.ClientDisconnected?
                      || c.reducer.UpdateCursor? || c.reducer.SetUserName?)
  }

  /** The subsequence of `calls` made by `u` that write the `user` table. */
  function OwnPresence(calls: seq<Call>, u: Identity): (r: seq<Call>)
    ensures forall i :: 0 <= i < |r| ==> IsPresenceOf(r[i], u)
    ensures |r| <= |calls|
    decreases |calls|
  {
    if calls == [] then []
    else
      var last := calls[|calls| - 1];
      OwnPresence(calls[..|calls| - 1], u) + if IsPresenceOf(last, u) then [last] else []
  }

  /** A call that is not one of `u`'s presence calls leaves `u`'s row alone. */
  lemma ApplyLeavesOtherUser(t: Tables, c: Call, u: Identity)
    requires Apply(t, c).Some? && !IsPresenceOf(c, u)
    ensures Find(Apply(t, c).value.user, u) == Find(t.user, u)
  {
  }

  /** One of `u`'s presence calls reads only `u`'s row to compute the new one. */
  lemma ApplyOwnIsLocal(a: Tables, b: Tables, c: Call, u: Identity)
    requires IsPresenceOf(c, u) && Find(a.user, u) == Find(b.user, u)
    ensures Apply(a, c).Some? && Apply(b, c).Some?
    ensures Find(Apply(a, c).value.user, u) == Find(Apply(b, c).value.user, u)
  {
  }

  /** Presence calls never touch the shape table, so a history of them always
      applies. */
  lemma {:induction false} PresenceRunDefined(t: Tables, calls: seq<Call>, u: Identity)
    requires forall i :: 0 <= i < |calls| ==> IsPresenceOf(calls[i], u)
    ensures Run(t, calls).Some?
    decreases |calls|
  {
    if calls != [] {
      PresenceRunDefined(t, calls[..|calls| - 1], u);
    }
  }

  /** Whatever else happens in between, the row of `u` after a history is
      the row that `u`'s own connects, disconnects, cursor moves and renames
      alone produce: no other caller and no shape reducer ever changes it. */
  lemma {:induction false} UserRowFollowsOwnCalls(t: Tables, calls: seq<Call>, u: Identity)
    requires Run(t, calls).Some?
    ensures Run(t, OwnPresence(calls, u)).Some?
    ensures Find(Run(t, calls).value.user, u) == Find(Run(t, OwnPresence(calls, u)).value.user, u)
    decreases |calls|
  {
    PresenceRunDefined(t, OwnPresence(calls, u), u);
    if calls != [] {
      var prefix, last := calls[..|calls| - 1], calls[|calls| - 1];
      assert calls == prefix + [last];
      UserRowFollowsOwnCalls(t, prefix, u);
      var mid := Run(t, prefix).value;
      var own := OwnPresence(prefix, u);
      var ownMid := Run(t, own).value;
      if IsPresenceOf(last, u) {
        assert OwnPresence(calls, u) == own + [last];
        RunAppend(t, own, last);
        ApplyOwnIsLocal(mid, ownMid, last, u);
      } else {
        assert OwnPresence(calls, u) == own;
        ApplyLeavesOtherUser(mid, last, u);
      }
    }
  }

  // ---------------------------------------------------------------------
  // Shapes: last write wins, provenance is fixed, ids of live shapes differ
  // ---------------------------------------------------------------------

  /** No call of `calls` deletes the shape `id`. */
  predicate NeverDeletes(calls: seq<Call>, id: ShapeId) {
    forall i :: 0 <= i < |calls| ==> calls[i].reducer != DeleteShape(id)
  }

  /** A call that moves shape `id`. */
  predicate IsMoveOf(c: Call, id: ShapeId) {
    c.reducer.MoveShape? && c.reducer.shapeId == id
  }

  /** A call that writes the colour of shape `id`. */
  predicate IsColorWriteOf(c: Call, id: ShapeId) {
    c.reducer.UpdateShape? && c.reducer.shapeId == id && c.reducer.setColor.Some?
  }

  /** The position given by the last `MoveShape` of shape `id` in `calls`,
      or `(x0, y0)` when there is none. */
  function LastPosition(calls: seq<Call>, id: ShapeId, x0: real, y0: real): (p: (real, real))
    ensures (forall i :: 0 <= i < |calls| ==> !IsMoveOf(calls[i], id)) ==> p == (x0, y0)
    ensures forall i :: 0 <= i < |calls| && IsMoveOf(calls[i], id)
                        && (forall j :: i < j < |calls| ==> !IsMoveOf(calls[j], id))
                        ==> p == (calls[i].reducer.newX, calls[i].reducer.newY)
    decreases |calls|
  {
    if calls == [] then (x0, y0)
    else
      var last := calls[|calls| - 1];
      if IsMoveOf(last, id) then (last.reducer.newX, last.reducer.newY)
      else
        var prefix := calls[..|calls| - 1];
        assert forall i :: 0 <= i < |prefix| ==> prefix[i] == calls[i];
        LastPosition(prefix, id, x0, y0)
  }

  /** The colour given by the last `UpdateShape` of shape `id` in `calls` that
      carries a colour, or `c0` when there is none. */
  function LastColor(calls: seq<Call>, id: ShapeId, c0: string): (c: string)
    ensures (forall i :: 0 <= i < |calls| ==> !IsColorWriteOf(calls[i], id)) ==> c == c0
    ensures forall i :: 0 <= i < |calls| && IsColorWriteOf(calls[i], id)
                        && (forall j :: i < j < |calls| ==> !IsColorWriteOf(calls[j], id))
                        ==> c == calls[i].reducer.setColor.value
    decreases |calls|
  {
    if calls == [] then c0
    else
      var last := calls[|calls| - 1];
      if IsColorWriteOf(last, id) then last.reducer.setColor.value
      else
        var prefix := calls[..|calls| - 1];
        assert forall i :: 0 <= i < |prefix| ==> prefix[i] == calls[i];
        LastColor(prefix, id, c0)
  }

  /** A shape that nothing deletes survives every history; its id, kind,
      creator and creation time never change; its position is the one the
      last move committed and its colour the one the last colour update
      committed (last write wins, in commit order). */
  lemma {:induction false} ShapeFollowsLastWrites(t: Tables, calls: seq<Call>, id: ShapeId)
    requires Run(t, calls).Some? && id in t.shape && NeverDeletes(calls, id)
    ensures id in Run(t, calls).value.shape
    ensures var s, s' := t.shape[id], Run(t, calls).value.shape[id];
      && SameProvenance(s, s')
      && (s'.x, s'.y) == LastPosition(calls, id, s.x, s.y)
      && s'.color == LastColor(calls, id, s.color)
    decreases |calls|
  {
    if calls != [] {
      var prefix, last := calls[..|calls| - 1], calls[|calls| - 1];
      assert NeverDeletes(prefix, id);
      ShapeFollowsLastWrites(t, prefix, id);
      assert last.reducer != DeleteShape(id);
    }
  }

  /** No call of `calls` deletes any shape. */
  predicate NoDeletes(calls: seq<Call>) {
    forall i :: 0 <= i < |calls| ==> !calls[i].reducer.DeleteShape?
  }

  /** In a history without deletions, every created shape is still present
      afterwards, and no two `CreateShape` calls used the same id. The model
      obtains this from each insert's fresh-id precondition; nothing in the
      server itself draws distinct ids. */
  lemma {:induction false} CreatedIdsDistinct(t: Tables, calls: seq<Call>)
    requires Run(t, calls).Some? && NoDeletes(calls)
    ensures t.shape.Keys <= Run(t, calls).value.shape.Keys
    ensures forall i :: 0 <= i < |calls| && calls[i].reducer.CreateShape? ==>
              calls[i].reducer.newId in Run(t, calls).value.shape
    ensures forall i, j :: 0 <= i < j < |calls| && calls[i].reducer.CreateShape? && calls[j].reducer.CreateShape? ==>
              calls[i].reducer.newId != calls[j].reducer.newId
    decreases |calls|
  {
    if calls != [] {
      var prefix, last := calls[..|calls| - 1], calls[|calls| - 1];
      assert NoDeletes(prefix);
      CreatedIdsDistinct(t, prefix);
      var mid := Run(t, prefix).value;
      assert Run(t, calls) == Apply(mid, last);
      assert forall i :: 0 <= i < |prefix| ==> calls[i] == prefix[i];
      assert !last.reducer.DeleteShape?;
    }
  }
}
