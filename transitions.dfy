/**
 * What each command of the diagram engine does to the diagram, as pure
 * functions of the old diagram, and the properties they have. The engine's
 * methods are proved to follow these functions.
 */
module Transitions {
  import opened Wrappers
  import opened JsonValues
  import opened DiagramTypes
  import opened ShapePatches
  import opened Filtering

  /** A command's new diagram together with what it returned. */
  datatype Step = Step(diagram: Diagram, outcome: Outcome)

  predicate HasShape(shapes: seq<Shape>, sid: string)
  {
    exists s :: s in shapes && s.id == sid
  }

  predicate HasConnector(connectors: seq<Connector>, cid: string)
  {
    exists c :: c in connectors && c.id == cid
  }

  predicate References(c: Connector, sid: string)
  {
    c.fromShapeId == sid || c.toShapeId == sid
  }

  /** The retain predicates of the two delete commands. */
  function OtherShape(sid: string): Shape -> bool
  {
    (s: Shape) => s.id != sid
  }

  function Detached(sid: string): Connector -> bool
  {
    (c: Connector) => !References(c, sid)
  }

  function OtherConnector(cid: string): Connector -> bool
  {
    (c: Connector) => c.id != cid
  }

  /** The index `iter_mut().find` stops at: the first shape with the id. */
  function FirstShapeIndex(shapes: seq<Shape>, sid: string): (r: Option<nat>)
    ensures r.None? <==> !HasShape(shapes, sid)
    ensures r.Some? ==>
      && r.value < |shapes|
      && shapes[r.value].id == sid
      && forall j :: 0 <= j < r.value ==> shapes[j].id != sid
    decreases |shapes|
  {
    if shapes == [] then None
    else if shapes[0].id == sid then Some(0)
    else
      assert forall s :: s in shapes <==> s == shapes[0] || s in shapes[1..];
      match FirstShapeIndex(shapes[1..], sid)
      case None => None
      case Some(k) => Some(k + 1)
  }

  /** Append the shape on top of the others. */
  function AddShape(d: Diagram, shape: Shape, now: Timestamp): (r: Diagram)
    ensures |r.shapes| == |d.shapes| + 1
    ensures r.shapes[..|d.shapes|] == d.shapes && r.shapes[|d.shapes|] == shape
    ensures r == d.(shapes := r.shapes, updatedAt := now)
  {
    d.(shapes := d.shapes + [shape], updatedAt := now)
  }

  /** Append the connector; neither its id nor its endpoints are checked. */
  function AddConnector(d: Diagram, connector: Connector, now: Timestamp): (r: Diagram)
    ensures |r.connectors| == |d.connectors| + 1
    ensures r.connectors[..|d.connectors|] == d.connectors && r.connectors[|d.connectors|] == connector
    ensures r == d.(connectors := r.connectors, updatedAt := now)
  {
    d.(connectors := d.connectors + [connector], updatedAt := now)
  }

  /** Replace the settings wholesale. */
  function UpdateSettings(d: Diagram, settings: DiagramSettings, now: Timestamp): (r: Diagram)
    ensures r.settings == settings && r.updatedAt == now
    ensures r.shapes == d.shapes && r.connectors == d.connectors
    ensures r.id == d.id && r.name == d.name && r.createdAt == d.createdAt
  {
    d.(settings := settings, updatedAt := now)
  }

  /** Patch the first shape with the id; fail, changing nothing, when there is none. */
  function UpdateShape(d: Diagram, sid: string, updates: Value, now: Timestamp): (r: Step)
    ensures r.outcome.Ok? <==> HasShape(d.shapes, sid)
    ensures r.outcome.Err? ==> r == Step(d, Err(ShapeNotFound))
    ensures SameIds(d.shapes, r.diagram.shapes)
    ensures r.diagram == d.(shapes := r.diagram.shapes, updatedAt := r.diagram.updatedAt)
  {
    match FirstShapeIndex(d.shapes, sid)
    case None => Step(d, Err(ShapeNotFound))
    case Some(k) =>
      Step(d.(shapes := d.shapes[k := ApplyPatch(d.shapes[k], PatchOf(updates))], updatedAt := now), Ok(()))
  }

  /**
   * Remove every shape with the id and every connector attached to it. The
   * connectors go whether or not a shape was found; only success refreshes
   * the timestamp.
   */
  function DeleteShape(d: Diagram, sid: string, now: Timestamp): (r: Step)
    ensures r.outcome.Ok? <==> HasShape(d.shapes, sid)
    ensures r.outcome.Err? ==> r.outcome.error == ShapeNotFound && r.diagram.updatedAt == d.updatedAt
    ensures !HasShape(r.diagram.shapes, sid)
    ensures forall c :: c in r.diagram.connectors ==> !References(c, sid)
    ensures r.diagram.settings == d.settings
    ensures r.diagram.id == d.id && r.diagram.name == d.name && r.diagram.createdAt == d.createdAt
  {
    var connectors := Filter(d.connectors, Detached(sid));
    if HasShape(d.shapes, sid) then
      Step(d.(shapes := Filter(d.shapes, OtherShape(sid)), connectors := connectors, updatedAt := now), Ok(()))
    else
      Step(d.(connectors := connectors), Err(ShapeNotFound))
  }

  /** Remove every connector with the id; fail, changing nothing, when there is none. */
  function DeleteConnector(d: Diagram, cid: string, now: Timestamp): (r: Step)
    ensures r.outcome.Ok? <==> HasConnector(d.connectors, cid)
    ensures r.outcome.Err? ==> r == Step(d, Err(ConnectorNotFound))
    ensures !HasConnector(r.diagram.connectors, cid)
    ensures r.diagram.shapes == d.shapes && r.diagram.settings == d.settings
  {
    if HasConnector(d.connectors, cid) then
      Step(d.(connectors := Filter(d.connectors, OtherConnector(cid)), updatedAt := now), Ok(()))
    else
      Step(d, Err(ConnectorNotFound))
  }

  // ---------------------------------------------------------------------
  // Appending commands

  /** Two shapes added to a diagram come out in the order they were added. */
  lemma AddShapesInOrder(d: Diagram, s1: Shape, s2: Shape, t1: Timestamp, t2: Timestamp)
    ensures var d' := AddShape(AddShape(d, s1, t1), s2, t2);
      d'.shapes == d.shapes + [s1, s2] && d'.connectors == d.connectors && d'.updatedAt == t2
  {
  }

  /** Deleting a freshly added shape that nothing references restores the shapes and connectors. */
  lemma AddThenDeleteShape(d: Diagram, s: Shape, t1: Timestamp, t2: Timestamp)
    requires !HasShape(d.shapes, s.id)
    requires forall c :: c in d.connectors ==> !References(c, s.id)
    ensures var st := DeleteShape(AddShape(d, s, t1), s.id, t2);
      && st.outcome == Ok(())
      && st.diagram == d.(updatedAt := t2)
  {
    var added := AddShape(d, s, t1);
    assert HasShape(added.shapes, s.id) by { assert s in added.shapes; }
    FilterConcat(d.shapes, [s], OtherShape(s.id));
    FilterKeepsAll(d.shapes, OtherShape(s.id));
    FilterKeepsAll(d.connectors, Detached(s.id));
  }

  /** Deleting a freshly added connector restores the connectors. */
  lemma AddThenDeleteConnector(d: Diagram, c: Connector, t1: Timestamp, t2: Timestamp)
    requires !HasConnector(d.connectors, c.id)
    ensures var st := DeleteConnector(AddConnector(d, c, t1), c.id, t2);
      && st.outcome == Ok(())
      && st.diagram == d.(updatedAt := t2)
  {
    var added := AddConnector(d, c, t1);
    assert HasConnector(added.connectors, c.id) by { assert c in added.connectors; }
    FilterConcat(d.connectors, [c], OtherConnector(c.id));
    FilterKeepsAll(d.connectors, OtherConnector(c.id));
  }

  // ---------------------------------------------------------------------
  // update_shape

  /** Two shape sequences that hold the same ids at the same places. */
  predicate SameIds(a: seq<Shape>, b: seq<Shape>)
  {
    |a| == |b| && forall i :: 0 <= i < |a| ==> a[i].id == b[i].id
  }

  /** The first-match search looks only at ids. */
  lemma FirstShapeIndexSameIds(a: seq<Shape>, b: seq<Shape>, sid: string)
    requires SameIds(a, b)
    ensures FirstShapeIndex(a, sid) == FirstShapeIndex(b, sid)
  {
  }

  lemma SameIdsHasShape(a: seq<Shape>, b: seq<Shape>, sid: string)
    requires SameIds(a, b)
    ensures HasShape(a, sid) <==> HasShape(b, sid)
  {
  }

  /**
   * update_shape succeeds exactly when some shape has the id. Then only the
   * first such shape changes, by the patch; otherwise nothing changes.
   */
  lemma UpdateShapeEffect(d: Diagram, sid: string, updates: Value, now: Timestamp)
    ensures var st := UpdateShape(d, sid, updates, now);
      && (st.outcome.Ok? <==> HasShape(d.shapes, sid))
      && (st.outcome.Err? ==> st.outcome.error == ShapeNotFound && st.diagram == d)
      && (st.outcome.Ok? ==>
            var k := FirstShapeIndex(d.shapes, sid).value;
            && |st.diagram.shapes| == |d.shapes|
            && st.diagram.shapes[k] == ApplyPatch(d.shapes[k], PatchOf(updates))
            && (forall j :: 0 <= j < k ==> d.shapes[j].id != sid)
            && (forall j :: 0 <= j < |d.shapes| && j != k ==> st.diagram.shapes[j] == d.shapes[j])
            && st.diagram == d.(shapes := st.diagram.shapes, updatedAt := now))
  {
  }

  /** update_shape never changes which ids the shapes have. */
  lemma UpdateShapeKeepsIds(d: Diagram, sid: string, updates: Value, now: Timestamp)
    ensures SameIds(d.shapes, UpdateShape(d, sid, updates, now).diagram.shapes)
  {
  }

  /** Repeating an update changes no shape further. */
  lemma UpdateShapeIdempotent(d: Diagram, sid: string, updates: Value, t1: Timestamp, t2: Timestamp)
    ensures var once := UpdateShape(d, sid, updates, t1);
      var twice := UpdateShape(once.diagram, sid, updates, t2);
      twice.outcome == once.outcome && twice.diagram.shapes == once.diagram.shapes
  {
    var once := UpdateShape(d, sid, updates, t1);
    UpdateShapeKeepsIds(d, sid, updates, t1);
    FirstShapeIndexSameIds(d.shapes, once.diagram.shapes, sid);
    match FirstShapeIndex(d.shapes, sid)
    case None =>
    case Some(k) =>
      var patched := ApplyPatch(d.shapes[k], PatchOf(updates));
      assert once.diagram.shapes == d.shapes[k := patched];
      ApplyPatchIdempotent(d.shapes[k], PatchOf(updates));
      assert once.diagram.shapes[k := ApplyPatch(patched, PatchOf(updates))] == once.diagram.shapes;
  }

  /**
   * A request that is not a JSON object patches nothing: when a shape has the
   * id, only the timestamp changes.
   */
  lemma UpdateShapeNonObject(d: Diagram, sid: string, updates: Value, now: Timestamp)
    requires !updates.Object? && HasShape(d.shapes, sid)
    ensures UpdateShape(d, sid, updates, now) == Step(d.(updatedAt := now), Ok(()))
  {
    var k := FirstShapeIndex(d.shapes, sid).value;
    ApplyEmptyPatch(d.shapes[k]);
    assert d.shapes[k := d.shapes[k]] == d.shapes;
  }

  /** Moving a shape at (1, 2) of size 3 x 4 to x = 5 keeps y, width and height. */
  lemma UpdateShapeExample(d: Diagram, s: Shape, now: Timestamp)
    requires d.shapes == [s] && s.x == 1.0 && s.y == 2.0 && s.width == 3.0 && s.height == 4.0
    ensures var st := UpdateShape(d, s.id, Object(map["x" := Number(5.0)]), now);
      && st.outcome == Ok(())
      && st.diagram.shapes == [s.(x := 5.0)]
  {
    assert PatchOf(Object(map["x" := Number(5.0)])) == EmptyPatch().(x := Some(5.0));
  }

  // ---------------------------------------------------------------------
  // delete_shape

  /**
   * After delete_shape no shape has the id and no connector refers to it,
   * whether the command succeeded or not.
   */
  lemma DeleteShapeCascades(d: Diagram, sid: string, now: Timestamp)
    ensures var d' := DeleteShape(d, sid, now).diagram;
      && !HasShape(d'.shapes, sid)
      && forall c :: c in d'.connectors ==> !References(c, sid)
  {
  }

  /**
   * delete_shape leaves exactly the shapes and connectors the retain
   * predicates keep, in their order; it succeeds, and refreshes the
   * timestamp, exactly when some shape had the id.
   */
  lemma DeleteShapeEffect(d: Diagram, sid: string, now: Timestamp)
    ensures var st := DeleteShape(d, sid, now);
      && (st.outcome.Ok? <==> HasShape(d.shapes, sid))
      && (st.outcome.Ok? <==> |st.diagram.shapes| < |d.shapes|)
      && st.diagram.shapes == Filter(d.shapes, OtherShape(sid))
      && st.diagram.connectors == Filter(d.connectors, Detached(sid))
      && st.diagram.updatedAt == (if st.outcome.Ok? then now else d.updatedAt)
      && (st.outcome.Err? ==> st.outcome.error == ShapeNotFound && st.diagram.shapes == d.shapes)
      && st.diagram == d.(shapes := st.diagram.shapes, connectors := st.diagram.connectors,
                          updatedAt := st.diagram.updatedAt)
  {
    if !HasShape(d.shapes, sid) {
      FilterKeepsAll(d.shapes, OtherShape(sid));
    }
  }

  /** Deleting a shape that is absent and unreferenced changes nothing. */
  lemma DeleteMissingShape(d: Diagram, sid: string, now: Timestamp)
    requires !HasShape(d.shapes, sid)
    requires forall c :: c in d.connectors ==> !References(c, sid)
    ensures DeleteShape(d, sid, now) == Step(d, Err(ShapeNotFound))
  {
    FilterKeepsAll(d.connectors, Detached(sid));
  }

  /** A second delete of the same id fails and changes nothing more. */
  lemma DeleteShapeTwice(d: Diagram, sid: string, t1: Timestamp, t2: Timestamp)
    ensures var once := DeleteShape(d, sid, t1).diagram;
      DeleteShape(once, sid, t2) == Step(once, Err(ShapeNotFound))
  {
    DeleteShapeCascades(d, sid, t1);
    FilterIdempotent(d.connectors, Detached(sid));
  }

  // ---------------------------------------------------------------------
  // delete_connector

  /**
   * delete_connector removes every connector with the id and keeps the order
   * of the rest; it succeeds exactly when the list shrank, and otherwise
   * changes nothing.
   */
  lemma DeleteConnectorEffect(d: Diagram, cid: string, now: Timestamp)
    ensures var st := DeleteConnector(d, cid, now);
      && (st.outcome.Ok? <==> |Filter(d.connectors, OtherConnector(cid))| < |d.connectors|)
      && st.diagram.connectors == Filter(d.connectors, OtherConnector(cid))
      && !HasConnector(st.diagram.connectors, cid)
      && (st.outcome.Ok? ==> st.diagram == d.(connectors := st.diagram.connectors, updatedAt := now))
      && (st.outcome.Err? ==> st.diagram == d && st.outcome.error == ConnectorNotFound)
  {
    if !HasConnector(d.connectors, cid) {
      FilterKeepsAll(d.connectors, OtherConnector(cid));
    }
  }

  // ---------------------------------------------------------------------
  // The document invariant: unique ids, connectors attached to shapes.
  // The engine does not check it; these lemmas say which commands keep it.

  function ShapeKey(s: Shape): string
  {
    s.id
  }

  function ConnectorKey(c: Connector): string
  {
    c.id
  }

  predicate Attached(d: Diagram)
  {
    forall c :: c in d.connectors ==> HasShape(d.shapes, c.fromShapeId) && HasShape(d.shapes, c.toShapeId)
  }

  ghost predicate WellFormed(d: Diagram)
  {
    && DistinctBy(d.shapes, ShapeKey)
    && DistinctBy(d.connectors, ConnectorKey)
    && Attached(d)
  }

  /** add_shape keeps the ids unique exactly when the new id is fresh. */
  lemma AddShapeDistinct(d: Diagram, s: Shape, now: Timestamp)
    ensures DistinctBy(AddShape(d, s, now).shapes, ShapeKey)
      <==> DistinctBy(d.shapes, ShapeKey) && !HasShape(d.shapes, s.id)
  {
    DistinctByAppend(d.shapes, s, ShapeKey);
  }

  lemma AddShapePreservesWellFormed(d: Diagram, s: Shape, now: Timestamp)
    requires WellFormed(d) && !HasShape(d.shapes, s.id)
    ensures WellFormed(AddShape(d, s, now))
  {
  }

  /**
   * add_connector checks nothing: the connectors stay attached exactly when
   * both endpoints name existing shapes.
   */
  lemma AddConnectorAttached(d: Diagram, c: Connector, now: Timestamp)
    ensures Attached(AddConnector(d, c, now))
      <==> Attached(d) && HasShape(d.shapes, c.fromShapeId) && HasShape(d.shapes, c.toShapeId)
  {
  }

  lemma AddConnectorPreservesWellFormed(d: Diagram, c: Connector, now: Timestamp)
    requires WellFormed(d) && !HasConnector(d.connectors, c.id)
    requires HasShape(d.shapes, c.fromShapeId) && HasShape(d.shapes, c.toShapeId)
    ensures WellFormed(AddConnector(d, c, now))
  {
  }

  lemma UpdateShapePreservesWellFormed(d: Diagram, sid: string, updates: Value, now: Timestamp)
    requires WellFormed(d)
    ensures WellFormed(UpdateShape(d, sid, updates, now).diagram)
  {
    var d' := UpdateShape(d, sid, updates, now).diagram;
    UpdateShapeKeepsIds(d, sid, updates, now);
    forall i, j | 0 <= i < j < |d'.shapes| ensures ShapeKey(d'.shapes[i]) != ShapeKey(d'.shapes[j]) {
      assert ShapeKey(d.shapes[i]) != ShapeKey(d.shapes[j]);
    }
    forall c | c in d'.connectors
      ensures HasShape(d'.shapes, c.fromShapeId) && HasShape(d'.shapes, c.toShapeId)
    {
      SameIdsHasShape(d.shapes, d'.shapes, c.fromShapeId);
      SameIdsHasShape(d.shapes, d'.shapes, c.toShapeId);
    }
  }

  /** delete_shape keeps every surviving connector attached. */
  lemma DeleteShapePreservesWellFormed(d: Diagram, sid: string, now: Timestamp)
    requires WellFormed(d)
    ensures WellFormed(DeleteShape(d, sid, now).diagram)
  {
    var d' := DeleteShape(d, sid, now).diagram;
    DeleteShapeEffect(d, sid, now);
    FilterDistinctBy(d.shapes, OtherShape(sid), ShapeKey);
    FilterDistinctBy(d.connectors, Detached(sid), ConnectorKey);
    forall c | c in d'.connectors
      ensures HasShape(d'.shapes, c.fromShapeId) && HasShape(d'.shapes, c.toShapeId)
    {
      assert c in d.connectors && !References(c, sid);
      var f :| f in d.shapes && f.id == c.fromShapeId;
      var t :| t in d.shapes && t.id == c.toShapeId;
      assert OtherShape(sid)(f) && OtherShape(sid)(t);
      assert f in d'.shapes && t in d'.shapes;
    }
  }

  lemma DeleteConnectorPreservesWellFormed(d: Diagram, cid: string, now: Timestamp)
    requires WellFormed(d)
    ensures WellFormed(DeleteConnector(d, cid, now).diagram)
  {
    FilterDistinctBy(d.connectors, OtherConnector(cid), ConnectorKey);
  }

  lemma UpdateSettingsPreservesWellFormed(d: Diagram, settings: DiagramSettings, now: Timestamp)
    requires WellFormed(d)
    ensures WellFormed(UpdateSettings(d, settings, now))
  {
  }

  // ---------------------------------------------------------------------
  // Error messages

  /** The not-found failures carry the messages the host sees. */
  lemma NotFoundMessages(d: Diagram, id: string, updates: Value, now: Timestamp)
    ensures UpdateShape(d, id, updates, now).outcome.Err? ==>
      Message(UpdateShape(d, id, updates, now).outcome.error) == "Shape not found"
    ensures DeleteShape(d, id, now).outcome.Err? ==>
      Message(DeleteShape(d, id, now).outcome.error) == "Shape not found"
    ensures DeleteConnector(d, id, now).outcome.Err? ==>
      Message(DeleteConnector(d, id, now).outcome.error) == "Connector not found"
  {
  }
}
