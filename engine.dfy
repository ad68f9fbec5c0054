/**
 * `DiagramEngine`: the object the host holds. It owns one diagram and changes
 * it in place through its commands. The host clock is read by the caller and
 * passed in as `now`; the engine stores it only when a command succeeds.
 */
module Engine {
  import opened Wrappers
  import opened JsonValues
  import opened DiagramTypes
  import opened ShapePatches
  import opened Filtering
  import Geometry
  import T = Transitions

  class DiagramEngine {
    var diagram: Diagram

    /** `new`: an empty diagram with default settings, created and updated now. */
    constructor (id: string, name: string, now: Timestamp)
      ensures diagram.id == id && diagram.name == name
      ensures diagram.shapes == [] && diagram.connectors == []
      ensures diagram.settings == DefaultSettings()
      ensures diagram.settings == DiagramSettings("#ffffff", true, true, 20.0)
      ensures diagram.createdAt == now && diagram.updatedAt == now
    {
      diagram := Diagram(id, name, [], [], DefaultSettings(), now, now);
    }

    /** `update_timestamp`. */
    method UpdateTimestamp(now: Timestamp)
      modifies this
      ensures diagram == old(diagram).(updatedAt := now)
    {
      diagram := diagram.(updatedAt := now);
    }

    method AddShape(shape: Shape, now: Timestamp)
      modifies this
      ensures diagram == T.AddShape(old(diagram), shape, now)
    {
      diagram := diagram.(shapes := diagram.shapes + [shape]);
      UpdateTimestamp(now);
    }

    /** The search of `update_shape`: the index of the first shape with the id. */
    method FindShape(shapeId: string) returns (k: Option<nat>)
      ensures k == T.FirstShapeIndex(diagram.shapes, shapeId)
    {
      var i := 0;
      while i < |diagram.shapes|
        invariant 0 <= i <= |diagram.shapes|
        invariant forall j :: 0 <= j < i ==> diagram.shapes[j].id != shapeId
      {
        if diagram.shapes[i].id == shapeId {
          return Some(i);
        }
        i := i + 1;
      }
      return None;
    }

    /** The field-by-field overwrite of `update_shape`, on one shape. */
    static method PatchShape(original: Shape, updates: Value) returns (shape: Shape)
      ensures shape == ApplyPatch(original, PatchOf(updates))
    {
      // Each slot of the typed patch is `updates.get(key).and_then(..)` for its key.
      var patch := PatchOf(updates);
      var newX := original.x;
      if patch.x.Some? { newX := patch.x.value; }
      assert newX == Pick(patch.x, original.x);
      var newY := original.y;
      if patch.y.Some? { newY := patch.y.value; }
      assert newY == Pick(patch.y, original.y);
      var newWidth := original.width;
      if patch.width.Some? { newWidth := patch.width.value; }
      assert newWidth == Pick(patch.width, original.width);
      var newHeight := original.height;
      if patch.height.Some? { newHeight := patch.height.value; }
      assert newHeight == Pick(patch.height, original.height);
      var newRotation := original.rotation;
      if patch.rotation.Some? { newRotation := patch.rotation.value; }
      assert newRotation == Pick(patch.rotation, original.rotation);
      var newFill := original.fill;
      if patch.fill.Some? { newFill := patch.fill.value; }
      assert newFill == Pick(patch.fill, original.fill);
      var newStroke := original.stroke;
      if patch.stroke.Some? { newStroke := patch.stroke.value; }
      assert newStroke == Pick(patch.stroke, original.stroke);
      var newStrokeWidth := original.strokeWidth;
      if patch.strokeWidth.Some? { newStrokeWidth := patch.strokeWidth.value; }
      assert newStrokeWidth == Pick(patch.strokeWidth, original.strokeWidth);
      var newText := original.text;
      if patch.text.Some? { newText := Some(patch.text.value); }
      shape := original.(x := newX, y := newY, width := newWidth, height := newHeight,
        rotation := newRotation, fill := newFill, stroke := newStroke,
        strokeWidth := newStrokeWidth, text := newText);
    }

    method UpdateShape(shapeId: string, updates: Value, now: Timestamp) returns (r: Outcome)
      modifies this
      ensures T.Step(diagram, r) == T.UpdateShape(old(diagram), shapeId, updates, now)
    {
      var found := FindShape(shapeId);
      match found
      case None =>
        r := Err(ShapeNotFound);
      case Some(k) =>
        var shape := PatchShape(diagram.shapes[k], updates);
        diagram := diagram.(shapes := diagram.shapes[k := shape]);
        UpdateTimestamp(now);
        r := Ok(());
    }

    method DeleteShape(shapeId: string, now: Timestamp) returns (r: Outcome)
      modifies this
      ensures T.Step(diagram, r) == T.DeleteShape(old(diagram), shapeId, now)
    {
      var initialLen := |diagram.shapes|;
      ghost var before := diagram.shapes;
      diagram := diagram.(shapes := Filter(diagram.shapes, T.OtherShape(shapeId)));
      diagram := diagram.(connectors := Filter(diagram.connectors, T.Detached(shapeId)));
      if |diagram.shapes| < initialLen {
        UpdateTimestamp(now);
        r := Ok(());
      } else {
        FilterKeepsAll(before, T.OtherShape(shapeId));
        r := Err(ShapeNotFound);
      }
    }

    method AddConnector(connector: Connector, now: Timestamp)
      modifies this
      ensures diagram == T.AddConnector(old(diagram), connector, now)
    {
      diagram := diagram.(connectors := diagram.connectors + [connector]);
      UpdateTimestamp(now);
    }

    method DeleteConnector(connectorId: string, now: Timestamp) returns (r: Outcome)
      modifies this
      ensures T.Step(diagram, r) == T.DeleteConnector(old(diagram), connectorId, now)
    {
      var initialLen := |diagram.connectors|;
      ghost var before := diagram.connectors;
      diagram := diagram.(connectors := Filter(diagram.connectors, T.OtherConnector(connectorId)));
      if |diagram.connectors| < initialLen {
        UpdateTimestamp(now);
        r := Ok(());
      } else {
        FilterKeepsAll(before, T.OtherConnector(connectorId));
        r := Err(ConnectorNotFound);
      }
    }

    method UpdateSettings(settings: DiagramSettings, now: Timestamp)
      modifies this
      ensures diagram == T.UpdateSettings(old(diagram), settings, now)
    {
      diagram := diagram.(settings := settings);
      UpdateTimestamp(now);
    }

    method GetShapes() returns (shapes: seq<Shape>)
      ensures shapes == diagram.shapes
    {
      shapes := diagram.shapes;
    }

    method GetConnectors() returns (connectors: seq<Connector>)
      ensures connectors == diagram.connectors
    {
      connectors := diagram.connectors;
    }

    method GetSettings() returns (settings: DiagramSettings)
      ensures settings == diagram.settings
    {
      settings := diagram.settings;
    }

    /** `snap_to_grid` under the current settings. */
    method SnapToGrid(x: real, y: real) returns (p: Option<Geometry.Point>)
      ensures p == Geometry.Snap(diagram.settings, x, y)
    {
      p := Geometry.Snap(diagram.settings, x, y);
    }

    /** `find_shape_at`: scan from the top shape down, stop at the first box that holds the point. */
    method FindShapeAt(x: real, y: real) returns (r: Option<string>)
      ensures r == Geometry.TopmostShapeId(diagram.shapes, x, y)
      ensures r.None? <==> forall s :: s in diagram.shapes ==> !Geometry.Contains(s, x, y)
    {
      var i := |diagram.shapes|;
      while i > 0
        invariant 0 <= i <= |diagram.shapes|
        invariant forall j :: i <= j < |diagram.shapes| ==> !Geometry.Contains(diagram.shapes[j], x, y)
      {
        i := i - 1;
        var shape := diagram.shapes[i];
        if Geometry.Contains(shape, x, y) {
          return Some(shape.id);
        }
      }
      return None;
    }
  }
}
