# Diagram engine model

A Dafny model of the diagram state engine of a 2D diagram editor (`wasm/src/lib.rs`).
The engine owns one diagram. The diagram holds an id, a name, an ordered list of
shapes, an ordered list of connectors, the settings and two timestamps. The list
order of the shapes is their z-order, so later shapes are drawn on top. The host
changes the diagram through a small command API:

- add a shape or a connector;
- patch a shape's fields;
- delete a shape, which cascades to the connectors attached to it;
- delete a connector;
- replace the settings.

It also asks two geometric questions: where a point snaps to on the grid, and
which shape is topmost at a point.

Layout:

- `wrappers.dfy`: `Option` and `Result`.
- `filtering.dfy`: `Vec::retain` as the function `Filter`, with its order,
  identity, idempotence and distinct-key lemmas.
- `json_values.dfy`: the parsed JSON value of an update request and the
  `get` / `as_f64` / `as_str` accessors that `update_shape` uses.
- `diagram_types.dfy`: shapes, connectors, settings, the diagram, error kinds.
- `shape_patch.dfy`: the typed sparse patch (one optional slot per patchable
  field), how it is read from the request, and how it is applied to a shape.
- `geometry.dfy`: rounding half away from zero, grid snapping, the inclusive box
  test and the back-to-front hit test.
- `shape_factory.dfy`: `create_default_shape`.
- `transitions.dfy`: each command as a pure function from the old diagram to
  the new diagram and the command's outcome. Lemmas state the cascade, the
  success conditions, inverse pairs, idempotence, and which commands preserve
  the document invariant (unique ids, connectors attached to existing shapes).
- `engine.dfy`: the class `DiagramEngine`. Its field `diagram` is changed in
  place. Each command method is proved to produce exactly the new state and
  outcome that `transitions.dfy` prescribes. The searches of `update_shape` and
  `find_shape_at` are loops with invariants.

The host clock is an input. Every mutating method takes `now`, the time string
the host clock would return, and stores it in `updatedAt` only when the command
succeeds. This is the same effect as `update_timestamp` being called on success
only. The id generator is an input too: `CreateDefaultShape` takes the new id
as a parameter.

Three behaviours of the code that a reader might not expect, all kept by the model:

- `delete_shape` removes the attached connectors before it checks whether any
  shape had the id (lib.rs:174-178). A failed delete therefore still removes
  connectors that dangle on that id; only the timestamp is left alone.
- `delete_shape` and `delete_connector` remove every element with the id, not
  just one.
- `update_shape` on a request that is not a JSON object, or whose members all
  have the wrong type, still succeeds and refreshes the timestamp when some
  shape has the id.

## Model

| member | source | states |
|---|---|---|
| Engine.DiagramEngine.constructor | wasm/src/lib.rs:91-103 | `new` leaves shapes and connectors empty, uses the default settings ("#ffffff", grid on, snap on, size 20), and sets `createdAt == updatedAt == now` |
| Engine.DiagramEngine.UpdateTimestamp | wasm/src/lib.rs:260-262 | only `updatedAt` changes, and it becomes the clock value |
| Engine.DiagramEngine.AddShape | wasm/src/lib.rs:119-126 | the new diagram is `Transitions.AddShape` of the old one: the shape is appended at the end and `updatedAt` is refreshed |
| Engine.DiagramEngine.AddConnector | wasm/src/lib.rs:186-193 | the new diagram is `Transitions.AddConnector` of the old one: the connector is appended, with no check of its endpoints or its id |
| Engine.DiagramEngine.FindShape | wasm/src/lib.rs:133 | the linear search returns the index of the first shape with the id, or None when there is none |
| Engine.DiagramEngine.PatchShape | wasm/src/lib.rs:134-160 | the field-by-field overwrite equals `ApplyPatch` with the patch read from the request |
| Engine.DiagramEngine.UpdateShape | wasm/src/lib.rs:128-166 | the new state and the returned outcome are exactly those of `Transitions.UpdateShape` |
| Engine.DiagramEngine.DeleteShape | wasm/src/lib.rs:168-184 | the new state and the returned outcome are exactly those of `Transitions.DeleteShape`; the length check is proved equivalent to "some shape had the id" |
| Engine.DiagramEngine.DeleteConnector | wasm/src/lib.rs:195-206 | the new state and the returned outcome are exactly those of `Transitions.DeleteConnector`; the length check is proved equivalent to "some connector had the id" |
| Engine.DiagramEngine.UpdateSettings | wasm/src/lib.rs:208-215 | the new diagram is `Transitions.UpdateSettings` of the old one: the settings are replaced wholesale and `updatedAt` is refreshed |
| Engine.DiagramEngine.GetShapes | wasm/src/lib.rs:217-221 | returns the current shapes, in insertion order |
| Engine.DiagramEngine.GetConnectors | wasm/src/lib.rs:223-227 | returns the current connectors, in insertion order |
| Engine.DiagramEngine.GetSettings | wasm/src/lib.rs:229-233 | returns the current settings |
| Engine.DiagramEngine.SnapToGrid | wasm/src/lib.rs:235-246 | snapping uses the engine's current settings |
| Engine.DiagramEngine.FindShapeAt | wasm/src/lib.rs:248-258 | the backward scan returns the id of the highest-index shape whose box holds the point, and None exactly when no box holds it |
| Filtering.Filter | wasm/src/lib.rs:171 | `retain` never grows the list; an element survives iff it was there and the predicate accepts it; the length is kept iff every element is accepted |
| Filtering.FilterConcat | wasm/src/lib.rs:171 | retaining distributes over concatenation, so survivors keep their relative order |
| Filtering.FilterKeepsAll | wasm/src/lib.rs:198 | when every element is accepted, `retain` changes nothing |
| Filtering.FilterIdempotent | wasm/src/lib.rs:174-176 | retaining twice with the same predicate is retaining once |
| Filtering.DistinctByAppend | wasm/src/lib.rs:123 | appending keeps keys distinct iff the new key is unused (both directions) |
| Filtering.FilterDistinctBy | wasm/src/lib.rs:171 | retaining keeps ids distinct |
| JsonValues.Get | wasm/src/lib.rs:134 | `get(key)` yields a value iff the request is an object holding the key, and then it is that member |
| JsonValues.AsF64 | wasm/src/lib.rs:134 | `as_f64` yields a number iff the value is a JSON number, and it is that number |
| JsonValues.AsStr | wasm/src/lib.rs:152 | `as_str` yields a string iff the value is a JSON string, and it is that string |
| JsonValues.NumberMember | wasm/src/lib.rs:134 | a number read from a key is the JSON number stored under that key; nothing is read when the key is missing or holds another type |
| JsonValues.StringMember | wasm/src/lib.rs:152 | a string read from a key is the JSON string stored under that key; nothing is read when the key is missing or holds another type |
| JsonValues.TypedMembers | wasm/src/lib.rs:134 | `get(key).and_then(as_f64/as_str)` yields a value iff the request is an object holding the key with a value of that JSON type |
| ShapePatches.PatchOf | wasm/src/lib.rs:130-158 | a request that is not a JSON object fills no slot |
| ShapePatches.PatchOfSlots | wasm/src/lib.rs:134-158 | every filled slot was read, with its JSON type, from the key of the same name ("x", …, "strokeWidth", "text") |
| ShapePatches.ApplyPatch | wasm/src/lib.rs:133-160 | patching never changes a shape's id or type |
| ShapePatches.ApplyPatchFields | wasm/src/lib.rs:134-160 | each field is overwritten by its present slot and otherwise left unchanged; `text` becomes `Some(t)` |
| ShapePatches.PatchOfNumberExample | wasm/src/lib.rs:134-136 | `{"x": 5}` fills only the x slot |
| ShapePatches.PatchOfMistypedExample | wasm/src/lib.rs:134-136 | `{"x": "5"}` has the wrong type and fills nothing |
| ShapePatches.ApplyEmptyPatch | wasm/src/lib.rs:134-160 | the empty patch is the identity |
| ShapePatches.ApplyPatchIdempotent | wasm/src/lib.rs:134-160 | applying the same patch twice is applying it once |
| ShapePatches.ApplyPatchMerge | wasm/src/lib.rs:134-160 | two patches in a row equal one merged patch in which the later slot wins |
| Geometry.RoundHalfAwayFromZero | wasm/src/lib.rs:240-241 | `round` gives an integer within 1/2 of its input; a tie goes up for positive inputs and down for negative ones |
| Geometry.RoundInteger | wasm/src/lib.rs:240-241 | an integer rounds to itself |
| Geometry.SnapAxis | wasm/src/lib.rs:240-241 | a snapped coordinate is an integer multiple of the grid size and at most half a grid size from the input |
| Geometry.Snap | wasm/src/lib.rs:235-246 | snapping off returns the point unchanged; snapping on gives grid multiples within half a grid of the input; a zero grid size gives None, in place of the NaN pair |
| Geometry.SnapAxisIdempotent | wasm/src/lib.rs:240-241 | a snapped coordinate snaps to itself |
| Geometry.SnapIdempotent | wasm/src/lib.rs:235-246 | snapping a snapped point changes nothing |
| Geometry.SnapDefaultExample | wasm/src/lib.rs:319-323 | with the default settings, (25, 33) snaps to (20, 40) |
| Geometry.Contains | wasm/src/lib.rs:252-253 | a point can be inside only a box of non-negative width and height; the box's edges and corners count as inside |
| Geometry.TopmostShapeId | wasm/src/lib.rs:249-258 | None iff no shape's box holds the point; otherwise the id of some shape whose box holds it |
| Geometry.TopmostHit | wasm/src/lib.rs:250-257 | returns the largest index whose inclusive box holds the point, or None iff no box holds it |
| Geometry.TopmostHitAppend | wasm/src/lib.rs:250-257 | a shape added on top wins wherever its box holds the point; elsewhere the answer is the same as before |
| Geometry.TopmostHitOnlyBoxes | wasm/src/lib.rs:252-253 | the answer depends only on the boxes; rotation and style are ignored |
| DiagramTypes.ShapeTypeName | wasm/src/lib.rs:12-19 | each type is serialised in camelCase as one of "rectangle", "circle", "diamond", "text", and only Text as "text" |
| DiagramTypes.DefaultSettings | wasm/src/lib.rs:59-68 | the default background is "#ffffff", grid and snapping are on, and the grid size is 20, which is positive |
| DiagramTypes.Message | wasm/src/lib.rs:164-280 | each error kind has its own message: "Shape not found", "Connector not found", "Invalid shape type" |
| ShapeFactory.ParseShapeType | wasm/src/lib.rs:275-281 | exactly "rectangle", "circle", "diamond" and "text" are accepted, and each maps to the type serialised under that name |
| ShapeFactory.ParseShapeTypeName | wasm/src/lib.rs:13-19 | every type's serialised name parses back to that type |
| ShapeFactory.CreateDefaultShape | wasm/src/lib.rs:271-291 | an accepted kind gives the default shape at (x, y): 100 x 100, rotation 0, fill #4f46e5, stroke #3730a3, stroke width 2, text "Text" iff the kind is "text"; any other kind is an InvalidShapeType error |
| ShapeFactory.InvalidKindMessage | wasm/src/lib.rs:280 | creating a shape of an unknown kind fails with the message "Invalid shape type" |
| ShapeFactory.DefaultShapeText | wasm/src/lib.rs:290 | a default shape has a text iff it is of type Text |
| Transitions.FirstShapeIndex | wasm/src/lib.rs:133 | returns the index of the first shape with the id, or None iff no shape has the id |
| Transitions.AddShape | wasm/src/lib.rs:119-126 | the shape list grows by one: the old shapes stay as a prefix and the new shape is last; only the shapes and `updatedAt` change |
| Transitions.AddConnector | wasm/src/lib.rs:186-193 | the connector list grows by one: the old connectors stay as a prefix and the new one is last; only the connectors and `updatedAt` change |
| Transitions.UpdateShape | wasm/src/lib.rs:128-166 | succeeds iff some shape has the id; a failure is ShapeNotFound with the diagram unchanged; the shapes keep their ids and positions; only the shapes and `updatedAt` change |
| Transitions.UpdateShapeNonObject | wasm/src/lib.rs:130-166 | a request that is not a JSON object, on an existing id, succeeds and changes only `updatedAt` |
| Transitions.DeleteShape | wasm/src/lib.rs:168-184 | succeeds iff some shape had the id, else fails with ShapeNotFound and keeps `updatedAt`; afterwards no shape has the id and no connector refers to it; settings, id, name and `createdAt` are kept |
| Transitions.DeleteConnector | wasm/src/lib.rs:195-206 | succeeds iff some connector had the id; a failure is ConnectorNotFound with the diagram unchanged; afterwards no connector has the id; shapes and settings are kept |
| Transitions.UpdateSettings | wasm/src/lib.rs:208-215 | the settings become the given ones and `updatedAt` the clock value; shapes, connectors, id, name and `createdAt` are kept |
| Transitions.AddShapesInOrder | wasm/src/lib.rs:119-126 | two shapes added in turn come out in that order |
| Transitions.AddThenDeleteShape | wasm/src/lib.rs:119-184 | deleting a freshly added, unreferenced shape succeeds and restores everything but `updatedAt` |
| Transitions.AddThenDeleteConnector | wasm/src/lib.rs:186-206 | deleting a freshly added connector succeeds and restores everything but `updatedAt` |
| Transitions.FirstShapeIndexSameIds | wasm/src/lib.rs:133 | the first-match search looks only at ids |
| Transitions.UpdateShapeEffect | wasm/src/lib.rs:128-166 | succeeds iff some shape has the id; then only the first such shape changes, by the patch, and `updatedAt` is refreshed; otherwise the whole diagram is unchanged |
| Transitions.UpdateShapeKeepsIds | wasm/src/lib.rs:133-160 | the shapes keep their ids and positions |
| Transitions.UpdateShapeIdempotent | wasm/src/lib.rs:128-166 | repeating an update has the same outcome and changes no shape further |
| Transitions.UpdateShapeExample | wasm/src/lib.rs:134-136 | updating x to 5 on a shape (1, 2, 3, 4) leaves y, width and height alone |
| Transitions.DeleteShapeCascades | wasm/src/lib.rs:169-176 | afterwards no shape has the id and no connector refers to it, whatever the outcome |
| Transitions.DeleteShapeEffect | wasm/src/lib.rs:169-184 | shapes and connectors become exactly their retained sub-lists; success iff some shape had the id iff the shape list shrank; `updatedAt` is refreshed iff it succeeds |
| Transitions.DeleteMissingShape | wasm/src/lib.rs:178-183 | deleting an absent, unreferenced id fails with ShapeNotFound and changes nothing |
| Transitions.DeleteShapeTwice | wasm/src/lib.rs:169-184 | a second delete of the same id fails and changes nothing |
| Transitions.DeleteConnectorEffect | wasm/src/lib.rs:196-206 | removes every connector with the id and keeps the order of the rest; succeeds iff the list shrank; otherwise nothing changes |
| Transitions.AddShapeDistinct | wasm/src/lib.rs:123 | shape ids stay unique iff the added id is fresh; the engine does not check this |
| Transitions.AddShapePreservesWellFormed | wasm/src/lib.rs:119-126 | adding a shape with a fresh id keeps the document invariant |
| Transitions.AddConnectorAttached | wasm/src/lib.rs:190 | connectors stay attached iff both endpoints of the new one exist; the engine does not check this |
| Transitions.AddConnectorPreservesWellFormed | wasm/src/lib.rs:186-193 | adding a fresh connector between existing shapes keeps the document invariant |
| Transitions.UpdateShapePreservesWellFormed | wasm/src/lib.rs:128-166 | updating a shape keeps the document invariant |
| Transitions.DeleteShapePreservesWellFormed | wasm/src/lib.rs:168-184 | deleting a shape keeps the document invariant: every surviving connector's endpoints still exist |
| Transitions.DeleteConnectorPreservesWellFormed | wasm/src/lib.rs:195-206 | deleting a connector keeps the document invariant |
| Transitions.UpdateSettingsPreservesWellFormed | wasm/src/lib.rs:208-215 | replacing the settings keeps the document invariant |
| Transitions.NotFoundMessages | wasm/src/lib.rs:164-204 | a failed update or delete of a shape carries "Shape not found"; a failed delete of a connector carries "Connector not found" |

## Left out

- JSON text: `from_json`, `to_json`, the string results of the `get_*` queries and of `create_default_shape`, and the parse errors of the commands that take JSON text. Commands take typed values; `update_shape` takes an already parsed JSON value. Serialisation is done by a library that is not part of this model.
- The wasm bindings and the `init` panic hook: host plumbing.
- The host clock (`js_sys::Date`): each command takes the clock reading `now` instead, so nothing is said about timestamps increasing.
- `generate_id` (a random UUID): the id is a parameter of `CreateDefaultShape`.
- Geometry.Snap: coordinates are exact reals, not `f64`. Division, rounding and multiplication have no rounding error, and infinities and NaN inputs are not modelled. A zero grid size gives None where the code gives a pair of NaNs.
- Geometry.TopmostHit: the box test is over exact reals, so `x + width` has no floating-point rounding, and NaN or infinite query points are not modelled (with a NaN coordinate every comparison in the code is false, so it returns None).
- Engine.DiagramEngine.SnapToGrid: returns an `Option` of a point, not a two-element vector.
