/**
 * `create_default_shape`: a shape of the named kind at a given position with
 * the default geometry and style. The fresh id comes from the host's id
 * generator and is a parameter here.
 */
module ShapeFactory {
  import opened Wrappers
  import opened DiagramTypes

  /** The kind names the factory accepts. */
  function ParseShapeType(kind: string): (r: Option<ShapeType>)
    ensures r.Some? <==> kind in {"rectangle", "circle", "diamond", "text"}
    ensures r.Some? ==> ShapeTypeName(r.value) == kind
  {
    match kind
    case "rectangle" => Some(Rectangle)
    case "circle" => Some(Circle)
    case "diamond" => Some(Diamond)
    case "text" => Some(Text)
    case _ => None
  }

  /** Every shape type's serialised name parses back to it. */
  lemma ParseShapeTypeName(t: ShapeType)
    ensures ParseShapeType(ShapeTypeName(t)) == Some(t)
  {
  }

  function CreateDefaultShape(kind: string, id: string, x: real, y: real): (r: Result<Shape, EngineError>)
    ensures r.Err? <==> kind !in {"rectangle", "circle", "diamond", "text"}
    ensures r.Err? ==> r.error == InvalidShapeType
    ensures r.Ok? ==>
      var s := r.value;
      && s.id == id
      && ShapeTypeName(s.shapeType) == kind
      && s.x == x && s.y == y
      && s.width == 100.0 && s.height == 100.0
      && s.rotation == 0.0
      && s.fill == "#4f46e5" && s.stroke == "#3730a3"
      && s.strokeWidth == 2.0
      && s.text == if kind == "text" then Some("Text") else None
  {
    match ParseShapeType(kind)
    case None => Err(InvalidShapeType)
    case Some(t) =>
      Ok(Shape(id, t, x, y, 100.0, 100.0, 0.0, "#4f46e5", "#3730a3", 2.0,
               if kind == "text" then Some("Text") else None))
  }

  /** Only the text kind gets a label, and only it is of type `Text`. */
  lemma DefaultShapeText(kind: string, id: string, x: real, y: real)
    requires CreateDefaultShape(kind, id, x, y).Ok?
    ensures var s := CreateDefaultShape(kind, id, x, y).value;
      s.text.Some? <==> s.shapeType == Text
  {
  }

  /** An unknown kind fails with the message "Invalid shape type". */
  lemma InvalidKindMessage(kind: string, id: string, x: real, y: real)
    requires kind !in {"rectangle", "circle", "diamond", "text"}
    ensures Message(CreateDefaultShape(kind, id, x, y).error) == "Invalid shape type"
  {
  }
}
