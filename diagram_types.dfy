/** The diagram document: shapes, connectors, settings and the aggregate. */
module DiagramTypes {
  import opened Wrappers

  /** An ISO-8601 time string as the host clock renders it. */
  type Timestamp = string

  datatype ShapeType = Rectangle | Circle | Diamond | Text

  /** The name a shape type is serialised under (camelCase). */
  function ShapeTypeName(t: ShapeType): (r: string)
    ensures r in {"rectangle", "circle", "diamond", "text"}
    ensures r == "text" <==> t == Text
  {
    match t
    case Rectangle => "rectangle"
    case Circle => "circle"
    case Diamond => "diamond"
    case Text => "text"
  }

  /** A positioned, styled element; `x`, `y` is its top-left corner. */
  datatype Shape = Shape(
    id: string,
    shapeType: ShapeType,
    x: real,
    y: real,
    width: real,
    height: real,
    rotation: real,
    fill: string,
    stroke: string,
    strokeWidth: real,
    text: Option<string>)

  /** A directed link between two shapes, referenced by id. */
  datatype Connector = Connector(
    id: string,
    fromShapeId: string,
    toShapeId: string,
    fromAnchor: string,
    toAnchor: string,
    stroke: string,
    strokeWidth: real)

  datatype DiagramSettings = DiagramSettings(
    backgroundColor: string,
    gridEnabled: bool,
    snapToGrid: bool,
    gridSize: real)

  /** `DiagramSettings::default`. */
  function DefaultSettings(): (s: DiagramSettings)
    ensures s.backgroundColor == "#ffffff"
    ensures s.gridEnabled && s.snapToGrid
    ensures s.gridSize == 20.0 && s.gridSize > 0.0
  {
    DiagramSettings("#ffffff", true, true, 20.0)
  }

  /** The aggregate root; shape order is z-order, later shapes on top. */
  datatype Diagram = Diagram(
    id: string,
    name: string,
    shapes: seq<Shape>,
    connectors: seq<Connector>,
    settings: DiagramSettings,
    createdAt: Timestamp,
    updatedAt: Timestamp)

  datatype EngineError = ShapeNotFound | ConnectorNotFound | InvalidShapeType

  /** The message each error carries to the host. */
  function Message(e: EngineError): (r: string)
    ensures r == "Shape not found" <==> e == ShapeNotFound
    ensures r == "Connector not found" <==> e == ConnectorNotFound
    ensures r == "Invalid shape type" <==> e == InvalidShapeType
  {
    match e
    case ShapeNotFound => "Shape not found"
    case ConnectorNotFound => "Connector not found"
    case InvalidShapeType => "Invalid shape type"
  }

  /** What a mutating command returns: `Result<(), JsValue>`. */
  type Outcome = Result<(), EngineError>
}
