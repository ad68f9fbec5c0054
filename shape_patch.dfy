/**
 * The sparse update of `update_shape`: one optional slot per patchable field,
 * read from the request's JSON value, and its application to a shape.
 */
module ShapePatches {
  import opened Wrappers
  import opened JsonValues
  import opened DiagramTypes

  datatype ShapePatch = ShapePatch(
    x: Option<real>,
    y: Option<real>,
    width: Option<real>,
    height: Option<real>,
    rotation: Option<real>,
    fill: Option<string>,
    stroke: Option<string>,
    strokeWidth: Option<real>,
    text: Option<string>)

  function EmptyPatch(): ShapePatch
  {
    ShapePatch(None, None, None, None, None, None, None, None, None)
  }

  /**
   * The slots the update request fills: a key counts only when the request is
   * an object holding that key with a value of the field's JSON type.
   */
  function PatchOf(updates: Value): (p: ShapePatch)
    ensures !updates.Object? ==> p == EmptyPatch()
  {
    ShapePatch(
      NumberMember(updates, "x"),
      NumberMember(updates, "y"),
      NumberMember(updates, "width"),
      NumberMember(updates, "height"),
      NumberMember(updates, "rotation"),
      StringMember(updates, "fill"),
      StringMember(updates, "stroke"),
      NumberMember(updates, "strokeWidth"),
      StringMember(updates, "text"))
  }

  function Pick<T>(slot: Option<T>, current: T): T
  {
    match slot
    case Some(v) => v
    case None => current
  }

  /** Overwrite each field whose slot is filled; `text` becomes `Some(t)`. */
  function ApplyPatch(s: Shape, p: ShapePatch): (r: Shape)
    ensures r.id == s.id && r.shapeType == s.shapeType
  {
    s.(x := Pick(p.x, s.x),
       y := Pick(p.y, s.y),
       width := Pick(p.width, s.width),
       height := Pick(p.height, s.height),
       rotation := Pick(p.rotation, s.rotation),
       fill := Pick(p.fill, s.fill),
       stroke := Pick(p.stroke, s.stroke),
       strokeWidth := Pick(p.strokeWidth, s.strokeWidth),
       text := if p.text.Some? then p.text else s.text)
  }

  /** Two patches in a row: the later filled slot wins. */
  function Merge(p: ShapePatch, q: ShapePatch): ShapePatch
  {
    ShapePatch(
      if q.x.Some? then q.x else p.x,
      if q.y.Some? then q.y else p.y,
      if q.width.Some? then q.width else p.width,
      if q.height.Some? then q.height else p.height,
      if q.rotation.Some? then q.rotation else p.rotation,
      if q.fill.Some? then q.fill else p.fill,
      if q.stroke.Some? then q.stroke else p.stroke,
      if q.strokeWidth.Some? then q.strokeWidth else p.strokeWidth,
      if q.text.Some? then q.text else p.text)
  }

  /** Every slot that is set was read, with its JSON type, from the key of the same name. */
  lemma PatchOfSlots(updates: Value)
    ensures PatchOf(updates).x.Some? ==> Get(updates, "x") == Some(Number(PatchOf(updates).x.value))
    ensures PatchOf(updates).y.Some? ==> Get(updates, "y") == Some(Number(PatchOf(updates).y.value))
    ensures PatchOf(updates).width.Some? ==> Get(updates, "width") == Some(Number(PatchOf(updates).width.value))
    ensures PatchOf(updates).height.Some? ==> Get(updates, "height") == Some(Number(PatchOf(updates).height.value))
    ensures PatchOf(updates).rotation.Some? ==> Get(updates, "rotation") == Some(Number(PatchOf(updates).rotation.value))
    ensures PatchOf(updates).fill.Some? ==> Get(updates, "fill") == Some(Str(PatchOf(updates).fill.value))
    ensures PatchOf(updates).stroke.Some? ==> Get(updates, "stroke") == Some(Str(PatchOf(updates).stroke.value))
    ensures PatchOf(updates).strokeWidth.Some? ==> Get(updates, "strokeWidth") == Some(Number(PatchOf(updates).strokeWidth.value))
    ensures PatchOf(updates).text.Some? ==> Get(updates, "text") == Some(Str(PatchOf(updates).text.value))
  {
  }

  /** A number under "x" fills exactly the x slot. */
  lemma PatchOfNumberExample()
    ensures PatchOf(Object(map["x" := Number(5.0)])) == EmptyPatch().(x := Some(5.0))
  {
  }

  /** A string under "x" is the wrong type and fills nothing. */
  lemma PatchOfMistypedExample()
    ensures PatchOf(Object(map["x" := Str("5")])) == EmptyPatch()
  {
  }

  /** Every field is either overwritten by its filled slot or left as it was. */
  lemma ApplyPatchFields(s: Shape, p: ShapePatch)
    ensures var r := ApplyPatch(s, p);
      && (r.x == if p.x.Some? then p.x.value else s.x)
      && (r.y == if p.y.Some? then p.y.value else s.y)
      && (r.width == if p.width.Some? then p.width.value else s.width)
      && (r.height == if p.height.Some? then p.height.value else s.height)
      && (r.rotation == if p.rotation.Some? then p.rotation.value else s.rotation)
      && (r.fill == if p.fill.Some? then p.fill.value else s.fill)
      && (r.stroke == if p.stroke.Some? then p.stroke.value else s.stroke)
      && (r.strokeWidth == if p.strokeWidth.Some? then p.strokeWidth.value else s.strokeWidth)
      && (r.text == if p.text.Some? then Some(p.text.value) else s.text)
  {
  }

  /** The empty patch changes nothing. */
  lemma ApplyEmptyPatch(s: Shape)
    ensures ApplyPatch(s, EmptyPatch()) == s
  {
  }

  /** Applying one patch twice is applying it once. */
  lemma ApplyPatchIdempotent(s: Shape, p: ShapePatch)
    ensures ApplyPatch(ApplyPatch(s, p), p) == ApplyPatch(s, p)
  {
  }

  /** Applying two patches in turn is applying their merge. */
  lemma ApplyPatchMerge(s: Shape, p: ShapePatch, q: ShapePatch)
    ensures ApplyPatch(ApplyPatch(s, p), q) == ApplyPatch(s, Merge(p, q))
  {
  }
}
