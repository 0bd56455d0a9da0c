/**
 * The rectangle shape (core/thin/editor/rectshape.js): how it is read from its
 * SVG element, the snapshot its clone creator takes, the radius edit's version
 * pair, the reported properties and how the property pane shows them.
 */
module RectShape {
  import opened Wrappers
  import opened Js
  import opened Dom
  import opened Versioning

  const CLASSID: string := "s-rect"
  /** The colour that means "no colour", and what the property pane shows instead. */
  const NONE: string := "none"
  const PROPPANE_SHOW_BLANK: string := ""

  datatype Bounds = Bounds(left: real, top: real, width: real, height: real)

  /** Fill and stroke colours (`null` when the attribute is missing), stroke width and type, corner radius. */
  datatype RectStyle = RectStyle(fill: Option<string>, stroke: Option<string>, strokeWidth: Number,
                                 strokeDashType: Option<string>, radius: Number)

  /** A rectangle as a value: what the version handlers change. */
  datatype Rect = Rect(bounds: Bounds, style: RectStyle, shapeId: Option<string>, desc: Option<string>, display: bool)

  function OptionValue(o: Option<string>): Value {
    match o
    case None => VNull
    case Some(s) => VStr(s)
  }

  /** The keys `getProperties` reports, in order. */
  const PROPERTY_KEYS: seq<string> := ["left", "top", "width", "height", "display", "fill", "stroke",
    "stroke-width", "stroke-dash-type", "radius", "shape-id", "desc"]

  /** `getProperties`: every field under its key. */
  function Properties(r: Rect): (p: seq<(string, Value)>)
    ensures |p| == |PROPERTY_KEYS|
    ensures forall i :: 0 <= i < |p| ==> p[i].0 == PROPERTY_KEYS[i]
    ensures p[0].1 == VNum(Finite(r.bounds.left)) && p[1].1 == VNum(Finite(r.bounds.top))
    ensures p[2].1 == VNum(Finite(r.bounds.width)) && p[3].1 == VNum(Finite(r.bounds.height))
    ensures p[4].1 == VBool(r.display)
    ensures p[5].1 == OptionValue(r.style.fill) && p[6].1 == OptionValue(r.style.stroke)
    ensures p[7].1 == VNum(r.style.strokeWidth) && p[8].1 == OptionValue(r.style.strokeDashType)
    ensures p[9].1 == VNum(r.style.radius)
    ensures p[10].1 == OptionValue(r.shapeId) && p[11].1 == OptionValue(r.desc)
  {
    [("left", VNum(Finite(r.bounds.left))), ("top", VNum(Finite(r.bounds.top))),
     ("width", VNum(Finite(r.bounds.width))), ("height", VNum(Finite(r.bounds.height))),
     ("display", VBool(r.display)), ("fill", OptionValue(r.style.fill)), ("stroke", OptionValue(r.style.stroke)),
     ("stroke-width", VNum(r.style.strokeWidth)), ("stroke-dash-type", OptionValue(r.style.strokeDashType)),
     ("radius", VNum(r.style.radius)), ("shape-id", OptionValue(r.shapeId)), ("desc", OptionValue(r.desc))]
  }

  /**
   * How `updateProperties` shows one reported value: `none` colours and the
   * default stroke width as blank, the stroke dash type through
   * `ModuleElement.getStrokeValueFromType` (the function `strokeValue`).
   */
  function Shown(key: string, v: Value, defaultStrokeWidth: Value, strokeValue: Value -> Value): Value {
    if (key == "fill" || key == "stroke") && v == VStr(NONE) then VStr(PROPPANE_SHOW_BLANK)
    else if key == "stroke-width" && v == defaultStrokeWidth then VStr(PROPPANE_SHOW_BLANK)
    else if key == "stroke-dash-type" then strokeValue(v)
    else v
  }

  /** Each reported value, shown under its own key. */
  function ShownProperties(p: seq<(string, Value)>, defaultStrokeWidth: Value, strokeValue: Value -> Value)
    : (q: seq<(string, Value)>)
    ensures |q| == |p|
    ensures forall i :: 0 <= i < |p| ==> q[i].0 == p[i].0
    ensures forall i :: 0 <= i < |p| ==> q[i].1 == Shown(p[i].0, p[i].1, defaultStrokeWidth, strokeValue)
  {
    seq(|p|, i requires 0 <= i < |p| => (p[i].0, Shown(p[i].0, p[i].1, defaultStrokeWidth, strokeValue)))
  }

  /**
   * What the property pane shows for a rectangle: a fill or stroke of `none`
   * and the default stroke width show as blank, the dash type shows as its
   * stroke value, and every other field shows as reported.
   */
  lemma ShownRect(r: Rect, defaultStrokeWidth: Value, strokeValue: Value -> Value)
    ensures var q := ShownProperties(Properties(r), defaultStrokeWidth, strokeValue);
      (q[5].1 == if r.style.fill == Some(NONE) then VStr(PROPPANE_SHOW_BLANK) else OptionValue(r.style.fill)) &&
      (q[6].1 == if r.style.stroke == Some(NONE) then VStr(PROPPANE_SHOW_BLANK) else OptionValue(r.style.stroke)) &&
      (q[7].1 == if VNum(r.style.strokeWidth) == defaultStrokeWidth then VStr(PROPPANE_SHOW_BLANK) else VNum(r.style.strokeWidth)) &&
      q[8].1 == strokeValue(OptionValue(r.style.strokeDashType)) &&
      (forall i :: 0 <= i < |q| && !(5 <= i <= 8) ==> q[i] == Properties(r)[i])
  {
    var p := Properties(r);
    forall i | 0 <= i < |p| && !(5 <= i <= 8)
      ensures Shown(p[i].0, p[i].1, defaultStrokeWidth, strokeValue) == p[i].1
    {
      assert p[i].0 == PROPERTY_KEYS[i];
    }
  }

  /** `createFromElement`: the style and identity read from the element's attributes. */
  function ReadElement(e: Element, bounds: Bounds): (r: Rect)
    ensures r.display <==> GetAttribute(e, "x-display") == Some("true")
    ensures r.style.radius == NumberOf(GetAttribute(e, "rx"))
    ensures r.style.strokeWidth == NumberOf(GetAttribute(e, "stroke-width"))
    ensures r.style.fill == GetAttribute(e, "fill") && r.style.stroke == GetAttribute(e, "stroke")
    ensures r.shapeId == GetAttribute(e, "x-id") && r.desc == GetAttribute(e, "x-desc")
    ensures r.bounds == bounds
  {
    Rect(bounds,
         RectStyle(GetAttribute(e, "fill"), GetAttribute(e, "stroke"), NumberOf(GetAttribute(e, "stroke-width")),
                   GetAttribute(e, "x-stroke-type"), NumberOf(GetAttribute(e, "rx"))),
         GetAttribute(e, "x-id"), GetAttribute(e, "x-desc"), GetAttribute(e, "x-display") == Some("true"))
  }

  /** A rectangle read from an element with no `rx` has square corners; a non-numeric one has a NaN radius. */
  lemma FromElementRadius(e: Element, bounds: Bounds)
    ensures !HasAttribute(e, "rx") ==> ReadElement(e, bounds).style.radius == Finite(0.0)
    ensures GetAttribute(e, "rx") == Some("none") ==> ReadElement(e, bounds).style.radius == NaN
  {
  }

  /** The radius edit: up sets `Number(input)`, down restores the radius captured before. */
  function RadiusVersion(s: Rect, input: string): Version<Rect> {
    var captured := s.style.radius;
    var radius := StringToNumber(input);
    Version((t: Rect) => t.(style := t.style.(radius := radius)), (t: Rect) => t.(style := t.style.(radius := captured)))
  }

  /** Up sets the new radius and nothing else; undo gives back exactly the rectangle before the edit. */
  lemma RadiusUndo(s: Rect, input: string)
    ensures var v := RadiusVersion(s, input);
      v.up(s).style.radius == StringToNumber(input) &&
      v.up(s).(style := v.up(s).style.(radius := s.style.radius)) == s &&
      v.down(v.up(s)) == s
  {
  }

  /** The fields the clone creator captures. */
  datatype CloneSource = CloneSource(width: real, height: real, style: RectStyle, display: bool)

  class RectShape {
    var bounds: Bounds
    var style: RectStyle
    var shapeId: Option<string>
    var desc: Option<string>
    var display: bool

    /** A shape as the layout creates it: no id and no description. */
    constructor (bounds: Bounds, style: RectStyle)
      ensures this.bounds == bounds && this.style == style && shapeId.None? && desc.None? && !display
    {
      this.bounds := bounds;
      this.style := style;
      shapeId := None;
      desc := None;
      display := false;
    }

    /** `createFromElement` */
    constructor FromElement(e: Element, bounds: Bounds)
      ensures Snapshot() == ReadElement(e, bounds)
    {
      var r := ReadElement(e, bounds);
      this.bounds := r.bounds;
      style := r.style;
      shapeId := r.shapeId;
      desc := r.desc;
      display := r.display;
    }

    function Snapshot(): Rect
      reads this
    {
      Rect(bounds, style, shapeId, desc, display)
    }

    /** What `getCloneCreator` captures: size, style and display, not position, id or description. */
    function CloneSourceOf(): (r: CloneSource)
      reads this
      ensures r.width == bounds.width && r.height == bounds.height && r.style == style && r.display == display
    {
      CloneSource(bounds.width, bounds.height, style, display)
    }

    /** `setRounded` */
    method SetRounded(radius: Number)
      modifies this`style
      ensures style == old(style).(radius := radius)
    {
      style := style.(radius := radius);
    }

    /** `setInitShapeProperties`: only the bounds change. */
    method SetInitShapeProperties(b: Bounds)
      modifies this`bounds
      ensures Snapshot() == old(Snapshot()).(bounds := b)
    {
      bounds := b;
    }
  }

  /** The clone creator: a new rectangle at the paste position with the captured size, style and display. */
  method CreateClone(src: CloneSource, pasteX: real, pasteY: real, initialStyle: RectStyle) returns (shape: RectShape)
    ensures fresh(shape)
    ensures shape.Snapshot() == Rect(Bounds(pasteX, pasteY, src.width, src.height), src.style, None, None, src.display)
  {
    shape := new RectShape(Bounds(0.0, 0.0, 0.0, 0.0), initialStyle);
    shape.bounds := Bounds(pasteX, pasteY, src.width, src.height);
    shape.SetRounded(src.style.radius);
    shape.style := src.style;
    shape.display := src.display;
  }
}
