/**
 * The structure serializer (core/thin/editor/shapestructure.js): the projection
 * of a shape element into the nested description written to a layout file.
 * The description is kept as a JSON value; the final `goog.json.serialize`
 * text is not modelled.
 */
module ShapeStructure {
  import opened Wrappers
  import opened Js
  import opened Dom
  import Editor

  const BLANK := ""

  // Class identifiers of the shapes the serializer dispatches on.
  const TBLOCK_CLASSID := "s-tblock"
  const LIST_CLASSID := "s-list"
  const TEXT_CLASSID := "s-text"
  const IMAGEBLOCK_CLASSID := "s-iblock"
  const PAGENUMBER_CLASSID := "s-pageno"
  const HEADER_CLASSID := LIST_CLASSID + "-header"
  const DETAIL_CLASSID := LIST_CLASSID + "-detail"

  // Horizontal text anchors (SVG `text-anchor` values).
  const ANCHOR_MIDDLE := "middle"
  const ANCHOR_END := "end"

  /** The nested description. Numbers keep JavaScript's NaN. */
  datatype Json = JNull | JStr(s: string) | JNum(n: Number) | JArr(items: seq<Json>) | JObj(fields: JsObject)

  datatype Field = Field(key: string, value: Json)

  /** A JavaScript object: its properties in insertion order. */
  type JsObject = seq<Field>

  /** A `TypeError` the JavaScript would throw (a property read on `null`). */
  datatype Failure = TypeError(reason: string)

  /**
   * The collaborators the serializer calls but that are not part of this model:
   * font metrics (`thin.core.Font`), `thin.numberWithPrecision`, `XMLSerializer`
   * with the two layout fix-ups, `LayoutStructure.serializeShapes`, and the
   * image-block position defaults.
   */
  datatype Env = Env(
    ascent: (Option<string>, Number, bool) -> Number,
    fontHeight: (Option<string>, Number) -> Number,
    lineHeight: (Option<string>, Number, bool) -> Number,
    round: Number -> Number,
    toXml: Element -> string,
    fixXmlSpace: string -> string,
    fixHref: string -> string,
    serializeShapes: seq<Element> -> seq<Element>,
    positionXDefault: string,
    positionYDefault: string)

  // ---------------------------------------------------------------------------
  // JavaScript objects

  function KeysOf(o: JsObject): seq<string>
    decreases |o|
  {
    if o == [] then [] else [o[0].key] + KeysOf(o[1..])
  }

  /** `o[key]`; `None` stands for `undefined`. */
  function Get(o: JsObject, key: string): Option<Json>
    decreases |o|
  {
    if o == [] then None else if o[0].key == key then Some(o[0].value) else Get(o[1..], key)
  }

  /** `o[key] = v`: an existing property keeps its place, a new one goes last. */
  function Put(o: JsObject, key: string, v: Json): (r: JsObject)
    ensures Get(r, key) == Some(v)
    ensures forall k :: k != key ==> Get(r, k) == Get(o, k)
    decreases |o|
  {
    if o == [] then [Field(key, v)]
    else if o[0].key == key then [Field(key, v)] + o[1..]
    else [o[0]] + Put(o[1..], key, v)
  }

  /** Assignment keeps the property order: an existing key stays in place, a new one is appended. */
  lemma {:induction false} PutKeys(o: JsObject, key: string, v: Json)
    ensures key in KeysOf(o) ==> KeysOf(Put(o, key, v)) == KeysOf(o)
    ensures key !in KeysOf(o) ==> KeysOf(Put(o, key, v)) == KeysOf(o) + [key]
    decreases |o|
  {
    if o != [] && o[0].key != key {
      PutKeys(o[1..], key, v);
    }
  }

  /** Assigning a key the object does not have appends it. */
  lemma {:induction false} PutAppends(o: JsObject, key: string, v: Json)
    requires forall i :: 0 <= i < |o| ==> o[i].key != key
    ensures Put(o, key, v) == o + [Field(key, v)]
    decreases |o|
  {
    if o != [] {
      PutAppends(o[1..], key, v);
    }
  }

  /** The value the last field named `key` carries, if any. */
  function LastValue(fields: seq<Field>, key: string): Option<Json>
    decreases |fields|
  {
    if fields == [] then None
    else if fields[|fields| - 1].key == key then Some(fields[|fields| - 1].value)
    else LastValue(fields[..|fields| - 1], key)
  }

  /** The assignments `o[f.key] = f.value`, one after the other. */
  function Assign(o: JsObject, fields: seq<Field>): (r: JsObject)
    ensures forall k :: Get(r, k) == (if LastValue(fields, k).Some? then LastValue(fields, k) else Get(o, k))
    decreases |fields|
  {
    if fields == [] then o
    else
      var last := fields[|fields| - 1];
      Put(Assign(o, fields[..|fields| - 1]), last.key, last.value)
  }

  /** Assignments to other keys leave a key alone. */
  lemma {:induction false} LastValueNone(fields: seq<Field>, key: string)
    requires forall f :: f in fields ==> f.key != key
    ensures LastValue(fields, key) == None
    decreases |fields|
  {
    if fields != [] {
      assert fields[|fields| - 1] in fields;
      var init := fields[..|fields| - 1];
      forall f | f in init
        ensures f.key != key
      {
        var i :| 0 <= i < |init| && init[i] == f;
        assert fields[i] == f;
      }
      LastValueNone(init, key);
    }
  }

  /** The last assignment to a key decides its value. */
  lemma {:induction false} LastValueAt(fields: seq<Field>, i: nat)
    requires i < |fields|
    requires forall j :: i < j < |fields| ==> fields[j].key != fields[i].key
    ensures LastValue(fields, fields[i].key) == Some(fields[i].value)
    decreases |fields|
  {
    if i < |fields| - 1 {
      LastValueAt(fields[..|fields| - 1], i);
    }
  }

  /** The fields named `keys[i]` carrying `values[i]`, in order. */
  function Fields(keys: seq<string>, values: seq<Json>): (r: seq<Field>)
    requires |keys| == |values|
    ensures |r| == |keys|
    ensures forall i :: 0 <= i < |r| ==> r[i] == Field(keys[i], values[i])
  {
    seq(|keys|, i requires 0 <= i < |keys| => Field(keys[i], values[i]))
  }

  predicate DistinctKeys(keys: seq<string>) {
    forall i, j :: 0 <= i < j < |keys| ==> keys[i] != keys[j]
  }

  /** With distinct keys, each key's field carries its own value. */
  lemma FieldsAt(keys: seq<string>, values: seq<Json>, i: nat)
    requires |keys| == |values| && DistinctKeys(keys) && i < |keys|
    ensures LastValue(Fields(keys, values), keys[i]) == Some(values[i])
  {
    LastValueAt(Fields(keys, values), i);
  }

  /** A key that is not among the fields' keys is not assigned. */
  lemma FieldsMissing(keys: seq<string>, values: seq<Json>, key: string)
    requires |keys| == |values| && key !in keys
    ensures LastValue(Fields(keys, values), key) == None
  {
    var fs := Fields(keys, values);
    forall f | f in fs
      ensures f.key != key
    {
      var i :| 0 <= i < |fs| && fs[i] == f;
    }
    LastValueNone(fs, key);
  }

  /** A possibly-null string as the description holds it. */
  function Str(o: Option<string>): Json {
    match o
    case None => JNull
    case Some(s) => JStr(s)
  }

  function NumAttr(e: Element, name: string): Number {
    NumberOf(GetAttribute(e, name))
  }

  function Box(x: Number, y: Number, width: Number, height: Number): Json {
    JObj([Field("x", JNum(x)), Field("y", JNum(y)), Field("width", JNum(width)), Field("height", JNum(height))])
  }

  // ---------------------------------------------------------------------------
  // Attribute pass-through (forEachShapeAttribute_)

  /** Rendering attributes are copied; `x-` attributes, `class` and `style` are the editor's own. */
  predicate PassesThrough(name: string) {
    !(|name| >= 2 && name[..2] == "x-") && name != "class" && name != "style"
  }

  /** The attributes handed to the callback, in attribute order. */
  function PassThrough(attrs: seq<Attr>): (r: seq<Attr>)
    ensures forall a :: a in r <==> a in attrs && PassesThrough(a.name)
    decreases |attrs|
  {
    if attrs == [] then []
    else
      var last := attrs[|attrs| - 1];
      PassThrough(attrs[..|attrs| - 1]) + (if PassesThrough(last.name) then [last] else [])
  }

  /** The key a pass-through attribute is stored under; the text serializer renames `space`. */
  function AttributeKey(name: string, renameSpace: bool): string {
    if renameSpace && name == "space" then "xml:space" else name
  }

  /** `attrs[key] = value` for each attribute in turn. */
  function PutAttributes(o: JsObject, attrs: seq<Attr>, renameSpace: bool): JsObject
    decreases |attrs|
  {
    if attrs == [] then o
    else
      var last := attrs[|attrs| - 1];
      Put(PutAttributes(o, attrs[..|attrs| - 1], renameSpace), AttributeKey(last.name, renameSpace), JStr(last.value))
  }

  /** The effect of `forEachShapeAttribute_(shape, function(k, v) { o[k] = v; })`. */
  function ApplyShapeAttributes(o: JsObject, shape: Element, renameSpace: bool): JsObject {
    PutAttributes(o, PassThrough(shape.attrs), renameSpace)
  }

  /** The attribute loop itself: index by index, the callback stores each pass-through attribute. */
  method ForEachShapeAttribute(shape: Element, o: JsObject, renameSpace: bool) returns (r: JsObject)
    ensures r == ApplyShapeAttributes(o, shape, renameSpace)
  {
    var attrs := shape.attrs;
    var i := 0;
    r := o;
    while i < |attrs|
      invariant 0 <= i <= |attrs|
      invariant r == PutAttributes(o, PassThrough(attrs[..i]), renameSpace)
    {
      var attr := attrs[i];
      assert attrs[..i + 1][..i] == attrs[..i];
      if PassesThrough(attr.name) {
        r := Put(r, AttributeKey(attr.name, renameSpace), JStr(attr.value));
        PutAttributesSnoc(o, PassThrough(attrs[..i]), attr, renameSpace);
      } else {
        assert PassThrough(attrs[..i + 1]) == PassThrough(attrs[..i]);
      }
      i := i + 1;
    }
    assert attrs[..i] == attrs;
  }

  lemma PutAttributesSnoc(o: JsObject, attrs: seq<Attr>, a: Attr, renameSpace: bool)
    ensures PutAttributes(o, attrs + [a], renameSpace)
         == Put(PutAttributes(o, attrs, renameSpace), AttributeKey(a.name, renameSpace), JStr(a.value))
  {
    assert (attrs + [a])[..|attrs|] == attrs;
  }

  /** The filter distributes over concatenation: it keeps the attribute order. */
  lemma {:induction false} PassThroughAppend(a: seq<Attr>, b: seq<Attr>)
    ensures PassThrough(a + b) == PassThrough(a) + PassThrough(b)
    decreases |b|
  {
    if b == [] {
      assert a + b == a;
    } else {
      var b' := b[..|b| - 1];
      assert (a + b)[..|a + b| - 1] == a + b';
      PassThroughAppend(a, b');
    }
  }

  /** The filter on a non-empty list: the filtered front, then the last attribute if it passes. */
  lemma PassThroughSnoc(attrs: seq<Attr>)
    requires attrs != []
    ensures PassesThrough(attrs[|attrs| - 1].name) ==>
      PassThrough(attrs) == PassThrough(attrs[..|attrs| - 1]) + [attrs[|attrs| - 1]]
    ensures !PassesThrough(attrs[|attrs| - 1].name) ==>
      PassThrough(attrs) == PassThrough(attrs[..|attrs| - 1])
  {
  }

  lemma {:induction false} PassThroughLast(o: JsObject, attrs: seq<Attr>, renameSpace: bool, k: nat)
    requires k < |attrs| && PassesThrough(attrs[k].name)
    requires forall j :: k < j < |attrs| && PassesThrough(attrs[j].name) ==>
               AttributeKey(attrs[j].name, renameSpace) != AttributeKey(attrs[k].name, renameSpace)
    ensures Get(PutAttributes(o, PassThrough(attrs), renameSpace), AttributeKey(attrs[k].name, renameSpace))
         == Some(JStr(attrs[k].value))
    decreases |attrs|
  {
    var init := attrs[..|attrs| - 1];
    var last := attrs[|attrs| - 1];
    PassThroughSnoc(attrs);
    if PassesThrough(last.name) {
      PutAttributesSnoc(o, PassThrough(init), last, renameSpace);
    }
    if k < |attrs| - 1 {
      PassThroughLast(o, init, renameSpace, k);
    }
  }

  lemma {:induction false} PassThroughOther(o: JsObject, attrs: seq<Attr>, renameSpace: bool, key: string)
    requires forall j :: 0 <= j < |attrs| && PassesThrough(attrs[j].name) ==>
               AttributeKey(attrs[j].name, renameSpace) != key
    ensures Get(PutAttributes(o, PassThrough(attrs), renameSpace), key) == Get(o, key)
    decreases |attrs|
  {
    if attrs != [] {
      var init := attrs[..|attrs| - 1];
      var last := attrs[|attrs| - 1];
      PassThroughSnoc(attrs);
      if PassesThrough(last.name) {
        PutAttributesSnoc(o, PassThrough(init), last, renameSpace);
      }
      PassThroughOther(o, init, renameSpace, key);
    }
  }

  /**
   * Pass-through is applied on top of `o`: a copied attribute overrides whatever
   * `o` held under its key, unless a later copied attribute has the same key.
   */
  lemma ShapeAttributeOverrides(o: JsObject, shape: Element, renameSpace: bool, k: nat)
    requires k < |shape.attrs| && PassesThrough(shape.attrs[k].name)
    requires forall j :: k < j < |shape.attrs| && PassesThrough(shape.attrs[j].name) ==>
               AttributeKey(shape.attrs[j].name, renameSpace) != AttributeKey(shape.attrs[k].name, renameSpace)
    ensures Get(ApplyShapeAttributes(o, shape, renameSpace), AttributeKey(shape.attrs[k].name, renameSpace))
         == Some(JStr(shape.attrs[k].value))
  {
    PassThroughLast(o, shape.attrs, renameSpace, k);
  }

  /** No attribute of `shape` is copied under `key`. */
  predicate NoPassThrough(shape: Element, key: string, renameSpace: bool) {
    forall a :: a in shape.attrs && PassesThrough(a.name) ==> AttributeKey(a.name, renameSpace) != key
  }

  /** Keys that no pass-through attribute maps to are left as `o` had them. */
  lemma ShapeAttributeKeeps(o: JsObject, shape: Element, renameSpace: bool, key: string)
    requires NoPassThrough(shape, key, renameSpace)
    ensures Get(ApplyShapeAttributes(o, shape, renameSpace), key) == Get(o, key)
  {
    PassThroughOther(o, shape.attrs, renameSpace, key);
  }

  // ---------------------------------------------------------------------------
  // Element markup (serializeToContent)

  /** One element's markup after the two layout fix-ups. */
  function Markup(env: Env, e: Element): string {
    env.fixHref(env.fixXmlSpace(env.toXml(e)))
  }

  /** The concatenated markup of `nodes`, in order. */
  function ContentOf(env: Env, nodes: seq<Element>): string
    decreases |nodes|
  {
    if nodes == [] then "" else ContentOf(env, nodes[..|nodes| - 1]) + Markup(env, nodes[|nodes| - 1])
  }

  /** `serializeToContent`: the loop appending each element's fixed-up markup. */
  method SerializeToContent(env: Env, nodes: seq<Element>) returns (content: string)
    ensures content == ContentOf(env, nodes)
  {
    content := "";
    var i := 0;
    while i < |nodes|
      invariant 0 <= i <= |nodes|
      invariant content == ContentOf(env, nodes[..i])
    {
      assert nodes[..i + 1][..i] == nodes[..i];
      content := content + Markup(env, nodes[i]);
      i := i + 1;
    }
    assert nodes[..i] == nodes;
  }

  /** The content of a sequence is the content of its parts, one after the other. */
  lemma {:induction false} ContentOfAppend(env: Env, a: seq<Element>, b: seq<Element>)
    ensures ContentOf(env, a + b) == ContentOf(env, a) + ContentOf(env, b)
    decreases |b|
  {
    if b == [] {
      assert a + b == a;
    } else {
      var b' := b[..|b| - 1];
      assert (a + b)[..|a + b| - 1] == a + b';
      ContentOfAppend(env, a, b');
    }
  }

  // ---------------------------------------------------------------------------
  // Text lines (the forEach of serializeForText_)

  /** The child elements that are text lines. */
  function TextLines(nodes: seq<Element>): (r: seq<Element>)
    ensures forall e :: e in r <==> e in nodes && e.tag == "text"
    decreases |nodes|
  {
    if nodes == [] then []
    else
      var last := nodes[|nodes| - 1];
      TextLines(nodes[..|nodes| - 1]) + (if last.tag == "text" then [last] else [])
  }

  /**
   * `line.firstChild.data`: the text of a leading text node, `undefined` (kept as
   * null) when the first child is an element, and a TypeError when there is none.
   */
  function LineData(line: Element): Result<Json, Failure> {
    match line.text
    case Some(d) => Ok(JStr(d))
    case None => if line.children != [] then Ok(JNull) else Err(TypeError("firstChild of a text line is null"))
  }

  function LinesData(lines: seq<Element>): Result<seq<Json>, Failure>
    decreases |lines|
  {
    if lines == [] then Ok([])
    else
      var init :- LinesData(lines[..|lines| - 1]);
      var last :- LineData(lines[|lines| - 1]);
      Ok(init + [last])
  }

  lemma TextLinesSnoc(nodes: seq<Element>, node: Element)
    ensures TextLines(nodes + [node]) == TextLines(nodes) + (if node.tag == "text" then [node] else [])
  {
    assert (nodes + [node])[..|nodes|] == nodes;
  }

  lemma LinesDataSnoc(lines: seq<Element>, line: Element)
    ensures LinesData(lines + [line]) ==
      (if LinesData(lines).Err? then LinesData(lines)
       else if LineData(line).Err? then Err(LineData(line).error)
       else Ok(LinesData(lines).value + [LineData(line).value]))
  {
    assert (lines + [line])[..|lines|] == lines;
  }

  /** The loop over the child nodes that gathers the text lines and their texts. */
  method CollectTextLines(nodes: seq<Element>) returns (lines: seq<Element>, texts: Result<seq<Json>, Failure>)
    ensures lines == TextLines(nodes)
    ensures texts == LinesData(TextLines(nodes))
  {
    lines := [];
    texts := Ok([]);
    var i := 0;
    while i < |nodes|
      invariant 0 <= i <= |nodes|
      invariant lines == TextLines(nodes[..i])
      invariant texts == LinesData(lines)
    {
      var node := nodes[i];
      assert nodes[..i + 1] == nodes[..i] + [node];
      TextLinesSnoc(nodes[..i], node);
      if node.tag == "text" {
        LinesDataSnoc(lines, node);
        if texts.Ok? {
          var d := LineData(node);
          texts := if d.Ok? then Ok(texts.value + [d.value]) else Err(d.error);
        }
        lines := lines + [node];
      }
      i := i + 1;
    }
    assert nodes[..i] == nodes;
  }

  // ---------------------------------------------------------------------------
  // Shape serializers

  /** The four fields every shape starts with: type, id, display (defaulting to 'true') and desc. */
  function Head(shape: Element): JsObject {
    [Field("type", Str(GetAttribute(shape, "class"))),
     Field("id", Str(GetAttribute(shape, "x-id"))),
     Field("display", JStr(AttributeOr(shape, "x-display", "true"))),
     Field("desc", Str(GetAttribute(shape, "x-desc")))]
  }

  /** `line-height`: the number when the attribute is present, the blank string otherwise. */
  function LineHeightOf(shape: Element): Json {
    if HasAttribute(shape, "x-line-height") then JNum(NumAttr(shape, "x-line-height")) else JStr(BLANK)
  }

  function BoxOf(shape: Element): Json {
    Box(NumAttr(shape, "x-left"), NumAttr(shape, "x-top"), NumAttr(shape, "x-width"), NumAttr(shape, "x-height"))
  }

  /** The x of an anchored text: left, the rounded middle, or the rounded right edge. */
  function AnchorX(env: Env, anchor: Option<string>, left: Number, width: Number): Number {
    if anchor == Some(ANCHOR_MIDDLE) then env.round(Add(left, Half(width)))
    else if anchor == Some(ANCHOR_END) then env.round(Add(left, width))
    else left
  }

  function FontFamily(shape: Element): Option<string> { GetAttribute(shape, "font-family") }
  function FontSize(shape: Element): Number { NumAttr(shape, "font-size") }
  function IsBold(shape: Element): bool { GetAttribute(shape, "font-weight") == Some("bold") }

  function Ascent(env: Env, shape: Element): Number {
    env.ascent(FontFamily(shape), FontSize(shape), IsBold(shape))
  }

  /** serializeForText_: line height, vertical alignment, box, the line texts and the markup. */
  function SerializeForText(env: Env, shape: Element, json: JsObject): Result<JsObject, Failure> {
    var attrs := ApplyShapeAttributes([], shape, true);
    var lines := TextLines(shape.children);
    var texts :- LinesData(lines);
    Ok(Assign(json, TextFields(env, shape, attrs, texts, lines)))
  }

  const TEXT_KEYS: seq<string> := ["line-height", "valign", "box", "text", "svg"]

  function TextValues(env: Env, shape: Element, attrs: JsObject, texts: seq<Json>, lines: seq<Element>): seq<Json> {
    [ LineHeightOf(shape),
      JStr(AttributeOr(shape, "x-valign", BLANK)),
      BoxOf(shape),
      JArr(texts),
      JObj([Field("tag", JStr(shape.tag)), Field("attrs", JObj(attrs)), Field("content", JStr(ContentOf(env, lines)))])]
  }

  function TextFields(env: Env, shape: Element, attrs: JsObject, texts: seq<Json>, lines: seq<Element>): seq<Field> {
    Fields(TEXT_KEYS, TextValues(env, shape, attrs, texts, lines))
  }

  /** serializeForImageblock_: box, the two positions with their defaults, and an `image` element. */
  function SerializeForImageblock(env: Env, shape: Element, json: JsObject): JsObject {
    Assign(json, ImageblockFields(env, shape))
  }

  const IMAGEBLOCK_KEYS: seq<string> := ["box", "position-x", "position-y", "svg"]

  function ImageblockValues(env: Env, shape: Element): seq<Json> {
    var left := NumAttr(shape, "x-left");
    var top := NumAttr(shape, "x-top");
    var width := NumAttr(shape, "x-width");
    var height := NumAttr(shape, "x-height");
    [ Box(left, top, width, height),
      JStr(AttributeOr(shape, "x-position-x", env.positionXDefault)),
      JStr(AttributeOr(shape, "x-position-y", env.positionYDefault)),
      JObj([Field("tag", JStr("image")), Field("attrs", Box(left, top, width, height))])]
  }

  function ImageblockFields(env: Env, shape: Element): seq<Field> {
    Fields(IMAGEBLOCK_KEYS, ImageblockValues(env, shape))
  }

  /** The `format` object of a text block: base and type, plus the settings of the type. */
  function FormatObject(shape: Element, formatType: string): (r: JsObject)
    ensures 2 <= |r| <= 3
    ensures r[..2] == [Field("base", JStr(AttributeOr(shape, "x-format-base", BLANK))), Field("type", JStr(formatType))]
  {
    var base := [Field("base", JStr(AttributeOr(shape, "x-format-base", BLANK))), Field("type", JStr(formatType))];
    if formatType == BLANK then base
    else if formatType == "datetime" then
      var nested := JObj([Field("format", JStr(AttributeOr(shape, "x-format-datetime-format", BLANK)))]);
      PutAppends(base, formatType, nested);
      Put(base, formatType, nested)
    else if formatType == "number" then
      var nested := JObj([
        Field("delimiter", JStr(AttributeOr(shape, "x-format-number-delimiter", BLANK))),
        Field("precision", JNum(OrZero(NumAttr(shape, "x-format-number-precision"))))]);
      PutAppends(base, formatType, nested);
      Put(base, formatType, nested)
    else if formatType == "padding" then
      var nested := JObj([
        Field("length", JNum(OrZero(NumAttr(shape, "x-format-padding-length")))),
        Field("char", JStr(AttributeOr(shape, "x-format-padding-char", "0"))),
        Field("direction", JStr(AttributeOr(shape, "x-format-padding-direction", "L")))]);
      PutAppends(base, formatType, nested);
      Put(base, formatType, nested)
    else base
  }

  function IsMultiMode(shape: Element): bool { AttributeOr(shape, "x-multiple", "false") == "true" }

  function TblockTag(shape: Element): string { if IsMultiMode(shape) then "textArea" else "text" }

  function TblockFormatType(shape: Element): string {
    if IsMultiMode(shape) then BLANK else AttributeOr(shape, "x-format-type", BLANK)
  }

  /** The computed svg attributes of a text block, before `xml:space` and pass-through. */
  function TblockCoordinates(env: Env, shape: Element): JsObject {
    var left := NumAttr(shape, "x-left");
    var top := NumAttr(shape, "x-top");
    var width := NumAttr(shape, "x-width");
    var height := NumAttr(shape, "x-height");
    if TblockTag(shape) == "text" then
      [Field("x", JNum(AnchorX(env, GetAttribute(shape, "text-anchor"), left, width))),
       Field("y", JNum(env.round(Add(top, Ascent(env, shape)))))]
    else
      var heightAt := env.fontHeight(FontFamily(shape), FontSize(shape));
      var lineHeight := env.lineHeight(FontFamily(shape), FontSize(shape), IsBold(shape));
      [Field("x", JNum(left)),
       Field("y", JNum(env.round(Sub(top, Sub(heightAt, lineHeight))))),
       Field("width", JNum(width)),
       Field("height", JNum(height))]
  }

  /** serializeForTblock_ */
  function SerializeForTblock(env: Env, shape: Element, json: JsObject): JsObject {
    Assign(json, TblockFields(env, shape))
  }

  /** The svg attributes of a text block: coordinates, `xml:space`, then pass-through. */
  function TblockAttrs(env: Env, shape: Element): JsObject {
    ApplyShapeAttributes(Put(TblockCoordinates(env, shape), "xml:space", JStr("preserve")), shape, false)
  }

  const TBLOCK_KEYS: seq<string> :=
    ["multiple", "valign", "line-height", "box", "format", "value", "ref-id", "overflow", "svg"]

  function TblockValues(env: Env, shape: Element): seq<Json> {
    [ JStr(AttributeOr(shape, "x-multiple", "false")),
      JStr(AttributeOr(shape, "x-valign", BLANK)),
      LineHeightOf(shape),
      BoxOf(shape),
      JObj(FormatObject(shape, TblockFormatType(shape))),
      JStr(AttributeOr(shape, "x-value", BLANK)),
      JStr(AttributeOr(shape, "x-ref-id", BLANK)),
      JStr(AttributeOr(shape, "x-overflow", BLANK)),
      JObj([Field("tag", JStr(TblockTag(shape))), Field("attrs", JObj(TblockAttrs(env, shape)))])]
  }

  function TblockFields(env: Env, shape: Element): seq<Field> {
    Fields(TBLOCK_KEYS, TblockValues(env, shape))
  }

  /** The computed svg attributes of a page number, before pass-through. */
  function PageNumberCoordinates(env: Env, shape: Element): JsObject {
    [Field("x", JNum(AnchorX(env, GetAttribute(shape, "text-anchor"), NumAttr(shape, "x-left"), NumAttr(shape, "x-width")))),
     Field("y", JNum(env.round(Add(NumAttr(shape, "x-top"), Ascent(env, shape)))))]
  }

  /** serializeForPageNumber_ */
  function SerializeForPageNumber(env: Env, shape: Element, json: JsObject): JsObject {
    Assign(json, PageNumberFields(env, shape))
  }

  /** The svg attributes of a page number: coordinates, then pass-through. */
  function PageNumberAttrs(env: Env, shape: Element): JsObject {
    ApplyShapeAttributes(PageNumberCoordinates(env, shape), shape, false)
  }

  const PAGENUMBER_KEYS: seq<string> := ["box", "start-at", "target", "format", "overflow", "svg"]

  function PageNumberValues(env: Env, shape: Element): seq<Json> {
    [ BoxOf(shape),
      JStr(AttributeOr(shape, "x-start-at", "")),
      JStr(AttributeOr(shape, "x-target", "")),
      JStr(AttributeOr(shape, "x-format", "")),
      JStr(AttributeOr(shape, "x-overflow", "")),
      JObj([Field("tag", JStr("text")), Field("attrs", JObj(PageNumberAttrs(env, shape)))])]
  }

  function PageNumberFields(env: Env, shape: Element): seq<Field> {
    Fields(PAGENUMBER_KEYS, PageNumberValues(env, shape))
  }

  /** The default branch: the element's tag and its pass-through attributes. */
  function SerializeOther(shape: Element, json: JsObject): JsObject {
    Put(json, "svg", JObj([Field("tag", JStr(shape.tag)), Field("attrs", JObj(ApplyShapeAttributes([], shape, false)))]))
  }

  // ---------------------------------------------------------------------------
  // List sections

  /** `s.replace(pat, rep)` with a non-global pattern: only the first occurrence is replaced. */
  function ReplaceFirst(s: string, pat: string, rep: string): string
    decreases |s|
  {
    if |s| < |pat| then s
    else if s[..|pat|] == pat then rep + s[|pat|..]
    else [s[0]] + ReplaceFirst(s[1..], pat, rep)
  }

  /** getSectionName: the class identifier without its first `s-list-`. */
  function GetSectionName(sectionClassId: string): (r: string)
    ensures var p := LIST_CLASSID + "-";
      |p| <= |sectionClassId| && sectionClassId[..|p|] == p ==> r == sectionClassId[|p|..]
  {
    ReplaceFirst(sectionClassId, LIST_CLASSID + "-", "")
  }

  /** The list attribute that says whether a section is enabled. */
  function EnabledKey(sectionClassId: string): string {
    "x-" + GetSectionName(sectionClassId) + "-enabled"
  }

  /** getEnabledOfSection: a section without a class makes `replace` throw. */
  function GetEnabledOfSection(element: Element, parent: Element): (r: Result<string, Failure>)
    ensures r.Err? <==> GetAttribute(element, "class").None?
    ensures r.Ok? ==>
      var stored := GetAttribute(parent, EnabledKey(GetAttribute(element, "class").value));
      r.value == (if stored.Some? && stored.value != "" then stored.value else "true")
  {
    match GetAttribute(element, "class")
    case None => Err(TypeError("section class is null"))
    case Some(c) => Ok(AttributeOr(parent, EnabledKey(c), "true"))
  }

  predicate IsTranslateChar(c: char) {
    c == '-' || IsDigit(c) || c == ',' || c == '.'
  }

  /** The longest prefix of `s` made of `[-0-9,.]`. */
  function RunPrefix(s: string): (r: string)
    ensures |r| <= |s| && r == s[..|r|]
    ensures forall i :: 0 <= i < |r| ==> IsTranslateChar(r[i])
    ensures |r| < |s| ==> !IsTranslateChar(s[|r|])
    decreases |s|
  {
    if s == [] || !IsTranslateChar(s[0]) then [] else [s[0]] + RunPrefix(s[1..])
  }

  /** `s.match(/[\-\d\,\.]+/)[0]`, with `None` for a failed match. */
  function FirstRun(s: string): (r: Option<string>)
    ensures r.None? <==> forall i :: 0 <= i < |s| ==> !IsTranslateChar(s[i])
    decreases |s|
  {
    if s == [] then None
    else if IsTranslateChar(s[0]) then Some(RunPrefix(s))
    else FirstRun(s[1..])
  }

  /** `s.split(sep)` for a single-character separator: always at least one piece. */
  function Split(s: string, sep: char): (r: seq<string>)
    ensures |r| >= 1
    decreases |s|
  {
    var k := IndexOf(s, sep);
    if k == |s| then [s] else [s[..k]] + Split(s[k + 1..], sep)
  }

  /** getTransLateCoordinate: the translation of a `transform` attribute, (0, 0) when there is none. */
  function GetTranslateCoordinate(e: Element): (r: Result<(Number, Number), Failure>)
    ensures GetAttribute(e, "transform").None? ==> r == Ok((Finite(0.0), Finite(0.0)))
    ensures r.Err? <==> (GetAttribute(e, "transform").Some? &&
      forall i :: 0 <= i < |GetAttribute(e, "transform").value| ==> !IsTranslateChar(GetAttribute(e, "transform").value[i]))
  {
    match GetAttribute(e, "transform")
    case None => Ok((Finite(0.0), Finite(0.0)))
    case Some(t) =>
      match FirstRun(t)
      case None => Err(TypeError("transform has no coordinates"))
      case Some(run) =>
        var parts := Split(run, ',');
        if |parts| == 1 then Ok((StringToNumber(parts[0]), StringToNumber(parts[0])))
        else Ok((StringToNumber(parts[0]), StringToNumber(parts[1])))
  }

  /**
   * serializeForListForSection_: the description of one section, and the section
   * element afterwards (a disabled section loses its children).
   */
  function SerializeForListForSection(env: Env, group: Element, enabled: bool, detailTop: Option<Number>)
    : (r: Result<(JsObject, Element), Failure>)
    ensures !enabled ==> (r.Ok? && r.value.0 == [] &&
      r.value.1.children == [] && r.value.1.text.None? && r.value.1.tag == group.tag && r.value.1.attrs == group.attrs)
    ensures enabled ==> (r.Err? <==> GetTranslateCoordinate(group).Err?)
    ensures enabled && r.Ok? ==> (r.value.1 == group && |r.value.0| == 3 &&
      r.value.0[0].key == "height" && r.value.0[1].key == "svg" && r.value.0[2].key == "translate")
  {
    if !enabled then Ok(([], RemoveChildren(group)))
    else
      var translate :- GetTranslateCoordinate(group);
      var y := match detailTop
               case None => translate.1
               case Some(dt) => Sub(translate.1, Sub(NumAttr(group, "x-top"), dt));
      Ok(([Field("height", JNum(NumAttr(group, "x-height"))),
           Field("svg", JObj([Field("tag", JStr(group.tag)),
                              Field("content", JStr(ContentOf(env, env.serializeShapes(group.children))))])),
           Field("translate", JObj([Field("x", JNum(translate.0)), Field("y", JNum(y))]))],
          group))
  }

  /** One step of the right-to-left walk over the list's children. */
  function SectionStep(env: Env, list: Element, child: Element, detailTop: Number, json: JsObject)
    : Result<(JsObject, Element), Failure>
  {
    if child.tag != "g" then Ok((json, child))
    else
      var enabled :- GetEnabledOfSection(child, list);
      var cls := GetAttribute(child, "class").value;
      var name := GetSectionName(cls);
      var isDetail := cls == DETAIL_CLASSID;
      var section :- SerializeForListForSection(env, child, enabled == "true",
                       if cls == HEADER_CLASSID || isDetail then None else Some(detailTop));
      var j1 := Put(json, name, JObj(section.0));
      Ok((if isDetail then j1 else Put(j1, name + "-enabled", JStr(enabled)), section.1))
  }

  /** `goog.array.forEachRight` over the children: the last child is visited first. */
  function Sections(env: Env, list: Element, children: seq<Element>, detailTop: Number, json: JsObject)
    : (r: Result<(JsObject, seq<Element>), Failure>)
    ensures r.Ok? ==> |r.value.1| == |children|
    decreases |children|
  {
    if children == [] then Ok((json, []))
    else
      var last :- SectionStep(env, list, children[|children| - 1], detailTop, json);
      var rest :- Sections(env, list, children[..|children| - 1], detailTop, last.0);
      Ok((rest.0, rest.1 + [last.1]))
  }

  /** `Number(headerStruct['height'])` when defined; reading a property of `undefined` or null throws. */
  function HeaderHeight(header: Option<Json>): Result<Number, Failure> {
    match header
    case None => Err(TypeError("list has no header section"))
    case Some(JNull) => Err(TypeError("header section is null"))
    case Some(JObj(f)) =>
      (match Get(f, "height")
       case Some(JNum(n)) => Ok(n)
       case Some(JStr(s)) => Ok(StringToNumber(s))
       case Some(JNull) => Ok(Finite(0.0))
       case Some(_) => Ok(NaN)
       case None => Ok(Finite(0.0)))
    case Some(_) => Ok(Finite(0.0))
  }

  /** The end of serializeForList_, after the sections: the list's own svg, content height and page break. */
  function ListTail(shape: Element, sections: JsObject): Result<JsObject, Failure> {
    var j1 := Put(sections, "svg", ListSvg(shape));
    var headerHeight :- HeaderHeight(Get(j1, GetSectionName(HEADER_CLASSID)));
    Ok(ListHeights(shape, j1, headerHeight))
  }

  /** The list's own svg: the bare tag, no attributes. */
  function ListSvg(shape: Element): Json {
    JObj([Field("tag", JStr(shape.tag)), Field("attrs", JObj([]))])
  }

  /** The content height and the page break, put in that order. */
  function ListHeights(shape: Element, json: JsObject, headerHeight: Number): JsObject {
    var j := Put(json, "content-height", JNum(Sub(NumAttr(shape, "height"), headerHeight)));
    Put(j, "page-break", JStr(AttributeOr(shape, "x-changing-page", "false")))
  }

  /** serializeForList_: the sections, then the list's own svg, content height and page break. */
  function SerializeForList(env: Env, shape: Element, json: JsObject): (r: Result<(JsObject, Element), Failure>)
    ensures Editor.GetElementByClassNameForChildNodes(DETAIL_CLASSID, shape.children).None? ==> r.Err?
    ensures r.Ok? ==> r.value.1.tag == shape.tag && r.value.1.attrs == shape.attrs && r.value.1.text == shape.text
    ensures r.Ok? ==> |r.value.1.children| == |shape.children|
  {
    var detail := Editor.GetElementByClassNameForChildNodes(DETAIL_CLASSID, shape.children);
    if detail.None? then Err(TypeError("list has no detail section"))
    else
      var detailTop := NumAttr(detail.value, "x-top");
      var done :- Sections(env, shape, shape.children, detailTop, json);
      var j :- ListTail(shape, done.0);
      Ok((j, shape.(children := done.1)))
  }

  /** The description of a shape, and the shape afterwards (disabled list sections are emptied). */
  datatype Serialized = Serialized(json: JsObject, shape: Element)

  /** serialize: the common head, then the serializer chosen by the class identifier. */
  function Serialize(env: Env, shape: Element): (r: Result<Serialized, Failure>)
    ensures GetAttribute(shape, "class") !in {Some(LIST_CLASSID), Some(TEXT_CLASSID)} ==> r.Ok?
    ensures r.Ok? && GetAttribute(shape, "class") != Some(LIST_CLASSID) ==> r.value.shape == shape
    ensures r.Ok? ==> r.value.shape.tag == shape.tag && r.value.shape.attrs == shape.attrs
  {
    var cls := GetAttribute(shape, "class");
    var head := Head(shape);
    if cls == Some(TBLOCK_CLASSID) then Ok(Serialized(SerializeForTblock(env, shape, head), shape))
    else if cls == Some(LIST_CLASSID) then
      var r :- SerializeForList(env, shape, head);
      Ok(Serialized(r.0, r.1))
    else if cls == Some(TEXT_CLASSID) then
      var j :- SerializeForText(env, shape, head);
      Ok(Serialized(j, shape))
    else if cls == Some(IMAGEBLOCK_CLASSID) then Ok(Serialized(SerializeForImageblock(env, shape, head), shape))
    else if cls == Some(PAGENUMBER_CLASSID) then Ok(Serialized(SerializeForPageNumber(env, shape, head), shape))
    else Ok(Serialized(SerializeOther(shape, head), shape))
  }
}
