/** Properties of the structure serializer. */
module ShapeStructureProperties {
  import opened Wrappers
  import opened Js
  import opened Dom
  import Editor
  import opened ShapeStructure

  /** The `svg` object of a description. */
  function SvgOf(json: JsObject): Option<JsObject> {
    match Get(json, "svg")
    case Some(JObj(f)) => Some(f)
    case _ => None
  }

  /** The `svg.attrs` object of a description. */
  function SvgAttrsOf(json: JsObject): Option<JsObject> {
    match SvgOf(json)
    case None => None
    case Some(svg) =>
      match Get(svg, "attrs")
      case Some(JObj(f)) => Some(f)
      case _ => None
  }

  /** Attribute `k` is copied, and no later copied attribute is stored under the same key. */
  predicate CopiedLast(shape: Element, k: int, renameSpace: bool) {
    0 <= k < |shape.attrs| && PassesThrough(shape.attrs[k].name) &&
    forall j :: k < j < |shape.attrs| && PassesThrough(shape.attrs[j].name) ==>
      AttributeKey(shape.attrs[j].name, renameSpace) != AttributeKey(shape.attrs[k].name, renameSpace)
  }

  lemma KeepsUnlessCopied(o: JsObject, shape: Element, key: string)
    ensures NoPassThrough(shape, key, false) ==> Get(ApplyShapeAttributes(o, shape, false), key) == Get(o, key)
  {
    if NoPassThrough(shape, key, false) {
      ShapeAttributeKeeps(o, shape, false, key);
    }
  }

  /** Child `c` is a section whose entries are stored under `key`. */
  predicate WritesKey(c: Element, key: string) {
    c.tag == "g" && GetAttribute(c, "class").Some? &&
    (GetSectionName(GetAttribute(c, "class").value) == key ||
     GetSectionName(GetAttribute(c, "class").value) + "-enabled" == key)
  }

  predicate SectionsAvoid(children: seq<Element>, key: string) {
    forall i :: 0 <= i < |children| ==> !WritesKey(children[i], key)
  }

  /** No list section is named like one of the four head fields. */
  predicate SectionsAvoidHead(children: seq<Element>) {
    SectionsAvoid(children, "type") && SectionsAvoid(children, "id") &&
    SectionsAvoid(children, "display") && SectionsAvoid(children, "desc")
  }

  /** Sections that do not store under `key` leave it alone. */
  lemma {:induction false} SectionsKeep(env: Env, list: Element, children: seq<Element>, detailTop: Number, json: JsObject, key: string)
    requires SectionsAvoid(children, key)
    ensures Sections(env, list, children, detailTop, json).Ok? ==>
              Get(Sections(env, list, children, detailTop, json).value.0, key) == Get(json, key)
    decreases |children|
  {
    if children != [] {
      var step := SectionStep(env, list, children[|children| - 1], detailTop, json);
      assert !WritesKey(children[|children| - 1], key);
      if step.Ok? {
        SectionsKeep(env, list, children[..|children| - 1], detailTop, step.value.0, key);
      }
    }
  }

  /** `serialize` picks the serializer by the class identifier; unknown classes take the default branch. */
  lemma SerializeDispatch(env: Env, shape: Element)
    ensures var cls := GetAttribute(shape, "class");
      (cls == Some(TBLOCK_CLASSID) ==> Serialize(env, shape) == Ok(Serialized(SerializeForTblock(env, shape, Head(shape)), shape))) &&
      (cls == Some(LIST_CLASSID) ==>
         Serialize(env, shape) == (var r := SerializeForList(env, shape, Head(shape));
                                   if r.Ok? then Ok(Serialized(r.value.0, r.value.1)) else Err(r.error))) &&
      (cls == Some(TEXT_CLASSID) ==>
         Serialize(env, shape) == (var r := SerializeForText(env, shape, Head(shape));
                                   if r.Ok? then Ok(Serialized(r.value, shape)) else Err(r.error))) &&
      (cls == Some(IMAGEBLOCK_CLASSID) ==> Serialize(env, shape) == Ok(Serialized(SerializeForImageblock(env, shape, Head(shape)), shape))) &&
      (cls == Some(PAGENUMBER_CLASSID) ==> Serialize(env, shape) == Ok(Serialized(SerializeForPageNumber(env, shape, Head(shape)), shape))) &&
      (cls !in {Some(TBLOCK_CLASSID), Some(LIST_CLASSID), Some(TEXT_CLASSID), Some(IMAGEBLOCK_CLASSID), Some(PAGENUMBER_CLASSID)} ==>
         Serialize(env, shape) == Ok(Serialized(SerializeOther(shape, Head(shape)), shape)))
  {
  }

  predicate IsHeadKey(key: string) {
    key == "type" || key == "id" || key == "display" || key == "desc"
  }

  /** The serializers' field keys are distinct. */
  lemma FieldKeysDistinct()
    ensures DistinctKeys(TEXT_KEYS) && DistinctKeys(IMAGEBLOCK_KEYS)
    ensures DistinctKeys(TBLOCK_KEYS) && DistinctKeys(PAGENUMBER_KEYS)
  {
  }

  /** None of the serializers assigns one of the four head keys. */
  lemma HeadKeysUnassigned(key: string)
    requires IsHeadKey(key)
    ensures key !in TEXT_KEYS && key !in IMAGEBLOCK_KEYS && key !in TBLOCK_KEYS && key !in PAGENUMBER_KEYS
  {
  }

  lemma TextKeepsHead(env: Env, shape: Element, json: JsObject, key: string)
    requires IsHeadKey(key)
    ensures SerializeForText(env, shape, json).Ok? ==> Get(SerializeForText(env, shape, json).value, key) == Get(json, key)
  {
    var lines := TextLines(shape.children);
    if LinesData(lines).Ok? {
      HeadKeysUnassigned(key);
      FieldsMissing(TEXT_KEYS, TextValues(env, shape, ApplyShapeAttributes([], shape, true), LinesData(lines).value, lines), key);
    }
  }

  lemma TblockKeepsHead(env: Env, shape: Element, json: JsObject, key: string)
    requires IsHeadKey(key)
    ensures Get(SerializeForTblock(env, shape, json), key) == Get(json, key)
  {
    HeadKeysUnassigned(key);
    FieldsMissing(TBLOCK_KEYS, TblockValues(env, shape), key);
  }

  lemma ImageblockKeepsHead(env: Env, shape: Element, json: JsObject, key: string)
    requires IsHeadKey(key)
    ensures Get(SerializeForImageblock(env, shape, json), key) == Get(json, key)
  {
    HeadKeysUnassigned(key);
    FieldsMissing(IMAGEBLOCK_KEYS, ImageblockValues(env, shape), key);
  }

  lemma PageNumberKeepsHead(env: Env, shape: Element, json: JsObject, key: string)
    requires IsHeadKey(key)
    ensures Get(SerializeForPageNumber(env, shape, json), key) == Get(json, key)
  {
    HeadKeysUnassigned(key);
    FieldsMissing(PAGENUMBER_KEYS, PageNumberValues(env, shape), key);
  }

  lemma ListKeepsHead(env: Env, shape: Element, json: JsObject, key: string)
    requires IsHeadKey(key) && SectionsAvoid(shape.children, key)
    ensures SerializeForList(env, shape, json).Ok? ==> Get(SerializeForList(env, shape, json).value.0, key) == Get(json, key)
  {
    var detail := Editor.GetElementByClassNameForChildNodes(DETAIL_CLASSID, shape.children);
    if detail.Some? {
      var detailTop := NumAttr(detail.value, "x-top");
      SectionsKeep(env, shape, shape.children, detailTop, json, key);
      var done := Sections(env, shape, shape.children, detailTop, json);
      if done.Ok? {
        ListTailKeeps(shape, done.value.0, key);
      }
    }
  }

  /** The end of the list serializer writes only `svg`, `content-height` and `page-break`. */
  lemma ListTailKeeps(shape: Element, sections: JsObject, key: string)
    requires IsHeadKey(key)
    ensures ListTail(shape, sections).Ok? ==> Get(ListTail(shape, sections).value, key) == Get(sections, key)
  {
  }

  /** The four head fields, read back. */
  lemma HeadFields(shape: Element)
    ensures Get(Head(shape), "type") == Some(Str(GetAttribute(shape, "class")))
    ensures Get(Head(shape), "id") == Some(Str(GetAttribute(shape, "x-id")))
    ensures Get(Head(shape), "display") == Some(JStr(AttributeOr(shape, "x-display", "true")))
    ensures Get(Head(shape), "desc") == Some(Str(GetAttribute(shape, "x-desc")))
    ensures KeysOf(Head(shape)) == ["type", "id", "display", "desc"]
  {
    var h := Head(shape);
    assert Get(h, "display") == Get(h[1..], "display") == Get(h[2..], "display");
    assert Get(h, "desc") == Get(h[1..], "desc") == Get(h[2..], "desc") == Get(h[3..], "desc");
    assert KeysOf(h) == ["type"] + KeysOf(h[1..]);
    assert KeysOf(h[1..]) == ["id"] + KeysOf(h[2..]);
    assert KeysOf(h[2..]) == ["display"] + KeysOf(h[3..]);
    assert KeysOf(h[3..]) == ["desc"] + KeysOf(h[4..]);
  }

  lemma SerializeKeepsHead(env: Env, shape: Element, key: string)
    requires IsHeadKey(key)
    requires Serialize(env, shape).Ok?
    requires GetAttribute(shape, "class") == Some(LIST_CLASSID) ==> SectionsAvoid(shape.children, key)
    ensures Get(Serialize(env, shape).value.json, key) == Get(Head(shape), key)
  {
    SerializeDispatch(env, shape);
    var h := Head(shape);
    TextKeepsHead(env, shape, h, key);
    TblockKeepsHead(env, shape, h, key);
    ImageblockKeepsHead(env, shape, h, key);
    PageNumberKeepsHead(env, shape, h, key);
    if GetAttribute(shape, "class") == Some(LIST_CLASSID) {
      ListKeepsHead(env, shape, h, key);
    }
  }

  /**
   * Every description starts from the same four fields: the class identifier as
   * `type`, `x-id`, `x-display` defaulting to 'true', and `x-desc`.
   */
  lemma SerializeHead(env: Env, shape: Element)
    requires Serialize(env, shape).Ok?
    requires GetAttribute(shape, "class") == Some(LIST_CLASSID) ==> SectionsAvoidHead(shape.children)
    ensures var json := Serialize(env, shape).value.json;
      Get(json, "type") == Some(Str(GetAttribute(shape, "class"))) &&
      Get(json, "id") == Some(Str(GetAttribute(shape, "x-id"))) &&
      Get(json, "display") == Some(JStr(AttributeOr(shape, "x-display", "true"))) &&
      Get(json, "desc") == Some(Str(GetAttribute(shape, "x-desc")))
  {
    HeadFields(shape);
    SerializeKeepsHead(env, shape, "type");
    SerializeKeepsHead(env, shape, "id");
    SerializeKeepsHead(env, shape, "display");
    SerializeKeepsHead(env, shape, "desc");
  }

  /** A shape whose class has no serializer of its own: its tag and pass-through attributes. */
  lemma SerializeOtherShape(env: Env, shape: Element)
    requires GetAttribute(shape, "class") !in
      {Some(TBLOCK_CLASSID), Some(LIST_CLASSID), Some(TEXT_CLASSID), Some(IMAGEBLOCK_CLASSID), Some(PAGENUMBER_CLASSID)}
    ensures Serialize(env, shape).Ok? && Serialize(env, shape).value.shape == shape
    ensures KeysOf(Serialize(env, shape).value.json) == ["type", "id", "display", "desc", "svg"]
    ensures SvgOf(Serialize(env, shape).value.json)
         == Some([Field("tag", JStr(shape.tag)), Field("attrs", JObj(ApplyShapeAttributes([], shape, false)))])
  {
    SerializeDispatch(env, shape);
    HeadFields(shape);
    PutKeys(Head(shape), "svg", JObj([Field("tag", JStr(shape.tag)), Field("attrs", JObj(ApplyShapeAttributes([], shape, false)))]));
  }

  // ---------------------------------------------------------------------------
  // Text shapes

  /** What a text line contributes: its text, or null when its first child is an element. */
  function LineText(line: Element): Json {
    match line.text
    case Some(d) => JStr(d)
    case None => JNull
  }

  function LineTexts(lines: seq<Element>): (r: seq<Json>)
    ensures |r| == |lines|
  {
    seq(|lines|, i requires 0 <= i < |lines| => LineText(lines[i]))
  }

  /** Gathering the texts fails exactly when some line has no child at all. */
  lemma {:induction false} LinesDataMeaning(lines: seq<Element>)
    ensures LinesData(lines).Err? <==> exists i :: 0 <= i < |lines| && lines[i].text.None? && lines[i].children == []
    ensures LinesData(lines).Ok? ==> LinesData(lines).value == LineTexts(lines)
    decreases |lines|
  {
    if lines != [] {
      var init := lines[..|lines| - 1];
      LinesDataMeaning(init);
      if LinesData(lines).Err? {
        if LinesData(init).Err? {
          var i :| 0 <= i < |init| && init[i].text.None? && init[i].children == [];
          assert lines[i] == init[i];
        }
      } else {
        forall i | 0 <= i < |lines|
          ensures !(lines[i].text.None? && lines[i].children == [])
        {
          if i < |init| {
            assert lines[i] == init[i];
          }
        }
      }
    }
  }

  /** What the text serializer's assignments leave under its own keys. */
  lemma TextFieldsRead(env: Env, shape: Element, attrs: JsObject, texts: seq<Json>, lines: seq<Element>, json: JsObject)
    ensures var r := Assign(json, TextFields(env, shape, attrs, texts, lines));
      Get(r, "line-height") == Some(if HasAttribute(shape, "x-line-height") then JNum(NumAttr(shape, "x-line-height")) else JStr(BLANK)) &&
      Get(r, "valign") == Some(JStr(AttributeOr(shape, "x-valign", BLANK))) &&
      Get(r, "text") == Some(JArr(texts)) &&
      Get(r, "box") == Some(BoxOf(shape)) &&
      SvgAttrsOf(r) == Some(attrs) &&
      SvgOf(r).Some? && Get(SvgOf(r).value, "content") == Some(JStr(ContentOf(env, lines)))
  {
    var fs := TextFields(env, shape, attrs, texts, lines);
    var vs := TextValues(env, shape, attrs, texts, lines);
    FieldKeysDistinct();
    FieldsAt(TEXT_KEYS, vs, 0);
    FieldsAt(TEXT_KEYS, vs, 1);
    FieldsAt(TEXT_KEYS, vs, 2);
    FieldsAt(TEXT_KEYS, vs, 3);
    FieldsAt(TEXT_KEYS, vs, 4);
    var svg := [Field("tag", JStr(shape.tag)), Field("attrs", JObj(attrs)), Field("content", JStr(ContentOf(env, lines)))];
    assert Get(svg, "content") == Get(svg[1..], "content") == Get(svg[2..], "content");
    assert SvgOf(Assign(json, fs)) == Some(svg);
    assert Get(svg, "attrs") == Get(svg[1..], "attrs");
  }

  /** serializeForText_ fails exactly when a text line has no child at all. */
  lemma SerializeForTextFails(env: Env, shape: Element, json: JsObject)
    ensures SerializeForText(env, shape, json).Err? <==>
      exists e :: e in shape.children && e.tag == "text" && e.text.None? && e.children == []
  {
    var lines := TextLines(shape.children);
    LinesDataMeaning(lines);
    assert SerializeForText(env, shape, json).Err? <==> LinesData(lines).Err?;
    if LinesData(lines).Err? {
      var i :| 0 <= i < |lines| && lines[i].text.None? && lines[i].children == [];
      assert lines[i] in lines;
    } else {
      forall e | e in shape.children && e.tag == "text"
        ensures !(e.text.None? && e.children == [])
      {
        assert e in lines;
        var i :| 0 <= i < |lines| && lines[i] == e;
      }
    }
  }

  /**
   * On success `text` holds the line texts in order, the markup is that of the
   * text lines, and no attribute is stored under `space`.
   */
  lemma SerializeForTextResult(env: Env, shape: Element, json: JsObject)
    requires SerializeForText(env, shape, json).Ok?
    ensures var r := SerializeForText(env, shape, json).value;
      Get(r, "line-height") == Some(if HasAttribute(shape, "x-line-height") then JNum(NumAttr(shape, "x-line-height")) else JStr(BLANK)) &&
      Get(r, "valign") == Some(JStr(AttributeOr(shape, "x-valign", BLANK))) &&
      Get(r, "text") == Some(JArr(LineTexts(TextLines(shape.children)))) &&
      Get(r, "box") == Some(BoxOf(shape)) &&
      SvgOf(r).Some? && Get(SvgOf(r).value, "content") == Some(JStr(ContentOf(env, TextLines(shape.children)))) &&
      SvgAttrsOf(r) == Some(ApplyShapeAttributes([], shape, true)) &&
      Get(SvgAttrsOf(r).value, "space") == None
  {
    var lines := TextLines(shape.children);
    LinesDataMeaning(lines);
    var attrs := ApplyShapeAttributes([], shape, true);
    var texts := LinesData(lines).value;
    assert SerializeForText(env, shape, json).value == Assign(json, TextFields(env, shape, attrs, texts, lines));
    TextFieldsRead(env, shape, attrs, texts, lines, json);
    ShapeAttributeKeeps([], shape, true, "space");
  }

  /** The same, for a text shape as `serialize` sees it; the shape itself is not changed. */
  lemma SerializeTextShape(env: Env, shape: Element)
    requires GetAttribute(shape, "class") == Some(TEXT_CLASSID)
    ensures Serialize(env, shape).Err? <==>
      exists e :: e in shape.children && e.tag == "text" && e.text.None? && e.children == []
    ensures Serialize(env, shape).Ok? ==>
      var json := Serialize(env, shape).value.json;
      Serialize(env, shape).value.shape == shape &&
      Get(json, "line-height") == Some(if HasAttribute(shape, "x-line-height") then JNum(NumAttr(shape, "x-line-height")) else JStr(BLANK)) &&
      Get(json, "valign") == Some(JStr(AttributeOr(shape, "x-valign", BLANK))) &&
      Get(json, "text") == Some(JArr(LineTexts(TextLines(shape.children)))) &&
      SvgOf(json).Some? && Get(SvgOf(json).value, "content") == Some(JStr(ContentOf(env, TextLines(shape.children)))) &&
      SvgAttrsOf(json) == Some(ApplyShapeAttributes([], shape, true)) &&
      Get(SvgAttrsOf(json).value, "space") == None
  {
    SerializeDispatch(env, shape);
    SerializeForTextFails(env, shape, Head(shape));
    if Serialize(env, shape).Ok? {
      SerializeForTextResult(env, shape, Head(shape));
    }
  }

  lemma PassesThroughSpace()
    ensures PassesThrough("space")
  {
    assert "space"[..2] == "sp";
  }

  /** A text shape's `space` attribute ends up under `xml:space`. */
  lemma TextSpaceRenamed(env: Env, shape: Element, k: nat)
    requires GetAttribute(shape, "class") == Some(TEXT_CLASSID)
    requires Serialize(env, shape).Ok?
    requires k < |shape.attrs| && shape.attrs[k].name == "space"
    requires forall j :: k < j < |shape.attrs| && PassesThrough(shape.attrs[j].name) ==>
               AttributeKey(shape.attrs[j].name, true) != "xml:space"
    ensures SvgAttrsOf(Serialize(env, shape).value.json).Some?
    ensures Get(SvgAttrsOf(Serialize(env, shape).value.json).value, "xml:space") == Some(JStr(shape.attrs[k].value))
  {
    SerializeTextShape(env, shape);
    PassesThroughSpace();
    ShapeAttributeOverrides([], shape, true, k);
  }

  // ---------------------------------------------------------------------------
  // Text blocks

  /** Multi-line mode is on exactly when `x-multiple` is 'true'; it selects the `textArea` tag. */
  lemma TblockMode(shape: Element)
    ensures IsMultiMode(shape) <==> GetAttribute(shape, "x-multiple") == Some("true")
    ensures TblockTag(shape) == (if GetAttribute(shape, "x-multiple") == Some("true") then "textArea" else "text")
    ensures GetAttribute(shape, "x-multiple") == Some("true") ==> TblockFormatType(shape) == BLANK
  {
  }

  /** What the text-block serializer's assignments leave under its keys. */
  lemma SerializeForTblockResult(env: Env, shape: Element, json: JsObject)
    ensures var r := SerializeForTblock(env, shape, json);
      Get(r, "multiple") == Some(JStr(AttributeOr(shape, "x-multiple", "false"))) &&
      Get(r, "line-height") == Some(if HasAttribute(shape, "x-line-height") then JNum(NumAttr(shape, "x-line-height")) else JStr(BLANK)) &&
      Get(r, "valign") == Some(JStr(AttributeOr(shape, "x-valign", BLANK))) &&
      Get(r, "box") == Some(BoxOf(shape)) &&
      Get(r, "format") == Some(JObj(FormatObject(shape, TblockFormatType(shape)))) &&
      Get(r, "value") == Some(JStr(AttributeOr(shape, "x-value", BLANK))) &&
      Get(r, "ref-id") == Some(JStr(AttributeOr(shape, "x-ref-id", BLANK))) &&
      Get(r, "overflow") == Some(JStr(AttributeOr(shape, "x-overflow", BLANK))) &&
      SvgOf(r) == Some([Field("tag", JStr(TblockTag(shape))), Field("attrs", JObj(TblockAttrs(env, shape)))]) &&
      SvgAttrsOf(r) == Some(TblockAttrs(env, shape))
  {
    var vs := TblockValues(env, shape);
    FieldKeysDistinct();
    FieldsAt(TBLOCK_KEYS, vs, 0);
    FieldsAt(TBLOCK_KEYS, vs, 1);
    FieldsAt(TBLOCK_KEYS, vs, 2);
    FieldsAt(TBLOCK_KEYS, vs, 3);
    FieldsAt(TBLOCK_KEYS, vs, 4);
    FieldsAt(TBLOCK_KEYS, vs, 5);
    FieldsAt(TBLOCK_KEYS, vs, 6);
    FieldsAt(TBLOCK_KEYS, vs, 7);
    FieldsAt(TBLOCK_KEYS, vs, 8);
    var svg := [Field("tag", JStr(TblockTag(shape))), Field("attrs", JObj(TblockAttrs(env, shape)))];
    assert Get(svg, "attrs") == Get(svg[1..], "attrs");
  }

  /**
   * The svg attributes of a single-line text block: x follows the anchor, y is
   * the rounded top plus the font ascent, `xml:space` is 'preserve'; copied
   * attributes override each of these.
   */
  lemma TblockSingleLineAttrs(env: Env, shape: Element)
    requires !IsMultiMode(shape)
    ensures var attrs := TblockAttrs(env, shape);
      (NoPassThrough(shape, "x", false) ==>
         Get(attrs, "x") == Some(JNum(AnchorX(env, GetAttribute(shape, "text-anchor"), NumAttr(shape, "x-left"), NumAttr(shape, "x-width"))))) &&
      (NoPassThrough(shape, "y", false) ==>
         Get(attrs, "y") == Some(JNum(env.round(Add(NumAttr(shape, "x-top"), Ascent(env, shape)))))) &&
      (NoPassThrough(shape, "xml:space", false) ==> Get(attrs, "xml:space") == Some(JStr("preserve")))
  {
    var left := NumAttr(shape, "x-left");
    var top := NumAttr(shape, "x-top");
    var width := NumAttr(shape, "x-width");
    var x := JNum(AnchorX(env, GetAttribute(shape, "text-anchor"), left, width));
    var y := JNum(env.round(Add(top, Ascent(env, shape))));
    var c := [Field("x", x), Field("y", y)];
    assert TblockCoordinates(env, shape) == c;
    var p := Put(c, "xml:space", JStr("preserve"));
    assert Get(c, "y") == Get(c[1..], "y");
    KeepsUnlessCopied(p, shape, "x");
    KeepsUnlessCopied(p, shape, "y");
    KeepsUnlessCopied(p, shape, "xml:space");
  }

  /**
   * The svg attributes of a multi-line text block: x is the left, y the rounded
   * top less the gap between font height and line height, then width and height;
   * copied attributes override each of these.
   */
  lemma TblockMultiLineAttrs(env: Env, shape: Element)
    requires IsMultiMode(shape)
    ensures var attrs := TblockAttrs(env, shape);
      var family := FontFamily(shape);
      var size := FontSize(shape);
      (NoPassThrough(shape, "x", false) ==> Get(attrs, "x") == Some(JNum(NumAttr(shape, "x-left")))) &&
      (NoPassThrough(shape, "y", false) ==>
         Get(attrs, "y") == Some(JNum(env.round(Sub(NumAttr(shape, "x-top"),
                                     Sub(env.fontHeight(family, size), env.lineHeight(family, size, IsBold(shape)))))))) &&
      (NoPassThrough(shape, "width", false) ==> Get(attrs, "width") == Some(JNum(NumAttr(shape, "x-width")))) &&
      (NoPassThrough(shape, "height", false) ==> Get(attrs, "height") == Some(JNum(NumAttr(shape, "x-height"))))
  {
    var family := FontFamily(shape);
    var size := FontSize(shape);
    var y := JNum(env.round(Sub(NumAttr(shape, "x-top"), Sub(env.fontHeight(family, size), env.lineHeight(family, size, IsBold(shape))))));
    var c := [Field("x", JNum(NumAttr(shape, "x-left"))), Field("y", y),
              Field("width", JNum(NumAttr(shape, "x-width"))), Field("height", JNum(NumAttr(shape, "x-height")))];
    assert TblockCoordinates(env, shape) == c;
    var p := Put(c, "xml:space", JStr("preserve"));
    assert Get(c, "y") == Get(c[1..], "y");
    assert Get(c, "width") == Get(c[1..], "width") == Get(c[2..], "width");
    assert Get(c, "height") == Get(c[1..], "height") == Get(c[2..], "height") == Get(c[3..], "height");
    KeepsUnlessCopied(p, shape, "x");
    KeepsUnlessCopied(p, shape, "y");
    KeepsUnlessCopied(p, shape, "width");
    KeepsUnlessCopied(p, shape, "height");
  }

  /** A copied attribute of a text block overrides the computed value under its name. */
  lemma TblockAttrOverride(env: Env, shape: Element, k: int)
    requires CopiedLast(shape, k, false)
    ensures Get(TblockAttrs(env, shape), shape.attrs[k].name) == Some(JStr(shape.attrs[k].value))
  {
    ShapeAttributeOverrides(Put(TblockCoordinates(env, shape), "xml:space", JStr("preserve")), shape, false, k);
  }

  /**
   * The format object: base and type always; for datetime, number and padding a
   * settings object under the type's name: each entry reads its attribute, a
   * falsy number (0 or NaN) becomes 0, and unset entries take their defaults
   * (blank, precision 0, length 0, char '0', direction 'L').
   */
  lemma FormatObjectMeaning(shape: Element, formatType: string)
    ensures var f := FormatObject(shape, formatType);
      Get(f, "base") == Some(JStr(AttributeOr(shape, "x-format-base", BLANK))) &&
      Get(f, "type") == Some(JStr(formatType)) &&
      KeysOf(f) == ["base", "type"] + (if formatType in {"datetime", "number", "padding"} then [formatType] else [])
    ensures formatType == "datetime" ==>
      Get(FormatObject(shape, formatType), "datetime") ==
        Some(JObj([Field("format", JStr(AttributeOr(shape, "x-format-datetime-format", BLANK)))]))
    ensures formatType == "number" ==>
      Get(FormatObject(shape, formatType), "number") ==
        Some(JObj([Field("delimiter", JStr(AttributeOr(shape, "x-format-number-delimiter", BLANK))),
                   Field("precision", JNum(OrZero(NumAttr(shape, "x-format-number-precision"))))]))
    ensures formatType == "padding" ==>
      Get(FormatObject(shape, formatType), "padding") ==
        Some(JObj([Field("length", JNum(OrZero(NumAttr(shape, "x-format-padding-length")))),
                   Field("char", JStr(AttributeOr(shape, "x-format-padding-char", "0"))),
                   Field("direction", JStr(AttributeOr(shape, "x-format-padding-direction", "L")))]))
    ensures formatType == "number" && !HasAttribute(shape, "x-format-number-precision") ==>
      Get(FormatObject(shape, formatType), "number") ==
        Some(JObj([Field("delimiter", JStr(AttributeOr(shape, "x-format-number-delimiter", BLANK))),
                   Field("precision", JNum(Finite(0.0)))]))
    ensures formatType == "padding" && !HasAttribute(shape, "x-format-padding-length") &&
            !HasAttribute(shape, "x-format-padding-char") && !HasAttribute(shape, "x-format-padding-direction") ==>
      Get(FormatObject(shape, formatType), "padding") ==
        Some(JObj([Field("length", JNum(Finite(0.0))), Field("char", JStr("0")), Field("direction", JStr("L"))]))
  {
    var base := [Field("base", JStr(AttributeOr(shape, "x-format-base", BLANK))), Field("type", JStr(formatType))];
    assert KeysOf(base) == ["base"] + KeysOf(base[1..]);
    assert KeysOf(base[1..]) == ["type"] + KeysOf(base[2..]);
    assert Get(base, "type") == Get(base[1..], "type");
    if formatType in {"datetime", "number", "padding"} {
      assert formatType !in KeysOf(base);
      PutKeys(base, formatType, Get(FormatObject(shape, formatType), formatType).value);
    }
  }

  // ---------------------------------------------------------------------------
  // Page numbers and image blocks

  /** What the page-number serializer's assignments leave under its keys; unset fields default to ''. */
  lemma SerializeForPageNumberResult(env: Env, shape: Element, json: JsObject)
    ensures var r := SerializeForPageNumber(env, shape, json);
      Get(r, "box") == Some(BoxOf(shape)) &&
      Get(r, "start-at") == Some(JStr(AttributeOr(shape, "x-start-at", ""))) &&
      Get(r, "target") == Some(JStr(AttributeOr(shape, "x-target", ""))) &&
      Get(r, "format") == Some(JStr(AttributeOr(shape, "x-format", ""))) &&
      Get(r, "overflow") == Some(JStr(AttributeOr(shape, "x-overflow", ""))) &&
      SvgOf(r) == Some([Field("tag", JStr("text")), Field("attrs", JObj(PageNumberAttrs(env, shape)))]) &&
      SvgAttrsOf(r) == Some(PageNumberAttrs(env, shape))
  {
    var vs := PageNumberValues(env, shape);
    FieldKeysDistinct();
    FieldsAt(PAGENUMBER_KEYS, vs, 0);
    FieldsAt(PAGENUMBER_KEYS, vs, 1);
    FieldsAt(PAGENUMBER_KEYS, vs, 2);
    FieldsAt(PAGENUMBER_KEYS, vs, 3);
    FieldsAt(PAGENUMBER_KEYS, vs, 4);
    FieldsAt(PAGENUMBER_KEYS, vs, 5);
    var svg := [Field("tag", JStr("text")), Field("attrs", JObj(PageNumberAttrs(env, shape)))];
    assert Get(svg, "attrs") == Get(svg[1..], "attrs");
  }

  /**
   * The svg attributes of a page number: x follows the anchor (left, rounded
   * middle, rounded right edge), y is the rounded top plus the font ascent, and
   * copied attributes override both.
   */
  lemma PageNumberAttrsMeaning(env: Env, shape: Element)
    ensures var attrs := PageNumberAttrs(env, shape);
      var left := NumAttr(shape, "x-left");
      var width := NumAttr(shape, "x-width");
      var anchor := GetAttribute(shape, "text-anchor");
      (NoPassThrough(shape, "x", false) && anchor == Some(ANCHOR_MIDDLE) ==>
         Get(attrs, "x") == Some(JNum(env.round(Add(left, Half(width)))))) &&
      (NoPassThrough(shape, "x", false) && anchor == Some(ANCHOR_END) ==>
         Get(attrs, "x") == Some(JNum(env.round(Add(left, width))))) &&
      (NoPassThrough(shape, "x", false) && anchor != Some(ANCHOR_MIDDLE) && anchor != Some(ANCHOR_END) ==>
         Get(attrs, "x") == Some(JNum(left))) &&
      (NoPassThrough(shape, "y", false) ==>
         Get(attrs, "y") == Some(JNum(env.round(Add(NumAttr(shape, "x-top"), Ascent(env, shape))))))
  {
    var c := PageNumberCoordinates(env, shape);
    assert Get(c, "y") == Get(c[1..], "y");
    KeepsUnlessCopied(c, shape, "x");
    KeepsUnlessCopied(c, shape, "y");
  }

  /** A copied attribute of a page number overrides the computed value under its name. */
  lemma PageNumberAttrOverride(env: Env, shape: Element, k: int)
    requires CopiedLast(shape, k, false)
    ensures Get(PageNumberAttrs(env, shape), shape.attrs[k].name) == Some(JStr(shape.attrs[k].value))
  {
    ShapeAttributeOverrides(PageNumberCoordinates(env, shape), shape, false, k);
  }

  /** An image block: box, the two positions with their defaults, and an `image` whose attributes repeat the box. */
  lemma SerializeForImageblockResult(env: Env, shape: Element, json: JsObject)
    ensures var r := SerializeForImageblock(env, shape, json);
      Get(r, "box") == Some(BoxOf(shape)) &&
      Get(r, "position-x") == Some(JStr(AttributeOr(shape, "x-position-x", env.positionXDefault))) &&
      Get(r, "position-y") == Some(JStr(AttributeOr(shape, "x-position-y", env.positionYDefault))) &&
      SvgOf(r) == Some([Field("tag", JStr("image")), Field("attrs", BoxOf(shape))])
  {
    var vs := ImageblockValues(env, shape);
    FieldKeysDistinct();
    FieldsAt(IMAGEBLOCK_KEYS, vs, 0);
    FieldsAt(IMAGEBLOCK_KEYS, vs, 1);
    FieldsAt(IMAGEBLOCK_KEYS, vs, 2);
    FieldsAt(IMAGEBLOCK_KEYS, vs, 3);
  }

  // ---------------------------------------------------------------------------
  // Section translation (getTransLateCoordinate)

  predicate AllTranslateChars(s: string) {
    forall i :: 0 <= i < |s| ==> IsTranslateChar(s[i])
  }

  lemma DigitsTranslateChars(d: string)
    requires AllDigits(d)
    ensures AllTranslateChars(d) && IndexOf(d, ',') == |d|
  {
    AllDigitsNoComma(d);
  }

  lemma {:induction false} AllDigitsNoComma(d: string)
    requires AllDigits(d)
    ensures IndexOf(d, ',') == |d|
    decreases |d|
  {
    if d != [] {
      AllDigitsNoComma(d[1..]);
    }
  }

  lemma NegativeTranslateChars(d: string)
    requires AllDigits(d)
    ensures AllTranslateChars("-" + d) && IndexOf("-" + d, ',') == |"-" + d|
  {
    DigitsTranslateChars(d);
    var s := "-" + d;
    assert s[1..] == d;
    forall j | 0 <= j < |s|
      ensures IsTranslateChar(s[j])
    {
      if j > 0 {
        assert s[j] == d[j - 1];
      }
    }
  }

  lemma IntToStringTranslateChars(i: int)
    ensures AllTranslateChars(IntToString(i)) && IntToString(i) != [] && IndexOf(IntToString(i), ',') == |IntToString(i)|
  {
    var n: nat := if i < 0 then -i else i;
    NatToStringDigits(n);
    if i < 0 {
      NegativeTranslateChars(NatToString(n));
    } else {
      DigitsTranslateChars(NatToString(n));
    }
  }

  /** The run of coordinate characters stops at the first other character. */
  lemma {:induction false} RunPrefixStops(run: string, rest: string)
    requires AllTranslateChars(run)
    requires rest == [] || !IsTranslateChar(rest[0])
    ensures RunPrefix(run + rest) == run
    decreases |run|
  {
    if run == [] {
      assert run + rest == rest;
    } else {
      assert (run + rest)[1..] == run[1..] + rest;
      RunPrefixStops(run[1..], rest);
    }
  }

  /** Characters that cannot start a run are skipped. */
  lemma {:induction false} FirstRunSkips(prefix: string, s: string)
    requires forall c :: c in prefix ==> !IsTranslateChar(c)
    requires s != [] && IsTranslateChar(s[0])
    ensures FirstRun(prefix + s) == Some(RunPrefix(s))
    decreases |prefix|
  {
    if prefix == [] {
      assert prefix + s == s;
    } else {
      assert prefix[0] in prefix;
      assert (prefix + s)[1..] == prefix[1..] + s;
      forall c | c in prefix[1..]
        ensures !IsTranslateChar(c)
      {
        assert c in prefix;
      }
      FirstRunSkips(prefix[1..], s);
    }
  }

  lemma SplitPair(a: string, b: string)
    requires IndexOf(a, ',') == |a| && IndexOf(b, ',') == |b|
    ensures Split(a + "," + b, ',') == [a, b]
  {
    var s := a + "," + b;
    assert s[|a|] == ',';
    assert IndexOf(s, ',') == |a| by {
      forall j | 0 <= j < |a|
        ensures s[j] != ','
      {
        assert s[j] == a[j];
      }
    }
    assert s[..|a|] == a;
    assert s[|a| + 1..] == b;
  }

  /**
   * `translate(a,b)` gives (Number(a), Number(b)) for any coordinate texts
   * without a comma, decimals such as `12.5` included.
   */
  lemma TranslatePair(e: Element, a: string, b: string)
    requires AllTranslateChars(a) && AllTranslateChars(b)
    requires IndexOf(a, ',') == |a| && IndexOf(b, ',') == |b|
    requires GetAttribute(e, "transform") == Some("translate(" + a + "," + b + ")")
    ensures GetTranslateCoordinate(e) == Ok((StringToNumber(a), StringToNumber(b)))
  {
    var run := a + "," + b;
    JoinTranslateChars(a, b);
    assert "translate(" + a + "," + b + ")" == "translate(" + run + ")";
    TranslateRun(run);
    SplitPair(a, b);
  }

  /** Two coordinate texts joined by a comma form one run. */
  lemma JoinTranslateChars(a: string, b: string)
    requires AllTranslateChars(a) && AllTranslateChars(b)
    ensures AllTranslateChars(a + "," + b)
  {
    var run := a + "," + b;
    forall i | 0 <= i < |run|
      ensures IsTranslateChar(run[i])
    {
      if i < |a| {
        assert run[i] == a[i];
      } else if i > |a| {
        assert run[i] == b[i - |a| - 1];
      }
    }
  }

  /** The match on `translate(run)` finds the whole run. */
  lemma TranslateRun(run: string)
    requires run != [] && AllTranslateChars(run)
    ensures FirstRun("translate(" + run + ")") == Some(run)
  {
    RunPrefixStops(run, ")");
    assert "translate(" + run + ")" == "translate(" + (run + ")");
    assert (run + ")")[0] == run[0];
    FirstRunSkips("translate(", run + ")");
  }

  lemma SplitSingle(v: string)
    requires IndexOf(v, ',') == |v|
    ensures Split(v, ',') == [v]
  {
  }

  /** `translate(v)` gives (Number(v), Number(v)) for any non-empty coordinate text without a comma. */
  lemma TranslateSingle(e: Element, v: string)
    requires v != [] && AllTranslateChars(v) && IndexOf(v, ',') == |v|
    requires GetAttribute(e, "transform") == Some("translate(" + v + ")")
    ensures GetTranslateCoordinate(e) == Ok((StringToNumber(v), StringToNumber(v)))
  {
    TranslateRun(v);
    SplitSingle(v);
  }

  /** `Number("12.5")` is 12.5. */
  lemma TwelveAndAHalf()
    ensures StringToNumber("12.5") == Finite(12.5)
  {
    var s := "12.5";
    assert TrimEnd(TrimStart(s)) == s;
    assert IndexOf(s, '.') == 2;
    assert s[..2] == "12" && s[3..] == "5";
    assert DigitsValue("1") == 1;
    assert DigitsValue("12") == 12 by { assert "12"[..1] == "1"; }
    assert FractionValue("5") == 0.5 by { assert "5"[1..] == ""; }
    assert UnsignedDecimal(s) == Finite(12.0 + 0.5);
  }

  /** A decimal translation, as a dragged section can carry: `translate(0,12.5)` gives (0, 12.5). */
  lemma TranslateDecimal(e: Element)
    requires GetAttribute(e, "transform") == Some("translate(0,12.5)")
    ensures GetTranslateCoordinate(e) == Ok((Finite(0.0), Finite(12.5)))
  {
    assert "translate(0,12.5)" == "translate(" + "0" + "," + "12.5" + ")";
    assert AllTranslateChars("12.5") by {
      assert "12.5"[0] == '1' && "12.5"[1] == '2' && "12.5"[2] == '.' && "12.5"[3] == '5';
    }
    assert IndexOf("12.5", ',') == 4;
    TranslatePair(e, "0", "12.5");
    IntToStringRoundTrip(0);
    assert IntToString(0) == "0";
    TwelveAndAHalf();
  }

  /** A `transform` without any coordinate character makes the match fail. */
  lemma {:induction false} TranslateWithoutNumbers(t: string)
    requires forall c :: c in t ==> !IsTranslateChar(c)
    ensures FirstRun(t) == None
    decreases |t|
  {
    if t != [] {
      assert t[0] in t;
      forall c | c in t[1..]
        ensures !IsTranslateChar(c)
      {
        assert c in t;
      }
      TranslateWithoutNumbers(t[1..]);
    }
  }

  /** The three outcomes of getTransLateCoordinate on its own. */
  lemma TranslateOutcomes(e: Element)
    ensures GetAttribute(e, "transform") == None ==> GetTranslateCoordinate(e) == Ok((Finite(0.0), Finite(0.0)))
    ensures GetAttribute(e, "transform").Some? && (forall c :: c in GetAttribute(e, "transform").value ==> !IsTranslateChar(c)) ==>
              GetTranslateCoordinate(e).Err?
  {
    if GetAttribute(e, "transform").Some? && (forall c :: c in GetAttribute(e, "transform").value ==> !IsTranslateChar(c)) {
      TranslateWithoutNumbers(GetAttribute(e, "transform").value);
    }
  }

  // ---------------------------------------------------------------------------
  // A worked example

  /** A page number at left 10, top 20, width 100, with the given anchor and no font attributes. */
  function ExamplePageNumber(anchor: string): Element {
    Element("text", [Attr("class", PAGENUMBER_CLASSID), Attr("x-left", "10"), Attr("x-top", "20"),
                     Attr("x-width", "100"), Attr("text-anchor", anchor)], None, [])
  }

  lemma ExampleNumbers()
    ensures StringToNumber("10") == Finite(10.0)
    ensures StringToNumber("20") == Finite(20.0)
    ensures StringToNumber("100") == Finite(100.0)
  {
    IntToStringRoundTrip(10);
    IntToStringRoundTrip(20);
    IntToStringRoundTrip(100);
    assert IntToString(10) == "10";
    assert IntToString(20) == "20";
    assert IntToString(100) == "100";
  }

  /** The example's geometry: the three numbers the serializer reads. */
  lemma ExamplePageNumberGeometry(anchor: string)
    ensures var shape := ExamplePageNumber(anchor);
      NumAttr(shape, "x-left") == Finite(10.0) &&
      NumAttr(shape, "x-top") == Finite(20.0) &&
      NumAttr(shape, "x-width") == Finite(100.0)
  {
    var a := ExamplePageNumber(anchor).attrs;
    ExampleNumbers();
    assert Lookup(a, "x-left") == Lookup(a[1..], "x-left") == Some("10");
    assert Lookup(a, "x-top") == Lookup(a[1..], "x-top") == Lookup(a[2..], "x-top") == Some("20");
    assert Lookup(a, "x-width") == Lookup(a[1..], "x-width") == Lookup(a[2..], "x-width")
        == Lookup(a[3..], "x-width") == Some("100");
  }

  /** The example's anchor, its lack of font attributes, and no attribute copied over x or y. */
  lemma ExamplePageNumberStyle(anchor: string)
    ensures var shape := ExamplePageNumber(anchor);
      GetAttribute(shape, "text-anchor") == Some(anchor) &&
      FontFamily(shape) == None && FontSize(shape) == Finite(0.0) && !IsBold(shape) &&
      NoPassThrough(shape, "x", false) && NoPassThrough(shape, "y", false)
  {
    var a := ExamplePageNumber(anchor).attrs;
    assert Lookup(a, "text-anchor") == Lookup(a[1..], "text-anchor") == Lookup(a[2..], "text-anchor")
        == Lookup(a[3..], "text-anchor") == Lookup(a[4..], "text-anchor") == Some(anchor);
    LookupMissing(a, "font-family");
    LookupMissing(a, "font-size");
    LookupMissing(a, "font-weight");
    assert !PassesThrough("x-left") && !PassesThrough("x-top") && !PassesThrough("x-width") by {
      assert "x-left"[..2] == "x-" && "x-top"[..2] == "x-" && "x-width"[..2] == "x-";
    }
  }

  /**
   * With rounding the identity and an ascent of 9: x is 10 for a start anchor,
   * 60 for a middle anchor, 110 for an end anchor, and y is 29.
   */
  lemma PageNumberExample(env: Env, anchor: string)
    requires forall n :: env.round(n) == n
    requires env.ascent(None, Finite(0.0), false) == Finite(9.0)
    ensures var attrs := PageNumberAttrs(env, ExamplePageNumber(anchor));
      (anchor == "start" ==> Get(attrs, "x") == Some(JNum(Finite(10.0)))) &&
      (anchor == "middle" ==> Get(attrs, "x") == Some(JNum(Finite(60.0)))) &&
      (anchor == "end" ==> Get(attrs, "x") == Some(JNum(Finite(110.0)))) &&
      Get(attrs, "y") == Some(JNum(Finite(29.0)))
  {
    var shape := ExamplePageNumber(anchor);
    ExamplePageNumberGeometry(anchor);
    ExamplePageNumberStyle(anchor);
    assert Ascent(env, shape) == Finite(9.0);
    PageNumberAttrsMeaning(env, shape);
  }
}
