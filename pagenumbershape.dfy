/**
 * The page-number shape (core/thin/editor/pagenumbershape.js): its
 * attribute-backed fields and their defaults, the label that shows the format
 * and follows the shape, the validators of the property pane, the (up, down)
 * version pairs its edits commit, the clone snapshot and the reported
 * properties.
 *
 * Element attributes hold text: a setter writes `String(v)` of its argument,
 * and a getter tests that text with `|| default`, so a written "0" reads back
 * as "0".
 */
module PageNumberShape {
  import opened Wrappers
  import opened Js
  import opened Versioning

  const CLASSID: string := "s-pageno"
  const DEFAULT_PAGENO_FORMAT: string := "{page}"

  // ---------------------------------------------------------------------------
  // Attribute-backed fields

  /** The part of a page number its property edits change: attribute texts, shape id, kerning, label text. */
  datatype PageNumber = PageNumber(attrs: map<string, string>, shapeId: string, kerning: string, labelText: string)

  /** `getElementAttribute`: `None` when the attribute is not set. */
  function Attribute(s: PageNumber, name: string): Option<string> {
    if name in s.attrs then Some(s.attrs[name]) else None
  }

  /** The attribute holds a non-empty text, which is what `||` lets through. */
  predicate IsSet(s: PageNumber, name: string) {
    name in s.attrs && s.attrs[name] != ""
  }

  /** `getElementAttribute(name) || d` */
  function AttributeOr(s: PageNumber, name: string, d: string): (r: string)
    ensures IsSet(s, name) ==> r == s.attrs[name]
    ensures !IsSet(s, name) ==> r == d
  {
    if IsSet(s, name) then s.attrs[name] else d
  }

  /** `getOverflowType`: the stored text, or the text style's default. */
  function OverflowType(s: PageNumber, defaultOverflow: string): (r: string)
    ensures IsSet(s, "x-overflow") ==> r == s.attrs["x-overflow"]
    ensures !IsSet(s, "x-overflow") ==> r == defaultOverflow
    ensures defaultOverflow != "" ==> r != ""
  {
    AttributeOr(s, "x-overflow", defaultOverflow)
  }

  /** `getStartAt`: the stored text, or the number 1; never a falsy value. */
  function StartAt(s: PageNumber): (r: Value)
    ensures r.Truthy()
    ensures IsSet(s, "x-start-at") ==> r == VStr(s.attrs["x-start-at"])
    ensures !IsSet(s, "x-start-at") ==> r == VNum(Finite(1.0))
  {
    if IsSet(s, "x-start-at") then VStr(s.attrs["x-start-at"]) else VNum(Finite(1.0))
  }

  /** `getFormat`: the stored text, or '{page}'; never blank. */
  function Format(s: PageNumber): (r: string)
    ensures r != ""
    ensures IsSet(s, "x-format") ==> r == s.attrs["x-format"]
    ensures !IsSet(s, "x-format") ==> r == DEFAULT_PAGENO_FORMAT
  {
    AttributeOr(s, "x-format", DEFAULT_PAGENO_FORMAT)
  }

  /** `getTarget`: the stored text, blank exactly when no target is set. */
  function Target(s: PageNumber): (r: string)
    ensures r == "" <==> !IsSet(s, "x-target")
    ensures IsSet(s, "x-target") ==> r == s.attrs["x-target"]
  {
    AttributeOr(s, "x-target", "")
  }

  /** `setElementAttributes(element, {name: text})` */
  function SetAttribute(s: PageNumber, name: string, text: string): (r: PageNumber)
    ensures Attribute(r, name) == Some(text)
    ensures forall k :: k != name ==> Attribute(r, k) == Attribute(s, k)
    ensures r.shapeId == s.shapeId && r.kerning == s.kerning && r.labelText == s.labelText
  {
    s.(attrs := s.attrs[name := text])
  }

  function WithOverflowType(s: PageNumber, t: string): PageNumber { SetAttribute(s, "x-overflow", t) }
  /** `setStartAt`: the page number, or whatever value it is given, written as text. */
  function WithStartAt(s: PageNumber, n: Value, numberText: Number -> string): PageNumber {
    SetAttribute(s, "x-start-at", ToText(n, numberText))
  }
  function WithTarget(s: PageNumber, t: string): PageNumber { SetAttribute(s, "x-target", t) }
  function WithShapeId(s: PageNumber, id: string): PageNumber { s.(shapeId := id) }
  function WithKerning(s: PageNumber, k: string): PageNumber { s.(kerning := k) }

  /** `setFormat`: the attribute is written and the label shows the same text. */
  function WithFormat(s: PageNumber, f: string): (r: PageNumber)
    ensures Attribute(r, "x-format") == Some(f) && r.labelText == f
    ensures forall k :: k != "x-format" ==> Attribute(r, k) == Attribute(s, k)
    ensures r.shapeId == s.shapeId && r.kerning == s.kerning
  {
    SetAttribute(s, "x-format", f).(labelText := f)
  }

  /** A set format reads back, and the other getters are unaffected; a blank one reads back as the default. */
  lemma FormatReadsBack(s: PageNumber, f: string, defaultOverflow: string)
    ensures f != "" ==> Format(WithFormat(s, f)) == f
    ensures f == "" ==> Format(WithFormat(s, f)) == DEFAULT_PAGENO_FORMAT
    ensures StartAt(WithFormat(s, f)) == StartAt(s)
    ensures Target(WithFormat(s, f)) == Target(s)
    ensures OverflowType(WithFormat(s, f), defaultOverflow) == OverflowType(s, defaultOverflow)
  {
  }

  /** The label shows the format the getter reports. */
  predicate LabelShowsFormat(s: PageNumber) {
    s.labelText == Format(s)
  }

  // ---------------------------------------------------------------------------
  // Validators and committed values

  /** `sub` occurs in `s` at index `i`. */
  predicate OccursAt(s: string, sub: string, i: nat) {
    i + |sub| <= |s| && s[i..i + |sub|] == sub
  }

  /** `sub` occurs in `s`: what `/sub/.test(s)` tests for a literal pattern. */
  function Contains(s: string, sub: string): (b: bool)
    ensures b <==> exists i: nat :: OccursAt(s, sub, i)
    decreases |s|
  {
    if |s| < |sub| then false
    else if s[..|sub|] == sub then (assert OccursAt(s, sub, 0); true)
    else
      var b := Contains(s[1..], sub);
      assert b ==> exists i: nat :: OccursAt(s, sub, i) by {
        if b {
          var i: nat :| OccursAt(s[1..], sub, i);
          assert s[i + 1..i + 1 + |sub|] == s[1..][i..i + |sub|];
          assert OccursAt(s, sub, i + 1);
        }
      }
      assert (exists i: nat :: OccursAt(s, sub, i)) ==> b by {
        if exists i: nat :: OccursAt(s, sub, i) {
          var i: nat :| OccursAt(s, sub, i);
          assert i != 0;
          assert s[1..][i - 1..i - 1 + |sub|] == s[i..i + |sub|];
          assert OccursAt(s[1..], sub, i - 1);
        }
      }
      b
  }

  /** A format holds a placeholder: `{page}` or `{total}` occurs somewhere in it. */
  function HasPlaceholder(value: string): (b: bool)
    ensures b <==> (exists i: nat :: OccursAt(value, "{page}", i)) || (exists i: nat :: OccursAt(value, "{total}", i))
  {
    Contains(value, "{page}") || Contains(value, "{total}")
  }

  /**
   * The format validator: blank is allowed, and any other text passes exactly
   * when a placeholder occurs in it.
   */
  function FormatValid(value: string): (b: bool)
    ensures value == "" ==> b
    ensures value != "" ==> (b <==> (exists i: nat :: OccursAt(value, "{page}", i)) || (exists i: nat :: OccursAt(value, "{total}", i)))
  {
    value == "" || HasPlaceholder(value)
  }

  /** The format an edit commits, `input || '{page}'`: never blank. */
  function NewFormat(input: string): (r: string)
    ensures r != ""
    ensures input != "" ==> r == input
    ensures input == "" ==> r == DEFAULT_PAGENO_FORMAT
  {
    if input != "" then input else DEFAULT_PAGENO_FORMAT
  }

  /** Every format that passes the validator is committed as one holding a placeholder. */
  lemma NewFormatHasPlaceholder(input: string)
    requires FormatValid(input)
    ensures HasPlaceholder(NewFormat(input))
  {
    if input == "" {
      assert OccursAt(DEFAULT_PAGENO_FORMAT, "{page}", 0);
    }
  }

  datatype TargetError = IdNotFound(id: string) | IdIsNotList(id: string)

  /**
   * The target validator over the layout's shape-id index (`shapes[id]` tells
   * whether the shape with that id is a list): blank is allowed, an unknown id
   * and an id of a shape that is not a list are rejected.
   */
  function ValidateTarget(targetId: string, shapes: map<string, bool>): (r: Option<TargetError>)
    ensures targetId == "" ==> r.None?
    ensures targetId != "" && targetId !in shapes ==> r == Some(IdNotFound(targetId))
    ensures targetId != "" && targetId in shapes && !shapes[targetId] ==> r == Some(IdIsNotList(targetId))
    ensures r.None? <==> (targetId == "" || (targetId in shapes && shapes[targetId]))
  {
    if targetId == "" then None
    else if targetId !in shapes then Some(IdNotFound(targetId))
    else if !shapes[targetId] then Some(IdIsNotList(targetId))
    else None
  }

  /** The start page an edit commits: `Number(input || 1)`. */
  function NewStartAt(input: string): Number {
    if input != "" then StringToNumber(input) else Finite(1.0)
  }

  /** A blank start page commits 1, and the text of an integer commits that integer. */
  lemma NewStartAtValues(i: int)
    ensures NewStartAt("") == Finite(1.0)
    ensures NewStartAt(IntToString(i)) == Finite(i as real)
  {
    IntToStringRoundTrip(i);
    assert IntToString(i) != "" by {
      NatToStringDigits(if i < 0 then -i else i);
    }
  }

  /**
   * When `String` writes integers in decimal, a start page edited to an
   * integer's text, 0 included, reads back as that text: the attribute holds
   * text, and any non-empty text is truthy.
   */
  lemma StartAtEditReadsBack(s: PageNumber, i: int, numberText: Number -> string)
    requires forall j: int :: numberText(Finite(j as real)) == IntToString(j)
    ensures StartAt(WithStartAt(s, VNum(NewStartAt(IntToString(i))), numberText)) == VStr(IntToString(i))
  {
    NewStartAtValues(i);
    assert numberText(Finite(i as real)) == IntToString(i);
    NatToStringDigits(if i < 0 then -i else i);
  }

  /**
   * The kerning an edit commits: the default kerning as it is, anything else
   * through `String(Number(k))`, here the function `numberText`.
   */
  function NormalizeKerning(k: string, defaultKerning: string, numberText: Number -> string): string {
    if k != defaultKerning then numberText(StringToNumber(k)) else k
  }

  /** When `String` writes integers as `IntToString` does, the text of an integer is committed unchanged. */
  lemma NormalizeKerningInteger(i: int, defaultKerning: string, numberText: Number -> string)
    requires forall j: int :: numberText(Finite(j as real)) == IntToString(j)
    ensures NormalizeKerning(IntToString(i), defaultKerning, numberText) == IntToString(i)
  {
    IntToStringRoundTrip(i);
  }

  // ---------------------------------------------------------------------------
  // Version pairs of the property edits

  function OverflowVersion(s: PageNumber, overflow: string, defaultOverflow: string): Version<PageNumber> {
    var captured := OverflowType(s, defaultOverflow);
    Version(t => WithOverflowType(t, overflow), t => WithOverflowType(t, captured))
  }

  function StartAtVersion(s: PageNumber, input: string, numberText: Number -> string): Version<PageNumber> {
    var captured := StartAt(s);
    Version(t => WithStartAt(t, VNum(NewStartAt(input)), numberText), t => WithStartAt(t, captured, numberText))
  }

  function FormatVersion(s: PageNumber, input: string): Version<PageNumber> {
    var captured := Format(s);
    Version(t => WithFormat(t, NewFormat(input)), t => WithFormat(t, captured))
  }

  function KerningVersion(s: PageNumber, input: string, defaultKerning: string, numberText: Number -> string): Version<PageNumber> {
    var captured := s.kerning;
    var kerning := NormalizeKerning(input, defaultKerning, numberText);
    Version(t => WithKerning(t, kerning), t => WithKerning(t, captured))
  }

  function ShapeIdVersion(s: PageNumber, shapeId: string): Version<PageNumber> {
    var captured := s.shapeId;
    Version(t => WithShapeId(t, shapeId), t => WithShapeId(t, captured))
  }

  /**
   * The target edit as written: its up handler writes the target attribute,
   * while its down handler writes the shape id and leaves every attribute alone.
   */
  function TargetVersion(s: PageNumber, newTarget: string): (r: Version<PageNumber>)
    ensures forall t :: Attribute(r.up(t), "x-target") == Some(newTarget) && r.up(t).shapeId == t.shapeId
    ensures forall t :: r.down(t).attrs == t.attrs && r.down(t).shapeId == Target(s)
  {
    var captured := Target(s);
    Version(t => WithTarget(t, newTarget), t => WithShapeId(t, captured))
  }

  /** The target edit with its down handler writing the captured target back, the shape id untouched. */
  function CorrectedTargetVersion(s: PageNumber, newTarget: string): (r: Version<PageNumber>)
    ensures forall t :: Attribute(r.up(t), "x-target") == Some(newTarget) && r.up(t).shapeId == t.shapeId
    ensures forall t :: Attribute(r.down(t), "x-target") == Some(Target(s)) && r.down(t).shapeId == t.shapeId
  {
    var captured := Target(s);
    Version(t => WithTarget(t, newTarget), t => WithTarget(t, captured))
  }

  /**
   * Undoing an edit of an attribute-backed field gives back what its getter
   * reported and touches no other attribute; the state itself comes back
   * exactly when the attribute held a non-empty text (an unset attribute is
   * restored as its default, written out).
   */
  lemma OverflowUndo(s: PageNumber, overflow: string, defaultOverflow: string)
    ensures var v := OverflowVersion(s, overflow, defaultOverflow);
      OverflowType(v.down(v.up(s)), defaultOverflow) == OverflowType(s, defaultOverflow) &&
      (forall k :: k != "x-overflow" ==> Attribute(v.down(v.up(s)), k) == Attribute(s, k)) &&
      (IsSet(s, "x-overflow") ==> v.down(v.up(s)) == s)
  {
    var v := OverflowVersion(s, overflow, defaultOverflow);
    if IsSet(s, "x-overflow") {
      assert v.down(v.up(s)).attrs == s.attrs;
    }
  }

  /**
   * Undoing a start-page edit writes back the text of what the getter
   * reported: the stored text when there was one, so the state comes back
   * exactly; otherwise the text of the number 1, which then reads back as
   * that text.
   */
  lemma StartAtUndo(s: PageNumber, input: string, numberText: Number -> string)
    ensures var v := StartAtVersion(s, input, numberText);
      Attribute(v.down(v.up(s)), "x-start-at") == Some(ToText(StartAt(s), numberText)) &&
      (forall k :: k != "x-start-at" ==> Attribute(v.down(v.up(s)), k) == Attribute(s, k)) &&
      (IsSet(s, "x-start-at") ==> v.down(v.up(s)) == s && StartAt(v.down(v.up(s))) == StartAt(s)) &&
      (!IsSet(s, "x-start-at") && numberText(Finite(1.0)) == "1" ==> StartAt(v.down(v.up(s))) == VStr("1"))
  {
    var v := StartAtVersion(s, input, numberText);
    if IsSet(s, "x-start-at") {
      assert v.down(v.up(s)).attrs == s.attrs;
    }
  }

  /** Both handlers of a format edit keep the label showing the format. */
  lemma FormatUndo(s: PageNumber, input: string)
    ensures var v := FormatVersion(s, input);
      Format(v.up(s)) == NewFormat(input) &&
      LabelShowsFormat(v.up(s)) &&
      Format(v.down(v.up(s))) == Format(s) &&
      LabelShowsFormat(v.down(v.up(s))) &&
      (forall k :: k != "x-format" ==> Attribute(v.down(v.up(s)), k) == Attribute(s, k)) &&
      (IsSet(s, "x-format") && LabelShowsFormat(s) ==> v.down(v.up(s)) == s)
  {
    var v := FormatVersion(s, input);
    if IsSet(s, "x-format") && LabelShowsFormat(s) {
      assert v.down(v.up(s)).attrs == s.attrs;
    }
  }

  lemma KerningUndo(s: PageNumber, input: string, defaultKerning: string, numberText: Number -> string)
    ensures var v := KerningVersion(s, input, defaultKerning, numberText);
      v.up(s).kerning == NormalizeKerning(input, defaultKerning, numberText) && v.down(v.up(s)) == s
  {
  }

  lemma ShapeIdUndo(s: PageNumber, shapeId: string)
    ensures var v := ShapeIdVersion(s, shapeId);
      v.up(s).shapeId == shapeId && v.down(v.up(s)) == s
  {
  }

  /**
   * As written, undoing a target edit leaves the new target in place and
   * overwrites the shape id with the old target.
   */
  lemma TargetUndoAsWritten(s: PageNumber, newTarget: string)
    ensures var v := TargetVersion(s, newTarget);
      Attribute(v.down(v.up(s)), "x-target") == Some(newTarget) &&
      v.down(v.up(s)).shapeId == Target(s)
  {
  }

  /** A concrete case: target "list1" edited to "list2" on shape "pageno1", then undone. */
  lemma TargetUndoCounterexample()
    ensures var s := PageNumber(map["x-target" := "list1"], "pageno1", "", DEFAULT_PAGENO_FORMAT);
      var v := TargetVersion(s, "list2");
      Target(v.down(v.up(s))) == "list2" && Target(s) == "list1" &&
      v.down(v.up(s)).shapeId == "list1"
  {
  }

  /** With the corrected down handler, undo gives back the target and changes nothing else it reads. */
  lemma CorrectedTargetUndo(s: PageNumber, newTarget: string)
    ensures var v := CorrectedTargetVersion(s, newTarget);
      Target(v.down(v.up(s))) == Target(s) &&
      v.down(v.up(s)).shapeId == s.shapeId &&
      (forall k :: k != "x-target" ==> Attribute(v.down(v.up(s)), k) == Attribute(s, k)) &&
      (IsSet(s, "x-target") ==> v.down(v.up(s)) == s)
  {
    var v := CorrectedTargetVersion(s, newTarget);
    if IsSet(s, "x-target") {
      assert v.down(v.up(s)).attrs == s.attrs;
    }
  }

  // ---------------------------------------------------------------------------
  // Label position

  /** `Math.floor` */
  function Floor(x: real): real { x.Floor as real }

  /** The label's x: the shape's left plus half its width, rounded down. */
  function LabelX(left: real, width: real): real { left + Floor(width / 2.0) }

  /** The label's y: the shape's top plus the label's font size. */
  function LabelY(top: real, labelFontSize: real): real { top + labelFontSize }

  /** The label sits within one unit left of the shape's horizontal centre. */
  lemma LabelCentred(left: real, width: real)
    ensures left + width / 2.0 - 1.0 < LabelX(left, width) <= left + width / 2.0
  {
  }

  // ---------------------------------------------------------------------------
  // The shape

  /** The text style of a page number: colour, font, decorations and anchor. */
  datatype Font = Font(fill: string, size: real, family: string, bold: bool, italic: bool,
                       underline: bool, linethrough: bool, anchor: string)

  /** The fields the clone creator captures. */
  datatype CloneSource = CloneSource(width: real, height: real, font: Font, kerning: string, display: bool, overflow: string)

  /** The keys `getProperties` reports, in order. */
  const PROPERTY_KEYS: seq<string> := ["left", "top", "width", "display", "font-color", "font-size",
    "font-family", "text-halign", "kerning", "overflow", "start-at", "format", "target", "shape-id", "desc"]

  /** Pairs each key with the value at its position. */
  function Label(keys: seq<string>, values: seq<Value>): (r: seq<(string, Value)>)
    requires |keys| == |values|
    ensures |r| == |keys|
    ensures forall i :: 0 <= i < |r| ==> r[i] == (keys[i], values[i])
  {
    seq(|keys|, i requires 0 <= i < |keys| => (keys[i], values[i]))
  }

  /** What `getProperties` reports for a page number with these fields. */
  function PropertiesOf(left: real, top: real, width: real, display: bool, font: Font, state: PageNumber,
                        defaultOverflow: string, desc: string): (r: seq<(string, Value)>)
    ensures |r| == |PROPERTY_KEYS|
    ensures forall i :: 0 <= i < |r| ==> r[i].0 == PROPERTY_KEYS[i]
    ensures r[0].1 == VNum(Finite(left)) && r[1].1 == VNum(Finite(top)) && r[2].1 == VNum(Finite(width))
    ensures r[3].1 == VBool(display) && r[4].1 == VStr(font.fill) && r[5].1 == VNum(Finite(font.size))
    ensures r[6].1 == VStr(font.family) && r[7].1 == VStr(font.anchor) && r[8].1 == VStr(state.kerning)
    ensures r[9].1 == VStr(OverflowType(state, defaultOverflow)) && r[10].1 == StartAt(state)
    ensures r[11].1 == VStr(Format(state)) && r[12].1 == VStr(Target(state))
    ensures r[13].1 == VStr(state.shapeId) && r[14].1 == VStr(desc)
  {
    var geometry := [VNum(Finite(left)), VNum(Finite(top)), VNum(Finite(width)), VBool(display)];
    var style := [VStr(font.fill), VNum(Finite(font.size)), VStr(font.family), VStr(font.anchor), VStr(state.kerning)];
    var attributes := [VStr(OverflowType(state, defaultOverflow)), StartAt(state), VStr(Format(state)), VStr(Target(state))];
    Label(PROPERTY_KEYS, geometry + style + attributes + [VStr(state.shapeId), VStr(desc)])
  }

  class PageNumberShape {
    var left: real
    var top: real
    var width: real
    var height: real
    var desc: string
    var display: bool
    var font: Font
    /** The attributes, shape id, kerning and label text the property edits change. */
    var state: PageNumber
    var labelLeft: real
    var labelTop: real
    /** The label element's own font size, the text style's default overflow type, and `String` on numbers. */
    const labelFontSize: real
    const defaultOverflow: string
    const numberText: Number -> string

    /** A new page number: no attributes, no id, no description, the label showing the default format. */
    constructor (labelFontSize: real, defaultOverflow: string, numberText: Number -> string)
      ensures state == PageNumber(map[], "", "", DEFAULT_PAGENO_FORMAT) && desc == ""
      ensures this.labelFontSize == labelFontSize && this.defaultOverflow == defaultOverflow
      ensures this.numberText == numberText
    {
      this.labelFontSize := labelFontSize;
      this.defaultOverflow := defaultOverflow;
      this.numberText := numberText;
      state := PageNumber(map[], "", "", DEFAULT_PAGENO_FORMAT);
      desc := "";
    }

    /** `canResizeHeight`: a page number's height is fixed by its font. */
    function CanResizeHeight(): (r: bool)
      ensures !r
    {
      false
    }

    /** `getProperties`: the fifteen reported fields, in order, as `PropertiesOf` the fields. */
    function Properties(): (r: seq<(string, Value)>)
      reads this
      ensures r == PropertiesOf(left, top, width, display, font, state, defaultOverflow, desc)
    {
      PropertiesOf(left, top, width, display, font, state, defaultOverflow, desc)
    }

    /** What `getCloneCreator` captures: never the format, start page, target, id or description. */
    function CloneSourceOf(): (r: CloneSource)
      reads this
      ensures r.width == width && r.height == height && r.font == font
      ensures r.kerning == state.kerning && r.display == display
      ensures r.overflow == OverflowType(state, defaultOverflow)
    {
      CloneSource(width, height, font, state.kerning, display, OverflowType(state, defaultOverflow))
    }

    /** `setLeft`: the label follows horizontally. */
    method SetLeft(l: real)
      modifies this
      ensures left == l && labelLeft == LabelX(l, width)
      ensures top == old(top) && width == old(width) && height == old(height) && labelTop == old(labelTop)
      ensures desc == old(desc) && display == old(display) && font == old(font) && state == old(state)
    {
      left := l;
      labelLeft := LabelX(left, width);
    }

    /** `setTop`: the label follows vertically. */
    method SetTop(t: real)
      modifies this
      ensures top == t && labelTop == LabelY(t, labelFontSize)
      ensures left == old(left) && width == old(width) && height == old(height) && labelLeft == old(labelLeft)
      ensures desc == old(desc) && display == old(display) && font == old(font) && state == old(state)
    {
      top := t;
      labelTop := LabelY(top, labelFontSize);
    }

    /** `setHeight`: the label is placed again under the unchanged top. */
    method SetHeight(h: real)
      modifies this
      ensures height == h && labelTop == LabelY(top, labelFontSize)
      ensures left == old(left) && top == old(top) && width == old(width) && labelLeft == old(labelLeft)
      ensures desc == old(desc) && display == old(display) && font == old(font) && state == old(state)
    {
      height := h;
      labelTop := LabelY(top, labelFontSize);
    }

    method SetOverflowType(t: string)
      modifies this`state
      ensures state == WithOverflowType(old(state), t)
      ensures OverflowType(state, defaultOverflow) == if t != "" then t else defaultOverflow
    {
      state := WithOverflowType(state, t);
    }

    /** `setStartAt`: the value is written as text, and the getter reads that text unless it is blank. */
    method SetStartAt(n: Value)
      modifies this`state
      ensures state == WithStartAt(old(state), n, numberText)
      ensures StartAt(state) == if ToText(n, numberText) != "" then VStr(ToText(n, numberText)) else VNum(Finite(1.0))
      ensures n.VStr? && n.s != "" ==> StartAt(state) == n
    {
      state := WithStartAt(state, n, numberText);
    }

    /** `setFormat`: the attribute is written and the label shows the same value. */
    method SetFormat(f: string)
      modifies this`state
      ensures state == WithFormat(old(state), f)
      ensures state.labelText == f
      ensures Format(state) == if f != "" then f else DEFAULT_PAGENO_FORMAT
    {
      state := WithFormat(state, f);
    }

    method SetTarget(t: string)
      modifies this`state
      ensures state == WithTarget(old(state), t)
      ensures Target(state) == t
    {
      state := WithTarget(state, t);
    }

    method SetShapeId(id: string)
      modifies this`state
      ensures state == WithShapeId(old(state), id)
    {
      state := WithShapeId(state, id);
    }

    method SetKerning(k: string)
      modifies this`state
      ensures state == WithKerning(old(state), k)
    {
      state := WithKerning(state, k);
    }
  }

  /**
   * The clone creator: a new page number at the paste position, the label
   * placed for it, every captured field set, and nothing else — so its format,
   * start page and target read as their defaults and its id and description
   * are blank.
   */
  method CreateClone(src: CloneSource, pasteX: real, pasteY: real, labelFontSize: real, defaultOverflow: string,
                     numberText: Number -> string)
    returns (shape: PageNumberShape)
    ensures fresh(shape)
    ensures shape.left == pasteX && shape.top == pasteY && shape.width == src.width && shape.height == src.height
    ensures shape.labelLeft == LabelX(pasteX, src.width) && shape.labelTop == LabelY(pasteY, labelFontSize)
    ensures shape.font == src.font && shape.display == src.display && shape.desc == ""
    ensures shape.state == PageNumber(map["x-overflow" := src.overflow], "", src.kerning, DEFAULT_PAGENO_FORMAT)
    ensures Format(shape.state) == DEFAULT_PAGENO_FORMAT && StartAt(shape.state) == VNum(Finite(1.0))
    ensures Target(shape.state) == ""
  {
    shape := new PageNumberShape(labelFontSize, defaultOverflow, numberText);
    shape.width := src.width;
    shape.height := src.height;
    shape.SetLeft(pasteX);
    shape.SetTop(pasteY);
    shape.font := src.font;
    shape.SetKerning(src.kerning);
    shape.display := src.display;
    shape.SetOverflowType(src.overflow);
  }
}
