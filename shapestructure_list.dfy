/** Properties of the list serializer and its sections. */
module ShapeStructureListProperties {
  import opened Wrappers
  import opened Js
  import opened Dom
  import Editor
  import opened ShapeStructure
  import opened ShapeStructureProperties

  /** A child that the list serializer treats as a section: a `g` with a class. */
  predicate IsSection(c: Element) {
    c.tag == "g" && GetAttribute(c, "class").Some?
  }

  function SectionName(c: Element): string
    requires IsSection(c)
  {
    GetSectionName(GetAttribute(c, "class").value)
  }

  /** A child as the list serializer leaves it: a disabled section loses its children. */
  function SectionAfter(list: Element, c: Element): Element {
    if c.tag == "g" && GetEnabledOfSection(c, list).Ok? && GetEnabledOfSection(c, list).value != "true"
    then RemoveChildren(c) else c
  }

  lemma SectionStepChild(env: Env, list: Element, c: Element, detailTop: Number, json: JsObject)
    ensures SectionStep(env, list, c, detailTop, json).Ok? ==>
              SectionStep(env, list, c, detailTop, json).value.1 == SectionAfter(list, c)
  {
  }

  /**
   * The children after the walk: every disabled section is emptied and every
   * other child is left as it was, position by position.
   */
  lemma {:induction false} SectionsChildren(env: Env, list: Element, children: seq<Element>, detailTop: Number, json: JsObject)
    ensures var r := Sections(env, list, children, detailTop, json);
      r.Ok? ==> forall i :: 0 <= i < |children| ==> r.value.1[i] == SectionAfter(list, children[i])
    decreases |children|
  {
    if children != [] {
      var last := SectionStep(env, list, children[|children| - 1], detailTop, json);
      SectionStepChild(env, list, children[|children| - 1], detailTop, json);
      if last.Ok? {
        SectionsChildren(env, list, children[..|children| - 1], detailTop, last.value.0);
      }
    }
  }

  /** A section child without a class makes the walk fail. */
  lemma {:induction false} SectionsNeedClasses(env: Env, list: Element, children: seq<Element>, detailTop: Number, json: JsObject, k: nat)
    requires k < |children| && children[k].tag == "g" && GetAttribute(children[k], "class").None?
    ensures Sections(env, list, children, detailTop, json).Err?
    decreases |children|
  {
    var last := SectionStep(env, list, children[|children| - 1], detailTop, json);
    if k < |children| - 1 && last.Ok? {
      SectionsNeedClasses(env, list, children[..|children| - 1], detailTop, last.value.0, k);
    }
  }

  /** Serializing a section child a second time, after the first pass, gives the same result. */
  lemma SectionStepStable(env: Env, list: Element, list2: Element, c: Element, detailTop: Number, json: JsObject)
    requires list.attrs == list2.attrs
    requires SectionStep(env, list, c, detailTop, json).Ok?
    ensures SectionStep(env, list2, SectionAfter(list, c), detailTop, json) == SectionStep(env, list, c, detailTop, json)
  {
  }

  lemma {:induction false} SectionsStable(env: Env, list: Element, list2: Element, children: seq<Element>, detailTop: Number, json: JsObject)
    requires list.attrs == list2.attrs
    requires Sections(env, list, children, detailTop, json).Ok?
    ensures Sections(env, list2, Sections(env, list, children, detailTop, json).value.1, detailTop, json)
         == Sections(env, list, children, detailTop, json)
    decreases |children|
  {
    if children != [] {
      var c := children[|children| - 1];
      var init := children[..|children| - 1];
      var last := SectionStep(env, list, c, detailTop, json).value;
      var rest := Sections(env, list, init, detailTop, last.0).value;
      var out := rest.1 + [last.1];
      assert Sections(env, list, children, detailTop, json).value == (rest.0, out);
      SectionStepChild(env, list, c, detailTop, json);
      SectionStepStable(env, list, list2, c, detailTop, json);
      SectionsStable(env, list, list2, init, detailTop, last.0);
      assert out[..|out| - 1] == rest.1;
    }
  }

  /** `serialize` on a list: the list serializer from the common head. */
  lemma SerializeListCase(env: Env, shape: Element)
    requires GetAttribute(shape, "class") == Some(LIST_CLASSID)
    ensures Serialize(env, shape) == (var r := SerializeForList(env, shape, Head(shape));
                                      if r.Ok? then Ok(Serialized(r.value.0, r.value.1)) else Err(r.error))
  {
  }

  /** Every serializer but the list's leaves the shape as it is. */
  lemma SerializeOtherCase(env: Env, shape: Element)
    requires GetAttribute(shape, "class") != Some(LIST_CLASSID)
    requires Serialize(env, shape).Ok?
    ensures Serialize(env, shape).value.shape == shape
  {
  }

  /** Serializing a list a second time, from the list the first pass left behind, gives the same result. */
  lemma SerializeForListStable(env: Env, shape: Element, json: JsObject)
    requires SerializeForList(env, shape, json).Ok?
    ensures SerializeForList(env, SerializeForList(env, shape, json).value.1, json) == SerializeForList(env, shape, json)
  {
    SerializeForListSteps(env, shape, json);
    var detail := Editor.GetElementByClassNameForChildNodes(DETAIL_CLASSID, shape.children);
    var detailTop := NumAttr(detail.value, "x-top");
    var done := Sections(env, shape, shape.children, detailTop, json).value;
    var shape2 := shape.(children := done.1);
    assert SerializeForList(env, shape, json).value.1 == shape2;
    SectionsChildren(env, shape, shape.children, detailTop, json);
    Editor.FindIndexByClassSameClasses(DETAIL_CLASSID, shape.children, done.1);
    var detail2 := Editor.GetElementByClassNameForChildNodes(DETAIL_CLASSID, done.1);
    assert detail2.value.attrs == detail.value.attrs;
    assert NumAttr(detail2.value, "x-top") == detailTop;
    SectionsStable(env, shape, shape2, shape.children, detailTop, json);
    assert Sections(env, shape2, shape2.children, detailTop, json) == Ok(done);
    assert ListTail(shape2, done.0) == ListTail(shape, done.0);
  }

  /**
   * Serializing is stable: serializing the shape that a first pass left behind
   * gives the same description and the same shape again.
   */
  lemma SerializeStable(env: Env, shape: Element)
    requires Serialize(env, shape).Ok?
    ensures Serialize(env, Serialize(env, shape).value.shape) == Serialize(env, shape)
  {
    if GetAttribute(shape, "class") == Some(LIST_CLASSID) {
      SerializeListCase(env, shape);
      SerializeForListStable(env, shape, Head(shape));
      var shape2 := SerializeForList(env, shape, Head(shape)).value.1;
      SerializeForListSteps(env, shape, Head(shape));
      assert shape2.attrs == shape.attrs;
      assert Head(shape2) == Head(shape);
      SerializeListCase(env, shape2);
    } else {
      SerializeOtherCase(env, shape);
    }
  }

  /** Section names are distinct, and none is another's name followed by `-enabled`. */
  predicate DistinctSections(children: seq<Element>) {
    forall i, j :: 0 <= i < |children| && 0 <= j < |children| && IsSection(children[i]) && IsSection(children[j]) ==>
      (i != j ==> SectionName(children[i]) != SectionName(children[j])) &&
      SectionName(children[j]) + "-enabled" != SectionName(children[i])
  }

  /** The `x-<name>-enabled` value of the list for section `c`. */
  function EnabledOf(list: Element, c: Element): string
    requires IsSection(c)
  {
    AttributeOr(list, EnabledKey(GetAttribute(c, "class").value), "true")
  }

  /** The detail top handed to a section: none for the header and the detail themselves. */
  function DetailTopFor(c: Element, detailTop: Number): Option<Number>
    requires IsSection(c)
  {
    var cls := GetAttribute(c, "class").value;
    if cls == HEADER_CLASSID || cls == DETAIL_CLASSID then None else Some(detailTop)
  }

  /** The object a section contributes, when it serializes. */
  function SectionEntry(env: Env, list: Element, c: Element, detailTop: Number): Result<(JsObject, Element), Failure>
    requires IsSection(c)
  {
    SerializeForListForSection(env, c, EnabledOf(list, c) == "true", DetailTopFor(c, detailTop))
  }

  lemma SuffixInjective(a: string, b: string, suffix: string)
    requires a + suffix == b + suffix
    ensures a == b
  {
    assert a == (a + suffix)[..|a|];
    assert b == (b + suffix)[..|b|];
  }

  lemma DistinctSectionsInit(children: seq<Element>)
    requires children != [] && DistinctSections(children)
    ensures DistinctSections(children[..|children| - 1])
  {
    var init := children[..|children| - 1];
    forall i, j | 0 <= i < |init| && 0 <= j < |init| && IsSection(init[i]) && IsSection(init[j])
      ensures (i != j ==> SectionName(init[i]) != SectionName(init[j])) &&
              SectionName(init[j]) + "-enabled" != SectionName(init[i])
    {
      assert init[i] == children[i] && init[j] == children[j];
    }
  }

  /** The last section's keys are not touched by the sections before it. */
  lemma LastSectionAvoided(children: seq<Element>)
    requires children != [] && DistinctSections(children) && IsSection(children[|children| - 1])
    ensures var c := children[|children| - 1];
      SectionsAvoid(children[..|children| - 1], SectionName(c)) &&
      SectionsAvoid(children[..|children| - 1], SectionName(c) + "-enabled")
  {
    var n := |children| - 1;
    var c := children[n];
    var init := children[..n];
    forall i | 0 <= i < |init|
      ensures !WritesKey(init[i], SectionName(c)) && !WritesKey(init[i], SectionName(c) + "-enabled")
    {
      assert init[i] == children[i];
      if IsSection(init[i]) {
        var name := SectionName(init[i]);
        if name + "-enabled" == SectionName(c) + "-enabled" {
          SuffixInjective(name, SectionName(c), "-enabled");
        }
      }
    }
  }

  /**
   * With distinct section names, every section's object is stored under its
   * name, and every section but the detail stores its enabled value under
   * `<name>-enabled`.
   */
  lemma {:induction false} SectionsEntries(env: Env, list: Element, children: seq<Element>, detailTop: Number, json: JsObject)
    requires DistinctSections(children)
    ensures var r := Sections(env, list, children, detailTop, json);
      r.Ok? ==> forall i :: 0 <= i < |children| && IsSection(children[i]) ==>
        SectionEntry(env, list, children[i], detailTop).Ok? &&
        Get(r.value.0, SectionName(children[i])) == Some(JObj(SectionEntry(env, list, children[i], detailTop).value.0)) &&
        (GetAttribute(children[i], "class") != Some(DETAIL_CLASSID) ==>
           Get(r.value.0, SectionName(children[i]) + "-enabled") == Some(JStr(EnabledOf(list, children[i]))))
    decreases |children|
  {
    var r := Sections(env, list, children, detailTop, json);
    if children != [] && r.Ok? {
      var n := |children| - 1;
      var c := children[n];
      var init := children[..n];
      var last := SectionStep(env, list, c, detailTop, json).value;
      DistinctSectionsInit(children);
      SectionsEntries(env, list, init, detailTop, last.0);
      if IsSection(c) {
        LastSectionAvoided(children);
        SectionsKeep(env, list, init, detailTop, last.0, SectionName(c));
        SectionsKeep(env, list, init, detailTop, last.0, SectionName(c) + "-enabled");
      }
      forall i | 0 <= i < n && IsSection(children[i])
        ensures SectionEntry(env, list, children[i], detailTop).Ok? &&
          Get(r.value.0, SectionName(children[i])) == Some(JObj(SectionEntry(env, list, children[i], detailTop).value.0)) &&
          (GetAttribute(children[i], "class") != Some(DETAIL_CLASSID) ==>
             Get(r.value.0, SectionName(children[i]) + "-enabled") == Some(JStr(EnabledOf(list, children[i]))))
      {
        assert children[i] == init[i];
      }
    }
  }

  lemma HeaderName()
    ensures GetSectionName(HEADER_CLASSID) == "header"
  {
    assert HEADER_CLASSID == "s-list-header";
    assert HEADER_CLASSID[..|"s-list-"|] == "s-list-";
  }

  /**
   * The section height the list subtracts: the header's `x-height` when the
   * header is enabled, 0 when it is disabled (its object is empty).
   */
  function HeaderHeightOf(list: Element, header: Element): Number
    requires IsSection(header)
  {
    if EnabledOf(list, header) == "true" then NumAttr(header, "x-height") else Finite(0.0)
  }

  /** serializeForList_ as its two parts: the walk over the sections, then the tail. */
  lemma SerializeForListSteps(env: Env, shape: Element, json: JsObject)
    requires SerializeForList(env, shape, json).Ok?
    ensures var detail := Editor.GetElementByClassNameForChildNodes(DETAIL_CLASSID, shape.children);
      detail.Some? &&
      var done := Sections(env, shape, shape.children, NumAttr(detail.value, "x-top"), json);
      done.Ok? && ListTail(shape, done.value.0).Ok? &&
      SerializeForList(env, shape, json).value == (ListTail(shape, done.value.0).value, shape.(children := done.value.1))
  {
  }

  /** The tail of the list serializer with the header's name spelled out. */
  lemma ListTailSteps(shape: Element, sections: JsObject)
    ensures ListTail(shape, sections) ==
      (var hh :- HeaderHeight(Get(sections, "header"));
       Ok(ListHeights(shape, Put(sections, "svg", ListSvg(shape)), hh)))
  {
    HeaderName();
    assert Get(Put(sections, "svg", ListSvg(shape)), "header") == Get(sections, "header");
  }

  /** The content height and page break go under their own keys; every other key keeps its value. */
  lemma ListHeightsMeaning(shape: Element, json: JsObject, hh: Number)
    ensures var r := ListHeights(shape, json, hh);
      Get(r, "content-height") == Some(JNum(Sub(NumAttr(shape, "height"), hh))) &&
      Get(r, "page-break") == Some(JStr(AttributeOr(shape, "x-changing-page", "false"))) &&
      forall k :: k != "content-height" && k != "page-break" ==> Get(r, k) == Get(json, k)
  {
  }

  /**
   * The tail of the list serializer fails only when the header entry cannot be
   * read; it stores the content height (the list's `height` less the header
   * height), the page break, defaulting to 'false', and the list's bare svg.
   */
  lemma ListTailMeaning(shape: Element, sections: JsObject)
    ensures ListTail(shape, sections).Ok? <==> HeaderHeight(Get(sections, "header")).Ok?
    ensures HeaderHeight(Get(sections, "header")).Ok? ==>
      var r := ListTail(shape, sections).value;
      Get(r, "content-height") == Some(JNum(Sub(NumAttr(shape, "height"), HeaderHeight(Get(sections, "header")).value))) &&
      Get(r, "page-break") == Some(JStr(AttributeOr(shape, "x-changing-page", "false"))) &&
      SvgOf(r) == Some([Field("tag", JStr(shape.tag)), Field("attrs", JObj([]))])
  {
    ListTailSteps(shape, sections);
    if HeaderHeight(Get(sections, "header")).Ok? {
      ListHeightsMeaning(shape, Put(sections, "svg", ListSvg(shape)), HeaderHeight(Get(sections, "header")).value);
    }
  }

  /**
   * A list with distinct section names and a header section: its content height
   * is its `height` less the header's height.
   */
  lemma SerializeForListContentHeight(env: Env, shape: Element, json: JsObject, h: nat)
    requires SerializeForList(env, shape, json).Ok?
    requires DistinctSections(shape.children)
    requires h < |shape.children| && shape.children[h].tag == "g" && GetAttribute(shape.children[h], "class") == Some(HEADER_CLASSID)
    ensures Get(SerializeForList(env, shape, json).value.0, "content-height")
         == Some(JNum(Sub(NumAttr(shape, "height"), HeaderHeightOf(shape, shape.children[h]))))
  {
    SerializeForListSteps(env, shape, json);
    var detail := Editor.GetElementByClassNameForChildNodes(DETAIL_CLASSID, shape.children);
    var detailTop := NumAttr(detail.value, "x-top");
    var done := Sections(env, shape, shape.children, detailTop, json).value;
    HeaderEntry(env, shape, shape.children, detailTop, json, h);
    HeaderHeightValue(env, shape, shape.children[h], detailTop);
    ListTailMeaning(shape, done.0);
  }

  /** The list's page break defaults to 'false', and its svg is the bare tag. */
  lemma SerializeForListPageBreak(env: Env, shape: Element, json: JsObject)
    requires SerializeForList(env, shape, json).Ok?
    ensures var r := SerializeForList(env, shape, json).value;
      Get(r.0, "page-break") == Some(JStr(AttributeOr(shape, "x-changing-page", "false"))) &&
      SvgOf(r.0) == Some([Field("tag", JStr(shape.tag)), Field("attrs", JObj([]))])
  {
    SerializeForListSteps(env, shape, json);
    var detail := Editor.GetElementByClassNameForChildNodes(DETAIL_CLASSID, shape.children);
    ListTailMeaning(shape, Sections(env, shape, shape.children, NumAttr(detail.value, "x-top"), json).value.0);
  }

  lemma HeaderEntry(env: Env, shape: Element, children: seq<Element>, detailTop: Number, json: JsObject, h: nat)
    requires Sections(env, shape, children, detailTop, json).Ok?
    requires DistinctSections(children)
    requires h < |children| && children[h].tag == "g" && GetAttribute(children[h], "class") == Some(HEADER_CLASSID)
    ensures SectionEntry(env, shape, children[h], detailTop).Ok?
    ensures Get(Sections(env, shape, children, detailTop, json).value.0, "header")
         == Some(JObj(SectionEntry(env, shape, children[h], detailTop).value.0))
  {
    SectionsEntries(env, shape, children, detailTop, json);
    HeaderName();
    assert SectionName(children[h]) == "header";
  }

  lemma HeaderHeightValue(env: Env, shape: Element, header: Element, detailTop: Number)
    requires IsSection(header) && SectionEntry(env, shape, header, detailTop).Ok?
    ensures HeaderHeight(Some(JObj(SectionEntry(env, shape, header, detailTop).value.0))) == Ok(HeaderHeightOf(shape, header))
  {
  }

  /** The list shape after serializing: same attributes, disabled sections emptied, everything else kept. */
  lemma SerializeForListShape(env: Env, shape: Element, json: JsObject)
    requires SerializeForList(env, shape, json).Ok?
    ensures var r := SerializeForList(env, shape, json).value;
      r.1.tag == shape.tag && r.1.attrs == shape.attrs && |r.1.children| == |shape.children| &&
      forall i :: 0 <= i < |shape.children| ==> r.1.children[i] == SectionAfter(shape, shape.children[i])
  {
    SerializeForListSteps(env, shape, json);
    var detail := Editor.GetElementByClassNameForChildNodes(DETAIL_CLASSID, shape.children);
    SectionsChildren(env, shape, shape.children, NumAttr(detail.value, "x-top"), json);
  }

  /**
   * One section: a disabled section contributes an empty object and is emptied;
   * an enabled one is left as it is and contributes its height, its markup (its
   * tag and the serialized content of its shapes) and its translation, whose y is taken relative to the detail section when a
   * detail top is given.
   */
  lemma SectionMeaning(env: Env, group: Element, enabled: bool, detailTop: Option<Number>)
    ensures !enabled ==> SerializeForListForSection(env, group, enabled, detailTop) == Ok(([], RemoveChildren(group)))
    ensures enabled ==> (SerializeForListForSection(env, group, enabled, detailTop).Ok? <==> GetTranslateCoordinate(group).Ok?)
    ensures enabled && GetTranslateCoordinate(group).Ok? ==>
      var t := GetTranslateCoordinate(group).value;
      var r := SerializeForListForSection(env, group, enabled, detailTop).value;
      var y := if detailTop.None? then t.1 else Sub(t.1, Sub(NumAttr(group, "x-top"), detailTop.value));
      r.1 == group &&
      KeysOf(r.0) == ["height", "svg", "translate"] &&
      Get(r.0, "height") == Some(JNum(NumAttr(group, "x-height"))) &&
      Get(r.0, "svg") == Some(JObj([Field("tag", JStr(group.tag)),
                                    Field("content", JStr(ContentOf(env, env.serializeShapes(group.children))))])) &&
      Get(r.0, "translate") == Some(JObj([Field("x", JNum(t.0)), Field("y", JNum(y))]))
  {
    if enabled && GetTranslateCoordinate(group).Ok? {
      var o := SerializeForListForSection(env, group, enabled, detailTop).value.0;
      assert Get(o, "svg") == Get(o[1..], "svg");
      assert Get(o, "translate") == Get(o[1..], "translate") == Get(o[2..], "translate");
      assert KeysOf(o) == ["height"] + KeysOf(o[1..]);
      assert KeysOf(o[1..]) == ["svg"] + KeysOf(o[2..]);
      assert KeysOf(o[2..]) == ["translate"] + KeysOf(o[3..]);
    }
  }

  /** A list without a detail section cannot be serialized. */
  lemma ListNeedsDetail(env: Env, shape: Element)
    requires GetAttribute(shape, "class") == Some(LIST_CLASSID)
    requires forall c :: c in shape.children ==> GetAttribute(c, "class") != Some(DETAIL_CLASSID)
    ensures Serialize(env, shape).Err?
  {
    SerializeDispatch(env, shape);
    forall j | 0 <= j < |shape.children|
      ensures !Editor.HasClass(shape.children[j], DETAIL_CLASSID)
    {
      assert shape.children[j] in shape.children;
    }
  }
}
