/** Element lookup shared by the editor (core/thin/editor/editor.js). */
module Editor {
  import opened Wrappers
  import opened Dom

  predicate HasClass(e: Element, className: string) {
    GetAttribute(e, "class") == Some(className)
  }

  /** `goog.array.findIndex` with the class test: the first index whose element has the class, or -1. */
  function FindIndexByClass(className: string, elements: seq<Element>): (i: int)
    ensures -1 <= i < |elements|
    ensures i >= 0 ==> HasClass(elements[i], className)
    ensures i >= 0 ==> forall j :: 0 <= j < i ==> !HasClass(elements[j], className)
    ensures i == -1 <==> forall j :: 0 <= j < |elements| ==> !HasClass(elements[j], className)
    decreases |elements|
  {
    if elements == [] then -1
    else if HasClass(elements[0], className) then 0
    else
      var k := FindIndexByClass(className, elements[1..]);
      if k == -1 then -1 else k + 1
  }

  /**
   * `thin.editor.getElementByClassNameForChildNodes`: the first element whose
   * class attribute equals `className`; `elements[-1]` is `undefined` when none has.
   */
  function GetElementByClassNameForChildNodes(className: string, elements: seq<Element>): (r: Option<Element>)
    ensures r.Some? ==> HasClass(r.value, className)
    ensures r.Some? ==> exists i :: 0 <= i < |elements| && elements[i] == r.value
                                    && forall j :: 0 <= j < i ==> !HasClass(elements[j], className)
    ensures r.None? <==> forall j :: 0 <= j < |elements| ==> !HasClass(elements[j], className)
  {
    var i := FindIndexByClass(className, elements);
    if i == -1 then None else Some(elements[i])
  }

  /** The lookup depends only on the elements' class attributes, position by position. */
  lemma {:induction false} FindIndexByClassSameClasses(className: string, a: seq<Element>, b: seq<Element>)
    requires |a| == |b|
    requires forall i :: 0 <= i < |a| ==> a[i].attrs == b[i].attrs
    ensures FindIndexByClass(className, a) == FindIndexByClass(className, b)
    decreases |a|
  {
    if a != [] {
      FindIndexByClassSameClasses(className, a[1..], b[1..]);
    }
  }
}
