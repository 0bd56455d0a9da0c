/**
 * The part of the SVG document the editor reads: an element has a tag name,
 * its attributes in document order, and its child elements.  When the first
 * child node is a text node, its character data is kept in `text`.
 */
module Dom {
  import opened Wrappers

  datatype Attr = Attr(name: string, value: string)

  datatype Element = Element(tag: string, attrs: seq<Attr>, text: Option<string>, children: seq<Element>)

  /** The value of the first attribute called `name`. */
  function Lookup(attrs: seq<Attr>, name: string): Option<string>
    decreases |attrs|
  {
    if attrs == [] then None
    else if attrs[0].name == name then Some(attrs[0].value)
    else Lookup(attrs[1..], name)
  }

  /** `element.getAttribute(name)`: `None` stands for `null`. */
  function GetAttribute(e: Element, name: string): Option<string> {
    Lookup(e.attrs, name)
  }

  /** `element.hasAttribute(name)` */
  predicate HasAttribute(e: Element, name: string) {
    GetAttribute(e, name).Some?
  }

  /** `element.getAttribute(name) || default`: a missing or empty attribute gives `default`. */
  function AttributeOr(e: Element, name: string, default: string): string {
    match GetAttribute(e, name)
    case Some(v) => if v != "" then v else default
    case None => default
  }

  /** No two attributes share a name, as in any DOM element. */
  predicate UniqueNames(attrs: seq<Attr>) {
    forall i, j :: 0 <= i < j < |attrs| ==> attrs[i].name != attrs[j].name
  }

  /** `goog.dom.removeChildren(element)`: every child node goes, the text node included. */
  function RemoveChildren(e: Element): Element {
    e.(text := None, children := [])
  }

  lemma {:induction false} LookupFound(attrs: seq<Attr>, k: nat)
    requires UniqueNames(attrs)
    requires k < |attrs|
    ensures Lookup(attrs, attrs[k].name) == Some(attrs[k].value)
    decreases |attrs|
  {
    if k > 0 {
      assert attrs[0].name != attrs[k].name;
      LookupFound(attrs[1..], k - 1);
    }
  }

  lemma {:induction false} LookupMissing(attrs: seq<Attr>, name: string)
    requires forall i :: 0 <= i < |attrs| ==> attrs[i].name != name
    ensures Lookup(attrs, name) == None
    decreases |attrs|
  {
    if attrs != [] {
      LookupMissing(attrs[1..], name);
    }
  }
}
