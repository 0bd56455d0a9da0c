/**
 * The helpers that let the user resize the sections of a list shape
 * (core/thin/editor/listsectionhelper.js): one helper per section with its
 * draw, selector and label layers and an active flag, the draggable separator
 * under the section, the drag limits computed when a drag starts, and the
 * version a finished drag commits.
 *
 * Geometry is exact (`real`): the editor's rounding of stored values to a
 * fixed precision is not modelled.
 */
module ListSectionHelper {
  import opened Wrappers
  import opened Versioning

  datatype Rect = Rect(left: real, top: real, width: real, height: real) {
    function Bottom(): real { top + height }
  }

  /**
   * The separator: an SVG line with a handle at each end. It stores its left
   * and top relative to the translation of the section it belongs to.
   */
  class Separator {
    var left: real
    var top: real
    var width: real
    var lineLeft: real
    var lineTop: real
    var lineWidth: real
    var leftHandleLeft: real
    var leftHandleTop: real
    var rightHandleLeft: real
    var rightHandleTop: real
    var visible: bool
    var draggerEnabled: bool
    /** The translation of the parent section group. */
    var parentTranslateX: real
    var parentTranslateY: real
    /** The handles' heights and the list guide's stroke width. */
    const leftHandleHeight: real
    const rightHandleHeight: real
    const guideStrokeWidth: real

    /** A new separator is hidden and sits at relative (0, 0). */
    constructor (leftHandleHeight: real, rightHandleHeight: real, guideStrokeWidth: real, draggerEnabled: bool)
      ensures !visible && left == 0.0 && top == 0.0
      ensures this.leftHandleHeight == leftHandleHeight && this.rightHandleHeight == rightHandleHeight
      ensures this.guideStrokeWidth == guideStrokeWidth && this.draggerEnabled == draggerEnabled
    {
      this.leftHandleHeight := leftHandleHeight;
      this.rightHandleHeight := rightHandleHeight;
      this.guideStrokeWidth := guideStrokeWidth;
      this.draggerEnabled := draggerEnabled;
      visible := false;
      left := 0.0;
      top := 0.0;
    }

    /** The line moves to `l`, the handles follow it, and `left` is stored relative to the parent. */
    method SetLeft(l: real)
      modifies this
      ensures lineLeft == l
      ensures leftHandleLeft == l - guideStrokeWidth
      ensures rightHandleLeft == l + lineWidth
      ensures left == l - parentTranslateX
      ensures top == old(top) && width == old(width) && lineTop == old(lineTop) && lineWidth == old(lineWidth)
      ensures leftHandleTop == old(leftHandleTop) && rightHandleTop == old(rightHandleTop)
      ensures visible == old(visible) && draggerEnabled == old(draggerEnabled)
      ensures parentTranslateX == old(parentTranslateX) && parentTranslateY == old(parentTranslateY)
    {
      lineLeft := l;
      leftHandleLeft := l - guideStrokeWidth;
      rightHandleLeft := l + lineWidth;
      left := l - parentTranslateX;
    }

    /** The line moves to `t`, the handles are centred on it, and `top` is stored relative to the parent. */
    method SetTop(t: real)
      modifies this
      ensures lineTop == t
      ensures leftHandleTop == t - leftHandleHeight / 2.0
      ensures rightHandleTop == t - rightHandleHeight / 2.0
      ensures top == t - parentTranslateY
      ensures left == old(left) && width == old(width) && lineLeft == old(lineLeft) && lineWidth == old(lineWidth)
      ensures leftHandleLeft == old(leftHandleLeft) && rightHandleLeft == old(rightHandleLeft)
      ensures visible == old(visible) && draggerEnabled == old(draggerEnabled)
      ensures parentTranslateX == old(parentTranslateX) && parentTranslateY == old(parentTranslateY)
    {
      lineTop := t;
      leftHandleTop := t - leftHandleHeight / 2.0;
      rightHandleTop := t - rightHandleHeight / 2.0;
      top := t - parentTranslateY;
    }

    /** The line takes width `w`, and the separator stores it as it is. */
    method SetWidth(w: real)
      modifies this
      ensures lineWidth == w && width == w
      ensures left == old(left) && top == old(top) && lineLeft == old(lineLeft) && lineTop == old(lineTop)
      ensures leftHandleLeft == old(leftHandleLeft) && rightHandleLeft == old(rightHandleLeft)
      ensures leftHandleTop == old(leftHandleTop) && rightHandleTop == old(rightHandleTop)
      ensures visible == old(visible) && draggerEnabled == old(draggerEnabled)
      ensures parentTranslateX == old(parentTranslateX) && parentTranslateY == old(parentTranslateY)
    {
      lineWidth := w;
      width := w;
    }
  }

  /** A section of a list shape, as far as the helper changes it. */
  class SectionShape {
    var top: real
    var height: real
    var enabled: bool

    constructor (top: real, height: real, enabled: bool)
      ensures this.top == top && this.height == height && this.enabled == enabled
    {
      this.top := top;
      this.height := height;
      this.enabled := enabled;
    }
  }

  /** What `active` and `inactive` change: the flag and the visibility of the layers and the separator. */
  datatype Visibility = Visibility(active: bool, drawShown: bool, separatorShown: bool, draggable: bool, selectorShown: bool, labelShown: bool)

  /**
   * Activation: the flag is set; the separator is shown and draggable exactly
   * when the section is enabled; the draw layer takes the given visibility; the
   * selector layer is shown for an enabled section.
   */
  function Activated(v: Visibility, enabled: bool, drawVisible: bool): (r: Visibility)
    ensures r.active
    ensures r.separatorShown == enabled && r.draggable == enabled
    ensures r.drawShown == drawVisible
    ensures r.selectorShown == (enabled || v.selectorShown)
    ensures r.labelShown == v.labelShown
  {
    Visibility(true, drawVisible, enabled, enabled, enabled || v.selectorShown, v.labelShown)
  }

  /** Deactivation: nothing when inactive; otherwise every layer and the separator hidden and the flag cleared. */
  function Inactivated(v: Visibility): (r: Visibility)
    ensures !r.active
    ensures !v.active ==> r == v
    ensures v.active ==> !r.drawShown && !r.separatorShown && !r.selectorShown && !r.labelShown && r.draggable == v.draggable
  {
    if v.active then v.(active := false, drawShown := false, separatorShown := false, selectorShown := false, labelShown := false)
    else v
  }

  /** Deactivating twice is deactivating once. */
  lemma InactivatedIdempotent(v: Visibility)
    ensures Inactivated(Inactivated(v)) == Inactivated(v)
  {
  }

  /** The draw layer's visibility on activation: the flag when given, else whether the tool is not the selector. */
  function DrawVisibility(optVisibled: Option<bool>, uiStatus: string): (r: bool)
    ensures optVisibled.Some? ==> r == optVisibled.value
    ensures optVisibled.None? ==> (r <==> uiStatus != "selector")
  {
    match optVisibled
    case Some(b) => b
    case None => uiStatus != "selector"
  }

  /** The label is shown after an update exactly when the new bounds can hold it. */
  function LabelFits(minWidth: real, minHeight: real, bounds: Rect): bool {
    minHeight <= bounds.height && minWidth <= bounds.width
  }

  /** The helper of one section of a list. */
  class SectionHelper {
    var active: bool
    var drawVisible: bool
    var selectorVisible: bool
    var labelVisible: bool
    var drawBounds: Rect
    var selectorBounds: Rect
    var labelBounds: Rect
    const labelMinWidth: real
    const labelMinHeight: real
    const separator: Separator

    constructor (separator: Separator, labelMinWidth: real, labelMinHeight: real)
      ensures this.separator == separator
      ensures this.labelMinWidth == labelMinWidth && this.labelMinHeight == labelMinHeight
      ensures !active && !labelVisible
    {
      this.separator := separator;
      this.labelMinWidth := labelMinWidth;
      this.labelMinHeight := labelMinHeight;
      active := false;
      labelVisible := false;
    }

    function State(): Visibility
      reads this, separator
    {
      Visibility(active, drawVisible, separator.visible, separator.draggerEnabled, selectorVisible, labelVisible)
    }

    /**
     * Lays the helper over `bounds`: the layers and the label take the bounds,
     * the label is shown iff it fits, the separator goes to the bottom edge,
     * and the section takes the bounds' top and height.
     */
    method Update(section: SectionShape, bounds: Rect)
      modifies this, separator, section
      ensures drawBounds == bounds && selectorBounds == bounds && labelBounds == bounds
      ensures labelVisible == LabelFits(labelMinWidth, labelMinHeight, bounds)
      ensures separator.width == bounds.width && separator.lineWidth == bounds.width
      ensures separator.lineLeft == bounds.left && separator.left == bounds.left - separator.parentTranslateX
      ensures separator.lineTop == bounds.Bottom() && separator.top == bounds.Bottom() - separator.parentTranslateY
      ensures separator.leftHandleLeft == bounds.left - separator.guideStrokeWidth
      ensures separator.rightHandleLeft == bounds.left + bounds.width
      ensures separator.parentTranslateX == old(separator.parentTranslateX)
      ensures separator.parentTranslateY == old(separator.parentTranslateY)
      ensures section.top == bounds.top && section.height == bounds.height && section.enabled == old(section.enabled)
      ensures State() == old(State()).(labelShown := LabelFits(labelMinWidth, labelMinHeight, bounds))
    {
      drawBounds := bounds;
      selectorBounds := bounds;
      labelBounds := bounds;
      labelVisible := labelMinHeight <= bounds.height && labelMinWidth <= bounds.width;
      separator.SetWidth(bounds.width);
      separator.SetLeft(bounds.left);
      separator.SetTop(bounds.top + bounds.height);
      section.top := bounds.top;
      section.height := bounds.height;
    }

    /** Activates the helper for `section`; `uiStatus` is the workspace's current tool. */
    method Active(section: SectionShape, optVisibled: Option<bool>, uiStatus: string)
      modifies this, separator
      ensures State() == Activated(old(State()), section.enabled, DrawVisibility(optVisibled, uiStatus))
      ensures drawBounds == old(drawBounds) && selectorBounds == old(selectorBounds) && labelBounds == old(labelBounds)
      ensures separator.left == old(separator.left) && separator.top == old(separator.top)
      ensures separator.width == old(separator.width)
    {
      var isEnabled := section.enabled;
      separator.visible := isEnabled;
      separator.draggerEnabled := isEnabled;
      match optVisibled {
        case Some(b) => drawVisible := b;
        case None => drawVisible := uiStatus != "selector";
      }
      if isEnabled {
        selectorVisible := true;
      }
      active := true;
    }

    /** Deactivates the helper: a no-op when it is not active. */
    method Inactive()
      modifies this, separator
      ensures State() == Inactivated(old(State()))
      ensures drawBounds == old(drawBounds) && selectorBounds == old(selectorBounds) && labelBounds == old(labelBounds)
      ensures separator.left == old(separator.left) && separator.top == old(separator.top)
      ensures separator.width == old(separator.width)
    {
      if active {
        drawVisible := false;
        separator.visible := false;
        selectorVisible := false;
        labelVisible := false;
        active := false;
      }
    }
  }

  // ---------------------------------------------------------------------------
  // Dragging a separator

  /**
   * The limits set when a drag starts. The separator may go no higher than the
   * bottom of the section's shapes (the section's top when that bottom is 0,
   * as with no shapes) and no lower than the section's bottom plus the height
   * of the blank range under the list; horizontally it spans the list.
   */
  function DragLimit(list: Rect, section: Rect, shapesBottom: real, blankRangeHeight: real): (r: Rect)
    ensures r.left == list.left && r.width == list.width
    ensures shapesBottom != 0.0 ==> r.top == shapesBottom
    ensures shapesBottom == 0.0 ==> r.top == section.top
    ensures r.Bottom() == section.Bottom() + blankRangeHeight
  {
    var limitTop := if shapesBottom != 0.0 then shapesBottom else section.top;
    Rect(list.left, limitTop, list.width, (section.Bottom() + blankRangeHeight) - limitTop)
  }

  /** The outcome of a drag: the section's new height and the translations applied and undone below it. */
  datatype DragOutcome = DragOutcome(oldHeight: real, newHeight: real, translateY: real, retranslateY: real)

  /** When the drag ends with the line at `lineTop`: Δ = lineTop − the section's bottom. */
  function DragEnd(section: Rect, lineTop: real): (r: DragOutcome)
    ensures r.oldHeight == section.height
    ensures r.translateY == lineTop - section.Bottom()
    ensures r.newHeight == section.height + r.translateY
    ensures r.retranslateY == -r.translateY
    ensures section.top + r.newHeight == lineTop
  {
    var dy := lineTop - section.Bottom();
    DragOutcome(section.height, section.height + dy, dy, section.Bottom() - lineTop)
  }

  /**
   * A drag that ends inside the limits set at its start leaves the section a
   * height between 0 and its old height plus the blank range, provided its
   * shapes' bottom, when there is one, is not above the section's top.
   */
  lemma DragWithinLimit(list: Rect, section: Rect, shapesBottom: real, blankRangeHeight: real, lineTop: real)
    requires shapesBottom == 0.0 || shapesBottom >= section.top
    requires DragLimit(list, section, shapesBottom, blankRangeHeight).top <= lineTop
    requires lineTop <= DragLimit(list, section, shapesBottom, blankRangeHeight).Bottom()
    ensures 0.0 <= DragEnd(section, lineTop).newHeight <= section.height + blankRangeHeight
  {
  }

  /** The vertical layout of a list's sections, in order: their heights and translations. */
  datatype Sections = Sections(heights: seq<real>, translateY: seq<real>)

  /** `ts` with `dy` added to every entry after index `i`. */
  function ShiftAfter(ts: seq<real>, i: nat, dy: real): seq<real> {
    seq(|ts|, j requires 0 <= j < |ts| => if j > i then ts[j] + dy else ts[j])
  }

  /** Two shifts after the same section add up, and a shift by −dy takes back a shift by dy. */
  lemma ShiftAfterCompose(ts: seq<real>, i: nat, a: real, b: real)
    ensures ShiftAfter(ShiftAfter(ts, i, a), i, b) == ShiftAfter(ts, i, a + b)
    ensures ShiftAfter(ShiftAfter(ts, i, a), i, -a) == ts
  {
  }

  /**
   * What the version handlers of a drag change: section `i` takes height `h`
   * and every section after it moves down by `dy`.
   */
  function UpdateSections(s: Sections, i: nat, h: real, dy: real): (r: Sections)
    ensures |r.heights| == |s.heights| && |r.translateY| == |s.translateY|
    ensures i < |s.heights| ==> r.heights[i] == h
    ensures forall j :: 0 <= j < |s.heights| && j != i ==> r.heights[j] == s.heights[j]
    ensures forall j :: 0 <= j < |s.translateY| ==> r.translateY[j] == if j > i then s.translateY[j] + dy else s.translateY[j]
  {
    Sections(if i < |s.heights| then s.heights[i := h] else s.heights, ShiftAfter(s.translateY, i, dy))
  }

  /** The one version a finished drag of section `i` commits. */
  function DragVersion(i: nat, d: DragOutcome): Version<Sections> {
    Version(s => UpdateSections(s, i, d.newHeight, d.translateY),
            s => UpdateSections(s, i, d.oldHeight, d.retranslateY))
  }

  /**
   * Undoing the drag restores the section's height and nets no translation on
   * the sections after it; redoing it gives the dragged layout again.
   */
  lemma DragVersionRestores(s: Sections, i: nat, section: Rect, lineTop: real)
    requires i < |s.heights|
    requires s.heights[i] == section.height
    ensures var v := DragVersion(i, DragEnd(section, lineTop));
      v.down(v.up(s)) == s && v.up(v.down(v.up(s))) == v.up(s)
  {
    var d := DragEnd(section, lineTop);
    var v := DragVersion(i, d);
    var u := v.up(s);
    var back := v.down(u);
    assert back.heights == s.heights;
    ShiftAfterCompose(s.translateY, i, d.translateY, d.retranslateY);
    assert v.down(v.up(s)) == s;
    assert v.up(back) == u;
  }

  /** Committing a drag keeps the history consistent, and undoing it gives the layout before the drag. */
  lemma DragCommitConsistent(init: Sections, h: History<Sections>, i: nat, section: Rect, lineTop: real)
    requires Consistent(init, h)
    requires i < |h.state.heights|
    requires h.state.heights[i] == section.height
    ensures Consistent(init, Commit(h, DragVersion(i, DragEnd(section, lineTop))))
    ensures Undo(Commit(h, DragVersion(i, DragEnd(section, lineTop)))).state == h.state
  {
    DragVersionRestores(h.state, i, section, lineTop);
    var v := DragVersion(i, DragEnd(section, lineTop));
    CommitConsistent(init, h, v);
    UndoCommit(h, v);
  }

  /** The list shape's section layout, which the drag's handlers update in place. */
  class ListShape {
    var heights: seq<real>
    var translateY: seq<real>

    constructor (heights: seq<real>, translateY: seq<real>)
      ensures this.heights == heights && this.translateY == translateY
    {
      this.heights := heights;
      this.translateY := translateY;
    }

    function Layout(): Sections
      reads this
    {
      Sections(heights, translateY)
    }

    /** The handlers' shared update: section `i` takes height `h`, the sections after it move by `dy`. */
    method UpdateListShape(i: nat, h: real, dy: real)
      modifies this
      ensures Layout() == UpdateSections(old(Layout()), i, h, dy)
    {
      if i < |heights| {
        heights := heights[i := h];
      }
      translateY := ShiftAfter(translateY, i, dy);
    }
  }
}
