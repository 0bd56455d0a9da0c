# thinreports-editor core, modelled in Dafny

This project models the document-model core of the thinreports layout editor
and proves properties of the model:

- the structure serializer, which turns a shape's SVG element into its JSON
  description (`shapestructure.js`);
- the list-section helpers, which let the user resize a list's sections by
  dragging a separator and record each drag as one undoable version
  (`listsectionhelper.js`);
- the page-number shape: its attribute-backed fields and defaults, its label,
  its property-pane validators, the (up, down) pairs its edits commit, its
  clone snapshot and its reported properties (`pagenumbershape.js`);
- the rectangle shape: reading it from its element, its clone snapshot, the
  radius edit's version pair, its reported properties and how the property
  pane shows them (`rectshape.js`);
- the image tool's file check and bounded polling for the image's natural size
  (`toolaction/imageaction.js`);
- the zoom tool's ±10 step and its ALT-driven cursor mode (`toolaction/zoomaction.js`);
- the key-validated settings store (`settings.js`) and the first-match child
  lookup by class name (`editor.js`).

Modules follow the source files: `Editor`, `ShapeStructure` (with its
properties in `ShapeStructureProperties` and `ShapeStructureListProperties`),
`ListSectionHelper`, `PageNumberShape`, `RectShape`, `ImageAction`,
`ZoomAction` and `Settings`. Four helper modules support them:

- `Wrappers` holds `Option` and `Result`.
- `Js` models the JavaScript `Number()` conversion (with NaN), arithmetic
  that propagates NaN, and truthiness.
- `Dom` models elements with ordered attributes, `getAttribute` and `removeChildren`.
- `Versioning` models a version as an (up, down) pair of state transformers,
  and an undo/redo history with a cursor.

The serializer works on values. An element is a datatype. A JavaScript
object is an ordered list of fields: assignment replaces in place or
appends, as property insertion order does. Thrown `TypeError`s become `Err`
results. The loops of the source are methods proved against the functions
that specify them: the attribute loop, the content loop and the text-line
loop. The list serializer returns the list element with its disabled
sections emptied, since the source removes their children from the live DOM.

State that the source updates in place is a class with `modifies` clauses:
the separator, the section helper, the list shape's section layout, the
page-number shape, the rectangle shape, the zoom tool and the settings store.

Collaborators are parameters: font metrics, the `numberWithPrecision`
rounding, `XMLSerializer` with its fix-ups, the image-block position
defaults, the text style's default overflow type and default kerning,
`String` on numbers (for the kerning and the start page), the pixel unit,
the property pane's default stroke width and its view of the stroke dash type.

## Model

| member | source | states |
|---|---|---|
| Editor.FindIndexByClass | core/thin/editor/editor.js:37-39 | the index of the first element whose class equals the name; no earlier element has it; -1 exactly when none has it |
| Editor.GetElementByClassNameForChildNodes | core/thin/editor/editor.js:36-41 | a found element has the class and is the first such one in the list; nothing is found exactly when no element has the class |
| Editor.FindIndexByClassSameClasses | core/thin/editor/editor.js:36-41 | the lookup depends only on the elements' attributes, position by position |
| ShapeStructure.PassThrough | core/thin/editor/shapestructure.js:498-506 | exactly the attributes whose name does not start with `x-` and is not `class` or `style` are handed on |
| ShapeStructure.PassThroughAppend | core/thin/editor/shapestructure.js:500-505 | the filter distributes over concatenation, so it keeps attribute order |
| ShapeStructure.ForEachShapeAttribute | core/thin/editor/shapestructure.js:498-506 | the index loop stores each pass-through attribute in order; the result is the filtered attributes applied on top of the object |
| ShapeStructure.ShapeAttributeOverrides | core/thin/editor/shapestructure.js:268-271 | a copied attribute overrides whatever the object held under its key, unless a later copied attribute shares that key |
| ShapeStructure.ShapeAttributeKeeps | core/thin/editor/shapestructure.js:268-271 | a key that no copied attribute maps to keeps its earlier value |
| ShapeStructure.SerializeToContent | core/thin/editor/shapestructure.js:479-490 | the loop's content is the concatenated fixed-up markup of the elements, in order |
| ShapeStructure.ContentOfAppend | core/thin/editor/shapestructure.js:479-490 | the content of two runs of elements is the content of the first followed by that of the second |
| ShapeStructure.TextLines | core/thin/editor/shapestructure.js:118-125 | the text lines are exactly the children tagged `text` |
| ShapeStructure.CollectTextLines | core/thin/editor/shapestructure.js:115-125 | the forEach loop gathers exactly the `text` children and their first child's data, or fails as that data access does |
| ShapeStructure.RunPrefix | core/thin/editor/shapestructure.js:463 | the longest prefix made of `-`, digits, `,` and `.`; the next character is not one of them |
| ShapeStructure.Split | core/thin/editor/shapestructure.js:463 | splitting always yields at least one piece |
| ShapeStructure.Sections | core/thin/editor/shapestructure.js:382-396 | the right-to-left walk over the list's children returns one child for each child it was given |
| ShapeStructure.GetSectionName | core/thin/editor/shapestructure.js:345-347 | a class id `s-list-<name>` gives `<name>` |
| ShapeStructure.GetEnabledOfSection | core/thin/editor/shapestructure.js:355-359 | fails exactly when the section has no class; otherwise the list's `x-<name>-enabled` attribute when set and non-empty, else 'true' |
| ShapeStructure.FirstRun | core/thin/editor/shapestructure.js:463 | the match fails exactly when the text holds no `-`, digit, `,` or `.` |
| ShapeStructure.GetTranslateCoordinate | core/thin/editor/shapestructure.js:457-472 | no `transform` gives (0, 0); it fails exactly when a `transform` holds no coordinate character, as `match(...)[0]` on null throws |
| ShapeStructure.SerializeForListForSection | core/thin/editor/shapestructure.js:421-450 | a disabled section gives {} and loses every child node; an enabled one is left as it was, fails exactly when its transform cannot be read, and gives `height`, `svg`, `translate` in that order |
| ShapeStructure.SerializeForList | core/thin/editor/shapestructure.js:368-411 | a list without a detail section fails; on success the list keeps its tag, attributes and number of children |
| ShapeStructure.FormatObject | core/thin/editor/shapestructure.js:198-223 | `base` and `type` come first, in that order, and at most one settings object follows |
| ShapeStructure.Serialize | core/thin/editor/shapestructure.js:40-80 | only list and text shapes can fail; every other shape is left as it was, and a list keeps its tag and attributes |
| ShapeStructureProperties.SerializeDispatch | core/thin/editor/shapestructure.js:49-77 | each known class id selects its serializer over the common head; any other class takes the default branch |
| ShapeStructureProperties.HeadFields | core/thin/editor/shapestructure.js:41-47 | the head holds `type`, `id`, `display` (defaulting to 'true') and `desc`, in that order |
| ShapeStructureProperties.SerializeKeepsHead | core/thin/editor/shapestructure.js:40-80 | no serializer overwrites a head key; for a list, this holds when no section is named like one |
| ShapeStructureProperties.SerializeHead | core/thin/editor/shapestructure.js:41-47 | every description carries the class as `type`, `x-id` as `id`, `x-display` or 'true' as `display`, and `x-desc` as `desc`; for a list, when no section is named like one of these keys |
| ShapeStructureProperties.SerializeOtherShape | core/thin/editor/shapestructure.js:65-76 | an unknown class gives the head plus `svg = {tag, attrs = pass-through}` and never fails |
| ShapeStructureProperties.LinesDataMeaning | core/thin/editor/shapestructure.js:118-125 | gathering the line texts fails exactly when some line has no child; otherwise it gives each line's text in order |
| ShapeStructureProperties.TextFieldsRead | core/thin/editor/shapestructure.js:93-132 | the text serializer stores `line-height` (the number of `x-line-height` when present, else blank), `valign` (`x-valign` or blank), the texts, the box, the attributes and the lines' content under their keys |
| ShapeStructureProperties.SerializeForTextFails | core/thin/editor/shapestructure.js:118-125 | the text serializer fails exactly when a `text` child has no child node |
| ShapeStructureProperties.SerializeForTextResult | core/thin/editor/shapestructure.js:89-134 | on success: `line-height` and `valign` with their blank defaults, the line texts in order, the box, the text lines' markup, the pass-through attributes with `space` renamed, and nothing under `space` |
| ShapeStructureProperties.SerializeTextShape | core/thin/editor/shapestructure.js:56-58 | the same for a text shape under `serialize` (line height, vertical alignment, texts, markup, attributes), whose shape is left as it was |
| ShapeStructureProperties.TextSpaceRenamed | core/thin/editor/shapestructure.js:107-113 | a text shape's `space` attribute ends up under `xml:space` |
| ShapeStructureProperties.TblockMode | core/thin/editor/shapestructure.js:183-187 | multi-line mode is on iff `x-multiple` is 'true'; it selects `textArea` and a blank format type |
| ShapeStructureProperties.SerializeForTblockResult | core/thin/editor/shapestructure.js:189-281 | `multiple` defaults to 'false'; `valign` is `x-valign` or blank; `line-height` is the number of `x-line-height` when present, else blank; box, format, value, ref-id and overflow take their attributes, blank when unset; svg is {tag, attrs} |
| ShapeStructureProperties.TblockSingleLineAttrs | core/thin/editor/shapestructure.js:243-256 | single-line: x follows the anchor, y is the rounded top plus the ascent, `xml:space` is 'preserve', each unless a copied attribute overrides it |
| ShapeStructureProperties.TblockMultiLineAttrs | core/thin/editor/shapestructure.js:257-264 | multi-line: x is the left, y the rounded top less (font height − line height), then width and height, each unless overridden |
| ShapeStructureProperties.TblockAttrOverride | core/thin/editor/shapestructure.js:266-271 | a copied attribute overrides the computed svg attribute of the same name |
| ShapeStructureProperties.FormatObjectMeaning | core/thin/editor/shapestructure.js:198-223 | `{base, type}` plus a nested object only for datetime, number or padding. The object is given for every input: datetime `{format: x-format-datetime-format or blank}`; number `{delimiter or blank, precision}`; padding `{length, char or '0', direction or 'L'}`. Each number is `Number(attr)`, with a falsy result (0 or NaN) replaced by 0. Unset entries take these defaults |
| ShapeStructureProperties.SerializeForPageNumberResult | core/thin/editor/shapestructure.js:302-336 | box, then start-at, target, format and overflow defaulting to ''; svg is a `text` with the computed attributes |
| ShapeStructureProperties.PageNumberAttrsMeaning | core/thin/editor/shapestructure.js:309-327 | x is the rounded left + width/2 for `middle`, the rounded left + width for `end`, else left; y is the rounded top plus the ascent; copied attributes override both |
| ShapeStructureProperties.PageNumberAttrOverride | core/thin/editor/shapestructure.js:324-327 | a copied attribute overrides the computed svg attribute of the same name |
| ShapeStructureProperties.PageNumberExample | core/thin/editor/shapestructure.js:309-322 | a worked case: left 10, top 20, width 100 and ascent 9 give x = 10, 60 or 110 by anchor, and y = 29 |
| ShapeStructureProperties.SerializeForImageblockResult | core/thin/editor/shapestructure.js:143-171 | the box, the two positions with their defaults, and an `image` whose attributes repeat the box |
| ShapeStructureProperties.TranslatePair | core/thin/editor/shapestructure.js:466-468 | `translate(a,b)` gives (`Number(a)`, `Number(b)`) for any comma-free coordinate texts, decimals included |
| ShapeStructureProperties.TranslateSingle | core/thin/editor/shapestructure.js:464-465 | `translate(v)` gives (`Number(v)`, `Number(v)`) for any non-empty comma-free coordinate text |
| ShapeStructureProperties.TranslateDecimal | core/thin/editor/shapestructure.js:462-468 | the decimal translation `translate(0,12.5)` gives (0, 12.5) |
| ShapeStructureProperties.TranslateOutcomes | core/thin/editor/shapestructure.js:458-463 | no transform gives (0, 0); a transform without a coordinate character fails, because the match returns null |
| ShapeStructureListProperties.SectionMeaning | core/thin/editor/shapestructure.js:421-450 | a disabled section gives {} and is emptied; an enabled one is kept and gives {height, svg, translate}, with svg = {tag: the section's tag, content: the serialized markup of its shapes}; its y is reduced by (section top − detail top) only when a detail top is passed |
| ShapeStructureListProperties.SectionsChildren | core/thin/editor/shapestructure.js:382-396 | after the walk, every disabled section is emptied and every other child is unchanged, position by position |
| ShapeStructureListProperties.SectionsNeedClasses | core/thin/editor/shapestructure.js:383-386 | a `g` child without a class makes the list serializer fail, as `getSectionName(null)` throws |
| ShapeStructureListProperties.SectionsEntries | core/thin/editor/shapestructure.js:385-394 | with distinct section names, each section's object sits under its name, and each non-detail section stores `<name>-enabled` |
| ShapeStructureListProperties.SectionsStable | core/thin/editor/shapestructure.js:382-396 | walking the children that a first walk left behind gives the same result again |
| ShapeStructureListProperties.ListTailMeaning | core/thin/editor/shapestructure.js:397-408 | the tail fails only when the header entry cannot be read; it stores the bare svg, `content-height` = `height` − header height, and `page-break` defaulting to 'false' |
| ShapeStructureListProperties.SerializeForListContentHeight | core/thin/editor/shapestructure.js:402-407 | for a list with distinct sections and a header, `content-height` is the list's `height` less the header's height, or less 0 for a disabled header |
| ShapeStructureListProperties.SerializeForListPageBreak | core/thin/editor/shapestructure.js:397-408 | a list's `page-break` defaults to 'false', and its svg is the bare tag with empty attributes |
| ShapeStructureListProperties.SerializeForListShape | core/thin/editor/shapestructure.js:424-426 | the list element afterwards has the same tag and attributes, its disabled sections emptied and everything else kept |
| ShapeStructureListProperties.ListNeedsDetail | core/thin/editor/shapestructure.js:374-375 | a list without a detail section cannot be serialized |
| ShapeStructureListProperties.SerializeStable | core/thin/editor/shapestructure.js:40-80 | serializing the shape that a first pass left behind gives the same description and the same shape |
| ListSectionHelper.Separator.constructor | core/thin/editor/listsectionhelper.js:378-381 | a new separator is hidden and stores a relative position of (0, 0) |
| ListSectionHelper.Separator.SetLeft | core/thin/editor/listsectionhelper.js:544-562 | the line moves to `left` and the handles follow it; the stored left is `left` − parent translate x |
| ListSectionHelper.Separator.SetTop | core/thin/editor/listsectionhelper.js:568-575 | the line moves to `top`; each handle is centred on it; the stored top is `top` − parent translate y |
| ListSectionHelper.Separator.SetWidth | core/thin/editor/listsectionhelper.js:581-586 | the line takes the width, and the separator stores it as given |
| ListSectionHelper.SectionShape.constructor | core/thin/editor/listsectionhelper.js:173-175 | a section with the given top, height and enabled flag |
| ListSectionHelper.Activated | core/thin/editor/listsectionhelper.js:183-208 | activation sets the flag; the separator is shown and draggable iff the section is enabled; the selector layer is shown for an enabled section |
| ListSectionHelper.Inactivated | core/thin/editor/listsectionhelper.js:211-229 | a no-op when inactive; otherwise every layer, the label and the separator are hidden and the flag cleared |
| ListSectionHelper.InactivatedIdempotent | core/thin/editor/listsectionhelper.js:211-229 | deactivating twice is deactivating once |
| ListSectionHelper.DrawVisibility | core/thin/editor/listsectionhelper.js:191-196 | the draw layer takes the flag when one is given, else is shown iff the current tool is not the selector |
| ListSectionHelper.SectionHelper.constructor | core/thin/editor/listsectionhelper.js:49-102 | a new helper is inactive, with its separator and its label's minimum size |
| ListSectionHelper.SectionHelper.Update | core/thin/editor/listsectionhelper.js:158-176 | the layers take the bounds; the label is shown iff it fits; the separator goes to (left, top + height) with the bounds' width; the section takes top and height |
| ListSectionHelper.SectionHelper.Active | core/thin/editor/listsectionhelper.js:183-208 | the new visibility state is `Activated` of the old one; positions are unchanged |
| ListSectionHelper.SectionHelper.Inactive | core/thin/editor/listsectionhelper.js:211-229 | the new visibility state is `Inactivated` of the old one; positions are unchanged |
| ListSectionHelper.DragLimit | core/thin/editor/listsectionhelper.js:462-474 | the limit spans the list horizontally; its top is the shapes' bottom, or the section top when that is 0; its bottom is the section's bottom plus the blank range |
| ListSectionHelper.DragEnd | core/thin/editor/listsectionhelper.js:480-487 | Δ = line top − section bottom; the new height is old + Δ, so the section ends at the line; the inverse translation is −Δ |
| ListSectionHelper.DragWithinLimit | core/thin/editor/listsectionhelper.js:462-487 | a drag ending inside its limits gives a height between 0 and the old height plus the blank range |
| ListSectionHelper.ShiftAfterCompose | core/thin/editor/listsectionhelper.js:500 | two shifts of the sections after the dragged one add up, and a shift by −dy takes back a shift by dy |
| ListSectionHelper.UpdateSections | core/thin/editor/listsectionhelper.js:498-500 | the dragged section takes the height, every later section moves by dy, and nothing else changes |
| ListSectionHelper.DragVersionRestores | core/thin/editor/listsectionhelper.js:524-533 | up then down restores the layout exactly (height back, zero net translation); redoing gives the dragged layout again |
| ListSectionHelper.DragCommitConsistent | core/thin/editor/listsectionhelper.js:524-533 | committing the drag's one version keeps the history consistent, and undoing it gives the layout before the drag |
| ListSectionHelper.ListShape.constructor | core/thin/editor/listsectionhelper.js:498-500 | a list layout with the given heights and translations |
| ListSectionHelper.ListShape.UpdateListShape | core/thin/editor/listsectionhelper.js:498-500 | the handlers' shared update changes the layout to `UpdateSections` of the old one |
| Versioning.Commit | core/thin/editor/listsectionhelper.js:524-533 | committing drops the redo tail, appends the version, and applies its up |
| Versioning.Undo | core/thin/editor/listsectionhelper.js:530-532 | undo applies the down of the version before the cursor and moves the cursor back; with nothing to undo it changes nothing |
| Versioning.Redo | core/thin/editor/listsectionhelper.js:526-528 | redo applies the up of the version at the cursor and moves the cursor on; with nothing to redo it changes nothing |
| Versioning.ReplayPrefix | core/thin/editor/listsectionhelper.js:524-533 | replaying one more version applies its up to the replayed state |
| Versioning.InitialConsistent | core/thin/editor/listsectionhelper.js:524-533 | the empty history is consistent |
| Versioning.CommitConsistent | core/thin/editor/listsectionhelper.js:524-533 | committing a version whose down undoes its up keeps the history consistent |
| Versioning.UndoConsistent | core/thin/editor/listsectionhelper.js:530-532 | undo keeps the history consistent |
| Versioning.RedoConsistent | core/thin/editor/listsectionhelper.js:526-528 | redo keeps the history consistent |
| Versioning.UndoCommit | core/thin/editor/listsectionhelper.js:524-533 | undo right after a commit gives back the state and cursor from before it |
| Versioning.RedoUndo | core/thin/editor/listsectionhelper.js:524-533 | in a consistent history, redo after undo gives back the same history |
| Versioning.UndoRedo | core/thin/editor/listsectionhelper.js:524-533 | in a consistent history, undo after redo gives back the same history |
| Versioning.UndoTimes | core/thin/editor/listsectionhelper.js:530-532 | n undos move the cursor back by n, stopping at 0 |
| Versioning.RedoTimes | core/thin/editor/listsectionhelper.js:526-528 | n redos move the cursor on by n, stopping at the end |
| Versioning.UndoTimesConsistent | core/thin/editor/listsectionhelper.js:530-532 | any number of undos keeps the history consistent |
| Versioning.UndoRedoSymmetry | core/thin/editor/listsectionhelper.js:524-533 | n undos followed by n redos give back the same history |
| PageNumberShape.AttributeOr | core/thin/editor/pagenumbershape.js:293-354 | a set, non-empty attribute text is returned, anything else gives the default |
| PageNumberShape.OverflowType | core/thin/editor/pagenumbershape.js:293-296 | the stored overflow text, or the default; never blank when the default is not |
| PageNumberShape.StartAt | core/thin/editor/pagenumbershape.js:312-315 | the stored text when non-empty, else the number 1; never falsy |
| PageNumberShape.Format | core/thin/editor/pagenumbershape.js:332-335 | the stored format text, or '{page}'; never blank |
| PageNumberShape.Target | core/thin/editor/pagenumbershape.js:351-354 | the stored target text; blank exactly when no target is set |
| PageNumberShape.SetAttribute | core/thin/editor/pagenumbershape.js:283-287 | the attribute holds the written text, and every other attribute and field is unchanged |
| PageNumberShape.WithFormat | core/thin/editor/pagenumbershape.js:321-326 | the format attribute and the label text take the same value; nothing else changes |
| PageNumberShape.FormatReadsBack | core/thin/editor/pagenumbershape.js:321-335 | a non-empty format reads back, a blank one as '{page}'; start-at, target and overflow are unaffected |
| PageNumberShape.Contains | core/thin/editor/pagenumbershape.js:667 | true exactly when the pattern occurs in the value |
| PageNumberShape.HasPlaceholder | core/thin/editor/pagenumbershape.js:667 | true exactly when `{page}` or `{total}` occurs in the value |
| PageNumberShape.FormatValid | core/thin/editor/pagenumbershape.js:663-668 | blank passes (`setAllowBlank(true)`); other text passes exactly when `{page}` or `{total}` occurs in it |
| PageNumberShape.NewFormat | core/thin/editor/pagenumbershape.js:675 | the committed format is the input, or '{page}' for a blank input; never blank |
| PageNumberShape.NewFormatHasPlaceholder | core/thin/editor/pagenumbershape.js:663-675 | every format that passes the validator (blank included) is committed as one holding `{page}` or `{total}` |
| PageNumberShape.ValidateTarget | core/thin/editor/pagenumbershape.js:698-716 | blank passes; an unknown id is rejected as not found; an id of a non-list shape is rejected as not a list; every other id passes |
| PageNumberShape.NewStartAtValues | core/thin/editor/pagenumbershape.js:643 | a blank start page commits the number 1, and an integer's text commits that integer |
| PageNumberShape.StartAtEditReadsBack | core/thin/editor/pagenumbershape.js:302-315 | a start page edited to an integer's text, 0 included, reads back as that text, since the attribute holds text |
| PageNumberShape.NormalizeKerningInteger | core/thin/editor/pagenumbershape.js:583-585 | an integer's text is committed unchanged when `String` writes integers in decimal |
| PageNumberShape.OverflowUndo | core/thin/editor/pagenumbershape.js:616-627 | undo gives back the overflow the getter reported and touches no other attribute; the state comes back exactly when the attribute was set |
| PageNumberShape.StartAtUndo | core/thin/editor/pagenumbershape.js:641-656 | undo writes back the text of what the getter reported and touches no other attribute; a stored start page comes back exactly; an unset one comes back as the text `String(1)` |
| PageNumberShape.FormatUndo | core/thin/editor/pagenumbershape.js:678-688 | up commits the new format and down restores the old one; the label shows the format after both |
| PageNumberShape.KerningUndo | core/thin/editor/pagenumbershape.js:587-596 | up sets the normalized kerning, and down restores the state exactly |
| PageNumberShape.ShapeIdUndo | core/thin/editor/pagenumbershape.js:752-762 | up sets the shape id, and down restores the state exactly |
| PageNumberShape.TargetVersion | core/thin/editor/pagenumbershape.js:721-736 | as written, the up handler writes the target and keeps the shape id; the down handler writes the old target into the shape id and leaves every attribute as it finds it |
| PageNumberShape.CorrectedTargetVersion | core/thin/editor/pagenumbershape.js:721-736 | with `setTarget` in the down handler, both handlers write the target attribute and keep the shape id |
| PageNumberShape.TargetUndoAsWritten | core/thin/editor/pagenumbershape.js:726-736 | as written, undoing a target edit leaves the new target and puts the old target into the shape id |
| PageNumberShape.TargetUndoCounterexample | core/thin/editor/pagenumbershape.js:733 | target 'list1' changed to 'list2' and undone still reads 'list2', and the shape id becomes 'list1' |
| PageNumberShape.CorrectedTargetUndo | core/thin/editor/pagenumbershape.js:726-736 | with `setTarget` in the down handler, undo restores the target and keeps the shape id |
| PageNumberShape.LabelCentred | core/thin/editor/pagenumbershape.js:895-897 | the label's x, left + floor(width/2), lies within one unit left of the shape's centre |
| PageNumberShape.PageNumberShape.constructor | core/thin/editor/pagenumbershape.js:203-208 | a new page number has no attributes, id or description, and its label shows '{page}' |
| PageNumberShape.PageNumberShape.CanResizeHeight | core/thin/editor/pagenumbershape.js:129-131 | a page number's height cannot be resized |
| PageNumberShape.PropertiesOf | core/thin/editor/pagenumbershape.js:779-799 | the fifteen keys in order, each with its value: bounds, display, font colour, size, family, anchor and kerning from the fields, and overflow, start-at, format and target as their getters report them |
| PageNumberShape.PageNumberShape.Properties | core/thin/editor/pagenumbershape.js:779-799 | answers `PropertiesOf` the shape's current fields |
| PageNumberShape.PageNumberShape.CloneSourceOf | core/thin/editor/pagenumbershape.js:370-391 | the capture holds size, font, kerning, display and overflow, and nothing else |
| PageNumberShape.PageNumberShape.SetLeft | core/thin/editor/pagenumbershape.js:260-263 | left changes and the label's x follows (left + floor(width/2)); nothing else changes |
| PageNumberShape.PageNumberShape.SetTop | core/thin/editor/pagenumbershape.js:274-277 | top changes and the label's y follows (top + the label's font size); nothing else changes |
| PageNumberShape.PageNumberShape.SetHeight | core/thin/editor/pagenumbershape.js:267-270 | height changes and the label's y is placed again under the same top |
| PageNumberShape.PageNumberShape.SetOverflowType | core/thin/editor/pagenumbershape.js:283-296 | the attribute is written; the getter then reports it, or the default when it is blank |
| PageNumberShape.PageNumberShape.SetStartAt | core/thin/editor/pagenumbershape.js:302-315 | the value is written as text; the getter then reports that text, or 1 when it is blank; a non-empty string reads back as itself |
| PageNumberShape.PageNumberShape.SetFormat | core/thin/editor/pagenumbershape.js:321-335 | the attribute is written and the label shows the same value; the getter reports it, or '{page}' |
| PageNumberShape.PageNumberShape.SetTarget | core/thin/editor/pagenumbershape.js:341-354 | the attribute is written, and the getter reports exactly that text |
| PageNumberShape.PageNumberShape.SetShapeId | core/thin/editor/pagenumbershape.js:254-256 | only the shape id changes |
| PageNumberShape.PageNumberShape.SetKerning | core/thin/editor/pagenumbershape.js:589 | only the kerning changes |
| PageNumberShape.CreateClone | core/thin/editor/pagenumbershape.js:401-422 | a new shape at the paste position, its label placed for it, with the captured fields; format, start page and target read as their defaults, id and description blank |
| RectShape.Properties | core/thin/editor/rectshape.js:311-327 | the twelve keys in order, each with its value: left, top, width, height, display, fill, stroke, stroke width, dash type, radius, id and description |
| RectShape.ShownRect | core/thin/editor/rectshape.js:348-367 | a fill or stroke of 'none' and the default stroke width show as blank; the dash type shows as its stroke value (`getStrokeValueFromType`); every other field shows as reported |
| RectShape.ReadElement | core/thin/editor/rectshape.js:73-87 | display iff `x-display` is 'true'; the radius is `Number(rx)`; fill, stroke, stroke width, id and description come from their attributes |
| RectShape.FromElementRadius | core/thin/editor/rectshape.js:73-87 | no `rx` gives radius 0, and `rx="none"` gives NaN |
| RectShape.RadiusUndo | core/thin/editor/rectshape.js:271-287 | up sets `Number(input)` as the radius and nothing else; down gives back exactly the rectangle before the edit |
| RectShape.RectShape.constructor | core/thin/editor/rectshape.js:33-36 | a new rectangle with the given bounds and style, no id or description, not displayed |
| RectShape.RectShape.FromElement | core/thin/editor/rectshape.js:73-87 | the shape created from an element is `ReadElement` of it |
| RectShape.RectShape.CloneSourceOf | core/thin/editor/rectshape.js:109-122 | the capture holds size, style (radius, dash type, stroke, stroke width, fill) and display, not position, id or description |
| RectShape.RectShape.SetRounded | core/thin/editor/rectshape.js:278 | only the radius changes |
| RectShape.RectShape.SetInitShapeProperties | core/thin/editor/rectshape.js:375-377 | only the bounds change |
| RectShape.CreateClone | core/thin/editor/rectshape.js:131-149 | a new rectangle at the paste position with the captured size, style and display, and no id or description |
| ImageAction.FirstReady | core/thin/editor/toolaction/imageaction.js:71 | the first tick at which the image is ready, or the number of ticks when there is none |
| ImageAction.HandleMouseDown | core/thin/editor/toolaction/imageaction.js:60-99 | the file check and the polling loop produce exactly the reference outcome `Expected` |
| ImageAction.CancelledIffNoValidFile | core/thin/editor/toolaction/imageaction.js:60-64 | cancelled iff there is no valid file; no file, no alert; an invalid file gives one alert and no polling |
| ImageAction.NeverReady | core/thin/editor/toolaction/imageaction.js:68-90 | an image never ready gets 6 checks, 5 restarts, 1 undo, a second end of the action and 1 alert |
| ImageAction.ReadyInTime | core/thin/editor/toolaction/imageaction.js:68-74 | an image ready at tick k ≤ 5 loads there after k restarts, with no undo or alert |
| ImageAction.Bounded | core/thin/editor/toolaction/imageaction.js:76-87 | whatever the ticks, at most 6 checks, 1 undo and 1 alert; an undo happens exactly when loading fails |
| ZoomAction.ZoomStep | core/thin/editor/toolaction/zoomaction.js:91-94 | with ALT the zoom goes down by 10, without it up by 10 |
| ZoomAction.ZoomStepInverse | core/thin/editor/toolaction/zoomaction.js:91-94 | an ALT click undoes a plain click, and the other way round |
| ZoomAction.ZoomAfterClicksNet | core/thin/editor/toolaction/zoomaction.js:91-94 | a run of clicks moves the zoom by 10 × (plain clicks − ALT clicks) |
| ZoomAction.ModeAfter | core/thin/editor/toolaction/zoomaction.js:73-80 | an ALT key event sets zoom-out iff `altKey`; any other key leaves the mode |
| ZoomAction.NoAltKeepsMode | core/thin/editor/toolaction/zoomaction.js:73 | a run of key events without ALT leaves the mode as it was |
| ZoomAction.LastAltDecides | core/thin/editor/toolaction/zoomaction.js:73-80 | after a run of key events, the mode is zoom-out iff the last ALT event had `altKey` |
| ZoomAction.ZoomTool.constructor | core/thin/editor/toolaction/zoomaction.js:124 | the tool starts in zoom-in mode |
| ZoomAction.ZoomTool.Activate | core/thin/editor/toolaction/zoomaction.js:119-124 | activating the tool again sets zoom-in mode |
| ZoomAction.ZoomTool.SetZoomMode | core/thin/editor/toolaction/zoomaction.js:72-81 | the mode becomes `ModeAfter` of the old mode and the event |
| ZoomAction.ZoomTool.MouseDown | core/thin/editor/toolaction/zoomaction.js:88-96 | the zoom asked for is `ZoomStep` of the current zoom |
| Settings.ValidateKey | core/thin/settings.js:87-91 | succeeds exactly for the five declared keys, and fails with 'Invalid configuration key' |
| Settings.Lookup | core/thin/settings.js:77-80 | fails iff the key is undeclared; otherwise the stored value, or null when unset |
| Settings.Stored | core/thin/settings.js:70-73 | fails iff the key is undeclared; otherwise the key takes the value and every other key keeps its value |
| Settings.DefaultUnit | core/thin/settings.js:63-66 | the stored unit when it is set and non-empty, the pixel unit otherwise |
| Settings.InvalidKeyIgnoresStore | core/thin/settings.js:38-49 | an undeclared key fails the same way whatever the store holds, so the store is never read or written |
| Settings.SetThenGet | core/thin/settings.js:70-80 | after `set(k, v)` with a declared key, `get(k)` gives v and every other key gives what it gave before |
| Settings.SetDefaultUnitThenGet | core/thin/settings.js:55-66 | after `setDefaultUnit(u)`, `getDefaultUnit` gives u, or the pixel unit when u is empty |
| Settings.Settings.constructor | core/thin/settings.js:27-29 | the store starts as the given map |
| Settings.Settings.Get | core/thin/settings.js:77-80 | the answer is `Lookup` of the store |
| Settings.Settings.Set | core/thin/settings.js:70-73 | the store becomes `Stored` of the old store; on an undeclared key it fails and nothing is written |
| Settings.Settings.SetDefaultUnit | core/thin/settings.js:55-57 | exactly `set('default_unit', u)`, which cannot fail |
| Settings.Settings.GetDefaultUnit | core/thin/settings.js:63-66 | the answer is `DefaultUnit` of the store |
| Js.IntToStringRoundTrip | core/thin/editor/pagenumbershape.js:643 | `Number()` of an integer's decimal text is that integer |

## Left out

- Font metrics (`thin.core.Font.getAscent/getHeight/getLineHeight`) are parameters of the serializer, not computed.
- `thin.numberWithPrecision` is a rounding parameter. The separator, the drag and the zoom step use exact values: zoom is an integer, and geometry uses `real`.
- `Number()` reads only `[sign]digits[.digits]` and surrounding ASCII whitespace. Exponents, hex, `Infinity` and other whitespace are read as NaN.
- The serializer's non-string arguments to `Number()` are not modelled: `Number(true)` is 1 and `Number([])` is 0. The only such case is a header entry whose `height` is not a number.
- `goog.json.serialize`, `XMLSerializer`, `fixSerializationXmlSpace/Href` and `LayoutStructure.serializeShapes` are not modelled. The description is a JSON value, not its text. Section content is `ContentOf` over the `Env` collaborators `toXml`, `fixXmlSpace` and `fixHref`, applied to what `serializeShapes` returns.
- DOM text nodes are modelled only as the data of a `text` element's first child.
- Font metrics on a missing `font-family` receive `null`, as the source does.
- The page-number setters write `String(v)` of their argument into the attribute. `String` on numbers is the `numberText` parameter; strings, null and booleans are written out.
- Property-pane construction, control updates (`getPropertyControl(...).setValue`), toolbar, cursor and CSS calls, focus handling and event wiring are left out as UI wiring.
- Inside `updateListShape`, only the section height and the translation of the following sections are modelled. The translation is `dy` added to each later section's y. The `listHelper.update` refresh, the guide and outline refresh and the `updateProperties` calls are left out, because they redraw the UI.
- `layout.calculatePasteCoordinate` and `setBounds` are not modelled. The clone creators take the paste position as a parameter.
- PageNumberShape.CreateClone: the source sets the clone's bounds with one `setBounds` call (pagenumbershape.js:407), whose body is not part of this model. The model assumes that `setBounds` sets width and height before left and top. Only under that order does the label's x, which is re-placed by `setLeft` alone, come out as `LabelX(pasteX, src.width)`.
- ShapeStructure.SerializeForList: a disabled section is emptied in place (`goog.dom.removeChildren`, shapestructure.js:425). A later step can still throw: a classless `g`, an unreadable transform, or the header read at shapestructure.js:402-406. In the source, the sections emptied so far stay emptied after the throw. The model's `Err` carries no element, so that side effect of a failed serialization is not captured.
- The drag-start limits are computed, but not enforced. Enforcement belongs to the dragger, which is not in the core. `DragWithinLimit` states what follows when it is enforced.
- The version manager (`normalVersioning`, `undo`, `redo`) is not part of the core. `Versioning` is an abstract history of (up, down) pairs with a cursor.
- `goog.Delay` is modelled as a sequence of readiness observations, one per tick. When the observations run out, the outcome is `Polling`. `adjustToAllowSize`, `setFile` and the guide are not modelled.
- HTML5 local storage behind `Settings` is a map. Persistence and the singleton getter are not modelled.
- `thin.editor.hash32`, `serializeToXML` and `getActiveWorkspace` in `editor.js` are left out: a library wrapper, a foreign serializer and a UI lookup.
- `application/platform/jsextimage.cpp` and `jsextimage.h` are Qt file I/O and are not part of this model.
- Several constants are not defined in the modelled files, and are parameters instead: the pixel unit, `TextStyle.DEFAULT_OVERFLOWTYPE`, `TextStyle.DEFAULT_KERNING` and the pane's default stroke width.
- `goog.events.KeyCodes.ALT` is not defined in the modelled files. The model fixes it at 18, the browser key code for ALT.
- `ModuleElement.getStrokeValueFromType` is not part of this model. The property pane's view of the dash type is a parameter of `RectShape.ShownRect`.
- The class ids of text, text block, image block and list shapes are not defined in the modelled files. The model uses 's-text', 's-tblock', 's-iblock' and 's-list'.
- `ListShape.ClassIds` is not defined in the modelled files. The model takes the header and detail suffixes to be '-header' and '-detail'.
- `TextStyle.HorizonAlignType` is not defined in the modelled files. The model takes the middle and end anchors to be the SVG values 'middle' and 'end'.
- PageNumberShape.NormalizeKerningInteger: `String(Number(k))` is a parameter. The lemma covers only integer text, given a `String` that writes integers in decimal.
- ShapeStructureListProperties.SectionsEntries: the per-section entries are proved only for lists whose section class names are distinct, as the editor creates them.
- ShapeStructureProperties.SerializeKeepsHead: for a list, it is proved only when no section is named like a head key.
- ShapeStructureProperties.SerializeHead: for a list, it is proved only when no section is named `type`, `id`, `display` or `desc`. The source stores each section under its name, so such a section would replace that head field.

## Findings

| source | as written | input that shows it | evidently intended | confidence | as-written member | corrected member |
|---|---|---|---|---|---|---|
| core/thin/editor/pagenumbershape.js:733 | the target edit's down handler calls `setShapeId(oldTarget)` | a page number with id 'pageno1' and target 'list1', edited to target 'list2' and then undone: the target stays 'list2' and the id becomes 'list1' | the down handler calls `setTarget(oldTarget)`, as every other edit restores its own field | not executed | PageNumberShape.TargetUndoCounterexample | PageNumberShape.CorrectedTargetUndo |
