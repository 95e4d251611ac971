# Documentation page section composer

A model of the documentation `Page` component of the Fabric example app:
- how the page turns its props into an ordered list of section records (`_getPageSections`);
- how each record gets its id (`_getSectionId`);
- what the page hands to its side rail: jump links derived from the sections, the
  `related` and `contact` content, and whether there is a side rail at all (`_getSideRail`).

Modules:
- `JsValues` (js_values.dfy) holds the JavaScript semantics the page relies on:
  - truthiness;
  - `||` on optional strings;
  - `String.prototype.indexOf`;
  - `String.prototype.trim`, with the WhiteSpace and LineTerminator code points of ECMA-262, 6th edition, sections 11.2 and 11.3;
  - the decimal form of an index in a template literal.
- `PageTypes` (page_types.dfy) defines the page props and the section record.
  - The section properties the page reads are typed fields. `None` means absent or undefined.
  - Every other property sits in a map keyed by `Key`, so an object spread is a map union in which the right operand wins.
- `SectionComposer` (page_sections.dfy) holds the composer.
  - `ComposeSections` and `PushOtherSections` are the conditional pushes. `GetPageSections` adds the id loop.
  - They are proved against a reference table: the declared slots (`Slot`, `AllSlots`), the condition of each slot (`Present`) and the record pushed for it (`Build`).
  - The composed page is `Composed(p)`: the records of the present slots in declared order. With ids it is `PageSections(p, slugify)`.
- `SideRail` (side_rail.dfy) holds the side rail.
  - The jump-link loop is `CollectJumpLinks`, proved against the reference function `JumpLinks`.
  - `ProcessContent` is the blank-text rule. `GetSideRail` puts them together.
- `Page` (page.dfy) connects the two: the side rail is fed with the composed sections.

`slugify` is imported from a module that is not part of this model. It is a parameter `slugify: string -> string` of every member that needs it. Nothing is assumed about it: not injectivity, and not that it keeps the text "genericsection".

Each conditional push `cond && sections.push(record)` is written as appending `When(cond, record)`: one record when the condition holds, none otherwise.

The page's section type declarations live in a file that is not part of this model. The record fields follow what Page.tsx reads and writes.

## Behaviour of the code worth knowing

- Ids are not unique. Two caller sections without an id and with the same names get the same id whatever `slugify` does (`SameNamesSameId`). The index only separates sections that have no name at all (`GenericNamesDistinct`).
- A section whose id contains "genericsection" contributes no jump link at all. Its extra `jumpLinks` are dropped along with its own link (`LinkOfSection`).
- The examples section's `sectionName` is "Usage" (Page.tsx line 172), the same as the usage section's. Its jump link therefore reads "Usage".

## Model

| member | source | states |
|---|---|---|
| JsValues.Or | packages/example-app-base/src/components/Page/Page.tsx:261 | `a \|\| b` yields `a` when it is a non-empty string, else `b`; the result is set iff either operand is |
| JsValues.IndexOf | packages/example-app-base/src/components/Page/Page.tsx:239 | `indexOf` is -1 exactly when the text does not occur; otherwise it is the first position where it occurs |
| JsValues.Trim | packages/example-app-base/src/components/Page/Page.tsx:225 | `trim` yields an infix of the string with only trimmable characters cut from both ends, none left at either end; it is empty iff every character is trimmable |
| JsValues.DecimalString | packages/example-app-base/src/components/Page/Page.tsx:261 | the printed index is a non-empty string of decimal digits without a leading zero |
| JsValues.DecimalRoundTrip | packages/example-app-base/src/components/Page/Page.tsx:261 | reading the printed index back gives the index |
| SectionComposer.OtherRecord | packages/example-app-base/src/components/Page/Page.tsx:196-200 | a caller section over the shared fields: each of its own properties wins, the shared fields fill the rest, the renderer defaults to `OtherPageSection` |
| SectionComposer.GenericName | packages/example-app-base/src/components/Page/Page.tsx:261 | the name of an untitled section starts with the marker "genericsection" |
| SectionComposer.GenericNamesDistinct | packages/example-app-base/src/components/Page/Page.tsx:261 | untitled sections at different positions get different names before `slugify` |
| SectionComposer.Label | packages/example-app-base/src/components/Page/Page.tsx:261 | the name an id is derived from: `readableSectionName` if set, else `sectionName` if set, else the generic name; never empty |
| SectionComposer.SectionId | packages/example-app-base/src/components/Page/Page.tsx:259-261 | the id of a section: its explicit id when that is a non-empty string, else `slugify` of its label with its index; stated by the `WithIds` ensures, which every id of the page goes through |
| SectionComposer.WithIds | packages/example-app-base/src/components/Page/Page.tsx:205-208 | after the id pass every section has an id; an explicit non-empty id is kept; otherwise the id is `slugify` of the label with the section's index; no other field changes |
| SectionComposer.ComposeSections | packages/example-app-base/src/components/Page/Page.tsx:131-203 | the pushes produce exactly the records of the present slots, in declared order |
| SectionComposer.PushOtherSections | packages/example-app-base/src/components/Page/Page.tsx:194-201 | each caller section is appended once, in the caller's order, over the shared fields; nothing is appended when `otherSections` is absent |
| SectionComposer.GetPageSections | packages/example-app-base/src/components/Page/Page.tsx:98-211 | the sections returned are the composed records with their ids assigned |
| SectionComposer.FilterMembers | packages/example-app-base/src/components/Page/Page.tsx:133-203 | a slot is kept exactly when it is listed and its condition holds |
| SectionComposer.FilterOrdered | packages/example-app-base/src/components/Page/Page.tsx:133-203 | keeping only present slots preserves their relative order |
| SectionComposer.SlotsOrdered | packages/example-app-base/src/components/Page/Page.tsx:133-203 | the page's sections come in the fixed order Overview, additional content, Best Practices, Usage, Design, Examples, Implementation, caller sections in caller order, Feedback, whatever the props; no slot appears twice |
| SectionComposer.BuiltinSlot | packages/example-app-base/src/components/Page/Page.tsx:133-203 | a built-in section is on the page exactly when its condition holds |
| SectionComposer.BuiltinPresence | packages/example-app-base/src/components/Page/Page.tsx:133-203 | each built-in section's condition, written out: e.g. Best Practices iff `bestPractices` or both `dos` and `donts`; Implementation iff `propertiesTablesSources` or `jsonDocs`; Feedback iff `isFeedbackVisible` and `title` |
| SectionComposer.CallerSections | packages/example-app-base/src/components/Page/Page.tsx:194-201 | the k-th caller section is on the page exactly when the caller passed it there |
| SectionComposer.OthersBlock | packages/example-app-base/src/components/Page/Page.tsx:194-201 | the caller slots form one contiguous block, in the caller's order, right after the built-in slots that precede them, followed at most by Feedback |
| SectionComposer.OtherRecordsBlock | packages/example-app-base/src/components/Page/Page.tsx:194-201 | the records in that block are the caller sections, in the caller's order, each over the shared fields |
| SectionComposer.LeadingLength | packages/example-app-base/src/components/Page/Page.tsx:133-192 | as many built-in sections precede the caller sections as there are built-in conditions that hold |
| SectionComposer.SectionCount | packages/example-app-base/src/components/Page/Page.tsx:131-203 | the number of sections is the number of built-in conditions that hold plus the number of caller sections |
| SectionComposer.MarkdownPlacement | packages/example-app-base/src/components/Page/Page.tsx:135-136 | with additional content, its section comes right after Overview and keeps the id "markdown" through the id pass |
| SectionComposer.SameNamesSameId | packages/example-app-base/src/components/Page/Page.tsx:259-261 | two caller sections without ids and with the same names get the same id |
| SideRail.LinkText | packages/example-app-base/src/components/Page/Page.tsx:241 | a link's text is `jumpLinkName` if set, else `readableSectionName` if set, else `sectionName` |
| SideRail.Contribution | packages/example-app-base/src/components/Page/Page.tsx:239-245 | a section adds no link iff its id contains "genericsection"; otherwise it adds its own link to its id, then its extra links |
| SideRail.JumpLinksAppend | packages/example-app-base/src/components/Page/Page.tsx:237-246 | the jump links of consecutive section lists are concatenated in order |
| SideRail.SectionLinks | packages/example-app-base/src/components/Page/Page.tsx:237-246 | the links of each section sit contiguously between those of the sections before and after it |
| SideRail.LinkOfSection | packages/example-app-base/src/components/Page/Page.tsx:239-245 | a generic section removes nothing but itself from the list, its extras included; any other section's own link sits right after the links of the sections before it and points at its id |
| SideRail.CollectJumpLinks | packages/example-app-base/src/components/Page/Page.tsx:237-246 | the loop collects exactly the reference jump links |
| SideRail.ProcessContent | packages/example-app-base/src/components/Page/Page.tsx:223-235 | a non-blank string becomes markdown, a blank one becomes undefined, any other value passes through unchanged |
| SideRail.ShowSideRailProp | packages/example-app-base/src/components/Page/Page.tsx:31-33 | the default props make an undefined `showSideRail` true; stated by the `GetSideRail` ensures, where an undefined `showSideRail` always yields a side rail |
| SideRail.GetSideRail | packages/example-app-base/src/components/Page/Page.tsx:218-257 | no side rail exactly when `showSideRail` is given and falsy (undefined takes the default true); otherwise the jump links of the sections and the processed related and contact content |
| Page.PageSectionsHaveIds | packages/example-app-base/src/components/Page/Page.tsx:205-208 | every composed section has an id before the side rail reads it |
| Page.Render | packages/example-app-base/src/components/Page/Page.tsx:54-66 | the page renders the composed sections with their ids; there is no side rail exactly when `showSideRail` is given and falsy; otherwise the side rail gets the jump links of those very sections and the processed related and contact content |
| Page.MarkdownJumpLink | packages/example-app-base/src/components/Page/Page.tsx:136 | the additional-content section has exactly one jump link, titled `addlContentTitle`, pointing at "markdown" |
| Page.UnnamedSectionHidden | packages/example-app-base/src/components/Page/Page.tsx:239 | a caller section with no id and no names is named by its position; when `slugify` keeps the marker it gets no jump link |

## Left out

- The test file packages/office-ui-fabric-react/src/components/ComponentExamples.test.tsx: test plumbing (file discovery, mocking, snapshot rendering) with no logic of the page.
- React rendering: the JSX output, class names, `PageHeader`, `Markdown`, `ScrollBars` and `SideRail` belong to other components. Only the data handed to them is modelled. `MarkdownOf` stands for the markdown element.
- `_getPageHeader` and `_pageContent`: pure rendering.
- Mount timers (`componentDidMount`, `componentWillUnmount`, `isMountedOffset`): asynchronous UI timing.
- The stagger delay `sectionIndex * 0.05` seconds: floating-point presentation only.
- The body of `slugify`: it is not part of this model, so it is a parameter.
- Numbers are integers. NaN and fractional values are not modelled, so their truthiness is not covered.
- SectionComposer.OtherRecord: a caller section whose `renderAs` is explicitly undefined is modelled like one without `renderAs`, so the record gets `OtherPageSection`. In the code the spread copies undefined, and `_pageContent` then falls back to `OtherPageSection` when rendering.
- A caller section's extra properties are keyed by name. Names the page itself uses are the `Key` constructors, so `Extra` names exclude them.
- SideRail.CollectJumpLinks: the jump-link loop is a method of its own, called by `GetSideRail`, rather than inline.
- SectionComposer.PushOtherSections: the `forEach` over `otherSections` is a method of its own that takes and returns the section list. In the code it pushes onto the shared array.
- The in-place update `sections[i].id = …` is modelled on a sequence of values. Section objects are not aliased anywhere else, so nothing observes the difference.
- JsValues.IndexOf: strings are sequences of Unicode code points, so positions count code points where JavaScript counts UTF-16 code units, and lone surrogates are not modelled. Page.tsx line 239 only compares the result with -1, so no behaviour of the page is lost.
