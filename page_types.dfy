/** The data the documentation page works on: its props, the section records it
    composes, and the jump links it hands to the side rail. */
module PageTypes {
  import opened JsValues

  /** The component a section is drawn with (`renderAs`). */
  datatype Renderer =
    | OverviewSection
    | MarkdownSection
    | BestPracticesSection
    | ExamplesSection
    | ImplementationSection
    | OtherPageSection
    | FeedbackSection
    | Custom(ref: nat)  // any other component a caller names in one of its own sections

  /** A side-rail navigation entry: the text shown and the section id it points at.
      The text is whatever `||` produced, so it can be undefined or empty. */
  datatype JumpLink = JumpLink(text: Option<string>, url: string)

  /** The section properties the page itself reads; they live in typed fields of `Section`. */
  const SectionKeys: set<string> :=
    {"renderAs", "id", "sectionName", "readableSectionName", "jumpLinkName", "jumpLinks"}

  /** The other section properties the page writes: the shared page fields, content,
      and the payload of each built-in renderer. */
  const PageKeys: set<string> :=
    {"fileNamePrefix", "componentUrl", "platform", "title", "content", "bestPractices", "dos",
     "donts", "exampleKnobs", "examples", "allowNativeProps", "nativePropsElement",
     "allowNativePropsForComponentName", "propertiesTablesSources", "hideImplementationTitle",
     "jsonDocs"}

  /** The name of a property that only a caller's section carries (className, style, ...). */
  type ExtraName = s: string | s !in SectionKeys && s !in PageKeys witness "className"

  /** The name of a section property other than those in `SectionKeys`. */
  datatype Key =
    | FileNamePrefix | ComponentUrl | Platform | Title | Content
    | BestPracticesText | Dos | Donts | ExampleKnobs | ExampleList
    | AllowNativeProps | NativePropsElement | AllowNativePropsForComponentName
    | PropertiesTablesSources | HideImplementationTitle | JsonDocs
    | Extra(name: ExtraName)

  /** The other properties of a section object. A key bound to `Undefined` is present
      with the value undefined, which matters when one object is spread over another. */
  type Fields = map<Key, Value>

  /** A section object. `None` in a typed field is an absent or undefined property. */
  datatype Section = Section(
    renderAs: Option<Renderer>,
    id: Option<string>,
    sectionName: Option<string>,
    readableSectionName: Option<string>,
    jumpLinkName: Option<string>,
    jumpLinks: Option<seq<JumpLink>>,
    fields: Fields)

  /** The props of the page. Props whose type the page never inspects are plain values. */
  datatype PageProps = PageProps(
    allowNativeProps: Value,
    allowNativePropsForComponentName: Value,
    bestPractices: Value,
    design: Value,
    donts: Value,
    dos: Value,
    exampleKnobs: Value,
    examples: Value,
    fileNamePrefix: Value,
    isFeedbackVisible: Value,
    addlContent: Value,
    addlContentTitle: Option<string>,
    nativePropsElement: Value,
    otherSections: Option<seq<Section>>,
    overview: Value,
    componentUrl: Value,
    platform: Value,
    propertiesTablesSources: Value,
    hideImplementationTitle: Value,
    jsonDocs: Value,
    title: Value,
    usage: Value,
    related: Value,
    contact: Value,
    showSideRail: Value)
}
