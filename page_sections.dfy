/** Composition of a page's sections: which sections a page has, in which order,
    what each one holds, and the id each one is given. */
module SectionComposer {
  import opened JsValues
  import opened PageTypes

  /** Prefix of the id of a section that has no title. */
  const GenericSection: string := "genericsection"

  // ---------------------------------------------------------------------------
  // The section records

  /** The page fields every section receives. */
  function SharedFields(p: PageProps): Fields {
    map[FileNamePrefix := p.fileNamePrefix, ComponentUrl := p.componentUrl,
        Platform := p.platform, Title := p.title]
  }

  function OverviewRecord(p: PageProps): Section {
    Section(Some(OverviewSection), None, Some("Overview"), None, None, None,
            SharedFields(p)[Content := p.overview])
  }

  /** The additional markdown section: titled by `addlContentTitle`, with the fixed id "markdown". */
  function MarkdownRecord(p: PageProps): Section {
    Section(Some(MarkdownSection), Some("markdown"), p.addlContentTitle, None, None, None,
            SharedFields(p)[Content := p.addlContent])
  }

  function BestPracticesRecord(p: PageProps): Section {
    Section(Some(BestPracticesSection), None, Some("Best Practices"), None, None, None,
            SharedFields(p)[BestPracticesText := p.bestPractices][Dos := p.dos][Donts := p.donts])
  }

  function UsageRecord(p: PageProps): Section {
    Section(Some(MarkdownSection), None, Some("Usage"), Some("Usage Guidelines"), None, None,
            SharedFields(p)[Content := p.usage])
  }

  function DesignRecord(p: PageProps): Section {
    Section(Some(MarkdownSection), None, Some("Design"), Some("Design Guidelines"), None, None,
            SharedFields(p)[Content := p.design])
  }

  /** The examples section; its short name is "Usage", as the page writes it. */
  function ExamplesRecord(p: PageProps): Section {
    Section(Some(ExamplesSection), None, Some("Usage"), None, None, None,
            SharedFields(p)[ExampleKnobs := p.exampleKnobs][ExampleList := p.examples])
  }

  function ImplementationRecord(p: PageProps): Section {
    Section(Some(ImplementationSection), None, Some("Implementation"), None, None, None,
            SharedFields(p)[AllowNativeProps := p.allowNativeProps]
                           [NativePropsElement := p.nativePropsElement]
                           [AllowNativePropsForComponentName := p.allowNativePropsForComponentName]
                           [PropertiesTablesSources := p.propertiesTablesSources]
                           [HideImplementationTitle := p.hideImplementationTitle]
                           [JsonDocs := p.jsonDocs])
  }

  /** `{ renderAs: OtherPageSection, ...sectionProps, ...u }`: a caller's section over
      the shared fields, its own properties winning, drawn with `OtherPageSection`
      unless it names a renderer. */
  function OtherRecord(p: PageProps, u: Section): (r: Section)
    ensures r.renderAs == (if u.renderAs.Some? then u.renderAs else Some(OtherPageSection))
    ensures r.id == u.id && r.sectionName == u.sectionName
    ensures r.readableSectionName == u.readableSectionName
    ensures r.jumpLinkName == u.jumpLinkName && r.jumpLinks == u.jumpLinks
    ensures r.fields.Keys == SharedFields(p).Keys + u.fields.Keys
    ensures forall k :: k in u.fields ==> r.fields[k] == u.fields[k]
    ensures forall k :: k in SharedFields(p) && k !in u.fields ==> r.fields[k] == SharedFields(p)[k]
  {
    u.(renderAs := if u.renderAs.Some? then u.renderAs else Some(OtherPageSection),
       fields := SharedFields(p) + u.fields)
  }

  function FeedbackRecord(p: PageProps): Section {
    Section(Some(FeedbackSection), None, Some("Feedback"), None, None, None, SharedFields(p))
  }

  // ---------------------------------------------------------------------------
  // The reference composition: declared slots, each present under its own condition

  /** The places a section can take on a page; `Other(k, u)` is the caller's k-th section `u`. */
  datatype Slot =
    | Overview | AddlMarkdown | BestPractices | Usage | Design | Examples | Implementation
    | Other(index: nat, section: Section)
    | Feedback

  /** The caller's own sections (`otherSections`, none when it is absent). */
  function Others(p: PageProps): seq<Section> {
    p.otherSections.GetOr([])
  }

  /** Position of a slot's group in the declared order. */
  function Ordinal(s: Slot): nat {
    match s
    case Overview => 0
    case AddlMarkdown => 1
    case BestPractices => 2
    case Usage => 3
    case Design => 4
    case Examples => 5
    case Implementation => 6
    case Other(_, _) => 7
    case Feedback => 8
  }

  /** The declared page order: by group, and the caller's sections in the caller's order. */
  predicate Before(a: Slot, b: Slot) {
    Ordinal(a) < Ordinal(b) || (a.Other? && b.Other? && a.index < b.index)
  }

  /** The condition under which the page has the section of slot `s`. */
  predicate Present(p: PageProps, s: Slot) {
    match s
    case Overview => Truthy(p.overview)
    case AddlMarkdown => Truthy(p.addlContent)
    case BestPractices => Truthy(p.bestPractices) || (Truthy(p.dos) && Truthy(p.donts))
    case Usage => Truthy(p.usage)
    case Design => Truthy(p.design)
    case Examples => Truthy(p.examples)
    case Implementation => Truthy(p.propertiesTablesSources) || Truthy(p.jsonDocs)
    case Other(_, _) => true
    case Feedback => Truthy(p.isFeedbackVisible) && Truthy(p.title)
  }

  /** The slots of the first `n` caller sections. */
  function OtherSlots(p: PageProps, n: nat): (r: seq<Slot>)
    requires n <= |Others(p)|
    ensures |r| == n && forall k :: 0 <= k < n ==> r[k] == Other(k, Others(p)[k])
  {
    seq(n, (k: int) requires 0 <= k < n => Other(k, Others(p)[k]))
  }

  /** The built-in slots that come before the caller's sections, in declared order. */
  const LeadingSlots: seq<Slot> :=
    [Overview, AddlMarkdown, BestPractices, Usage, Design, Examples, Implementation]

  /** Every slot a page with these props could fill, in declared order. */
  function AllSlots(p: PageProps): seq<Slot> {
    LeadingSlots + OtherSlots(p, |Others(p)|) + [Feedback]
  }

  /** One slot, kept when it is present. */
  function Opt(p: PageProps, s: Slot): seq<Slot> {
    if Present(p, s) then [s] else []
  }

  /** The present slots of `ss`, in the order of `ss`. */
  function Filter(p: PageProps, ss: seq<Slot>): seq<Slot>
    decreases |ss|
  {
    if ss == [] then [] else Filter(p, ss[..|ss| - 1]) + Opt(p, ss[|ss| - 1])
  }

  /** The slots the page fills, in page order. */
  function Slots(p: PageProps): seq<Slot> {
    Filter(p, AllSlots(p))
  }

  /** The record the page pushes for a slot. */
  function Build(p: PageProps, s: Slot): Section {
    match s
    case Overview => OverviewRecord(p)
    case AddlMarkdown => MarkdownRecord(p)
    case BestPractices => BestPracticesRecord(p)
    case Usage => UsageRecord(p)
    case Design => DesignRecord(p)
    case Examples => ExamplesRecord(p)
    case Implementation => ImplementationRecord(p)
    case Other(_, u) => OtherRecord(p, u)
    case Feedback => FeedbackRecord(p)
  }

  function BuildAll(p: PageProps, ss: seq<Slot>): (r: seq<Section>)
    ensures |r| == |ss| && forall i :: 0 <= i < |ss| ==> r[i] == Build(p, ss[i])
  {
    seq(|ss|, i requires 0 <= i < |ss| => Build(p, ss[i]))
  }

  /** The sections of the page before ids are assigned. */
  function Composed(p: PageProps): seq<Section> {
    BuildAll(p, Slots(p))
  }

  // ---------------------------------------------------------------------------
  // Ids

  /** The id of a section written without a title: the marker and its index. */
  function GenericName(index: nat): (r: string)
    ensures OccursAt(r, GenericSection, 0)
  {
    GenericSection + "-" + DecimalString(index)
  }

  /** Before `slugify`, the generic names of different positions differ. */
  lemma GenericNamesDistinct(i: nat, j: nat)
    requires i != j
    ensures GenericName(i) != GenericName(j)
  {
    var prefix := GenericSection + "-";
    if GenericName(i) == GenericName(j) {
      assert DecimalString(i) == GenericName(i)[|prefix|..];
      assert DecimalString(j) == GenericName(j)[|prefix|..];
      DecimalRoundTrip(i);
      DecimalRoundTrip(j);
    }
  }

  /** What a section without an explicit id is named after:
      `readableSectionName || sectionName || "genericsection-<index>"`. */
  function Label(s: Section, index: nat): (r: string)
    ensures r != ""
    ensures IsSet(s.readableSectionName) ==> r == s.readableSectionName.value
    ensures !IsSet(s.readableSectionName) && IsSet(s.sectionName) ==> r == s.sectionName.value
    ensures !IsSet(s.readableSectionName) && !IsSet(s.sectionName) ==> r == GenericName(index)
  {
    var named := Or(s.readableSectionName, s.sectionName);
    if IsSet(named) then named.value else GenericName(index)
  }

  /** `_getSectionId`: the explicit id when it is set, else `slugify` of the label. */
  function SectionId(s: Section, index: nat, slugify: string -> string): string {
    if IsSet(s.id) then s.id.value else slugify(Label(s, index))
  }

  /** The sections after the id pass: section i keeps everything but its id, which
      becomes its explicit id when that is set and `slugify` of its label otherwise. */
  function WithIds(ss: seq<Section>, slugify: string -> string): (r: seq<Section>)
    ensures |r| == |ss|
    ensures forall i :: 0 <= i < |ss| ==> r[i].id.Some? && r[i] == ss[i].(id := r[i].id)
    ensures forall i :: 0 <= i < |ss| && IsSet(ss[i].id) ==> r[i].id == ss[i].id
    ensures forall i :: 0 <= i < |ss| && !IsSet(ss[i].id) ==> r[i].id == Some(slugify(Label(ss[i], i)))
  {
    seq(|ss|, i requires 0 <= i < |ss| => ss[i].(id := Some(SectionId(ss[i], i, slugify))))
  }

  /** The page's sections as the page renders them. */
  function PageSections(p: PageProps, slugify: string -> string): seq<Section> {
    WithIds(Composed(p), slugify)
  }


  // ---------------------------------------------------------------------------
  // The composer

  /** The record `r` when `c` holds, else nothing: what `c && sections.push(r)` adds. */
  function When(c: bool, r: Section): seq<Section> {
    if c then [r] else []
  }

  /** The pushes of `_getPageSections`: each built-in section whose condition holds,
      then every caller section, then the feedback section. */
  method ComposeSections(p: PageProps) returns (sections: seq<Section>)
    ensures sections == Composed(p)
  {
    LeadingConditions(p);
    sections := [];
    sections := sections + When(Truthy(p.overview), OverviewRecord(p));
    assert [] + When(Truthy(p.overview), OverviewRecord(p)) == When(Truthy(p.overview), OverviewRecord(p));
    sections := sections + When(Truthy(p.addlContent), MarkdownRecord(p));
    sections := sections + When(Truthy(p.bestPractices) || (Truthy(p.dos) && Truthy(p.donts)), BestPracticesRecord(p));
    sections := sections + When(Truthy(p.usage), UsageRecord(p));
    sections := sections + When(Truthy(p.design), DesignRecord(p));
    sections := sections + When(Truthy(p.examples), ExamplesRecord(p));
    sections := sections + When(Truthy(p.propertiesTablesSources) || Truthy(p.jsonDocs), ImplementationRecord(p));
    sections := PushOtherSections(p, sections);
    sections := sections + When(Truthy(p.isFeedbackVisible) && Truthy(p.title), FeedbackRecord(p));
    ComposedChain(p);
  }

  /** `_getPageSections`: compose the sections, then give every section an id. */
  method GetPageSections(p: PageProps, slugify: string -> string) returns (sections: seq<Section>)
    ensures sections == PageSections(p, slugify)
  {
    sections := ComposeSections(p);
    // Ensure every section has an id.
    ghost var composed := sections;
    for i := 0 to |sections|
      invariant |sections| == |composed|
      invariant forall j :: 0 <= j < i ==> sections[j] == composed[j].(id := Some(SectionId(composed[j], j, slugify)))
      invariant forall j :: i <= j < |sections| ==> sections[j] == composed[j]
    {
      sections := sections[i := sections[i].(id := Some(SectionId(sections[i], i, slugify)))];
    }
  }

  /** `otherSections && otherSections.forEach(...)`: push every caller section, in the
      caller's order, over the shared fields. */
  method PushOtherSections(p: PageProps, s0: seq<Section>) returns (sections: seq<Section>)
    ensures sections == s0 + BuildAll(p, OtherSlots(p, |Others(p)|))
  {
    sections := s0;
    if p.otherSections.Some? {
      var others := p.otherSections.value;
      for k := 0 to |others|
        invariant sections == s0 + BuildAll(p, OtherSlots(p, k))
      {
        OthersStep(p, k);
        sections := sections + [OtherRecord(p, others[k])];
      }
    } else {
      assert BuildAll(p, OtherSlots(p, 0)) == [];
    }
  }

  /** The tests and records the composer writes out are those of the slot table. */
  lemma LeadingConditions(p: PageProps)
    ensures When(Truthy(p.overview), OverviewRecord(p))
            == When(Present(p, Overview), Build(p, Overview))
    ensures When(Truthy(p.addlContent), MarkdownRecord(p))
            == When(Present(p, AddlMarkdown), Build(p, AddlMarkdown))
    ensures When(Truthy(p.bestPractices) || (Truthy(p.dos) && Truthy(p.donts)), BestPracticesRecord(p))
            == When(Present(p, BestPractices), Build(p, BestPractices))
    ensures When(Truthy(p.usage), UsageRecord(p)) == When(Present(p, Usage), Build(p, Usage))
    ensures When(Truthy(p.design), DesignRecord(p)) == When(Present(p, Design), Build(p, Design))
    ensures When(Truthy(p.examples), ExamplesRecord(p)) == When(Present(p, Examples), Build(p, Examples))
    ensures When(Truthy(p.propertiesTablesSources) || Truthy(p.jsonDocs), ImplementationRecord(p))
            == When(Present(p, Implementation), Build(p, Implementation))
    ensures When(Truthy(p.isFeedbackVisible) && Truthy(p.title), FeedbackRecord(p))
            == When(Present(p, Feedback), Build(p, Feedback))
  {
  }

  // ---------------------------------------------------------------------------
  // Lemmas that connect the composer to the slot table

  lemma {:induction false} FilterAppend(p: PageProps, a: seq<Slot>, b: seq<Slot>)
    ensures Filter(p, a + b) == Filter(p, a) + Filter(p, b)
    decreases |b|
  {
    if b == [] {
      assert a + b == a;
    } else {
      var b' := b[..|b| - 1];
      assert (a + b)[..|a + b| - 1] == a + b';
      assert (a + b)[|a + b| - 1] == b[|b| - 1];
      FilterAppend(p, a, b');
    }
  }

  lemma {:induction false} BuildAllAppend(p: PageProps, a: seq<Slot>, b: seq<Slot>)
    ensures BuildAll(p, a + b) == BuildAll(p, a) + BuildAll(p, b)
  {
  }

  /** Filtering one more slot. */
  lemma FilterSnoc(p: PageProps, ss: seq<Slot>, s: Slot)
    ensures Filter(p, ss + [s]) == Filter(p, ss) + Opt(p, s)
  {
  }

  /** The records of one more filtered slot. */
  lemma BuildSnoc(p: PageProps, ss: seq<Slot>, s: Slot)
    ensures BuildAll(p, Filter(p, ss + [s])) == BuildAll(p, Filter(p, ss)) + When(Present(p, s), Build(p, s))
  {
    FilterSnoc(p, ss, s);
    BuildAllAppend(p, Filter(p, ss), Opt(p, s));
  }

  /** Every caller section is present, so filtering keeps them all. */
  lemma {:induction false} FilterOthers(p: PageProps, n: nat)
    requires n <= |Others(p)|
    ensures Filter(p, OtherSlots(p, n)) == OtherSlots(p, n)
  {
    if n > 0 {
      assert OtherSlots(p, n)[..n - 1] == OtherSlots(p, n - 1);
      FilterOthers(p, n - 1);
    }
  }

  /** The records of the first `k + 1` caller sections. */
  lemma OthersStep(p: PageProps, k: nat)
    requires k < |Others(p)|
    ensures BuildAll(p, OtherSlots(p, k + 1)) == BuildAll(p, OtherSlots(p, k)) + [OtherRecord(p, Others(p)[k])]
  {
  }

  /** The records of the present leading slots, one condition after the other. */
  lemma LeadingRecords(p: PageProps)
    ensures BuildAll(p, Filter(p, LeadingSlots))
            == When(Present(p, Overview), Build(p, Overview))
             + When(Present(p, AddlMarkdown), Build(p, AddlMarkdown))
             + When(Present(p, BestPractices), Build(p, BestPractices))
             + When(Present(p, Usage), Build(p, Usage))
             + When(Present(p, Design), Build(p, Design))
             + When(Present(p, Examples), Build(p, Examples))
             + When(Present(p, Implementation), Build(p, Implementation))
  {
    var l0: seq<Slot> := [];
    var l1 := l0 + [Overview];
    var l2 := l1 + [AddlMarkdown];
    var l3 := l2 + [BestPractices];
    var l4 := l3 + [Usage];
    var l5 := l4 + [Design];
    var l6 := l5 + [Examples];
    var l7 := l6 + [Implementation];
    assert l7 == LeadingSlots;
    BuildSnoc(p, l0, Overview);
    BuildSnoc(p, l1, AddlMarkdown);
    BuildSnoc(p, l2, BestPractices);
    BuildSnoc(p, l3, Usage);
    BuildSnoc(p, l4, Design);
    BuildSnoc(p, l5, Examples);
    BuildSnoc(p, l6, Implementation);
    assert BuildAll(p, Filter(p, l0)) == [];
    assert [] + When(Present(p, Overview), Build(p, Overview)) == When(Present(p, Overview), Build(p, Overview));
  }

  /** The page's slots: the present leading ones, every caller section, then Feedback if present. */
  lemma SlotsSplit(p: PageProps)
    ensures Slots(p) == Filter(p, LeadingSlots) + OtherSlots(p, |Others(p)|) + Opt(p, Feedback)
  {
    var n := |Others(p)|;
    FilterSnoc(p, LeadingSlots + OtherSlots(p, n), Feedback);
    FilterAppend(p, LeadingSlots, OtherSlots(p, n));
    FilterOthers(p, n);
  }

  /** The composed records, in the order the composer pushes them. */
  lemma ComposedChain(p: PageProps)
    ensures Composed(p)
            == When(Present(p, Overview), Build(p, Overview))
             + When(Present(p, AddlMarkdown), Build(p, AddlMarkdown))
             + When(Present(p, BestPractices), Build(p, BestPractices))
             + When(Present(p, Usage), Build(p, Usage))
             + When(Present(p, Design), Build(p, Design))
             + When(Present(p, Examples), Build(p, Examples))
             + When(Present(p, Implementation), Build(p, Implementation))
             + BuildAll(p, OtherSlots(p, |Others(p)|))
             + When(Present(p, Feedback), Build(p, Feedback))
  {
    var n := |Others(p)|;
    SlotsSplit(p);
    BuildAllAppend(p, Filter(p, LeadingSlots) + OtherSlots(p, n), Opt(p, Feedback));
    BuildAllAppend(p, Filter(p, LeadingSlots), OtherSlots(p, n));
    LeadingRecords(p);
  }

  // ---------------------------------------------------------------------------
  // What the page promises about its sections

  /** Slots listed in strictly increasing declared order. */
  predicate Ordered(ss: seq<Slot>) {
    forall i, j :: 0 <= i < j < |ss| ==> Before(ss[i], ss[j])
  }

  /** 1 when `b` holds, else 0. */
  function Count(b: bool): nat {
    if b then 1 else 0
  }

  /** How many built-in sections come before the caller's sections. */
  function LeadingCount(p: PageProps): nat {
    Count(Truthy(p.overview)) + Count(Truthy(p.addlContent))
    + Count(Truthy(p.bestPractices) || (Truthy(p.dos) && Truthy(p.donts)))
    + Count(Truthy(p.usage)) + Count(Truthy(p.design)) + Count(Truthy(p.examples))
    + Count(Truthy(p.propertiesTablesSources) || Truthy(p.jsonDocs))
  }

  /** A slot survives filtering exactly when it is listed and present. */
  lemma {:induction false} FilterMembers(p: PageProps, ss: seq<Slot>, x: Slot)
    ensures x in Filter(p, ss) <==> x in ss && Present(p, x)
    decreases |ss|
  {
    if ss != [] {
      var init := ss[..|ss| - 1];
      FilterMembers(p, init, x);
      assert ss == init + [ss[|ss| - 1]];
    }
  }

  /** Filtering keeps the relative order of the slots it keeps. */
  lemma {:induction false} FilterOrdered(p: PageProps, ss: seq<Slot>)
    requires Ordered(ss)
    ensures Ordered(Filter(p, ss))
    decreases |ss|
  {
    if ss != [] {
      var init := ss[..|ss| - 1];
      var last := ss[|ss| - 1];
      assert Ordered(init) by {
        forall i, j | 0 <= i < j < |init| ensures Before(init[i], init[j]) {
          assert init[i] == ss[i] && init[j] == ss[j];
        }
      }
      FilterOrdered(p, init);
      var f := Filter(p, init);
      forall i | 0 <= i < |f| ensures Before(f[i], last) {
        FilterMembers(p, init, f[i]);
        var m :| 0 <= m < |init| && init[m] == f[i];
        assert ss[m] == f[i];
      }
      var g := f + Opt(p, last);
      forall i, j | 0 <= i < j < |g| ensures Before(g[i], g[j]) {
        if j < |f| {
          assert g[i] == f[i] && g[j] == f[j];
        } else {
          assert g[i] == f[i] && g[j] == last;
        }
      }
    }
  }

  /** The slot at position `i` of `AllSlots(p)`. */
  lemma AllSlotsAt(p: PageProps, i: nat)
    requires i < |AllSlots(p)|
    ensures i < |LeadingSlots| ==> AllSlots(p)[i] == LeadingSlots[i] && Ordinal(LeadingSlots[i]) == i
    ensures |LeadingSlots| <= i < |LeadingSlots| + |Others(p)| ==>
              AllSlots(p)[i] == Other(i - |LeadingSlots|, Others(p)[i - |LeadingSlots|])
    ensures i == |LeadingSlots| + |Others(p)| ==> AllSlots(p)[i] == Feedback
  {
  }

  lemma AllSlotsOrdered(p: PageProps)
    ensures Ordered(AllSlots(p))
  {
    var all := AllSlots(p);
    forall i, j | 0 <= i < j < |all| ensures Before(all[i], all[j]) {
      AllSlotsAt(p, i);
      AllSlotsAt(p, j);
    }
  }

  /** The page's sections come in declared order: Overview, additional content, Best
      Practices, Usage, Design, Examples, Implementation, the caller's sections in the
      caller's order, Feedback; so no slot appears twice. */
  lemma SlotsOrdered(p: PageProps)
    ensures Ordered(Slots(p))
    ensures forall i, j :: 0 <= i < j < |Slots(p)| ==> Slots(p)[i] != Slots(p)[j]
  {
    AllSlotsOrdered(p);
    FilterOrdered(p, AllSlots(p));
  }

  /** Each built-in section is on the page exactly when its condition holds. */
  lemma BuiltinPresence(p: PageProps)
    ensures Overview in Slots(p) <==> Truthy(p.overview)
    ensures AddlMarkdown in Slots(p) <==> Truthy(p.addlContent)
    ensures BestPractices in Slots(p) <==> Truthy(p.bestPractices) || (Truthy(p.dos) && Truthy(p.donts))
    ensures Usage in Slots(p) <==> Truthy(p.usage)
    ensures Design in Slots(p) <==> Truthy(p.design)
    ensures Examples in Slots(p) <==> Truthy(p.examples)
    ensures Implementation in Slots(p) <==> Truthy(p.propertiesTablesSources) || Truthy(p.jsonDocs)
    ensures Feedback in Slots(p) <==> Truthy(p.isFeedbackVisible) && Truthy(p.title)
  {
    BuiltinSlot(p, Overview);
    BuiltinSlot(p, AddlMarkdown);
    BuiltinSlot(p, BestPractices);
    BuiltinSlot(p, Usage);
    BuiltinSlot(p, Design);
    BuiltinSlot(p, Examples);
    BuiltinSlot(p, Implementation);
    BuiltinSlot(p, Feedback);
  }

  /** A built-in slot is on the page exactly when it is present. */
  lemma BuiltinSlot(p: PageProps, s: Slot)
    requires !s.Other?
    ensures s in Slots(p) <==> Present(p, s)
  {
    var all := AllSlots(p);
    FilterMembers(p, all, s);
    if s == Feedback {
      AllSlotsAt(p, |all| - 1);
    } else {
      AllSlotsAt(p, Ordinal(s));
    }
  }

  /** The page holds the k-th caller section `u` exactly when the caller passed it there. */
  lemma CallerSections(p: PageProps, k: nat, u: Section)
    ensures Other(k, u) in Slots(p) <==> k < |Others(p)| && u == Others(p)[k]
  {
    var all := AllSlots(p);
    FilterMembers(p, all, Other(k, u));
    if k < |Others(p)| && u == Others(p)[k] {
      AllSlotsAt(p, |LeadingSlots| + k);
    }
    if Other(k, u) in all {
      var i :| 0 <= i < |all| && all[i] == Other(k, u);
      AllSlotsAt(p, i);
    }
  }

  /** Where the caller's sections sit: one contiguous block, in the caller's order,
      right after the built-in sections that precede them and followed at most by Feedback. */
  lemma OthersBlock(p: PageProps)
    ensures var start := LeadingCount(p);
            var n := |Others(p)|;
            start + n <= |Slots(p)| <= start + n + 1
            && (forall k :: 0 <= k < n ==> Slots(p)[start + k] == Other(k, Others(p)[k]))
            && (|Slots(p)| == start + n + 1 ==> Slots(p)[start + n] == Feedback)
  {
    var n := |Others(p)|;
    SlotsSplit(p);
    LeadingLength(p);
    var last := Opt(p, Feedback);
    assert |last| <= 1 && (|last| == 1 ==> last[0] == Feedback);
    ThreeParts(Slots(p), Filter(p, LeadingSlots), OtherSlots(p, n), last, LeadingCount(p));
  }

  /** Positions in a list made of a prefix of length `start`, a block and at most one more element. */
  lemma ThreeParts(all: seq<Slot>, a: seq<Slot>, b: seq<Slot>, c: seq<Slot>, start: nat)
    requires all == a + b + c && |a| == start && |c| <= 1
    ensures start + |b| <= |all| <= start + |b| + 1
    ensures forall k :: 0 <= k < |b| ==> all[start + k] == b[k]
    ensures |all| == start + |b| + 1 ==> all[start + |b|] == c[0]
  {
  }

  /** The records of the caller's sections fill that block, each over the shared fields. */
  lemma OtherRecordsBlock(p: PageProps)
    ensures var start := LeadingCount(p);
            start + |Others(p)| <= |Composed(p)|
            && forall k :: 0 <= k < |Others(p)| ==> Composed(p)[start + k] == OtherRecord(p, Others(p)[k])
  {
    OthersBlock(p);
    var start := LeadingCount(p);
    forall k | 0 <= k < |Others(p)| ensures Composed(p)[start + k] == OtherRecord(p, Others(p)[k]) {
      assert Composed(p)[start + k] == Build(p, Slots(p)[start + k]);
    }
  }

  /** As many slots lead the page as there are built-in conditions that hold. */
  lemma LeadingLength(p: PageProps)
    ensures |Filter(p, LeadingSlots)| == LeadingCount(p)
  {
    LeadingRecords(p);
    LeadingConditions(p);
  }

  /** The number of sections: one per built-in condition that holds, plus one per caller section. */
  lemma SectionCount(p: PageProps, slugify: string -> string)
    ensures |PageSections(p, slugify)|
            == LeadingCount(p) + |Others(p)| + Count(Truthy(p.isFeedbackVisible) && Truthy(p.title))
  {
    SlotsSplit(p);
    LeadingLength(p);
  }

  /** The additional-content section keeps its id "markdown" and comes right after Overview. */
  lemma MarkdownPlacement(p: PageProps, slugify: string -> string)
    requires Truthy(p.addlContent)
    ensures var i := Count(Truthy(p.overview));
            i < |PageSections(p, slugify)| && PageSections(p, slugify)[i] == MarkdownRecord(p)
  {
    var i := Count(Truthy(p.overview));
    var l2 := [Overview, AddlMarkdown];
    var l1 := [Overview];
    FilterSnoc(p, [], Overview);
    FilterSnoc(p, l1, AddlMarkdown);
    assert l1 == [] + [Overview];
    assert l2 == l1 + [AddlMarkdown];
    assert Filter(p, l2) == Opt(p, Overview) + [AddlMarkdown];
    assert LeadingSlots == l2 + LeadingSlots[2..];
    FilterAppend(p, l2, LeadingSlots[2..]);
    SlotsSplit(p);
    assert Slots(p)[i] == AddlMarkdown;
  }

  /** Sections are not guaranteed distinct ids: two caller sections without an id and
      with the same names get the same id, whatever `slugify` does. */
  lemma SameNamesSameId(p: PageProps, slugify: string -> string, k1: nat, k2: nat)
    requires k1 < k2 < |Others(p)|
    requires !IsSet(Others(p)[k1].id) && !IsSet(Others(p)[k2].id)
    requires Others(p)[k1].readableSectionName == Others(p)[k2].readableSectionName
    requires Others(p)[k1].sectionName == Others(p)[k2].sectionName
    requires IsSet(Or(Others(p)[k1].readableSectionName, Others(p)[k1].sectionName))
    ensures var start := LeadingCount(p);
            start + k2 < |PageSections(p, slugify)|
            && PageSections(p, slugify)[start + k1].id == PageSections(p, slugify)[start + k2].id
  {
    OtherRecordsBlock(p);
  }
}
