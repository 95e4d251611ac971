/** What the page hands to its side rail: the jump links derived from its sections,
    the related and contact content, and whether there is a side rail at all. */
module SideRail {
  import opened JsValues
  import opened PageTypes
  import opened SectionComposer

  // ---------------------------------------------------------------------------
  // Jump links

  /** Every section has been given an id (the id pass of the composer guarantees it). */
  predicate HasIds(ss: seq<Section>) {
    forall i :: 0 <= i < |ss| ==> ss[i].id.Some?
  }

  /** The text of a section's own jump link: `jumpLinkName || readableSectionName || sectionName`. */
  function LinkText(s: Section): (r: Option<string>)
    ensures IsSet(s.jumpLinkName) ==> r == s.jumpLinkName
    ensures !IsSet(s.jumpLinkName) && IsSet(s.readableSectionName) ==> r == s.readableSectionName
    ensures !IsSet(s.jumpLinkName) && !IsSet(s.readableSectionName) ==> r == s.sectionName
  {
    Or(Or(s.jumpLinkName, s.readableSectionName), s.sectionName)
  }

  /** The links one section adds: nothing when its id contains the generic marker,
      else its own link to its id followed by its extra `jumpLinks`. */
  function Contribution(s: Section): (r: seq<JumpLink>)
    requires s.id.Some?
    ensures r == [] <==> Contains(s.id.value, GenericSection)
    ensures !Contains(s.id.value, GenericSection) ==>
              r[0] == JumpLink(LinkText(s), s.id.value) && r[1..] == s.jumpLinks.GetOr([])
  {
    if IndexOf(s.id.value, GenericSection) == -1 then
      [JumpLink(LinkText(s), s.id.value)] + s.jumpLinks.GetOr([])
    else
      []
  }

  /** The jump links of a list of sections: the contributions of its sections, in order. */
  function JumpLinks(ss: seq<Section>): seq<JumpLink>
    requires HasIds(ss)
    decreases |ss|
  {
    if ss == [] then [] else JumpLinks(ss[..|ss| - 1]) + Contribution(ss[|ss| - 1])
  }

  lemma {:induction false} JumpLinksAppend(a: seq<Section>, b: seq<Section>)
    requires HasIds(a) && HasIds(b)
    ensures HasIds(a + b) && JumpLinks(a + b) == JumpLinks(a) + JumpLinks(b)
    decreases |b|
  {
    assert HasIds(a + b) by {
      forall i | 0 <= i < |a + b| ensures (a + b)[i].id.Some? {
        if i < |a| { assert (a + b)[i] == a[i]; } else { assert (a + b)[i] == b[i - |a|]; }
      }
    }
    if b == [] {
      assert a + b == a;
    } else {
      var b' := b[..|b| - 1];
      assert (a + b)[..|a + b| - 1] == a + b';
      assert (a + b)[|a + b| - 1] == b[|b| - 1];
      JumpLinksAppend(a, b');
    }
  }

  /** The links of the i-th section sit, contiguously, between those of the sections
      before it and those of the sections after it. */
  lemma SectionLinks(ss: seq<Section>, i: nat)
    requires HasIds(ss) && i < |ss|
    ensures HasIds(ss[..i]) && HasIds(ss[i + 1..])
    ensures JumpLinks(ss) == JumpLinks(ss[..i]) + Contribution(ss[i]) + JumpLinks(ss[i + 1..])
  {
    var before, after := ss[..i], ss[i + 1..];
    Split(ss, i);
    JumpLinksAppend(before, [ss[i]]);
    assert JumpLinks([ss[i]]) == Contribution(ss[i]) by {
      assert ([ss[i]])[..0] == [];
    }
    JumpLinksAppend(before + [ss[i]], after);
  }

  lemma Split(ss: seq<Section>, i: nat)
    requires HasIds(ss) && i < |ss|
    ensures ss == ss[..i] + [ss[i]] + ss[i + 1..]
    ensures HasIds(ss[..i]) && HasIds([ss[i]]) && HasIds(ss[i + 1..])
  {
  }

  /** A section whose id contains the generic marker adds no link, not even its extras;
      any other section's own link points at its id. */
  lemma LinkOfSection(ss: seq<Section>, i: nat)
    requires HasIds(ss) && i < |ss|
    ensures Contains(ss[i].id.value, GenericSection) ==>
              JumpLinks(ss) == JumpLinks(ss[..i]) + JumpLinks(ss[i + 1..])
    ensures !Contains(ss[i].id.value, GenericSection) ==>
              var at := |JumpLinks(ss[..i])|;
              at < |JumpLinks(ss)| && JumpLinks(ss)[at] == JumpLink(LinkText(ss[i]), ss[i].id.value)
  {
    SectionLinks(ss, i);
    var jb, c, ja := JumpLinks(ss[..i]), Contribution(ss[i]), JumpLinks(ss[i + 1..]);
    if Contains(ss[i].id.value, GenericSection) {
      assert jb + c == jb;
    } else {
      assert (jb + c + ja)[|jb|] == c[0];
    }
  }

  /** The loop of `_getSideRail` that collects the jump links. */
  method CollectJumpLinks(sections: seq<Section>) returns (jumpLinks: seq<JumpLink>)
    requires HasIds(sections)
    ensures jumpLinks == JumpLinks(sections)
  {
    jumpLinks := [];
    for i := 0 to |sections|
      invariant HasIds(sections[..i]) && jumpLinks == JumpLinks(sections[..i])
    {
      var section := sections[i];
      assert sections[..i + 1][..i] == sections[..i];
      if IndexOf(section.id.value, GenericSection) == -1 {
        jumpLinks := jumpLinks + [JumpLink(LinkText(section), section.id.value)];
        jumpLinks := jumpLinks + section.jumpLinks.GetOr([]);
      }
    }
    assert sections[..|sections|] == sections;
  }

  // ---------------------------------------------------------------------------
  // Related and contact content

  /** What the side rail receives for `related` or `contact`. */
  datatype RailContent =
    | MarkdownOf(source: string)  // a string rendered as markdown
    | AsGiven(v: Value)           // a value handed over unchanged (links, an element, undefined)

  /** A string with no character `trim` keeps. */
  ghost predicate Blank(s: string) {
    forall i :: 0 <= i < |s| ==> IsTrimmable(s[i])
  }

  /** A string is rendered as markdown unless it is blank, in which case there is no
      content; any other value is passed through. */
  function ProcessContent(v: Value): (r: RailContent)
    ensures v.Str? && !Blank(v.s) ==> r == MarkdownOf(v.s)
    ensures v.Str? && Blank(v.s) ==> r == AsGiven(Undefined)
    ensures !v.Str? ==> r == AsGiven(v)
  {
    match v
    case Str(s) => if Trim(s) != "" then MarkdownOf(s) else AsGiven(Undefined)
    case _ => AsGiven(v)
  }

  // ---------------------------------------------------------------------------
  // The side rail

  /** `showSideRail` after the default props are applied: undefined becomes true. */
  function ShowSideRailProp(p: PageProps): Value {
    if p.showSideRail == Undefined then Bool(true) else p.showSideRail
  }

  /** The props the page gives the side rail component. */
  datatype SideRailProps = SideRailProps(
    jumpLinks: seq<JumpLink>,
    relatedLinks: RailContent,
    contactLinks: RailContent)

  /** `_getSideRail`: no side rail unless `showSideRail` (true by default) is truthy;
      otherwise the jump links of the sections and the processed related and contact content. */
  method GetSideRail(p: PageProps, sections: seq<Section>) returns (rail: Option<SideRailProps>)
    requires HasIds(sections)
    ensures rail.None? <==> p.showSideRail != Undefined && !Truthy(p.showSideRail)
    ensures rail.Some? ==> rail.value == SideRailProps(JumpLinks(sections), ProcessContent(p.related),
                                                       ProcessContent(p.contact))
  {
    if Truthy(ShowSideRailProp(p)) {
      var processedRelated := ProcessContent(p.related);
      var processedContacts := ProcessContent(p.contact);
      var jumpLinks := CollectJumpLinks(sections);
      return Some(SideRailProps(jumpLinks, processedRelated, processedContacts));
    }
    return None;
  }
}
