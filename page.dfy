/** The page as a whole: its sections feed its side rail. */
module Page {
  import opened JsValues
  import opened PageTypes
  import opened SectionComposer
  import opened SideRail

  /** After the id pass every section has an id, as the side rail expects. */
  lemma PageSectionsHaveIds(p: PageProps, slugify: string -> string)
    ensures HasIds(PageSections(p, slugify))
  {
  }

  /** The data flow of `render`: the sections it composes, and the side rail it derives from them. */
  method Render(p: PageProps, slugify: string -> string)
    returns (sections: seq<Section>, rail: Option<SideRailProps>)
    ensures sections == PageSections(p, slugify)
    ensures rail.None? <==> p.showSideRail != Undefined && !Truthy(p.showSideRail)
    ensures rail.Some? ==> HasIds(sections)
                           && rail.value == SideRailProps(JumpLinks(sections), ProcessContent(p.related),
                                                          ProcessContent(p.contact))
  {
    sections := GetPageSections(p, slugify);
    PageSectionsHaveIds(p, slugify);
    rail := GetSideRail(p, sections);
  }

  /** The additional-content section always has a jump link, titled `addlContentTitle`
      and pointing at "markdown", and no other. */
  lemma MarkdownJumpLink(p: PageProps, slugify: string -> string)
    requires Truthy(p.addlContent)
    ensures var ss := PageSections(p, slugify); var i := Count(Truthy(p.overview));
            i < |ss| && ss[i].id.Some?
            && Contribution(ss[i]) == [JumpLink(p.addlContentTitle, "markdown")]
  {
    MarkdownPlacement(p, slugify);
    assert !Contains("markdown", GenericSection);
  }

  /** A caller section with no id and no names is named "genericsection-<index>"; when
      `slugify` keeps the marker it gets no jump link. */
  lemma UnnamedSectionHidden(p: PageProps, slugify: string -> string, k: nat)
    requires k < |Others(p)|
    requires var u := Others(p)[k]; !IsSet(u.id) && !IsSet(u.readableSectionName) && !IsSet(u.sectionName)
    requires Contains(slugify(GenericName(LeadingCount(p) + k)), GenericSection)
    ensures var ss := PageSections(p, slugify); var i := LeadingCount(p) + k;
            i < |ss| && ss[i].id == Some(slugify(GenericName(i))) && Contribution(ss[i]) == []
  {
    OtherRecordsBlock(p);
  }
}
