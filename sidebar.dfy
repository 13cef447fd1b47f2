/**
 * The accordion and the collapse switch of frontend/app/components/Sidebar.tsx. The expanded
 * section is an `Option` of a section id, so at most one section is open by construction; the
 * collapsed flag is either the parent's (when the parent passes one) or the sidebar's own.
 */
module Sidebar {
  import opened Wrappers
  import opened Seqs

  /** The ids of the five sections, in the order they are drawn. */
  const SectionIds: seq<string> := ["therapy", "wellness", "bookings", "content", "community"]

  /** `toggleSection`: a click on the open section closes it, a click on any other opens it. */
  function ToggleSection(expanded: Option<string>, section: string): (r: Option<string>)
    ensures r == None <==> expanded == Some(section)
    ensures r != None ==> r == Some(section)
  {
    if expanded == Some(section) then None else Some(section)
  }

  /** A click on a section header: ignored while the sidebar is collapsed. */
  function HeaderClick(collapsed: bool, expanded: Option<string>, section: string): (r: Option<string>)
    ensures collapsed ==> r == expanded
    ensures !collapsed ==> r == ToggleSection(expanded, section)
  {
    if collapsed then expanded else ToggleSection(expanded, section)
  }

  /** Clicking the same header twice from a closed accordion closes it again. */
  lemma ToggleTwiceFromNone(section: string)
    ensures ToggleSection(Some(section), section) == None
    ensures ToggleSection(ToggleSection(None, section), section) == None
  {
  }

  /** The expanded section after a run of header clicks. */
  function AfterClicks(collapsed: bool, expanded: Option<string>, clicks: seq<string>): (r: Option<string>)
    ensures collapsed ==> r == expanded
    decreases clicks
  {
    if clicks == [] then expanded
    else AfterClicks(collapsed, HeaderClick(collapsed, expanded, clicks[0]), clicks[1..])
  }

  /** Whatever the clicks, the open section is either the one open at the start or one that was
      clicked; from a closed accordion it is always one that was clicked. */
  lemma {:induction false} OpenSectionWasClicked(expanded: Option<string>, clicks: seq<string>)
    ensures AfterClicks(false, expanded, clicks).Some? ==>
              AfterClicks(false, expanded, clicks) == expanded || AfterClicks(false, expanded, clicks).value in clicks
    decreases clicks
  {
    if clicks != [] {
      OpenSectionWasClicked(ToggleSection(expanded, clicks[0]), clicks[1..]);
    }
  }

  /** A section shows its links when the sidebar is not collapsed and it is the open one. */
  predicate ItemsShown(collapsed: bool, expanded: Option<string>, section: string) {
    !collapsed && expanded == Some(section)
  }

  predicate Distinct(ids: seq<string>) {
    forall i, j :: 0 <= i < j < |ids| ==> ids[i] != ids[j]
  }

  /** Among sections with distinct ids, at most one shows its links. */
  lemma {:induction false} AtMostOneShown(ids: seq<string>, collapsed: bool, expanded: Option<string>)
    requires Distinct(ids)
    ensures Count(ids, (s: string) => ItemsShown(collapsed, expanded, s)) <= 1
  {
    if ids != [] {
      var shown := (s: string) => ItemsShown(collapsed, expanded, s);
      assert ids == [ids[0]] + ids[1..];
      FilterAppend([ids[0]], ids[1..], shown);
      if shown(ids[0]) {
        forall i | 0 <= i < |ids[1..]|
          ensures !shown(ids[1..][i])
        {
          assert ids[1..][i] == ids[i + 1];
        }
        FilterDropsAll(ids[1..], shown);
      } else {
        AtMostOneShown(ids[1..], collapsed, expanded);
      }
    }
  }

  lemma SidebarShowsAtMostOneSection(collapsed: bool, expanded: Option<string>)
    ensures Count(SectionIds, (s: string) => ItemsShown(collapsed, expanded, s)) <= 1
  {
    AtMostOneShown(SectionIds, collapsed, expanded);
  }

  /**
   * The collapse state: the value the parent passes, if any, whether the parent passes a setter,
   * and the sidebar's own flag. A parent that passes a setter is taken to pass back, as its
   * value, the last value it was given.
   */
  datatype CollapseState = CollapseState(external: Option<bool>, externalSetter: bool, internal: bool)

  /** `isCollapsed`: the parent's value when there is one, the sidebar's own otherwise. */
  function IsCollapsed(c: CollapseState): (b: bool)
    ensures c.external.Some? ==> b == c.external.value
    ensures c.external.None? ==> b == c.internal
  {
    if c.external.Some? then c.external.value else c.internal
  }

  /** The collapse button: `setIsCollapsed(!isCollapsed)`, through the parent's setter if it
      passed one and through the sidebar's own otherwise. */
  function CollapseClick(c: CollapseState): (r: CollapseState)
    ensures r.externalSetter == c.externalSetter
    ensures c.externalSetter ==> r.internal == c.internal && r.external == Some(!IsCollapsed(c))
    ensures !c.externalSetter ==> r.external == c.external && r.internal == !IsCollapsed(c)
  {
    if c.externalSetter then c.(external := Some(!IsCollapsed(c)))
    else c.(internal := !IsCollapsed(c))
  }

  /** The button flips the sidebar unless the parent passes a value without a setter: then the
      sidebar's own flag flips but the parent's value keeps deciding. */
  lemma CollapseClickFlips(c: CollapseState)
    ensures c.externalSetter || c.external.None? ==> IsCollapsed(CollapseClick(c)) == !IsCollapsed(c)
    ensures !c.externalSetter && c.external.Some? ==> IsCollapsed(CollapseClick(c)) == IsCollapsed(c)
    ensures IsCollapsed(CollapseClick(CollapseClick(c))) == IsCollapsed(c)
  {
  }
}
