/**
 * A team's resource configuration and the two pure list derivations the
 * panel performs on data it fetched: splitting the team's roadmaps into
 * placeholder, custom and default groups, and keeping only the roadmap
 * pages of the catalog.
 */
module TeamResources {
  import opened Common

  datatype Visibility = Public | Me | Team | Friends

  /** The team document as far as the panel uses it: its `_id`, "" when missing. */
  datatype TeamDocument = TeamDocument(id: string)

  /**
   * One roadmap assigned to a team. `topics` is absent for default roadmaps
   * and for custom roadmaps that have no content yet; `removed` lists the
   * topics the team hid from a default roadmap.
   */
  datatype ResourceConfig = ResourceConfig(
    resourceId: string,
    title: string,
    visibility: Visibility,
    isCustomResource: bool,
    topics: Option<int>,
    removed: seq<string>)

  /** JavaScript truthiness of the optional topic count: neither absent nor 0. */
  predicate HasTopics(topics: Option<int>) {
    topics.Some? && topics.value != 0
  }

  /** `c.isCustomResource && !c.topics` */
  predicate IsPlaceholder(c: ResourceConfig) {
    c.isCustomResource && !HasTopics(c.topics)
  }

  /** `c.isCustomResource && c.topics` */
  predicate IsCustom(c: ResourceConfig) {
    c.isCustomResource && HasTopics(c.topics)
  }

  /** `!c.isCustomResource` */
  predicate IsDefault(c: ResourceConfig) {
    !c.isCustomResource
  }

  /** The three groups the panel renders, each a filter of the team's list. */
  datatype Groups = Groups(
    placeholder: seq<ResourceConfig>,
    custom: seq<ResourceConfig>,
    default: seq<ResourceConfig>)

  function Classify(resources: seq<ResourceConfig>): (g: Groups)
    ensures forall i :: 0 <= i < |g.placeholder| ==> IsPlaceholder(g.placeholder[i])
    ensures forall i :: 0 <= i < |g.custom| ==> IsCustom(g.custom[i])
    ensures forall i :: 0 <= i < |g.default| ==> IsDefault(g.default[i])
    ensures |g.placeholder| <= |resources| && |g.custom| <= |resources| && |g.default| <= |resources|
  {
    Groups(Filter(resources, IsPlaceholder),
           Filter(resources, IsCustom),
           Filter(resources, IsDefault))
  }

  /** Every entry satisfies exactly one of the three group predicates. */
  lemma ExactlyOneKind(c: ResourceConfig)
    ensures IsPlaceholder(c) ==> !IsCustom(c) && !IsDefault(c)
    ensures IsCustom(c) ==> !IsPlaceholder(c) && !IsDefault(c)
    ensures IsPlaceholder(c) || IsCustom(c) || IsDefault(c)
  {
  }

  /**
   * Each entry of the input lands in exactly one group, and nothing that is
   * not in the input appears in any group; so the groups are pairwise
   * disjoint.
   */
  lemma ClassifyMembership(resources: seq<ResourceConfig>)
    ensures var g := Classify(resources);
      forall c ::
        && (c in g.placeholder <==> c in resources && IsPlaceholder(c))
        && (c in g.custom <==> c in resources && IsCustom(c))
        && (c in g.default <==> c in resources && IsDefault(c))
    ensures var g := Classify(resources);
      forall c :: c in resources ==>
        && (c in g.placeholder <==> c !in g.custom && c !in g.default)
        && (c in g.custom ==> c !in g.default)
        && (c in g.placeholder || c in g.custom || c in g.default)
    ensures var g := Classify(resources);
      forall c :: !(c in g.placeholder && c in g.custom) &&
                  !(c in g.placeholder && c in g.default) &&
                  !(c in g.custom && c in g.default)
  {
    FilterMembership(resources, IsPlaceholder);
    FilterMembership(resources, IsCustom);
    FilterMembership(resources, IsDefault);
  }

  /** Every group keeps the relative order the entries had in the input. */
  lemma ClassifyPreservesOrder(resources: seq<ResourceConfig>)
    ensures IsSubsequence(Classify(resources).placeholder, resources)
    ensures IsSubsequence(Classify(resources).custom, resources)
    ensures IsSubsequence(Classify(resources).default, resources)
  {
    FilterIsSubsequence(resources, IsPlaceholder);
    FilterIsSubsequence(resources, IsCustom);
    FilterIsSubsequence(resources, IsDefault);
  }

  /**
   * The groups together are the input exactly: their lengths add up to the
   * input's, and as multisets they sum to it, so no entry is dropped or
   * duplicated.
   */
  lemma {:induction false} ClassifyPartition(resources: seq<ResourceConfig>)
    ensures var g := Classify(resources);
      |g.placeholder| + |g.custom| + |g.default| == |resources|
    ensures var g := Classify(resources);
      multiset(g.placeholder) + multiset(g.custom) + multiset(g.default) == multiset(resources)
  {
    if resources != [] {
      var head, tail := resources[0], resources[1..];
      ClassifyPartition(tail);
      assert resources == [head] + tail;
      assert multiset(resources) == multiset{head} + multiset(tail);
    }
  }

  /**
   * A custom entry whose topic count is absent or zero is a placeholder:
   * the test on `topics` is JavaScript truthiness, not presence.
   */
  lemma PlaceholderWhenNoTopics(resources: seq<ResourceConfig>, c: ResourceConfig)
    requires c in resources && c.isCustomResource
    requires c.topics == None || c.topics == Some(0)
    ensures c in Classify(resources).placeholder
    ensures c !in Classify(resources).custom
  {
    FilterMembership(resources, IsPlaceholder);
    FilterMembership(resources, IsCustom);
  }

  /** An entry of the catalog served as `/pages.json`. */
  datatype Page = Page(id: string, title: string, group: string)

  /** `page.group === 'Roadmaps'` */
  predicate IsRoadmapPage(p: Page) {
    p.group == "Roadmaps"
  }

  /** The catalog filter applied before sorting. */
  function RoadmapPages(pages: seq<Page>): (r: seq<Page>)
    ensures forall i :: 0 <= i < |r| ==> r[i].group == "Roadmaps"
    ensures forall p :: p in r ==> p in pages
  {
    Filter(pages, IsRoadmapPage)
  }

  /**
   * The catalog filter keeps exactly the pages of the "Roadmaps" group, every
   * copy of them, in their original order.
   */
  lemma RoadmapPagesSpec(pages: seq<Page>)
    ensures forall p :: p in RoadmapPages(pages) <==> p in pages && p.group == "Roadmaps"
    ensures forall p :: multiset(RoadmapPages(pages))[p] ==
                        if p.group == "Roadmaps" then multiset(pages)[p] else 0
    ensures IsSubsequence(RoadmapPages(pages), pages)
  {
    FilterMembership(pages, IsRoadmapPage);
    FilterIsSubsequence(pages, IsRoadmapPage);
    forall p ensures multiset(RoadmapPages(pages))[p] ==
                     if p.group == "Roadmaps" then multiset(pages)[p] else 0 {
      FilterMultiplicity(pages, IsRoadmapPage, p);
    }
  }

  /**
   * Any reordering of the filtered catalog (the panel stores a sorted one)
   * still holds exactly the "Roadmaps" pages.
   */
  lemma ReorderedRoadmapPages(pages: seq<Page>, sorted: seq<Page>)
    requires multiset(sorted) == multiset(RoadmapPages(pages))
    ensures forall p :: p in sorted <==> p in pages && p.group == "Roadmaps"
    ensures |sorted| == |RoadmapPages(pages)|
  {
    RoadmapPagesSpec(pages);
    forall p ensures p in sorted <==> p in RoadmapPages(pages) {
      assert p in sorted <==> p in multiset(sorted);
      assert p in RoadmapPages(pages) <==> p in multiset(RoadmapPages(pages));
    }
    assert |multiset(sorted)| == |multiset(RoadmapPages(pages))|;
  }
}
