/**
 * What the panel shows, as pure functions of its state: the label and link
 * of each roadmap card, the "selected" counter, the visibility badge text,
 * the removed topics handed to the customize modal, and the overall view
 * (nothing, the empty state, or the list of roadmaps).
 */
module Display {
  import opened Common
  import opened TeamResources
  import opened Text

  predicate EndsWith(s: string, suffix: string) {
    |suffix| <= |s| && s[|s| - |suffix|..] == suffix
  }

  // ---------------------------------------------------------------------
  // Visibility badge

  /** The `visibilityDetails` table: the badge text of each visibility, which names it. */
  function VisibilityLabel(v: Visibility): (r: string)
    ensures VisibilityOfLabel(r) == Some(v)
  {
    match v
    case Public => "Public"
    case Me => "Only me"
    case Team => "Team can View"
    case Friends => "Friends"
  }

  /** Reads a badge text back; the inverse of `VisibilityLabel`. */
  function VisibilityOfLabel(text: string): Option<Visibility> {
    if text == "Public" then Some(Public)
    else if text == "Only me" then Some(Me)
    else if text == "Team can View" then Some(Team)
    else if text == "Friends" then Some(Friends)
    else None
  }

  /** Every visibility has its own badge text. */
  lemma VisibilityLabelInjective(a: Visibility, b: Visibility)
    ensures VisibilityLabel(a) == VisibilityLabel(b) ==> a == b
  {
  }

  // ---------------------------------------------------------------------
  // Card label

  /** `{topics}` in JSX: an absent count renders as nothing. */
  function TopicsText(topics: Option<int>): (r: string)
    ensures topics.None? ==> r == ""
    ensures topics.Some? ==> |r| > 0
    ensures topics.Some? && topics.value >= 0 ==> AllDigits(r) && ParseDigits(r) == topics.value
    ensures topics.Some? && topics.value >= 0 ==> (|r| > 1 ==> r[0] != '0')
    ensures topics.Some? && topics.value < 0 ==>
              |r| > 1 && r[0] == '-' && AllDigits(r[1..]) && ParseDigits(r[1..]) == -topics.value
    ensures topics.Some? && topics.value < 0 ==> (|r| > 2 ==> r[1] != '0')
  {
    match topics
    case None => ""
    case Some(n) => NumberText(n)
  }

  /** `topics && topics > 0` */
  predicate PositiveTopics(topics: Option<int>) {
    topics.Some? && topics.value > 0
  }

  /** `removedTopics.length > 0 || (topics && topics > 0)` */
  predicate HasChanges(c: ResourceConfig) {
    |c.removed| > 0 || PositiveTopics(c.topics)
  }

  /** The small line under a card's title. */
  function CardLabel(c: ResourceConfig): string {
    if HasChanges(c) then
      if c.isCustomResource then
        TopicsText(c.topics) + " topic" + (if c.topics.Some? && c.topics.value > 1 then "s" else "")
      else
        Digits(|c.removed|) + " topic" + (if |c.removed| > 1 then "s" else "") + " removed"
    else if c.isCustomResource then "Placeholder roadmap"
    else "No changes made .."
  }

  /**
   * The last character of a label tells its four shapes apart: a topic
   * count ends in 'c' or 's', a removed count in 'd', the placeholder text
   * in 'p' and the no-changes text in '.'.
   */
  lemma CardLabelLastChar(c: ResourceConfig)
    ensures |CardLabel(c)| > 0
    ensures var l := CardLabel(c); var last := l[|l| - 1];
      && (HasChanges(c) && c.isCustomResource ==> last == 'c' || last == 's')
      && (HasChanges(c) && !c.isCustomResource ==> last == 'd')
      && (!HasChanges(c) && c.isCustomResource ==> last == 'p')
      && (!HasChanges(c) && !c.isCustomResource ==> last == '.')
  {
  }

  /** A card reads "Placeholder roadmap" exactly for a custom entry with no changes to show. */
  lemma CardLabelPlaceholderIff(c: ResourceConfig)
    ensures CardLabel(c) == "Placeholder roadmap" <==> c.isCustomResource && !HasChanges(c)
  {
    CardLabelLastChar(c);
    var p := "Placeholder roadmap";
    assert p[|p| - 1] == 'p';
  }

  /** A card reads "No changes made .." exactly for a default entry with no changes to show. */
  lemma CardLabelNoChangesIff(c: ResourceConfig)
    ensures CardLabel(c) == "No changes made .." <==> !c.isCustomResource && !HasChanges(c)
  {
    CardLabelLastChar(c);
    var p := "No changes made ..";
    assert p[|p| - 1] == '.';
  }

  /**
   * A custom entry with changes reads exactly "{topics} topic", pluralised
   * exactly when the count exceeds one.
   */
  lemma CustomCardLabel(c: ResourceConfig)
    requires c.isCustomResource && HasChanges(c)
    ensures TopicsText(c.topics) + " topic" <= CardLabel(c)
    ensures EndsWith(CardLabel(c), "s") <==> c.topics.Some? && c.topics.value > 1
    ensures |CardLabel(c)| ==
              |TopicsText(c.topics) + " topic"| + (if c.topics.Some? && c.topics.value > 1 then 1 else 0)
  {
    var head := TopicsText(c.topics) + " topic";
    var l := CardLabel(c);
    assert head[|head| - 1] == 'c';
    if c.topics.Some? && c.topics.value > 1 {
      assert l == head + "s";
    } else {
      assert l == head + "";
    }
  }

  /**
   * A default entry with changes reads exactly the number of removed topics,
   * " topic", an "s" exactly when more than one topic was removed, and
   * " removed".
   */
  lemma DefaultCardLabel(c: ResourceConfig)
    requires !c.isCustomResource && HasChanges(c)
    ensures Digits(|c.removed|) + " topic" <= CardLabel(c)
    ensures EndsWith(CardLabel(c), " removed")
    ensures EndsWith(CardLabel(c), "s removed") <==> |c.removed| > 1
    ensures |CardLabel(c)| ==
              |Digits(|c.removed|) + " topic"| + (if |c.removed| > 1 then 1 else 0) + |" removed"|
  {
    var head := Digits(|c.removed|) + " topic";
    var l := CardLabel(c);
    if |c.removed| > 1 {
      assert l == head + "s removed";
    } else {
      assert l == head + " removed";
      assert head[|head| - 1] == 'c';
      assert l[|l| - 9] == head[|head| - 1];
    }
  }

  /** A default roadmap with two hidden topics reads "2 topics removed". */
  lemma TwoRemovedTopicsLabel(id: string, title: string, v: Visibility)
    ensures CardLabel(ResourceConfig(id, title, v, false, None, ["t1", "t2"])) == "2 topics removed"
  {
  }

  /**
   * The label of a default roadmap also looks at `topics`: one carrying a
   * positive count and nothing removed reads "0 topic removed".
   */
  lemma DefaultWithTopicsLabel(id: string, title: string, v: Visibility, n: int)
    requires n > 0
    ensures CardLabel(ResourceConfig(id, title, v, false, Some(n), [])) == "0 topic removed"
  {
  }

  // ---------------------------------------------------------------------
  // Card link

  const CustomPrefix: string := "/r?id="

  /** The card's link: the custom-roadmap viewer, or the roadmap page scoped to the team. */
  function CardUrl(c: ResourceConfig, teamId: string): (r: string)
    ensures c.isCustomResource ==> CustomPrefix <= r && r[|CustomPrefix|..] == c.resourceId
    ensures !c.isCustomResource ==>
              && |r| == 1 + |c.resourceId| + |"?t=" + teamId|
              && r[0] == '/' && r[1..1 + |c.resourceId|] == c.resourceId
              && EndsWith(r, "?t=" + teamId)
  {
    if c.isCustomResource then CustomPrefix + c.resourceId
    else "/" + c.resourceId + "?t=" + teamId
  }

  /** Recovers the resource id from a card link of the given kind. */
  function ResourceIdOfUrl(url: string, isCustom: bool, teamId: string): Option<string> {
    if isCustom then
      if CustomPrefix <= url then Some(url[|CustomPrefix|..]) else None
    else
      var suffix := "?t=" + teamId;
      if |url| >= 1 + |suffix| && url[0] == '/' && EndsWith(url, suffix)
      then Some(url[1..|url| - |suffix|])
      else None
  }

  /**
   * A card link names its resource: the id can be read back from it, so two
   * cards of the same kind in the same team link to the same place only if
   * they show the same resource.
   */
  lemma CardUrlRoundTrip(c: ResourceConfig, teamId: string)
    ensures ResourceIdOfUrl(CardUrl(c, teamId), c.isCustomResource, teamId) == Some(c.resourceId)
  {
    var url := CardUrl(c, teamId);
    if c.isCustomResource {
      assert CustomPrefix <= url;
      assert url[|CustomPrefix|..] == c.resourceId;
    } else {
      var suffix := "?t=" + teamId;
      assert url == "/" + c.resourceId + suffix;
      assert url[|url| - |suffix|..] == suffix;
      assert url[1..|url| - |suffix|] == c.resourceId;
    }
  }

  lemma CardUrlInjective(a: ResourceConfig, b: ResourceConfig, teamId: string)
    requires a.isCustomResource == b.isCustomResource
    requires CardUrl(a, teamId) == CardUrl(b, teamId)
    ensures a.resourceId == b.resourceId
  {
    CardUrlRoundTrip(a, teamId);
    CardUrlRoundTrip(b, teamId);
  }

  // ---------------------------------------------------------------------
  // Counter

  /** `{teamResources.length} roadmap(s) selected` */
  function SelectedText(count: nat): (r: string)
    ensures Digits(count) <= r && EndsWith(r, " roadmap(s) selected")
    ensures |r| == |Digits(count)| + |" roadmap(s) selected"|
    ensures var k := |" roadmap(s) selected"|;
      AllDigits(r[..|r| - k]) && ParseDigits(r[..|r| - k]) == count
  {
    var r := Digits(count) + " roadmap(s) selected";
    assert r[..|r| - |" roadmap(s) selected"|] == Digits(count);
    ParseDigitsOfDigits(count);
    r
  }

  /** With no roadmaps the counter reads "0 roadmap(s) selected". */
  lemma SelectedTextZero()
    ensures SelectedText(0) == "0 roadmap(s) selected"
  {
    assert Digits(0) == "0";
  }

  /** The counter states the number of roadmaps: different counts read differently. */
  lemma SelectedTextInjective(a: nat, b: nat)
    ensures SelectedText(a) == SelectedText(b) ==> a == b
  {
    if SelectedText(a) == SelectedText(b) {
      var k := |" roadmap(s) selected"|;
      assert Digits(a) == SelectedText(a)[..|SelectedText(a)| - k];
      assert Digits(b) == SelectedText(b)[..|SelectedText(b)| - k];
      DigitsInjective(a, b);
    }
  }

  // ---------------------------------------------------------------------
  // Customize modal

  /**
   * The index at which `teamResources.find(c => c.resourceId === id)` stops:
   * the first entry with that id, absent when nothing matches.
   */
  function FirstIndexWithId(resources: seq<ResourceConfig>, id: string): (r: Option<nat>)
    ensures r.Some? ==> r.value < |resources| && resources[r.value].resourceId == id
    ensures r.Some? ==> forall j :: 0 <= j < r.value ==> resources[j].resourceId != id
    ensures r.None? <==> forall j :: 0 <= j < |resources| ==> resources[j].resourceId != id
    decreases |resources|
  {
    if resources == [] then None
    else if resources[0].resourceId == id then Some(0)
    else match FirstIndexWithId(resources[1..], id)
      case None => None
      case Some(k) => Some(k + 1)
  }

  /**
   * `teamResources.find(c => c.resourceId === id)?.removed || []`: the
   * removed topics of the first entry with that id, or none.
   */
  function DefaultRemovedItems(resources: seq<ResourceConfig>, id: string): (r: seq<string>)
    ensures (forall j :: 0 <= j < |resources| ==> resources[j].resourceId != id) ==> r == []
    ensures forall i :: 0 <= i < |resources| && resources[i].resourceId == id &&
                        (forall j :: 0 <= j < i ==> resources[j].resourceId != id) ==>
                        r == resources[i].removed
  {
    match FirstIndexWithId(resources, id)
    case None => []
    case Some(i) => resources[i].removed
  }

  // ---------------------------------------------------------------------
  // The view

  /** One card of the main grid. */
  datatype Card = Card(
    resourceId: string,
    title: string,
    url: string,
    caption: string,
    showsVisibilityBadge: bool,
    awaitingConfirmation: bool)

  /** One row of the "Custom Roadmaps" section. */
  datatype CustomRow = CustomRow(
    title: string,
    visibilityLabel: string,
    topicsText: string,
    visitUrl: string)

  datatype CustomizeModal = CustomizeModal(resourceId: string, defaultRemovedItems: seq<string>)

  /** Which of the pick-option, select-roadmap and create-roadmap modals are mounted. */
  datatype OpenModals = OpenModals(pickOption: bool, selectRoadmap: bool, createRoadmap: bool)

  const NoModals: OpenModals := OpenModals(false, false, false)

  datatype PanelView =
    | Hidden
    | EmptyState(modals: OpenModals, message: string, showsAddButton: bool)
    | ResourceList(
        modals: OpenModals,
        placeholderSection: Option<seq<ResourceConfig>>,
        customSection: Option<seq<CustomRow>>,
        selectedText: string,
        customize: Option<CustomizeModal>,
        cards: seq<Card>,
        showsManageControls: bool)

  function EmptyMessage(canManage: bool): string {
    if canManage then "Add a roadmap to start tracking your team"
    else "Ask your team admin to add some roadmaps"
  }

  /** A card; its "Are you sure?" prompt belongs to the footer shown only to managers. */
  function MakeCard(c: ResourceConfig, teamId: string, canManage: bool, removingId: string): Card {
    Card(c.resourceId, c.title, CardUrl(c, teamId), CardLabel(c),
         c.visibility == Me, canManage && removingId == c.resourceId)
  }

  function Cards(resources: seq<ResourceConfig>, teamId: string, canManage: bool,
                 removingId: string): seq<Card> {
    seq(|resources|, i requires 0 <= i < |resources| => MakeCard(resources[i], teamId, canManage, removingId))
  }

  function MakeCustomRow(c: ResourceConfig): CustomRow {
    CustomRow(c.title, VisibilityLabel(c.visibility), TopicsText(c.topics) + " topic",
              CustomPrefix + c.resourceId)
  }

  function CustomRows(custom: seq<ResourceConfig>): seq<CustomRow> {
    seq(|custom|, i requires 0 <= i < |custom| => MakeCustomRow(custom[i]))
  }

  /**
   * What the component renders for the given state, down to the modals it
   * mounts, the sections, the counter and the cards (layout and the
   * contents of the external modals aside). Nothing, not even a modal, is
   * rendered until the team is loaded; after that the empty state and the
   * list both mount exactly the open modals.
   */
  function View(team: Option<TeamDocument>, resources: seq<ResourceConfig>, isLoading: bool,
                canManage: bool, teamId: string, removingId: string, changingId: string,
                modals: OpenModals): (v: PanelView)
    ensures v.Hidden? <==> team.None?
    ensures !v.Hidden? ==> v.modals == modals
  {
    if team.None? then Hidden
    else if |resources| == 0 && !isLoading then EmptyState(modals, EmptyMessage(canManage), canManage)
    else
      var g := Classify(resources);
      ResourceList(
        modals,
        if |g.placeholder| > 0 then Some(g.placeholder) else None,
        // the section of custom roadmaps is gated on the number of placeholders
        if |g.placeholder| > 0 then Some(CustomRows(g.custom)) else None,
        SelectedText(|resources|),
        if changingId != "" then Some(CustomizeModal(changingId, DefaultRemovedItems(resources, changingId)))
        else None,
        Cards(resources, teamId, canManage, removingId),
        canManage)
  }

  /**
   * The empty state is shown exactly when a team is loaded, it has no
   * roadmaps and loading is over; its message and its "Add roadmap" button
   * depend only on whether the user may manage the team, and the button is
   * offered exactly then.
   */
  lemma ViewEmptyState(team: Option<TeamDocument>, resources: seq<ResourceConfig>, isLoading: bool,
                       canManage: bool, teamId: string, removingId: string, changingId: string,
                       modals: OpenModals)
    ensures var v := View(team, resources, isLoading, canManage, teamId, removingId, changingId, modals);
      v.EmptyState? <==> team.Some? && |resources| == 0 && !isLoading
    ensures var v := View(team, resources, isLoading, canManage, teamId, removingId, changingId, modals);
      v.EmptyState? ==>
        && (v.showsAddButton <==> canManage)
        && v == EmptyState(modals, EmptyMessage(canManage), canManage)
  {
  }

  /** The two empty-state messages differ, so the message tells whether the user may manage. */
  lemma EmptyMessageDistinct()
    ensures EmptyMessage(true) != EmptyMessage(false)
  {
  }

  /**
   * In the list view the placeholder section and the custom section are both
   * shown exactly when there is a placeholder; the placeholder section then
   * holds the placeholders, and the custom section one row per custom roadmap,
   * in order, with its title, badge text, topic count and link.
   */
  lemma ViewSections(team: Option<TeamDocument>, resources: seq<ResourceConfig>, isLoading: bool,
                     canManage: bool, teamId: string, removingId: string, changingId: string,
                     modals: OpenModals)
    requires View(team, resources, isLoading, canManage, teamId, removingId, changingId, modals).ResourceList?
    ensures var v := View(team, resources, isLoading, canManage, teamId, removingId, changingId, modals);
      var g := Classify(resources);
      && (v.placeholderSection.Some? <==> |g.placeholder| > 0)
      && (v.customSection.Some? <==> |g.placeholder| > 0)
      && (v.placeholderSection.Some? ==> v.placeholderSection.value == g.placeholder)
      && (v.customSection.Some? ==>
            |v.customSection.value| == |g.custom| &&
            forall i :: 0 <= i < |g.custom| ==>
              && v.customSection.value[i].title == g.custom[i].title
              && v.customSection.value[i].visibilityLabel == VisibilityLabel(g.custom[i].visibility)
              && v.customSection.value[i].topicsText == TopicsText(g.custom[i].topics) + " topic"
              && v.customSection.value[i].visitUrl == CustomPrefix + g.custom[i].resourceId)
  {
  }

  /**
   * A team with one custom roadmap and no placeholder gets no "Custom
   * Roadmaps" section; the roadmap still appears as a card.
   */
  lemma CustomSectionNeedsPlaceholder(id: string, title: string, v: Visibility, n: int)
    requires n != 0
    ensures var c := ResourceConfig(id, title, v, true, Some(n), []);
      var view := View(Some(TeamDocument(id)), [c], false, true, "", "", "", NoModals);
      view.ResourceList? && view.customSection.None? && |view.cards| == 1
  {
  }

  /**
   * The list view has one card per roadmap, in order, with its link and
   * label; only "Only me" roadmaps carry a badge; the counter counts them.
   * The manage controls are shown exactly to users who may manage the team.
   * A card asks "Are you sure?" when the manage controls are shown and its
   * id is pending removal; with distinct ids at most one card asks.
   */
  lemma ViewCards(team: Option<TeamDocument>, resources: seq<ResourceConfig>, isLoading: bool,
                  canManage: bool, teamId: string, removingId: string, changingId: string,
                  modals: OpenModals)
    requires View(team, resources, isLoading, canManage, teamId, removingId, changingId, modals).ResourceList?
    ensures var v := View(team, resources, isLoading, canManage, teamId, removingId, changingId, modals);
      && (v.showsManageControls <==> canManage)
      && v.selectedText == SelectedText(|resources|)
      && |v.cards| == |resources|
      && (forall i :: 0 <= i < |resources| ==>
            && v.cards[i].resourceId == resources[i].resourceId
            && v.cards[i].title == resources[i].title
            && v.cards[i].url == CardUrl(resources[i], teamId)
            && v.cards[i].caption == CardLabel(resources[i])
            && (v.cards[i].showsVisibilityBadge <==> resources[i].visibility == Me)
            && (v.cards[i].awaitingConfirmation <==>
                  v.showsManageControls && resources[i].resourceId == removingId))
    ensures var v := View(team, resources, isLoading, canManage, teamId, removingId, changingId, modals);
      (forall i, j :: 0 <= i < j < |resources| ==> resources[i].resourceId != resources[j].resourceId) ==>
      (forall i, j ::
         (0 <= i < |v.cards| && 0 <= j < |v.cards| &&
          v.cards[i].awaitingConfirmation && v.cards[j].awaitingConfirmation) ==> i == j)
  {
  }

  /**
   * While a loading flag stays set, an empty team is not shown the empty
   * state but an empty list reading "0 roadmap(s) selected".
   */
  lemma EmptyWhileLoading(team: TeamDocument, canManage: bool, teamId: string,
                          removingId: string, changingId: string, modals: OpenModals)
    ensures var v := View(Some(team), [], true, canManage, teamId, removingId, changingId, modals);
      v.ResourceList? && v.cards == [] && v.selectedText == "0 roadmap(s) selected"
  {
    SelectedTextZero();
  }

  /**
   * In the list view the customize modal is open exactly when an id is being
   * changed; it gets that id and the removed topics of the first entry with
   * it, or none when no entry has it.
   */
  lemma ViewCustomizeModal(team: Option<TeamDocument>, resources: seq<ResourceConfig>, isLoading: bool,
                           canManage: bool, teamId: string, removingId: string, changingId: string,
                           modals: OpenModals)
    requires View(team, resources, isLoading, canManage, teamId, removingId, changingId, modals).ResourceList?
    ensures var v := View(team, resources, isLoading, canManage, teamId, removingId, changingId, modals);
      && (v.customize.Some? <==> changingId != "")
      && (v.customize.Some? ==> v.customize.value.resourceId == changingId)
      && ((v.customize.Some? && forall j :: 0 <= j < |resources| ==> resources[j].resourceId != changingId)
          ==> v.customize.value.defaultRemovedItems == [])
      && (forall i :: 0 <= i < |resources| && resources[i].resourceId == changingId && changingId != "" &&
                      (forall j :: 0 <= j < i ==> resources[j].resourceId != changingId) ==>
                      v.customize == Some(CustomizeModal(changingId, resources[i].removed)))
  {
  }
}
