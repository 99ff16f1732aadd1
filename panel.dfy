/**
 * The team roadmaps panel as a state machine: the component's `useState`
 * fields become the fields of a class, and every event handler becomes a
 * method that either replaces some fields or leaves everything as it was.
 * Each handler runs as one atomic step; the outcome of an HTTP call and the
 * answer to a `confirm(...)` dialogue are parameters.
 */
module Panel {
  import opened Common
  import opened TeamResources
  import opened Display

  /** Body of `PUT /v1-update-team-resource-config/{teamId}` (adding a roadmap). */
  datatype UpdateRequest = UpdateRequest(teamId: string, resourceId: string, resourceType: string,
                                         removed: seq<string>)

  /** `PUT /v1-delete-team-resource-config/{teamId}` with its body. */
  datatype DeleteRequest = DeleteRequest(teamId: string, resourceId: string, resourceType: string)

  /** A snapshot of every state field of the panel. */
  datatype PanelState = PanelState(
    isLoading: bool,
    removingRoadmapId: string,
    isPickingOptions: bool,
    isAddingRoadmap: bool,
    isCreatingRoadmap: bool,
    changingRoadmapId: string,
    team: Option<TeamDocument>,
    teamResources: seq<ResourceConfig>,
    allRoadmaps: seq<Page>)

  /** The cached configuration after a server answer: the body on success, the old copy otherwise. */
  function Replaced<T>(cached: T, response: Response<T>): T {
    if response.Success? then response.body else cached
  }

  class TeamRoadmapsPanel {
    /** The `t` parameter of the page URL; "" when it is missing. */
    const teamId: string

    var isLoading: bool
    var removingRoadmapId: string
    var isPickingOptions: bool
    var isAddingRoadmap: bool
    var isCreatingRoadmap: bool
    var changingRoadmapId: string
    var team: Option<TeamDocument>
    var teamResources: seq<ResourceConfig>
    var allRoadmaps: seq<Page>

    function State(): PanelState
      reads this
    {
      PanelState(isLoading, removingRoadmapId, isPickingOptions, isAddingRoadmap,
                 isCreatingRoadmap, changingRoadmapId, team, teamResources, allRoadmaps)
    }

    /** `team?._id` is truthy. */
    predicate HasTeamId()
      reads this
    {
      team.Some? && team.value.id != ""
    }

    /**
     * At most one of the pick-option, select-roadmap, create-roadmap and
     * customize modals is open (the last one whenever `changingRoadmapId` is
     * non-empty).
     */
    predicate AtMostOneModal()
      reads this
    {
      (if isPickingOptions then 1 else 0) + (if isAddingRoadmap then 1 else 0) +
      (if isCreatingRoadmap then 1 else 0) + (if changingRoadmapId != "" then 1 else 0) <= 1
    }

    predicate NoModalOpen()
      reads this
    {
      !isPickingOptions && !isAddingRoadmap && !isCreatingRoadmap && changingRoadmapId == ""
    }

    /** What the component renders; `canManage` is the `$canManageCurrentTeam` store. */
    function Render(canManage: bool): (v: PanelView)
      reads this
      ensures v.Hidden? <==> team.None?
      ensures !v.Hidden? ==> v.modals == OpenModals(isPickingOptions, isAddingRoadmap, isCreatingRoadmap)
    {
      View(team, teamResources, isLoading, canManage, teamId, removingRoadmapId, changingRoadmapId,
           OpenModals(isPickingOptions, isAddingRoadmap, isCreatingRoadmap))
    }

    /** The component's first render: the initial values given to `useState`. */
    constructor (teamId: string)
      ensures this.teamId == teamId
      ensures State() == PanelState(true, "", false, false, false, "", None, [], [])
      ensures NoModalOpen()
    {
      this.teamId := teamId;
      isLoading := true;
      removingRoadmapId := "";
      isPickingOptions := false;
      isAddingRoadmap := false;
      isCreatingRoadmap := false;
      changingRoadmapId := "";
      team := None;
      teamResources := [];
      allRoadmaps := [];
    }

    // -------------------------------------------------------------------
    // Loading

    /** `loadTeam`: a missing team sends the user away (the result) and changes nothing. */
    method LoadTeam(response: Response<TeamDocument>) returns (redirected: bool)
      modifies this
      ensures redirected <==> !response.Success?
      ensures State() == if response.Success? then old(State()).(team := Some(response.body))
                         else old(State())
    {
      if !response.Success? {
        redirected := true;
        return;
      }
      redirected := false;
      team := Some(response.body);
    }

    /** `loadTeamResourceConfig`: only a successful array response replaces the cache. */
    method LoadTeamResourceConfig(response: Response<seq<ResourceConfig>>)
      modifies this
      ensures response.Success? ==> State() == old(State()).(teamResources := response.body)
      ensures !response.Success? ==> State() == old(State())
    {
      if !response.Success? {
        return;
      }
      teamResources := response.body;
    }

    /**
     * `loadAllRoadmaps`: stores the "Roadmaps" pages of the catalog in the
     * order the sort produced (`sorted`, a permutation of them) and returns
     * the raw catalog; an error leaves the stored list as it was.
     */
    method LoadAllRoadmaps(response: Response<seq<Page>>, sorted: seq<Page>)
      returns (result: Option<seq<Page>>)
      requires response.Success? ==> multiset(sorted) == multiset(RoadmapPages(response.body))
      modifies this
      ensures response.Failure? ==> result == None && State() == old(State())
      ensures response.NoBody? ==> result == Some([]) && State() == old(State())
      ensures response.Success? ==>
        && result == Some(response.body)
        && State() == old(State()).(allRoadmaps := sorted)
        && multiset(allRoadmaps) == multiset(RoadmapPages(response.body))
        && (forall p :: p in allRoadmaps <==> p in response.body && p.group == "Roadmaps")
    {
      match response
      case Failure(_) =>
        result := None;
      case NoBody =>
        result := Some([]);
      case Success(pages) =>
        ReorderedRoadmapPages(pages, sorted);
        allRoadmaps := sorted;
        result := Some(pages);
    }

    /**
     * The mount effect: without a team id nothing happens; otherwise the
     * three loads run and, once all have settled, loading is over.
     */
    method Mount(teamResponse: Response<TeamDocument>, configResponse: Response<seq<ResourceConfig>>,
                 pagesResponse: Response<seq<Page>>, sorted: seq<Page>)
      returns (redirected: bool)
      requires pagesResponse.Success? ==> multiset(sorted) == multiset(RoadmapPages(pagesResponse.body))
      modifies this
      ensures teamId == "" ==> !redirected && State() == old(State())
      ensures teamId != "" ==>
        && (redirected <==> !teamResponse.Success?)
        && State() == old(State()).(
             isLoading := false,
             team := if teamResponse.Success? then Some(teamResponse.body) else old(team),
             teamResources := Replaced(old(teamResources), configResponse),
             allRoadmaps := if pagesResponse.Success? then sorted else old(allRoadmaps))
    {
      if teamId == "" {
        redirected := false;
        return;
      }
      isLoading := true;
      redirected := LoadTeam(teamResponse);
      LoadTeamResourceConfig(configResponse);
      var _ := LoadAllRoadmaps(pagesResponse, sorted);
      isLoading := false;
    }

    // -------------------------------------------------------------------
    // Mutations

    /**
     * `deleteResource`: without a team id no request is made and nothing
     * changes; otherwise the removal is requested and only a successful
     * response replaces the cached configuration, wholesale.
     */
    method DeleteResource(roadmapId: string, response: Response<seq<ResourceConfig>>)
      returns (request: Option<DeleteRequest>)
      modifies this
      ensures !old(HasTeamId()) ==> request == None && State() == old(State())
      ensures old(HasTeamId()) ==>
        && request == Some(DeleteRequest(old(team).value.id, roadmapId, "roadmap"))
        && State() == old(State()).(teamResources := Replaced(old(teamResources), response))
    {
      if !HasTeamId() {
        request := None;
        return;
      }
      request := Some(DeleteRequest(team.value.id, roadmapId, "roadmap"));
      if !response.Success? {
        return;
      }
      teamResources := response.body;
    }

    /** `onRemove`: the removal itself, without any confirmation. */
    method OnRemove(resourceId: string, response: Response<seq<ResourceConfig>>)
      returns (request: Option<DeleteRequest>)
      modifies this
      ensures !old(HasTeamId()) ==> request == None && State() == old(State())
      ensures old(HasTeamId()) ==>
        && request == Some(DeleteRequest(old(team).value.id, resourceId, "roadmap"))
        && State() == old(State()).(teamResources := Replaced(old(teamResources), response))
    {
      request := DeleteResource(resourceId, response);
    }

    /**
     * `onAdd`: without a team id a no-op; otherwise loading is switched on
     * and stays on whatever the outcome, and only a successful response
     * replaces the cached configuration.
     */
    method OnAdd(roadmapId: string, response: Response<seq<ResourceConfig>>)
      returns (request: Option<UpdateRequest>)
      modifies this
      ensures teamId == "" ==> request == None && State() == old(State())
      ensures teamId != "" ==>
        && request == Some(UpdateRequest(teamId, roadmapId, "roadmap", []))
        && isLoading
        && State() == old(State()).(isLoading := true,
                                    teamResources := Replaced(old(teamResources), response))
    {
      if teamId == "" {
        request := None;
        return;
      }
      isLoading := true;
      request := Some(UpdateRequest(teamId, roadmapId, "roadmap", []));
      if !response.Success? {
        return;
      }
      teamResources := response.body;
    }

    /**
     * The `custom-roadmap-created` listener: an event without a roadmap id
     * is ignored; otherwise the catalog is reloaded and the new roadmap added.
     */
    method OnCustomRoadmapCreated(roadmapId: string, pagesResponse: Response<seq<Page>>,
                                  sorted: seq<Page>, addResponse: Response<seq<ResourceConfig>>)
      returns (request: Option<UpdateRequest>)
      requires pagesResponse.Success? ==> multiset(sorted) == multiset(RoadmapPages(pagesResponse.body))
      modifies this
      ensures roadmapId == "" ==> request == None && State() == old(State())
      ensures roadmapId != "" ==>
        && request == (if teamId == "" then None else Some(UpdateRequest(teamId, roadmapId, "roadmap", [])))
        && State() == old(State()).(
             allRoadmaps := if pagesResponse.Success? then sorted else old(allRoadmaps),
             isLoading := old(isLoading) || teamId != "",
             teamResources := if teamId == "" then old(teamResources)
                              else Replaced(old(teamResources), addResponse))
    {
      if roadmapId == "" {
        request := None;
        return;
      }
      var _ := LoadAllRoadmaps(pagesResponse, sorted);
      request := OnAdd(roadmapId, addResponse);
    }

    /**
     * Every "remove" that goes through `confirm(...)` (the select-roadmap
     * modal and the dropdowns of placeholder and custom roadmaps): declining
     * does nothing; accepting removes.
     */
    method ConfirmAndRemove(resourceId: string, confirmed: bool, response: Response<seq<ResourceConfig>>)
      returns (request: Option<DeleteRequest>)
      modifies this
      ensures !confirmed || !old(HasTeamId()) ==> request == None && State() == old(State())
      ensures confirmed && old(HasTeamId()) ==>
        && request == Some(DeleteRequest(old(team).value.id, resourceId, "roadmap"))
        && State() == old(State()).(teamResources := Replaced(old(teamResources), response))
    {
      if !confirmed {
        request := None;
        return;
      }
      request := OnRemove(resourceId, response);
    }

    // -------------------------------------------------------------------
    // Modals

    /** An "Add roadmap" / "Add / Remove Roadmaps" button: opens the pick-option modal. */
    method OpenPickOptions()
      modifies this
      ensures State() == old(State()).(isPickingOptions := true)
      ensures old(NoModalOpen()) ==> AtMostOneModal()
    {
      isPickingOptions := true;
    }

    /** The pick-option modal's `onClose`: clears only `isPickingOptions`. */
    method ClosePickOptions()
      modifies this
      ensures State() == old(State()).(isPickingOptions := false)
      ensures NoModalOpen() <==> !isAddingRoadmap && !isCreatingRoadmap && changingRoadmapId == ""
      ensures old(AtMostOneModal()) ==> AtMostOneModal()
    {
      isPickingOptions := false;
    }

    /** `showDefaultRoadmapsModal`: the pick-option modal hands over to the select-roadmap modal. */
    method ShowDefaultRoadmapsModal()
      modifies this
      ensures State() == old(State()).(isAddingRoadmap := true, isPickingOptions := false)
      ensures old(isPickingOptions && AtMostOneModal()) ==> AtMostOneModal()
    {
      isAddingRoadmap := true;
      isPickingOptions := false;
    }

    /** `showCreateCustomRoadmapModal`: the pick-option modal hands over to the create-roadmap modal. */
    method ShowCreateCustomRoadmapModal()
      modifies this
      ensures State() == old(State()).(isCreatingRoadmap := true, isPickingOptions := false)
      ensures old(isPickingOptions && AtMostOneModal()) ==> AtMostOneModal()
    {
      isCreatingRoadmap := true;
      isPickingOptions := false;
    }

    /** The select-roadmap modal's `onClose`. */
    method CloseSelectRoadmapModal()
      modifies this
      ensures State() == old(State()).(isAddingRoadmap := false)
      ensures old(AtMostOneModal()) ==> AtMostOneModal()
    {
      isAddingRoadmap := false;
    }

    /** The create-roadmap modal's `onClose`. */
    method CloseCreateRoadmapModal()
      modifies this
      ensures State() == old(State()).(isCreatingRoadmap := false)
      ensures old(AtMostOneModal()) ==> AtMostOneModal()
    {
      isCreatingRoadmap := false;
    }

    /** The create-roadmap modal's `onCreated`: reloads the configuration and closes the modal. */
    method OnRoadmapCreated(response: Response<seq<ResourceConfig>>)
      modifies this
      ensures State() == old(State()).(isCreatingRoadmap := false,
                                       teamResources := Replaced(old(teamResources), response))
      ensures old(AtMostOneModal()) ==> AtMostOneModal()
    {
      LoadTeamResourceConfig(response);
      isCreatingRoadmap := false;
    }

    // -------------------------------------------------------------------
    // Card buttons and the customize modal

    /**
     * "Customize": a custom roadmap opens in the editor (no state change);
     * any other roadmap drops a pending removal and opens the customize modal.
     */
    method Customize(c: ResourceConfig)
      modifies this
      ensures c.isCustomResource ==> State() == old(State())
      ensures !c.isCustomResource ==>
        State() == old(State()).(removingRoadmapId := "", changingRoadmapId := c.resourceId)
      ensures old(NoModalOpen()) ==> AtMostOneModal()
    {
      if c.isCustomResource {
        return;
      }
      removingRoadmapId := "";
      changingRoadmapId := c.resourceId;
    }

    /** "Remove": this card's id becomes the one removal pending, replacing any other. */
    method StartRemoving(resourceId: string)
      modifies this
      ensures State() == old(State()).(removingRoadmapId := resourceId)
    {
      removingRoadmapId := resourceId;
    }

    /** "No": nothing is pending any more. */
    method CancelRemoving()
      modifies this
      ensures State() == old(State()).(removingRoadmapId := "")
    {
      removingRoadmapId := "";
    }

    /** The customize modal's `onClose`. */
    method CloseCustomizeModal()
      modifies this
      ensures State() == old(State()).(changingRoadmapId := "")
      ensures old(AtMostOneModal()) ==> AtMostOneModal()
    {
      changingRoadmapId := "";
    }

    /** The customize modal's `setTeamResourceConfig`: the configuration it saved replaces the cache. */
    method SetTeamResourceConfig(config: seq<ResourceConfig>)
      modifies this
      ensures State() == old(State()).(teamResources := config)
    {
      teamResources := config;
    }
  }

  /**
   * A team page opened on an empty team: after loading it shows the empty
   * state; adding a roadmap successfully then shows it as the one card and
   * counts it.
   */
  method AddToEmptyTeam(teamId: string, team: TeamDocument, added: ResourceConfig)
    returns (before: PanelView, after: PanelView)
    requires teamId != ""
    ensures before == EmptyState(NoModals, EmptyMessage(true), true)
    ensures after.ResourceList? && |after.cards| == 1 && after.cards[0].resourceId == added.resourceId
    ensures after.selectedText == SelectedText(1)
  {
    var panel := new TeamRoadmapsPanel(teamId);
    var _ := panel.Mount(Success(team), Success([]), NoBody, []);
    before := panel.Render(true);
    var _ := panel.OnAdd(added.resourceId, Success([added]));
    after := panel.Render(true);
  }
}
