# Team roadmaps panel — a Dafny model

This project models the core of the team roadmaps panel (`TeamRoadmaps`). The panel lists the roadmaps a team has selected. It lets a team admin add, remove and customise them. It shows them in three kinds: placeholder, custom and default.

The component keeps a few React `useState` fields. Its event handlers update those fields with one rule: replace or leave unchanged. A successful server response replaces the cached team resource configuration wholesale. An error leaves it untouched. A guard that fails does nothing. Everything the panel shows is a pure function of those fields, the manage permission (the `$canManageCurrentTeam` store) and the page's team id.

Files:

- `common.dfy` (module `Common`): `Option`, and the outcome of an HTTP call (`Response`: an error, no usable body, or a body). It also holds JavaScript's order-preserving `Array.filter` (`Filter`) with its membership, order and multiplicity lemmas.
- `resources.dfy` (module `TeamResources`): a resource configuration entry, a team and a catalog page. It splits the configuration into placeholder / custom / default groups (`Classify`) and filters the catalog to the "Roadmaps" group (`RoadmapPages`).
- `text.dfy` (module `Text`): how an integral JavaScript number is written as text (`Digits`, `NumberText`), with the parse-back round trip.
- `display.dfy` (module `Display`): the card label, the card link, the "N roadmap(s) selected" counter and the visibility badge table. It also finds the removed topics handed to the customize modal. `View` gives the rendered view: nothing, or the empty state or the list. Both of the latter record which of the pick-option, select-roadmap and create-roadmap modals are mounted. The list also holds its sections, counter, cards and customize modal.
- `panel.dfy` (module `Panel`): class `TeamRoadmapsPanel`. Its fields are the component's state; every handler is a method. `State()` snapshots all fields, so each method states its entire new state ("nothing else changes") as a datatype update of `old(State())`.

Each asynchronous handler is modelled as one atomic step. The HTTP outcome and the answer to `confirm(...)` are method parameters. The mount effect runs its three loads one after the other. Their order does not matter because they write disjoint fields.

Source quirks kept as written:

- `onAdd` sets `isLoading` and never clears it. `OnAdd` ensures `isLoading` on both outcomes. `EmptyWhileLoading` shows the effect: an empty team then gets a list reading "0 roadmap(s) selected" instead of the empty state.
- The "Custom Roadmaps" section is shown only when there is a *placeholder* roadmap. See `ViewSections` and `CustomSectionNeedsPlaceholder`.
- `topics` is tested for truthiness, so a custom roadmap with `topics == 0` is a placeholder (`PlaceholderWhenNoTopics`).
- The label test `removed.length > 0 || topics > 0` also applies to default roadmaps. A default roadmap that carries a positive `topics` and removes nothing therefore reads "0 topic removed" (`DefaultWithTopicsLabel`).
- "Yes" in the inline confirmation calls `onRemove` and does not clear `removingRoadmapId`.
- The select-roadmap modal's add callback (lines 224-228) and the inline "Yes" button (line 551) call `onAdd` and `onRemove` directly. They are modelled by `OnAdd` and `OnRemove`. All three `confirm(...)` removals (lines 229-233, 324-334, 390-400) are `ConfirmAndRemove`.
- Nothing in the code keeps the modals mutually exclusive. They are three independent booleans plus the customize modal, which is open whenever `changingRoadmapId` is non-empty. The model proves only that each transition keeps "at most one of the four open" when it is fired from the state in which its button is reachable (`AtMostOneModal`).

## Model

| member | source | states |
|---|---|---|
| `Common.Filter` | src/components/TeamRoadmapsList/TeamRoadmaps.tsx:281-289 | the filter result is no longer than the input, every kept element satisfies the predicate and comes from the input |
| `Common.FilterMembership` | src/components/TeamRoadmapsList/TeamRoadmaps.tsx:281-289 | an element is in the filter result iff it is in the input and satisfies the predicate |
| `Common.FilterMultiplicity` | src/components/TeamRoadmapsList/TeamRoadmaps.tsx:281-289 | filtering keeps every copy of a satisfying element and no copy of any other |
| `Common.FilterIsSubsequence` | src/components/TeamRoadmapsList/TeamRoadmaps.tsx:281-289 | filtering preserves the relative order of the kept elements |
| `TeamResources.Classify` | src/components/TeamRoadmapsList/TeamRoadmaps.tsx:281-289 | every placeholder passes the placeholder test, every custom entry the custom test, every default entry the default test, and no group is longer than the input; membership, order and partition are proved in `ClassifyMembership`, `ClassifyPreservesOrder` and `ClassifyPartition` |
| `TeamResources.ExactlyOneKind` | src/components/TeamRoadmapsList/TeamRoadmaps.tsx:281-289 | each entry satisfies exactly one of the placeholder, custom and default tests |
| `TeamResources.ClassifyMembership` | src/components/TeamRoadmapsList/TeamRoadmaps.tsx:281-289 | an entry is in a group iff it is in the input and passes that group's test; every input entry is in exactly one group; the groups are pairwise disjoint |
| `TeamResources.ClassifyPreservesOrder` | src/components/TeamRoadmapsList/TeamRoadmaps.tsx:281-289 | each of the three groups is a subsequence of the input |
| `TeamResources.ClassifyPartition` | src/components/TeamRoadmapsList/TeamRoadmaps.tsx:281-289 | the group lengths add up to the input length and the group multisets sum to the input's: nothing dropped or duplicated |
| `TeamResources.PlaceholderWhenNoTopics` | src/components/TeamRoadmapsList/TeamRoadmaps.tsx:281-286 | a custom entry whose `topics` is absent or 0 is a placeholder and not custom |
| `TeamResources.RoadmapPages` | src/components/TeamRoadmapsList/TeamRoadmaps.tsx:59-60 | every kept page is in the "Roadmaps" group and comes from the catalog; the converse, multiplicities and order are proved in `RoadmapPagesSpec` |
| `TeamResources.RoadmapPagesSpec` | src/components/TeamRoadmapsList/TeamRoadmaps.tsx:59-60 | the catalog filter keeps exactly the pages with group "Roadmaps", with their multiplicities, in order |
| `TeamResources.ReorderedRoadmapPages` | src/components/TeamRoadmapsList/TeamRoadmaps.tsx:59-66 | any permutation of the filtered catalog holds exactly the "Roadmaps" pages and has the filtered length |
| `Text.Digits` | src/components/TeamRoadmapsList/TeamRoadmaps.tsx:424 | the written form of a count is a non-empty string of decimal digits without a leading zero |
| `Text.ParseDigitsOfDigits` | src/components/TeamRoadmapsList/TeamRoadmaps.tsx:424 | reading the digits of a count back gives the count |
| `Text.DigitsInjective` | src/components/TeamRoadmapsList/TeamRoadmaps.tsx:496 | different counts are written differently |
| `Display.VisibilityLabel` | src/components/TeamRoadmapsList/TeamRoadmaps.tsx:594-617 | the badge text of a visibility (Public, Only me, Team can View, Friends) reads back as that visibility |
| `Display.VisibilityLabelInjective` | src/components/TeamRoadmapsList/TeamRoadmaps.tsx:594-622 | distinct visibilities get distinct badge texts |
| `Text.NumberText` | src/components/TeamRoadmapsList/TeamRoadmaps.tsx:492 | a non-negative number is written as a non-empty string of digits without a leading zero that read back as it; a negative one as '-' followed by such digits of its magnitude |
| `Display.TopicsText` | src/components/TeamRoadmapsList/TeamRoadmaps.tsx:492 | an absent topic count renders as the empty string (here and at line 381); a present one as its number's text: non-empty digits without a leading zero that read back as the count (after the '-' when negative) |
| `Display.CardLabel` | src/components/TeamRoadmapsList/TeamRoadmaps.tsx:488-506 | the label under a card's title; its shapes and their conditions are proved in `CardLabelLastChar`, `CardLabelPlaceholderIff`, `CardLabelNoChangesIff`, `CustomCardLabel` and `DefaultCardLabel` |
| `Display.CardLabelLastChar` | src/components/TeamRoadmapsList/TeamRoadmaps.tsx:488-506 | the last character of a label tells its shape: 'c' or 's' for a topic count, 'd' for a removed count, 'p' for "Placeholder roadmap", '.' for "No changes made .." |
| `Display.CardLabelPlaceholderIff` | src/components/TeamRoadmapsList/TeamRoadmaps.tsx:488-506 | a card reads "Placeholder roadmap" iff it is custom, removes nothing and has no positive topic count |
| `Display.CardLabelNoChangesIff` | src/components/TeamRoadmapsList/TeamRoadmaps.tsx:488-506 | a card reads "No changes made .." iff it is a default roadmap, removes nothing and has no positive topic count |
| `Display.CustomCardLabel` | src/components/TeamRoadmapsList/TeamRoadmaps.tsx:488-493 | a custom card with changes reads exactly "{topics} topic", followed by an 's' iff its topic count exceeds one |
| `Display.DefaultCardLabel` | src/components/TeamRoadmapsList/TeamRoadmaps.tsx:488-499 | a default card with changes reads exactly the number of removed topics, " topic", an 's' iff more than one topic was removed, then " removed" |
| `Display.TwoRemovedTopicsLabel` | src/components/TeamRoadmapsList/TeamRoadmaps.tsx:494-499 | a default roadmap removing two topics reads "2 topics removed" |
| `Display.DefaultWithTopicsLabel` | src/components/TeamRoadmapsList/TeamRoadmaps.tsx:488-499 | a default roadmap with a positive `topics` and nothing removed reads "0 topic removed" |
| `Display.CardUrl` | src/components/TeamRoadmapsList/TeamRoadmaps.tsx:461-463 | a custom card links to `/r?id=` followed by its id; any other card to '/', its id, then `?t=` and the team id |
| `Display.CardUrlRoundTrip` | src/components/TeamRoadmapsList/TeamRoadmaps.tsx:461-463 | the card link is `/r?id=<id>` for custom and `/<id>?t=<team>` otherwise, and the id can be read back from it |
| `Display.CardUrlInjective` | src/components/TeamRoadmapsList/TeamRoadmaps.tsx:461-463 | two cards of the same kind in one team have the same link only if they have the same id |
| `Display.SelectedText` | src/components/TeamRoadmapsList/TeamRoadmaps.tsx:424 | the counter reads exactly the digits of the count followed by " roadmap(s) selected", and its digits read back as the count |
| `Display.SelectedTextZero` | src/components/TeamRoadmapsList/TeamRoadmaps.tsx:424 | with no roadmaps the counter reads "0 roadmap(s) selected" |
| `Display.SelectedTextInjective` | src/components/TeamRoadmapsList/TeamRoadmaps.tsx:424 | the "N roadmap(s) selected" text determines N |
| `Display.FirstIndexWithId` | src/components/TeamRoadmapsList/TeamRoadmaps.tsx:444-446 | the result is the least index whose entry has the id, absent iff no entry has it |
| `Display.DefaultRemovedItems` | src/components/TeamRoadmapsList/TeamRoadmaps.tsx:443-447 | the removed topics of the first entry with the id, or `[]` when no entry has it |
| `Display.View` | src/components/TeamRoadmapsList/TeamRoadmaps.tsx:200-297 | nothing, not even a modal, is rendered iff the team is not loaded; otherwise both the empty state and the list mount exactly the open pick-option, select-roadmap and create-roadmap modals; the rest of the view is described by the `View...` lemmas below |
| `Display.ViewEmptyState` | src/components/TeamRoadmapsList/TeamRoadmaps.tsx:250-276 | the empty state is shown iff a team is loaded, it has no roadmaps and loading is over; then it mounts the open modals, and its message and "Add roadmap" button depend only on whether the user may manage, the button being shown iff the user may |
| `Display.EmptyMessageDistinct` | src/components/TeamRoadmapsList/TeamRoadmaps.tsx:264-266 | the empty-state messages for managers and for other members differ |
| `Display.ViewSections` | src/components/TeamRoadmapsList/TeamRoadmaps.tsx:299-420 | in the list view the placeholder section and the custom section are each shown iff there is a placeholder; the placeholder section then holds exactly the placeholders, and the custom section one row per custom roadmap, in order, with its title, badge text, "{topics} topic" and `/r?id=` link |
| `Display.CustomSectionNeedsPlaceholder` | src/components/TeamRoadmapsList/TeamRoadmaps.tsx:358-364 | a team whose one roadmap is custom gets no custom section, though its card is shown |
| `Display.ViewCards` | src/components/TeamRoadmapsList/TeamRoadmaps.tsx:424-563 | the manage controls are shown iff the user may manage the team; one card per roadmap in order, with that roadmap's id, title, link and label and a badge iff its visibility is "me"; the counter counts them, a card asks "Are you sure?" iff the manage controls are shown (`showsManageControls`) and its id is pending removal, and with distinct ids at most one card asks |
| `Display.EmptyWhileLoading` | src/components/TeamRoadmapsList/TeamRoadmaps.tsx:250 | an empty team with loading still set is shown an empty list reading "0 roadmap(s) selected", not the empty state |
| `Display.ViewCustomizeModal` | src/components/TeamRoadmapsList/TeamRoadmaps.tsx:436-447 | in the list view the customize modal is open iff an id is being changed; it gets that id and the removed topics of the first entry with it, or `[]` when no entry has it |
| `Panel.TeamRoadmapsPanel.Render` | src/components/TeamRoadmapsList/TeamRoadmaps.tsx:200-297 | the panel renders nothing iff no team is loaded; otherwise the view mounts exactly the modals whose flags are set |
| `Panel.TeamRoadmapsPanel.constructor` | src/components/TeamRoadmapsList/TeamRoadmaps.tsx:37-45 | the initial state: loading, nothing pending, no modal, no team, empty configuration and catalog |
| `Panel.TeamRoadmapsPanel.LoadTeam` | src/components/TeamRoadmapsList/TeamRoadmaps.tsx:70-82 | a team response is stored; otherwise the user is redirected and nothing changes |
| `Panel.TeamRoadmapsPanel.LoadTeamResourceConfig` | src/components/TeamRoadmapsList/TeamRoadmaps.tsx:84-94 | only a successful array response replaces the configuration; nothing else changes |
| `Panel.TeamRoadmapsPanel.LoadAllRoadmaps` | src/components/TeamRoadmapsList/TeamRoadmaps.tsx:47-68 | on success the stored catalog is a permutation of the "Roadmaps" pages and the raw catalog is returned; an error returns nothing, a missing body returns `[]`, and both leave the state unchanged |
| `Panel.TeamRoadmapsPanel.Mount` | src/components/TeamRoadmapsList/TeamRoadmaps.tsx:96-110 | without a team id nothing happens; otherwise the three loads apply their own rules and loading ends |
| `Panel.TeamRoadmapsPanel.DeleteResource` | src/components/TeamRoadmapsList/TeamRoadmaps.tsx:112-136 | without a team id no request and no change; otherwise the delete request for the id is made and the configuration becomes the response on success, stays on failure |
| `Panel.TeamRoadmapsPanel.OnRemove` | src/components/TeamRoadmapsList/TeamRoadmaps.tsx:167-173 | the same as `DeleteResource` for the given id |
| `Panel.TeamRoadmapsPanel.OnAdd` | src/components/TeamRoadmapsList/TeamRoadmaps.tsx:138-165 | without a team id a no-op; otherwise the add request is made, loading is set and stays set, and the configuration becomes the response on success and stays on failure |
| `Panel.TeamRoadmapsPanel.OnCustomRoadmapCreated` | src/components/TeamRoadmapsList/TeamRoadmaps.tsx:176-186 | an event without a roadmap id is ignored; otherwise the catalog reload and the add apply their own rules |
| `Panel.TeamRoadmapsPanel.ConfirmAndRemove` | src/components/TeamRoadmapsList/TeamRoadmaps.tsx:229-233 | declining the confirmation changes nothing; accepting removes as `OnRemove` |
| `Panel.TeamRoadmapsPanel.OpenPickOptions` | src/components/TeamRoadmapsList/TeamRoadmaps.tsx:269-275 | sets only `isPickingOptions` |
| `Panel.TeamRoadmapsPanel.ClosePickOptions` | src/components/TeamRoadmapsList/TeamRoadmaps.tsx:206 | clears only `isPickingOptions`; no modal is then open iff neither of the other two nor the customize modal is open |
| `Panel.TeamRoadmapsPanel.ShowDefaultRoadmapsModal` | src/components/TeamRoadmapsList/TeamRoadmaps.tsx:207-210 | sets `isAddingRoadmap`, clears `isPickingOptions`, nothing else; from the open picker at most one modal stays open |
| `Panel.TeamRoadmapsPanel.ShowCreateCustomRoadmapModal` | src/components/TeamRoadmapsList/TeamRoadmaps.tsx:211-214 | sets `isCreatingRoadmap`, clears `isPickingOptions`, nothing else |
| `Panel.TeamRoadmapsPanel.CloseSelectRoadmapModal` | src/components/TeamRoadmapsList/TeamRoadmaps.tsx:220 | clears only `isAddingRoadmap` |
| `Panel.TeamRoadmapsPanel.CloseCreateRoadmapModal` | src/components/TeamRoadmapsList/TeamRoadmaps.tsx:240-242 | clears only `isCreatingRoadmap` |
| `Panel.TeamRoadmapsPanel.OnRoadmapCreated` | src/components/TeamRoadmapsList/TeamRoadmaps.tsx:243-246 | clears `isCreatingRoadmap` and reloads the configuration by the replace-on-success rule |
| `Panel.TeamRoadmapsPanel.Customize` | src/components/TeamRoadmapsList/TeamRoadmaps.tsx:517-530 | on a custom roadmap no state changes; otherwise the pending removal is cleared and the roadmap becomes the one being changed; from a state with no modal open, at most one is open after |
| `Panel.TeamRoadmapsPanel.StartRemoving` | src/components/TeamRoadmapsList/TeamRoadmaps.tsx:535-545 | the pending removal becomes this id, replacing any other |
| `Panel.TeamRoadmapsPanel.CancelRemoving` | src/components/TeamRoadmapsList/TeamRoadmaps.tsx:556-561 | clears the pending removal only |
| `Panel.TeamRoadmapsPanel.CloseCustomizeModal` | src/components/TeamRoadmapsList/TeamRoadmaps.tsx:438 | clears `changingRoadmapId` only; keeps "at most one modal open" |
| `Panel.TeamRoadmapsPanel.SetTeamResourceConfig` | src/components/TeamRoadmapsList/TeamRoadmaps.tsx:442 | the configuration saved by the customize modal replaces the cache |
| `Panel.AddToEmptyTeam` | src/components/TeamRoadmapsList/TeamRoadmaps.tsx:138-165 | an empty team shows the empty state with no modal open and the add button; a successful add then shows one card and counts one roadmap |

## Left out

- HTTP calls (`httpGet`, `httpPut`) and URLs built from environment variables: network I/O. Each response is a `Response` parameter.
- A response body that is truthy but not an array. The model's `Success` always carries a list, so the difference between `!Array.isArray(response)` (loading) and `!response` (add, delete) is not modelled.
- Toast notifications, `pageProgressMessage` and `console.log`: notifications with no effect on the modelled state.
- `window.location.href` (the redirect is returned as a flag), `window.open`, the event-listener registration and `confirm(...)` (its answer is a parameter): browser APIs.
- The interleaving of the three concurrent loads and the order of asynchronous completions. Each handler is one atomic step.
- `LoadAllRoadmaps`: the sort order itself. The comparator uses locale-dependent `localeCompare`, and it is not antisymmetric: it answers 1 whenever the first title is "Android". So the model takes the sorted list as a parameter and requires only that it is a permutation of the filtered pages.
- `visibility` is modelled as always present. On a card an absent visibility just shows no badge, which the model gives for every value other than `Me`. In a row of the "Custom Roadmaps" section (lines 376-378) the source's badge lookup would fail at run time on an absent visibility; that failure is not modelled.
- Numbers are modelled as unbounded integers. Fractional and NaN topic counts are not modelled, and neither is the exponent form JavaScript uses for magnitudes of 1e21 and above (`NumberText` always writes plain digits).
- JSX layout, CSS classes, icons, the editor links built from environment variables, and which buttons are visible or hidden behind a modal (`canManageCurrentTeam` gates the buttons; the card methods do not check it). The view records only whether the manage controls and the confirmation prompt are shown.
- The external modals and the stores, whose sources are not part of this model. They appear only through the callbacks they invoke.
