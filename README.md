# Cama-Viewer-2: a verified model of the viewer's own logic

Cama-Viewer-2 is a configuration-driven web map viewer. Almost everything it does is
delegated to a mapping SDK and the DOM. This project models the small pieces of logic the
viewer's `script.js` computes itself, and proves what they guarantee:

- **Layer filters** (`LayerFilter`, `layer_filter.dfy`). For each configured layer, two
  comboboxes are filled with the distinct values of one attribute, plus a "Show All" sentinel.
  A filter `where` string is rebuilt from the first selected item of each combobox. A reset
  control clears both selections. The comboboxes are a `Combobox` class whose `items` and
  `selectedItems` are sequences. The controller is a `Controller` class that owns the
  layer view's filter.
- **Exclusive basemaps** (`Basemap`, `basemap.dfy`). `isAnyOrthoLayerVisible`, and
  `manageBasemapVisibility`, which updates an array of base-layer records in place. When a
  tracked layer has just been switched on, the other tracked layers are switched off.
- **URL parameters** (`QueryParams`, `query_params.dfy`). This covers `getQueryParams`, the
  `split` it relies on, and the `query=Layer,Field,Value` zoom request with its `where`.
  `decodeURIComponent` is a function parameter, and its `URIError` is an explicit result.
- **Toggles** (`ViewerUi`, `viewer_ui.dfy`). It models the legend toggle, the two
  measurement buttons that share one active widget, and the collapsible side panel. These
  are a `Viewer` class whose fields are the module-level flags.
- `Wrappers` (`Option`, and the text `${v}` produces) and `Expressions` (the
  `field = 'value'` clause) are shared by the modules above.

The "Show All" item is appended synchronously, before the distinct-value query's
callback runs (script.js:602 vs 626-638). Each combobox therefore lists the sentinel FIRST
and the distinct values after it; the sentinel does not trail the values. `Controller.Populate` states
this order.

Attribute values are modelled as optional strings; `None` stands for `null` and `undefined`.
A base layer the manager has never run on has no `wasVisible` property; it is `undefined`,
modelled as `None`, and `!undefined` is true, so such a tracked layer counts as newly visible whenever
it is visible (see "## Findings").

## Model

| member | source | states |
|---|---|---|
| `Expressions.EqualsClauseInjective` | script.js:586 | for one field name, equal clauses come only from equal values: the clause determines the value it was built from |
| `LayerFilter.FilterWhereSingle` | script.js:583-595 | exactly one usable selection (present, not "", not "Show_All") yields exactly its own clause, whichever combobox holds it |
| `LayerFilter.FilterWhereBoth` | script.js:585-592 | two usable selections yield combobox 1's clause, " OR ", combobox 2's clause, with no deduplication even when the values are equal |
| `LayerFilter.FilterWhereEmptyIff` | script.js:583-595 | the `where` is "" (no restriction) if and only if neither selection is usable |
| `LayerFilter.UnescapedValueMergesClauses` | script.js:586-593 | because the value is interpolated raw, for any field and any two usable values a, b, the single value `a' OR field = 'b` gives the same `where` as selecting a and b separately |
| `LayerFilter.ZoningValueMergesClauses` | script.js:586-593 | the instance: the value `R1' OR Zoning = 'C2` filters like the two selections R1 and C2 |
| `LayerFilter.Controller.constructor` | script.js:546-569 | a controller for one field and two distinct comboboxes starts with no filter applied |
| `LayerFilter.Controller.ApplyFilters` | script.js:577-600 | the filter becomes the `where` built from the two first-selected values; it reads nothing else and changes nothing else, so reapplying it with unchanged selections sets the same filter |
| `LayerFilter.Controller.Reset` | script.js:644-650 | both selections become empty, the items stay, and the filter becomes "" whatever was selected before |
| `LayerFilter.Combobox.constructor` | script.js:566-569 | a combobox starts with the given items and no selection |
| `LayerFilter.Combobox.AppendChild` | script.js:613-621 | appending adds the item at the end and leaves the selection alone |
| `LayerFilter.Controller.AppendShowAll` | script.js:626-638 | each combobox receives exactly one sentinel item with value "Show_All" and label "Show All"; selections are unchanged |
| `LayerFilter.Controller.OnQueryResults` | script.js:602-624 | the set-guarded pass appends to both comboboxes the same items, one per distinct kept value in first-seen order, with value = label |
| `LayerFilter.Controller.Populate` | script.js:602-638 | each combobox ends with its old items, then the sentinel, then the distinct-value items; both comboboxes receive identical item lists |
| `LayerFilter.DistinctNoDuplicates` | script.js:603-611 | the collected values contain no duplicates |
| `LayerFilter.DistinctMembership` | script.js:605-611 | a string is collected if and only if it is not "" and some feature carries it: null, undefined and "" are excluded, and every other occurring value is kept |
| `LayerFilter.DistinctFirstSeenOrder` | script.js:604-611 | every collected value occurs among the features, and the collected values are ordered by the index of their first occurrence (a subsequence in first-seen order) |
| `LayerFilter.FirstIndexOfPrefix` | script.js:604 | appending a feature does not move the first occurrence of a value already present |
| `LayerFilter.SentinelNotAValueItem` | script.js:613-638 | no value item equals the sentinel item (value "Show_All", label "Show All"), so each combobox receives exactly one sentinel item, even when a feature value is "Show_All" |
| `LayerFilter.PopulatedSentinelOnce` | script.js:602-638 | a combobox that held no sentinel before it was populated holds exactly one afterwards |
| `LayerFilter.ShowAllValueBecomesItem` | script.js:603-621 | whenever some feature carries the value "Show_All", the comboboxes receive a value item ("Show_All", "Show_All") of its own |
| `LayerFilter.ShowAllValueIgnored` | script.js:585-589 | selecting a "Show_All" value in either combobox restricts nothing, as if nothing were selected there |
| `LayerFilter.ZoningScenario` | script.js:602-638 | the values R1, R1, C2, "" give distinct values R1, C2, and the items Show All, R1, C2 |
| `Basemap.IsAnyOrthoLayerVisibleIff` | script.js:178-184 | true if and only if some layer is visible and titled "Ortho 2012", "Ortho 2016" or "Ortho 2019"; the configured basemap title is not counted |
| `Basemap.FirstNewlyVisible` | script.js:194-201 | the result is the least index of a tracked layer that is visible and whose `wasVisible` is not true (false, or `undefined` before the first run), or none when there is no such layer |
| `Basemap.FindNewlyVisible` | script.js:199-201 | the scanning loop finds exactly `FirstNewlyVisible` of the array |
| `Basemap.SwitchOffOthers` | script.js:204-210 | every tracked layer other than the kept index becomes invisible; nothing else changes |
| `Basemap.SyncWasVisible` | script.js:212-215 | every tracked layer's `wasVisible` becomes its `visible`; nothing else changes |
| `Basemap.ManageBasemapVisibility` | script.js:185-216 | the array afterwards is `ManagedLayers` of the array before |
| `Basemap.ManagedExclusive` | script.js:203-210 | if a tracked layer has just become visible, the first such layer is afterwards the only visible tracked layer |
| `Basemap.ManagedKeepsVisibility` | script.js:198-210 | if no tracked layer has just become visible, no layer's visibility changes |
| `Basemap.ManagedFrame` | script.js:193-215 | titles never change, untracked layers are left exactly as they were, and every tracked layer ends with `wasVisible` recording its visibility |
| `Basemap.ManagedIdempotent` | script.js:149-155 | a second run changes nothing, so the watcher that the manager's own changes retrigger settles at once |
| `Basemap.FirstRunUndoesSwitchOn` | script.js:149-210 | on the first run, with "Ortho 2019" visible ahead of the configured basemap the user has just switched on, both count as newly visible, "Ortho 2019" wins and the user's layer is switched off |
| `Basemap.SeededSwitchOnKept` | script.js:198-215 | the same layers and switch-on, started from recorded visibility: the user's layer stays on and "Ortho 2019" is switched off |
| `Basemap.Seeded` | script.js:212-215 | recording every tracked layer's visibility, as the second pass of the manager does, leaves the layers `Recorded` |
| `Basemap.SwitchOnWins` | script.js:198-210 | from recorded layers, switching on one tracked layer makes it the newly visible one: it stays on and every other tracked layer is switched off |
| `QueryParams.Split` | script.js:98-101 | `split` yields at least one piece and no piece contains the separator |
| `QueryParams.JoinSplit` | script.js:98-101 | joining the pieces of a split with the separator gives back the string |
| `QueryParams.SplitJoin` | script.js:134-135 | splitting separator-free pieces joined by the separator gives back exactly those pieces |
| `QueryParams.SplitPrefix` | script.js:98 | a separator-free prefix stays glued to the first piece of what follows it |
| `QueryParams.GetQueryParams` | script.js:95-107 | the index loop returns the dictionary `QueryParamsOf` describes (a `__proto__` key stores nothing), or none when a decode throws |
| `QueryParams.ParamsErrorPersists` | script.js:100-105 | once a pair has thrown, the whole parse has thrown |
| `QueryParams.ParamsErrorIff` | script.js:100-105 | the parse throws if and only if some pair's key or value fails to decode |
| `QueryParams.ParamsKeySource` | script.js:96-105 | every key in the dictionary is the decoded key of some pair, and never `__proto__`, whose inherited setter ignores a string |
| `QueryParams.ParamsLastWins` | script.js:96-105 | the decoded key, other than `__proto__`, of a pair that no later pair repeats is in the dictionary, with that pair's decoded value: the last assignment wins |
| `QueryParams.OnePairQuery` | script.js:95-107 | a search string with a single `key=value` pair gives the one-entry dictionary of the decoded key and value, or an empty one when the key decodes to `__proto__` |
| `QueryParams.BareKeyValue` | script.js:101-104 | a pair without "=" decodes its whole text as the key, and `undefined` as the value, which `decodeURIComponent` reads as the text "undefined" |
| `QueryParams.ZoomRequestOfThree` | script.js:133-135 | a `query` of three comma-free pieces is read back as layer name, field name and value |
| `QueryParams.ParcelQueryExample` | script.js:95-107 | `?query=Parcel%20Boundaries,UniqueId,100` yields the single parameter `query` = "Parcel Boundaries,UniqueId,100" |
| `QueryParams.ParcelZoomExample` | script.js:133-135 | that parameter asks for layer "Parcel Boundaries", field "UniqueId", value "100" |
| `QueryParams.ParcelWhereExample` | script.js:119 | the zoom query for that request selects `UniqueId = '100'` |
| `ViewerUi.Viewer.constructor` | script.js:86-92 | on load there is no legend and no measurement widget, the panel is open and the view's left padding is 300 |
| `ViewerUi.Viewer.ToggleLegend` | script.js:364-373 | `legendVisible` flips; the legend leaves the ui if it was shown and joins it otherwise; the invariant is kept |
| `ViewerUi.Viewer.SetActiveButton` | script.js:480-490 | afterwards exactly the selected button, or none, is active |
| `ViewerUi.Viewer.SetActiveWidget` | script.js:446-478 | `None` removes the current widget if any; a kind creates that widget, adds it to the ui and activates its button |
| `ViewerUi.Viewer.ClickMeasureButton` | script.js:424-444 | clicking the active tool's button closes it, clicking the other replaces it; at most one measurement widget exists, on the ui, with the only active button |
| `ViewerUi.Viewer.TogglePanel` | script.js:310-321 | collapsing sets the sidebar width and view padding to 0, reopening sets both to 300; rotation follows the collapsed state |

## Left out

- The mapping SDK (`WebMap`, `MapView`, `FeatureLayer`, `queryFeatures`, `whenLayerView`, `goTo`, `reactiveUtils.watch`, the widgets): foreign code. Query results are a given sequence of attribute values, and the layer view's filter is a field.
- `queryAndZoom`'s layer lookup, query and navigation (script.js:112-128): SDK calls. Only the request it is given and its `where` string are modelled.
- The Parcel Boundaries renderer swap driven by `isAnyOrthoLayerVisible` (script.js:140-176): an SDK renderer object. The predicate itself is modelled.
- `fetch` of the configuration and the promise chains: I/O and asynchrony. Only the order of the sentinel append and the query callback is reflected, by `Controller.Populate` running one after the other.
- Styling, header and logo, `maxItems`, the opacity and label sliders, the search widget sources (script.js:49-84, 240-297, 491-543): UI and floating-point values on SDK objects.
- `decodeURIComponent`: kept uninterpreted, as a function of the text it is given. A missing `pair[1]` reaches it as `undefined`, which it converts to the text "undefined"; the model passes that text.
- JavaScript loose equality on non-string attribute values (`0 != ""` is false, the bitwise `&` at script.js:608): attribute values are optional strings.
- A `null` `basemapTitle` (which `${}` prints as "null"): the title is an optional string whose absence prints as "undefined".
- `LayerFilter.Controller.constructor`: requires the two comboboxes to be different objects. The configuration names two identifiers, and one element used for both is not modelled.
- `ViewerUi.Viewer.SetActiveButton`: `getElementsByClassName("active")` (script.js:483-486) takes the class from every element in the document, but the model tracks only the two measurement buttons, so other page elements losing "active" is not modelled. The loop over that live collection also skips elements when two are active at once; the model clears every active button. `Viewer.Valid` shows that at most one measurement button is ever active, so that difference never shows among them as long as no other element of the page has the class "active"; one that comes earlier in document order makes the loop skip an active measurement button, which then stays active.
- The `DOMContentLoaded` listener, `view.focus()` and widget `destroy()`: they change nothing the model observes.
- Escaping the filter value: the code interpolates it raw, and the model does the same (see `UnescapedValueMergesClauses`).

## Findings

| source | as written | input that shows it | evidently intended | confidence | as-written member | corrected member |
|---|---|---|---|---|---|---|
| script.js:149-201 | the watcher does not fire on registration, so at its first run every `wasVisible` is `undefined` and `!layer.wasVisible` holds for every visible tracked layer | "Ortho 2019" visible at load at index 0, the user switches on the configured basemap at index 1: both are newly visible, `find` picks index 0, and the user's layer is switched off | each tracked layer's visibility recorded when the watcher is registered, so the first switch-on wins like every later one | medium, not executed | `Basemap.FirstRunUndoesSwitchOn` | `Basemap.Seeded` with `Basemap.SwitchOnWins`, on the same input `Basemap.SeededSwitchOnKept` |
