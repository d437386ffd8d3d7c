# Geo-ops location views, modelled in Dafny

This project models the logic inside two views of the geo-ops New Relic One
application. Everything else in those views is presentation.

- **Location definition** (`nerdlets/geo-ops-nerdlet/DefineLocations.js`).
  The schema form reports that a location has been written. The view then
  associates that location with the current map. It checks that both guids
  are truthy. It builds the two-property record `{location, map}` and issues
  one write to the map-location store, scoped to the view's `accountId`. After
  that it calls `onLocationWrite` once, with the location outcome and the
  association outcome as two separate halves. The view's `render` also picks
  what the location list panel shows: a spinner, an empty state or the table.
- **Detail modal** (`nerdlets/root/detail-modal.js`). It finds the
  configuration whose id matches. It splits the location's entities into
  quoted INFRA and APM GUID lists. It splices those lists into the NRQL
  queries of seven charts: three on the Devices tab and four on the Apps tab.

Files:

- `wrappers.dfy`: the `Option` and `Result` values, and `JsError`, the error
  a JavaScript throw carries. It is used by both views.
- `define_locations.dfy`: module `DefineLocations`. The class
  `DefineLocationsView` holds the props `accountId` and `map` (called `geoMap`
  here) as constants. It logs every call to the external write service in
  `writeCalls` and every call to the `onLocationWrite` prop in `reports`. The
  service's answer is a parameter of the method that makes the call. The pure
  function `Submission` states what one form submission does, and the class
  methods are proved to do exactly that. `RenderListPanels` models the three
  list-panel conditions.
- `array_text.dfy`: module `ArrayText`. `JoinComma` is what a JavaScript
  array becomes inside a template literal: its elements joined with `,`.
  `SplitOn` undoes it for non-empty arrays whose elements hold no comma
  (`SplitJoin`).
- `detail_modal.dfy`: module `DetailModal`. It holds the configuration lookup,
  the domain filter, the seven query templates and the charts.

The model keeps these edge cases of the code:

- If the form's event carries no location document, the guid guard itself
  throws a `TypeError` when it reads `location.guid` (DefineLocations.js:65).
  No write is made.
- Each guid counts as falsy when it is missing or is the empty string.
- If the write service answers without `data`, reading
  `nerdStorageWriteDocument` throws. Then `onLocationWrite` is not called.
- If no configuration has the requested id, reading `config.entities` throws,
  so the modal does not render.

When the guid check fails, the awaited throw leaves `onWrite` before
`onLocationWrite` is called (DefineLocations.js:47-49). So no outcome is
reported, and `Submission` makes no report in that case.

## Model

| member | source | states |
|---|---|---|
| `DefineLocations.Truthy` | nerdlets/geo-ops-nerdlet/DefineLocations.js:65 | a guid is falsy exactly when it is missing or the empty string; a truthy guid has at least one character |
| `DefineLocations.AssociationRecord` | nerdlets/geo-ops-nerdlet/DefineLocations.js:63-70 | the association record has exactly two properties, `location` and `map`, holding the two guids |
| `DefineLocations.PlannedWrite` | nerdlets/geo-ops-nerdlet/DefineLocations.js:58-76 | a missing location fails reading `guid`; otherwise the write fails with "Error: missing location or map guids" if and only if either guid is falsy; on success it is one call scoped to the view's `accountId` whose document holds exactly the two non-empty guids |
| `DefineLocations.Submission` | nerdlets/geo-ops-nerdlet/DefineLocations.js:42-56 | one submission makes at most one write and at most one report; the write happens if and only if the guard passes; a report only follows a write whose answer has data; the location half is the form's document and error unchanged; the map-location half is `nerdStorageWriteDocument` and the write's own error; with no write, the promise rejects with the guard's error |
| `DefineLocations.WriteIgnoresLocationError` | nerdlets/geo-ops-nerdlet/DefineLocations.js:42-47 | the association write does not depend on the location write's error: it is attempted all the same |
| `DefineLocations.DefineLocationsView.constructor` | nerdlets/geo-ops-nerdlet/DefineLocations.js:20-37 | the view starts with its `accountId` and `map` props and with no writes and no reports made |
| `DefineLocations.DefineLocationsView.WriteMapLocation` | nerdlets/geo-ops-nerdlet/DefineLocations.js:58-76 | after the guard, builds the record property by property and appends exactly the planned call to the write log, or throws and leaves the log unchanged; returns the service's answer untouched |
| `DefineLocations.DefineLocationsView.OnWrite` | nerdlets/geo-ops-nerdlet/DefineLocations.js:42-56 | the write log and the report log grow by exactly what `Submission` says, and the promise settles as `Submission` says |
| `DefineLocations.SubmitTwice` | nerdlets/geo-ops-nerdlet/DefineLocations.js:42-47 | submitting the same pair twice issues two identical writes: nothing is deduplicated |
| `DefineLocations.RenderListPanels` | nerdlets/geo-ops-nerdlet/DefineLocations.js:126-149 | exactly one of spinner, empty state and table shows; the spinner shows if and only if loading; the empty state if and only if not loading and there are no locations; the table if and only if not loading and there are some |
| `ArrayText.JoinComma` | nerdlets/root/detail-modal.js:54 | an interpolated array is empty text when the array is empty; otherwise it starts with the first element, and a comma follows that element when there are more; `SplitJoin` characterises the whole text |
| `ArrayText.SplitJoin` | nerdlets/root/detail-modal.js:54 | an interpolated array of strings is its elements joined with commas, which splitting at commas gives back when the array is non-empty and no element holds a comma |
| `DetailModal.FindConfig` | nerdlets/root/detail-modal.js:20 | the result is absent if and only if no configuration has the id; otherwise it is the configuration at the first index whose id matches |
| `DetailModal.EntitiesInDomain` | nerdlets/root/detail-modal.js:21-22 | the `filter` step: no more entities than the location has, each of them one of the location's entities with the requested domain; `InDomainMembership` and `InDomainConcat` characterise it fully |
| `DetailModal.Quote` | nerdlets/root/detail-modal.js:21-22 | the `map` step: the GUID wrapped in one single quote on each side, and holding a comma exactly when the GUID does |
| `DetailModal.GuidsForNrql` | nerdlets/root/detail-modal.js:21-22 | the whole `filter`/`map` chain: no longer than the entity list, and every element is `'guid'` for some entity of the domain; `GuidsMembership` and `GuidsConcat` characterise it fully |
| `DetailModal.InDomainMembership` | nerdlets/root/detail-modal.js:21-22 | an entity is picked for a domain if and only if it belongs to the location and has that domain |
| `DetailModal.InDomainConcat` | nerdlets/root/detail-modal.js:21-22 | filtering distributes over concatenation, so the picked entities keep their original order |
| `DetailModal.GuidsConcat` | nerdlets/root/detail-modal.js:21-22 | the quoted GUID list of a concatenation is the concatenation of the lists, earlier entities first |
| `DetailModal.GuidsMembership` | nerdlets/root/detail-modal.js:21-22 | a string is in a domain's list if and only if it is `'guid'` for some entity of that domain |
| `DetailModal.InfraApmPartition` | nerdlets/root/detail-modal.js:21-22 | no entity is picked for both INFRA and APM; an entity of any other domain is picked for neither; the two lists together are no longer than the entity list |
| `DetailModal.Charts` | nerdlets/root/detail-modal.js:49-99 | the seven charts of the constant `Panels`, all scoped to the configuration's INFRA NRQL account; the first three sit on the Devices tab and embed the INFRA list, the other four sit on the Apps tab and embed the APM list |
| `DetailModal.RenderDetail` | nerdlets/root/detail-modal.js:18-26 | rendering throws reading `entities` if and only if no configuration has the id; otherwise it yields the charts of the first configuration that matches |
| `DetailModal.LineChartsAreTimeseries` | nerdlets/root/detail-modal.js:52-98 | in the constant `Panels`, which holds the seven templates of the source, a panel is a line chart if and only if its template asks for a time series |
| `DetailModal.TimeseriesOnLineCharts` | nerdlets/root/detail-modal.js:52-98 | a chart's query ends in `TIMESERIES SINCE <minutes> MINUTES AGO` if and only if it is a line chart, and in `FACET <facet> SINCE <minutes> MINUTES AGO` if and only if it is a table chart |
| `DetailModal.SharedSinceClause` | nerdlets/root/detail-modal.js:53-97 | every one of the seven queries ends with the same `SINCE <minutes> MINUTES AGO` clause |
| `DetailModal.NrqlHead` | nerdlets/root/detail-modal.js:54-97 | the fixed head of a query template starts `FROM <event type>` and ends `entityGuid in (` |
| `DetailModal.NrqlTail` | nerdlets/root/detail-modal.js:54-97 | the fixed tail of a query template starts `)` and ends `SINCE <minutes> MINUTES AGO` |
| `DetailModal.Nrql` | nerdlets/root/detail-modal.js:54-97 | a filled-in query starts `FROM <event type>` and ends `SINCE <minutes> MINUTES AGO`; `NrqlSlices` and `TimeseriesClause` give its full shape |
| `DetailModal.TimeseriesClause` | nerdlets/root/detail-modal.js:54-97 | a template's query carries ` TIMESERIES` before its `SINCE` clause if and only if the template asks for a time series |
| `DetailModal.NrqlSlices` | nerdlets/root/detail-modal.js:54-97 | every query template is a fixed head ending `entityGuid in (`, then the joined GUID list, then a fixed tail starting `) FACET` |
| `DetailModal.EmptyListClause` | nerdlets/root/detail-modal.js:54-97 | with an empty GUID list a query reads `entityGuid in ()` |
| `DetailModal.GuidListReadBack` | nerdlets/root/detail-modal.js:54-97 | between the fixed head and tail of each query lies exactly the comma-joined GUID list of its tab's domain, read back in order when no GUID holds a comma; an empty list leaves `entityGuid in ()` |
| `DetailModal.TabUsesOnlyItsDomain` | nerdlets/root/detail-modal.js:49-100 | two locations with the same entities in a tab's domain get the same chart there, so Devices queries depend only on INFRA entities and Apps queries only on APM entities |

## Left out

- All JSX rendering and the `nr1` widgets (`Modal`, `Tabs`, `LineChart`, `TableChart`, `Spinner`, `Button`). `EmptyState`, `LocationTable`, `EntityTable` and `JsonSchemaForm` are left out too. They are presentation or foreign code. A chart is modelled only as its tab, widget kind, account and query text.
- The services `writeLocation`, `getLocation` and `writeMapLocation` from `shared/services` are not part of this model. The map-location write is a logged call whose `{data, error}` answer is a parameter. A service promise that rejects is not modelled.
- The file-upload input, the `console.log` error callback and the commented-out error list are left out.
- The `since` text computed with `moment` is left out, because it depends on the wall clock and on a foreign library.
- The minute count `duration/1000/60` is JavaScript floating point. The model takes the minutes as the text the template literal prints.
- The contents of `geoopsConfig` and the `LOCATION_*` schema constants are not shown in the source. A configuration is modelled as its id and its INFRA NRQL account id only.
- `DefineLocations.Truthy`: a guid is a string that is present or absent. Other falsy JavaScript values (`0`, `false`, `NaN`) count as absent, and non-string truthy values are not modelled.
- `DetailModal.FindConfig`: the loose `==` between ids is modelled as string equality. Cross-type coercion (a number id against a string) is not modelled.
- `DefineLocations.RenderListPanels`: `locations` is assumed to be an array. An undefined `locations` prop would throw on `.length` when not loading, and that is not modelled.
- `DefineLocations.DefineLocationsView.OnWrite`: the form event's outer `document` object is assumed to be present, and `onLocationWrite` is assumed to be supplied. A missing one of either would throw a `TypeError`, and neither case is modelled.
- Async scheduling and the event loop are left out. Each `onWrite` runs to completion before the next one starts.
