# Product roadmap: verified model of the screens' state logic and the auth gate

The roadmap application shows product projects on two screens. The roadmap
screen shows a Gantt, list, Kanban and table view of every project that is not
in the "Backlog" status. The backlog screen is a table of the projects that are.
Each screen keeps a `features` list in its state. The list holds project rows
from the database, turned into a view-model by `transformProject`. Both
screens have create, update and delete handlers that change it. The roadmap
screen also has the Gantt move and the List and Kanban drag handlers; the
backlog screen has neither.

Before a create or update writes anything, it checks the form's required
fields and picks a default initiative and release from the start date's
distance to today. What it resolves against the reference tables depends on
the screen:

- roadmap create and update: the form's stream, status and owner names; the
  create falls back to the "Product Team" user when the owner is not found;
- backlog create: the form's stream, the literal "Backlog" status (the form's
  status is ignored) and the "Product Team" user as owner;
- backlog update: the form's stream and status; it writes no owner.

A middleware gates every page behind a session cookie. An API route sets or
deletes that cookie on login and logout.

The model has one Dafny module per concern:

- `Common`: `Option`, `Date` as a (year, 0-based month, day) triple, and the
  three array operations every update is built from. `Find`, `Filter` and
  `MapWhere`/`MapSeq` model JavaScript's `find`, `filter` and `map`, with
  recursive contracts and induction lemmas.
- `Records`: the database rows, the `Feature<O>` view-model and the dialog
  forms. It also holds the insert and update payloads, and the handler
  outcomes (`Outcome`: the alert that stopped
  the handler, or `Cancelled`, or `Saved`). `Plan` is the part of a handler before
  its write: the alert that stops it, or the payload it sends.
- `Bucket`: the month-distance rule. It has a pure `Pick` and the handlers'
  step-by-step `SelectBuckets`, which is proved equal to `Pick`.
- `Transform`: the two `transformProject` functions and the load-time Backlog
  filters.
- `FeatureList`: remove, replace, move and re-status by id, the stream toggle
  and the stream filter.
- `RoadmapPage`: the class `Roadmap`, holding the screen's state, with one
  method per handler. Its invariant `Valid()` says that no entry is in
  Backlog. Each create and update method is proved equal to a pure plan
  function (`PlanCreate`, `PlanUpdate`) up to the write. The write's result
  is then applied to the list.
- `BacklogPage`: the class `Backlog`, the backlog screen with its own plans.
- `Session` and `Middleware`: the routing decision.
- `AuthRoute`: the class `CookieStore`, with the `POST` transition on the
  cookie jar and the `GET` check.

Persistence and the browser dialogs become parameters of the handler methods:

- `refs: Option<RefData>` is the reference-table fetch; `None` means it
  rejected.
- `reply: Option<ProjectRow>` is the row the insert or update returned; `None`
  means the write rejected.
- `confirmed` is the answer to the delete confirmation.
- `deleted` says whether the delete call succeeded.
- `now` is today's date.

The create, update and delete handlers also return what they sent to the
database, so the contracts can say what was written. The move and drag
handlers write nothing to the database.

The backlog screen's update replaces the entry in place whatever status comes
back (`src/app/backlog/page.tsx:496-499`). Unlike the roadmap screen
(`src/app/page.tsx:1006-1008`), it never drops an entry that leaves Backlog.

The backlog transformer reads `owner.image`. The `Owner` row type
(`src/types/database.ts:3-15`) has `avatar_url` and no `image`. The model gives
`OwnerRow` an optional `image` field, so the transformer reads what the code
reads.

## Model

| member | source | states |
|---|---|---|
| `Common.Find` | src/app/page.tsx:868-873 | `find` returns nothing exactly when no element matches; what it returns is an element of the list that matches |
| `Common.FindFirst` | src/app/page.tsx:815 | `find` returns the first match: a matching element with no match before it is what comes back |
| `Common.Filter` | src/app/page.tsx:775-776 | `filter` keeps exactly the matching elements, each one of the input, returns the input itself when every element matches |
| `Common.FilterAppend` | src/app/page.tsx:913-914 | filtering a concatenation is concatenating the filtered parts, so kept elements stay in their order |
| `Common.FilterIdempotent` | src/app/page.tsx:775-776 | filtering twice with the same test is filtering once |
| `Common.FilterNone` | src/app/page.tsx:775-776 | `filter` keeps nothing when no element matches |
| `Common.FilterCount` | src/app/page.tsx:1007 | filtering keeps every occurrence of a matching element and no occurrence of another |
| `Common.MapWhere` | src/app/page.tsx:1010 | a conditional `map` keeps the length, rewrites exactly the matching positions and leaves the others as they were |
| `Common.MapSeq` | src/app/page.tsx:784 | `map` keeps the length and applies the callback at every position |
| `Common.FilterMapSeq` | src/app/backlog/page.tsx:295-298 | mapping then filtering on a property of the mapped value equals filtering the rows that have it, then mapping |
| `Common.OrEmpty` | src/app/page.tsx:704 | the fallback to "" gives the empty string for null and the value otherwise |
| `Common.OrNull` | src/app/page.tsx:901 | the fallback to null gives null exactly for the empty string and the string otherwise |
| `Common.OrNullOpt` | src/app/page.tsx:717 | the fallback to null on an optional value keeps a non-empty value and gives null for null or "" |
| `Common.OrNullOrEmpty` | src/app/page.tsx:704 | a description written with the fallback to null and read back with the fallback to "" is unchanged |
| `Records.StreamNamed` | src/app/page.tsx:868 | the stream looked up by name is a row of the list with that name, and nothing comes back exactly when no row has it |
| `Records.StatusNamed` | src/app/page.tsx:869 | the status looked up by name is a row of the list with that name, and nothing comes back exactly when no row has it |
| `Records.OwnerNamed` | src/app/page.tsx:870-872 | the owner looked up by name is a row of the list with that name, and nothing comes back exactly when no row has it |
| `Records.UserNamed` | src/app/page.tsx:873 | the user looked up by name is a row of the list with that name, and nothing comes back exactly when no row has it |
| `Records.RowId` | src/app/page.tsx:906-908 | `row?.id \|\| null` (also at src/app/page.tsx:997 for the owner) is null exactly for a missing row or an empty id, and the row's id otherwise |
| `Bucket.MonthsDiff` | src/app/page.tsx:882-885 | the month distance is the difference of the two months counted from year 0: within a year the month difference, across years twelve per year |
| `Bucket.Pick` | src/app/page.tsx:887-896 | the reference rule: null exactly for an empty list, the element at the window's index when the list is long enough, element 0 otherwise |
| `Bucket.MonthsDiffAddMonths` | src/app/page.tsx:882-885 | a date k calendar months from now is at month distance exactly k, across year boundaries |
| `Bucket.Classify` | src/app/page.tsx:887-896 | the window is 0 exactly below 3 months (the past included), 1 exactly for 3 to 5, 2 exactly from 6 |
| `Bucket.ClassifyMonotone` | src/app/page.tsx:890-896 | a later start date never falls in an earlier window |
| `Bucket.ClassifyBoundaries` | src/app/page.tsx:881-896 | today and last month give window 0, three months ahead window 1, six months ahead window 2 |
| `Bucket.PickCases` | src/app/page.tsx:887-896 | an empty list gives null; below 3 months element 0; 3 to 5 months element 1, or element 0 for a one-element list; from 6 months element 2, or element 0 for a list shorter than three, never element 1 |
| `Bucket.PickInFirstThree` | src/app/backlog/page.tsx:353-368 | the default is always one of the first three elements |
| `Bucket.SelectBuckets` | src/app/page.tsx:881-896 | the step-by-step reassignment of `initiative` and `release` yields `Pick` of each list for the start date's month distance |
| `Transform.RoadmapFeature` | src/app/page.tsx:701-740 | total; null description becomes ""; a null owner, initiative or release becomes the empty-string object; `group` and `product` are both the stream; status copied unchanged |
| `Transform.BacklogFeature` | src/app/backlog/page.tsx:101-139 | the same, with the owner reduced to id, name and the image or "" |
| `Transform.TransformersAgree` | src/app/backlog/page.tsx:101-139 | the two screens' transformers agree on everything but the owner's display fields |
| `Transform.FilterOutBacklog` | src/app/page.tsx:775-776 | keeps exactly the entries whose status is not "Backlog" |
| `Transform.RoadmapLoad` | src/app/page.tsx:783-785 | the roadmap load holds no Backlog entry and holds the transform of every non-Backlog row |
| `Transform.BacklogLoad` | src/app/backlog/page.tsx:296-298 | the backlog load holds only Backlog entries and the transform of every Backlog row |
| `Transform.RoadmapLoadRows` | src/app/page.tsx:783-785 | the roadmap load is the non-Backlog rows, transformed, in fetched order |
| `Transform.BacklogLoadRows` | src/app/backlog/page.tsx:295-299 | the backlog load is exactly the Backlog rows, transformed, in fetched order |
| `Transform.LoadsPartition` | src/app/backlog/page.tsx:298 | every fetched project is on the screen its status selects: a Backlog project on the backlog screen, any other on the roadmap |
| `FeatureList.RemoveId` | src/app/page.tsx:203 | removal keeps exactly the entries with another id; an absent id leaves the list as it was |
| `FeatureList.RemovePresentId` | src/app/backlog/page.tsx:429 | with unique ids, removing a present id shortens the list by exactly one |
| `FeatureList.FilterKeepsUniqueIds` | src/app/page.tsx:1007 | filtering never breaks id uniqueness |
| `FeatureList.RemoveKeepsUniqueIds` | src/app/page.tsx:203 | after removal the id is gone and ids stay unique |
| `FeatureList.ReplaceId` | src/app/page.tsx:1010 | replacement keeps the length, puts the new record at every position with that id and leaves the rest as they were |
| `FeatureList.MoveId` | src/app/page.tsx:218-222 | a move changes only `startAt`/`endAt` of the entries with that id |
| `FeatureList.SetStatusId` | src/app/page.tsx:344-352 | a drag changes only the status of the entries with that id |
| `FeatureList.UpdatesKeepIds` | src/app/page.tsx:1010 | replace (when the replacement carries the replaced id), move and re-status keep ids unique |
| `FeatureList.AppendFreshId` | src/app/backlog/page.tsx:386 | appending a record with a new id keeps ids unique |
| `FeatureList.ToggleStream` | src/app/page.tsx:831-837 | toggling flips whether the name is selected and leaves every other name as it was |
| `FeatureList.ToggleTwiceSameSet` | src/app/page.tsx:831-837 | toggling the same name twice restores the selected set |
| `FeatureList.ToggleTwiceUnselected` | src/app/page.tsx:834-836 | from an unselected name, toggling twice restores the list itself |
| `FeatureList.StreamFilter` | src/app/page.tsx:839-841 | the filtered view holds exactly the entries whose stream is selected, and everything when every stream is |
| `FeatureList.StreamFilterOrder` | src/app/page.tsx:839-841 | the filtered view keeps the original order |
| `FeatureList.StreamFilterNone` | src/app/page.tsx:839-841 | with no stream selected the filtered view is empty |
| `FeatureList.StreamFilterCount` | src/app/page.tsx:839-841 | the filtered view keeps each selected-stream entry as often as it occurs and no other |
| `RoadmapPage.ColumnNamed` | src/app/page.tsx:338 | the List drop target resolves to the status column with that name, or none when no column has it |
| `RoadmapPage.ColumnWithId` | src/app/page.tsx:429 | the Kanban drop target resolves to the status column with that id, or none when no column has it |
| `RoadmapPage.ColumnsAreNotBacklog` | src/app/page.tsx:144-150 | no status column is Backlog |
| `RoadmapPage.AppendOutsideBacklog` | src/app/page.tsx:913-914 | after a create the old entries are as they were, with the new one last unless it is Backlog, in which case the list is unchanged |
| `RoadmapPage.EmptyForm` | src/app/page.tsx:752-760 | the create and edit forms start, and are reset, with every text field empty and both dates today |
| `RoadmapPage.FirstId` | src/app/page.tsx:906 | the owner id is the selected owner's id, else the default user's, and null only when neither resolves |
| `RoadmapPage.EditFormOf` | src/app/page.tsx:814-829 | the edit form holds the entry's id, name, stream, dates, status name, owner name and description |
| `RoadmapPage.PlanCreate` | src/app/page.tsx:843-911 | an empty name, stream or status stops with the fields alert; a failed fetch fails; an unresolved stream or status stops with the selection alert; otherwise the payload carries the form's name and description, the ids of a stream and status with the form's names, the owner or else the "Product Team" user, the month-window initiative and release, and progress 0 |
| `RoadmapPage.PlanUpdate` | src/app/page.tsx:935-1000 | the same guards; the payload carries the edited id and sets `owner_id` to the resolved owner or null, with no default user |
| `RoadmapPage.ApplyUpdate` | src/app/page.tsx:1005-1011 | a Backlog result removes every entry with the id and adds nothing; any other result replaces those entries in place, keeping the length; every entry with another id stays |
| `RoadmapPage.ApplyUpdateKeeps` | src/app/page.tsx:1005-1011 | an update keeps the screen free of Backlog; a Backlog result removes the id; any other keeps the length; every entry with another id stays |
| `RoadmapPage.StreamNamedFindsRow` | src/app/page.tsx:868 | with unique stream names the lookup finds the row itself |
| `RoadmapPage.StatusNamedFindsRow` | src/app/page.tsx:869 | with unique status names the lookup finds the row itself |
| `RoadmapPage.EditUnchangedWritesBack` | src/app/page.tsx:989-1000 | saving an unchanged edit form writes back the project's own name, description, dates, stream and status |
| `RoadmapPage.DragOnView` | src/app/page.tsx:344-353 | the drag as written leaves the store holding only entries of selected streams, never more entries than before |
| `RoadmapPage.DragDropsEveryHidden` | src/app/page.tsx:1591-1601 | for any store, the drag as written drops every entry of a deselected stream |
| `RoadmapPage.DragDropsUnlistedStream` | src/app/page.tsx:344-353 | even with the initial selection of all five streams, the drag as written drops every entry of any other stream |
| `RoadmapPage.DragOnViewDropsHidden` | src/app/page.tsx:344-353 | the drag as written loses the entries of deselected streams; the same drag on the whole store keeps them |
| `RoadmapPage.Roadmap.FilteredFeatures` | src/app/page.tsx:839-841 | what the views render is exactly the entries of selected streams |
| `RoadmapPage.Roadmap.constructor` | src/app/page.tsx:742-770 | the screen starts empty, with every stream selected, empty forms and closed dialogs |
| `RoadmapPage.Roadmap.Load` | src/app/page.tsx:779-791 | a successful fetch loads the transformed non-Backlog projects; a failed fetch changes nothing |
| `RoadmapPage.Roadmap.CreateProject` | src/app/page.tsx:843-933 | follows `PlanCreate`; a rejection or failed insert changes nothing; a saved create sets `filterOutBacklog(old ++ [new])`, closes the dialog and resets the form, keeping the screen free of Backlog |
| `RoadmapPage.Roadmap.EditFeature` | src/app/page.tsx:814-829 | an entry with the id fills the edit form and opens the dialog; an absent id changes nothing |
| `RoadmapPage.Roadmap.UpdateProject` | src/app/page.tsx:935-1031 | follows `PlanUpdate`; a rejection or failed write changes nothing; a saved update applies `ApplyUpdate`, closes the dialog and resets the form |
| `RoadmapPage.Roadmap.RemoveFeature` | src/app/page.tsx:193-208 | `deleteProject(id)` is sent exactly when confirmed; a declined confirmation or failed delete changes nothing; a delete removes the id |
| `RoadmapPage.Roadmap.MoveFeature` | src/app/page.tsx:213-225 | a move without an end date changes nothing; otherwise only that id's dates change |
| `RoadmapPage.Roadmap.DragEndList` | src/app/page.tsx:331-353 | the corrected drag (see Findings; the source maps the filtered prop at src/app/page.tsx:344): no target or an unknown column name changes nothing; otherwise only the dragged entry's status changes, on the whole store, so entries of hidden streams survive |
| `RoadmapPage.Roadmap.DragEndKanban` | src/app/page.tsx:422-444 | the corrected drag of the Kanban view (the source maps the filtered prop at src/app/page.tsx:435): the same with the column matched by id |
| `RoadmapPage.Roadmap.ToggleStream` | src/app/page.tsx:831-837 | flips whether the stream is selected |
| `RoadmapPage.Roadmap.SelectAllStreams` | src/app/page.tsx:1523-1525 | "Select All" selects exactly the five streams, so every entry of one of them is shown |
| `RoadmapPage.Roadmap.ClearAllStreams` | src/app/page.tsx:1532 | "Clear All" selects no stream, so the filtered view is empty |
| `BacklogPage.EmptyForm` | src/app/backlog/page.tsx:272-288 | the forms start, and are reset, empty with the status preset to "Backlog" and both dates today |
| `BacklogPage.EditFormOf` | src/app/backlog/page.tsx:406-420 | the edit form holds the entry's id, name, stream, dates, status name and description |
| `BacklogPage.PlanCreate` | src/app/backlog/page.tsx:320-383 | only name and stream are required; the status is always the one named "Backlog"; the owner is always the "Product Team" user's id or null |
| `BacklogPage.CreateIgnoresFormStatus` | src/app/backlog/page.tsx:344 | the create form's status has no influence on what is written |
| `BacklogPage.PlanUpdate` | src/app/backlog/page.tsx:436-494 | name and stream required; stream and status resolved from the form; the payload has no `owner_id` |
| `BacklogPage.Backlog.constructor` | src/app/backlog/page.tsx:264-289 | the screen starts empty, with forms preset to Backlog and closed dialogs |
| `BacklogPage.Backlog.Load` | src/app/backlog/page.tsx:291-304 | a successful fetch loads exactly the transformed Backlog projects; a failed fetch changes nothing |
| `BacklogPage.Backlog.CreateProject` | src/app/backlog/page.tsx:320-404 | follows `PlanCreate`; a saved create appends the record with no Backlog filter |
| `BacklogPage.Backlog.EditFeature` | src/app/backlog/page.tsx:406-420 | an entry with the id fills the edit form and opens the dialog; an absent id changes nothing |
| `BacklogPage.Backlog.DeleteFeature` | src/app/backlog/page.tsx:422-434 | `deleteProject(id)` is sent exactly when confirmed; a declined confirmation or failed delete changes nothing; a delete removes the id |
| `BacklogPage.Backlog.UpdateProject` | src/app/backlog/page.tsx:436-518 | follows `PlanUpdate`; a saved update replaces the entries with the id in place, whatever status comes back |
| `Session.IsAuthenticated` | src/middleware.ts:9 | authenticated exactly when the cookie is present with the value "authenticated"; a missing cookie or any other value is not |
| `Middleware.Route` | src/middleware.ts:7-30 | API paths pass; an unauthenticated visitor is sent to "/login" from every other page; an authenticated one is sent from "/login" to "/"; everything else passes; a redirect never targets the requested path |
| `Middleware.RedirectSettles` | src/middleware.ts:20-27 | following a redirect with the same session is never redirected again |
| `Middleware.LoginReachableSignedOut` | src/middleware.ts:29 | without the session the login page passes |
| `AuthRoute.SessionOf` | src/app/api/auth/route.ts:56 | the session value is present exactly when the jar holds the session cookie |
| `AuthRoute.CookieStore.Read` | src/app/api/auth/route.ts:55-56 | the read of the store succeeds and sees the session value exactly when the jar holds the session cookie |
| `AuthRoute.Check` | src/app/api/auth/route.ts:53-65 | `GET` reports authenticated exactly when the cookie value is "authenticated", and false on a read error |
| `AuthRoute.CookieStore.Post` | src/app/api/auth/route.ts:14-51 | a malformed body gives 500 and no change; "logout" deletes the cookie and succeeds whatever the credentials; exact credentials set "authenticated" for 604800 seconds; anything else gives 401 and no change; other cookies are untouched |
| `AuthRoute.LoginOpensPages` | src/app/api/auth/route.ts:27-37 | after a login every non-API page but "/login" passes the middleware and "/login" goes home; after a logout every non-API page but "/login" goes to "/login" |

## Left out

- Date parsing and serialisation are not modelled. This covers
  `new Date(start_date)` and `toISOString().split("T")[0]`. Dates are
  (year, month, day) triples copied as they are, and no claim is made about a
  day shift across time zones.
- `Intl.DateTimeFormat`, date-fns `format`, lodash `groupBy` and the
  `localeCompare` group sorting in the Gantt view are not modelled. They are
  presentation, and their behaviour lives in libraries.
- `Promise.all` is modelled as one result. The fetches run concurrently, and
  any rejection fails the handler. This is the `refs` parameter.
- The `isCreating`/`isUpdating` busy flags, the `loading` flag, `console`
  logging and the text of `alert` are not modelled. Each alert is an
  `Outcome`.
- `confirm` is not modelled. Its answer is the `confirmed` parameter.
- `handleViewFeature`, the details dialog and `selectedFeature` are not
  modelled. They only display an entry.
- `handleCopyLink`, `handleCreateMarker` and `handleAddFeature` are not
  modelled. They only log.
- The owner list fetched on mount (`fetchOwnersList`) and the status options
  of the backlog screen are not modelled. They only feed dialog pickers.
- JSX rendering, dialogs, tabs, the sidebar, the logout button and the layout
  are not modelled.
- The database queries and server actions (`src/lib/db/queries.ts`,
  `src/lib/actions/index.ts`) are not modelled. A write is the `reply`
  parameter. What the database does with the payload is not part of this
  model.
- Cookie attributes (`httpOnly`, `secure`, `sameSite`, `path`) and the
  middleware's `config.matcher` are not modelled. A cookie is its value and
  max age.
- The request body is reduced to three optional strings. A field that is
  missing or not a string cannot equal a string literal, so it is `None`. A
  body that is not JSON, or is the literal `null`, makes the handler throw
  and is `None` as a whole (500). Any other body that is not an object (a
  number, a string, a boolean, an array) destructures to three absent fields:
  it is `Some(Body(None, None, None))` and is answered 401.
- Each handler is modelled as one atomic step from the state it starts in.
  The source reads the render-time `features` after its awaits:
  `filterOutBacklog([...features, transformed])` at src/app/page.tsx:914,
  `[...features, transformed]` at src/app/backlog/page.tsx:386 and
  `features.map(...)` at src/app/backlog/page.tsx:498. A delete
  (src/app/page.tsx:203, src/app/backlog/page.tsx:429) or a Gantt move
  (src/app/page.tsx:218) that lands while such a request is pending is then
  overwritten. That lost update is not captured. Nor is the create dialog's
  `onOpenChange` (src/app/page.tsx:1091), which stays enabled during a create.
- Id uniqueness is not an invariant of the classes. The source never enforces
  it. The lemmas that need it take it as a hypothesis.

## Findings

| source | as written | input that shows it | evidently intended | confidence | as-written member | corrected member |
|---|---|---|---|---|---|---|
| src/app/page.tsx:344-353 | the List and Kanban drag handlers (src/app/page.tsx:344, src/app/page.tsx:435) map the `filteredFeatures` prop (src/app/page.tsx:1591-1601) and hand the result to `setFeatures`, so the store becomes the filtered view | a Payments entry and a Rewards entry with only Payments selected, Payments entry dragged to "Done": the Rewards entry is gone from the store; even with all five streams selected, dragging any entry drops an entry whose stream is "Platform" | update the whole store, as the Gantt move does with `prev.map` | medium, not executed | `RoadmapPage.DragOnView` (with `RoadmapPage.DragDropsEveryHidden`, `RoadmapPage.DragDropsUnlistedStream`, `RoadmapPage.DragOnViewDropsHidden`) | `RoadmapPage.Roadmap.DragEndList` (and `RoadmapPage.Roadmap.DragEndKanban`) |
