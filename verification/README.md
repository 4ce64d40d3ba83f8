# Journey planner core, modelled in Dafny

The application lets a signed-in user plot an ordered list of named places on
a map, save it as a named journey, list their saved journeys, rename them,
and ask a routing service for directions between the places. This project
models the pieces of it that make decisions or transform lists, as pure
functions over immutable datatypes:

- `JourneyModel` (`journey_model.dfy`): the journey document and its stops,
  and the schema's rules on creation: the owner is required, the name
  defaults to "Vi vu", both timestamps are set.
- `MapContext` (`map_context.dfy`): the client map store (locations, center,
  journey name, clicked place), its mount state, its setters, the
  properties update by location id, and the reset.
- `JourneysRoute` (`journeys_route.dfy`): the `POST` (save) and `GET` (list)
  handlers of the journey collection route. Each is a function from the
  session lookup, the parsed body and the database to a response and the
  stored documents afterwards. The list is filtered by owner and sorted
  newest first.
- `DirectionsRoute` (`directions_route.dfy`): the directions proxy. It
  checks the coordinates, then the routing-service key, then relays the
  routing service's answer. Its result records the upstream request, if one
  was made.
- `JourneyDrawer` (`journey_drawer.dfy`): the drawer's list loading, the
  rename bookkeeping after a `PATCH`, and a journey card's edit mode.
- `Http` and `Wrappers`: shared shapes. An awaited call either threw or
  produced a value. A body field is absent, not an array, or an array. A
  response is a status and a body.

Side effects become inputs and outputs:

- the session lookup, body parse, database calls, `fetch` and the
  environment key are parameters;
- "a journey was created" is the store growing by one document;
- "the routing service was called" is a recorded `UpstreamCall`;
- "the error is raised again" is a `raised` flag.

Two behaviours of the code are worth stating on their own:

- `JourneysRoute.SaveJourney` accepts an empty `locations` array: the handler
  only checks `Array.isArray`, not the length.
- `MapContext.SetLocations` accepts any list, the empty one included. The
  search panel, not the store, refuses to remove the last stop
  (app/[map]/SearchPanel.tsx:117-119).

## Model

| member | source | states |
|---|---|---|
| JourneyModel.Create | app/models/Journey.ts:14-30 | creation fails exactly when no owner is given; otherwise the document has that owner, the given stops as the model's `Location` carries them, the given name or "Vi vu" when none, and createdAt = updatedAt = the insert time |
| JourneyModel.CreateDraftOf | app/models/Journey.ts:3-30 | a never-updated journey is exactly what creating it from its own owner, name and stops yields (the record shape loses nothing) |
| JourneyModel.DefaultNameIsExplicitDefault | app/models/Journey.ts:21-24 | omitting the name and passing "Vi vu" create the same document |
| MapContext.Initial | app/context/MapContext.tsx:6-45 | the mount state has one location, id "initial", named "Thành phố Hồ chí Minh", at the default center without properties; center is the default, the journey name is empty, no place is clicked |
| MapContext.SetLocations | app/context/MapContext.tsx:38-45 | replaces the location list and keeps the other three fields |
| MapContext.SetCenter | app/context/MapContext.tsx:35 | replaces the center and keeps the other three fields |
| MapContext.SetJourneyName | app/context/MapContext.tsx:36 | replaces the journey name and keeps the other three fields |
| MapContext.SetClickedPlace | app/context/MapContext.tsx:37 | replaces the clicked place and keeps the other three fields |
| MapContext.UpdateProperties | app/context/MapContext.tsx:47-52 | same length and order; every location keeps id, name, lat and lon; those with the given id get exactly the given properties, all others are unchanged |
| MapContext.UpdateLocationProperties | app/context/MapContext.tsx:47-54 | only the location list changes; center, journey name and clicked place are kept |
| MapContext.UpdateUnknownIdIsNoOp | app/context/MapContext.tsx:49-51 | an id no location carries leaves the list unchanged |
| MapContext.UpdatePropertiesIdempotent | app/context/MapContext.tsx:49-51 | applying the same update twice equals applying it once |
| MapContext.UpdateKeepsIds | app/context/MapContext.tsx:49-51 | the ids present in the list are the same before and after an update |
| MapContext.ResetMap | app/context/MapContext.tsx:56-68 | from any state, the result is the mount state |
| MapContext.ResetForgetsHistory | app/context/MapContext.tsx:56-68 | reset gives the same state from any two prior states and is idempotent |
| JourneysRoute.Caller | app/api/journeys/route.ts:11 | a caller exists exactly when there is a session and it has a user, and it is that user's id |
| JourneysRoute.SaveJourney | app/api/journeys/route.ts:7-41 | 401 without a user, before the body is read; 400 when locations is not an array; 500 on any exception; 200 exactly when all steps succeed, and then the store grows by one journey owned by the caller, named "Vi vu", holding the given locations as the model's `Location` carries them, with createdAt = updatedAt = the insert time; otherwise the store is unchanged |
| JourneysRoute.AuthBeforeValidation | app/api/journeys/route.ts:9-23 | without a user the outcome does not depend on the body or the database, and it is 401 |
| JourneysRoute.OwnedBy | app/api/journeys/route.ts:53-54 | the result holds exactly the stored journeys of the owner, each as many times as it is stored |
| JourneysRoute.InsertNewestFirst | app/api/journeys/route.ts:55 | inserting into a newest-first list keeps it newest first and adds exactly the one journey |
| JourneysRoute.SortNewestFirst | app/api/journeys/route.ts:55 | the result is newest first by createdAt and a permutation of the input |
| JourneysRoute.SortKeepsNewestFirst | app/api/journeys/route.ts:55 | a list already newest first is returned unchanged by the sort, so sorting a listing again changes nothing |
| JourneysRoute.ListJourneys | app/api/journeys/route.ts:43-65 | 401 without a user; 500 on any exception; otherwise 200 with a newest-first list holding exactly the caller's stored journeys, with multiplicity |
| JourneysRoute.SavedJourneyIsListed | app/api/journeys/route.ts:27-57 | a journey saved by a user is in that user's next listing and in no other user's |
| DirectionsRoute.GetDirections | app/api/directions/route.ts:3-49 | 400 unless coordinates is an array of two or more; then 500 without a non-empty key; only then an upstream call carrying the key and the coordinates unchanged; a failed upstream answer is relayed with its status and body, a successful one with 200; an exception is 500 |
| DirectionsRoute.CoordinatesCheckedBeforeKey | app/api/directions/route.ts:7-21 | too few coordinates give 400 whatever the key and the routing service would do |
| DirectionsRoute.NoCallMeansOwnError | app/api/directions/route.ts:7-23 | every outcome without an upstream call is the handler's own 400 or 500 error |
| JourneyDrawer.FetchJourneys | app/components/map/JourneyDrawer.tsx:149-162 | loading ends false in every outcome; the list is replaced by the reply's list only on an ok, parsed reply and kept otherwise |
| JourneyDrawer.FirstLoad | app/components/map/JourneyDrawer.tsx:146-162 | from the mounted drawer (empty list, not loading), a load leaves the list empty on any failure and shows exactly the received list on success, and loading ends false |
| JourneyDrawer.FetchShowsCallersJourneys | app/components/map/JourneyDrawer.tsx:149-162 | fed by the listing route, the drawer keeps its list on failure or shows exactly the caller's journeys newest first |
| JourneyDrawer.Rename | app/components/map/JourneyDrawer.tsx:180-182 | same length and order; the journey with the given id is the old one with the new name and all other fields kept; every other journey is unchanged |
| JourneyDrawer.HandleUpdateName | app/components/map/JourneyDrawer.tsx:170-189 | the PATCH carries the id in its path and the new name; the error is raised again exactly when the request throws or is not ok, and then the list is unchanged; otherwise the list is renamed |
| JourneyDrawer.RenameUnknownIdIsNoOp | app/components/map/JourneyDrawer.tsx:180-182 | renaming an id absent from the list changes nothing |
| JourneyDrawer.RenameIdempotent | app/components/map/JourneyDrawer.tsx:180-182 | renaming twice to the same name equals renaming once |
| JourneyDrawer.RenameKeepsListing | app/components/map/JourneyDrawer.tsx:180-182 | a newest-first list of one owner's journeys stays newest first and that owner's after a rename |
| JourneyDrawer.CancelEdit | app/components/map/JourneyDrawer.tsx:65-68 | always leaves edit mode and resets the form to the journey's name |
| JourneyDrawer.CancelUndoesEdit | app/components/map/JourneyDrawer.tsx:65-68 | entering edit mode, typing anything and cancelling restores the card as first shown |
| JourneyDrawer.Submit | app/components/map/JourneyDrawer.tsx:51-63 | an empty name is refused by the form; the unchanged name leaves edit mode without calling the update; otherwise the update is called and edit mode is left exactly when it succeeds |
| JourneyDrawer.SubmitRename | app/components/map/JourneyDrawer.tsx:51-62 | wired to the drawer's rename: an unchanged name sends nothing; a failed rename keeps list and card as they were; a successful one shows the new name and leaves edit mode |

## Left out

- Rendering, layout, styling, icons, date formatting, toasts and console
  logging: they decide nothing.
- Selecting a journey card: it only navigates to `/map/<id>` and closes the
  drawer. Router navigation is not modelled.
- The drawer's trigger `useEffect` (load when opened) and the card's effect
  that resets the form when the journey's name changes. They are React
  scheduling. `FetchJourneys` models the load itself.
- `isSubmitting` disabling the form's controls while a rename is in flight:
  this is async interleaving. Transitions are modelled as sequential.
- The form's `required` rule is modelled as refusing only the empty string.
- Real database persistence, `dbConnect`, the session library and `fetch`:
  each is an input that either threw or produced a value. The database's id
  and time for an insert are an input `Stamp`. The connect and create calls
  are one step that either throws or yields the stamp.
- JourneyModel.Create: the database library's casting and path defaults are
  not modelled. An owner that is not a valid object id fails to cast in the
  real schema but is accepted here; each stored location also gets its own
  `_id`; and `properties.links` defaults to an empty list for a stop sent
  without properties, where the model keeps `None`.
- JourneysRoute.SaveJourney: inherits the same gaps. The stored locations are
  the given ones as the model's `Location` carries them, without the
  per-location `_id` or the `links` default, and an owner id that fails to
  cast is not distinguished from any other failing insert.
- JourneysRoute.Caller: assumes a session's user always carries an id. The
  auth configuration that puts it there is not part of this model.
- JourneysRoute.SortNewestFirst: the database leaves the order of journeys
  with equal createdAt open. The model keeps them in store order, and no
  contract depends on that order.
- The routing service's route geometry and error bodies are opaque payloads,
  relayed unchanged. Its behaviour is an input.
- Latitude and longitude are exact reals: they are only copied and compared.
  Floating-point behaviour is not modelled.
- The single-journey route (fetch one, `PATCH`), the search proxy and the
  search panel are not part of this model.
