/** The drawer listing the signed-in user's journeys, with inline rename on
    each journey card. Network replies are inputs; every handler is a pure
    transition of the drawer's list, its loading flag and a card's edit state. */
module JourneyDrawer {
  import opened Wrappers
  import opened Http
  import opened JourneyModel
  import opened JourneysRoute

  /** The drawer's own state: the journeys shown and whether a load is running. */
  datatype DrawerState = DrawerState(journeys: seq<Journey>, isLoading: bool)

  /** The drawer as first mounted: nothing listed, nothing loading. */
  function Mounted(): DrawerState {
    DrawerState([], false)
  }

  /** A reply to the listing request: its status, and its body parsed as a
      journey list (or the parse throwing). */
  datatype Fetched = Fetched(status: int, data: Step<seq<Journey>>)

  /** True when the reply arrived, was ok, and its body parsed. */
  predicate Loaded(reply: Step<Fetched>) {
    reply.Done? && IsOk(reply.value.status) && reply.value.data.Done?
  }

  /** `fetchJourneys`: raise the loading flag, request the list, replace the
      shown list only if the request succeeded, and lower the flag in every
      outcome. */
  function FetchJourneys(s: DrawerState, reply: Step<Fetched>): (r: DrawerState)
    ensures !r.isLoading
    ensures Loaded(reply) ==> r.journeys == reply.value.data.value
    ensures !Loaded(reply) ==> r.journeys == s.journeys
  {
    var loading := s.(isLoading := true);
    var shown :=
      match reply
      case Threw => loading.journeys
      case Done(Fetched(status, data)) =>
        if !IsOk(status) then loading.journeys
        else match data
          case Threw => loading.journeys
          case Done(list) => list;
    loading.(journeys := shown, isLoading := false)
  }

  /** Opened for the first time, the drawer shows nothing unless the load
      succeeds, and then shows exactly the list that arrived. */
  lemma FirstLoad(reply: Step<Fetched>)
    ensures !FetchJourneys(Mounted(), reply).isLoading
    ensures !Loaded(reply) ==> FetchJourneys(Mounted(), reply).journeys == []
    ensures Loaded(reply) ==> FetchJourneys(Mounted(), reply).journeys == reply.value.data.value
  {
  }

  /** How a response of the listing route reaches the drawer: a list body
      parses as the list, any other body does not parse as one. */
  function Deliver(resp: Response<Reply>): Fetched {
    Fetched(resp.status, if resp.body.ListReply? then Done(resp.body.journeys) else Threw)
  }

  /** Fed by the listing route, the drawer either keeps what it showed or
      shows exactly the caller's journeys, newest first. */
  lemma FetchShowsCallersJourneys(s: DrawerState, session: Step<Option<Session>>, store: Step<seq<Journey>>)
    ensures
      var resp := ListJourneys(session, store);
      var d := FetchJourneys(s, Done(Deliver(resp)));
      && (resp.status != StatusOk ==> d.journeys == s.journeys)
      && (resp.status == StatusOk ==>
            && NewestFirst(d.journeys)
            && forall j :: j in d.journeys <==> j in store.value && j.userId == Caller(session.value).value)
  {
  }

  /** The list update after a successful rename: the journey with id `id`
      takes `newName`; everything else is kept. */
  function Rename(js: seq<Journey>, id: string, newName: string): (r: seq<Journey>)
    ensures |r| == |js|
    ensures forall i :: 0 <= i < |js| && js[i].id == id ==> r[i] == js[i].(name := newName)
    ensures forall i :: 0 <= i < |js| && js[i].id != id ==> r[i] == js[i]
  {
    if js == [] then []
    else
      var head := if js[0].id == id then js[0].(name := newName) else js[0];
      [head] + Rename(js[1..], id, newName)
  }

  /** The `PATCH` the drawer sends to rename a journey. */
  datatype PatchRequest = PatchRequest(path: string, name: string)

  const JourneysPath: string := "/api/journeys/"

  /** The list after a rename attempt, the request sent, and whether the
      error was raised again to the caller. */
  datatype RenameOutcome = RenameOutcome(journeys: seq<Journey>, request: PatchRequest, raised: bool)

  /** `handleUpdateName`: send the new name; on an ok status rename the
      journey in the list, otherwise keep the list and raise again. `reply` is
      the status the server answers, or `Threw` when the request fails. */
  function HandleUpdateName(js: seq<Journey>, id: string, newName: string, reply: Step<int>): (r: RenameOutcome)
    ensures r.request == PatchRequest(JourneysPath + id, newName)
    ensures r.raised <==> reply.Threw? || !IsOk(reply.value)
    ensures r.raised ==> r.journeys == js
    ensures !r.raised ==> r.journeys == Rename(js, id, newName)
  {
    var request := PatchRequest(JourneysPath + id, newName);
    match reply
    case Threw => RenameOutcome(js, request, true)
    case Done(status) =>
      if !IsOk(status) then RenameOutcome(js, request, true)
      else RenameOutcome(Rename(js, id, newName), request, false)
  }

  /** Renaming to an id no journey has changes nothing. */
  lemma RenameUnknownIdIsNoOp(js: seq<Journey>, id: string, newName: string)
    requires forall i :: 0 <= i < |js| ==> js[i].id != id
    ensures Rename(js, id, newName) == js
  {
  }

  /** Renaming twice to the same name is renaming once. */
  lemma RenameIdempotent(js: seq<Journey>, id: string, newName: string)
    ensures Rename(Rename(js, id, newName), id, newName) == Rename(js, id, newName)
  {
  }

  /** A rename keeps the listing's order and ownership: a newest-first list of
      one user's journeys stays newest first and that user's. */
  lemma RenameKeepsListing(js: seq<Journey>, id: string, newName: string, owner: UserId)
    requires NewestFirst(js)
    requires forall i :: 0 <= i < |js| ==> js[i].userId == owner
    ensures NewestFirst(Rename(js, id, newName))
    ensures forall j :: j in Rename(js, id, newName) ==> j.userId == owner
  {
  }

  /** A journey card: whether its name is being edited, and the name typed
      into its form. */
  datatype Card = Card(isEditing: bool, draft: string)

  /** A card as first shown: not editing, its form holding the journey's name. */
  function NewCard(j: Journey): Card {
    Card(false, j.name)
  }

  /** The pencil button. */
  function StartEdit(c: Card): Card {
    c.(isEditing := true)
  }

  /** Typing into the name field. */
  function EditDraft(c: Card, text: string): Card {
    c.(draft := text)
  }

  /** `cancelEdit`: leave edit mode and put the form back to the journey's name. */
  function CancelEdit(c: Card, j: Journey): (r: Card)
    ensures !r.isEditing
    ensures r.draft == j.name
  {
    Card(false, j.name)
  }

  /** Starting an edit, typing anything and cancelling gives back the card
      as it was first shown. */
  lemma CancelUndoesEdit(j: Journey, text: string)
    ensures CancelEdit(EditDraft(StartEdit(NewCard(j)), text), j) == NewCard(j)
  {
  }

  /** The card after a submit, and whether `onUpdate` was called. */
  datatype SubmitOutcome = SubmitOutcome(card: Card, calledUpdate: bool)

  /** Submitting the name form. An empty name fails the form's `required`
      rule and nothing happens; the unchanged name leaves edit mode without an
      update; otherwise `onUpdate` runs and edit mode is left only if it
      succeeded (`updated`). */
  function Submit(c: Card, j: Journey, updated: bool): (r: SubmitOutcome)
    ensures r.calledUpdate <==> c.draft != "" && c.draft != j.name
    ensures r.card.draft == c.draft
    ensures c.draft == "" ==> r.card == c
    ensures c.draft != "" && c.draft == j.name ==> !r.card.isEditing
    ensures r.calledUpdate ==> (r.card.isEditing <==> c.isEditing && !updated)
  {
    if c.draft == "" then SubmitOutcome(c, false)
    else if c.draft == j.name then SubmitOutcome(c.(isEditing := false), false)
    else if updated then SubmitOutcome(c.(isEditing := false), true)
    else SubmitOutcome(c, true)
  }

  /** The drawer's list and one card's state together. */
  datatype View = View(drawer: DrawerState, card: Card)

  /** A card's submit wired to the drawer's `handleUpdateName`, as the drawer
      renders it: `reply` is the server's answer to the rename request, if
      one is sent. */
  function SubmitRename(d: DrawerState, c: Card, j: Journey, reply: Step<int>): (r: View)
    // An unchanged name sends nothing and leaves edit mode.
    ensures c.draft != "" && c.draft == j.name ==> r.drawer == d && !r.card.isEditing
    // A failed rename keeps the list and stays in edit mode.
    ensures c.draft != "" && c.draft != j.name && (reply.Threw? || !IsOk(reply.value)) ==>
      r.drawer == d && r.card == c
    // A successful rename shows the new name and leaves edit mode.
    ensures c.draft != "" && c.draft != j.name && reply.Done? && IsOk(reply.value) ==>
      && !r.card.isEditing
      && r.drawer.journeys == Rename(d.journeys, j.id, c.draft)
      && forall k :: k in r.drawer.journeys && k.id == j.id ==> k.name == c.draft
    ensures r.drawer.isLoading == d.isLoading
  {
    if c.draft == "" || c.draft == j.name then
      View(d, Submit(c, j, false).card)
    else
      var u := HandleUpdateName(d.journeys, j.id, c.draft, reply);
      var r := View(d.(journeys := u.journeys), Submit(c, j, !u.raised).card);
      assert !u.raised ==> forall i :: 0 <= i < |u.journeys| && u.journeys[i].id == j.id ==> u.journeys[i].name == c.draft;
      r
  }
}
