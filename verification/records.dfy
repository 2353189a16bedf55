/** The rows the store returns (projects with their joined relations and the
    reference tables), the Feature view-model the screens render, the forms
    the dialogs edit and the payloads the handlers write. */
module Records {
  import opened Common

  datatype StatusRow = StatusRow(id: string, name: string, color: string)

  datatype StreamRow = StreamRow(id: string, name: string, color: string, icon: string)

  /** An owner row. `image` is the attribute the backlog screen reads; the
      row type declares `avatar_url` but no `image`, so it is optional here. */
  datatype OwnerRow = OwnerRow(
    id: string, name: string, role: Option<string>,
    avatarUrl: Option<string>, image: Option<string>)

  datatype UserRow = UserRow(id: string, name: string, image: Option<string>)

  datatype InitiativeRow = InitiativeRow(id: string, name: string, description: Option<string>)

  datatype ReleaseRow = ReleaseRow(id: string, name: string, quarter: Option<string>, year: Option<int>)

  /** A project row with its relations joined; status and stream are always
      present, owner, initiative and release may be null. */
  datatype ProjectRow = ProjectRow(
    id: string, name: string, description: Option<string>,
    startDate: Date, endDate: Date,
    statusId: string, streamId: string,
    ownerId: Option<string>, initiativeId: Option<string>, releaseId: Option<string>,
    progress: int,
    status: StatusRow, stream: StreamRow,
    owner: Option<OwnerRow>, initiative: Option<InitiativeRow>, release: Option<ReleaseRow>)

  /** The reference tables a handler fetches before it writes. */
  datatype RefData = RefData(
    statuses: seq<StatusRow>, streams: seq<StreamRow>, owners: seq<OwnerRow>,
    users: seq<UserRow>, initiatives: seq<InitiativeRow>, releases: seq<ReleaseRow>)

  /** The view-model: `O` is the owner shape, which differs between screens. */
  datatype Named = Named(id: string, name: string)
  datatype StatusTag = StatusTag(id: string, name: string, color: string)
  datatype Feature<O> = Feature(
    id: string, name: string, description: string,
    startAt: Date, endAt: Date,
    status: StatusTag, owner: O,
    group: Named, product: Named, initiative: Named, release: Named)

  /** Owner shape on the roadmap screen. */
  datatype OwnerCard = OwnerCard(id: string, name: string, avatarUrl: string, role: Option<string>)

  /** Owner shape on the backlog screen. */
  datatype OwnerBadge = OwnerBadge(id: string, name: string, image: string)

  /** The insert payload of a create. */
  datatype ProjectInsert = ProjectInsert(
    name: string, description: Option<string>,
    startDate: Date, endDate: Date,
    statusId: string, streamId: string,
    ownerId: Option<string>, initiativeId: Option<string>, releaseId: Option<string>,
    progress: int)

  /** Whether an update payload carries `owner_id` (the backlog screen leaves
      the key out). */
  datatype OwnerField = OwnerOmitted | OwnerSet(ownerId: Option<string>)

  /** The partial payload of an update. */
  datatype ProjectUpdate = ProjectUpdate(
    name: string, description: Option<string>,
    startDate: Date, endDate: Date,
    statusId: string, streamId: string,
    owner: OwnerField, initiativeId: Option<string>, releaseId: Option<string>)

  /** An update call: the row id and the partial payload. */
  datatype UpdateCall = UpdateCall(id: string, changes: ProjectUpdate)

  /** The create and edit dialogs' form state. Status and owner are names,
      resolved to ids on submit; the edit form also holds the project id. */
  datatype ProjectForm = ProjectForm(
    id: string, name: string, stream: string,
    startDate: Date, endDate: Date,
    status: string, owner: string, description: string)

  /** How a handler ended: the alert it raised, or success. */
  datatype Outcome =
    | Cancelled          // the delete confirmation was declined
    | MissingFields      // "Please fill in all required fields"
    | InvalidSelection   // "Invalid stream or status selection"
    | Failed             // a fetch or write rejected: "Failed to ... Please try again."
    | Saved

  /** The part of a create or update before the write: either the alert that
      stops it, or the payload to send. */
  datatype Plan<P> = Reject(why: Outcome) | Write(payload: P)

  const BacklogStatus := "Backlog"
  const DefaultUserName := "Product Team"

  /** `statuses.find((s) => s.name === name)`. */
  function StatusNamed(xs: seq<StatusRow>, name: string): (r: Option<StatusRow>)
    ensures r.None? <==> forall i :: 0 <= i < |xs| ==> xs[i].name != name
    ensures r.Some? ==> r.value in xs && r.value.name == name
  {
    Find(xs, (s: StatusRow) => s.name == name)
  }

  /** `streams.find((s) => s.name === name)`. */
  function StreamNamed(xs: seq<StreamRow>, name: string): (r: Option<StreamRow>)
    ensures r.None? <==> forall i :: 0 <= i < |xs| ==> xs[i].name != name
    ensures r.Some? ==> r.value in xs && r.value.name == name
  {
    Find(xs, (s: StreamRow) => s.name == name)
  }

  /** `owners.find((owner) => owner.name === name)`. */
  function OwnerNamed(xs: seq<OwnerRow>, name: string): (r: Option<OwnerRow>)
    ensures r.None? <==> forall i :: 0 <= i < |xs| ==> xs[i].name != name
    ensures r.Some? ==> r.value in xs && r.value.name == name
  {
    Find(xs, (o: OwnerRow) => o.name == name)
  }

  /** `users.find((u) => u.name === name)`. */
  function UserNamed(xs: seq<UserRow>, name: string): (r: Option<UserRow>)
    ensures r.None? <==> forall i :: 0 <= i < |xs| ==> xs[i].name != name
    ensures r.Some? ==> r.value in xs && r.value.name == name
  {
    Find(xs, (u: UserRow) => u.name == name)
  }

  /** `row?.id || null` on an optional row: null for a missing row and for
      an empty id, the id otherwise. `id` reads the row's id field. */
  function RowId<R>(row: Option<R>, id: R -> string): (r: Option<string>)
    ensures r.None? <==> row.None? || id(row.value) == ""
    ensures r.Some? ==> r.value == id(row.value)
  {
    OrNullOpt(if row.Some? then Some(id(row.value)) else None)
  }

  /** `RowId` on each reference table. */
  function InitiativeId(row: Option<InitiativeRow>): Option<string>
  {
    RowId(row, (i: InitiativeRow) => i.id)
  }

  function ReleaseId(row: Option<ReleaseRow>): Option<string>
  {
    RowId(row, (x: ReleaseRow) => x.id)
  }

  function OwnerId(row: Option<OwnerRow>): Option<string>
  {
    RowId(row, (o: OwnerRow) => o.id)
  }

  function UserId(row: Option<UserRow>): Option<string>
  {
    RowId(row, (u: UserRow) => u.id)
  }
}
