/** The roadmap screen: its `features` state with the create, update, delete,
    Gantt move and drag handlers, the stream selection, and the rule that the
    screen never holds a Backlog project. */
module RoadmapPage {
  import opened Common
  import opened Records
  import opened Bucket
  import opened Transform
  import opened FeatureList

  type Entry = Feature<OwnerCard>

  /** The stream names the filter control offers and starts with. */
  const StreamNames: seq<string> := ["Payments", "Rewards", "Growth", "US", "Mobile"]

  /** The status columns of the List and Kanban views. */
  const StatusColumns: seq<StatusTag> := [
    StatusTag("not-started", "Not started", "#6B7280"),
    StatusTag("in-progress", "In progress", "#3B82F6"),
    StatusTag("at-risk", "At risk", "#F59E0B"),
    StatusTag("done", "Done", "#10B981"),
    StatusTag("cancelled", "Cancelled", "#EF4444")
  ]

  /** The List view's drop targets are keyed by column name. */
  function ColumnNamed(name: string): (r: Option<StatusTag>)
    ensures r.Some? ==> r.value in StatusColumns && r.value.name == name
    ensures r.None? <==> forall i :: 0 <= i < |StatusColumns| ==> StatusColumns[i].name != name
  {
    Find(StatusColumns, (s: StatusTag) => s.name == name)
  }

  /** The Kanban view's drop targets are keyed by column id. */
  function ColumnWithId(id: string): (r: Option<StatusTag>)
    ensures r.Some? ==> r.value in StatusColumns && r.value.id == id
    ensures r.None? <==> forall i :: 0 <= i < |StatusColumns| ==> StatusColumns[i].id != id
  {
    Find(StatusColumns, (s: StatusTag) => s.id == id)
  }

  /** No status column is Backlog, so no drag can move an entry into it. */
  lemma ColumnsAreNotBacklog(s: StatusTag)
    requires s in StatusColumns
    ensures s.name != BacklogStatus
  {
  }

  /** The roadmap screen's membership rule: no entry is in Backlog. */
  predicate NoBacklog(xs: seq<Entry>)
  {
    forall i :: 0 <= i < |xs| ==> xs[i].status.name != BacklogStatus
  }

  /** Appending a created entry and filtering out Backlog leaves the old
      entries as they were and puts the new one last, unless it is Backlog,
      in which case the list is unchanged. */
  lemma {:induction false} AppendOutsideBacklog(xs: seq<Entry>, t: Entry)
    requires NoBacklog(xs)
    ensures t.status.name != BacklogStatus ==> FilterOutBacklog(xs + [t]) == xs + [t]
    ensures t.status.name == BacklogStatus ==> FilterOutBacklog(xs + [t]) == xs
  {
    FilterAppend(xs, [t], NotBacklog);
  }

  /** The empty form the dialogs start from and reset to: every text field
      empty, both dates today. */
  function EmptyForm(now: Date): (form: ProjectForm)
    ensures form.id == "" && form.name == "" && form.stream == "" && form.status == ""
    ensures form.owner == "" && form.description == ""
    ensures form.startDate == now && form.endDate == now
  {
    ProjectForm("", "", "", now, now, "", "", "")
  }

  /** The edit form `handleEditFeature` fills from an entry. */
  function EditFormOf(f: Entry): (form: ProjectForm)
    ensures form.id == f.id && form.name == f.name && form.description == f.description
    ensures form.stream == f.product.name && form.status == f.status.name && form.owner == f.owner.name
    ensures form.startDate == f.startAt && form.endDate == f.endAt
  {
    ProjectForm(f.id, f.name, f.product.name, f.startAt, f.endAt, f.status.name, f.owner.name, f.description)
  }

  /** `selectedOwner?.id || defaultUser?.id || null`. */
  function FirstId(a: Option<string>, b: Option<string>): (r: Option<string>)
    ensures r.None? <==> a.None? && b.None?
    ensures a.Some? ==> r == a
    ensures a.None? ==> r == b
  {
    if a.Some? then a else b
  }

  /** The create handler up to its write: required name, stream and status,
      the reference fetch, name resolution, and the payload with the
      initiative and release of the start date's window. */
  function PlanCreate(form: ProjectForm, refs: Option<RefData>, now: Date): (plan: Plan<ProjectInsert>)
    ensures (form.name == "" || form.stream == "" || form.status == "") <==> plan == Reject(MissingFields)
    ensures plan == Reject(Failed) <==> form.name != "" && form.stream != "" && form.status != "" && refs.None?
    ensures plan == Reject(InvalidSelection) <==>
      form.name != "" && form.stream != "" && form.status != "" && refs.Some? &&
      (StreamNamed(refs.value.streams, form.stream).None? || StatusNamed(refs.value.statuses, form.status).None?)
    ensures plan.Write? ==>
      var r, p := refs.value, plan.payload;
      && p.name == form.name && p.name != "" && p.description == OrNull(form.description)
      && p.startDate == form.startDate && p.endDate == form.endDate && p.progress == 0
      && (exists s :: s in r.streams && s.name == form.stream && s.id == p.streamId)
      && (exists s :: s in r.statuses && s.name == form.status && s.id == p.statusId)
      && p.ownerId == FirstId(OwnerId(OwnerNamed(r.owners, form.owner)), UserId(UserNamed(r.users, DefaultUserName)))
      && p.initiativeId == InitiativeId(Pick(r.initiatives, MonthsDiff(form.startDate, now)))
      && p.releaseId == ReleaseId(Pick(r.releases, MonthsDiff(form.startDate, now)))
  {
    if form.name == "" || form.stream == "" || form.status == "" then Reject(MissingFields)
    else if refs.None? then Reject(Failed)
    else
      var r := refs.value;
      var stream := StreamNamed(r.streams, form.stream);
      var status := StatusNamed(r.statuses, form.status);
      if stream.None? || status.None? then Reject(InvalidSelection)
      else
        var d := MonthsDiff(form.startDate, now);
        Write(ProjectInsert(
          form.name, OrNull(form.description), form.startDate, form.endDate,
          status.value.id, stream.value.id,
          FirstId(OwnerId(OwnerNamed(r.owners, form.owner)), UserId(UserNamed(r.users, DefaultUserName))),
          InitiativeId(Pick(r.initiatives, d)), ReleaseId(Pick(r.releases, d)), 0))
  }

  /** The update handler up to its write: as for create, except that the owner
      has no default user (a name that does not resolve clears the owner). */
  function PlanUpdate(form: ProjectForm, refs: Option<RefData>, now: Date): (plan: Plan<UpdateCall>)
    ensures (form.name == "" || form.stream == "" || form.status == "") <==> plan == Reject(MissingFields)
    ensures plan == Reject(Failed) <==> form.name != "" && form.stream != "" && form.status != "" && refs.None?
    ensures plan == Reject(InvalidSelection) <==>
      form.name != "" && form.stream != "" && form.status != "" && refs.Some? &&
      (StreamNamed(refs.value.streams, form.stream).None? || StatusNamed(refs.value.statuses, form.status).None?)
    ensures plan.Write? ==>
      var r, c := refs.value, plan.payload.changes;
      && plan.payload.id == form.id
      && c.name == form.name && c.name != "" && c.description == OrNull(form.description)
      && c.startDate == form.startDate && c.endDate == form.endDate
      && (exists s :: s in r.streams && s.name == form.stream && s.id == c.streamId)
      && (exists s :: s in r.statuses && s.name == form.status && s.id == c.statusId)
      && c.owner == OwnerSet(OwnerId(OwnerNamed(r.owners, form.owner)))
      && c.initiativeId == InitiativeId(Pick(r.initiatives, MonthsDiff(form.startDate, now)))
      && c.releaseId == ReleaseId(Pick(r.releases, MonthsDiff(form.startDate, now)))
  {
    if form.name == "" || form.stream == "" || form.status == "" then Reject(MissingFields)
    else if refs.None? then Reject(Failed)
    else
      var r := refs.value;
      var stream := StreamNamed(r.streams, form.stream);
      var status := StatusNamed(r.statuses, form.status);
      if stream.None? || status.None? then Reject(InvalidSelection)
      else
        var d := MonthsDiff(form.startDate, now);
        Write(UpdateCall(form.id, ProjectUpdate(
          form.name, OrNull(form.description), form.startDate, form.endDate,
          status.value.id, stream.value.id,
          OwnerSet(OwnerId(OwnerNamed(r.owners, form.owner))),
          InitiativeId(Pick(r.initiatives, d)), ReleaseId(Pick(r.releases, d)))))
  }

  /** The store after a successful update: an entry that comes back in Backlog
      leaves the screen, any other replaces the entries with its id. */
  function ApplyUpdate(xs: seq<Entry>, id: string, t: Entry): (r: seq<Entry>)
    ensures t.status.name == BacklogStatus ==>
      !HasId(r, id) && |r| <= |xs| && forall i :: 0 <= i < |r| ==> r[i] in xs
    ensures t.status.name != BacklogStatus ==>
      |r| == |xs| && forall i :: 0 <= i < |xs| ==> r[i] == if xs[i].id == id then t else xs[i]
    ensures forall i :: 0 <= i < |xs| && xs[i].id != id ==> xs[i] in r
  {
    if t.status.name == BacklogStatus then RemoveId(xs, id) else ReplaceId(xs, id, t)
  }

  /** An update keeps the screen free of Backlog, and keeps every entry with
      another id where it was. */
  lemma ApplyUpdateKeeps(xs: seq<Entry>, id: string, t: Entry)
    requires NoBacklog(xs)
    ensures NoBacklog(ApplyUpdate(xs, id, t))
    ensures t.status.name != BacklogStatus ==> |ApplyUpdate(xs, id, t)| == |xs|
    ensures t.status.name == BacklogStatus ==> !HasId(ApplyUpdate(xs, id, t), id)
    ensures forall i :: 0 <= i < |xs| && xs[i].id != id ==> xs[i] in ApplyUpdate(xs, id, t)
  {
    if t.status.name != BacklogStatus {
      var r := ReplaceId(xs, id, t);
      forall i | 0 <= i < |xs| && xs[i].id != id ensures xs[i] in r {
        assert r[i] == xs[i];
      }
    }
  }

  /** Streams with unique names: the lookups below find the row itself. */
  predicate UniqueStreamNames(xs: seq<StreamRow>)
  {
    forall i, j :: 0 <= i < j < |xs| ==> xs[i].name != xs[j].name
  }

  predicate UniqueStatusNames(xs: seq<StatusRow>)
  {
    forall i, j :: 0 <= i < j < |xs| ==> xs[i].name != xs[j].name
  }

  lemma StreamNamedFindsRow(xs: seq<StreamRow>, s: StreamRow)
    requires s in xs && UniqueStreamNames(xs)
    ensures StreamNamed(xs, s.name) == Some(s)
  {
    var k :| 0 <= k < |xs| && xs[k] == s;
    FindFirst(xs, (t: StreamRow) => t.name == s.name, k);
  }

  lemma StatusNamedFindsRow(xs: seq<StatusRow>, s: StatusRow)
    requires s in xs && UniqueStatusNames(xs)
    ensures StatusNamed(xs, s.name) == Some(s)
  {
    var k :| 0 <= k < |xs| && xs[k] == s;
    FindFirst(xs, (t: StatusRow) => t.name == s.name, k);
  }

  /** Opening the edit dialog on an entry and saving it unchanged writes back
      the project's own name, description, dates, stream and status (when
      the reference names are unique), while initiative and release are
      re-derived from the start date. */
  lemma EditUnchangedWritesBack(p: ProjectRow, refs: RefData, now: Date)
    requires p.name != "" && p.stream.name != "" && p.status.name != ""
    requires p.stream in refs.streams && UniqueStreamNames(refs.streams)
    requires p.status in refs.statuses && UniqueStatusNames(refs.statuses)
    ensures var plan := PlanUpdate(EditFormOf(RoadmapFeature(p)), Some(refs), now);
      && plan.Write?
      && plan.payload.id == p.id
      && plan.payload.changes.name == p.name
      && plan.payload.changes.description == OrNullOpt(p.description)
      && plan.payload.changes.startDate == p.startDate
      && plan.payload.changes.endDate == p.endDate
      && plan.payload.changes.streamId == p.stream.id
      && plan.payload.changes.statusId == p.status.id
      && plan.payload.changes.initiativeId == InitiativeId(Pick(refs.initiatives, MonthsDiff(p.startDate, now)))
  {
    StreamNamedFindsRow(refs.streams, p.stream);
    StatusNamedFindsRow(refs.statuses, p.status);
  }

  /** The drag handlers as written: the List and Kanban views receive the
      stream-filtered list and pass its mapped copy to the setter, so the
      store becomes the filtered view. */
  function DragOnView(store: seq<Entry>, selected: seq<string>, activeId: string, status: StatusTag): (r: seq<Entry>)
    ensures |r| <= |store|
    ensures forall i :: 0 <= i < |r| ==> r[i].product.name in selected
  {
    var v := StreamFilter(store, selected);
    var r := SetStatusId(v, activeId, status);
    assert forall i :: 0 <= i < |r| ==> r[i].product == v[i].product;
    r
  }

  /** The drag as written loses, from any store, every entry of a stream
      that is not selected, whichever entry is dragged. */
  lemma DragDropsEveryHidden(store: seq<Entry>, selected: seq<string>, id: string, s: StatusTag, k: nat)
    requires k < |store| && store[k].product.name !in selected
    ensures store[k] !in DragOnView(store, selected, id, s)
  {
  }

  /** Even with the initial selection of every stream the filter offers, the
      drag as written drops every entry of a stream outside those names. */
  lemma DragDropsUnlistedStream(store: seq<Entry>, id: string, s: StatusTag, k: nat)
    requires k < |store| && store[k].product.name !in StreamNames
    ensures store[k] !in DragOnView(store, StreamNames, id, s)
  {
    DragDropsEveryHidden(store, StreamNames, id, s, k);
  }

  /** A two-entry store used to exhibit what the drag as written loses. */
  function SampleEntry(id: string, stream: string): Entry
  {
    Feature(id, id, "", Date(2025, 0, 1), Date(2025, 1, 1),
            StatusColumns[0], OwnerCard("", "", "", None),
            Named(stream, stream), Named(stream, stream), Named("", ""), Named("", ""))
  }

  /** With only "Payments" selected, dragging the Payments entry to "Done"
      as written drops the Rewards entry from the store; the update on the
      whole store keeps it. */
  lemma DragOnViewDropsHidden()
    ensures var a, b := SampleEntry("a", "Payments"), SampleEntry("b", "Rewards");
      && DragOnView([a, b], ["Payments"], "a", StatusColumns[3]) == [a.(status := StatusColumns[3])]
      && SetStatusId([a, b], "a", StatusColumns[3]) == [a.(status := StatusColumns[3]), b]
  {
    var a, b := SampleEntry("a", "Payments"), SampleEntry("b", "Rewards");
    var p := InStreams<OwnerCard>(["Payments"]);
    assert p(a) && !p(b);
    assert Filter([a, b], p) == [a] by {
      assert [a, b][1..] == [b];
      assert [b][1..] == [];
    }
  }

  class Roadmap {
    var features: seq<Entry>
    var selectedStreams: seq<string>
    var newProject: ProjectForm
    var editProject: ProjectForm
    var isDialogOpen: bool
    var isEditDialogOpen: bool

    /** The screen's invariant: it holds no Backlog project. */
    predicate Valid()
      reads this
    {
      NoBacklog(features)
    }

    /** `filteredFeatures`: what the views render. */
    function FilteredFeatures(): (r: seq<Entry>)
      reads this
      ensures forall i :: 0 <= i < |r| ==> r[i] in features && r[i].product.name in selectedStreams
      ensures forall i :: 0 <= i < |features| && features[i].product.name in selectedStreams ==> features[i] in r
    {
      StreamFilter(features, selectedStreams)
    }

    constructor (now: Date)
      ensures Valid()
      ensures features == [] && selectedStreams == StreamNames
      ensures newProject == EmptyForm(now) && editProject == EmptyForm(now)
      ensures !isDialogOpen && !isEditDialogOpen
    {
      features := [];
      selectedStreams := StreamNames;
      newProject := EmptyForm(now);
      editProject := EmptyForm(now);
      isDialogOpen := false;
      isEditDialogOpen := false;
    }

    /** The mount-time fetch; a rejected fetch leaves the list as it was. */
    method Load(fetched: Option<seq<ProjectRow>>)
      requires Valid()
      modifies this`features
      ensures Valid()
      ensures fetched.Some? ==> features == RoadmapLoad(fetched.value)
      ensures fetched.None? ==> features == old(features)
    {
      if fetched.Some? {
        features := FilterOutBacklog(MapSeq(fetched.value, RoadmapFeature));
      }
    }

    /** `handleCreateProject`. `refs` is the reference fetch (None when it
        rejects), `reply` the created row (None when the insert rejects). */
    method CreateProject(refs: Option<RefData>, now: Date, reply: Option<ProjectRow>)
      returns (outcome: Outcome, sent: Option<ProjectInsert>)
      requires Valid()
      modifies this
      ensures Valid()
      ensures var plan := PlanCreate(old(newProject), refs, now);
        && (plan.Reject? ==> outcome == plan.why && sent == None && unchanged(this))
        && (plan.Write? ==> sent == Some(plan.payload))
        && (plan.Write? && reply.None? ==> outcome == Failed && unchanged(this))
        && (plan.Write? && reply.Some? ==>
              && outcome == Saved
              && features == FilterOutBacklog(old(features) + [RoadmapFeature(reply.value)])
              && !isDialogOpen && newProject == EmptyForm(now)
              && selectedStreams == old(selectedStreams) && editProject == old(editProject)
              && isEditDialogOpen == old(isEditDialogOpen))
    {
      var form := newProject;
      if form.name == "" || form.stream == "" || form.status == "" {
        return MissingFields, None;
      }
      if refs.None? {
        return Failed, None;
      }
      var r := refs.value;
      var selectedStream := StreamNamed(r.streams, form.stream);
      var selectedStatus := StatusNamed(r.statuses, form.status);
      var selectedOwner := OwnerNamed(r.owners, form.owner);
      var defaultUser := UserNamed(r.users, DefaultUserName);
      if selectedStream.None? || selectedStatus.None? {
        return InvalidSelection, None;
      }
      var initiative, release := SelectBuckets(r.initiatives, r.releases, form.startDate, now);
      sent := Some(ProjectInsert(
        form.name, OrNull(form.description), form.startDate, form.endDate,
        selectedStatus.value.id, selectedStream.value.id,
        FirstId(OwnerId(selectedOwner), UserId(defaultUser)),
        InitiativeId(initiative), ReleaseId(release), 0));
      if reply.None? {
        return Failed, sent;
      }
      features := FilterOutBacklog(features + [RoadmapFeature(reply.value)]);
      isDialogOpen := false;
      newProject := EmptyForm(now);
      outcome := Saved;
    }

    /** `handleEditFeature`: fill the edit form from the entry with that id. */
    method EditFeature(id: string)
      modifies this`editProject, this`isEditDialogOpen
      ensures var found := Find(features, IdIs(id));
        && (found.None? ==> editProject == old(editProject) && isEditDialogOpen == old(isEditDialogOpen))
        && (found.Some? ==> found.value.id == id && editProject == EditFormOf(found.value) && isEditDialogOpen)
    {
      var found := Find(features, IdIs(id));
      if found.Some? {
        editProject := EditFormOf(found.value);
        isEditDialogOpen := true;
      }
    }

    /** `handleUpdateProject`. */
    method UpdateProject(refs: Option<RefData>, now: Date, reply: Option<ProjectRow>)
      returns (outcome: Outcome, sent: Option<UpdateCall>)
      requires Valid()
      modifies this
      ensures Valid()
      ensures var plan := PlanUpdate(old(editProject), refs, now);
        && (plan.Reject? ==> outcome == plan.why && sent == None && unchanged(this))
        && (plan.Write? ==> sent == Some(plan.payload))
        && (plan.Write? && reply.None? ==> outcome == Failed && unchanged(this))
        && (plan.Write? && reply.Some? ==>
              && outcome == Saved
              && features == ApplyUpdate(old(features), old(editProject).id, RoadmapFeature(reply.value))
              && !isEditDialogOpen && editProject == EmptyForm(now)
              && selectedStreams == old(selectedStreams) && newProject == old(newProject)
              && isDialogOpen == old(isDialogOpen))
    {
      var form := editProject;
      if form.name == "" || form.stream == "" || form.status == "" {
        return MissingFields, None;
      }
      if refs.None? {
        return Failed, None;
      }
      var r := refs.value;
      var selectedStream := StreamNamed(r.streams, form.stream);
      var selectedStatus := StatusNamed(r.statuses, form.status);
      var selectedOwner := OwnerNamed(r.owners, form.owner);
      if selectedStream.None? || selectedStatus.None? {
        return InvalidSelection, None;
      }
      var initiative, release := SelectBuckets(r.initiatives, r.releases, form.startDate, now);
      sent := Some(UpdateCall(form.id, ProjectUpdate(
        form.name, OrNull(form.description), form.startDate, form.endDate,
        selectedStatus.value.id, selectedStream.value.id,
        OwnerSet(OwnerId(selectedOwner)),
        InitiativeId(initiative), ReleaseId(release))));
      if reply.None? {
        return Failed, sent;
      }
      var transformed := RoadmapFeature(reply.value);
      ApplyUpdateKeeps(features, form.id, transformed);
      features := ApplyUpdate(features, form.id, transformed);
      isEditDialogOpen := false;
      editProject := EmptyForm(now);
      outcome := Saved;
    }

    /** `handleRemoveFeature`: `confirmed` is the confirmation dialog's answer,
        `deleted` whether the delete call succeeded. */
    method RemoveFeature(id: string, confirmed: bool, deleted: bool)
      returns (outcome: Outcome, sent: Option<string>)
      requires Valid()
      modifies this`features
      ensures Valid()
      ensures sent == (if confirmed then Some(id) else None)
      ensures !confirmed ==> outcome == Cancelled && features == old(features)
      ensures confirmed && !deleted ==> outcome == Failed && features == old(features)
      ensures confirmed && deleted ==> outcome == Saved && features == RemoveId(old(features), id)
    {
      if !confirmed {
        return Cancelled, None;
      }
      sent := Some(id);
      if !deleted {
        return Failed, sent;
      }
      features := RemoveId(features, id);
      outcome := Saved;
    }

    /** `handleMoveFeature`: a move without an end date is ignored. */
    method MoveFeature(id: string, startAt: Date, endAt: Option<Date>)
      requires Valid()
      modifies this`features
      ensures Valid()
      ensures endAt.None? ==> features == old(features)
      ensures endAt.Some? ==> features == MoveId(old(features), id, startAt, endAt.value)
    {
      if endAt.Some? {
        features := MoveId(features, id, startAt, endAt.value);
      }
    }

    /** The List view's `handleDragEnd`, applied to the whole store: no target,
        or a target that is not a status column, changes nothing; otherwise
        the dragged entry takes the column's status and nothing else moves. */
    method DragEndList(activeId: string, overId: Option<string>)
      requires Valid()
      modifies this`features
      ensures Valid()
      ensures overId.None? || ColumnNamed(overId.value).None? ==> features == old(features)
      ensures overId.Some? && ColumnNamed(overId.value).Some? ==>
        features == SetStatusId(old(features), activeId, ColumnNamed(overId.value).value)
    {
      if overId.None? {
        return;
      }
      var status := ColumnNamed(overId.value);
      if status.None? {
        return;
      }
      ColumnsAreNotBacklog(status.value);
      features := SetStatusId(features, activeId, status.value);
    }

    /** The Kanban view's `handleDragEnd`: as the List view's, with the drop
        target matched by column id. */
    method DragEndKanban(activeId: string, overId: Option<string>)
      requires Valid()
      modifies this`features
      ensures Valid()
      ensures overId.None? || ColumnWithId(overId.value).None? ==> features == old(features)
      ensures overId.Some? && ColumnWithId(overId.value).Some? ==>
        features == SetStatusId(old(features), activeId, ColumnWithId(overId.value).value)
    {
      if overId.None? {
        return;
      }
      var status := ColumnWithId(overId.value);
      if status.None? {
        return;
      }
      ColumnsAreNotBacklog(status.value);
      features := SetStatusId(features, activeId, status.value);
    }

    /** The "Select All" button: every stream the filter offers. */
    method SelectAllStreams()
      modifies this`selectedStreams
      ensures selectedStreams == StreamNames
      ensures forall i :: 0 <= i < |features| && features[i].product.name in StreamNames ==>
        features[i] in FilteredFeatures()
    {
      selectedStreams := StreamNames;
    }

    /** The "Clear All" button: no stream, so the views render nothing. */
    method ClearAllStreams()
      modifies this`selectedStreams
      ensures selectedStreams == []
      ensures FilteredFeatures() == []
    {
      selectedStreams := [];
      StreamFilterNone(features);
    }

    /** `toggleStream`. */
    method ToggleStream(name: string)
      modifies this`selectedStreams
      ensures selectedStreams == FeatureList.ToggleStream(old(selectedStreams), name)
      ensures name in selectedStreams <==> name !in old(selectedStreams)
    {
      selectedStreams := FeatureList.ToggleStream(selectedStreams, name);
    }
  }
}
