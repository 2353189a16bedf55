/** The backlog screen: it loads only Backlog projects, creates projects
    straight into Backlog, and updates and deletes them in place. */
module BacklogPage {
  import opened Common
  import opened Records
  import opened Bucket
  import opened Transform
  import opened FeatureList

  type Entry = Feature<OwnerBadge>

  /** The empty form the dialogs reset to: status preset to Backlog, both
      dates today. */
  function EmptyForm(now: Date): (form: ProjectForm)
    ensures form.id == "" && form.name == "" && form.stream == "" && form.status == BacklogStatus
    ensures form.owner == "" && form.description == ""
    ensures form.startDate == now && form.endDate == now
  {
    ProjectForm("", "", "", now, now, BacklogStatus, "", "")
  }

  /** The edit form `handleEditFeature` fills from an entry (this screen's
      form has no owner). */
  function EditFormOf(f: Entry): (form: ProjectForm)
    ensures form.id == f.id && form.name == f.name && form.description == f.description
    ensures form.stream == f.product.name && form.status == f.status.name && form.owner == ""
    ensures form.startDate == f.startAt && form.endDate == f.endAt
  {
    ProjectForm(f.id, f.name, f.product.name, f.startAt, f.endAt, f.status.name, "", f.description)
  }

  /** The create handler up to its write: required name and stream only; the
      status is always the one named Backlog and the owner is always the
      default user, whatever the form holds. */
  function PlanCreate(form: ProjectForm, refs: Option<RefData>, now: Date): (plan: Plan<ProjectInsert>)
    ensures (form.name == "" || form.stream == "") <==> plan == Reject(MissingFields)
    ensures plan == Reject(Failed) <==> form.name != "" && form.stream != "" && refs.None?
    ensures plan == Reject(InvalidSelection) <==>
      form.name != "" && form.stream != "" && refs.Some? &&
      (StreamNamed(refs.value.streams, form.stream).None? || StatusNamed(refs.value.statuses, BacklogStatus).None?)
    ensures plan.Write? ==>
      var r, p := refs.value, plan.payload;
      && p.name == form.name && p.name != "" && p.description == OrNull(form.description)
      && p.startDate == form.startDate && p.endDate == form.endDate && p.progress == 0
      && (exists s :: s in r.streams && s.name == form.stream && s.id == p.streamId)
      && (exists s :: s in r.statuses && s.name == BacklogStatus && s.id == p.statusId)
      && p.ownerId == UserId(UserNamed(r.users, DefaultUserName))
      && p.initiativeId == InitiativeId(Pick(r.initiatives, MonthsDiff(form.startDate, now)))
      && p.releaseId == ReleaseId(Pick(r.releases, MonthsDiff(form.startDate, now)))
  {
    if form.name == "" || form.stream == "" then Reject(MissingFields)
    else if refs.None? then Reject(Failed)
    else
      var r := refs.value;
      var stream := StreamNamed(r.streams, form.stream);
      var status := StatusNamed(r.statuses, BacklogStatus);
      if stream.None? || status.None? then Reject(InvalidSelection)
      else
        var d := MonthsDiff(form.startDate, now);
        Write(ProjectInsert(
          form.name, OrNull(form.description), form.startDate, form.endDate,
          status.value.id, stream.value.id,
          UserId(UserNamed(r.users, DefaultUserName)),
          InitiativeId(Pick(r.initiatives, d)), ReleaseId(Pick(r.releases, d)), 0))
  }

  /** The create form's status field does not influence what is written. */
  lemma CreateIgnoresFormStatus(form: ProjectForm, status: string, refs: Option<RefData>, now: Date)
    ensures PlanCreate(form, refs, now) == PlanCreate(form.(status := status), refs, now)
  {
  }

  /** The update handler up to its write: required name and stream, the
      status resolved from the form, and no `owner_id` in the payload. */
  function PlanUpdate(form: ProjectForm, refs: Option<RefData>, now: Date): (plan: Plan<UpdateCall>)
    ensures (form.name == "" || form.stream == "") <==> plan == Reject(MissingFields)
    ensures plan == Reject(Failed) <==> form.name != "" && form.stream != "" && refs.None?
    ensures plan == Reject(InvalidSelection) <==>
      form.name != "" && form.stream != "" && refs.Some? &&
      (StreamNamed(refs.value.streams, form.stream).None? || StatusNamed(refs.value.statuses, form.status).None?)
    ensures plan.Write? ==>
      var r, c := refs.value, plan.payload.changes;
      && plan.payload.id == form.id
      && c.name == form.name && c.name != "" && c.description == OrNull(form.description)
      && c.startDate == form.startDate && c.endDate == form.endDate
      && (exists s :: s in r.streams && s.name == form.stream && s.id == c.streamId)
      && (exists s :: s in r.statuses && s.name == form.status && s.id == c.statusId)
      && c.owner == OwnerOmitted
      && c.initiativeId == InitiativeId(Pick(r.initiatives, MonthsDiff(form.startDate, now)))
      && c.releaseId == ReleaseId(Pick(r.releases, MonthsDiff(form.startDate, now)))
  {
    if form.name == "" || form.stream == "" then Reject(MissingFields)
    else if refs.None? then Reject(Failed)
    else
      var r := refs.value;
      var stream := StreamNamed(r.streams, form.stream);
      var status := StatusNamed(r.statuses, form.status);
      if stream.None? || status.None? then Reject(InvalidSelection)
      else
        var d := MonthsDiff(form.startDate, now);
        Write(UpdateCall(form.id, ProjectUpdate(
          form.name, OrNull(form.description), form.startDate, form.endDate,
          status.value.id, stream.value.id, OwnerOmitted,
          InitiativeId(Pick(r.initiatives, d)), ReleaseId(Pick(r.releases, d)))))
  }

  class Backlog {
    var features: seq<Entry>
    var newProject: ProjectForm
    var editProject: ProjectForm
    var isDialogOpen: bool
    var isEditDialogOpen: bool

    constructor (now: Date)
      ensures features == []
      ensures newProject == EmptyForm(now) && editProject == EmptyForm(now)
      ensures !isDialogOpen && !isEditDialogOpen
    {
      features := [];
      newProject := EmptyForm(now);
      editProject := EmptyForm(now);
      isDialogOpen := false;
      isEditDialogOpen := false;
    }

    /** The mount-time fetch: only Backlog projects are kept; a rejected fetch
        leaves the list as it was. */
    method Load(fetched: Option<seq<ProjectRow>>)
      modifies this`features
      ensures fetched.Some? ==> features == BacklogLoad(fetched.value)
      ensures fetched.Some? ==> forall i :: 0 <= i < |features| ==> features[i].status.name == BacklogStatus
      ensures fetched.None? ==> features == old(features)
    {
      if fetched.Some? {
        features := Filter(MapSeq(fetched.value, BacklogFeature), IsBacklog);
      }
    }

    /** `handleCreateProject`: the created record is appended whatever status
        it comes back with. */
    method CreateProject(refs: Option<RefData>, now: Date, reply: Option<ProjectRow>)
      returns (outcome: Outcome, sent: Option<ProjectInsert>)
      modifies this
      ensures var plan := PlanCreate(old(newProject), refs, now);
        && (plan.Reject? ==> outcome == plan.why && sent == None && unchanged(this))
        && (plan.Write? ==> sent == Some(plan.payload))
        && (plan.Write? && reply.None? ==> outcome == Failed && unchanged(this))
        && (plan.Write? && reply.Some? ==>
              && outcome == Saved
              && features == old(features) + [BacklogFeature(reply.value)]
              && !isDialogOpen && newProject == EmptyForm(now)
              && editProject == old(editProject) && isEditDialogOpen == old(isEditDialogOpen))
    {
      var form := newProject;
      if form.name == "" || form.stream == "" {
        return MissingFields, None;
      }
      if refs.None? {
        return Failed, None;
      }
      var r := refs.value;
      var selectedStream := StreamNamed(r.streams, form.stream);
      var selectedStatus := StatusNamed(r.statuses, BacklogStatus);
      var defaultUser := UserNamed(r.users, DefaultUserName);
      if selectedStream.None? || selectedStatus.None? {
        return InvalidSelection, None;
      }
      var initiative, release := SelectBuckets(r.initiatives, r.releases, form.startDate, now);
      sent := Some(ProjectInsert(
        form.name, OrNull(form.description), form.startDate, form.endDate,
        selectedStatus.value.id, selectedStream.value.id,
        UserId(defaultUser),
        InitiativeId(initiative), ReleaseId(release), 0));
      if reply.None? {
        return Failed, sent;
      }
      features := features + [BacklogFeature(reply.value)];
      isDialogOpen := false;
      newProject := EmptyForm(now);
      outcome := Saved;
    }

    /** `handleEditFeature`: fill the edit form from the entry with that id. */
    method EditFeature(id: string)
      modifies this`editProject, this`isEditDialogOpen
      ensures var found := Find(features, IdIs(id));
        && (found.None? ==> editProject == old(editProject) && isEditDialogOpen == old(isEditDialogOpen))
        && (found.Some? ==> found.value.id == id && editProject == EditFormOf(found.value) && isEditDialogOpen)
    {
      var found := Find(features, IdIs(id));
      if found.Some? {
        editProject := EditFormOf(found.value);
        isEditDialogOpen := true;
      }
    }

    /** `handleDeleteFeature`: `confirmed` is the confirmation dialog's answer,
        `deleted` whether the delete call succeeded. */
    method DeleteFeature(id: string, confirmed: bool, deleted: bool)
      returns (outcome: Outcome, sent: Option<string>)
      modifies this`features
      ensures sent == (if confirmed then Some(id) else None)
      ensures !confirmed ==> outcome == Cancelled && features == old(features)
      ensures confirmed && !deleted ==> outcome == Failed && features == old(features)
      ensures confirmed && deleted ==> outcome == Saved && features == RemoveId(old(features), id)
    {
      if !confirmed {
        return Cancelled, None;
      }
      sent := Some(id);
      if !deleted {
        return Failed, sent;
      }
      features := RemoveId(features, id);
      outcome := Saved;
    }

    /** `handleUpdateProject`: the returned record replaces the entries with
        the edited id, even when it is no longer in Backlog. */
    method UpdateProject(refs: Option<RefData>, now: Date, reply: Option<ProjectRow>)
      returns (outcome: Outcome, sent: Option<UpdateCall>)
      modifies this
      ensures var plan := PlanUpdate(old(editProject), refs, now);
        && (plan.Reject? ==> outcome == plan.why && sent == None && unchanged(this))
        && (plan.Write? ==> sent == Some(plan.payload))
        && (plan.Write? && reply.None? ==> outcome == Failed && unchanged(this))
        && (plan.Write? && reply.Some? ==>
              && outcome == Saved
              && features == ReplaceId(old(features), old(editProject).id, BacklogFeature(reply.value))
              && !isEditDialogOpen && editProject == EmptyForm(now)
              && newProject == old(newProject) && isDialogOpen == old(isDialogOpen))
    {
      var form := editProject;
      if form.name == "" || form.stream == "" {
        return MissingFields, None;
      }
      if refs.None? {
        return Failed, None;
      }
      var r := refs.value;
      var selectedStream := StreamNamed(r.streams, form.stream);
      var selectedStatus := StatusNamed(r.statuses, form.status);
      if selectedStream.None? || selectedStatus.None? {
        return InvalidSelection, None;
      }
      var initiative, release := SelectBuckets(r.initiatives, r.releases, form.startDate, now);
      sent := Some(UpdateCall(form.id, ProjectUpdate(
        form.name, OrNull(form.description), form.startDate, form.endDate,
        selectedStatus.value.id, selectedStream.value.id, OwnerOmitted,
        InitiativeId(initiative), ReleaseId(release))));
      if reply.None? {
        return Failed, sent;
      }
      features := ReplaceId(features, form.id, BacklogFeature(reply.value));
      isEditDialogOpen := false;
      editProject := EmptyForm(now);
      outcome := Saved;
    }
  }
}
