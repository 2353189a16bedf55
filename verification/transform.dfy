/** The project-to-Feature transformers of the two screens, and the load-time
    membership filters built on them. */
module Transform {
  import opened Common
  import opened Records

  /** The roadmap screen's transformer. Every relation becomes an object:
      a null owner, initiative or release becomes an object of empty strings,
      and the stream is copied into both `group` and `product`. */
  function RoadmapFeature(p: ProjectRow): (f: Feature<OwnerCard>)
    ensures f.id == p.id && f.name == p.name
    ensures f.description == OrEmpty(p.description)
    ensures f.startAt == p.startDate && f.endAt == p.endDate
    ensures f.status == StatusTag(p.status.id, p.status.name, p.status.color)
    ensures f.group == f.product == Named(p.stream.id, p.stream.name)
    ensures p.owner.None? ==> f.owner == OwnerCard("", "", "", None)
    ensures p.owner.Some? ==>
      f.owner == OwnerCard(p.owner.value.id, p.owner.value.name,
                           OrEmpty(p.owner.value.avatarUrl), OrNullOpt(p.owner.value.role))
    ensures p.initiative.None? ==> f.initiative == Named("", "")
    ensures p.initiative.Some? ==> f.initiative == Named(p.initiative.value.id, p.initiative.value.name)
    ensures p.release.None? ==> f.release == Named("", "")
    ensures p.release.Some? ==> f.release == Named(p.release.value.id, p.release.value.name)
  {
    Feature(
      p.id, p.name, OrEmpty(p.description),
      p.startDate, p.endDate,
      StatusTag(p.status.id, p.status.name, p.status.color),
      match p.owner
        case Some(o) => OwnerCard(o.id, o.name, OrEmpty(o.avatarUrl), OrNullOpt(o.role))
        case None => OwnerCard("", "", "", None),
      Named(p.stream.id, p.stream.name),
      Named(p.stream.id, p.stream.name),
      match p.initiative
        case Some(i) => Named(i.id, i.name)
        case None => Named("", ""),
      match p.release
        case Some(r) => Named(r.id, r.name)
        case None => Named("", ""))
  }

  /** The backlog screen's transformer: the same shape, with the owner reduced
      to id, name and image. */
  function BacklogFeature(p: ProjectRow): (f: Feature<OwnerBadge>)
    ensures f.id == p.id && f.name == p.name
    ensures f.description == OrEmpty(p.description)
    ensures f.startAt == p.startDate && f.endAt == p.endDate
    ensures f.status == StatusTag(p.status.id, p.status.name, p.status.color)
    ensures f.group == f.product == Named(p.stream.id, p.stream.name)
    ensures p.owner.None? ==> f.owner == OwnerBadge("", "", "")
    ensures p.owner.Some? ==>
      f.owner == OwnerBadge(p.owner.value.id, p.owner.value.name, OrEmpty(p.owner.value.image))
    ensures p.initiative.None? ==> f.initiative == Named("", "")
    ensures p.initiative.Some? ==> f.initiative == Named(p.initiative.value.id, p.initiative.value.name)
    ensures p.release.None? ==> f.release == Named("", "")
    ensures p.release.Some? ==> f.release == Named(p.release.value.id, p.release.value.name)
  {
    Feature(
      p.id, p.name, OrEmpty(p.description),
      p.startDate, p.endDate,
      StatusTag(p.status.id, p.status.name, p.status.color),
      match p.owner
        case Some(o) => OwnerBadge(o.id, o.name, OrEmpty(o.image))
        case None => OwnerBadge("", "", ""),
      Named(p.stream.id, p.stream.name),
      Named(p.stream.id, p.stream.name),
      match p.initiative
        case Some(i) => Named(i.id, i.name)
        case None => Named("", ""),
      match p.release
        case Some(r) => Named(r.id, r.name)
        case None => Named("", ""))
  }

  /** A Feature with its owner reduced to the id and name both screens keep. */
  function OwnerIdName(f: Feature<OwnerCard>): Feature<Named>
  {
    Feature(f.id, f.name, f.description, f.startAt, f.endAt, f.status,
            Named(f.owner.id, f.owner.name), f.group, f.product, f.initiative, f.release)
  }

  function BadgeIdName(f: Feature<OwnerBadge>): Feature<Named>
  {
    Feature(f.id, f.name, f.description, f.startAt, f.endAt, f.status,
            Named(f.owner.id, f.owner.name), f.group, f.product, f.initiative, f.release)
  }

  /** The two screens agree on everything but the owner's display fields. */
  lemma TransformersAgree(p: ProjectRow)
    ensures OwnerIdName(RoadmapFeature(p)) == BadgeIdName(BacklogFeature(p))
  {
  }

  predicate IsBacklog<O>(f: Feature<O>)
  {
    f.status.name == BacklogStatus
  }

  predicate NotBacklog<O>(f: Feature<O>)
  {
    f.status.name != BacklogStatus
  }

  predicate IsBacklogRow(p: ProjectRow)
  {
    p.status.name == BacklogStatus
  }

  predicate NotBacklogRow(p: ProjectRow)
  {
    p.status.name != BacklogStatus
  }

  /** The roadmap screen's `filterOutBacklog`. */
  function FilterOutBacklog(xs: seq<Feature<OwnerCard>>): (r: seq<Feature<OwnerCard>>)
    ensures forall i :: 0 <= i < |r| ==> r[i].status.name != BacklogStatus && r[i] in xs
    ensures forall i :: 0 <= i < |xs| && xs[i].status.name != BacklogStatus ==> xs[i] in r
  {
    Filter(xs, NotBacklog)
  }

  /** What the roadmap screen loads: the transformed projects that are not in
      Backlog. */
  function RoadmapLoad(ps: seq<ProjectRow>): (r: seq<Feature<OwnerCard>>)
    ensures |r| <= |ps|
    ensures forall i :: 0 <= i < |r| ==> r[i].status.name != BacklogStatus
    ensures forall k :: 0 <= k < |ps| && ps[k].status.name != BacklogStatus ==> RoadmapFeature(ps[k]) in r
  {
    FilterOutBacklog(MapSeq(ps, RoadmapFeature))
  }

  /** What the backlog screen loads: the transformed projects in Backlog. */
  function BacklogLoad(ps: seq<ProjectRow>): (r: seq<Feature<OwnerBadge>>)
    ensures |r| <= |ps|
    ensures forall i :: 0 <= i < |r| ==> r[i].status.name == BacklogStatus
    ensures forall k :: 0 <= k < |ps| && ps[k].status.name == BacklogStatus ==> BacklogFeature(ps[k]) in r
  {
    Filter(MapSeq(ps, BacklogFeature), IsBacklog)
  }

  /** The roadmap screen loads exactly the non-Backlog rows, transformed, in
      the order they were fetched. */
  lemma RoadmapLoadRows(ps: seq<ProjectRow>)
    ensures RoadmapLoad(ps) == MapSeq(Filter(ps, NotBacklogRow), RoadmapFeature)
  {
    FilterMapSeq(ps, RoadmapFeature, NotBacklog, NotBacklogRow);
  }

  /** The backlog screen loads exactly the Backlog rows, transformed, in the
      order they were fetched. */
  lemma BacklogLoadRows(ps: seq<ProjectRow>)
    ensures BacklogLoad(ps) == MapSeq(Filter(ps, IsBacklogRow), BacklogFeature)
  {
    FilterMapSeq(ps, BacklogFeature, IsBacklog, IsBacklogRow);
  }

  /** Every project is on exactly one of the two screens after a load. */
  lemma LoadsPartition(ps: seq<ProjectRow>, k: nat)
    requires k < |ps|
    ensures RoadmapFeature(ps[k]) in RoadmapLoad(ps) || BacklogFeature(ps[k]) in BacklogLoad(ps)
    ensures IsBacklogRow(ps[k]) ==> BacklogFeature(ps[k]) in BacklogLoad(ps)
    ensures !IsBacklogRow(ps[k]) ==> RoadmapFeature(ps[k]) in RoadmapLoad(ps)
  {
    var m := MapSeq(ps, RoadmapFeature);
    var b := MapSeq(ps, BacklogFeature);
    assert m[k] == RoadmapFeature(ps[k]);
    assert b[k] == BacklogFeature(ps[k]);
  }
}
