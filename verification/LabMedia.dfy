// The media invariant over whole runs: templates mirror their ISO, their source is on offer, and ready means current.

module LabMedia {
  import opened Text
  import opened LabState

  // ---- the invariant

  // All mirrored columns equal the ISO's, and a source is one the catalog offers.
  predicate TemplateOk(m: Media, t: Template) {
    && t.iso in m.isos
    && t.family == m.isos[t.iso].family && t.columns == m.isos[t.iso].columns
    && SourceOk(t, m.isos[t.iso], m.disk)
  }

  predicate SourceOk(t: Template, iso: Iso, disk: map<TreeKey, Tree>) {
    iso.columns.catalog == [] || RunsItself(iso, disk) || Offers(iso.columns.catalog, t.sourceId)
  }

  // A tree is of the current revision exactly when its ISO is ready, and then it is on disk.
  predicate ReadyIsCurrent(id: nat, iso: Iso, disk: map<TreeKey, Tree>) {
    var c := iso.columns;
    c.generation.Generation? ==>
      && c.generation.iso == id && c.generation.revision <= c.revision
      && (c.status == Ready <==> c.generation.revision == c.revision)
      && (c.status == Ready ==> (id, c.revision) in disk)
  }

  // The worker's job belongs to an ISO still in progress; at the current revision its published tree is on disk.
  predicate JobOk(m: Media) {
    m.job.Job? ==>
      && m.job.iso in m.isos
      && var c := m.isos[m.job.iso].columns;
      && m.job.revision <= c.revision && InProgress(c.status)
      && (m.job.revision == c.revision ==> c.status == Extracting)
      && (m.job.revision == c.revision && m.job.phase.Unpacked? && m.job.phase.outcome.Publishes? ==>
        (m.job.iso, m.job.revision) in m.disk)
  }

  ghost predicate Mirrors(m: Media) {
    forall k | k in m.images :: TemplateOk(m, m.images[k])
  }

  ghost predicate Current(m: Media) {
    forall i | i in m.isos :: ReadyIsCurrent(i, m.isos[i], m.disk)
  }

  ghost predicate MediaOk(m: Media) {
    Mirrors(m) && Current(m) && JobOk(m)
  }

  // ---- building blocks

  lemma SyncedOk(m: Media, t: Template, id: nat)
    requires id in m.isos
    ensures TemplateOk(m, Synced(t, id, m.isos[id], m.disk))
  {
  }

  // Storing a row that keeps ready-is-current keeps everything but the job.
  lemma StoredOk(m: Media, id: nat, iso: Iso)
    requires Mirrors(m) && Current(m) && ReadyIsCurrent(id, iso, m.disk)
    ensures Mirrors(Stored(m, id, iso)) && Current(Stored(m, id, iso))
  {
    hide Synced, SourceOk, ReadyIsCurrent;
    var after := Stored(m, id, iso);
    forall k | k in after.images ensures TemplateOk(after, after.images[k]) {
      assert TemplateOk(m, m.images[k]);
      if m.images[k].iso == id { SyncedOk(after, m.images[k], id); }
    }
  }

  // Trees that no ready ISO names may come and go.
  lemma DiskOk(m: Media, disk: map<TreeKey, Tree>)
    requires Mirrors(m) && Current(m)
    requires forall i | i in m.isos && m.isos[i].columns.status == Ready && m.isos[i].columns.generation.Generation? ::
      var key := (i, m.isos[i].columns.revision); key in m.disk ==> key in disk && disk[key] == m.disk[key]
    ensures Mirrors(m.(disk := disk)) && Current(m.(disk := disk))
  {
    var after := m.(disk := disk);
    forall k | k in after.images ensures TemplateOk(after, after.images[k]) {
      assert TemplateOk(m, m.images[k]);
      var i := m.images[k].iso;
      assert ReadyIsCurrent(i, m.isos[i], m.disk);
      assert RunsItself(m.isos[i], m.disk) == RunsItself(m.isos[i], disk);
    }
  }

  // ---- one lemma per media operation

  lemma ScheduleOk(m: Media, id: nat, onDisk: bool)
    requires MediaOk(m)
    ensures MediaOk(Schedule(m, id, onDisk))
  {
    hide Mirrors, SyncedAll;
    if id in m.isos && onDisk {
      var c := m.isos[id].columns;
      assert ReadyIsCurrent(id, m.isos[id], m.disk);
      StoredOk(m, id, m.isos[id].(columns := c.(revision := c.revision + 1, status := Queued, error := "")));
    }
  }

  lemma RequeueOk(m: Media)
    requires MediaOk(m)
    ensures MediaOk(Requeue(m))
  {
    hide Synced, SourceOk;
    var after := Requeue(m);
    forall i | i in after.isos ensures ReadyIsCurrent(i, after.isos[i], after.disk) {
      assert ReadyIsCurrent(i, m.isos[i], m.disk);
    }
    forall k | k in after.images ensures TemplateOk(after, after.images[k]) {
      assert TemplateOk(m, m.images[k]);
      if m.isos[m.images[k].iso].columns.status == Extracting { SyncedOk(after, m.images[k], m.images[k].iso); }
    }
  }

  lemma ClaimOk(m: Media, id: nat)
    requires MediaOk(m)
    ensures MediaOk(Claim(m, id))
  {
    hide Offers;
    var after := Claim(m, id);
    if after != m {
      forall k | k in after.images ensures TemplateOk(after, after.images[k]) {
        assert TemplateOk(m, m.images[k]);
      }
    }
  }

  lemma BeginOk(m: Media, onDisk: bool)
    requires MediaOk(m)
    ensures MediaOk(Begin(m, onDisk))
  {
    hide SyncedAll, SourceOk, ReadyIsCurrent;
    if m.job.Job? && m.job.phase == Claimed && !Overtaken(m, m.job.iso, m.job.revision) && !onDisk {
      var c := m.isos[m.job.iso].columns;
      var iso := m.isos[m.job.iso].(columns := c.(status := Idle, error := ""));
      assert ReadyIsCurrent(m.job.iso, iso, m.disk) by { IdleCurrent(m.job.iso, m.isos[m.job.iso], iso, m.disk); }
      StoredOk(m, m.job.iso, iso);
      SameRows(Stored(m, m.job.iso, iso), NoJob);
    } else if m.job.Job? && m.job.phase == Claimed {
      SameRows(m, Begin(m, onDisk).job);
    }
  }

  // Leaving the in-progress states without a new tree.
  lemma IdleCurrent(id: nat, before: Iso, after: Iso, disk: map<TreeKey, Tree>)
    requires ReadyIsCurrent(id, before, disk) && before.columns.status != Ready && after.columns.status != Ready
    requires after.columns.generation == before.columns.generation && after.columns.revision == before.columns.revision
    ensures ReadyIsCurrent(id, after, disk)
  {
  }

  lemma SameRows(m: Media, job: Job)
    requires Mirrors(m) && Current(m)
    ensures Mirrors(m.(job := job)) && Current(m.(job := job))
  {
    var after := m.(job := job);
    forall k | k in after.images ensures TemplateOk(after, after.images[k]) { assert TemplateOk(m, m.images[k]); }
  }

  lemma UnpackOk(m: Media, outcome: Outcome)
    requires MediaOk(m)
    ensures MediaOk(Unpack(m, outcome))
  {
    hide SyncedAll, SourceOk;
    if m.job.Job? && m.job.phase == Opened {
      var after := Unpack(m, outcome);
      var id, revision := m.job.iso, m.job.revision;
      match outcome
      case Fails(message) =>
        if !Overtaken(m, id, revision) {
          var c := m.isos[id].columns;
          var iso := m.isos[id].(columns := c.(status := Failed, error := message));
          StoredOk(m, id, iso);
          SameRows(Stored(m, id, iso), NoJob);
        } else {
          SameRows(m, NoJob);
        }
      case BootsItself => SameRows(m, after.job);
      case Publishes(_, tree) =>
        forall i | i in m.isos && m.isos[i].columns.status == Ready && m.isos[i].columns.generation.Generation?
          ensures (i, m.isos[i].columns.revision) != (id, revision)
        {
        }
        DiskOk(m, after.disk);
        SameRows(m.(disk := after.disk), after.job);
    }
  }

  lemma CreateIsoOk(m: Media, id: nat, family: Family, arch: string)
    requires MediaOk(m)
    ensures MediaOk(CreateIso(m, id, family, arch))
  {
    hide SourceOk;
    var after := CreateIso(m, id, family, arch);
    forall k | k in after.images ensures TemplateOk(after, after.images[k]) { assert TemplateOk(m, m.images[k]); }
    forall i | i in after.isos ensures ReadyIsCurrent(i, after.isos[i], after.disk) {
      if i in m.isos { assert ReadyIsCurrent(i, m.isos[i], m.disk); }
    }
  }

  // Rewriting columns the extraction does not own.
  lemma EditOk(m: Media, id: nat, iso: Iso)
    requires MediaOk(m) && id in m.isos
    requires iso.columns.status == m.isos[id].columns.status && iso.columns.revision == m.isos[id].columns.revision
    requires iso.columns.generation == m.isos[id].columns.generation
    ensures MediaOk(Stored(m, id, iso))
  {
    hide SyncedAll, Mirrors;
    assert ReadyIsCurrent(id, m.isos[id], m.disk);
    StoredOk(m, id, iso);
  }

  lemma DeleteIsoOk(m: Media, id: nat)
    requires MediaOk(m)
    ensures MediaOk(DeleteIso(m, id))
  {
    hide Offers;
    var after := DeleteIso(m, id);
    if after != m {
      forall i | i in after.isos
        ensures ReadyIsCurrent(i, after.isos[i], after.disk) { assert ReadyIsCurrent(i, m.isos[i], m.disk); }
      forall k | k in after.images ensures TemplateOk(after, after.images[k]) {
        assert TemplateOk(m, m.images[k]);
        var i := m.images[k].iso;
        assert ReadyIsCurrent(i, m.isos[i], m.disk);
        assert RunsItself(m.isos[i], m.disk) == RunsItself(m.isos[i], after.disk);
      }
    }
  }

  lemma CreateImageOk(m: Media, k: nat, id: nat, sourceId: string, wimIndex: nat)
    requires MediaOk(m)
    ensures MediaOk(CreateImage(m, k, id, sourceId, wimIndex))
  {
    hide Synced, SourceOk;
    var after := CreateImage(m, k, id, sourceId, wimIndex);
    if after != m {
      var blank :=
        Template(id, m.isos[id].family, m.isos[id].columns, Strip(sourceId), if wimIndex < 1 then 1 else wimIndex);
      SyncedOk(after, blank, id);
      forall j | j in after.images ensures TemplateOk(after, after.images[j]) {
        if j != k { assert TemplateOk(m, m.images[j]); }
      }
    }
  }

  lemma UpdateImageOk(m: Media, k: nat, iso: Option<nat>, wimIndex: Option<nat>, sourceId: Option<string>)
    requires MediaOk(m)
    ensures MediaOk(UpdateImage(m, k, iso, wimIndex, sourceId))
  {
    hide Offers, RunsItself, WimIndexOf, ReadyIsCurrent;
    var after := UpdateImage(m, k, iso, wimIndex, sourceId);
    if after != m {
      var t := m.images[k];
      SyncedOk(m, t, match iso case Some(i) => i case None => t.iso);
      forall j | j in after.images ensures TemplateOk(after, after.images[j]) {
        if j != k { assert TemplateOk(m, m.images[j]); }
      }
    }
  }

  // ---- garbage collection and publishing

  // Dropping trees while keeping every ISO's current one.
  lemma DropOk(m: Media, disk: map<TreeKey, Tree>)
    requires MediaOk(m)
    requires forall p | p in m.disk && p.0 in m.isos && m.isos[p.0].columns.revision == p.1 ::
      p in disk && disk[p] == m.disk[p]
    ensures MediaOk(m.(disk := disk))
  {
    hide Mirrors, SourceOk;
    DiskOk(m, disk);
  }

  lemma FinishOk(s: State, found: seq<Source>)
    requires MediaOk(s.media)
    ensures MediaOk(Finish(s, found).media)
  {
    hide SourceOk, SyncedAll, Keeps, Mirrors;
    var m := s.media;
    if m.job.Job? && m.job.phase.Unpacked? && !m.job.phase.outcome.Fails? {
      var id, revision, outcome := m.job.iso, m.job.revision, m.job.phase.outcome;
      SameRows(m, NoJob);
      if Overtaken(m, id, revision) {
        DropOk(m.(job := NoJob), Finish(s, found).media.disk);
      } else {
        var iso := Finished(m.isos[id], id, outcome, found);
        StoredOk(m, id, iso);
        var stored := Stored(m, id, iso);
        SameRows(stored, NoJob);
        CollectOk(s.(media := stored.(job := NoJob)), id);
      }
    }
  }

  lemma CollectOk(s: State, id: nat)
    requires MediaOk(s.media)
    ensures MediaOk(Collect(s, id).media)
  {
    hide Mirrors, Current, JobOk, PinsRevision;
    DropOk(s.media, Collect(s, id).media.disk);
  }

  lemma MarkDeployedOk(s: State, id: nat)
    requires MediaOk(s.media)
    ensures MediaOk(MarkDeployed(s, id).media)
  {
    hide Mirrors, Current, JobOk, PinsRevision, PinnedIso;
    if id in s.fleet.machines { DropOk(s.media, MarkDeployed(s, id).media.disk); }
  }

  lemma DeleteImageOk(s: State, k: nat)
    requires MediaOk(s.media)
    ensures MediaOk(DeleteImage(s, k).media)
  {
    var m, after := s.media, DeleteImage(s, k).media;
    forall j | j in after.images ensures TemplateOk(after, after.images[j]) { assert TemplateOk(m, m.images[j]); }
  }

  lemma MediaStepOk(m: Media, op: Op)
    requires MediaOk(m)
    ensures MediaOk(MediaStep(m, op))
  {
    hide MediaOk, Schedule, Requeue, Claim, Begin, Unpack, CreateIso, DeleteIso, CreateImage, UpdateImage;
    match op
    case OpSchedule(id, onDisk) => ScheduleOk(m, id, onDisk);
    case OpRequeue => RequeueOk(m);
    case OpClaim(id) => ClaimOk(m, id);
    case OpBegin(onDisk) => BeginOk(m, onDisk);
    case OpUnpack(outcome) => UnpackOk(m, outcome);
    case OpCreateIso(id, family, arch) => CreateIsoOk(m, id, family, arch);
    case OpUpdateIso(id, arch, cmdline, isoPath, kernel, initrd, bootWim, installWim) =>
      if id in m.isos {
        var c := m.isos[id].columns;
        EditOk(m, id, m.isos[id].(columns := c.(
          arch := arch, cmdline := cmdline, isoPath := isoPath,
          kernel := kernel, initrd := initrd, bootWim := bootWim, installWim := installWim)));
      }
    case OpRefresh(id, found) => if id in m.isos { EditOk(m, id, Refreshed(m.isos[id], found)); }
    case OpDeleteIso(id) => DeleteIsoOk(m, id);
    case OpCreateImage(k, id, sourceId, wimIndex) => CreateImageOk(m, k, id, sourceId, wimIndex);
    case OpUpdateImage(k, iso, wimIndex, sourceId) => UpdateImageOk(m, k, iso, wimIndex, sourceId);
    case _ =>
  }

  lemma StepMedia(s: State, op: Op)
    requires MediaOk(s.media)
    ensures MediaOk(Step(s, op).media)
  {
    hide MediaOk, MediaStep, FleetStep, Finish, MarkDeployed, DeleteImage;
    match op
    case OpFinish(found) => FinishOk(s, found);
    case OpDeleteImage(k) => DeleteImageOk(s, k);
    case OpSuccess(id, now, minutes) =>
      if SuccessAccepted(s.fleet, id, now, minutes) { MarkDeployedOk(s.(fleet := Expire(s.fleet, now, minutes)), id); }
    case OpMarkDeployed(id) => MarkDeployedOk(s, id);
    case _ => MediaStepOk(s.media, op);
  }

  // Main theorem: in every reachable state the templates mirror their ISOs and ready means current.
  lemma {:induction false} AlwaysMirrored(ops: seq<Op>)
    ensures MediaOk(Run(START, ops).media)
  {
    hide MediaOk, Step;
    if ops == [] {
      assert MediaOk(START.media) by { EmptyOk(); }
    } else {
      AlwaysMirrored(ops[..|ops| - 1]);
      StepMedia(Run(START, ops[..|ops| - 1]), ops[|ops| - 1]);
    }
  }

  lemma EmptyOk()
    ensures MediaOk(START.media)
  {
  }

  // ---- overtaken jobs

  // A job whose revision was overtaken changes no row, wherever it is, and removes at most its own tree.
  lemma OvertakenChangesNothing(s: State, op: Op)
    requires s.media.job.Job? && Overtaken(s.media, s.media.job.iso, s.media.job.revision)
    requires op.OpBegin? || op.OpUnpack? || op.OpFinish?
    ensures var m, after := s.media, Step(s, op);
      && after.fleet == s.fleet && after.media.isos == m.isos && after.media.images == m.images
      && (forall p | p != (m.job.iso, m.job.revision) :: (p in after.media.disk <==> p in m.disk)
                                                         && (p in m.disk ==> after.media.disk[p] == m.disk[p]))
      && (op.OpFinish? && m.job.phase.Unpacked? && m.job.phase.outcome.Publishes? ==>
            (m.job.iso, m.job.revision) !in after.media.disk)
  {
  }

  // Otherwise the job decides the row's fate at once, for the row and every template of it.
  lemma JobDecides(s: State, op: Op)
    requires MediaOk(s.media) && s.media.job.Job? && !Overtaken(s.media, s.media.job.iso, s.media.job.revision)
    requires op.OpBegin? || op.OpUnpack? || op.OpFinish?
    requires Step(s, op).media.job == NoJob
    ensures var id, after := s.media.job.iso, Step(s, op).media;
      && id in after.isos && MediaOk(after)
      && var c := after.isos[id].columns;
      && c.revision == s.media.job.revision
      && (op.OpBegin? ==> c.status == Idle && c.error == "" && c.generation == s.media.isos[id].columns.generation)
      && (op.OpUnpack? ==> op.outcome.Fails? && c.status == Failed && c.error == op.outcome.message
                           && c.generation == s.media.isos[id].columns.generation)
      && (op.OpFinish? ==> c.status == Ready && c.error == ""
                           && (s.media.job.phase.outcome.BootsItself? ==> c.generation == NoGeneration)
                           && (s.media.job.phase.outcome.Publishes? ==>
                                 c.generation == Generation(s.media.job.phase.outcome.nfs, id, c.revision)))
      && forall k | k in after.images && after.images[k].iso == id :: after.images[k].columns == c
  {
    hide Synced, Keeps, MediaOk, Mirrors, Current;
    StepMedia(s, op);
    var after := Step(s, op).media;
    forall k | k in after.images && after.images[k].iso == s.media.job.iso
      ensures after.images[k].columns == after.isos[s.media.job.iso].columns
    {
      MirrorOf(after, k);
    }
  }

  lemma MirrorOf(m: Media, k: nat)
    requires MediaOk(m) && k in m.images
    ensures m.images[k].iso in m.isos && m.images[k].columns == m.isos[m.images[k].iso].columns
  {
    assert TemplateOk(m, m.images[k]);
  }

  // ---- a revision is claimed once

  // Revision r of the ISO is past its only claim.
  predicate Spent(m: Media, id: nat, revision: nat) {
    id in m.isos ==>
      m.isos[id].columns.revision > revision
      || (m.isos[id].columns.revision == revision && m.isos[id].columns.status != Queued)
  }

  lemma ClaimSpends(m: Media, id: nat)
    requires Claim(m, id) != m
    ensures id in m.isos && id in Claim(m, id).isos && Claim(m, id).job == Job(id, m.isos[id].columns.revision, Claimed)
    ensures Spent(Claim(m, id), id, m.isos[id].columns.revision)
  {
  }

  // Only a worker restart or a new ISO under the same id could bring a spent revision back.
  predicate Renews(op: Op, id: nat) {
    op.OpRequeue? || (op.OpDeleteIso? && op.iso == id)
  }

  lemma SpentNotClaimed(m: Media, id: nat, revision: nat)
    requires Spent(m, id, revision)
    ensures Claim(m, id) != m ==> Claim(m, id).job.revision != revision
  {
  }

  // The template operations leave the ISO rows alone.
  lemma TemplatesOnly(m: Media, op: Op)
    requires op.OpCreateImage? || op.OpUpdateImage?
    ensures MediaStep(m, op).isos == m.isos
  {
    hide Synced, Offers, PickSource, WimIndexOf;
  }

  lemma MediaStaysSpent(m: Media, op: Op, id: nat, revision: nat)
    requires id in m.isos && Spent(m, id, revision) && !Renews(op, id)
    ensures id in MediaStep(m, op).isos && Spent(MediaStep(m, op), id, revision)
  {
    hide SyncedAll, Next, CreateImage, UpdateImage;
    if op.OpCreateImage? || op.OpUpdateImage? { TemplatesOnly(m, op); }
  }

  lemma FinishStaysSpent(s: State, found: seq<Source>, id: nat, revision: nat)
    requires id in s.media.isos && Spent(s.media, id, revision)
    ensures id in Finish(s, found).media.isos && Spent(Finish(s, found).media, id, revision)
  {
    hide SyncedAll, Keeps;
  }

  lemma StaysSpent(s: State, op: Op, id: nat, revision: nat)
    requires id in s.media.isos && Spent(s.media, id, revision) && !Renews(op, id)
    ensures id in Step(s, op).media.isos && Spent(Step(s, op).media, id, revision)
  {
    hide Finish, MediaStep, FleetStep, Keeps, PinnedIso, ImageBusy, Expire, Leave, Renews;
    if op.OpFinish? { FinishStaysSpent(s, op.found, id, revision); }
    else { MediaStaysSpent(s.media, op, id, revision); }
  }

  lemma {:induction false} SpentForever(s: State, ops: seq<Op>, id: nat, revision: nat)
    requires id in s.media.isos && Spent(s.media, id, revision)
    requires forall op | op in ops :: !Renews(op, id)
    ensures id in Run(s, ops).media.isos && Spent(Run(s, ops).media, id, revision)
  {
    hide Step, Renews, Spent;
    if ops != [] {
      var n := |ops| - 1;
      assert forall op | op in ops[..n] :: op in ops;
      SpentForever(s, ops[..n], id, revision);
      StaysSpent(Run(s, ops[..n]), ops[n], id, revision);
    }
  }

  // Between two worker starts each revision of an ISO is handed out at most once, whatever else runs.
  lemma ClaimedOnce(s: State, ops: seq<Op>, id: nat)
    requires Claim(s.media, id) != s.media
    requires forall op | op in ops :: !Renews(op, id)
    ensures var later := Run(Step(s, OpClaim(id)), ops).media;
      Claim(later, id) != later ==> Claim(later, id).job.revision != Claim(s.media, id).job.revision
  {
    hide Renews, Next, Spent, Run;
    ClaimSpends(s.media, id);
    var claimed, revision := Step(s, OpClaim(id)), s.media.isos[id].columns.revision;
    SpentForever(claimed, ops, id, revision);
    SpentNotClaimed(Run(claimed, ops).media, id, revision);
  }
}
