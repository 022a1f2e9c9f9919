// Pinned media survives: the tree an open install boots from stays on disk through every interleaving.

module LabPins {
  import opened Text
  import opened LabState
  import opened LabMedia
  import opened LabLife

  // The attempt made for an instance is still open.
  predicate StillOpen(f: Fleet, a: nat, instance: nat) {
    a in f.attempts && f.attempts[a].open && f.attempts[a].instance == instance
  }

  // A tree that nothing running now or later can touch: it is on disk, the image is linked to its ISO, and the worker
  // neither has nor can be handed that revision again.
  predicate TreeSafe(m: Media, k: nat, id: nat, revision: nat, tree: Tree) {
    && k in m.images && m.images[k].iso == id && id in m.isos
    && (id, revision) in m.disk && m.disk[(id, revision)] == tree
    && Spent(m, id, revision) && (m.isos[id].columns.revision == revision ==> m.isos[id].columns.status != Extracting)
    && !(m.job.Job? && m.job.iso == id && m.job.revision == revision)
  }

  // The attempt pins such a tree.
  predicate Safe(s: State, a: nat, k: nat, id: nat, revision: nat, tree: Tree)
    requires a in s.fleet.attempts
  {
    && s.fleet.attempts[a].image == Some(k) && s.fleet.attempts[a].payload.revision == revision
    && TreeSafe(s.media, k, id, revision, tree)
  }

  predicate Pinned(s: State, a: nat, instance: nat, k: nat, id: nat, revision: nat, tree: Tree) {
    instance < s.fleet.nextInstance && (StillOpen(s.fleet, a, instance) ==> Safe(s, a, k, id, revision, tree))
  }

  // The image is moved to another ISO.
  predicate Relinks(op: Op, k: nat, id: nat) {
    op.OpUpdateImage? && op.image == k && op.relink.Some? && op.relink.value != id
  }

  // ---- what each kind of step leaves alone

  // Media operations touch neither the pinned row's link, nor its revision's fate, nor its tree.
  lemma MediaStepSafe(m: Media, op: Op, k: nat, id: nat, revision: nat, tree: Tree)
    requires TreeSafe(m, k, id, revision, tree) && !Relinks(op, k, id)
    ensures TreeSafe(MediaStep(m, op), k, id, revision, tree)
  {
    hide RunsItself, PickSource, WimIndexOf, Offers, UpdateImage, CreateImage, Begin, Unpack, Claim, Requeue;
    if op.OpUpdateImage? { UpdateLinks(m, op, k, id); }
    else if op.OpCreateImage? { TemplatesOnly(m, op); CreateLinks(m, op, k); }
    else if op.OpBegin? || op.OpUnpack? || op.OpClaim? || op.OpRequeue? { WorkerSafe(m, op, k, id, revision, tree); }
  }

  lemma WorkerSafe(m: Media, op: Op, k: nat, id: nat, revision: nat, tree: Tree)
    requires TreeSafe(m, k, id, revision, tree) && (op.OpBegin? || op.OpUnpack? || op.OpClaim? || op.OpRequeue?)
    ensures TreeSafe(MediaStep(m, op), k, id, revision, tree)
  {
    hide RunsItself, PickSource, WimIndexOf, Offers;
  }

  lemma UpdateLinks(m: Media, op: Op, k: nat, id: nat)
    requires op.OpUpdateImage? && k in m.images && m.images[k].iso == id && !Relinks(op, k, id)
    ensures var after := MediaStep(m, op);
      k in after.images && after.images[k].iso == id && after.isos == m.isos && after.disk == m.disk
        && after.job == m.job
  {
    hide RunsItself, PickSource, WimIndexOf, Offers;
  }

  lemma CreateLinks(m: Media, op: Op, k: nat)
    requires op.OpCreateImage? && k in m.images
    ensures var after := MediaStep(m, op);
      k in after.images && after.images[k] == m.images[k] && after.disk == m.disk && after.job == m.job
  {
    hide Synced;
  }

  lemma FinishSafe(s: State, found: seq<Source>, a: nat, k: nat, id: nat, revision: nat, tree: Tree)
    requires a in s.fleet.attempts && s.fleet.attempts[a].open && Safe(s, a, k, id, revision, tree)
    ensures Finish(s, found).fleet == s.fleet && Safe(Finish(s, found), a, k, id, revision, tree)
  {
    hide Synced, Finished, Keeps;
    var m := s.media;
    if m.job.Job? && m.job.phase.Unpacked? && !m.job.phase.outcome.Fails? && !Overtaken(m, m.job.iso, m.job.revision) {
      var iso := Finished(m.isos[m.job.iso], m.job.iso, m.job.phase.outcome, found);
      FinishedStatus(m.isos[m.job.iso], m.job.iso, m.job.phase.outcome, found);
      var stored := s.(media := Stored(m, m.job.iso, iso).(job := NoJob));
      assert Safe(stored, a, k, id, revision, tree);
      Kept(stored, a, k, id, revision, tree);
    }
  }

  lemma FinishedStatus(iso: Iso, id: nat, outcome: Outcome, found: seq<Source>)
    requires !outcome.Fails?
    ensures Finished(iso, id, outcome, found).columns.status == Ready
    ensures Finished(iso, id, outcome, found).columns.revision == iso.columns.revision
  {
  }

  lemma Kept(s: State, a: nat, k: nat, id: nat, revision: nat, tree: Tree)
    requires a in s.fleet.attempts && s.fleet.attempts[a].open && Safe(s, a, k, id, revision, tree)
    ensures Keeps(s, id, revision)
  {
    assert PinsRevision(s, a, id, revision);
  }

  lemma MarkDeployedSafe(s: State, i: nat, a: nat, instance: nat, k: nat, id: nat, revision: nat, tree: Tree)
    requires Pinned(s, a, instance, k, id, revision, tree)
    ensures Pinned(MarkDeployed(s, i), a, instance, k, id, revision, tree)
  {
    hide Keeps, PinnedIso, TreeSafe;
    if StillOpen(MarkDeployed(s, i).fleet, a, instance) && i in s.fleet.machines {
      var done := s.(fleet := Leave(s.fleet, i, Deployed));
      assert Safe(done, a, k, id, revision, tree);
      Kept(done, a, k, id, revision, tree);
      DiskKept(s.media, MarkDeployed(s, i).media.disk, k, id, revision, tree);
    }
  }

  lemma DiskKept(m: Media, disk: map<TreeKey, Tree>, k: nat, id: nat, revision: nat, tree: Tree)
    requires TreeSafe(m, k, id, revision, tree)
    requires (id, revision) in m.disk ==> (id, revision) in disk && disk[(id, revision)] == m.disk[(id, revision)]
    ensures TreeSafe(m.(disk := disk), k, id, revision, tree)
  {
  }

  // ---- one step

  // Steps of the machine side never reopen, move or repoint an open attempt.
  lemma FleetStepSame(f: Fleet, op: Op, a: nat, instance: nat)
    requires instance < f.nextInstance
    ensures var g := FleetStep(f, op);
      instance < g.nextInstance
        && (StillOpen(g, a, instance) ==> StillOpen(f, a, instance) && g.attempts[a] == f.attempts[a])
  {
  }

  lemma PinStepSame(s: State, op: Op, a: nat, instance: nat)
    requires instance < s.fleet.nextInstance && (op.OpDeploy? || op.OpStage? || op.OpSave? || op.OpCopySeed?)
    ensures var t := Step(s, op);
      && t.media == s.media && instance < t.fleet.nextInstance
      && (StillOpen(t.fleet, a, instance) ==>
        StillOpen(s.fleet, a, instance) && t.fleet.attempts[a] == s.fleet.attempts[a])
  {
    hide Deployable, PayloadOf, MediaStep, FleetStep, Finish, Success, MarkDeployed, DeleteImage;
  }

  lemma DeleteImageSafe(s: State, j: nat, a: nat, instance: nat, k: nat, id: nat, revision: nat, tree: Tree)
    requires Pinned(s, a, instance, k, id, revision, tree)
    ensures Pinned(DeleteImage(s, j), a, instance, k, id, revision, tree)
  {
    if StillOpen(DeleteImage(s, j).fleet, a, instance) && DeleteImage(s, j) != s {
      assert StillOpen(s.fleet, a, instance);
    }
  }

  lemma SuccessSafe(s: State, op: Op, a: nat, instance: nat, k: nat, id: nat, revision: nat, tree: Tree)
    requires Pinned(s, a, instance, k, id, revision, tree) && (op.OpSuccess? || op.OpMarkDeployed?)
    ensures Pinned(Step(s, op), a, instance, k, id, revision, tree)
  {
    hide Keeps, PinnedIso, MediaStep, Finish, Deploy, Stage, Save, CopySeed, DeleteImage, Expire, MarkDeployed,
      TreeSafe;
    var before := if op.OpSuccess? then s.(fleet := Expire(s.fleet, op.now, op.minutes)) else s;
    if op.OpSuccess? { FleetStepSame(s.fleet, OpExpire(op.now, op.minutes), a, instance); }
    assert Pinned(before, a, instance, k, id, revision, tree);
    MarkDeployedSafe(before, op.machine, a, instance, k, id, revision, tree);
  }

  lemma FleetSafe(s: State, op: Op, a: nat, instance: nat, k: nat, id: nat, revision: nat, tree: Tree)
    requires Pinned(s, a, instance, k, id, revision, tree) && !Relinks(op, k, id)
    ensures Pinned(State(MediaStep(s.media, op), FleetStep(s.fleet, op)), a, instance, k, id, revision, tree)
  {
    hide MediaStep, FleetStep, TreeSafe, Relinks;
    FleetStepSame(s.fleet, op, a, instance);
    if StillOpen(s.fleet, a, instance) { MediaStepSafe(s.media, op, k, id, revision, tree); }
  }

  lemma PinSafe(s: State, op: Op, a: nat, instance: nat, k: nat, id: nat, revision: nat, tree: Tree)
    requires Pinned(s, a, instance, k, id, revision, tree)
      && (op.OpDeploy? || op.OpStage? || op.OpSave? || op.OpCopySeed?)
    ensures Pinned(Step(s, op), a, instance, k, id, revision, tree)
  {
    hide Step, TreeSafe;
    PinStepSame(s, op, a, instance);
  }

  lemma PublishSafe(s: State, found: seq<Source>, a: nat, instance: nat, k: nat, id: nat, revision: nat, tree: Tree)
    requires Pinned(s, a, instance, k, id, revision, tree)
    ensures Pinned(Finish(s, found), a, instance, k, id, revision, tree)
  {
    hide Finish, TreeSafe;
    if StillOpen(s.fleet, a, instance) {
      FinishSafe(s, found, a, k, id, revision, tree);
    } else {
      FinishKeeps(s, found);
    }
  }

  lemma PinnedStep(s: State, op: Op, a: nat, instance: nat, k: nat, id: nat, revision: nat, tree: Tree)
    requires Pinned(s, a, instance, k, id, revision, tree) && !Relinks(op, k, id)
    ensures Pinned(Step(s, op), a, instance, k, id, revision, tree)
  {
    hide Finish, MediaStep, FleetStep, DeleteImage, Deploy, Stage, Save, CopySeed, MarkDeployed, Success, Pinned,
      Relinks;
    match op
    case OpFinish(found) => PublishSafe(s, found, a, instance, k, id, revision, tree);
    case OpDeleteImage(j) => DeleteImageSafe(s, j, a, instance, k, id, revision, tree);
    case OpDeploy(_, _, _, _) => PinSafe(s, op, a, instance, k, id, revision, tree);
    case OpStage(_, _, _, _) => PinSafe(s, op, a, instance, k, id, revision, tree);
    case OpSave(_, _, _, _, _) => PinSafe(s, op, a, instance, k, id, revision, tree);
    case OpCopySeed(_, _) => PinSafe(s, op, a, instance, k, id, revision, tree);
    case OpSuccess(_, _, _) => SuccessSafe(s, op, a, instance, k, id, revision, tree);
    case OpMarkDeployed(_) => SuccessSafe(s, op, a, instance, k, id, revision, tree);
    case _ => FleetSafe(s, op, a, instance, k, id, revision, tree);
  }

  lemma {:induction false} PinnedForever(s: State, ops: seq<Op>, a: nat, instance: nat, k: nat, id: nat, revision: nat,
                                         tree: Tree)
    requires Pinned(s, a, instance, k, id, revision, tree)
    requires forall op | op in ops :: !Relinks(op, k, id)
    ensures Pinned(Run(s, ops), a, instance, k, id, revision, tree)
  {
    hide Step, Pinned, Relinks;
    if ops != [] {
      var n := |ops| - 1;
      assert forall op | op in ops[..n] :: op in ops;
      PinnedForever(s, ops[..n], a, instance, k, id, revision, tree);
      PinnedStep(Run(s, ops[..n]), ops[n], a, instance, k, id, revision, tree);
    }
  }

  // ---- the theorem

  // Creating the attempt from a ready template pins the ISO's current tree.
  lemma AttemptPins(s: State, id: nat, machine: Machine, a: nat, k: nat)
    requires MediaOk(s.media) && k in s.media.images
    requires var c := s.media.images[k].columns; c.status == Ready && c.generation.Generation?
    ensures var g := s.media.images[k].columns.generation;
      var after := s.(fleet := Attempted(s.fleet, id, machine, a, k, s.media.images[k]));
      && g.iso == s.media.images[k].iso && (g.iso, g.revision) in s.media.disk
      && after.fleet.attempts[a].payload.generation == g
      && Pinned(after, a, s.fleet.nextInstance, k, g.iso, g.revision, s.media.disk[(g.iso, g.revision)])
  {
    var t := s.media.images[k];
    assert TemplateOk(s.media, t);
    assert ReadyIsCurrent(t.iso, s.media.isos[t.iso], s.media.disk);
  }

  // A new open attempt made by a step, from the image it names.
  predicate Creates(s: State, op: Op, a: nat, k: nat) {
    && a !in s.fleet.attempts && a in Step(s, op).fleet.attempts && Step(s, op).fleet.attempts[a].image == Some(k)
    && (op.OpDeploy? || op.OpStage? || op.OpSave?)
  }

  lemma CreatedIs(s: State, op: Op, a: nat, k: nat)
    requires Creates(s, op, a, k)
    ensures k in s.media.images && Step(s, op).media == s.media
    ensures exists id, machine :: Step(s, op).fleet == Attempted(s.fleet, id, machine, a, k, s.media.images[k])
  {
    hide Deployable, PayloadOf, MediaStep, FleetStep, Finish, Success, MarkDeployed, DeleteImage, CopySeed;
    match op
    case OpDeploy(id, _, _, _) =>
      var machine := s.fleet.machines[id].(target := Some(k), state := Deploying, clock := None);
      assert Step(s, op).fleet == Attempted(s.fleet, id, machine, a, k, s.media.images[k]);
    case OpStage(id, _, image, _) =>
      var machine := s.fleet.machines[id].(target := Some(k), state := Staged, clock := None);
      assert Step(s, op).fleet == Attempted(s.fleet, id, machine, a, k, s.media.images[k]);
    case OpSave(id, _, hostname, image, _) =>
      var before := s.fleet.machines[id];
      var machine := before.(hostname := Strip(hostname),
                             target := if image.Some? && image.value in s.media.images then image else before.target);
      assert Step(s, op).fleet == Attempted(s.fleet, id, machine, a, k, s.media.images[k]);
    case _ =>
  }

  // Main theorem: an attempt created from a ready template boots a tree that stays on disk, unchanged, for as long as
  // the attempt is open and its image is not moved to another ISO, whatever else runs.
  lemma PinnedMediaSurvives(s: State, op: Op, a: nat, k: nat, ops: seq<Op>)
    requires MediaOk(s.media) && Creates(s, op, a, k)
    requires k in s.media.images && s.media.images[k].columns.status == Ready
      && s.media.images[k].columns.generation.Generation?
    requires forall o | o in ops :: !Relinks(o, k, s.media.images[k].iso)
    ensures var g := s.media.images[k].columns.generation; var after := Run(Step(s, op), ops);
      && Step(s, op).fleet.attempts[a].payload.generation == g && (g.iso, g.revision) in s.media.disk
      && (StillOpen(after.fleet, a, s.fleet.nextInstance) ==>
            (g.iso, g.revision) in after.media.disk
              && after.media.disk[(g.iso, g.revision)] == s.media.disk[(g.iso, g.revision)])
  {
    hide Step, Attempted, Relinks, TemplateOk, ReadyIsCurrent, Run;
    CreatedIs(s, op, a, k);
    var id, machine :| Step(s, op).fleet == Attempted(s.fleet, id, machine, a, k, s.media.images[k]);
    AttemptPins(s, id, machine, a, k);
    var g := s.media.images[k].columns.generation;
    PinnedForever(Step(s, op), ops, a, s.fleet.nextInstance, k, g.iso, g.revision, s.media.disk[(g.iso, g.revision)]);
  }

  // ---- templates that are not ready

  // The revision an attempt pins is the revision of the tree it boots exactly when its template is ready.
  lemma PinsWhatItBoots(s: State, k: nat)
    requires MediaOk(s.media) && k in s.media.images && s.media.images[k].columns.generation.Generation?
    ensures var payload := PayloadOf(s.media.images[k]);
      payload.generation.revision == payload.revision <==> s.media.images[k].columns.status == Ready
  {
    var t := s.media.images[k];
    assert TemplateOk(s.media, t);
    assert ReadyIsCurrent(t.iso, s.media.isos[t.iso], s.media.disk);
  }

  // An idle template still deploys its older tree, and the next collection drops that tree under the open install
  // unless some other attempt pins it.
  lemma IdlePinIsLost(s: State, machine: nat, a: nat, k: nat, served: bool)
    requires MediaOk(s.media) && CanInstall(s, machine, a, k, served)
    requires var c := s.media.images[k].columns; c.status == Idle && c.generation.Generation?
    ensures var g := s.media.images[k].columns.generation; var after := Deploy(s, machine, a, k, served);
      && after.fleet.attempts[a].open && after.fleet.attempts[a].payload.generation == g
      && ((g.iso, g.revision) in Collect(after, g.iso).media.disk <==>
            (g.iso, g.revision) in s.media.disk
            && exists b | b in s.fleet.attempts && s.fleet.attempts[b].machine != machine ::
              PinsRevision(s, b, g.iso, g.revision))
  {
    var t := s.media.images[k];
    assert TemplateOk(s.media, t);
    assert ReadyIsCurrent(t.iso, s.media.isos[t.iso], s.media.disk);
    var g, after := t.columns.generation, Deploy(s, machine, a, k, served);
    if b :| b in s.fleet.attempts && s.fleet.attempts[b].machine != machine && PinsRevision(s, b, g.iso, g.revision) {
      assert PinsRevision(after, b, g.iso, g.revision);
    }
    if b :| b in after.fleet.attempts && PinsRevision(after, b, g.iso, g.revision) {
      assert b != a && b in s.fleet.attempts && s.fleet.attempts[b].machine != machine
        && PinsRevision(s, b, g.iso, g.revision);
    }
  }
}
