// The lab database as an object its operations update in place; every method does what the step of the same name says.

module Lab {
  import opened Text
  import opened LabState
  import opened LabMedia
  import opened LabLife

  // Collection looks only at rows.
  lemma KeepsSame(s: State, t: State, id: nat, revision: nat)
    requires s == t.(media := t.media.(disk := s.media.disk))
    ensures Keeps(s, id, revision) <==> Keeps(t, id, revision)
  {
    if a :| a in s.fleet.attempts && PinsRevision(s, a, id, revision) { assert PinsRevision(t, a, id, revision); }
    if a :| a in t.fleet.attempts && PinsRevision(t, a, id, revision) { assert PinsRevision(s, a, id, revision); }
  }

  lemma NextIn(m: Media, id: nat)
    requires Next(m, id)
    ensures id in m.isos && m.isos[id].columns.status == Queued
  {
  }

  lemma DeleteIsoOrNot(m: Media, id: nat)
    ensures MediaOk(m) ==> MediaOk(DeleteIso(m, id))
  {
    hide MediaOk, DeleteIso;
    if MediaOk(m) { DeleteIsoOk(m, id); }
  }

  // Row by row the same as all at once.
  lemma RequeuedAll(m: Media, isos: map<nat, Iso>, images: map<nat, Template>)
    requires (forall k | k in m.images :: m.images[k].iso in m.isos) && isos.Keys == m.isos.Keys
      && images.Keys == m.images.Keys
    requires forall i | i in isos :: isos[i] == RequeuedIso(m.isos[i])
    requires forall k | k in images :: images[k] == RequeuedTemplate(m.images[k], m.isos[m.images[k].iso], m.disk)
    ensures Media(isos, images, m.disk, NoJob) == Requeue(m)
  {
    hide RequeuedIso, RequeuedTemplate;
    assert isos == Requeue(m).isos && images == Requeue(m).images;
  }

  lemma ExpiredAll(f: Fleet, machines: map<nat, Machine>, attempts: map<nat, Attempt>, now: int, minutes: int)
    requires minutes > 0 && machines.Keys == f.machines.Keys && attempts.Keys == f.attempts.Keys
    requires forall i | i in machines :: machines[i] == ExpiredMachine(f.machines[i], now, minutes)
    requires forall a | a in attempts :: attempts[a] == ExpiredAttempt(f.attempts[a], f.machines, now, minutes)
    ensures f.(machines := machines, attempts := attempts) == Expire(f, now, minutes)
  {
    hide ExpiredMachine, ExpiredAttempt;
    assert machines == Expire(f, now, minutes).machines && attempts == Expire(f, now, minutes).attempts;
  }

  class Database {
    var isos: map<nat, Iso>
    var images: map<nat, Template>
    var disk: map<TreeKey, Tree>
    var job: Job
    var machines: map<nat, Machine>
    var attempts: map<nat, Attempt>
    var nextInstance: nat

    function MediaNow(): Media
      reads this
    {
      Media(isos, images, disk, job)
    }

    function FleetNow(): Fleet
      reads this
    {
      Fleet(machines, attempts, nextInstance)
    }

    function Now(): State
      reads this
    {
      State(MediaNow(), FleetNow())
    }

    constructor ()
      ensures Now() == START
    {
      isos, images, disk, job := map[], map[], map[], NoJob;
      machines, attempts, nextInstance := map[], map[], 0;
    }

    // ---- media

    method SyncTemplates(id: nat)
      requires id in isos
      modifies this`images
      ensures images == SyncedAll(old(images), id, isos[id], disk)
    {
      hide Synced;
      var todo := images.Keys;
      while todo != {}
        invariant todo <= images.Keys == old(images).Keys
        invariant forall k | k in images ::
          images[k] == if k in todo then old(images)[k] else SyncedIf(old(images)[k], id, isos[id], disk)
        decreases |todo|
      {
        var k :| k in todo;
        if images[k].iso == id {
          images := images[k := Synced(images[k], id, isos[id], disk)];
        }
        todo := todo - {k};
      }
    }

    // Store a row, then its templates.
    method Put(id: nat, iso: Iso)
      modifies this`isos, this`images
      ensures MediaNow() == Stored(old(MediaNow()), id, iso)
    {
      isos := isos[id := iso];
      SyncTemplates(id);
    }

    method ScheduleExtract(id: nat, onDisk: bool) returns (ok: bool)
      requires id in isos
      modifies this`isos, this`images
      ensures ok == onDisk && MediaNow() == Schedule(old(MediaNow()), id, onDisk)
    {
      if !onDisk { return false; }
      var c := isos[id].columns;
      Put(id, isos[id].(columns := c.(revision := c.revision + 1, status := Queued, error := "")));
      return true;
    }

    method RequeueOne(i: nat)
      requires i in isos
      modifies this`isos, this`images
      ensures isos == old(isos)[i := RequeuedIso(old(isos)[i])] && images.Keys == old(images).Keys
      ensures forall k | k in images ::
        images[k]
          == if old(images)[k].iso == i then RequeuedTemplate(old(images)[k], old(isos)[i], disk) else old(images)[k]
    {
      if isos[i].columns.status == Extracting { Put(i, WithStatus(isos[i], Queued)); }
    }

    // The worker starts: every ISO left extracting goes back to the queue.
    method RequeueStaleExtracting()
      requires forall k | k in images :: images[k].iso in isos
      modifies this`isos, this`images, this`job
      ensures MediaNow() == Requeue(old(MediaNow()))
    {
      hide Synced, RequeuedIso, RequeuedTemplate;
      job := NoJob;
      var todo := isos.Keys;
      while todo != {}
        invariant todo <= isos.Keys == old(isos).Keys && images.Keys == old(images).Keys && job == NoJob
        invariant forall i | i in isos :: isos[i] == if i in todo then old(isos)[i] else RequeuedIso(old(isos)[i])
        invariant forall k | k in images ::
          images[k]
            == if old(images)[k].iso in todo then old(images)[k]
              else RequeuedTemplate(old(images)[k], old(isos)[old(images)[k].iso], disk)
        decreases |todo|
      {
        var i :| i in todo;
        RequeueOne(i);
        todo := todo - {i};
      }
      RequeuedAll(old(MediaNow()), isos, images);
    }

    // The smallest queued id.
    method FindQueued() returns (found: Option<nat>)
      ensures match found
        case Some(id) => Next(MediaNow(), id)
        case None => forall i | i in isos :: isos[i].columns.status != Queued
    {
      found := None;
      var todo := isos.Keys;
      while todo != {}
        invariant todo <= isos.Keys
        invariant found.Some? ==> found.value in isos && isos[found.value].columns.status == Queued
        invariant forall i | i in isos && i !in todo && isos[i].columns.status == Queued ::
          found.Some? && found.value <= i
        decreases |todo|
      {
        var i :| i in todo;
        if isos[i].columns.status == Queued && (found.None? || i < found.value) { found := Some(i); }
        todo := todo - {i};
      }
    }

    method MarkExtracting(id: nat)
      modifies this`images
      ensures images == map k | k in old(images) :: ClaimedTemplate(old(images)[k], id)
    {
      var todo := images.Keys;
      while todo != {}
        invariant todo <= images.Keys == old(images).Keys
        invariant forall k | k in images ::
          images[k] == if k in todo then old(images)[k] else ClaimedTemplate(old(images)[k], id)
        decreases |todo|
      {
        var k :| k in todo;
        images := images[k := ClaimedTemplate(images[k], id)];
        todo := todo - {k};
      }
    }

    // The compare-and-set on the row, then the templates' status.
    method ClaimNextJob() returns (claimed: bool)
      requires job == NoJob
      modifies this`isos, this`images, this`job
      ensures claimed ==> job.Job? && Next(old(MediaNow()), job.iso) && MediaNow() == Claim(old(MediaNow()), job.iso)
      ensures !claimed ==> MediaNow() == old(MediaNow()) && forall i | i in isos :: isos[i].columns.status != Queued
    {
      hide Next, ClaimedTemplate;
      var found := FindQueued();
      if found.None? { return false; }
      var id := found.value;
      assert id in isos by { NextIn(MediaNow(), id); }
      isos := isos[id := WithStatus(isos[id], Extracting)];
      MarkExtracting(id);
      job := Job(id, isos[id].columns.revision, Claimed);
      return true;
    }

    method BeginJob(onDisk: bool)
      modifies this`isos, this`images, this`job
      ensures MediaNow() == Begin(old(MediaNow()), onDisk)
    {
      if !job.Job? || job.phase != Claimed { return; }
      var id := job.iso;
      if id !in isos || isos[id].columns.revision != job.revision {
        job := NoJob;
      } else if !onDisk {
        var c := isos[id].columns;
        Put(id, isos[id].(columns := c.(status := Idle, error := "")));
        job := NoJob;
      } else {
        job := job.(phase := Opened);
      }
    }

    method RecordFailure(id: nat, revision: nat, message: string)
      modifies this`isos, this`images
      ensures MediaNow() == MarkFailed(old(MediaNow()), id, revision, message)
    {
      if id in isos && isos[id].columns.revision == revision {
        var c := isos[id].columns;
        Put(id, isos[id].(columns := c.(status := Failed, error := message)));
      }
    }

    method UnpackJob(outcome: Outcome)
      modifies this`isos, this`images, this`disk, this`job
      ensures MediaNow() == Unpack(old(MediaNow()), outcome)
    {
      if !job.Job? || job.phase != Opened { return; }
      match outcome
      case Fails(message) =>
        RecordFailure(job.iso, job.revision, message);
        job := NoJob;
      case BootsItself => job := job.(phase := Unpacked(outcome));
      case Publishes(_, tree) =>
        disk := disk[(job.iso, job.revision) := tree];
        job := job.(phase := Unpacked(outcome));
    }

    // The revisions open attempts pin on one ISO.
    method OpenRevisions(id: nat) returns (revisions: set<nat>)
      ensures forall r :: r in revisions <==> exists a | a in attempts :: PinsRevision(Now(), a, id, r)
    {
      revisions := {};
      var todo := attempts.Keys;
      while todo != {}
        invariant todo <= attempts.Keys
        invariant forall r :: r in revisions <==> exists a | a in attempts && a !in todo ::
          PinsRevision(Now(), a, id, r)
        decreases |todo|
      {
        var a :| a in todo;
        var at := attempts[a];
        ghost var before := revisions;
        if at.open && at.image.Some? && at.image.value in images && images[at.image.value].iso == id {
          revisions := revisions + {at.payload.revision};
          assert PinsRevision(Now(), a, id, at.payload.revision);
        }
        assert forall r :: r in revisions <==> r in before || PinsRevision(Now(), a, id, r);
        todo := todo - {a};
      }
    }

    // One directory after another: a tree nobody keeps is removed.
    method GcExtractGenerations(id: nat)
      requires id in isos
      modifies this`disk
      ensures Now() == Collect(old(Now()), id)
    {
      var keep := OpenRevisions(id);
      keep := keep + {isos[id].columns.revision};
      assert forall r :: r in keep <==> Keeps(Now(), id, r);
      var todo := disk.Keys;
      while todo != {}
        invariant todo <= disk.Keys
        invariant forall p | p in disk ::
          p in old(disk) && disk[p] == old(disk)[p] && (p.0 != id || p.1 in keep || p in todo)
        invariant forall p | p in old(disk) && (p.0 != id || p.1 in keep) :: p in disk
        decreases |todo|
      {
        var p :| p in todo;
        if p.0 == id && p.1 !in keep { disk := disk - {p}; }
        todo := todo - {p};
      }
      assert forall r :: Keeps(old(Now()), id, r) <==> r in keep;
    }

    method FinishJob(found: seq<Source>)
      modifies this`isos, this`images, this`disk, this`job
      ensures Now() == Finish(old(Now()), found)
    {
      if !job.Job? || !job.phase.Unpacked? || job.phase.outcome.Fails? { return; }
      var id, revision, outcome := job.iso, job.revision, job.phase.outcome;
      job := NoJob;
      if id !in isos || isos[id].columns.revision != revision {
        if outcome.Publishes? { disk := disk - {(id, revision)}; }
        return;
      }
      Put(id, Finished(isos[id], id, outcome, found));
      GcExtractGenerations(id);
    }

    // ---- attempts

    method CloseOpenAttempts(machine: nat)
      modifies this`attempts
      ensures attempts == Closed(old(attempts), machine)
    {
      var todo := attempts.Keys;
      while todo != {}
        invariant todo <= attempts.Keys == old(attempts).Keys
        invariant forall a | a in attempts ::
          attempts[a] == if a in todo then old(attempts)[a] else ClosedIf(old(attempts)[a], machine)
        decreases |todo|
      {
        var a :| a in todo;
        if attempts[a].machine == machine && attempts[a].open {
          attempts := attempts[a := attempts[a].(open := false)];
        }
        todo := todo - {a};
      }
    }

    // The open attempt with the machine's current instance id.
    method GetOpenAttempt(id: nat) returns (r: Option<nat>)
      ensures IsOpenAttempt(FleetNow(), id, r)
    {
      r := None;
      if id !in machines { return; }
      var todo := attempts.Keys;
      while todo != {}
        invariant todo <= attempts.Keys
        invariant forall a | a in attempts && a !in todo :: !CurrentAttempt(FleetNow(), id, a)
        decreases |todo|
      {
        var a :| a in todo;
        var at := attempts[a];
        if at.machine == id && at.instance == machines[id].instance && at.open { return Some(a); }
        todo := todo - {a};
      }
    }

    method DecideScript(id: nat) returns (kind: ScriptKind)
      requires id in machines
      ensures exists r :: IsOpenAttempt(FleetNow(), id, r) && kind == Decide(Now(), id, r)
    {
      var r := GetOpenAttempt(id);
      kind := Decide(Now(), id, r);
    }

    // The machine row with a fresh instance id, and its new attempt.
    method CreateInstallAttempt(id: nat, machine: Machine, a: nat, k: nat)
      requires k in images
      modifies this`machines, this`attempts, this`nextInstance
      ensures FleetNow() == Attempted(old(FleetNow()), id, machine, a, k, images[k])
    {
      machines := machines[id := machine.(instance := nextInstance)];
      CloseOpenAttempts(id);
      attempts := attempts[a := Attempt(id, nextInstance, Some(k), PayloadOf(images[k]), images[k].sourceId, true)];
      nextInstance := nextInstance + 1;
    }

    method DeployMachine(id: nat, a: nat, k: nat, served: bool) returns (ok: bool)
      requires id in machines && a !in attempts && k in images
      modifies this`machines, this`attempts, this`nextInstance
      ensures ok <==> Deployable(images[k], served)
      ensures Now() == Deploy(old(Now()), id, a, k, served)
    {
      if !Deployable(images[k], served) { return false; }
      CreateInstallAttempt(id, machines[id].(target := Some(k), state := Deploying, clock := None), a, k);
      return true;
    }

    method StageMachine(id: nat, a: nat, image: Option<nat>, served: bool) returns (ok: bool)
      requires id in machines && a !in attempts
      modifies this`machines, this`attempts, this`nextInstance
      ensures Now() == Stage(old(Now()), id, a, image, served)
      ensures ok <==> var k := if image.Some? then image else old(machines)[id].target;
        k.Some? && k.value in images && Deployable(images[k.value], served)
    {
      var choice := if image.Some? then image else machines[id].target;
      if choice.None? || choice.value !in images || !Deployable(images[choice.value], served) { return false; }
      CreateInstallAttempt(id, machines[id].(target := choice, state := Staged, clock := None), a, choice.value);
      return true;
    }

    // ---- leaving an install

    method LeaveInstall(id: nat, state: MachineState)
      requires id in machines
      modifies this`machines, this`attempts
      ensures FleetNow() == Leave(old(FleetNow()), id, state)
    {
      machines := machines[id := machines[id].(state := state, clock := None)];
      CloseOpenAttempts(id);
    }

    method AbortDeploy(id: nat) returns (ok: bool)
      requires id in machines
      modifies this`machines, this`attempts
      ensures ok <==> Installs(old(machines)[id].state)
      ensures FleetNow() == Abort(old(FleetNow()), id)
    {
      var state := machines[id].state;
      if state == Staged {
        LeaveInstall(id, Deployed);
      } else if state == Deploying || state == Imaging {
        LeaveInstall(id, TimeoutError);
      } else {
        return false;
      }
      return true;
    }

    method DisableMachine(id: nat, disabled: bool)
      requires id in machines
      modifies this`machines, this`attempts
      ensures FleetNow() == if disabled then Disable(old(FleetNow()), id) else Enable(old(FleetNow()), id)
    {
      machines := machines[id := machines[id].(state := if disabled then Disabled else ReadyState, clock := None)];
      if disabled { CloseOpenAttempts(id); }
    }

    // Every imaging machine past the cutoff times out.
    method ExpireStaleImaging(now: int, minutes: int)
      modifies this`machines, this`attempts
      ensures FleetNow() == Expire(old(FleetNow()), now, minutes)
    {
      hide ExpiredMachine, Stale;
      if minutes <= 0 { return; }
      var todo := machines.Keys;
      while todo != {}
        invariant todo <= machines.Keys == old(machines).Keys && attempts.Keys == old(attempts).Keys
        invariant forall i | i in machines ::
          machines[i] == if i in todo then old(machines)[i] else ExpiredMachine(old(machines)[i], now, minutes)
        invariant forall a | a in attempts ::
          attempts[a] == if old(attempts)[a].machine in todo then old(attempts)[a]
                         else ExpiredAttempt(old(attempts)[a], old(machines), now, minutes)
        decreases |todo|
      {
        var i :| i in todo;
        ExpireOne(i, now, minutes);
        todo := todo - {i};
      }
      ExpiredAll(old(FleetNow()), machines, attempts, now, minutes);
    }

    method ExpireOne(i: nat, now: int, minutes: int)
      requires i in machines
      modifies this`machines, this`attempts
      ensures machines == old(machines)[i := ExpiredMachine(old(machines)[i], now, minutes)]
      ensures attempts.Keys == old(attempts).Keys
      ensures forall a | a in attempts ::
        attempts[a]
          == if old(attempts)[a].machine == i then ExpiredAttempt(old(attempts)[a], old(machines), now, minutes)
                       else old(attempts)[a]
    {
      if machines[i].state == Imaging {
        match machines[i].clock
        case None => machines := machines[i := machines[i].(clock := Some(now))];
        case Some(started) =>
          if started <= Cutoff(now, minutes) { LeaveInstall(i, TimeoutError); }
      }
    }

    method OpenImages(machine: nat) returns (found: set<nat>)
      ensures forall k :: k in found <==>
        exists a | a in attempts :: attempts[a].machine == machine && attempts[a].open && attempts[a].image == Some(k)
    {
      found := {};
      var todo := attempts.Keys;
      while todo != {}
        invariant todo <= attempts.Keys
        invariant forall k :: k in found <==> exists a | a in attempts && a !in todo ::
          attempts[a].machine == machine && attempts[a].open && attempts[a].image == Some(k)
        decreases |todo|
      {
        var a :| a in todo;
        if attempts[a].machine == machine && attempts[a].open && attempts[a].image.Some? {
          found := found + {attempts[a].image.value};
        }
        todo := todo - {a};
      }
    }

    // Collect the ISOs of a set of images.
    method GcImages(pinned: set<nat>)
      requires forall k | k in images :: images[k].iso in isos
      modifies this`disk
      ensures disk == map p | p in old(disk)
        && ((forall k | k in pinned && k in images :: images[k].iso != p.0) || Keeps(old(Now()), p.0, p.1))
                        :: old(disk)[p]
    {
      hide Keeps;
      var todo := pinned;
      while todo != {}
        invariant todo <= pinned
        invariant forall p | p in disk :: p in old(disk) && disk[p] == old(disk)[p]
        invariant forall p | p in old(disk) ::
          p in disk <==> Keeps(old(Now()), p.0, p.1) || forall k | k in pinned && k !in todo && k in images ::
            images[k].iso != p.0
        decreases |todo|
      {
        var k :| k in todo;
        if k in images {
          ghost var before := Now();
          forall r ensures Keeps(before, images[k].iso, r) <==> Keeps(old(Now()), images[k].iso, r) {
            KeepsSame(before, old(Now()), images[k].iso, r);
          }
          GcExtractGenerations(images[k].iso);
        }
        todo := todo - {k};
      }
    }

    // The install is over: close it, then collect the ISOs of the images it pinned.
    method CompleteDeploy(id: nat)
      requires id in machines && forall k | k in images :: images[k].iso in isos
      modifies this`machines, this`attempts, this`disk
      ensures Now() == MarkDeployed(old(Now()), id)
    {
      hide Keeps, Closed;
      var pinned := OpenImages(id);
      LeaveInstall(id, Deployed);
      GcImages(pinned);
      forall i ensures PinnedIso(old(Now()), id, i) <==> exists k | k in pinned && k in images :: images[k].iso == i {
        if PinnedIso(old(Now()), id, i) {
          var a :| a in old(attempts) && old(attempts)[a].machine == id && old(attempts)[a].open
            && old(attempts)[a].image.Some?
                   && old(attempts)[a].image.value in images && images[old(attempts)[a].image.value].iso == i;
          assert old(attempts)[a].image.value in pinned;
        }
      }
      assert disk == MarkDeployed(old(Now()), id).media.disk;
    }

    // The success callback: an expired install is refused and nothing is kept of the attempt to report it.
    method SuccessEvent(id: nat, now: int, minutes: int) returns (accepted: bool)
      requires forall k | k in images :: images[k].iso in isos
      modifies this`machines, this`attempts, this`disk
      ensures accepted <==> SuccessAccepted(old(FleetNow()), id, now, minutes)
      ensures Now() == Success(old(Now()), id, now, minutes)
    {
      if id !in machines { return false; }
      var rowsBefore, attemptsBefore := machines, attempts;
      ExpireStaleImaging(now, minutes);
      if !Installs(machines[id].state) {
        machines, attempts := rowsBefore, attemptsBefore;
        return false;
      }
      CompleteDeploy(id);
      return true;
    }

    method RemoveMachine(id: nat)
      requires id in machines
      modifies this`machines, this`attempts
      ensures FleetNow() == DeleteMachine(old(FleetNow()), id)
    {
      var todo := attempts.Keys;
      while todo != {}
        invariant todo <= attempts.Keys && machines == old(machines)
        invariant forall a | a in attempts :: a in old(attempts) && attempts[a] == old(attempts)[a]
        invariant forall a | a in old(attempts) :: a in attempts <==> a in todo || old(attempts)[a].machine != id
        decreases |todo|
      {
        var a :| a in todo;
        if attempts[a].machine == id { attempts := attempts - {a}; }
        todo := todo - {a};
      }
      machines := machines - {id};
      assert attempts == DeleteMachine(old(FleetNow()), id).attempts;
    }

    // ---- callbacks

    method ImagingEvent(id: nat, now: int) returns (accepted: bool)
      modifies this`machines
      ensures accepted <==> id in old(machines) && Installs(old(machines)[id].state)
      ensures FleetNow() == MarkImaging(old(FleetNow()), id, now)
    {
      if id !in machines || !Installs(machines[id].state) { return false; }
      if machines[id].state == Imaging {
        machines := machines[id := machines[id].(clock := Some(now))];
      } else {
        machines := machines[id := machines[id].(state := Imaging, clock := Some(now))];
      }
      return true;
    }

    method InstallLogEvent(id: nat) returns (accepted: bool)
      modifies this`machines, this`attempts
      ensures accepted <==> id in old(machines) && Installs(old(machines)[id].state)
      ensures FleetNow() == InstallFailed(old(FleetNow()), id)
    {
      if id !in machines || !Installs(machines[id].state) { return false; }
      LeaveInstall(id, FailedState);
      return true;
    }

    // A seed is served only to the machine's current instance; while imaging the fetch is a heartbeat.
    method GetMachineForGuestInit(id: nat, instance: Option<nat>, now: int) returns (served: bool)
      modifies this`machines
      ensures served <==> Serves(old(FleetNow()), id, instance)
      ensures FleetNow() == GuestInit(old(FleetNow()), id, instance, now)
    {
      if id !in machines || !Installs(machines[id].state) { return false; }
      if instance.Some? && machines[id].instance != instance.value { return false; }
      if machines[id].state == Imaging {
        machines := machines[id := machines[id].(clock := Some(now))];
      }
      return true;
    }

    // ---- deleting rows

    // Some template is linked to the ISO.
    method IsUsed(id: nat) returns (r: bool)
      ensures r <==> exists k | k in images :: images[k].iso == id
    {
      var todo := images.Keys;
      while todo != {}
        invariant todo <= images.Keys && forall k | k in images && k !in todo :: images[k].iso != id
        decreases |todo|
      {
        var k :| k in todo;
        if images[k].iso == id { return true; }
        todo := todo - {k};
      }
      return false;
    }

    // Every other ISO and every tree of theirs stay, and every template still has its ISO.
    method RemoveIso(id: nat) returns (ok: bool)
      requires id in isos
      modifies this`isos, this`disk
      ensures ok <==> !InProgress(old(isos)[id].columns.status) && forall k | k in images :: images[k].iso != id
      ensures !ok ==> MediaNow() == old(MediaNow())
      ensures ok ==> isos.Keys == old(isos).Keys - {id} && forall i | i in isos :: isos[i] == old(isos)[i]
      ensures ok ==> forall p | p in old(disk) :: if p.0 == id then p !in disk else p in disk && disk[p] == old(disk)[p]
      ensures MediaOk(old(MediaNow())) ==> MediaOk(MediaNow())
      ensures MediaNow() == DeleteIso(old(MediaNow()), id)
    {
      hide MediaOk;
      DeleteIsoOrNot(MediaNow(), id);
      if InProgress(isos[id].columns.status) { return false; }
      var used := IsUsed(id);
      if used { return false; }
      isos := isos - {id};
      disk := map p | p in disk && p.0 != id :: disk[p];
      return true;
    }

    method UnassignImage(k: nat)
      modifies this`machines
      ensures machines == map i | i in old(machines) :: Unassigned(old(machines)[i], k)
    {
      var todo := machines.Keys;
      while todo != {}
        invariant todo <= machines.Keys == old(machines).Keys
        invariant forall i | i in machines ::
          machines[i] == if i in todo then old(machines)[i] else Unassigned(old(machines)[i], k)
        decreases |todo|
      {
        var i :| i in todo;
        if machines[i].target == Some(k) { machines := machines[i := machines[i].(target := None)]; }
        todo := todo - {i};
      }
    }

    method OrphanAttempts(k: nat)
      modifies this`attempts
      ensures attempts == map a | a in old(attempts) :: Orphaned(old(attempts)[a], k)
    {
      var todo := attempts.Keys;
      while todo != {}
        invariant todo <= attempts.Keys == old(attempts).Keys
        invariant forall a | a in attempts ::
          attempts[a] == if a in todo then old(attempts)[a] else Orphaned(old(attempts)[a], k)
        decreases |todo|
      {
        var a :| a in todo;
        if attempts[a].image == Some(k) { attempts := attempts[a := attempts[a].(image := None)]; }
        todo := todo - {a};
      }
    }

    method RemoveImage(k: nat) returns (ok: bool)
      requires k in images
      modifies this`images, this`machines, this`attempts
      ensures ok <==> !ImageBusy(old(FleetNow()), k)
      ensures Now() == DeleteImage(old(Now()), k)
    {
      hide ImageBusy, Unassigned, Orphaned;
      if ImageBusy(FleetNow(), k) { return false; }
      UnassignImage(k);
      OrphanAttempts(k);
      images := images - {k};
      return true;
    }
  }
}
