// Machine lifecycles over whole runs: one open attempt, the current instance, the imaging clock and the boot decision.

module LabLife {
  import opened Text
  import opened LabState

  // ---- the invariant

  ghost predicate Clocks(f: Fleet) {
    forall i | i in f.machines :: f.machines[i].clock.Some? <==> f.machines[i].state == Imaging
  }

  ghost predicate InstancesUsed(f: Fleet) {
    && (forall i | i in f.machines :: f.machines[i].instance < f.nextInstance)
    && (forall a | a in f.attempts :: f.attempts[a].instance < f.nextInstance)
  }

  ghost predicate OneOpen(f: Fleet) {
    forall a, b | a in f.attempts && b in f.attempts && f.attempts[a].open && f.attempts[b].open
                  && f.attempts[a].machine == f.attempts[b].machine :: a == b
  }

  // Open attempts name an existing image.
  ghost predicate Imaged(f: Fleet, images: set<nat>) {
    forall a | a in f.attempts && f.attempts[a].open :: f.attempts[a].image.Some? && f.attempts[a].image.value in images
  }

  ghost predicate HasCurrent(f: Fleet, i: nat) {
    exists a :: CurrentAttempt(f, i, a)
  }

  // A machine being installed has an attempt with its current instance, and an image.
  ghost predicate Installing(f: Fleet, images: set<nat>) {
    forall i | i in f.machines && Installs(f.machines[i].state) ::
      HasCurrent(f, i) && f.machines[i].target.Some? && f.machines[i].target.value in images
  }

  ghost predicate FleetOk(f: Fleet, images: set<nat>) {
    Clocks(f) && InstancesUsed(f) && OneOpen(f) && Imaged(f, images) && Installing(f, images)
  }

  ghost predicate LifeOk(s: State) {
    FleetOk(s.fleet, s.media.images.Keys)
  }

  // ---- building blocks

  lemma MoreImages(f: Fleet, images: set<nat>, more: set<nat>)
    requires FleetOk(f, images) && images <= more
    ensures FleetOk(f, more)
  {
    hide HasCurrent, Installs;
  }

  // An attempt of another machine stays current.
  lemma StillCurrent(f: Fleet, g: Fleet, i: nat)
    requires HasCurrent(f, i) && i in g.machines && g.machines[i].instance == f.machines[i].instance
    requires forall a | a in f.attempts && f.attempts[a].machine == i && f.attempts[a].open ::
      a in g.attempts && g.attempts[a].machine == i && g.attempts[a].open
        && g.attempts[a].instance == f.attempts[a].instance
    ensures HasCurrent(g, i)
  {
    var a :| CurrentAttempt(f, i, a);
    assert CurrentAttempt(g, i, a);
  }

  lemma AttemptedParts(f: Fleet, images: set<nat>, id: nat, machine: Machine, a: nat, k: nat, t: Template)
    requires FleetOk(f, images) && a !in f.attempts && k in images
      && (machine.clock.Some? <==> machine.state == Imaging)
    ensures var g := Attempted(f, id, machine, a, k, t);
      Clocks(g) && InstancesUsed(g) && OneOpen(g) && Imaged(g, images)
  {
    hide HasCurrent, Installs, Installing, PayloadOf;
  }

  lemma AttemptedOk(f: Fleet, images: set<nat>, id: nat, machine: Machine, a: nat, k: nat, t: Template)
    requires FleetOk(f, images) && a !in f.attempts && k in images
    requires machine.target == Some(k) && Installs(machine.state) && (machine.clock.Some? <==> machine.state == Imaging)
    ensures FleetOk(Attempted(f, id, machine, a, k, t), images)
  {
    hide HasCurrent, Installs, PayloadOf, Clocks, InstancesUsed, OneOpen, Imaged;
    AttemptedParts(f, images, id, machine, a, k, t);
    var g := Attempted(f, id, machine, a, k, t);
    forall i | i in g.machines && Installs(g.machines[i].state)
      ensures HasCurrent(g, i) && g.machines[i].target.Some? && g.machines[i].target.value in images
    {
      if i == id { CurrentIs(g, id, a); } else { StillCurrent(f, g, i); }
    }
  }

  lemma CurrentIs(f: Fleet, i: nat, a: nat)
    requires CurrentAttempt(f, i, a)
    ensures HasCurrent(f, i)
  {
  }

  lemma LeaveOk(f: Fleet, images: set<nat>, id: nat, state: MachineState)
    requires FleetOk(f, images) && id in f.machines && !Installs(state)
    ensures FleetOk(Leave(f, id, state), images)
  {
    hide HasCurrent;
    var g := Leave(f, id, state);
    forall i | i in g.machines && Installs(g.machines[i].state) ensures HasCurrent(g, i) { StillCurrent(f, g, i); }
  }

  // Rewriting one machine without leaving or entering an install.
  lemma EditedOk(f: Fleet, images: set<nat>, id: nat, machine: Machine)
    requires FleetOk(f, images) && id in f.machines
    requires machine.instance == f.machines[id].instance && (machine.clock.Some? <==> machine.state == Imaging)
    requires Installs(machine.state) ==>
      Installs(f.machines[id].state) && machine.target.Some? && machine.target.value in images
    ensures FleetOk(f.(machines := f.machines[id := machine]), images)
  {
    hide HasCurrent;
    var g := f.(machines := f.machines[id := machine]);
    forall i | i in g.machines && Installs(g.machines[i].state)
      ensures HasCurrent(g, i) && g.machines[i].target.Some? && g.machines[i].target.value in images
    {
      assert Installs(f.machines[i].state);
      StillCurrent(f, g, i);
    }
  }

  lemma ExpireOk(f: Fleet, images: set<nat>, now: int, minutes: int)
    requires FleetOk(f, images)
    ensures FleetOk(Expire(f, now, minutes), images)
  {
    hide HasCurrent, Clocks, InstancesUsed, OneOpen, Imaged;
    ExpireParts(f, images, now, minutes);
    var g := Expire(f, now, minutes);
    if minutes > 0 {
      forall i | i in g.machines && Installs(g.machines[i].state) ensures HasCurrent(g, i) { StillCurrent(f, g, i); }
    }
  }

  lemma ExpireParts(f: Fleet, images: set<nat>, now: int, minutes: int)
    requires FleetOk(f, images)
    ensures var g := Expire(f, now, minutes); Clocks(g) && InstancesUsed(g) && OneOpen(g) && Imaged(g, images)
  {
    hide HasCurrent, Installing;
  }

  lemma RegisterOk(f: Fleet, images: set<nat>, id: nat)
    requires FleetOk(f, images)
    ensures FleetOk(Register(f, id), images)
  {
    hide HasCurrent;
    var g := Register(f, id);
    forall i | i in g.machines && Installs(g.machines[i].state) ensures HasCurrent(g, i) { StillCurrent(f, g, i); }
  }

  lemma DeleteMachineOk(f: Fleet, images: set<nat>, id: nat)
    requires FleetOk(f, images)
    ensures FleetOk(DeleteMachine(f, id), images)
  {
    hide HasCurrent;
    var g := DeleteMachine(f, id);
    forall i | i in g.machines && Installs(g.machines[i].state) ensures HasCurrent(g, i) { StillCurrent(f, g, i); }
  }

  lemma DeleteImageOk(s: State, k: nat)
    requires LifeOk(s)
    ensures LifeOk(DeleteImage(s, k))
  {
    hide HasCurrent;
    if k in s.media.images && !ImageBusy(s.fleet, k) {
      var f, g := s.fleet, DeleteImage(s, k).fleet;
      forall i | i in g.machines && Installs(g.machines[i].state)
        ensures HasCurrent(g, i) && g.machines[i].target.Some?
          && g.machines[i].target.value in s.media.images.Keys - {k}
      {
        assert Installs(f.machines[i].state);
        StillCurrent(f, g, i);
      }
      forall a | a in g.attempts && g.attempts[a].open
        ensures g.attempts[a].image.Some? && g.attempts[a].image.value in s.media.images.Keys - {k}
      {
        assert f.attempts[a].open;
      }
    }
  }

  // ---- one step

  lemma FleetStepOk(f: Fleet, images: set<nat>, op: Op)
    requires FleetOk(f, images)
    ensures FleetOk(FleetStep(f, op), images)
  {
    hide Register, Expire, Leave, DeleteMachine, FleetOk;
    assert Clocks(f) && Installing(f, images) by { Parts(f, images); }
    match op
    case OpRegister(id) => RegisterOk(f, images, id);
    case OpMarkReady(id, hostname) =>
      if id in f.machines && |Strip(hostname)| <= 253 {
        EditedOk(f, images, id, MarkReady(f, id, hostname).machines[id]);
      }
    case OpImaging(id, now) =>
      if id in f.machines && Installs(f.machines[id].state) {
        EditedOk(f, images, id, MarkImaging(f, id, now).machines[id]);
      }
    case OpGuestInit(id, instance, now) =>
      if id in f.machines && f.machines[id].state == Imaging {
        EditedOk(f, images, id, Heartbeat(f, id, now).machines[id]);
      }
    case OpExpire(now, minutes) => ExpireOk(f, images, now, minutes);
    case OpInstallFailed(id) => if id in f.machines { LeaveOk(f, images, id, FailedState); }
    case OpAbort(id) =>
      if id in f.machines {
        LeaveOk(f, images, id, if f.machines[id].state == Staged then Deployed else TimeoutError);
      }
    case OpDisable(id) => if id in f.machines { LeaveOk(f, images, id, Disabled); }
    case OpEnable(id) => if id in f.machines { EditedOk(f, images, id, Enable(f, id).machines[id]); }
    case OpDeleteMachine(id) => DeleteMachineOk(f, images, id);
    case _ =>
  }

  lemma Parts(f: Fleet, images: set<nat>)
    requires FleetOk(f, images)
    ensures Clocks(f) && Installing(f, images)
  {
  }

  lemma DeployOk(s: State, id: nat, a: nat, k: nat, served: bool)
    requires LifeOk(s)
    ensures LifeOk(Deploy(s, id, a, k, served))
  {
    hide Attempted, FleetOk, Deployable;
    if CanInstall(s, id, a, k, served) {
      AttemptedOk(s.fleet, s.media.images.Keys, id,
        s.fleet.machines[id].(target := Some(k), state := Deploying, clock := None), a, k,
        s.media.images[k]);
    }
  }

  lemma StageOk(s: State, id: nat, a: nat, image: Option<nat>, served: bool)
    requires LifeOk(s)
    ensures LifeOk(Stage(s, id, a, image, served))
  {
    hide Attempted, FleetOk, Deployable;
    if id in s.fleet.machines {
      var choice := if image.Some? then image else s.fleet.machines[id].target;
      if choice.Some? && CanInstall(s, id, a, choice.value, served) {
        var k := choice.value;
        AttemptedOk(s.fleet, s.media.images.Keys, id,
          s.fleet.machines[id].(target := Some(k), state := Staged, clock := None), a, k,
          s.media.images[k]);
      }
    }
  }

  lemma CopySeedOk(s: State, id: nat, k: nat)
    requires LifeOk(s)
    ensures LifeOk(CopySeed(s, id, k))
  {
    hide FleetOk;
    var f, images := s.fleet, s.media.images.Keys;
    assert Clocks(f) && Installing(f, images) by { Parts(f, images); }
    if id in f.machines && k in s.media.images { EditedOk(f, images, id, f.machines[id].(target := Some(k))); }
  }

  // Deploy, stage, save and seed copies.
  lemma PinOk(s: State, op: Op)
    requires LifeOk(s) && (op.OpDeploy? || op.OpStage? || op.OpSave? || op.OpCopySeed?)
    ensures LifeOk(Step(s, op))
  {
    hide LifeOk, Deploy, Stage, Save, CopySeed, MediaStep, FleetStep;
    match op
    case OpDeploy(id, a, k, served) => DeployOk(s, id, a, k, served);
    case OpStage(id, a, image, served) => StageOk(s, id, a, image, served);
    case OpSave(id, a, hostname, image, served) => SaveOk(s, id, a, hostname, image, served);
    case OpCopySeed(id, k) => CopySeedOk(s, id, k);
  }

  lemma SaveOk(s: State, id: nat, a: nat, hostname: string, image: Option<nat>, served: bool)
    requires LifeOk(s)
    ensures LifeOk(Save(s, id, a, hostname, image, served))
  {
    hide Attempted, FleetOk, Deployable;
    var f, images := s.fleet, s.media.images.Keys;
    assert Clocks(f) && Installing(f, images) by { Parts(f, images); }
    if id in f.machines && f.machines[id].state != Deploying && f.machines[id].state != Imaging
      && |Strip(hostname)| <= 253 {
      var machine := f.machines[id].(hostname := Strip(hostname),
                       target := if image.Some? && image.value in s.media.images then image else f.machines[id].target);
      if machine.state != Staged || machine.target.None? || machine.target.value !in s.media.images {
        EditedOk(f, images, id, machine);
      } else if CanInstall(s, id, a, machine.target.value, served) {
        AttemptedOk(f, images, id, machine, a, machine.target.value, s.media.images[machine.target.value]);
      }
    }
  }

  lemma MediaStepKeeps(m: Media, op: Op)
    ensures m.images.Keys <= MediaStep(m, op).images.Keys
  {
    hide Synced, Next, Offers, PickSource, WimIndexOf;
  }

  lemma FinishKeeps(s: State, found: seq<Source>)
    ensures s.media.images.Keys <= Finish(s, found).media.images.Keys && Finish(s, found).fleet == s.fleet
  {
    hide Synced, Keeps, Finished;
  }

  lemma MarkDeployedLife(s: State, id: nat)
    requires LifeOk(s)
    ensures LifeOk(MarkDeployed(s, id))
  {
    hide FleetOk, Leave, Keeps, PinnedIso;
    if id in s.fleet.machines { LeaveOk(s.fleet, s.media.images.Keys, id, Deployed); }
  }

  lemma SuccessLife(s: State, id: nat, now: int, minutes: int)
    requires LifeOk(s)
    ensures LifeOk(Success(s, id, now, minutes))
  {
    hide FleetOk, MarkDeployed, Expire;
    ExpireOk(s.fleet, s.media.images.Keys, now, minutes);
    MarkDeployedLife(s.(fleet := Expire(s.fleet, now, minutes)), id);
  }

  lemma StepLife(s: State, op: Op)
    requires LifeOk(s)
    ensures LifeOk(Step(s, op))
  {
    hide FleetOk, DeleteImage, Deploy, Stage, Save, CopySeed, MarkDeployed, MediaStep, FleetStep, Expire, Finish,
      Success;
    match op
    case OpFinish(found) => FinishKeeps(s, found);
      MoreImages(s.fleet, s.media.images.Keys, Step(s, op).media.images.Keys);
    case OpDeleteImage(k) => DeleteImageOk(s, k);
    case OpDeploy(_, _, _, _) => PinOk(s, op);
    case OpStage(_, _, _, _) => PinOk(s, op);
    case OpSave(_, _, _, _, _) => PinOk(s, op);
    case OpCopySeed(_, _) => PinOk(s, op);
    case OpSuccess(id, now, minutes) => SuccessLife(s, id, now, minutes);
    case OpMarkDeployed(id) => MarkDeployedLife(s, id);
    case _ =>
      FleetStepOk(s.fleet, s.media.images.Keys, op);
      MediaStepKeeps(s.media, op);
      MoreImages(Step(s, op).fleet, s.media.images.Keys, Step(s, op).media.images.Keys);
  }

  // Main theorem: in every reachable state the clocks run exactly while imaging, no machine has two open attempts, and
  // every machine being installed has one with its current instance id.
  lemma {:induction false} AlwaysInstalled(ops: seq<Op>)
    ensures LifeOk(Run(START, ops))
  {
    hide FleetOk, Step;
    if ops == [] {
      StartLife();
    } else {
      AlwaysInstalled(ops[..|ops| - 1]);
      StepLife(Run(START, ops[..|ops| - 1]), ops[|ops| - 1]);
    }
  }

  lemma StartLife()
    ensures LifeOk(START)
  {
  }

  // ---- what the invariant gives

  // What get_open_attempt returns.
  ghost predicate IsOpenAttempt(f: Fleet, id: nat, r: Option<nat>) {
    match r
    case Some(a) => CurrentAttempt(f, id, a)
    case None => !HasCurrent(f, id)
  }

  // A machine being installed always boots the installer its attempt pinned, whatever happened to the live image.
  lemma DecidesByAttempt(s: State, id: nat, r: Option<nat>)
    requires LifeOk(s) && id in s.fleet.machines && IsOpenAttempt(s.fleet, id, r)
    ensures Installs(s.fleet.machines[id].state) ==>
      && r.Some? && (forall a :: CurrentAttempt(s.fleet, id, a) ==> a == r.value)
      && Decide(s, id, r) == if s.fleet.attempts[r.value].payload.family == Linux then InstallLinux else InstallWindows
    ensures !Installs(s.fleet.machines[id].state) ==> Decide(s, id, r) == Menu || Decide(s, id, r) == UnknownLocal
  {
  }

  // ---- instances

  // No two machines and no two attempts share an instance id, and a machine's id is only on its own attempts.
  ghost predicate Unshared(f: Fleet) {
    && InstancesUsed(f)
    && (forall i, j | i in f.machines && j in f.machines && f.machines[i].instance == f.machines[j].instance :: i == j)
    && (forall a, b | a in f.attempts && b in f.attempts && f.attempts[a].instance == f.attempts[b].instance :: a == b)
    && (forall a, i | a in f.attempts && i in f.machines && f.attempts[a].instance == f.machines[i].instance ::
      f.attempts[a].machine == i)
  }

  // Nothing is drawn, and rows keep their instance ids.
  ghost predicate SameInstances(f: Fleet, g: Fleet) {
    && g.nextInstance == f.nextInstance && g.machines.Keys <= f.machines.Keys && g.attempts.Keys <= f.attempts.Keys
    && (forall i | i in g.machines :: g.machines[i].instance == f.machines[i].instance)
    && (forall a | a in g.attempts ::
      g.attempts[a].instance == f.attempts[a].instance && g.attempts[a].machine == f.attempts[a].machine)
  }

  lemma SameUnshared(f: Fleet, g: Fleet)
    requires Unshared(f) && SameInstances(f, g)
    ensures Unshared(g)
  {
  }

  // A machine and an attempt of its own with the next id.
  lemma DrawnUnshared(f: Fleet, id: nat, machine: Machine, a: nat, x: Attempt)
    requires Unshared(f) && a !in f.attempts && machine.instance == f.nextInstance && x.instance == f.nextInstance
      && x.machine == id
    ensures Unshared(Fleet(f.machines[id := machine], f.attempts[a := x], f.nextInstance + 1))
  {
  }

  lemma AttemptedUnshared(f: Fleet, id: nat, machine: Machine, a: nat, k: nat, t: Template)
    requires Unshared(f) && a !in f.attempts
    ensures Unshared(Attempted(f, id, machine, a, k, t))
  {
    var closed := f.(attempts := Closed(f.attempts, id));
    assert SameInstances(f, closed);
    hide PayloadOf, Unshared, Closed, SameInstances;
    SameUnshared(f, closed);
    assert a !in closed.attempts by { ClosedKeys(f.attempts, id); }
    DrawnUnshared(closed, id, machine.(instance := f.nextInstance), a,
      Attempt(id, f.nextInstance, Some(k), PayloadOf(t), t.sourceId, true));
  }

  lemma ClosedKeys(attempts: map<nat, Attempt>, id: nat)
    ensures Closed(attempts, id).Keys == attempts.Keys
  {
  }

  lemma PinUnshared(s: State, op: Op)
    requires Unshared(s.fleet) && (op.OpDeploy? || op.OpStage? || op.OpSave? || op.OpCopySeed?)
    ensures Unshared(Step(s, op).fleet)
  {
    hide Deployable, Attempted, Unshared, MediaStep, FleetStep, Finish, Success, MarkDeployed, DeleteImage;
    var f, g := s.fleet, Step(s, op).fleet;
    if SameInstances(f, g) { SameUnshared(f, g); }
    match op
    case OpDeploy(id, a, k, served) =>
      if CanInstall(s, id, a, k, served) {
        AttemptedUnshared(f, id, f.machines[id].(target := Some(k), state := Deploying, clock := None), a, k,
          s.media.images[k]);
      }
    case OpStage(id, a, image, served) =>
      if id in f.machines {
        var target := if image.Some? then image else f.machines[id].target;
        if target.Some? && CanInstall(s, id, a, target.value, served) {
          var k := target.value;
          AttemptedUnshared(f, id, f.machines[id].(target := Some(k), state := Staged, clock := None), a, k,
            s.media.images[k]);
        }
      }
    case OpSave(id, a, hostname, image, served) =>
      if id in f.machines {
        var machine := f.machines[id].(hostname := Strip(hostname),
                         target := if image.Some? && image.value in s.media.images then image
                           else f.machines[id].target);
        if machine.target.Some? && CanInstall(s, id, a, machine.target.value, served) {
          AttemptedUnshared(f, id, machine, a, machine.target.value, s.media.images[machine.target.value]);
        }
      }
    case _ =>
  }

  lemma DoneSame(s: State, op: Op)
    requires op.OpSuccess? || op.OpMarkDeployed?
    ensures SameInstances(s.fleet, Step(s, op).fleet)
  {
    hide Keeps, PinnedIso, MediaStep, FleetStep, Finish, Deploy, Stage, Save, CopySeed, DeleteImage;
  }

  lemma FleetUnshared(f: Fleet, op: Op)
    requires Unshared(f)
    ensures Unshared(FleetStep(f, op))
  {
    hide Unshared;
    if op.OpRegister? {
      RegisterUnshared(f, op.machine);
    } else {
      assert SameInstances(f, FleetStep(f, op));
      SameUnshared(f, FleetStep(f, op));
    }
  }

  lemma RegisterUnshared(f: Fleet, id: nat)
    requires Unshared(f)
    ensures Unshared(Register(f, id))
  {
  }

  lemma StepUnshared(s: State, op: Op)
    requires Unshared(s.fleet)
    ensures Unshared(Step(s, op).fleet)
  {
    hide Finish, MediaStep, FleetStep, DeleteImage, Deploy, Stage, Save, CopySeed, MarkDeployed, Success, Unshared;
    match op
    case OpFinish(found) => FinishKeeps(s, found);
    case OpDeleteImage(k) => DeleteImageSame(s, k); SameUnshared(s.fleet, DeleteImage(s, k).fleet);
    case OpDeploy(_, _, _, _) => PinUnshared(s, op);
    case OpStage(_, _, _, _) => PinUnshared(s, op);
    case OpSave(_, _, _, _, _) => PinUnshared(s, op);
    case OpCopySeed(_, _) => PinUnshared(s, op);
    case OpSuccess(_, _, _) => DoneSame(s, op); SameUnshared(s.fleet, Step(s, op).fleet);
    case OpMarkDeployed(_) => DoneSame(s, op); SameUnshared(s.fleet, Step(s, op).fleet);
    case _ => FleetUnshared(s.fleet, op);
  }

  lemma DeleteImageSame(s: State, k: nat)
    ensures SameInstances(s.fleet, DeleteImage(s, k).fleet)
  {
  }

  // In every reachable state instance ids are unshared, and every later attempt draws one that was never used.
  lemma {:induction false} AlwaysUnshared(ops: seq<Op>)
    ensures Unshared(Run(START, ops).fleet)
  {
    hide Step, Unshared;
    if ops == [] {
      StartUnshared();
    } else {
      AlwaysUnshared(ops[..|ops| - 1]);
      StepUnshared(Run(START, ops[..|ops| - 1]), ops[|ops| - 1]);
    }
  }

  lemma StartUnshared()
    ensures Unshared(START.fleet)
  {
  }

  // Once an instance id is no longer served it never is again.
  lemma {:induction false} NeverServedAgain(s: State, ops: seq<Op>, id: nat, instance: nat)
    requires instance < s.fleet.nextInstance && !Serves(s.fleet, id, Some(instance))
    ensures instance < Run(s, ops).fleet.nextInstance && !Serves(Run(s, ops).fleet, id, Some(instance))
  {
    hide Step, Serves;
    if ops != [] {
      NeverServedAgain(s, ops[..|ops| - 1], id, instance);
      StaysUnserved(Run(s, ops[..|ops| - 1]), ops[|ops| - 1], id, instance);
    }
  }

  // The instance was drawn before and is not served.
  predicate Unserved(f: Fleet, id: nat, instance: nat) {
    instance < f.nextInstance && !Serves(f, id, Some(instance))
  }

  lemma StaysUnserved(s: State, op: Op, id: nat, instance: nat)
    requires Unserved(s.fleet, id, instance)
    ensures Unserved(Step(s, op).fleet, id, instance)
  {
    hide Finish, MediaStep, FleetStep, DeleteImage, Deploy, Stage, Save, CopySeed, MarkDeployed, Success, Unserved;
    match op
    case OpFinish(found) => FinishKeeps(s, found);
    case OpDeleteImage(k) => DeleteImageUnserved(s, k, id, instance);
    case OpDeploy(_, _, _, _) => PinUnserved(s, op, id, instance);
    case OpStage(_, _, _, _) => PinUnserved(s, op, id, instance);
    case OpSave(_, _, _, _, _) => PinUnserved(s, op, id, instance);
    case OpCopySeed(_, _) => PinUnserved(s, op, id, instance);
    case OpSuccess(_, _, _) => DoneUnserved(s, op, id, instance);
    case OpMarkDeployed(_) => DoneUnserved(s, op, id, instance);
    case _ => FleetUnserved(s.fleet, op, id, instance);
  }

  lemma PinUnserved(s: State, op: Op, id: nat, instance: nat)
    requires Unserved(s.fleet, id, instance) && (op.OpDeploy? || op.OpStage? || op.OpSave? || op.OpCopySeed?)
    ensures Unserved(Step(s, op).fleet, id, instance)
  {
    hide Deployable, PayloadOf, Closed, MediaStep, FleetStep, Finish, Success, MarkDeployed, DeleteImage;
  }

  lemma DoneUnserved(s: State, op: Op, id: nat, instance: nat)
    requires Unserved(s.fleet, id, instance) && (op.OpSuccess? || op.OpMarkDeployed?)
    ensures Unserved(Step(s, op).fleet, id, instance)
  {
    hide Keeps, PinnedIso, Closed, MediaStep, FleetStep, Finish, Deploy, Stage, Save, CopySeed, DeleteImage;
  }

  lemma DeleteImageUnserved(s: State, k: nat, id: nat, instance: nat)
    requires Unserved(s.fleet, id, instance)
    ensures Unserved(DeleteImage(s, k).fleet, id, instance)
  {
  }

  lemma FleetUnserved(f: Fleet, op: Op, id: nat, instance: nat)
    requires Unserved(f, id, instance)
    ensures Unserved(FleetStep(f, op), id, instance)
  {
    hide Closed;
  }

  // A new deploy supersedes the instance before it.
  lemma DeploySupersedes(s: State, id: nat, a: nat, k: nat, served: bool)
    requires LifeOk(s) && CanInstall(s, id, a, k, served)
    ensures var before, after := s.fleet.machines[id].instance, Deploy(s, id, a, k, served).fleet;
      !Serves(after, id, Some(before)) && before < after.nextInstance
        && Serves(after, id, Some(after.machines[id].instance))
  {
  }

  // ---- the imaging clock

  // After an expiry no imaging machine's clock is at or past the cutoff, exactly the stale machines left, and the
  // others and their attempts are untouched.
  lemma ExpireExact(f: Fleet, now: int, minutes: int)
    requires Clocks(f) && minutes > 0
    ensures var g := Expire(f, now, minutes);
      && g.machines.Keys == f.machines.Keys && g.attempts.Keys == f.attempts.Keys
      && (forall i | i in g.machines ::
            && !Stale(g.machines[i], now, minutes)
            && (if Stale(f.machines[i], now, minutes) then
              g.machines[i] == f.machines[i].(state := TimeoutError, clock := None)
                else g.machines[i] == f.machines[i]))
      && (forall a | a in g.attempts ::
            if f.attempts[a].machine in f.machines && Stale(f.machines[f.attempts[a].machine], now, minutes)
            then g.attempts[a] == f.attempts[a].(open := false) else g.attempts[a] == f.attempts[a])
  {
  }

  // A heartbeat keeps the machine installing through every expiry inside the timeout.
  lemma HeartbeatSaves(f: Fleet, id: nat, beat: int, now: int, minutes: int)
    requires Clocks(f) && id in f.machines && f.machines[id].state == Imaging && now < beat + 60 * minutes
    ensures var g := Expire(Heartbeat(f, id, beat), now, minutes);
      id in g.machines && g.machines[id] == f.machines[id].(clock := Some(beat))
  {
  }

  // A success callback is accepted exactly when the machine is installing and its clock has not run out.
  lemma SuccessInTime(s: State, id: nat, now: int, minutes: int)
    requires LifeOk(s) && id in s.fleet.machines
    ensures SuccessAccepted(s.fleet, id, now, minutes)
       <==> Installs(s.fleet.machines[id].state) && !(minutes > 0 && Stale(s.fleet.machines[id], now, minutes))
    ensures if SuccessAccepted(s.fleet, id, now, minutes)
            then Success(s, id, now, minutes).fleet.machines[id].state == Deployed
            else Success(s, id, now, minutes) == s
  {
    hide Keeps, PinnedIso;
  }

  // ---- which step moves a machine where

  // The only ways a machine's state changes.
  predicate Moves(x: MachineState, op: Op, y: MachineState) {
    match y
    case Pending => false
    case ReadyState => op.OpEnable? || (op.OpMarkReady? && x == Pending)
    case Deploying => op.OpDeploy?
    case Staged => op.OpStage?
    case Imaging => op.OpImaging? && Installs(x)
    case TimeoutError => ((op.OpExpire? || op.OpSuccess?) && x == Imaging)
      || (op.OpAbort? && (x == Deploying || x == Imaging))
    case Deployed => op.OpMarkDeployed? || (op.OpSuccess? && Installs(x)) || (op.OpAbort? && x == Staged)
    case Disabled => op.OpDisable?
    case FailedState => op.OpInstallFailed? && Installs(x)
  }

  // Along such an edge, or not at all; and a new instance exactly when an attempt is made for the machine.
  ghost predicate Moved(f: Fleet, g: Fleet, op: Op, i: nat)
    requires i in f.machines && i in g.machines
  {
    && (f.machines[i].state == g.machines[i].state || Moves(f.machines[i].state, op, g.machines[i].state))
    && (f.machines[i].instance != g.machines[i].instance <==> exists a :: a !in f.attempts && CurrentAttempt(g, i, a))
  }

  lemma Transitions(s: State, op: Op, i: nat)
    requires LifeOk(s) && i in s.fleet.machines && i in Step(s, op).fleet.machines
    ensures Moved(s.fleet, Step(s, op).fleet, op, i)
  {
    hide Finish, MediaStep, FleetStep, DeleteImage, Deploy, Stage, Save, CopySeed, MarkDeployed, Success, Moved, LifeOk,
      FleetOk;
    match op
    case OpFinish(found) =>
      FinishKeeps(s, found);
      SameMoved(s.fleet, op, i);
    case OpDeleteImage(k) => DeleteImageMoves(s, k, i);
    case OpDeploy(_, _, _, _) => PinMoves(s, op, i);
    case OpStage(_, _, _, _) => PinMoves(s, op, i);
    case OpSave(_, _, _, _, _) => PinMoves(s, op, i);
    case OpCopySeed(_, _) => PinMoves(s, op, i);
    case OpSuccess(_, _, _) => DoneMoves(s, op, i);
    case OpMarkDeployed(_) => DoneMoves(s, op, i);
    case _ => FleetMoves(s.fleet, op, i);
  }

  lemma SameMoved(f: Fleet, op: Op, i: nat)
    requires i in f.machines
    ensures Moved(f, f, op, i)
  {
  }

  lemma DeleteImageMoves(s: State, k: nat, i: nat)
    requires i in s.fleet.machines
    ensures i in DeleteImage(s, k).fleet.machines && Moved(s.fleet, DeleteImage(s, k).fleet, OpDeleteImage(k), i)
  {
  }

  // A new attempt moves its own machine as the operation says, and no other.
  lemma AttemptedMoved(f: Fleet, op: Op, id: nat, machine: Machine, a: nat, k: nat, t: Template, i: nat)
    requires InstancesUsed(f) && a !in f.attempts && id in f.machines && i in f.machines
    requires machine.state == f.machines[id].state || Moves(f.machines[id].state, op, machine.state)
    ensures i in Attempted(f, id, machine, a, k, t).machines && Moved(f, Attempted(f, id, machine, a, k, t), op, i)
  {
    hide PayloadOf, Moves;
    var g := Attempted(f, id, machine, a, k, t);
    if i == id { assert CurrentAttempt(g, i, a); }
  }

  lemma DeployMoves(s: State, op: Op, i: nat)
    requires InstancesUsed(s.fleet) && i in s.fleet.machines && op.OpDeploy?
    ensures i in Step(s, op).fleet.machines && Moved(s.fleet, Step(s, op).fleet, op, i)
  {
    hide Deployable, Attempted, Moved, CurrentAttempt;
    var f, id, k := s.fleet, op.machine, op.image;
    SameMoved(f, op, i);
    if CanInstall(s, id, op.attempt, k, op.served) {
      AttemptedMoved(f, op, id, f.machines[id].(target := Some(k), state := Deploying, clock := None), op.attempt, k,
        s.media.images[k], i);
    }
  }

  lemma StageMoves(s: State, op: Op, i: nat)
    requires InstancesUsed(s.fleet) && i in s.fleet.machines && op.OpStage?
    ensures i in Step(s, op).fleet.machines && Moved(s.fleet, Step(s, op).fleet, op, i)
  {
    hide Deployable, Attempted, Moved, CurrentAttempt;
    var f, id := s.fleet, op.machine;
    SameMoved(f, op, i);
    if id in f.machines {
      var target := if op.choice.Some? then op.choice else f.machines[id].target;
      if target.Some? && CanInstall(s, id, op.attempt, target.value, op.served) {
        var k := target.value;
        AttemptedMoved(f, op, id, f.machines[id].(target := Some(k), state := Staged, clock := None), op.attempt, k,
          s.media.images[k], i);
      }
    }
  }

  lemma SaveMoves(s: State, op: Op, i: nat)
    requires InstancesUsed(s.fleet) && i in s.fleet.machines && op.OpSave?
    ensures i in Step(s, op).fleet.machines && Moved(s.fleet, Step(s, op).fleet, op, i)
  {
    hide Deployable, Attempted, Moved, CurrentAttempt;
    var f, id := s.fleet, op.machine;
    SameMoved(f, op, i);
    if id in f.machines {
      var machine := f.machines[id].(hostname := Strip(op.hostname),
                       target := if op.choice.Some? && op.choice.value in s.media.images then op.choice
                         else f.machines[id].target);
      if machine.target.Some? && CanInstall(s, id, op.attempt, machine.target.value, op.served) {
        AttemptedMoved(f, op, id, machine, op.attempt, machine.target.value, s.media.images[machine.target.value], i);
      }
      EditMoves(f, op, id, machine, i);
    }
  }

  lemma PinMoves(s: State, op: Op, i: nat)
    requires LifeOk(s) && i in s.fleet.machines && (op.OpDeploy? || op.OpStage? || op.OpSave? || op.OpCopySeed?)
    ensures i in Step(s, op).fleet.machines && Moved(s.fleet, Step(s, op).fleet, op, i)
  {
    hide Deploy, Stage, Save, MediaStep, FleetStep, Finish, Success, MarkDeployed, DeleteImage, Moved;
    match op
    case OpDeploy(_, _, _, _) => DeployMoves(s, op, i);
    case OpStage(_, _, _, _) => StageMoves(s, op, i);
    case OpSave(_, _, _, _, _) => SaveMoves(s, op, i);
    case OpCopySeed(id, k) =>
      SameMoved(s.fleet, op, i);
      if id in s.fleet.machines { EditMoves(s.fleet, op, id, s.fleet.machines[id].(target := Some(k)), i); }
  }

  // An edit that keeps state and instance.
  lemma EditMoves(f: Fleet, op: Op, id: nat, machine: Machine, i: nat)
    requires i in f.machines && id in f.machines && machine.state == f.machines[id].state
      && machine.instance == f.machines[id].instance
    ensures var g := f.(machines := f.machines[id := machine]); i in g.machines && Moved(f, g, op, i)
  {
    hide Moves;
  }

  lemma DoneMoves(s: State, op: Op, i: nat)
    requires i in s.fleet.machines && (op.OpSuccess? || op.OpMarkDeployed?)
    ensures i in Step(s, op).fleet.machines && Moved(s.fleet, Step(s, op).fleet, op, i)
  {
    hide Keeps, PinnedIso, MediaStep, FleetStep, Finish, Deploy, Stage, Save, CopySeed, DeleteImage;
  }

  lemma FleetMoves(f: Fleet, op: Op, i: nat)
    requires i in f.machines && i in FleetStep(f, op).machines
    ensures Moved(f, FleetStep(f, op), op, i)
  {
  }

  // ---- attempts outlive an install only through Enable

  // Every open attempt belongs to a machine that is installing.
  ghost predicate Settled(f: Fleet) {
    forall a | a in f.attempts && f.attempts[a].open ::
      f.attempts[a].machine in f.machines && Installs(f.machines[f.attempts[a].machine].state)
  }

  predicate EnablesInstalling(f: Fleet, op: Op) {
    op.OpEnable? && op.machine in f.machines && Installs(f.machines[op.machine].state)
  }

  // Enabling a machine that is installing strands its open attempt; no other step does.
  lemma SettledStep(s: State, op: Op)
    requires LifeOk(s) && Settled(s.fleet)
    ensures Settled(Step(s, op).fleet) <==> !EnablesInstalling(s.fleet, op)
  {
    hide Finish, MediaStep, FleetStep, DeleteImage, Deploy, Stage, Save, CopySeed, MarkDeployed, Success, FleetOk,
      Settled;
    assert Installing(s.fleet, s.media.images.Keys) by { Parts(s.fleet, s.media.images.Keys); }
    match op
    case OpFinish(found) => FinishKeeps(s, found);
    case OpDeleteImage(k) => DeleteImageSettled(s, k);
    case OpDeploy(_, _, _, _) => PinSettled(s, op);
    case OpStage(_, _, _, _) => PinSettled(s, op);
    case OpSave(_, _, _, _, _) => PinSettled(s, op);
    case OpCopySeed(_, _) => PinSettled(s, op);
    case OpSuccess(id, now, minutes) => SuccessSettled(s, id, now, minutes);
    case OpMarkDeployed(id) => MarkDeployedSettled(s, id);
    case _ => FleetSettled(s.fleet, s.media.images.Keys, op);
  }

  lemma DeleteImageSettled(s: State, k: nat)
    requires Settled(s.fleet)
    ensures Settled(DeleteImage(s, k).fleet)
  {
  }

  lemma PinSettled(s: State, op: Op)
    requires Settled(s.fleet) && (op.OpDeploy? || op.OpStage? || op.OpSave? || op.OpCopySeed?)
    ensures Settled(Step(s, op).fleet)
  {
    hide Deployable, PayloadOf, MediaStep, FleetStep, Finish, Success, MarkDeployed, DeleteImage;
  }

  lemma MarkDeployedSettled(s: State, id: nat)
    requires Settled(s.fleet)
    ensures Settled(MarkDeployed(s, id).fleet)
  {
    hide Keeps, PinnedIso;
  }

  lemma SuccessSettled(s: State, id: nat, now: int, minutes: int)
    requires Settled(s.fleet)
    ensures Settled(Success(s, id, now, minutes).fleet)
  {
    hide Keeps, PinnedIso;
  }

  lemma FleetSettled(f: Fleet, images: set<nat>, op: Op)
    requires Settled(f) && Installing(f, images)
    ensures Settled(FleetStep(f, op)) <==> !EnablesInstalling(f, op)
  {
    if EnablesInstalling(f, op) {
      var a :| CurrentAttempt(f, op.machine, a);
      assert FleetStep(f, op).attempts[a].open;
    }
  }
}
