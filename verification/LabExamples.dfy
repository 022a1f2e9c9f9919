// Runs in which the lab's two exceptions happen: an attempt stranded by enabling, and a booted tree that is collected.

module LabExamples {
  import opened Text
  import opened LabState
  import opened LabMedia
  import opened LabLife

  // ---- the rows these runs go through: one Linux ISO, later one template of it

  function Cols(file: MediaPath, status: Status, revision: nat, generation: Generation): Columns {
    Columns("amd64", "", "", file, file, MediaPath.Blank, MediaPath.Blank, status, "", revision, generation, [])
  }

  function Row(c: Columns): map<nat, Iso> {
    map[0 := Iso(Linux, c)]
  }

  function Linked(c: Columns): map<nat, Template> {
    map[1 := Template(0, Linux, c, "", 1)]
  }

  const TREE := Tree(false)
  const FIRST := Generation(false, 0, 1)
  const PUBLISHED := Publishes(false, TREE)
  const ON_DISK: map<TreeKey, Tree> := map[(0, 1) := TREE]

  const NEW := Cols(MediaPath.Blank, Idle, 0, NoGeneration)
  const WAITING := Cols(MediaPath.Blank, Queued, 1, NoGeneration)
  const RUNNING := Cols(MediaPath.Blank, Extracting, 1, NoGeneration)
  const DONE := Cols(Extracted(1), Ready, 1, FIRST)
  const AGAIN := Cols(Extracted(1), Queued, 2, FIRST)
  const RERUN := Cols(Extracted(1), Extracting, 2, FIRST)
  const GONE := Cols(Extracted(1), Idle, 2, FIRST)

  const NOBODY := Fleet(map[], map[], 0)

  function Lab(c: Columns, linked: bool, disk: map<TreeKey, Tree>, job: Job, fleet: Fleet): State {
    State(Media(Row(c), if linked then Linked(c) else map[], disk, job), fleet)
  }

  lemma Longer(ops: seq<Op>, s: State, op: Op, t: State)
    requires Run(START, ops) == s && Step(s, op) == t
    ensures Run(START, ops + [op]) == t
  {
    hide Step;
    assert (ops + [op])[..|ops|] == ops;
  }

  // ---- extract once, link a template, and lose the file before the second extraction

  const STARTED := [OpCreateIso(0, Linux, "amd64")] + [OpSchedule(0, true)] + [OpClaim(0)]
  const EXTRACTED := STARTED + [OpBegin(true)] + [OpUnpack(PUBLISHED)] + [OpFinish([])]
  const LOST := EXTRACTED + [OpCreateImage(1, 0, "", 1)] + [OpSchedule(0, true)] + [OpClaim(0)] + [OpBegin(false)]

  lemma FirstSteps()
    ensures Step(START, OpCreateIso(0, Linux, "amd64")) == Lab(NEW, false, map[], NoJob, NOBODY)
    ensures Step(Lab(NEW, false, map[], NoJob, NOBODY), OpSchedule(0, true))
      == Lab(WAITING, false, map[], NoJob, NOBODY)
    ensures Step(Lab(WAITING, false, map[], NoJob, NOBODY), OpClaim(0))
      == Lab(RUNNING, false, map[], Job(0, 1, Claimed), NOBODY)
  {
  }

  lemma JobSteps()
    ensures Step(Lab(RUNNING, false, map[], Job(0, 1, Claimed), NOBODY), OpBegin(true))
      == Lab(RUNNING, false, map[], Job(0, 1, Opened), NOBODY)
    ensures Step(Lab(RUNNING, false, map[], Job(0, 1, Opened), NOBODY), OpUnpack(PUBLISHED))
         == Lab(RUNNING, false, ON_DISK, Job(0, 1, Unpacked(PUBLISHED)), NOBODY)
  {
  }

  lemma PublishStep()
    ensures Step(Lab(RUNNING, false, ON_DISK, Job(0, 1, Unpacked(PUBLISHED)), NOBODY), OpFinish([]))
      == Lab(DONE, false, ON_DISK, NoJob, NOBODY)
  {
  }

  lemma LinkStep()
    ensures Step(Lab(DONE, false, ON_DISK, NoJob, NOBODY), OpCreateImage(1, 0, "", 1))
      == Lab(DONE, true, ON_DISK, NoJob, NOBODY)
  {
  }

  lemma AgainStep()
    ensures Step(Lab(DONE, true, ON_DISK, NoJob, NOBODY), OpSchedule(0, true))
      == Lab(AGAIN, true, ON_DISK, NoJob, NOBODY)
  {
  }

  lemma RerunStep()
    ensures Step(Lab(AGAIN, true, ON_DISK, NoJob, NOBODY), OpClaim(0))
      == Lab(RERUN, true, ON_DISK, Job(0, 2, Claimed), NOBODY)
  {
  }

  lemma GoneStep()
    ensures Step(Lab(RERUN, true, ON_DISK, Job(0, 2, Claimed), NOBODY), OpBegin(false))
      == Lab(GONE, true, ON_DISK, NoJob, NOBODY)
  {
  }

  lemma JobStarted()
    ensures Run(START, STARTED) == Lab(RUNNING, false, map[], Job(0, 1, Claimed), NOBODY)
  {
    assert Run(START, []) == START;
    hide Step, Run, Lab;
    FirstSteps();
    var a, b := [OpCreateIso(0, Linux, "amd64")], [OpSchedule(0, true)];
    assert [] + a == a;
    Longer([], START, OpCreateIso(0, Linux, "amd64"), Lab(NEW, false, map[], NoJob, NOBODY));
    Longer(a, Lab(NEW, false, map[], NoJob, NOBODY), OpSchedule(0, true), Lab(WAITING, false, map[], NoJob, NOBODY));
    Longer(a + b, Lab(WAITING, false, map[], NoJob, NOBODY), OpClaim(0),
      Lab(RUNNING, false, map[], Job(0, 1, Claimed), NOBODY));
  }

  lemma JobDone()
    ensures Run(START, EXTRACTED) == Lab(DONE, false, ON_DISK, NoJob, NOBODY)
  {
    hide Step, Run, Lab, STARTED;
    JobStarted();
    JobSteps();
    PublishStep();
    var d := STARTED + [OpBegin(true)];
    Longer(STARTED, Lab(RUNNING, false, map[], Job(0, 1, Claimed), NOBODY), OpBegin(true),
      Lab(RUNNING, false, map[], Job(0, 1, Opened), NOBODY));
    Longer(d, Lab(RUNNING, false, map[], Job(0, 1, Opened), NOBODY), OpUnpack(PUBLISHED),
      Lab(RUNNING, false, ON_DISK, Job(0, 1, Unpacked(PUBLISHED)), NOBODY));
    Longer(d + [OpUnpack(PUBLISHED)], Lab(RUNNING, false, ON_DISK, Job(0, 1, Unpacked(PUBLISHED)), NOBODY),
      OpFinish([]), Lab(DONE, false, ON_DISK, NoJob, NOBODY));
  }

  // The row is idle at revision 2, its template still boots revision 1, and that tree is on disk.
  lemma FileLost()
    ensures Run(START, LOST) == Lab(GONE, true, ON_DISK, NoJob, NOBODY)
  {
    hide Step, Run, Lab, EXTRACTED;
    JobDone();
    LinkStep();
    AgainStep();
    RerunStep();
    GoneStep();
    var g := EXTRACTED + [OpCreateImage(1, 0, "", 1)];
    var h := g + [OpSchedule(0, true)];
    Longer(EXTRACTED, Lab(DONE, false, ON_DISK, NoJob, NOBODY), OpCreateImage(1, 0, "", 1),
      Lab(DONE, true, ON_DISK, NoJob, NOBODY));
    Longer(g, Lab(DONE, true, ON_DISK, NoJob, NOBODY), OpSchedule(0, true), Lab(AGAIN, true, ON_DISK, NoJob, NOBODY));
    Longer(h, Lab(AGAIN, true, ON_DISK, NoJob, NOBODY), OpClaim(0),
      Lab(RERUN, true, ON_DISK, Job(0, 2, Claimed), NOBODY));
    Longer(h + [OpClaim(0)], Lab(RERUN, true, ON_DISK, Job(0, 2, Claimed), NOBODY), OpBegin(false),
      Lab(GONE, true, ON_DISK, NoJob, NOBODY));
  }

  // ---- two machines install it, and one finishes

  function Boots(machine: nat, instance: nat, open: bool): Attempt {
    Attempt(machine, instance, Some(1), PayloadOf(Template(0, Linux, GONE, "", 1)), "", open)
  }

  function Installer(state: MachineState, instance: nat): Machine {
    Machine("", state, Some(1), instance, None)
  }

  function Newcomer(instance: nat): Machine {
    Machine("", Pending, None, instance, None)
  }

  function Emptied(fleet: Fleet): State {
    Lab(GONE, true, ON_DISK, NoJob, fleet)
  }

  const FIRST_SEEN := Fleet(map[0 := Newcomer(0)], map[], 1)
  const ONE := Fleet(map[0 := Installer(Deploying, 1)], map[0 := Boots(0, 1, true)], 2)
  const BOTH_SEEN := Fleet(map[0 := Installer(Deploying, 1), 1 := Newcomer(2)], map[0 := Boots(0, 1, true)], 3)
  const BOTH := Fleet(map[0 := Installer(Deploying, 1), 1 := Installer(Deploying, 3)],
                      map[0 := Boots(0, 1, true), 1 := Boots(1, 3, true)], 4)
  const LEFT := Fleet(map[0 := Installer(Deploying, 1), 1 := Installer(Deployed, 3)],
                      map[0 := Boots(0, 1, true), 1 := Boots(1, 3, false)], 4)

  lemma RegisterFirst()
    ensures Step(Emptied(NOBODY), OpRegister(0)) == Emptied(FIRST_SEEN)
  {
  }

  lemma DeployFirst()
    ensures Step(Emptied(FIRST_SEEN), OpDeploy(0, 0, 1, true)) == Emptied(ONE)
  {
  }

  lemma RegisterSecond()
    ensures Step(Emptied(ONE), OpRegister(1)) == Emptied(BOTH_SEEN)
  {
  }

  lemma DeploySecond()
    ensures Step(Emptied(BOTH_SEEN), OpDeploy(1, 1, 1, true)) == Emptied(BOTH)
  {
  }

  lemma SecondLeaves()
    ensures Leave(BOTH, 1, Deployed) == LEFT && PinnedIso(Emptied(BOTH), 1, 0) && !Keeps(Emptied(LEFT), 0, 1)
  {
    assert BOTH.attempts[1].machine == 1;
  }

  lemma SecondDone()
    ensures Step(Emptied(BOTH), OpMarkDeployed(1)) == Lab(GONE, true, map[], NoJob, LEFT)
  {
    hide Leave, PinnedIso, Keeps;
    SecondLeaves();
  }

  lemma OneInstalls()
    ensures Run(START, LOST + [OpRegister(0)] + [OpDeploy(0, 0, 1, true)]) == Emptied(ONE)
  {
    FileLost();
    assert Emptied(NOBODY) == Lab(GONE, true, ON_DISK, NoJob, NOBODY);
    hide LOST, Step, Run, Emptied, Lab;
    RegisterFirst();
    DeployFirst();
    Longer(LOST, Emptied(NOBODY), OpRegister(0), Emptied(FIRST_SEEN));
    Longer(LOST + [OpRegister(0)], Emptied(FIRST_SEEN), OpDeploy(0, 0, 1, true), Emptied(ONE));
  }

  const BOOTED := LOST + [OpRegister(0)] + [OpDeploy(0, 0, 1, true)] + [OpRegister(1)] + [OpDeploy(1, 1, 1, true)]

  lemma BothInstall()
    ensures Run(START, BOOTED) == Emptied(BOTH)
    ensures Run(START, BOOTED + [OpMarkDeployed(1)]) == Lab(GONE, true, map[], NoJob, LEFT)
  {
    hide LOST, Step, Run, Emptied, Lab;
    OneInstalls();
    RegisterSecond();
    DeploySecond();
    SecondDone();
    var one := LOST + [OpRegister(0)] + [OpDeploy(0, 0, 1, true)];
    Longer(one, Emptied(ONE), OpRegister(1), Emptied(BOTH_SEEN));
    Longer(one + [OpRegister(1)], Emptied(BOTH_SEEN), OpDeploy(1, 1, 1, true), Emptied(BOTH));
    Longer(BOOTED, Emptied(BOTH), OpMarkDeployed(1), Lab(GONE, true, map[], NoJob, LEFT));
  }

  // Both installs boot tree 1 and pin revision 2; when the second machine is done, the first one's tree is collected.
  lemma BootedTreeCollected()
    ensures var s, after := Run(START, BOOTED), Run(START, BOOTED + [OpMarkDeployed(1)]);
      && 0 in s.fleet.attempts && s.fleet.attempts[0].open && s.fleet.attempts[0].payload.generation == FIRST
      && (0, 1) in s.media.disk
      && 0 in after.fleet.attempts && after.fleet.attempts[0] == s.fleet.attempts[0] && (0, 1) !in after.media.disk
  {
    hide BOOTED, Run;
    BothInstall();
  }

  // ---- enabling in the middle of an install

  lemma LoneInstallSettled()
    ensures Settled(ONE)
  {
  }

  // The machine is ready again, and its attempt is still open.
  lemma EnabledAttemptStranded()
    ensures var ops := LOST + [OpRegister(0)] + [OpDeploy(0, 0, 1, true)];
      Settled(Run(START, ops).fleet) && !Settled(Run(START, ops + [OpEnable(0)]).fleet)
  {
    hide LOST, Settled, Run, Step;
    var ops := LOST + [OpRegister(0)] + [OpDeploy(0, 0, 1, true)];
    OneInstalls();
    LoneInstallSettled();
    AlwaysInstalled(ops);
    SettledStep(Emptied(ONE), OpEnable(0));
    Longer(ops, Emptied(ONE), OpEnable(0), Step(Emptied(ONE), OpEnable(0)));
  }
}
