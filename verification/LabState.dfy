// Install media, boot templates, machines and install attempts: the database rows, the published trees on disk,
// the extraction worker's job, and what every operation does to them.

module LabState {
  import opened Text

  // ---- rows

  datatype Family = Linux | Windows

  datatype Status = Idle | Queued | Extracting | Ready | Failed

  // The published tree a row names: `nfs/<iso>/<revision>`, `linux/<iso>/<revision>` or `<iso>/<revision>`.
  datatype Generation = NoGeneration | Generation(nfs: bool, iso: nat, revision: nat)

  // An install source the media offers.
  datatype Source = Source(id: string, isDefault: bool, wimIndex: Option<nat>)

  // A media file: absent, hand-picked, or a file of the tree extracted at a revision.
  datatype MediaPath = Blank | Custom(path: string) | Extracted(revision: nat)

  // The columns a template mirrors from its ISO.
  datatype Columns = Columns(arch: string, isoPath: string, cmdline: string,
    kernel: MediaPath, initrd: MediaPath, bootWim: MediaPath, installWim: MediaPath,
    status: Status, error: string, revision: nat, generation: Generation, catalog: seq<Source>)

  datatype Iso = Iso(family: Family, columns: Columns)

  datatype Template = Template(iso: nat, family: Family, columns: Columns, sourceId: string, wimIndex: nat)

  // A published tree; live: Debian live-boot media.
  datatype Tree = Tree(live: bool)

  // What the archive runner made of the media.
  datatype Outcome = Fails(message: string) | BootsItself | Publishes(nfs: bool, tree: Tree)

  datatype Phase = Claimed | Opened | Unpacked(outcome: Outcome)

  // The worker's current job.
  datatype Job = NoJob | Job(iso: nat, revision: nat, phase: Phase)

  type TreeKey = (nat, nat)

  // What the extraction side owns.
  datatype Media = Media(isos: map<nat, Iso>, images: map<nat, Template>, disk: map<TreeKey, Tree>, job: Job)

  datatype MachineState =
    | Pending | ReadyState | Deploying | Imaging | TimeoutError | Deployed | Staged | Disabled | FailedState

  datatype Machine = Machine(
    hostname: string, state: MachineState, target: Option<nat>, instance: nat, clock: Option<int>)

  // What one install boots.
  datatype Payload = Payload(
    family: Family, kernel: MediaPath, initrd: MediaPath, bootWim: MediaPath, installWim: MediaPath,
    isoPath: string, cmdline: string, wimIndex: nat, generation: Generation, revision: nat)

  datatype Attempt = Attempt(
    machine: nat, instance: nat, image: Option<nat>, payload: Payload, sourceId: string, open: bool)

  // What the machine side owns; instance ids are drawn from a counter that never repeats.
  datatype Fleet = Fleet(machines: map<nat, Machine>, attempts: map<nat, Attempt>, nextInstance: nat)

  datatype State = State(media: Media, fleet: Fleet)

  // ---- install sources

  predicate Offers(items: seq<Source>, id: string) {
    exists i | 0 <= i < |items| :: items[i].id == id
  }

  function FirstDefault(items: seq<Source>): Option<string> {
    if items == [] then None else if items[0].isDefault then Some(items[0].id) else FirstDefault(items[1..])
  }

  // str.replace(c, "")
  function Without(s: string, c: char): string {
    if s == "" then "" else (if s[0] == c then "" else [s[0]]) + Without(s[1..], c)
  }

  function Printable(s: string): string {
    if s == "" then "" else (if s[0] >= ' ' && s[0] != '\U{7F}' then [s[0]] else "") + Printable(s[1..])
  }

  const SOURCE_ID_MAX := 200

  // A source id without control characters, trimmed and cut to length.
  function CleanId(s: string): string {
    var text := Printable(Strip(Without(s, '\0')));
    if |text| > SOURCE_ID_MAX then text[..SOURCE_ID_MAX] else text
  }

  function PickSource(items: seq<Source>, current: string): (r: string)
    ensures items != [] ==> Offers(items, r)
    ensures Offers(items, CleanId(current)) ==> r == CleanId(current)
    ensures !Offers(items, CleanId(current)) && (exists i | 0 <= i < |items| :: items[i].isDefault) ==>
      exists i | 0 <= i < |items| :: items[i].isDefault && items[i].id == r
  {
    if Offers(items, CleanId(current)) then CleanId(current)
    else
      FirstDefaultOffered(items);
      match FirstDefault(items)
      case Some(id) => id
      case None => if items == [] then "" else items[0].id
  }

  lemma {:induction false} FirstDefaultOffered(items: seq<Source>)
    ensures FirstDefault(items).Some? ==> exists i | 0 <= i < |items| ::
      items[i].isDefault && items[i].id == FirstDefault(items).value
    ensures FirstDefault(items).None? ==> forall i | 0 <= i < |items| :: !items[i].isDefault
  {
    if items != [] && !items[0].isDefault {
      FirstDefaultOffered(items[1..]);
      assert forall i | 0 < i < |items| :: items[i] == items[1..][i - 1];
      if FirstDefault(items).Some? {
        var i :| 0 <= i < |items[1..]| && items[1..][i].isDefault && items[1..][i].id == FirstDefault(items).value;
        assert items[i + 1].id == FirstDefault(items).value;
      }
    }
  }

  function WimIndexOf(items: seq<Source>, id: string): Option<nat> {
    IndexAt(items, CleanId(id))
  }

  function IndexAt(items: seq<Source>, id: string): Option<nat> {
    if items == [] then None else if items[0].id == id then items[0].wimIndex else IndexAt(items[1..], id)
  }

  // ---- mirroring

  // Media that runs its own installer: no Ubuntu sources apply.
  predicate RunsItself(iso: Iso, disk: map<TreeKey, Tree>) {
    var c := iso.columns;
    && iso.family == Linux && c.status == Ready
    && if c.kernel == MediaPath.Blank || c.initrd == MediaPath.Blank then !Text.Blank(c.isoPath)
       else LiveBoot(c.generation, disk)
  }

  predicate LiveBoot(g: Generation, disk: map<TreeKey, Tree>) {
    g.Generation? && g.nfs && (g.iso, g.revision) in disk && disk[(g.iso, g.revision)].live
  }

  // All mirrored columns; the source changes only when the new catalog forces it to.
  function Synced(t: Template, id: nat, iso: Iso, disk: map<TreeKey, Tree>): (r: Template)
    ensures r.iso == id
  {
    var copied := t.(iso := id, family := iso.family, columns := iso.columns);
    var options := iso.columns.catalog;
    if RunsItself(iso, disk) then copied.(sourceId := "")
    else if options == [] then copied
    else
      var chosen := PickSource(options, t.sourceId);
      copied.(sourceId := chosen,
              wimIndex := match WimIndexOf(options, chosen) case Some(w) => w case None => t.wimIndex)
  }

  function SyncedIf(t: Template, id: nat, iso: Iso, disk: map<TreeKey, Tree>): Template {
    if t.iso == id then Synced(t, id, iso, disk) else t
  }

  // Every template of one ISO.
  function SyncedAll(images: map<nat, Template>, id: nat, iso: Iso, disk: map<TreeKey, Tree>): map<nat, Template> {
    map k | k in images :: SyncedIf(images[k], id, iso, disk)
  }

  // Store an ISO row and bring its templates up to date.
  function Stored(m: Media, id: nat, iso: Iso): Media {
    m.(isos := m.isos[id := iso], images := SyncedAll(m.images, id, iso, m.disk))
  }

  function WithStatus(iso: Iso, status: Status): Iso {
    iso.(columns := iso.columns.(status := status))
  }

  predicate InProgress(status: Status) {
    status == Queued || status == Extracting
  }

  predicate Blocking(status: Status) {
    InProgress(status) || status == Failed
  }

  // ---- extraction

  // schedule_extract: a new revision to extract; nothing happens when the file is gone.
  function Schedule(m: Media, id: nat, onDisk: bool): Media {
    if id !in m.isos || !onDisk then m else
    var c := m.isos[id].columns;
    Stored(m, id, m.isos[id].(columns := c.(revision := c.revision + 1, status := Queued, error := "")))
  }

  function RequeuedIso(iso: Iso): Iso {
    if iso.columns.status == Extracting then WithStatus(iso, Queued) else iso
  }

  function RequeuedTemplate(t: Template, iso: Iso, disk: map<TreeKey, Tree>): (r: Template)
    ensures r.iso == t.iso
  {
    if iso.columns.status == Extracting then Synced(t, t.iso, RequeuedIso(iso), disk) else t
  }

  // A worker start: whatever was being extracted is queued again and the old job is gone.
  function Requeue(m: Media): Media {
    Media(map i | i in m.isos :: RequeuedIso(m.isos[i]),
          map k | k in m.images ::
            var t := m.images[k]; if t.iso in m.isos then RequeuedTemplate(t, m.isos[t.iso], m.disk) else t,
          m.disk, NoJob)
  }

  // The queued ISO with the smallest id.
  predicate Next(m: Media, id: nat) {
    && id in m.isos && m.isos[id].columns.status == Queued
    && forall i | i in m.isos && m.isos[i].columns.status == Queued :: id <= i
  }

  function ClaimedTemplate(t: Template, id: nat): Template {
    if t.iso == id then t.(columns := t.columns.(status := Extracting)) else t
  }

  // claim_next_job: compare-and-set on the row, then the status of its templates.
  function Claim(m: Media, id: nat): Media {
    if m.job != NoJob || !Next(m, id) then m else
    Media(m.isos[id := WithStatus(m.isos[id], Extracting)],
          map k | k in m.images :: ClaimedTemplate(m.images[k], id),
          m.disk,
          Job(id, m.isos[id].columns.revision, Claimed))
  }

  predicate Overtaken(m: Media, id: nat, revision: nat) {
    id !in m.isos || m.isos[id].columns.revision != revision
  }

  // The job's first check: an overtaken job stops, a missing file leaves the ISO idle.
  function Begin(m: Media, onDisk: bool): Media {
    if !(m.job.Job? && m.job.phase == Claimed) then m
    else if Overtaken(m, m.job.iso, m.job.revision) then m.(job := NoJob)
    else if !onDisk then
      var c := m.isos[m.job.iso].columns;
      Stored(m, m.job.iso, m.isos[m.job.iso].(columns := c.(status := Idle, error := ""))).(job := NoJob)
    else m.(job := m.job.(phase := Opened))
  }

  // A failure is recorded only against the revision it belongs to.
  function MarkFailed(m: Media, id: nat, revision: nat, message: string): Media {
    if Overtaken(m, id, revision) then m else
    var c := m.isos[id].columns;
    Stored(m, id, m.isos[id].(columns := c.(status := Failed, error := message)))
  }

  // The extraction itself: a full tree appears on disk, or it fails.
  function Unpack(m: Media, outcome: Outcome): Media {
    if !(m.job.Job? && m.job.phase == Opened) then m
    else match outcome
      case Fails(message) => MarkFailed(m, m.job.iso, m.job.revision, message).(job := NoJob)
      case BootsItself => m.(job := m.job.(phase := Unpacked(outcome)))
      case Publishes(_, tree) =>
        m.(disk := m.disk[(m.job.iso, m.job.revision) := tree], job := m.job.(phase := Unpacked(outcome)))
  }

  predicate Generated(p: MediaPath) {
    !p.Custom?
  }

  function Replace(p: MediaPath, file: MediaPath): MediaPath {
    if Generated(p) then file else p
  }

  // The columns after a successful extraction; found: the catalog read from the media.
  function Finished(iso: Iso, id: nat, outcome: Outcome, found: seq<Source>): Iso
    requires !outcome.Fails?
  {
    var c := iso.columns;
    var file := if outcome.Publishes? then Extracted(c.revision) else MediaPath.Blank;
    var paths :=
      if iso.family == Linux then
        c.(kernel := Replace(c.kernel, file), initrd := Replace(c.initrd, file), catalog := [])
      else c.(bootWim := Replace(c.bootWim, file), installWim := Replace(c.installWim, file));
    var generation := if outcome.Publishes? then Generation(outcome.nfs, id, c.revision) else NoGeneration;
    Refreshed(iso.(columns := paths.(generation := generation, status := Ready, error := "")), found)
  }

  // refresh_iso_sources: a catalog found on ready media replaces the stored one.
  function Refreshed(iso: Iso, found: seq<Source>): Iso {
    var c := iso.columns;
    if c.status != Ready || found == [] then iso
    else if iso.family == Linux && !(c.generation.Generation? && c.generation.nfs) then iso
    else iso.(columns := c.(catalog := found))
  }

  // The revision of the row, or of an open attempt on one of its templates.
  predicate Keeps(s: State, id: nat, revision: nat) {
    || (id in s.media.isos && s.media.isos[id].columns.revision == revision)
    || (exists a | a in s.fleet.attempts :: PinsRevision(s, a, id, revision))
  }

  predicate PinsRevision(s: State, a: nat, id: nat, revision: nat)
    requires a in s.fleet.attempts
  {
    var at := s.fleet.attempts[a];
    at.open && at.image.Some? && at.image.value in s.media.images
    && s.media.images[at.image.value].iso == id && at.payload.revision == revision
  }

  // gc_extract_generations
  function Collect(s: State, id: nat): State {
    s.(media := s.media.(disk := map p | p in s.media.disk && (p.0 != id || Keeps(s, id, p.1)) :: s.media.disk[p]))
  }

  // The job's second check and the publish: an overtaken job removes its own tree and touches no row.
  function Finish(s: State, found: seq<Source>): State {
    var m := s.media;
    if !(m.job.Job? && m.job.phase.Unpacked? && !m.job.phase.outcome.Fails?) then s else
    var id, revision, outcome := m.job.iso, m.job.revision, m.job.phase.outcome;
    if Overtaken(m, id, revision) then
      s.(media := m.(job := NoJob, disk := if outcome.Publishes? then m.disk - {(id, revision)} else m.disk))
    else
      Collect(s.(media := Stored(m, id, Finished(m.isos[id], id, outcome, found)).(job := NoJob)), id)
  }

  // ---- media rows

  function CreateIso(m: Media, id: nat, family: Family, arch: string): Media {
    if id in m.isos || id in m.images then m else
    var none := MediaPath.Blank;
    m.(isos := m.isos[id := Iso(family, Columns(arch, "", "", none, none, none, none, Idle, "", 0, NoGeneration, []))])
  }

  // update_iso: hand-edited columns, mirrored at once.
  function UpdateIso(m: Media, id: nat, arch: string, cmdline: string, isoPath: string,
                     kernel: MediaPath, initrd: MediaPath, bootWim: MediaPath, installWim: MediaPath): Media {
    if id !in m.isos then m else
    var c := m.isos[id].columns;
    Stored(m, id, m.isos[id].(columns := c.(
      arch := arch, cmdline := cmdline, isoPath := isoPath,
      kernel := kernel, initrd := initrd, bootWim := bootWim, installWim := installWim)))
  }

  function RefreshSources(m: Media, id: nat, found: seq<Source>): Media {
    if id !in m.isos then m else Stored(m, id, Refreshed(m.isos[id], found))
  }

  // Refused while it extracts or a template uses it; its trees go with it.
  function DeleteIso(m: Media, id: nat): Media {
    if id !in m.isos || InProgress(m.isos[id].columns.status)
      || (exists k | k in m.images :: m.images[k].iso == id) then m else
    m.(isos := m.isos - {id}, disk := map p | p in m.disk && p.0 != id :: m.disk[p])
  }

  function CreateImage(m: Media, k: nat, id: nat, sourceId: string, wimIndex: nat): Media {
    if k in m.images || id !in m.isos then m else
    var blank :=
      Template(id, m.isos[id].family, m.isos[id].columns, Strip(sourceId), if wimIndex < 1 then 1 else wimIndex);
    m.(images := m.images[k := Synced(blank, id, m.isos[id], m.disk)])
  }

  // update_image: keep or switch the ISO, then the operator's source and edition.
  function UpdateImage(m: Media, k: nat, iso: Option<nat>, wimIndex: Option<nat>, sourceId: Option<string>): Media {
    if k !in m.images then m else
    var t := m.images[k];
    var id := match iso case Some(i) => i case None => t.iso;
    if id !in m.isos || (iso.Some? && m.isos[id].family != t.family) then m else
    var synced := Synced(t, id, m.isos[id], m.disk);
    var picked := match wimIndex
      case Some(w) => synced.(wimIndex := if w < 1 then 1 else w)
      case None => synced;
    match sourceId
    case None => m.(images := m.images[k := picked])
    case Some(raw) =>
      var options, source := picked.columns.catalog, Strip(raw);
      if options == [] then m.(images := m.images[k := picked.(sourceId := source)])
      else if source != "" && !Offers(options, source) then m
      else
        var chosen := PickSource(options, source);
        m.(images := m.images[k := picked.(sourceId := chosen,
             wimIndex := match WimIndexOf(options, chosen) case Some(w) => w case None => picked.wimIndex)])
  }

  predicate ImageBusy(f: Fleet, k: nat) {
    || (exists a | a in f.attempts :: f.attempts[a].open && f.attempts[a].image == Some(k))
    || (exists i | i in f.machines :: f.machines[i].target == Some(k) && Installs(f.machines[i].state))
  }

  function Unassigned(x: Machine, k: nat): Machine {
    if x.target == Some(k) then x.(target := None) else x
  }

  function Orphaned(x: Attempt, k: nat): Attempt {
    if x.image == Some(k) then x.(image := None) else x
  }

  // Refused while a machine installs it; other references are cleared.
  function DeleteImage(s: State, k: nat): State {
    if k !in s.media.images || ImageBusy(s.fleet, k) then s else
    State(s.media.(images := s.media.images - {k}),
          s.fleet.(machines := map i | i in s.fleet.machines :: Unassigned(s.fleet.machines[i], k),
                   attempts := map a | a in s.fleet.attempts :: Orphaned(s.fleet.attempts[a], k)))
  }

  // ---- machines

  predicate Installs(state: MachineState) {
    state == Deploying || state == Staged || state == Imaging
  }

  // image_deploy_reason; served: wimboot and the media share are configured.
  predicate Deployable(t: Template, served: bool) {
    var c := t.columns;
    && !Blocking(c.status)
    && match t.family
       case Linux => (c.kernel != MediaPath.Blank && c.initrd != MediaPath.Blank) || !Text.Blank(c.isoPath)
       case Windows =>
         if c.generation.Generation? && c.bootWim != MediaPath.Blank then served
         else !Text.Blank(c.isoPath) || c.bootWim != MediaPath.Blank
  }

  function PayloadOf(t: Template): Payload {
    Payload(t.family, t.columns.kernel, t.columns.initrd, t.columns.bootWim, t.columns.installWim, t.columns.isoPath,
            t.columns.cmdline, t.wimIndex, t.columns.generation, t.columns.revision)
  }

  function ClosedIf(x: Attempt, machine: nat): Attempt {
    if x.machine == machine then x.(open := false) else x
  }

  // close_open_attempts
  function Closed(attempts: map<nat, Attempt>, machine: nat): map<nat, Attempt> {
    map a | a in attempts :: ClosedIf(attempts[a], machine)
  }

  // A fresh instance id, every older attempt closed, one new attempt pinned to the template as it is now.
  function Attempted(f: Fleet, id: nat, machine: Machine, a: nat, k: nat, t: Template): Fleet {
    Fleet(f.machines[id := machine.(instance := f.nextInstance)],
          Closed(f.attempts, id)[a := Attempt(id, f.nextInstance, Some(k), PayloadOf(t), t.sourceId, true)],
          f.nextInstance + 1)
  }

  predicate CanInstall(s: State, id: nat, a: nat, k: nat, served: bool) {
    && id in s.fleet.machines && a !in s.fleet.attempts && k in s.media.images
    && Deployable(s.media.images[k], served)
  }

  function Deploy(s: State, id: nat, a: nat, k: nat, served: bool): State {
    if !CanInstall(s, id, a, k, served) then s else
    var machine := s.fleet.machines[id].(target := Some(k), state := Deploying, clock := None);
    s.(fleet := Attempted(s.fleet, id, machine, a, k, s.media.images[k]))
  }

  // stage_machine with a given image, or with the assigned one.
  function Stage(s: State, id: nat, a: nat, image: Option<nat>, served: bool): State {
    if id !in s.fleet.machines then s else
    var machine := s.fleet.machines[id];
    match if image.Some? then image else machine.target
    case None => s
    case Some(k) =>
      if !CanInstall(s, id, a, k, served) then s else
      s.(fleet := Attempted(s.fleet, id, machine.(target := Some(k), state := Staged, clock := None), a, k,
        s.media.images[k]))
  }

  // Saving the machine page: a staged install is pinned again.
  function Save(s: State, id: nat, a: nat, hostname: string, image: Option<nat>, served: bool): State {
    if id !in s.fleet.machines then s else
    var before := s.fleet.machines[id];
    if before.state == Deploying || before.state == Imaging || |Strip(hostname)| > 253 then s else
    var machine := before.(hostname := Strip(hostname),
                         target := if image.Some? && image.value in s.media.images then image else before.target);
    if machine.state != Staged || machine.target.None? || machine.target.value !in s.media.images then
      s.(fleet := s.fleet.(machines := s.fleet.machines[id := machine]))
    else
      var k := machine.target.value;
      if !CanInstall(s, id, a, k, served) then s
      else s.(fleet := Attempted(s.fleet, id, machine, a, k, s.media.images[k]))
  }

  // Copying an image's default seed also assigns the image.
  function CopySeed(s: State, id: nat, k: nat): State {
    if id !in s.fleet.machines || k !in s.media.images then s else
    var machine := s.fleet.machines[id];
    if machine.state == Deploying || machine.state == Imaging then s
    else s.(fleet := s.fleet.(machines := s.fleet.machines[id := machine.(target := Some(k))]))
  }

  function Register(f: Fleet, id: nat): Fleet {
    if id in f.machines then f else
    f.(machines := f.machines[id := Machine("", Pending, None, f.nextInstance, None)],
      nextInstance := f.nextInstance + 1)
  }

  function MarkReady(f: Fleet, id: nat, hostname: string): Fleet {
    if id !in f.machines || |Strip(hostname)| > 253 then f else
    var machine := f.machines[id];
    var state := if machine.state == Pending then ReadyState else machine.state;
    f.(machines := f.machines[id := machine.(hostname := Strip(hostname), state := state)])
  }

  // The imaging callback, guarded by the event route.
  function MarkImaging(f: Fleet, id: nat, now: int): Fleet {
    if id !in f.machines || !Installs(f.machines[id].state) then f
    else f.(machines := f.machines[id := f.machines[id].(state := Imaging, clock := Some(now))])
  }

  // The clock of an imaging machine starts again.
  function Heartbeat(f: Fleet, id: nat, now: int): Fleet {
    if id !in f.machines || f.machines[id].state != Imaging then f
    else f.(machines := f.machines[id := f.machines[id].(clock := Some(now))])
  }

  // get_machine_for_guest_init: the machine is served only to its current instance.
  predicate Serves(f: Fleet, id: nat, instance: Option<nat>) {
    && id in f.machines && Installs(f.machines[id].state)
    && (instance.Some? ==> instance.value == f.machines[id].instance)
  }

  function GuestInit(f: Fleet, id: nat, instance: Option<nat>, now: int): Fleet {
    if Serves(f, id, instance) then Heartbeat(f, id, now) else f
  }

  // Leave the install: new state, no clock, no open attempt.
  function Leave(f: Fleet, id: nat, state: MachineState): Fleet
    requires id in f.machines
  {
    f.(machines := f.machines[id := f.machines[id].(state := state, clock := None)], attempts := Closed(f.attempts, id))
  }

  // Seconds.
  function Cutoff(now: int, minutes: int): int {
    now - 60 * minutes
  }

  predicate Stale(machine: Machine, now: int, minutes: int) {
    machine.state == Imaging && machine.clock.Some? && machine.clock.value <= Cutoff(now, minutes)
  }

  function ExpiredMachine(x: Machine, now: int, minutes: int): Machine {
    if Stale(x, now, minutes) then x.(state := TimeoutError, clock := None)
    else if x.state == Imaging && x.clock.None? then x.(clock := Some(now))
    else x
  }

  function ExpiredAttempt(x: Attempt, machines: map<nat, Machine>, now: int, minutes: int): Attempt {
    if x.machine in machines && Stale(machines[x.machine], now, minutes) then x.(open := false) else x
  }

  // expire_stale_imaging: zero minutes disables it.
  function Expire(f: Fleet, now: int, minutes: int): Fleet {
    if minutes <= 0 then f else
    f.(machines := map i | i in f.machines :: ExpiredMachine(f.machines[i], now, minutes),
       attempts := map a | a in f.attempts :: ExpiredAttempt(f.attempts[a], f.machines, now, minutes))
  }

  function InstallFailed(f: Fleet, id: nat): Fleet {
    if id !in f.machines || !Installs(f.machines[id].state) then f else Leave(f, id, FailedState)
  }

  function Abort(f: Fleet, id: nat): Fleet {
    if id !in f.machines || !Installs(f.machines[id].state) then f
    else Leave(f, id, if f.machines[id].state == Staged then Deployed else TimeoutError)
  }

  function Disable(f: Fleet, id: nat): Fleet {
    if id !in f.machines then f else Leave(f, id, Disabled)
  }

  // Enabling leaves the attempts alone.
  function Enable(f: Fleet, id: nat): Fleet {
    if id !in f.machines then f
    else f.(machines := f.machines[id := f.machines[id].(state := ReadyState, clock := None)])
  }

  function DeleteMachine(f: Fleet, id: nat): Fleet {
    if id !in f.machines then f else
    f.(machines := f.machines - {id},
       attempts := map a | a in f.attempts && f.attempts[a].machine != id :: f.attempts[a])
  }

  // ISOs of the images a machine's open attempts pin.
  predicate PinnedIso(s: State, machine: nat, id: nat) {
    exists a | a in s.fleet.attempts ::
      var x := s.fleet.attempts[a];
      x.machine == machine && x.open && x.image.Some? && x.image.value in s.media.images
        && s.media.images[x.image.value].iso == id
  }

  // mark_deployed: the install is over, and the ISOs it pinned are collected.
  function MarkDeployed(s: State, id: nat): State {
    if id !in s.fleet.machines then s else
    var done := s.(fleet := Leave(s.fleet, id, Deployed));
    done.(media := done.media.(disk :=
      map p | p in s.media.disk && (!PinnedIso(s, id, p.0) || Keeps(done, p.0, p.1)) :: s.media.disk[p]))
  }

  // The success callback: expiry first; a refused event commits nothing.
  predicate SuccessAccepted(f: Fleet, id: nat, now: int, minutes: int) {
    id in f.machines && Installs(Expire(f, now, minutes).machines[id].state)
  }

  function Success(s: State, id: nat, now: int, minutes: int): State {
    if !SuccessAccepted(s.fleet, id, now, minutes) then s
    else MarkDeployed(s.(fleet := Expire(s.fleet, now, minutes)), id)
  }

  // ---- boot policy

  datatype ScriptKind = UnknownLocal | Menu | InstallLinux | InstallWindows | ImageNotReady

  predicate MenuEligible(machine: Machine) {
    && machine.state != Disabled && !Installs(machine.state)
    && (!Text.Blank(machine.hostname)
        || machine.state == ReadyState || machine.state == Deployed || machine.state == TimeoutError
          || machine.state == FailedState)
  }

  // An open attempt with the machine's current instance id.
  predicate CurrentAttempt(f: Fleet, id: nat, a: nat) {
    && id in f.machines && a in f.attempts
    && f.attempts[a].machine == id && f.attempts[a].open && f.attempts[a].instance == f.machines[id].instance
  }

  // decide_script; attempt: what get_open_attempt returned.
  function Decide(s: State, id: nat, attempt: Option<nat>): ScriptKind
    requires id in s.fleet.machines
    requires attempt.Some? ==> CurrentAttempt(s.fleet, id, attempt.value)
  {
    var machine := s.fleet.machines[id];
    if !Installs(machine.state) then (if MenuEligible(machine) then Menu else UnknownLocal)
    else if machine.target.None? || machine.target.value !in s.media.images then
      (if MenuEligible(machine) then Menu else UnknownLocal)
    else
      var image := s.media.images[machine.target.value];
      if attempt.None? && Blocking(image.columns.status) then ImageNotReady
      else
        var family := if attempt.Some? then s.fleet.attempts[attempt.value].payload.family else image.family;
        if family == Windows then InstallWindows else InstallLinux
  }

  // ---- runs

  datatype Op =
    | OpSchedule(iso: nat, onDisk: bool) | OpRequeue | OpClaim(iso: nat) | OpBegin(onDisk: bool)
    | OpUnpack(outcome: Outcome) | OpFinish(found: seq<Source>)
    | OpCreateIso(iso: nat, family: Family, arch: string)
    | OpUpdateIso(iso: nat, arch: string, cmdline: string, isoPath: string,
                  kernel: MediaPath, initrd: MediaPath, bootWim: MediaPath, installWim: MediaPath)
    | OpRefresh(iso: nat, found: seq<Source>) | OpDeleteIso(iso: nat)
    | OpCreateImage(image: nat, iso: nat, sourceId: string, wimIndex: nat)
    | OpUpdateImage(image: nat, relink: Option<nat>, edition: Option<nat>, source: Option<string>)
    | OpDeleteImage(image: nat)
    | OpDeploy(machine: nat, attempt: nat, image: nat, served: bool)
    | OpStage(machine: nat, attempt: nat, choice: Option<nat>, served: bool)
    | OpSave(machine: nat, attempt: nat, hostname: string, choice: Option<nat>, served: bool)
    | OpCopySeed(machine: nat, image: nat)
    | OpRegister(machine: nat) | OpMarkReady(machine: nat, hostname: string)
    | OpImaging(machine: nat, now: int) | OpGuestInit(machine: nat, instance: Option<nat>, now: int)
    | OpExpire(now: int, minutes: int) | OpSuccess(machine: nat, now: int, minutes: int)
    | OpInstallFailed(machine: nat) | OpAbort(machine: nat) | OpMarkDeployed(machine: nat)
    | OpDisable(machine: nat) | OpEnable(machine: nat) | OpDeleteMachine(machine: nat)

  // Operations on media rows and the worker's job.
  function MediaStep(m: Media, op: Op): Media {
    match op
    case OpSchedule(id, onDisk) => Schedule(m, id, onDisk)
    case OpRequeue => Requeue(m)
    case OpClaim(id) => Claim(m, id)
    case OpBegin(onDisk) => Begin(m, onDisk)
    case OpUnpack(outcome) => Unpack(m, outcome)
    case OpCreateIso(id, family, arch) => CreateIso(m, id, family, arch)
    case OpUpdateIso(id, arch, cmdline, isoPath, kernel, initrd, bootWim, installWim) =>
      UpdateIso(m, id, arch, cmdline, isoPath, kernel, initrd, bootWim, installWim)
    case OpRefresh(id, found) => RefreshSources(m, id, found)
    case OpDeleteIso(id) => DeleteIso(m, id)
    case OpCreateImage(k, id, sourceId, wimIndex) => CreateImage(m, k, id, sourceId, wimIndex)
    case OpUpdateImage(k, iso, wimIndex, sourceId) => UpdateImage(m, k, iso, wimIndex, sourceId)
    case _ => m
  }

  // Operations on machines alone.
  function FleetStep(f: Fleet, op: Op): Fleet {
    match op
    case OpRegister(id) => Register(f, id)
    case OpMarkReady(id, hostname) => MarkReady(f, id, hostname)
    case OpImaging(id, now) => MarkImaging(f, id, now)
    case OpGuestInit(id, instance, now) => GuestInit(f, id, instance, now)
    case OpExpire(now, minutes) => Expire(f, now, minutes)
    case OpInstallFailed(id) => InstallFailed(f, id)
    case OpAbort(id) => Abort(f, id)
    case OpDisable(id) => Disable(f, id)
    case OpEnable(id) => Enable(f, id)
    case OpDeleteMachine(id) => DeleteMachine(f, id)
    case _ => f
  }

  // Every step is one transaction.
  function Step(s: State, op: Op): State {
    match op
    case OpFinish(found) => Finish(s, found)
    case OpDeleteImage(k) => DeleteImage(s, k)
    case OpDeploy(id, a, k, served) => Deploy(s, id, a, k, served)
    case OpStage(id, a, image, served) => Stage(s, id, a, image, served)
    case OpSave(id, a, hostname, image, served) => Save(s, id, a, hostname, image, served)
    case OpCopySeed(id, k) => CopySeed(s, id, k)
    case OpSuccess(id, now, minutes) => Success(s, id, now, minutes)
    case OpMarkDeployed(id) => MarkDeployed(s, id)
    case _ => State(MediaStep(s.media, op), FleetStep(s.fleet, op))
  }

  function Run(s: State, ops: seq<Op>): State {
    if ops == [] then s else Step(Run(s, ops[..|ops| - 1]), ops[|ops| - 1])
  }

  // An empty lab.
  const START := State(Media(map[], map[], map[], NoJob), Fleet(map[], map[], 0))
}
