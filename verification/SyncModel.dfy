/** One Brain kept in step between a local folder and the hosted store: the decisions and effects of
    `src/sync/local-sync-agent.ts`, file by file. */
module SyncModel {
  import opened Wrappers
  import opened Text
  import opened WritePolicy
  import opened RevisionModel

  // ---------------------------------------------------------------- state

  datatype Tracked = Tracked(revision: nat, contentHash: Hash, localHash: Hash)

  /** What a policy hold remembers, so that an unchanged refusal is not retried. */
  datatype Fingerprint =
    | PushPrint(localHash: Hash, base: Option<nat>, policy: Option<Policy>)
    | PullPrint(localHash: Hash, base: Option<nat>, code: Error)

  datatype Hold = Hold(fingerprint: Fingerprint, localHash: Hash, code: Error)

  /** The agent's state file. */
  datatype SyncState = SyncState(files: map<string, Tracked>, pending: set<string>, holds: map<string, Hold>)

  /** Text the agent took off the disk: replaced, or removed. */
  datatype Displaced = Displaced(filename: string, content: string, removed: bool)

  /** The two replicas, and every text the agent has displaced from the local one. */
  datatype World = World(disk: map<string, string>, store: Store, displaced: seq<Displaced>)

  /** `safe` is `safeMarkdownPath` without its exception. */
  datatype Config = Config(brain: string, actor: Option<Actor>, safe: string -> bool)

  datatype Guard = LocalRecovery | IncompleteScan | EmptyScan | MarkerMissing | MassDelete

  datatype Report = Report(
    pushed: seq<string>, pulled: seq<string>, same: seq<string>, conflicts: seq<Conflict>, deleted: seq<string>,
    skipped: seq<string>, guards: seq<Guard>, held: seq<string>, excluded: seq<string>)

  const EMPTY_REPORT := Report([], [], [], [], [], [], [], [], [])

  /** A pass in progress, or one that threw and saves nothing. */
  datatype Pass = Pass(world: World, state: SyncState, report: Report) | Aborted(world: World)

  const MARKERS: set<string> := {"00_loader.md", "NOW.md"}

  function FileKey(cfg: Config, filename: string): Key {
    Key(cfg.brain, filename)
  }

  function DiskHash(w: World, filename: string): Option<Hash> {
    if filename in w.disk then Some(Live(w.disk[filename])) else None
  }

  function TrackedOf(st: SyncState, filename: string): Option<Tracked> {
    if filename in st.files then Some(st.files[filename]) else None
  }

  function Base(st: SyncState, filename: string): Option<nat> {
    if filename in st.files then Some(st.files[filename].revision) else None
  }

  /** Whether the local copy is exactly what was last synced. */
  predicate Clean(st: SyncState, filename: string, seen: Option<Hash>) {
    filename in st.files && seen == Some(st.files[filename].localHash)
  }

  function Track(st: SyncState, filename: string, revision: nat, hash: Hash): SyncState {
    st.(files := st.files[filename := Tracked(revision, hash, hash)])
  }

  function Forget(st: SyncState, filename: string): SyncState {
    st.(files := st.files - {filename})
  }

  function Release(st: SyncState, filename: string): SyncState {
    st.(holds := st.holds - {filename})
  }

  // ---------------------------------------------------------------- the atomic local write

  datatype Mutation = Mutation(world: World, ok: bool, current: Option<Hash>)

  /** `mutateLocalFile`: a compare-and-swap on one file. */
  function Mutate(w: World, filename: string, content: Option<string>, expected: Option<Hash>): Mutation {
    var current := DiskHash(w, filename);
    if current != expected then Mutation(w, false, current)
    else
      var displaced := if filename in w.disk
                       then w.displaced + [Displaced(filename, w.disk[filename], content.None?)]
                       else w.displaced;
      match content
      case Some(text) => Mutation(w.(disk := w.disk[filename := text], displaced := displaced), true, current)
      case None => Mutation(w.(disk := w.disk - {filename}, displaced := displaced), true, current)
  }

  // ---------------------------------------------------------------- reconciling resolved conflicts

  /** The resolution to install for a conflict, if the local file is still its local text. */
  function ReconcileLook(cfg: Config, w: World, st: SyncState, c: Conflict): Option<Revision> {
    var f := c.input.key.filename;
    if c.input.localOrigin != LocalAgent || c.resolution.None? || f !in st.files || c.input.localBase != Base(st, f) then None
    else if !IsLive(w.store, c.input.key) || w.store.heads[c.input.key].id != c.resolution.value then None
    else if DiskHash(w, f).None? || DiskHash(w, f) != c.input.localHash then None
    else if c.resolution.value !in w.store.revisions || w.store.revisions[c.resolution.value].deleted then None
    else Some(w.store.revisions[c.resolution.value])
  }

  function ReconcileWrite(w: World, st: SyncState, report: Report, c: Conflict, r: Revision): Pass {
    var f := c.input.key.filename;
    var m := Mutate(w, f, Some(r.content), c.input.localHash);
    if !m.ok then Pass(m.world, st, report.(guards := report.guards + [LocalRecovery]))
    else Pass(m.world, Track(st, f, r.id, r.hash), report.(pulled := report.pulled + [f]))
  }

  function ReconcileOne(cfg: Config, w: World, st: SyncState, report: Report, c: Conflict): Pass {
    match ReconcileLook(cfg, w, st, c)
    case Some(r) => ReconcileWrite(w, st, report, c, r)
    case None => Pass(w, st, report)
  }

  function ReconcileAll(cfg: Config, w: World, st: SyncState, report: Report, todo: seq<Conflict>): (p: Pass)
    ensures p.Pass?
    decreases |todo|
  {
    if todo == [] then Pass(w, st, report)
    else
      var p := ReconcileOne(cfg, w, st, report, todo[0]);
      ReconcileAll(cfg, p.world, p.state, p.report, todo[1..])
  }

  /** The resolved conflicts of the Brain, in the order they were recorded. */
  function ResolvedConflicts(conflicts: seq<Conflict>, brain: string): seq<Conflict> {
    if conflicts == [] then []
    else
      (if conflicts[0].input.key.brain == brain && conflicts[0].resolution.Some? then [conflicts[0]] else [])
      + ResolvedConflicts(conflicts[1..], brain)
  }

  // ---------------------------------------------------------------- pushing

  function PushProposal(cfg: Config, st: SyncState, filename: string, content: string): Proposal {
    Proposal(FileKey(cfg, filename), Base(st, filename), content, LocalAgent, cfg.actor, None)
  }

  /** The read-back that follows a proposal whose revision carries a request hash. */
  function ReadBack(cfg: Config, s: Store, filename: string, content: string, r: Revision): Store {
    if r.context.Some? && r.context.value.External? && r.context.value.requestHash.Some? then
      var verified := IsLive(s, FileKey(cfg, filename)) && s.heads[FileKey(cfg, filename)].content == content;
      SetVerification(s, cfg.brain, r.id, if verified then Verified else VerificationFailed).0
    else s
  }

  /** One turn of the push loop, on content read from disk. */
  function PushFile(cfg: Config, env: Env, w: World, st: SyncState, report: Report, f: string, content: string): Pass {
    var localHash := Live(content);
    if Clean(st, f, Some(localHash)) then Pass(w, Release(st, f), report.(same := report.same + [f]))
    else if env.deployment.Unavailable? then Aborted(w)
    else
      var fingerprint := PushPrint(localHash, Base(st, f), env.deployment.policy);
      if f in st.holds && st.holds[f].fingerprint == fingerprint then Pass(w, st, report.(held := report.held + [f]))
      else
        var (s, outcome) := Propose(w.store, env, PushProposal(cfg, st, f, content));
        match outcome
        case Threw(code) =>
          Pass(w.(store := s), st.(holds := st.holds[f := Hold(fingerprint, localHash, code)]), report.(held := report.held + [f]))
        case Conflicted(conflict, _) =>
          Pass(w.(store := s), Release(st, f), report.(conflicts := report.conflicts + [conflict]))
        case Accepted(r) =>
          Pass(w.(store := ReadBack(cfg, s, f, content, r)), Release(st, f).(files := st.files[f := Tracked(r.id, r.hash, localHash)]),
               report.(pushed := report.pushed + [f]))
        case Unchanged(r) =>
          Pass(w.(store := ReadBack(cfg, s, f, content, r)), Release(st, f).(files := st.files[f := Tracked(r.id, r.hash, localHash)]),
               report.(same := report.same + [f]))
  }

  function PushOne(cfg: Config, env: Env, w: World, st: SyncState, report: Report, f: string): Pass {
    if !cfg.safe(f) || f !in w.disk then Aborted(w) else PushFile(cfg, env, w, st, report, f, w.disk[f])
  }

  function PushAll(cfg: Config, env: Env, w: World, st: SyncState, report: Report, todo: seq<string>): Pass
    decreases |todo|
  {
    if todo == [] then Pass(w, st, report)
    else
      match PushOne(cfg, env, w, st, report, todo[0])
      case Aborted(world) => Aborted(world)
      case Pass(world, state, rep) => PushAll(cfg, env, world, state, rep, todo[1..])
  }

  // ---------------------------------------------------------------- guarded deletions

  datatype Limits = Limits(maxDeletes: real, maxPct: real)

  function Absent(names: seq<string>, scanned: set<string>): seq<string> {
    if names == [] then []
    else (if names[0] !in scanned then [names[0]] else []) + Absent(names[1..], scanned)
  }

  function Confirmed(candidates: seq<string>, pending: set<string>): seq<string> {
    if candidates == [] then []
    else (if candidates[0] in pending then [candidates[0]] else []) + Confirmed(candidates[1..], pending)
  }

  /** The scan shows files, and every tracked structural marker among them. */
  predicate Healthy(tracked: set<string>, scanned: set<string>) {
    scanned != {} && forall m :: m in MARKERS && m in tracked ==> m in scanned
  }

  predicate OverThreshold(confirmed: nat, tracked: nat, limits: Limits) {
    || confirmed as real > limits.maxDeletes
    || (if tracked == 0 then 0.0 else confirmed as real / tracked as real * 100.0) > limits.maxPct
  }

  /** What the guards decide: the files to tombstone now, and those to remember for the next scan. */
  datatype Plan = Plan(deletions: seq<string>, remembered: set<string>, skipped: seq<string>, guards: seq<Guard>)

  function SetOf(names: seq<string>): set<string> {
    set f | f in names
  }

  /** The guards of `inferGuardedDeletions`; `names` lists the tracked files. */
  function PlanDeletions(st: SyncState, names: seq<string>, scanned: set<string>, limits: Limits): Plan {
    var candidates := Absent(names, scanned);
    if candidates == [] then Plan([], {}, [], [])
    else if !Healthy(SetOf(names), scanned) then
      Plan([], {}, candidates, [if scanned == {} then EmptyScan else MarkerMissing])
    else
      var confirmed := Confirmed(candidates, st.pending);
      if confirmed != [] && OverThreshold(|confirmed|, |names|, limits)
      then Plan([], SetOf(candidates), confirmed, [MassDelete])
      else Plan(confirmed, SetOf(candidates), [], [])
  }

  /** One turn of the deletion loop. */
  function DeleteOne(cfg: Config, w: World, st: SyncState, report: Report, f: string): Pass {
    if f !in st.files then Pass(w, st, report)
    else
      var (s, outcome) := Delete(w.store, FileKey(cfg, f), Base(st, f), LocalAgent, cfg.actor);
      match outcome
      case Conflicted(conflict, _) => Pass(w.(store := s), st, report.(conflicts := report.conflicts + [conflict]))
      case _ => Pass(w.(store := s), Forget(st, f), report.(deleted := report.deleted + [f]))
  }

  function DeleteAll(cfg: Config, w: World, st: SyncState, report: Report, todo: seq<string>): (p: Pass)
    ensures p.Pass?
    decreases |todo|
  {
    if todo == [] then Pass(w, st, report)
    else
      var p := DeleteOne(cfg, w, st, report, todo[0]);
      DeleteAll(cfg, p.world, p.state, p.report, todo[1..])
  }

  function Remember(st: SyncState, remembered: set<string>): SyncState {
    st.(pending := set f | f in remembered && f in st.files)
  }

  // ---------------------------------------------------------------- pulling

  function PullConflict(cfg: Config, w: World, st: SyncState, report: Report, head: Revision, local: Option<Hash>): Pass {
    var f := head.key.filename;
    var (s, conflict) := RecordConflict(
                           w.store, ConflictInput(FileKey(cfg, f), Base(st, f), Some(head.id), local, Some(head.hash),
                                                  LocalAgent, Some(HostedMcp), cfg.actor, None));
    Pass(w.(store := s), st, report.(conflicts := report.conflicts + [conflict]))
  }

  predicate IsSource(filename: string) {
    StartsWith(filename, "sources/")
  }

  function PriorContent(w: World, st: SyncState, f: string): string {
    if f in st.files && st.files[f].revision in w.store.revisions then w.store.revisions[st.files[f].revision].content else ""
  }

  /** Why an unsynced local edit is held back under an enforcing or retired policy. */
  function PullHold(cfg: Config, env: Env, w: World, st: SyncState, head: Revision, seen: Option<Hash>): Option<Hold> {
    var f := head.key.filename;
    if env.deployment.Configured? && env.deployment.policy.Some?
       && (env.deployment.policy.value.mode.Enforce? || env.deployment.policy.value.intake.Retired?)
       && seen.Some? && seen.value.Live? && seen != Some(head.hash) && !Clean(st, f, seen)
    then
      match Admit(w.store, env, PushProposal(cfg, st, f, seen.value.content), PriorContent(w, st, f))
      case Refused(code) => Some(Hold(PullPrint(seen.value, Base(st, f), code), seen.value, code))
      case _ => None
    else None
  }

  /** One turn of the pull loop after the local file was read: `seen` is what that read returned. */
  function PullFile(cfg: Config, env: Env, w: World, st: SyncState, report: Report, head: Revision, seen: Option<Hash>): Pass {
    var f := head.key.filename;
    if f in st.holds && !Clean(st, f, seen) then Pass(w, st, report.(held := report.held + [f]))
    else if PullHold(cfg, env, w, st, head, seen).Some? then
      Pass(w, st.(holds := st.holds[f := PullHold(cfg, env, w, st, head, seen).value]), report.(held := report.held + [f]))
    else if head.deleted then PullTombstone(cfg, w, st, report, head, seen)
    else PullLive(cfg, w, st, report, head, seen)
  }

  function PullTombstone(cfg: Config, w: World, st: SyncState, report: Report, head: Revision, seen: Option<Hash>): Pass {
    var f := head.key.filename;
    if f in MARKERS then Pass(w, st, report)
    else if seen.None? then Pass(w, Forget(st, f), report)
    else if !Clean(st, f, seen) then PullConflict(cfg, w, st, report, head, seen)
    else
      var m := Mutate(w, f, None, seen);
      if !m.ok then PullConflict(cfg, w, st, report.(guards := report.guards + [LocalRecovery]), head, m.current)
      else Pass(m.world, Forget(st, f), report.(deleted := report.deleted + [f]))
  }

  function PullLive(cfg: Config, w: World, st: SyncState, report: Report, head: Revision, seen: Option<Hash>): Pass {
    var f := head.key.filename;
    if Base(st, f) == Some(head.id) then Pass(w, st, report.(same := report.same + [f]))
    else if seen == Some(head.hash) then Pass(w, Track(st, f, head.id, head.hash), report.(same := report.same + [f]))
    else if f in st.files && !Clean(st, f, seen) then PullConflict(cfg, w, st, report, head, seen)
    else if f !in st.files && seen.Some? then PullConflict(cfg, w, st, report, head, seen)
    else if !Consistent(w.store, head) then Aborted(w)
    else
      var m := Mutate(w, f, Some(w.store.revisions[head.id].content), seen);
      if !m.ok then PullConflict(cfg, w, st, report.(guards := report.guards + [LocalRecovery]), head, m.current)
      else Pass(m.world, Track(st, f, head.id, head.hash), report.(pulled := report.pulled + [f]))
  }

  /** The check before installing: the stored revision is the head that was listed. */
  predicate Consistent(s: Store, head: Revision) {
    && head.id in s.revisions
    && !s.revisions[head.id].deleted
    && s.revisions[head.id].key == head.key
    && s.revisions[head.id].hash == head.hash
  }

  function PullOne(cfg: Config, env: Env, w: World, st: SyncState, report: Report, head: Revision): Pass {
    var f := head.key.filename;
    if IsSource(f) then Pass(w, st, report.(excluded := report.excluded + [f]))
    else if !cfg.safe(f) then Aborted(w)
    else PullFile(cfg, env, w, st, report, head, DiskHash(w, f))
  }

  function PullAll(cfg: Config, env: Env, w: World, st: SyncState, report: Report, todo: seq<Revision>): Pass
    decreases |todo|
  {
    if todo == [] then Pass(w, st, report)
    else
      match PullOne(cfg, env, w, st, report, todo[0])
      case Aborted(world) => Aborted(world)
      case Pass(world, state, rep) => PullAll(cfg, env, world, state, rep, todo[1..])
  }

  // ---------------------------------------------------------------- whole passes

  datatype Scan = Files(names: seq<string>) | ScanFailed(io: bool)

  /** What one push reads from its surroundings: the scan, the order of the tracked names, the limits. */
  datatype PushInput = PushInput(env: Env, scan: Scan, names: seq<string>, limits: Limits)

  /** A pass over: the new world, the state file, and the report unless it threw. */
  datatype Ended = Ended(world: World, saved: SyncState, report: Option<Report>)

  function ReconcilePass(cfg: Config, w: World, saved: SyncState): Pass {
    ReconcileAll(cfg, w, saved, EMPTY_REPORT, ResolvedConflicts(w.store.conflicts, cfg.brain))
  }

  /** `pushLocalChanges` with nothing else happening. */
  function PushPass(cfg: Config, input: PushInput, w: World, saved: SyncState): Ended {
    var r := ReconcilePass(cfg, w, saved);
    match input.scan
    case ScanFailed(io) =>
      var st := r.state.(pending := {});
      Ended(r.world, st, if io then Some(r.report.(guards := r.report.guards + [IncompleteScan], skipped := input.names)) else None)
    case Files(filenames) =>
      match PushAll(cfg, input.env, r.world, r.state, r.report, filenames)
      case Aborted(world) => Ended(world, r.state, None)
      case Pass(w1, st1, rep1) => AfterPush(cfg, input, Pass(w1, st1, rep1))
  }

  /** The deletion part of a push. */
  function AfterPush(cfg: Config, input: PushInput, p: Pass): Ended
    requires p.Pass? && input.scan.Files?
  {
    var plan := PlanDeletions(p.state, input.names, SetOf(input.scan.names), input.limits);
    var d := DeleteAll(cfg, p.world, p.state,
                           p.report.(skipped := p.report.skipped + plan.skipped, guards := p.report.guards + plan.guards), plan.deletions);
    Ended(d.world, Remember(d.state, plan.remembered), Some(d.report))
  }

  function HeadsOf(s: Store, keys: seq<Key>): seq<Revision> {
    if keys == [] then []
    else (if keys[0] in s.heads then [s.heads[keys[0]]] else []) + HeadsOf(s, keys[1..])
  }

  /** `pullHostedChanges` with nothing else happening; `keys` is the order of the listed heads. */
  function PullPass(cfg: Config, env: Env, keys: seq<Key>, w: World, saved: SyncState): Ended {
    if env.deployment.Unavailable? then Ended(w, saved, None)
    else
      match PullAll(cfg, env, w, saved, EMPTY_REPORT, HeadsOf(w.store, keys))
      case Aborted(world) => Ended(world, saved, None)
      case Pass(world, state, report) => Ended(world, state, Some(report))
  }

  // ---------------------------------------------------------------- rebuilding the state file

  predicate AnyOpen(conflicts: seq<Conflict>, brain: string) {
    exists i :: 0 <= i < |conflicts| && conflicts[i].input.key.brain == brain && conflicts[i].resolution.None?
  }

  function LiveNames(s: Store, brain: string): set<string> {
    set key | key in s.heads && key.brain == brain && !s.heads[key].deleted :: key.filename
  }

  /** `rebaseState(true)`: the new state file, or nothing when it refuses; `found` is the local scan. */
  function RebaseState(cfg: Config, w: World, saved: SyncState, found: seq<string>): Option<SyncState> {
    if AnyOpen(w.store.conflicts, cfg.brain) then None
    else if SetOf(found) != LiveNames(w.store, cfg.brain) then None
    else if exists f :: f in found && (!cfg.safe(f) || DiskHash(w, f) != Some(HeadHash(cfg, w.store, f))) then None
    else Some(saved.(files := map f | f in SetOf(found) :: AtHead(cfg, w.store, f), pending := {}))
  }

  function AtHead(cfg: Config, s: Store, f: string): Tracked {
    Tracked(HeadId(s, FileKey(cfg, f)).GetOr(0), HeadHash(cfg, s, f), HeadHash(cfg, s, f))
  }

  function HeadHash(cfg: Config, s: Store, f: string): Hash {
    if FileKey(cfg, f) in s.heads then s.heads[FileKey(cfg, f)].hash else Tombstone
  }
}
