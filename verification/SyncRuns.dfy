/** The sync agent as a machine that shares the disk with its user and the store with everybody else: edits,
    hosted operations and crashes may fall between any two of its steps. */
module SyncRuns {
  import opened Wrappers
  import opened RevisionModel
  import opened RevisionHistory
  import opened SyncModel
  import opened SyncSafety

  // ---------------------------------------------------------------- the machine

  datatype Look = Look(conflict: Conflict, revision: Revision)

  /** Where the agent is, with what it holds in memory. `content`, `seen` and `look` are observations that
      may be out of date by the time they are acted on. */
  datatype Phase =
    | Idle
    | Reconciling(st: SyncState, resolved: seq<Conflict>, look: Option<Look>, changed: bool)
    | Scanning(st: SyncState)
    | Pushing(st: SyncState, scanned: set<string>, files: seq<string>, content: Option<string>)
    | Deleting(st: SyncState, remembered: set<string>, confirmed: seq<string>)
    | Pulling(st: SyncState, heads: seq<Revision>, seen: Option<Option<Hash>>)

  /** What one push saw and decided about deletions: history, which the push completes as it goes. */
  datatype PushRecord = PushRecord(
    tracked: set<string>, scanned: set<string>, count: nat, limits: Limits, plan: Plan, attempted: seq<string>, completed: bool)

  /** A push whose scan failed. */
  const BLIND_PUSH := PushRecord({}, {}, 0, Limits(0.0, 0.0), Plan([], {}, [], []), [], true)

  datatype System = System(world: World, saved: SyncState, phase: Phase, pushes: seq<PushRecord>)

  datatype Action =
    | EditLocal(file: string, text: Option<string>)
    | Hosted(op: Operation)
    | Crash
    | StartPush
    | LookAtResolved
    | InstallResolved
    | EndReconcile
    | FailScan
    | EndScan(found: seq<string>)
    | ReadLocal
    | ProposeLocal(env: Env)
    | PlanTombstones(names: seq<string>, limits: Limits)
    | TombstoneOne
    | EndPush
    | StartPull(keys: seq<Key>)
    | HashLocal
    | PullHead(env: Env)
    | EndPull
    | Rebase(found: seq<string>)

  predicate Distinct(names: seq<string>) {
    forall i, j :: 0 <= i < j < |names| ==> names[i] != names[j]
  }

  /** One step; an action that does not fit the phase changes nothing. */
  function Act(cfg: Config, sys: System, action: Action): System {
    match action
    case EditLocal(f, Some(text)) => sys.(world := sys.world.(disk := sys.world.disk[f := text]))
    case EditLocal(f, None) => sys.(world := sys.world.(disk := sys.world.disk - {f}))
    case Hosted(op) => sys.(world := sys.world.(store := Step(sys.world.store, op)))
    case Crash => sys.(phase := Idle)
    case StartPush => ActStartPush(cfg, sys)
    case LookAtResolved => ActLook(cfg, sys)
    case InstallResolved => ActInstall(sys)
    case EndReconcile => ActEndReconcile(sys)
    case FailScan => ActFailScan(sys)
    case EndScan(found) => ActScan(sys, found)
    case ReadLocal => ActRead(cfg, sys)
    case ProposeLocal(env) => ActPropose(cfg, sys, env)
    case PlanTombstones(names, limits) => ActPlan(sys, names, limits)
    case TombstoneOne => ActTombstone(cfg, sys)
    case EndPush => ActEndPush(sys)
    case StartPull(keys) => ActStartPull(cfg, sys, keys)
    case HashLocal => ActHash(cfg, sys)
    case PullHead(env) => ActPull(cfg, sys, env)
    case EndPull => ActEndPull(sys)
    case Rebase(found) => ActRebase(cfg, sys, found)
  }

  function ActStartPush(cfg: Config, sys: System): System {
    if !sys.phase.Idle? then sys
    else sys.(phase := Reconciling(sys.saved, ResolvedConflicts(sys.world.store.conflicts, cfg.brain), None, false))
  }

  function ActLook(cfg: Config, sys: System): System {
    var p := sys.phase;
    if !p.Reconciling? || p.look.Some? || p.resolved == [] then sys
    else
      match ReconcileLook(cfg, sys.world, p.st, p.resolved[0])
      case Some(r) => sys.(phase := p.(look := Some(Look(p.resolved[0], r))))
      case None => sys.(phase := p.(resolved := p.resolved[1..]))
  }

  function ActInstall(sys: System): System {
    var p := sys.phase;
    if !p.Reconciling? || p.look.None? || p.resolved == [] then sys
    else
      var q := ReconcileWrite(sys.world, p.st, EMPTY_REPORT, p.look.value.conflict, p.look.value.revision);
      sys.(world := q.world, phase := Reconciling(q.state, p.resolved[1..], None, p.changed || q.report.pulled != []))
  }

  function ActEndReconcile(sys: System): System {
    var p := sys.phase;
    if !p.Reconciling? || p.look.Some? || p.resolved != [] then sys
    else if p.changed then sys.(saved := p.st, phase := Scanning(p.st))
    else sys.(phase := Scanning(sys.saved))
  }

  function ActFailScan(sys: System): System {
    if !sys.phase.Scanning? then sys
    else sys.(saved := sys.phase.st.(pending := {}), phase := Idle, pushes := sys.pushes + [BLIND_PUSH])
  }

  function ActScan(sys: System, found: seq<string>): System {
    if !sys.phase.Scanning? then sys else sys.(phase := Pushing(sys.phase.st, SetOf(found), found, None))
  }

  function ActRead(cfg: Config, sys: System): System {
    var p := sys.phase;
    if !p.Pushing? || p.files == [] || p.content.Some? then sys
    else if !cfg.safe(p.files[0]) || p.files[0] !in sys.world.disk then sys.(phase := Idle)
    else sys.(phase := p.(content := Some(sys.world.disk[p.files[0]])))
  }

  function ActPropose(cfg: Config, sys: System, env: Env): System {
    var p := sys.phase;
    if !p.Pushing? || p.files == [] || p.content.None? then sys
    else
      match PushFile(cfg, env, sys.world, p.st, EMPTY_REPORT, p.files[0], p.content.value)
      case Pass(w, st, _) => sys.(world := w, phase := Pushing(st, p.scanned, p.files[1..], None))
      case Aborted(w) => sys.(world := w, phase := Idle)
  }

  function ActPlan(sys: System, names: seq<string>, limits: Limits): System {
    var p := sys.phase;
    if !p.Pushing? || p.files != [] || p.content.Some? || !Distinct(names) || SetOf(names) != p.st.files.Keys then sys
    else
      var plan := PlanDeletions(p.st, names, p.scanned, limits);
      sys.(phase := Deleting(p.st, plan.remembered, plan.deletions),
           pushes := sys.pushes + [PushRecord(SetOf(names), p.scanned, |names|, limits, plan, [], false)])
  }

  function ActTombstone(cfg: Config, sys: System): System {
    var p := sys.phase;
    if !p.Deleting? || p.confirmed == [] || sys.pushes == [] then sys
    else
      var q := DeleteOne(cfg, sys.world, p.st, EMPTY_REPORT, p.confirmed[0]);
      var last := sys.pushes[|sys.pushes| - 1];
      sys.(world := q.world, phase := Deleting(q.state, p.remembered, p.confirmed[1..]),
           pushes := sys.pushes[|sys.pushes| - 1 := last.(attempted := last.attempted + [p.confirmed[0]])])
  }

  function ActEndPush(sys: System): System {
    var p := sys.phase;
    if !p.Deleting? || p.confirmed != [] || sys.pushes == [] then sys
    else
      var last := sys.pushes[|sys.pushes| - 1];
      sys.(saved := Remember(p.st, p.remembered), phase := Idle, pushes := sys.pushes[|sys.pushes| - 1 := last.(completed := true)])
  }

  function ActStartPull(cfg: Config, sys: System, keys: seq<Key>): System {
    if !sys.phase.Idle? || exists key :: key in keys && key.brain != cfg.brain then sys
    else sys.(phase := Pulling(sys.saved, HeadsOf(sys.world.store, keys), None))
  }

  function ActHash(cfg: Config, sys: System): System {
    var p := sys.phase;
    if !p.Pulling? || p.heads == [] || p.seen.Some? then sys
    else if IsSource(p.heads[0].key.filename) then sys.(phase := p.(heads := p.heads[1..]))
    else if !cfg.safe(p.heads[0].key.filename) then sys.(phase := Idle)
    else sys.(phase := p.(seen := Some(DiskHash(sys.world, p.heads[0].key.filename))))
  }

  function ActPull(cfg: Config, sys: System, env: Env): System {
    var p := sys.phase;
    if !p.Pulling? || p.heads == [] || p.seen.None? then sys
    else
      match PullFile(cfg, env, sys.world, p.st, EMPTY_REPORT, p.heads[0], p.seen.value)
      case Pass(w, st, _) => sys.(world := w, phase := Pulling(st, p.heads[1..], None))
      case Aborted(w) => sys.(world := w, phase := Idle)
  }

  function ActEndPull(sys: System): System {
    var p := sys.phase;
    if !p.Pulling? || p.heads != [] || p.seen.Some? then sys else sys.(saved := p.st, phase := Idle)
  }

  function ActRebase(cfg: Config, sys: System, found: seq<string>): System {
    if !sys.phase.Idle? then sys
    else
      match RebaseState(cfg, sys.world, sys.saved, found)
      case Some(st) => sys.(saved := st)
      case None => sys
  }

  function RunSystem(cfg: Config, sys: System, actions: seq<Action>): System
    decreases |actions|
  {
    if actions == [] then sys else RunSystem(cfg, Act(cfg, sys, actions[0]), actions[1..])
  }

  // ---------------------------------------------------------------- no lost local text

  /** A resolved conflict of this Brain that the store holds. */
  ghost predicate Held(cfg: Config, s: Store, c: Conflict) {
    && c.input.key.brain == cfg.brain && c.resolution.Some?
    && exists i :: 0 <= i < |s.conflicts| && s.conflicts[i] == c
  }

  ghost predicate AllHeld(cfg: Config, s: Store, resolved: seq<Conflict>) {
    forall c :: c in resolved ==> Held(cfg, s, c)
  }

  ghost predicate AllRecorded(cfg: Config, s: Store, heads: seq<Revision>) {
    forall r :: r in heads ==> Recorded(s, r) && r.key.brain == cfg.brain
  }

  /** What the agent holds in memory is out of date at worst, never false. */
  ghost predicate MemorySound(cfg: Config, s: Store, phase: Phase) {
    match phase
    case Idle => true
    case Reconciling(st, resolved, look, _) =>
      TrackedSound(cfg, s, st) && AllHeld(cfg, s, resolved)
      && (look.Some? ==> Reconcilable(cfg, s, look.value.conflict, look.value.revision))
    case Scanning(st) => TrackedSound(cfg, s, st)
    case Pushing(st, _, _, _) => TrackedSound(cfg, s, st)
    case Deleting(st, _, _) => TrackedSound(cfg, s, st)
    case Pulling(st, heads, _) => TrackedSound(cfg, s, st) && AllRecorded(cfg, s, heads)
  }

  ghost predicate SafeSystem(cfg: Config, sys: System) {
    Safe(cfg, sys.world, sys.saved) && MemorySound(cfg, sys.world.store, sys.phase)
  }

  lemma MemorySurvives(cfg: Config, s: Store, t: Store, phase: Phase)
    requires Extends(s, t) && MemorySound(cfg, s, phase)
    ensures MemorySound(cfg, t, phase)
  {
    if !phase.Idle? { TrackedSurvives(cfg, s, t, phase.st); }
    hide TrackedSound;
    match phase
    case Reconciling(_, resolved, look, _) =>
      forall c | c in resolved ensures Held(cfg, t, c) {
        assert Held(cfg, s, c);
        var i :| 0 <= i < |s.conflicts| && s.conflicts[i] == c;
        assert t.conflicts[i] == c;
      }
      if look.Some? { ReconcilableSurvives(cfg, s, t, look.value.conflict, look.value.revision); }
    case Pulling(_, heads, _) =>
      forall r | r in heads ensures Recorded(t, r) && r.key.brain == cfg.brain {
        RecordedSurvives(s, t, r);
      }
    case _ =>
  }

  lemma StepSafeParts(cfg: Config, sys: System, p: Pass)
    requires SafeSystem(cfg, sys) && StepSafe(cfg, sys.world, p)
    ensures Safe(cfg, p.world, sys.saved)
    ensures p.Pass? ==> TrackedSound(cfg, p.world.store, p.state)
    ensures Extends(sys.world.store, p.world.store)
    ensures MemorySound(cfg, p.world.store, sys.phase)
  {
    hide Sound, Extends, NothingLost;
    TrackedSurvives(cfg, sys.world.store, p.world.store, sys.saved);
    MemorySurvives(cfg, sys.world.store, p.world.store, sys.phase);
  }

  lemma StartPushSafe(cfg: Config, sys: System)
    requires SafeSystem(cfg, sys)
    ensures SafeSystem(cfg, ActStartPush(cfg, sys))
  {
    hide Sound, NothingLost, TrackedSound, ResolvedConflicts;
    ResolvedAreRecorded(sys.world.store.conflicts, cfg.brain);
  }

  lemma LookSafe(cfg: Config, sys: System)
    requires SafeSystem(cfg, sys)
    ensures SafeSystem(cfg, ActLook(cfg, sys))
  {
    hide Sound, NothingLost, TrackedSound, ReconcileLook, Reconcilable;
    var p := sys.phase;
    if p.Reconciling? && p.look.None? && p.resolved != [] {
      assert Held(cfg, sys.world.store, p.resolved[0]);
      if ReconcileLook(cfg, sys.world, p.st, p.resolved[0]).Some? {
        LookReconcilable(cfg, sys.world, p.st, p.resolved[0]);
      }
    }
  }

  lemma InstallSafe(cfg: Config, sys: System)
    requires SafeSystem(cfg, sys)
    ensures SafeSystem(cfg, ActInstall(sys))
  {
    var p := sys.phase;
    if p.Reconciling? && p.look.Some? && p.resolved != [] {
      var q := ReconcileWrite(sys.world, p.st, EMPTY_REPORT, p.look.value.conflict, p.look.value.revision);
      assert q.Pass?;
      hide Sound, NothingLost, TrackedSound, ReconcileWrite, Reconcilable, Extends, StepSafe, Held;
      ReconcileWriteSafe(cfg, sys.world, p.st, EMPTY_REPORT, p.look.value.conflict, p.look.value.revision);
      StepSafeParts(cfg, sys, q);
    }
  }

  lemma ProposeSafe(cfg: Config, sys: System, env: Env)
    requires SafeSystem(cfg, sys)
    ensures SafeSystem(cfg, ActPropose(cfg, sys, env))
  {
    var p := sys.phase;
    hide Sound, NothingLost, TrackedSound, PushFile, Extends, StepSafe;
    if p.Pushing? && p.files != [] && p.content.Some? {
      var q := PushFile(cfg, env, sys.world, p.st, EMPTY_REPORT, p.files[0], p.content.value);
      PushFileSafe(cfg, env, sys.world, p.st, EMPTY_REPORT, p.files[0], p.content.value);
      StepSafeParts(cfg, sys, q);
    }
  }

  lemma DeleteOnePasses(cfg: Config, w: World, st: SyncState, report: Report, f: string)
    ensures DeleteOne(cfg, w, st, report, f).Pass?
  {
    hide Delete;
  }

  lemma TombstoneSafe(cfg: Config, sys: System)
    requires SafeSystem(cfg, sys)
    ensures SafeSystem(cfg, ActTombstone(cfg, sys))
  {
    var p := sys.phase;
    hide Sound, NothingLost, TrackedSound, DeleteOne, Extends, StepSafe;
    if p.Deleting? && p.confirmed != [] && sys.pushes != [] {
      DeleteOneSafe(cfg, sys.world, p.st, EMPTY_REPORT, p.confirmed[0]);
      DeleteOnePasses(cfg, sys.world, p.st, EMPTY_REPORT, p.confirmed[0]);
      StepSafeParts(cfg, sys, DeleteOne(cfg, sys.world, p.st, EMPTY_REPORT, p.confirmed[0]));
    }
  }

  lemma {:induction false} HeadsAreRecorded(cfg: Config, s: Store, keys: seq<Key>)
    requires Sound(s) && forall key :: key in keys ==> key.brain == cfg.brain
    ensures AllRecorded(cfg, s, HeadsOf(s, keys))
  {
    hide Sound, Recorded;
    if keys != [] {
      HeadsAreRecorded(cfg, s, keys[1..]);
      assert keys[0] in keys;
      if keys[0] in s.heads { HeadIsRecorded(s, keys[0]); }
    }
  }

  lemma StartPullSafe(cfg: Config, sys: System, keys: seq<Key>)
    requires SafeSystem(cfg, sys)
    ensures SafeSystem(cfg, ActStartPull(cfg, sys, keys))
  {
    hide Sound, NothingLost, TrackedSound, AllRecorded, HeadsOf;
    if ActStartPull(cfg, sys, keys).phase.Pulling? && sys.phase.Idle? { HeadsAreRecorded(cfg, sys.world.store, keys); }
  }

  lemma PullSafe(cfg: Config, sys: System, env: Env)
    requires SafeSystem(cfg, sys)
    ensures SafeSystem(cfg, ActPull(cfg, sys, env))
  {
    var p := sys.phase;
    hide Sound, NothingLost, TrackedSound, PullFile, Extends, StepSafe, Recorded;
    if p.Pulling? && p.heads != [] && p.seen.Some? {
      assert p.heads[0] in p.heads;
      PullFileSafe(cfg, env, sys.world, p.st, EMPTY_REPORT, p.heads[0], p.seen.value);
      StepSafeParts(cfg, sys, PullFile(cfg, env, sys.world, p.st, EMPTY_REPORT, p.heads[0], p.seen.value));
    }
  }

  /** A rebuilt state file is truthful. */
  lemma RebaseSound(cfg: Config, w: World, saved: SyncState, found: seq<string>)
    requires Sound(w.store) && RebaseState(cfg, w, saved, found).Some?
    ensures TrackedSound(cfg, w.store, RebaseState(cfg, w, saved, found).value)
  {
    hide Sound;
    var st := RebaseState(cfg, w, saved, found).value;
    forall f | f in st.files ensures Names(w.store, FileKey(cfg, f), st.files[f]) {
      assert f in LiveNames(w.store, cfg.brain);
      HeadIsRecorded(w.store, FileKey(cfg, f));
      HeadRevision(w.store, FileKey(cfg, f));
    }
  }

  /** Steps that only move the agent's own memory, or save it. */
  lemma QuietSafe(cfg: Config, sys: System, action: Action)
    requires SafeSystem(cfg, sys)
    requires action.EndReconcile? || action.FailScan? || action.EndScan? || action.ReadLocal? || action.PlanTombstones?
             || action.EndPush? || action.HashLocal? || action.EndPull? || action.Crash?
    ensures SafeSystem(cfg, Act(cfg, sys, action))
  {
    hide Sound, NothingLost, Names, Recorded, Reconcilable, Held, PlanDeletions;
  }

  lemma OutsideSafe(cfg: Config, sys: System, action: Action)
    requires SafeSystem(cfg, sys) && (action.EditLocal? || action.Hosted? || action.Rebase?)
    ensures SafeSystem(cfg, Act(cfg, sys, action))
  {
    hide Sound, Extends, TrackedSound, NothingLost, Step, MemorySound, RebaseState;
    match action
    case Hosted(op) =>
      StepSound(sys.world.store, op);
      SafeSurvives(cfg, sys.world, Step(sys.world.store, op), sys.saved);
      MemorySurvives(cfg, sys.world.store, Step(sys.world.store, op), sys.phase);
    case Rebase(found) =>
      if RebaseState(cfg, sys.world, sys.saved, found).Some? { RebaseSound(cfg, sys.world, sys.saved, found); }
    case EditLocal(_, _) =>
      EditSafe(cfg, sys, action);
  }

  lemma EditSafe(cfg: Config, sys: System, action: Action)
    requires SafeSystem(cfg, sys) && action.EditLocal?
    ensures SafeSystem(cfg, Act(cfg, sys, action))
  {
    hide Sound, TrackedSound, Justified, MemorySound;
  }

  /** Whatever happens next, the system stays safe. */
  lemma ActSafe(cfg: Config, sys: System, action: Action)
    requires SafeSystem(cfg, sys)
    ensures SafeSystem(cfg, Act(cfg, sys, action))
  {
    hide SafeSystem, ActStartPush, ActLook, ActInstall, ActPropose, ActTombstone, ActStartPull, ActPull;
    match action
    case StartPush => StartPushSafe(cfg, sys);
    case LookAtResolved => LookSafe(cfg, sys);
    case InstallResolved => InstallSafe(cfg, sys);
    case ProposeLocal(env) => ProposeSafe(cfg, sys, env);
    case TombstoneOne => TombstoneSafe(cfg, sys);
    case StartPull(keys) => StartPullSafe(cfg, sys, keys);
    case PullHead(env) => PullSafe(cfg, sys, env);
    case EditLocal(_, _) => OutsideSafe(cfg, sys, action);
    case Hosted(_) => OutsideSafe(cfg, sys, action);
    case Rebase(_) => OutsideSafe(cfg, sys, action);
    case _ => QuietSafe(cfg, sys, action);
  }

  /** A fresh agent over any store with a sound history and any local folder. */
  predicate Fresh(sys: System) {
    sys.world.displaced == [] && sys.saved == SyncState(map[], {}, map[]) && sys.phase.Idle? && sys.pushes == []
  }

  lemma {:induction false} RunSafe(cfg: Config, sys: System, actions: seq<Action>)
    requires SafeSystem(cfg, sys)
    ensures SafeSystem(cfg, RunSystem(cfg, sys, actions))
    decreases |actions|
  {
    hide SafeSystem, Act;
    if actions != [] {
      ActSafe(cfg, sys, actions[0]);
      RunSafe(cfg, Act(cfg, sys, actions[0]), actions[1..]);
    }
  }

  // ---------------------------------------------------------------- displaced is all that went

  /** What left the local folder between two states was put on the list of displaced texts. */
  ghost predicate Accounted(w: World, v: World) {
    && w.displaced <= v.displaced
    && forall f :: f in w.disk && DiskHash(v, f) != DiskHash(w, f) ==> Displaced(f, w.disk[f], f !in v.disk) in v.displaced
  }

  lemma MutateAccounted(w: World, f: string, content: Option<string>, expected: Option<Hash>)
    ensures Accounted(w, Mutate(w, f, content, expected).world)
  {
    var v := Mutate(w, f, content, expected).world;
    if f in w.disk && v != w {
      assert v.displaced[|v.displaced| - 1] == Displaced(f, w.disk[f], content.None?);
    }
  }

  lemma PassAccounted(cfg: Config, env: Env, w: World, st: SyncState, report: Report, head: Revision, seen: Option<Hash>)
    ensures Accounted(w, PullFile(cfg, env, w, st, report, head, seen).world)
  {
    var f := head.key.filename;
    MutateAccounted(w, f, None, seen);
    if Consistent(w.store, head) { MutateAccounted(w, f, Some(w.store.revisions[head.id].content), seen); }
    hide Mutate, RecordConflict, PullHold;
  }

  /** Only the user changes the disk without the change being accounted for. */
  lemma AgentAccounts(cfg: Config, sys: System, action: Action)
    requires !action.EditLocal?
    ensures Accounted(sys.world, Act(cfg, sys, action).world)
  {
    var p := sys.phase;
    if action.PullHead? && p.Pulling? && p.heads != [] && p.seen.Some? {
      PassAccounted(cfg, action.env, sys.world, p.st, EMPTY_REPORT, p.heads[0], p.seen.value);
    } else if action.InstallResolved? && p.Reconciling? && p.look.Some? {
      MutateAccounted(sys.world, p.look.value.conflict.input.key.filename, Some(p.look.value.revision.content),
                      p.look.value.conflict.input.localHash);
      hide Mutate;
    } else if !action.PullHead? && !action.InstallResolved? {
      hide Act;
      KeepsDisk(cfg, sys, action);
    }
  }

  lemma KeepsDisk(cfg: Config, sys: System, action: Action)
    requires !action.EditLocal? && !action.PullHead? && !action.InstallResolved?
    ensures Act(cfg, sys, action).world.disk == sys.world.disk
    ensures Act(cfg, sys, action).world.displaced == sys.world.displaced
  {
    hide PullFile, ReconcileWrite, RebaseState, Step, PlanDeletions, Propose, Delete, ReadBack, ReconcileLook;
  }

  /** No lost local text. Over any run of edits, hosted operations, crashes and agent steps, a text that one
      more step by anyone but the user takes off the disk is from then on the content of a live revision
      of that file, or was the local side of a conflict somebody resolved; and that step is never the removal
      of a structural marker. */
  lemma NoLostLocalText(cfg: Config, start: System, actions: seq<Action>, action: Action, later: seq<Action>, f: string)
    requires Sound(start.world.store) && Fresh(start) && !action.EditLocal?
    requires var sys := RunSystem(cfg, start, actions);
             f in sys.world.disk && DiskHash(Act(cfg, sys, action).world, f) != DiskHash(sys.world, f)
    ensures var sys := RunSystem(cfg, start, actions);
            var next := Act(cfg, sys, action);
            && Justified(cfg, RunSystem(cfg, next, later).world.store, Displaced(f, sys.world.disk[f], f !in next.world.disk))
            && (f !in next.world.disk ==> f != "00_loader.md" && f != "NOW.md")
  {
    var sys := RunSystem(cfg, start, actions);
    var next := Act(cfg, sys, action);
    var end := RunSystem(cfg, next, later);
    RunSafe(cfg, start, actions);
    ActSafe(cfg, sys, action);
    RunSafe(cfg, next, later);
    AgentAccounts(cfg, sys, action);
    hide Act, Sound, Justified, MemorySound;
    RunKeepsDisplaced(cfg, next, later);
    var d := Displaced(f, sys.world.disk[f], f !in next.world.disk);
    assert d in next.world.displaced;
    var i :| 0 <= i < |next.world.displaced| && next.world.displaced[i] == d;
    assert end.world.displaced[i] == d;
  }

  lemma {:induction false} RunKeepsDisplaced(cfg: Config, sys: System, actions: seq<Action>)
    ensures sys.world.displaced <= RunSystem(cfg, sys, actions).world.displaced
    decreases |actions|
  {
    hide Act;
    if actions != [] {
      if actions[0].EditLocal? { EditKeepsDisplaced(cfg, sys, actions[0]); } else { AgentAccounts(cfg, sys, actions[0]); }
      RunKeepsDisplaced(cfg, Act(cfg, sys, actions[0]), actions[1..]);
    }
  }

  lemma EditKeepsDisplaced(cfg: Config, sys: System, action: Action)
    requires action.EditLocal?
    ensures Act(cfg, sys, action).world.displaced == sys.world.displaced
  {
  }
}
