/** Guarded deletion over whole runs: what must have been seen, twice, before the agent tombstones a file. */
module SyncDeletions {
  import opened Wrappers
  import opened RevisionModel
  import opened SyncModel
  import opened SyncRuns

  // ---------------------------------------------------------------- one decision

  lemma {:induction false} AbsentMeans(names: seq<string>, scanned: set<string>)
    ensures forall f :: f in Absent(names, scanned) <==> f in names && f !in scanned
    ensures Distinct(names) ==> Distinct(Absent(names, scanned))
  {
    if names != [] {
      AbsentMeans(names[1..], scanned);
      assert Distinct(names) ==> Distinct(names[1..]);
      assert Distinct(names) ==> names[0] !in names[1..];
    }
  }

  lemma {:induction false} ConfirmedMeans(candidates: seq<string>, pending: set<string>)
    ensures forall f :: f in Confirmed(candidates, pending) <==> f in candidates && f in pending
    ensures Distinct(candidates) ==> Distinct(Confirmed(candidates, pending))
  {
    if candidates != [] {
      ConfirmedMeans(candidates[1..], pending);
      assert Distinct(candidates) ==> Distinct(candidates[1..]);
      assert Distinct(candidates) ==> candidates[0] !in candidates[1..];
    }
  }

  predicate WithinLimits(deletions: nat, tracked: nat, limits: Limits) {
    && deletions as real <= limits.maxDeletes
    && deletions as real * 100.0 <= limits.maxPct * tracked as real
  }

  lemma LimitsInCounts(deletions: nat, tracked: nat, limits: Limits)
    requires 0 < tracked
    ensures !OverThreshold(deletions, tracked, limits) <==> WithinLimits(deletions, tracked, limits)
  {
    var d, t := deletions as real, tracked as real;
    assert d / t * 100.0 == d * 100.0 / t;
    assert (d * 100.0 / t) * t == d * 100.0;
    if d / t * 100.0 <= limits.maxPct { assert (d * 100.0 / t) * t <= limits.maxPct * t; }
    if d / t * 100.0 > limits.maxPct { assert (d * 100.0 / t) * t > limits.maxPct * t; }
  }

  /** The scan shows files, and among them each of the two structural files that is tracked. */
  predicate Intact(tracked: set<string>, scanned: set<string>) {
    && scanned != {}
    && ("00_loader.md" in tracked ==> "00_loader.md" in scanned)
    && ("NOW.md" in tracked ==> "NOW.md" in scanned)
  }

  lemma HealthyMeansIntact(tracked: set<string>, scanned: set<string>)
    ensures Healthy(tracked, scanned) <==> Intact(tracked, scanned)
  {
    if Healthy(tracked, scanned) { assert "00_loader.md" in MARKERS && "NOW.md" in MARKERS; }
    if Intact(tracked, scanned) {
      forall m | m in MARKERS && m in tracked ensures m in scanned { assert m == "00_loader.md" || m == "NOW.md"; }
    }
  }

  function Twice(names: seq<string>, scanned: set<string>, pending: set<string>): set<string> {
    set f | f in names && f !in scanned && f in pending
  }

  lemma {:induction false} DistinctCount(names: seq<string>, members: set<string>)
    requires Distinct(names) && forall f :: f in names <==> f in members
    ensures |names| == |members|
    decreases |names|
  {
    if names == [] {
      assert members == {};
    } else {
      assert names[0] in names && names[0] !in names[1..];
      DistinctCount(names[1..], members - {names[0]});
    }
  }

  /** The guards, end to end. A plan deletes exactly the files missing twice, when the folder is intact and they stay
      within both limits, and otherwise none; it remembers exactly what an intact scan misses; and it names the guard
      that tripped, with the files spared. */
  lemma PlanIsGuarded(st: SyncState, names: seq<string>, scanned: set<string>, limits: Limits)
    requires Distinct(names)
    ensures var plan := PlanDeletions(st, names, scanned, limits);
            var twice := Twice(names, scanned, st.pending);
            var intact := Intact(SetOf(names), scanned);
            var missing := exists f :: f in names && f !in scanned;
            && Distinct(plan.deletions)
            && (forall f :: f in plan.deletions <==> f in twice && intact && WithinLimits(|twice|, |names|, limits))
            && (plan.deletions != [] ==> |plan.deletions| == |twice|)
            && (forall f :: f in plan.remembered <==> intact && f in names && f !in scanned)
            && plan.guards == (if !missing then []
                               else if !intact then [if scanned == {} then EmptyScan else MarkerMissing]
                               else if twice != {} && !WithinLimits(|twice|, |names|, limits) then [MassDelete]
                               else [])
            && (forall f :: f in plan.skipped <==> plan.guards != [] && f in names && f !in scanned && (intact ==> f in twice))
            && (forall f :: f in plan.deletions ==> f != "00_loader.md" && f != "NOW.md")
  {
    hide Absent, Confirmed, OverThreshold, WithinLimits, Healthy, Intact;
    var candidates := Absent(names, scanned);
    var confirmed := Confirmed(candidates, st.pending);
    var twice := Twice(names, scanned, st.pending);
    HealthyMeansIntact(SetOf(names), scanned);
    AbsentMeans(names, scanned);
    ConfirmedMeans(candidates, st.pending);
    assert forall f :: f in confirmed <==> f in twice;
    DistinctCount(confirmed, twice);
    NoMarkerMissing(names, scanned);
    if candidates == [] {
      forall f ensures !(f in names && f !in scanned) { assert f !in candidates; }
    } else {
      assert candidates[0] in candidates && candidates[0] in names && candidates[0] !in scanned;
      LimitsInCounts(|confirmed|, |names|, limits);
      if confirmed == [] { assert twice == {}; } else { assert confirmed[0] in twice; }
    }
  }

  lemma NoMarkerMissing(names: seq<string>, scanned: set<string>)
    ensures Intact(SetOf(names), scanned) ==>
              forall f :: f in names && f !in scanned ==> f != "00_loader.md" && f != "NOW.md"
  {
  }

  // ---------------------------------------------------------------- over runs

  function LastCompleted(pushes: seq<PushRecord>): Option<PushRecord> {
    if pushes == [] then None
    else if pushes[|pushes| - 1].completed then Some(pushes[|pushes| - 1])
    else LastCompleted(pushes[..|pushes| - 1])
  }

  /** Tracked files that a push with a healthy scan did not see. */
  function Missed(r: Option<PushRecord>): set<string> {
    if r.Some? && Intact(r.value.tracked, r.value.scanned) then r.value.tracked - r.value.scanned else {}
  }

  /** What a push attempted is a part, in order, of one guarded plan. */
  ghost predicate Decided(r: PushRecord, prior: Option<PushRecord>) {
    && r.attempted <= r.plan.deletions
    && Distinct(r.plan.deletions)
    && (r.plan.deletions != [] ==> Intact(r.tracked, r.scanned) && WithinLimits(|r.plan.deletions|, r.count, r.limits))
    && (forall f :: f in r.plan.deletions ==> f in Missed(Some(r)) && f in Missed(prior) && f != "00_loader.md" && f != "NOW.md")
    && r.plan.remembered <= Missed(Some(r))
  }

  ghost predicate AllDecided(pushes: seq<PushRecord>) {
    forall i :: 0 <= i < |pushes| ==> Decided(pushes[i], LastCompleted(pushes[..i]))
  }

  function PendingOf(phase: Phase, saved: SyncState): set<string> {
    if phase.Idle? then saved.pending else phase.st.pending
  }

  predicate DeletingMatches(phase: Phase, pushes: seq<PushRecord>) {
    phase.Deleting? ==>
      && pushes != []
      && var last := pushes[|pushes| - 1];
      && !last.completed && last.attempted + phase.confirmed == last.plan.deletions && phase.remembered == last.plan.remembered
  }

  ghost predicate Guarded(sys: System) {
    && AllDecided(sys.pushes)
    && sys.saved.pending <= Missed(LastCompleted(sys.pushes))
    && PendingOf(sys.phase, sys.saved) == sys.saved.pending
    && DeletingMatches(sys.phase, sys.pushes)
  }

  lemma LastCompletedSnoc(pushes: seq<PushRecord>, r: PushRecord)
    ensures LastCompleted(pushes + [r]) == if r.completed then Some(r) else LastCompleted(pushes)
  {
    assert (pushes + [r])[..|pushes|] == pushes;
  }

  lemma DecidedSnoc(pushes: seq<PushRecord>, r: PushRecord)
    requires AllDecided(pushes) && Decided(r, LastCompleted(pushes))
    ensures AllDecided(pushes + [r])
  {
    hide Decided;
    var all := pushes + [r];
    forall i | 0 <= i < |all| ensures Decided(all[i], LastCompleted(all[..i])) {
      assert all[..i] == pushes[..i];
      if i == |pushes| { assert pushes[..i] == pushes; }
    }
  }

  /** Revising the last record. */
  lemma DecidedRevise(pushes: seq<PushRecord>, r: PushRecord)
    requires AllDecided(pushes) && pushes != []
    requires Decided(r, LastCompleted(pushes[..|pushes| - 1]))
    ensures AllDecided(pushes[|pushes| - 1 := r])
    ensures LastCompleted(pushes[|pushes| - 1 := r]) == if r.completed then Some(r) else LastCompleted(pushes[..|pushes| - 1])
  {
    var n := |pushes| - 1;
    var before := pushes[..n];
    assert pushes[n := r] == before + [r];
    assert AllDecided(before) by {
      forall i | 0 <= i < n ensures Decided(before[i], LastCompleted(before[..i])) {
        assert before[..i] == pushes[..i];
      }
    }
    DecidedSnoc(before, r);
    LastCompletedSnoc(before, r);
  }

  lemma PlanGuarded(sys: System, names: seq<string>, limits: Limits)
    requires Guarded(sys)
    ensures Guarded(ActPlan(sys, names, limits))
  {
    var next := ActPlan(sys, names, limits);
    hide PlanDeletions, Intact, WithinLimits, AllDecided, LastCompleted, Distinct, Decided;
    if next != sys {
      PlanDecided(sys, names, limits);
      var r := next.pushes[|sys.pushes|];
      assert next.pushes == sys.pushes + [r];
      LastCompletedSnoc(sys.pushes, r);
      DecidedSnoc(sys.pushes, r);
    }
  }

  lemma PlanDecided(sys: System, names: seq<string>, limits: Limits)
    requires Guarded(sys) && ActPlan(sys, names, limits) != sys
    ensures var next := ActPlan(sys, names, limits);
            && |next.pushes| == |sys.pushes| + 1
            && var r := next.pushes[|sys.pushes|];
            Decided(r, LastCompleted(sys.pushes)) && !r.completed && r.attempted == []
  {
    hide PlanDeletions, Intact, WithinLimits, AllDecided, LastCompleted, Distinct;
    PlanIsGuarded(sys.phase.st, names, sys.phase.scanned, limits);
    var plan := PlanDeletions(sys.phase.st, names, sys.phase.scanned, limits);
    if plan.deletions != [] { assert plan.deletions[0] in plan.deletions; }
    assert [] <= plan.deletions;
  }

  lemma TombstoneGuarded(cfg: Config, sys: System)
    requires Guarded(sys)
    ensures Guarded(ActTombstone(cfg, sys))
  {
    var next := ActTombstone(cfg, sys);
    var p := sys.phase;
    if p.Deleting? && p.confirmed != [] && sys.pushes != [] {
      var n := |sys.pushes| - 1;
      var last := sys.pushes[n];
      var r := last.(attempted := last.attempted + [p.confirmed[0]]);
      hide DeleteOne, Intact, WithinLimits, LastCompleted, Decided, AllDecided, Missed;
      LastDecided(sys.pushes);
      AttemptDecided(last, LastCompleted(sys.pushes[..n]), p.confirmed);
      DecidedRevise(sys.pushes, r);
      assert next.pushes == sys.pushes[n := r];
      KeepsPending(cfg, sys.world, p.st, p.confirmed[0]);
      Onward(last.attempted, p.confirmed);
      Unfinished(sys.pushes);
    }
  }

  lemma LastDecided(pushes: seq<PushRecord>)
    requires AllDecided(pushes) && pushes != []
    ensures Decided(pushes[|pushes| - 1], LastCompleted(pushes[..|pushes| - 1]))
  {
    hide Decided, LastCompleted;
  }

  lemma Onward(done: seq<string>, todo: seq<string>)
    requires todo != []
    ensures (done + [todo[0]]) + todo[1..] == done + todo
  {
  }

  /** A push under way does not hide the last one completed. */
  lemma Unfinished(pushes: seq<PushRecord>)
    requires pushes != [] && !pushes[|pushes| - 1].completed
    ensures LastCompleted(pushes) == LastCompleted(pushes[..|pushes| - 1])
  {
  }

  /** Going on to the next planned file stays within the plan. */
  lemma AttemptDecided(last: PushRecord, prior: Option<PushRecord>, confirmed: seq<string>)
    requires Decided(last, prior) && confirmed != [] && last.attempted + confirmed == last.plan.deletions
    ensures Decided(last.(attempted := last.attempted + [confirmed[0]]), prior)
  {
    hide Intact, WithinLimits;
    var r := last.(attempted := last.attempted + [confirmed[0]]);
    assert r.attempted == last.plan.deletions[..|r.attempted|];
    assert Missed(Some(r)) == Missed(Some(last));
  }

  lemma KeepsPending(cfg: Config, w: World, st: SyncState, f: string)
    ensures DeleteOne(cfg, w, st, EMPTY_REPORT, f).Pass? && DeleteOne(cfg, w, st, EMPTY_REPORT, f).state.pending == st.pending
  {
    hide Delete;
  }

  lemma EndPushGuarded(sys: System)
    requires Guarded(sys)
    ensures Guarded(ActEndPush(sys))
  {
    var next := ActEndPush(sys);
    if next != sys {
      var n := |sys.pushes| - 1;
      var last := sys.pushes[n];
      var r := last.(completed := true);
      hide AllDecided, Intact, WithinLimits, LastCompleted, Decided, Missed;
      LastDecided(sys.pushes);
      CompletionDecided(last, LastCompleted(sys.pushes[..n]));
      DecidedRevise(sys.pushes, r);
      assert next.pushes == sys.pushes[n := r];
      assert next.saved.pending <= r.plan.remembered;
    }
  }

  lemma CompletionDecided(last: PushRecord, prior: Option<PushRecord>)
    requires Decided(last, prior)
    ensures Decided(last.(completed := true), prior) && last.plan.remembered <= Missed(Some(last.(completed := true)))
  {
    hide Intact, WithinLimits;
    assert Missed(Some(last)) == Missed(Some(last.(completed := true)));
  }

  lemma FailScanGuarded(sys: System)
    requires Guarded(sys)
    ensures Guarded(ActFailScan(sys))
  {
    if sys.phase.Scanning? {
      hide AllDecided;
      LastCompletedSnoc(sys.pushes, BLIND_PUSH);
      DecidedSnoc(sys.pushes, BLIND_PUSH);
    }
  }

  /** Steps that decide nothing about deletions. */
  lemma OtherGuarded(cfg: Config, sys: System, action: Action)
    requires Guarded(sys)
    requires !action.PlanTombstones? && !action.TombstoneOne? && !action.EndPush? && !action.FailScan?
    ensures Guarded(Act(cfg, sys, action))
  {
    hide AllDecided, LastCompleted, Missed, Step, Propose, ReadBack, RecordConflict, PullHold, Mutate, ReconcileLook, HeadsOf, ResolvedConflicts;
  }

  lemma {:induction false} RunGuarded(cfg: Config, sys: System, actions: seq<Action>)
    requires Guarded(sys)
    ensures Guarded(RunSystem(cfg, sys, actions))
    decreases |actions|
  {
    hide Guarded, ActPlan, ActTombstone, ActEndPush, ActFailScan;
    if actions != [] {
      match actions[0] {
        case PlanTombstones(names, limits) => PlanGuarded(sys, names, limits);
        case TombstoneOne => TombstoneGuarded(cfg, sys);
        case EndPush => EndPushGuarded(sys);
        case FailScan => FailScanGuarded(sys);
        case _ => OtherGuarded(cfg, sys, actions[0]);
      }
      RunGuarded(cfg, Act(cfg, sys, actions[0]), actions[1..]);
    }
  }

  // ---------------------------------------------------------------- nothing else tombstones

  ghost predicate StayLive(s: Store, t: Store) {
    forall key :: IsLive(s, key) ==> IsLive(t, key)
  }

  lemma ApplyFileKeepsLive(s: Store, env: Env, input: Proposal)
    ensures StayLive(s, ApplyFile(s, env, input).0)
  {
    hide Admit, FindOperation, OperationHash, RecordConflict;
    RecordConflictKeepsLive(s, Against(input.key, input.base, Live(input.content), input.origin, input.actor, Head(s, input.key)));
  }

  lemma RecordConflictKeepsLive(s: Store, input: ConflictInput)
    ensures RecordConflict(s, input).0.heads == s.heads
  {
    hide FindOpen;
  }

  lemma ProposeKeepsLive(s: Store, env: Env, input: Proposal)
    ensures StayLive(s, Propose(s, env, input).0)
  {
    hide ApplyFile, Receipt, IsLive;
    var (t, outcome, due) := ApplyFile(s, env, input);
    ApplyFileKeepsLive(s, env, input);
    ApplyFileKeepsLive(t, env, Receipt(t, env, input));
  }

  lemma PushKeepsLive(cfg: Config, env: Env, w: World, st: SyncState, f: string, content: string)
    ensures StayLive(w.store, PushFile(cfg, env, w, st, EMPTY_REPORT, f, content).world.store)
  {
    var input := PushProposal(cfg, st, f, content);
    ProposeKeepsLive(w.store, env, input);
    var (s, outcome) := Propose(w.store, env, input);
    hide Propose, PushProposal;
    if outcome.Accepted? || outcome.Unchanged? {
      assert ReadBack(cfg, s, f, content, outcome.revision).heads == s.heads;
    }
    hide ReadBack;
  }

  lemma PullKeepsLive(cfg: Config, env: Env, w: World, st: SyncState, head: Revision, seen: Option<Hash>)
    ensures PullFile(cfg, env, w, st, EMPTY_REPORT, head, seen).world.store.heads == w.store.heads
  {
    hide FindOpen, PullHold;
  }

  lemma DeleteTouchesOne(cfg: Config, w: World, st: SyncState, f: string, key: Key)
    requires key != FileKey(cfg, f)
    ensures IsLive(w.store, key) ==> IsLive(DeleteOne(cfg, w, st, EMPTY_REPORT, f).world.store, key)
  {
    hide FindOpen;
  }

  /** Among the agent's own steps, only a planned tombstone can end a live file, and only its own. */
  lemma OnlyPlannedTombstones(cfg: Config, sys: System, action: Action, key: Key)
    requires !action.Hosted? && IsLive(sys.world.store, key) && !IsLive(Act(cfg, sys, action).world.store, key)
    ensures action.TombstoneOne? && sys.phase.Deleting? && sys.phase.confirmed != [] && key == FileKey(cfg, sys.phase.confirmed[0])
  {
    var p := sys.phase;
    if action.ProposeLocal? && p.Pushing? && p.files != [] && p.content.Some? {
      PushKeepsLive(cfg, action.env, sys.world, p.st, p.files[0], p.content.value);
    } else if action.PullHead? && p.Pulling? && p.heads != [] && p.seen.Some? {
      PullKeepsLive(cfg, action.env, sys.world, p.st, p.heads[0], p.seen.value);
    } else if action.TombstoneOne? && p.Deleting? && p.confirmed != [] && key != FileKey(cfg, p.confirmed[0]) {
      DeleteTouchesOne(cfg, sys.world, p.st, p.confirmed[0], key);
    }
    hide PushFile, PullFile, DeleteOne, Mutate, RebaseState, HeadsOf, ResolvedConflicts, ReconcileLook, PlanDeletions;
  }

  /** Guarded deletion. Over any run, a step of the agent that ends a live hosted file belongs to a push whose
      healthy scan missed that tracked file, as did the healthy scan of the last push completed before it; the
      push planned no more deletions than both limits allow, each at most once; and it is never a structural
      marker. */
  lemma GuardedDeletion(cfg: Config, start: System, actions: seq<Action>, action: Action, key: Key)
    requires Fresh(start) && !action.Hosted?
    requires var sys := RunSystem(cfg, start, actions);
             IsLive(sys.world.store, key) && !IsLive(Act(cfg, sys, action).world.store, key)
    ensures var pushes := Act(cfg, RunSystem(cfg, start, actions), action).pushes;
            && pushes != []
            && var push, prior := pushes[|pushes| - 1], LastCompleted(pushes[..|pushes| - 1]);
            && key.brain == cfg.brain && key.filename != "00_loader.md" && key.filename != "NOW.md"
            && key.filename in push.attempted && push.attempted <= push.plan.deletions && Distinct(push.plan.deletions)
            && key.filename in push.tracked - push.scanned && Intact(push.tracked, push.scanned)
            && prior.Some? && key.filename in prior.value.tracked - prior.value.scanned && Intact(prior.value.tracked, prior.value.scanned)
            && WithinLimits(|push.plan.deletions|, push.count, push.limits)
  {
    hide Intact, WithinLimits, RunSystem, DeleteOne, LastCompleted, ActTombstone, Decided, Missed, Distinct, Guarded, AllDecided;
    var sys := RunSystem(cfg, start, actions);
    FreshGuarded(start);
    RunGuarded(cfg, start, actions);
    OnlyPlannedTombstones(cfg, sys, action, key);
    TombstoneGuarded(cfg, sys);
    GuardedDecided(sys);
    TombstoneAttempts(cfg, sys);
    var next := ActTombstone(cfg, sys);
    TombstoneActs(cfg, sys, action);
    GuardedDecided(next);
    LastDecided(next.pushes);
    DecidedFile(next.pushes[|next.pushes| - 1], LastCompleted(next.pushes[..|next.pushes| - 1]), key.filename);
  }

  lemma FreshGuarded(start: System)
    requires Fresh(start)
    ensures Guarded(start)
  {
  }

  lemma GuardedDecided(sys: System)
    requires Guarded(sys)
    ensures AllDecided(sys.pushes) && (sys.phase.Deleting? ==> sys.pushes != [])
  {
  }

  lemma TombstoneActs(cfg: Config, sys: System, action: Action)
    requires action.TombstoneOne?
    ensures Act(cfg, sys, action) == ActTombstone(cfg, sys)
  {
  }

  lemma TombstoneAttempts(cfg: Config, sys: System)
    requires sys.phase.Deleting? && sys.phase.confirmed != [] && sys.pushes != []
    ensures var next := ActTombstone(cfg, sys);
            next.pushes != [] && sys.phase.confirmed[0] in next.pushes[|next.pushes| - 1].attempted
  {
    hide DeleteOne;
  }

  lemma DecidedFile(push: PushRecord, prior: Option<PushRecord>, f: string)
    requires Decided(push, prior) && f in push.attempted
    ensures f in push.plan.deletions && f != "00_loader.md" && f != "NOW.md"
    ensures push.attempted <= push.plan.deletions && Distinct(push.plan.deletions)
    ensures f in push.tracked - push.scanned && Intact(push.tracked, push.scanned)
    ensures prior.Some? && f in prior.value.tracked - prior.value.scanned && Intact(prior.value.tracked, prior.value.scanned)
    ensures WithinLimits(|push.plan.deletions|, push.count, push.limits)
  {
    hide Intact, WithinLimits, Distinct;
  }
}
