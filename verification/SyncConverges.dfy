/** Convergence: a quiet sync brings both replicas together, and syncing again then changes nothing. */
module SyncConverges {
  import opened Wrappers
  import opened RevisionModel
  import opened RevisionHistory
  import opened SyncModel
  import opened SyncSafety
  import SyncRuns
  import SyncDeletions

  // ---------------------------------------------------------------- one sync

  /** `syncOnce`: a push, then a pull of the heads the store then lists. */
  function SyncOnce(cfg: Config, input: PushInput, keys: seq<Key>, w: World, saved: SyncState): (Ended, Ended) {
    var push := PushPass(cfg, input, w, saved);
    (push, if push.report.None? then push else PullPass(cfg, input.env, keys, push.world, push.saved))
  }

  /** The scan saw exactly the local folder, the deletion pass went over every tracked name once, and every
      hosted file of the Brain was listed. */
  ghost predicate FullView(cfg: Config, input: PushInput, keys: seq<Key>, w: World, saved: SyncState) {
    var r := ReconcilePass(cfg, w, saved);
    && input.scan.Files? && SetOf(input.scan.names) == r.world.disk.Keys
    && (match PushAll(cfg, input.env, r.world, r.state, r.report, input.scan.names)
        case Aborted(_) => true
        case Pass(_, st, _) => SyncRuns.Distinct(input.names) && SetOf(input.names) == st.files.Keys)
    && ListsAll(cfg, keys, PushPass(cfg, input, w, saved).world.store)
  }

  ghost predicate ListsAll(cfg: Config, keys: seq<Key>, s: Store) {
    forall key :: key in keys <==> key in s.heads && key.brain == cfg.brain
  }

  /** Nothing for the operator to look at. */
  predicate Quiet(e: Ended) {
    && e.report.Some? && e.report.value.conflicts == [] && e.report.value.guards == [] && e.report.value.held == []
    && e.saved.pending == {}
  }

  predicate NoPolicy(env: Env) {
    env.deployment == Configured(None)
  }

  // ---------------------------------------------------------------- together

  /** The local files are exactly the tracked ones, each as it was last synced. */
  predicate AllClean(cfg: Config, w: World, st: SyncState) {
    && st.files.Keys == w.disk.Keys
    && forall f :: f in st.files ==> cfg.safe(f) && Clean(st, f, DiskHash(w, f))
  }

  /** One hosted vault file and its local copy agree. */
  predicate Matches(cfg: Config, w: World, st: SyncState, head: Revision) {
    var f := head.key.filename;
    if IsSource(f) then true
    else if head.deleted then cfg.safe(f) && (f in MARKERS || f !in st.files)
    else cfg.safe(f) && f in st.files && st.files[f] == Tracked(head.id, head.hash, head.hash) && f in w.disk && w.disk[f] == head.content
  }

  ghost predicate InSync(cfg: Config, w: World, st: SyncState) {
    && Safe(cfg, w, st) && AllClean(cfg, w, st)
    && forall key :: key in w.store.heads && key.brain == cfg.brain ==> Matches(cfg, w, st, w.store.heads[key])
  }

  // ---------------------------------------------------------------- reconciling

  lemma {:induction false} ReconcileAllSafe(cfg: Config, w: World, st: SyncState, report: Report, todo: seq<Conflict>)
    requires Safe(cfg, w, st) && SyncRuns.AllHeld(cfg, w.store, todo)
    ensures var p := ReconcileAll(cfg, w, st, report, todo); p.Pass? && Safe(cfg, p.world, p.state) && p.world.store == w.store
    decreases |todo|
  {
    if todo != [] {
      assert SyncRuns.Held(cfg, w.store, todo[0]);
      var look := ReconcileLook(cfg, w, st, todo[0]);
      if look.Some? {
        LookReconcilable(cfg, w, st, todo[0]);
        ReconcileWriteSafe(cfg, w, st, report, todo[0], look.value);
      }
      hide Sound, Extends, TrackedSound, NothingLost, Reconcilable, ReconcileLook;
      var p := ReconcileOne(cfg, w, st, report, todo[0]);
      assert p.Pass? && Safe(cfg, p.world, p.state) && p.world.store == w.store;
      hide ReconcileOne;
      ReconcileAllSafe(cfg, p.world, p.state, p.report, todo[1..]);
    }
  }

  lemma ReconcilePassSafe(cfg: Config, w: World, saved: SyncState)
    requires Safe(cfg, w, saved)
    ensures var p := ReconcilePass(cfg, w, saved); p.Pass? && Safe(cfg, p.world, p.state) && p.world.store == w.store
  {
    ResolvedAreRecorded(w.store.conflicts, cfg.brain);
    hide Sound, TrackedSound, NothingLost, ResolvedConflicts;
    ReconcileAllSafe(cfg, w, saved, EMPTY_REPORT, ResolvedConflicts(w.store.conflicts, cfg.brain));
  }

  // ---------------------------------------------------------------- a quiet push

  lemma PushOneSafe(cfg: Config, env: Env, w: World, st: SyncState, report: Report, f: string)
    requires Safe(cfg, w, st) && PushOne(cfg, env, w, st, report, f).Pass?
    ensures var p := PushOne(cfg, env, w, st, report, f); Safe(cfg, p.world, p.state)
  {
    PushFileSafe(cfg, env, w, st, report, f, w.disk[f]);
    hide Sound, Extends, TrackedSound, NothingLost, PushFile;
  }

  lemma PushOneReports(cfg: Config, env: Env, w: World, st: SyncState, report: Report, f: string)
    requires PushOne(cfg, env, w, st, report, f).Pass?
    ensures var p := PushOne(cfg, env, w, st, report, f);
            report.conflicts <= p.report.conflicts && report.held <= p.report.held && report.guards == p.report.guards
  {
    hide Propose, PushProposal, ReadBack;
  }

  lemma {:induction false} PushAllReports(cfg: Config, env: Env, w: World, st: SyncState, report: Report, todo: seq<string>)
    requires PushAll(cfg, env, w, st, report, todo).Pass?
    ensures var p := PushAll(cfg, env, w, st, report, todo);
            report.conflicts <= p.report.conflicts && report.held <= p.report.held && report.guards == p.report.guards
    decreases |todo|
  {
    hide PushOne;
    if todo != [] {
      var p := PushOne(cfg, env, w, st, report, todo[0]);
      PushOneReports(cfg, env, w, st, report, todo[0]);
      PushAllReports(cfg, env, p.world, p.state, p.report, todo[1..]);
    }
  }

  /** A file pushed without conflict or hold ends clean. */
  lemma PushOneQuiet(cfg: Config, env: Env, w: World, st: SyncState, report: Report, f: string)
    requires var p := PushOne(cfg, env, w, st, report, f); p.Pass? && p.report.conflicts == [] && p.report.held == []
    ensures var p := PushOne(cfg, env, w, st, report, f);
            && p.world.disk == w.disk && p.state.pending == st.pending
            && cfg.safe(f) && Clean(p.state, f, DiskHash(w, f))
            && p.state.files.Keys == st.files.Keys + {f}
            && forall g :: g != f && g in st.files ==> p.state.files[g] == st.files[g]
  {
    hide Propose, PushProposal, ReadBack;
  }

  lemma {:induction false} PushAllQuiet(cfg: Config, env: Env, w: World, st: SyncState, report: Report, todo: seq<string>)
    requires Safe(cfg, w, st)
    requires var p := PushAll(cfg, env, w, st, report, todo); p.Pass? && p.report.conflicts == [] && p.report.held == []
    ensures var p := PushAll(cfg, env, w, st, report, todo);
            && Safe(cfg, p.world, p.state) && p.world.disk == w.disk && p.state.pending == st.pending
            && p.state.files.Keys == st.files.Keys + SetOf(todo)
            && (forall f :: f in todo ==> cfg.safe(f) && Clean(p.state, f, DiskHash(w, f)))
            && (forall g :: g !in todo && g in st.files ==> p.state.files[g] == st.files[g])
    decreases |todo|
  {
    hide Safe, PushOne;
    if todo != [] {
      var p := PushOne(cfg, env, w, st, report, todo[0]);
      PushOneSafe(cfg, env, w, st, report, todo[0]);
      PushAllReports(cfg, env, p.world, p.state, p.report, todo[1..]);
      PushOneQuiet(cfg, env, w, st, report, todo[0]);
      PushAllQuiet(cfg, env, p.world, p.state, p.report, todo[1..]);
      var q := PushAll(cfg, env, p.world, p.state, p.report, todo[1..]);
      assert PushAll(cfg, env, w, st, report, todo) == q;
      hide PushAll, Clean;
      assert todo == [todo[0]] + todo[1..];
      assert SetOf(todo) == {todo[0]} + SetOf(todo[1..]);
      if todo[0] !in todo[1..] {
        SameEntriesClean(cfg, w, p.state, q.state, todo[0]);
      }
    }
  }

  lemma {:induction false} DeleteAllQuiet(cfg: Config, w: World, st: SyncState, report: Report, todo: seq<string>)
    requires Safe(cfg, w, st)
    ensures var p := DeleteAll(cfg, w, st, report, todo);
            && Safe(cfg, p.world, p.state) && p.world.disk == w.disk && p.state.pending == st.pending
            && p.report.guards == report.guards && p.report.held == report.held && p.report.skipped == report.skipped
            && (forall f :: f in p.state.files ==> f in st.files && p.state.files[f] == st.files[f])
            && (forall f :: f in st.files && f !in todo ==> f in p.state.files)
    decreases |todo|
  {
    hide Sound, TrackedSound, NothingLost, Extends, Delete;
    if todo != [] {
      var p := DeleteOne(cfg, w, st, report, todo[0]);
      DeleteOneSafe(cfg, w, st, report, todo[0]);
      SyncRuns.DeleteOnePasses(cfg, w, st, report, todo[0]);
      DeleteAllQuiet(cfg, p.world, p.state, p.report, todo[1..]);
    }
  }

  lemma SameEntriesClean(cfg: Config, w: World, a: SyncState, b: SyncState, f: string)
    requires Clean(a, f, DiskHash(w, f)) && f in a.files && f in b.files && a.files[f] == b.files[f]
    ensures Clean(b, f, DiskHash(w, f))
  {
  }

  /** After a quiet push the tracked files are exactly the local ones, all clean. */
  lemma QuietPushCleans(cfg: Config, input: PushInput, keys: seq<Key>, w: World, saved: SyncState)
    requires Safe(cfg, w, saved) && FullView(cfg, input, keys, w, saved) && Quiet(PushPass(cfg, input, w, saved))
    ensures var e := PushPass(cfg, input, w, saved); Safe(cfg, e.world, e.saved) && AllClean(cfg, e.world, e.saved)
  {
    var r := ReconcilePass(cfg, w, saved);
    ReconcilePassSafe(cfg, w, saved);
    hide Safe, ReconcilePass, PushAll, DeleteAll, ListsAll, PlanDeletions, ReconcileAll;
    CleansFrom(cfg, input, r);
  }

  /** The same, from the end of the reconcile pass. */
  lemma CleansFrom(cfg: Config, input: PushInput, r: Pass)
    requires r.Pass? && Safe(cfg, r.world, r.state) && input.scan.Files? && SetOf(input.scan.names) == r.world.disk.Keys
    requires var q := PushAll(cfg, input.env, r.world, r.state, r.report, input.scan.names);
             q.Pass? && SyncRuns.Distinct(input.names) && SetOf(input.names) == q.state.files.Keys
    requires Quiet(AfterPush(cfg, input, PushAll(cfg, input.env, r.world, r.state, r.report, input.scan.names)))
    ensures var e := AfterPush(cfg, input, PushAll(cfg, input.env, r.world, r.state, r.report, input.scan.names));
            Safe(cfg, e.world, e.saved) && AllClean(cfg, e.world, e.saved)
  {
    hide Safe, PushAll, DeleteAll, Clean, PlanDeletions;
    var filenames := input.scan.names;
    var q := PushAll(cfg, input.env, r.world, r.state, r.report, filenames);
    var plan := PlanDeletions(q.state, input.names, SetOf(filenames), input.limits);
    var report := q.report.(skipped := q.report.skipped + plan.skipped, guards := q.report.guards + plan.guards);
    var d := DeleteAll(cfg, q.world, q.state, report, plan.deletions);
    DeleteAllReports(cfg, q.world, q.state, report, plan.deletions);
    PushAllQuiet(cfg, input.env, r.world, r.state, r.report, filenames);
    DeleteAllQuiet(cfg, q.world, q.state, report, plan.deletions);
    QuietPlan(q.state, input.names, SetOf(filenames), input.limits);
    var e := AfterPush(cfg, input, q);
    assert e.world == d.world && e.saved == Remember(d.state, plan.remembered);
    SafeForgetsPending(cfg, d.world, d.state, e.saved);
    assert e.saved.pending == {};
    forall f | f in input.names && f !in SetOf(filenames) ensures f !in d.state.files {
      assert f in plan.remembered;
      assert f !in e.saved.pending;
    }
    forall f ensures f in e.saved.files <==> f in d.world.disk {
      if f in d.world.disk { assert f in SetOf(filenames); }
    }
    forall f | f in e.saved.files ensures cfg.safe(f) && Clean(e.saved, f, DiskHash(e.world, f)) {
      assert f in SetOf(filenames);
      SameEntriesClean(cfg, r.world, q.state, e.saved, f);
    }
  }

  lemma SafeForgetsPending(cfg: Config, w: World, a: SyncState, b: SyncState)
    requires Safe(cfg, w, a) && a.files == b.files
    ensures Safe(cfg, w, b)
  {
    hide Sound, NothingLost;
  }

  lemma {:induction false} DeleteAllReports(cfg: Config, w: World, st: SyncState, report: Report, todo: seq<string>)
    ensures var p := DeleteAll(cfg, w, st, report, todo);
            && p.report.guards == report.guards && p.report.held == report.held && report.conflicts <= p.report.conflicts
    decreases |todo|
  {
    hide Delete;
    if todo != [] {
      var p := DeleteOne(cfg, w, st, report, todo[0]);
      DeleteAllReports(cfg, p.world, p.state, p.report, todo[1..]);
    }
  }

  /** Without a guard, every missing file is remembered. */
  lemma QuietPlan(st: SyncState, names: seq<string>, scanned: set<string>, limits: Limits)
    requires SyncRuns.Distinct(names) && PlanDeletions(st, names, scanned, limits).guards == []
    ensures forall f :: f in names && f !in scanned ==> f in PlanDeletions(st, names, scanned, limits).remembered
    ensures forall f :: f in PlanDeletions(st, names, scanned, limits).deletions ==> f !in scanned
  {
    SyncDeletions.AbsentMeans(names, scanned);
    SyncDeletions.ConfirmedMeans(Absent(names, scanned), st.pending);
    hide Absent, Confirmed;
  }

  // ---------------------------------------------------------------- a quiet pull

  /** What a pull step that changed nothing but `f` keeps. */
  ghost predicate OnlyFile(w: World, st: SyncState, p: Pass, f: string) {
    && p.Pass? && p.world.store == w.store && p.state.pending == st.pending
    && forall g :: g != f ==> TrackedOf(p.state, g) == TrackedOf(st, g) && DiskHash(p.world, g) == DiskHash(w, g)
  }

  /** One file agreeing, the rest clean as before. */
  lemma StillClean(cfg: Config, w: World, st: SyncState, p: Pass, f: string)
    requires AllClean(cfg, w, st) && OnlyFile(w, st, p, f) && cfg.safe(f)
    requires if f in p.state.files then Clean(p.state, f, DiskHash(p.world, f)) else f !in p.world.disk
    ensures AllClean(cfg, p.world, p.state)
  {
    forall g ensures g in p.state.files <==> g in p.world.disk {
      if g != f { assert TrackedOf(p.state, g) == TrackedOf(st, g) && DiskHash(p.world, g) == DiskHash(w, g); }
    }
    forall g | g in p.state.files ensures cfg.safe(g) && Clean(p.state, g, DiskHash(p.world, g)) {
      if g != f { assert TrackedOf(p.state, g) == TrackedOf(st, g) && DiskHash(p.world, g) == DiskHash(w, g); }
    }
  }

  lemma TombstoneQuiet(cfg: Config, w: World, st: SyncState, report: Report, head: Revision)
    requires AllClean(cfg, w, st) && head.deleted && !IsSource(head.key.filename) && cfg.safe(head.key.filename)
    ensures var p := PullTombstone(cfg, w, st, report, head, DiskHash(w, head.key.filename));
            OnlyFile(w, st, p, head.key.filename) && AllClean(cfg, p.world, p.state) && Matches(cfg, p.world, p.state, head)
  {
    var f := head.key.filename;
    hide RecordConflict;
    var p := PullTombstone(cfg, w, st, report, head, DiskHash(w, f));
    assert f in st.files <==> f in w.disk;
    StillClean(cfg, w, st, p, f);
  }

  lemma LiveQuiet(cfg: Config, w: World, st: SyncState, report: Report, head: Revision)
    requires AllClean(cfg, w, st) && !head.deleted && !IsSource(head.key.filename) && cfg.safe(head.key.filename)
    requires head.key.brain == cfg.brain && Recorded(w.store, head) && head.hash == Live(head.content)
    requires head.key.filename in st.files ==> Names(w.store, head.key, st.files[head.key.filename])
    ensures var p := PullLive(cfg, w, st, report, head, DiskHash(w, head.key.filename));
            OnlyFile(w, st, p, head.key.filename) && AllClean(cfg, p.world, p.state) && Matches(cfg, p.world, p.state, head)
  {
    var f := head.key.filename;
    hide RecordConflict;
    var p := PullLive(cfg, w, st, report, head, DiskHash(w, f));
    assert f in st.files <==> f in w.disk;
    RecordedConsistent(w.store, head);
    StillClean(cfg, w, st, p, f);
  }

  /** One quiet turn of the pull brings its file together and leaves the others as they were. */
  lemma PullOneQuiet(cfg: Config, env: Env, w: World, st: SyncState, report: Report, head: Revision)
    requires Sound(w.store) && AllClean(cfg, w, st) && TrackedSound(cfg, w.store, st) && NoPolicy(env)
    requires head.key in w.store.heads && w.store.heads[head.key] == head && head.key.brain == cfg.brain
    requires PullOne(cfg, env, w, st, report, head).Pass? && PullOne(cfg, env, w, st, report, head).report.held == []
    ensures var p := PullOne(cfg, env, w, st, report, head);
            OnlyFile(w, st, p, head.key.filename) && AllClean(cfg, p.world, p.state) && Matches(cfg, p.world, p.state, head)
  {
    HeadRevision(w.store, head.key);
    HeadIsRecorded(w.store, head.key);
    var f := head.key.filename;
    assert head.key == FileKey(cfg, f);
    if f in st.files { assert Names(w.store, FileKey(cfg, f), st.files[f]); }
    hide Sound, TrackedSound, Names, Recorded, Matches;
    assert WellFormed(w.store, head);
    assert PullHold(cfg, env, w, st, head, DiskHash(w, f)).None?;
    hide PullHold;
    if IsSource(f) {
      MatchesSource(cfg, w, st, head);
      assert OnlyFile(w, st, PullOne(cfg, env, w, st, report, head), f);
    } else if head.deleted {
      TombstoneQuiet(cfg, w, st, report, head);
    } else {
      LiveQuiet(cfg, w, st, report, head);
    }
    hide PullTombstone, PullLive, AllClean, OnlyFile;
  }

  lemma MatchesSource(cfg: Config, w: World, st: SyncState, head: Revision)
    requires IsSource(head.key.filename)
    ensures Matches(cfg, w, st, head)
  {
  }

  lemma PullOneReports(cfg: Config, env: Env, w: World, st: SyncState, report: Report, head: Revision)
    requires PullOne(cfg, env, w, st, report, head).Pass?
    ensures report.held <= PullOne(cfg, env, w, st, report, head).report.held
  {
    hide PullHold, RecordConflict, Mutate, Consistent;
  }

  lemma {:induction false} PullAllReports(cfg: Config, env: Env, w: World, st: SyncState, report: Report, todo: seq<Revision>)
    requires PullAll(cfg, env, w, st, report, todo).Pass?
    ensures report.held <= PullAll(cfg, env, w, st, report, todo).report.held
    decreases |todo|
  {
    hide PullOne;
    if todo != [] {
      var p := PullOne(cfg, env, w, st, report, todo[0]);
      PullOneReports(cfg, env, w, st, report, todo[0]);
      PullAllReports(cfg, env, p.world, p.state, p.report, todo[1..]);
    }
  }

  lemma PullOneSafe(cfg: Config, env: Env, w: World, st: SyncState, report: Report, head: Revision)
    requires Safe(cfg, w, st) && head.key in w.store.heads && w.store.heads[head.key] == head && head.key.brain == cfg.brain
    requires PullOne(cfg, env, w, st, report, head).Pass?
    ensures var p := PullOne(cfg, env, w, st, report, head); Safe(cfg, p.world, p.state)
  {
    HeadIsRecorded(w.store, head.key);
    PullFileSafe(cfg, env, w, st, report, head, DiskHash(w, head.key.filename));
    hide Sound, Extends, TrackedSound, NothingLost, PullFile, Recorded;
  }

  /** Every listed revision is a head of the store. */
  ghost predicate AreHeads(cfg: Config, s: Store, todo: seq<Revision>) {
    forall r :: r in todo ==> r.key in s.heads && s.heads[r.key] == r && r.key.brain == cfg.brain
  }

  lemma MatchesKept(cfg: Config, w: World, st: SyncState, v: World, tt: SyncState, head: Revision)
    requires Matches(cfg, w, st, head)
    requires TrackedOf(tt, head.key.filename) == TrackedOf(st, head.key.filename) && DiskHash(v, head.key.filename) == DiskHash(w, head.key.filename)
    ensures Matches(cfg, v, tt, head)
  {
  }

  lemma {:induction false} PullAllQuiet(cfg: Config, env: Env, w: World, st: SyncState, report: Report, todo: seq<Revision>)
    requires Safe(cfg, w, st) && AllClean(cfg, w, st) && NoPolicy(env) && AreHeads(cfg, w.store, todo)
    requires PullAll(cfg, env, w, st, report, todo).Pass? && PullAll(cfg, env, w, st, report, todo).report.held == []
    ensures var p := PullAll(cfg, env, w, st, report, todo);
            && Safe(cfg, p.world, p.state) && AllClean(cfg, p.world, p.state) && p.world.store == w.store
            && (forall head :: head in todo ==> Matches(cfg, p.world, p.state, head))
            && (forall g :: (forall head :: head in todo ==> head.key.filename != g) ==>
                  TrackedOf(p.state, g) == TrackedOf(st, g) && DiskHash(p.world, g) == DiskHash(w, g))
    decreases |todo|
  {
    hide Safe, PullOne, Matches, AllClean, TrackedOf, DiskHash, OnlyFile;
    if todo != [] {
      var head := todo[0];
      assert head in todo;
      var p := PullOne(cfg, env, w, st, report, head);
      PullOneSafe(cfg, env, w, st, report, head);
      PullAllReports(cfg, env, p.world, p.state, p.report, todo[1..]);
      assert Sound(w.store) && TrackedSound(cfg, w.store, st) by { SafeParts(cfg, w, st); }
      PullOneQuiet(cfg, env, w, st, report, head);
      OnlyFileMeans(w, st, p, head.key.filename);
      assert AreHeads(cfg, p.world.store, todo[1..]);
      PullAllQuiet(cfg, env, p.world, p.state, p.report, todo[1..]);
      var q := PullAll(cfg, env, w, st, report, todo);
      assert q == PullAll(cfg, env, p.world, p.state, p.report, todo[1..]);
      hide PullAll;
      if forall other :: other in todo[1..] ==> other.key.filename != head.key.filename {
        MatchesKept(cfg, p.world, p.state, q.world, q.state, head);
      } else {
        var other :| other in todo[1..] && other.key.filename == head.key.filename;
        assert other.key == head.key && other == head;
      }
      assert todo == [head] + todo[1..];
      forall g | forall h :: h in todo ==> h.key.filename != g
        ensures TrackedOf(q.state, g) == TrackedOf(st, g) && DiskHash(q.world, g) == DiskHash(w, g)
      {
        assert forall h :: h in todo[1..] ==> h.key.filename != g;
      }
    }
  }

  lemma OnlyFileMeans(w: World, st: SyncState, p: Pass, f: string)
    requires OnlyFile(w, st, p, f)
    ensures p.Pass? && p.world.store == w.store
    ensures forall g :: g != f ==> TrackedOf(p.state, g) == TrackedOf(st, g) && DiskHash(p.world, g) == DiskHash(w, g)
  {
  }

  lemma SafeParts(cfg: Config, w: World, st: SyncState)
    requires Safe(cfg, w, st)
    ensures Sound(w.store) && TrackedSound(cfg, w.store, st)
  {
  }

  lemma {:induction false} HeadsOfAll(cfg: Config, s: Store, keys: seq<Key>)
    requires Sound(s) && forall key :: key in keys ==> key.brain == cfg.brain
    ensures AreHeads(cfg, s, HeadsOf(s, keys))
    ensures forall key :: key in keys && key in s.heads ==> s.heads[key] in HeadsOf(s, keys)
  {
    hide Sound;
    if keys != [] {
      HeadsOfAll(cfg, s, keys[1..]);
      assert keys == [keys[0]] + keys[1..];
      if keys[0] in s.heads { HeadIsRecorded(s, keys[0]); }
      forall key | key in keys && key in s.heads ensures s.heads[key] in HeadsOf(s, keys) {
        if key != keys[0] { assert key in keys[1..]; }
      }
    }
  }

  lemma QuietPullMatches(cfg: Config, env: Env, keys: seq<Key>, w: World, saved: SyncState)
    requires Safe(cfg, w, saved) && AllClean(cfg, w, saved) && NoPolicy(env) && ListsAll(cfg, keys, w.store)
    requires Quiet(PullPass(cfg, env, keys, w, saved))
    ensures var e := PullPass(cfg, env, keys, w, saved); InSync(cfg, e.world, e.saved) && e.world.store == w.store
  {
    SafeParts(cfg, w, saved);
    HeadsOfAll(cfg, w.store, keys);
    hide Sound, AllClean, Safe, PullAll, Matches, HeadsOf;
    PullAllQuiet(cfg, env, w, saved, EMPTY_REPORT, HeadsOf(w.store, keys));
  }

  /** Convergence. From any state the agent can be in, a sync under no policy, with nobody else acting, that
      reports no conflict, guard, hold or missing file leaves every live hosted vault file byte-equal on disk
      and tracked at its head. */
  lemma SyncConverges(cfg: Config, input: PushInput, keys: seq<Key>, w: World, saved: SyncState)
    requires Safe(cfg, w, saved) && NoPolicy(input.env) && FullView(cfg, input, keys, w, saved)
    requires Quiet(SyncOnce(cfg, input, keys, w, saved).0) && Quiet(SyncOnce(cfg, input, keys, w, saved).1)
    ensures var e := SyncOnce(cfg, input, keys, w, saved).1;
            && InSync(cfg, e.world, e.saved)
            && (forall key :: IsLive(e.world.store, key) && key.brain == cfg.brain && !IsSource(key.filename) ==>
                  && key.filename in e.world.disk && e.world.disk[key.filename] == e.world.store.heads[key].content
                  && Base(e.saved, key.filename) == Some(e.world.store.heads[key].id))
  {
    QuietPushCleans(cfg, input, keys, w, saved);
    hide Safe, AllClean, PushPass, PullPass;
    var push := PushPass(cfg, input, w, saved);
    QuietPullMatches(cfg, input.env, keys, push.world, push.saved);
    var e := PullPass(cfg, input.env, keys, push.world, push.saved);
    SafePartsOfSync(cfg, e.world, e.saved);
    forall key | IsLive(e.world.store, key) && key.brain == cfg.brain && !IsSource(key.filename)
      ensures key.filename in e.world.disk && e.world.disk[key.filename] == e.world.store.heads[key].content
      ensures Base(e.saved, key.filename) == Some(e.world.store.heads[key].id)
    {
      HeadIsRecorded(e.world.store, key);
    }
  }

  lemma SafePartsOfSync(cfg: Config, w: World, st: SyncState)
    requires InSync(cfg, w, st)
    ensures Sound(w.store) && TrackedSound(cfg, w.store, st)
  {
  }

  // ---------------------------------------------------------------- syncing again

  /** `safeMarkdownPath` refuses the reserved roots that live beside the vault. */
  ghost predicate VaultOnly(cfg: Config) {
    forall f :: IsSource(f) ==> !cfg.safe(f)
  }

  /** Neither replica nor what is tracked has changed. */
  predicate Same(w: World, st: SyncState, v: World, tt: SyncState) {
    v.disk == w.disk && v.store == w.store && tt.files == st.files
  }

  lemma SameInSync(cfg: Config, w: World, st: SyncState, v: World, tt: SyncState)
    requires InSync(cfg, w, st) && Same(w, st, v, tt) && NothingLost(cfg, v)
    ensures InSync(cfg, v, tt)
  {
    hide Sound, Names, NothingLost, IsSource;
    forall key | key in v.store.heads && key.brain == cfg.brain ensures Matches(cfg, v, tt, v.store.heads[key]) {
      assert Matches(cfg, w, st, w.store.heads[key]);
    }
  }

  /** A resolution can only be found again where it is already installed. */
  lemma InstalledAlready(cfg: Config, w: World, st: SyncState, c: Conflict)
    requires InSync(cfg, w, st) && VaultOnly(cfg) && c.input.key.brain == cfg.brain && ReconcileLook(cfg, w, st, c).Some?
    ensures var r, f := ReconcileLook(cfg, w, st, c).value, c.input.key.filename;
            && f in w.disk && w.disk[f] == r.content && f in st.files && st.files[f] == Tracked(r.id, r.hash, r.hash)
            && c.input.localHash == DiskHash(w, f)
  {
    HeadIsRecorded(w.store, c.input.key);
    hide Sound, TrackedSound, NothingLost, IsSource;
    var f := c.input.key.filename;
    assert f in st.files && cfg.safe(f) && !IsSource(f);
    assert Matches(cfg, w, st, w.store.heads[c.input.key]);
  }

  lemma InstallSame(w: World, st: SyncState, report: Report, c: Conflict, r: Revision)
    requires var f := c.input.key.filename;
             && f in w.disk && w.disk[f] == r.content && f in st.files && st.files[f] == Tracked(r.id, r.hash, r.hash)
             && c.input.localHash == DiskHash(w, f)
    ensures var p := ReconcileWrite(w, st, report, c, r); p.Pass? && Same(w, st, p.world, p.state)
  {
    var p := ReconcileWrite(w, st, report, c, r);
    assert p.world.disk == w.disk;
    assert p.state.files == st.files;
  }

  lemma ReconcileOneSame(cfg: Config, w: World, st: SyncState, report: Report, c: Conflict)
    requires InSync(cfg, w, st) && VaultOnly(cfg) && SyncRuns.Held(cfg, w.store, c)
    ensures var p := ReconcileOne(cfg, w, st, report, c); p.Pass? && Same(w, st, p.world, p.state) && InSync(cfg, p.world, p.state)
  {
    var look := ReconcileLook(cfg, w, st, c);
    if look.Some? {
      InstalledAlready(cfg, w, st, c);
      SafePartsOfSync(cfg, w, st);
      LookReconcilable(cfg, w, st, c);
      assert Safe(cfg, w, st);
      ReconcileWriteSafe(cfg, w, st, report, c, look.value);
      InstallSame(w, st, report, c, look.value);
      var p := ReconcileOne(cfg, w, st, report, c);
      assert p == ReconcileWrite(w, st, report, c, look.value);
      hide Sound, TrackedSound, NothingLost, Extends, Reconcilable, InSync, Same, ReconcileOne, ReconcileWrite, ReconcileLook, VaultOnly;
      SameInSync(cfg, w, st, p.world, p.state);
    }
  }

  lemma {:induction false} ReconcileAllSame(cfg: Config, w: World, st: SyncState, report: Report, todo: seq<Conflict>)
    requires InSync(cfg, w, st) && VaultOnly(cfg) && SyncRuns.AllHeld(cfg, w.store, todo)
    ensures var p := ReconcileAll(cfg, w, st, report, todo); Same(w, st, p.world, p.state) && InSync(cfg, p.world, p.state)
    decreases |todo|
  {
    hide InSync, VaultOnly, SyncRuns.Held, ReconcileOne;
    if todo != [] {
      assert SyncRuns.Held(cfg, w.store, todo[0]);
      ReconcileOneSame(cfg, w, st, report, todo[0]);
      var p := ReconcileOne(cfg, w, st, report, todo[0]);
      ReconcileAllSame(cfg, p.world, p.state, p.report, todo[1..]);
    }
  }

  lemma {:induction false} PushAllSame(cfg: Config, env: Env, w: World, st: SyncState, report: Report, todo: seq<string>)
    requires AllClean(cfg, w, st) && SetOf(todo) <= w.disk.Keys
    ensures var p := PushAll(cfg, env, w, st, report, todo); p.Pass? && p.world == w && p.state.files == st.files
    decreases |todo|
  {
    if todo != [] {
      assert todo[0] in SetOf(todo);
      assert PushOne(cfg, env, w, st, report, todo[0]) == Pass(w, Release(st, todo[0]), report.(same := report.same + [todo[0]]));
      hide PushOne;
      forall f | f in SetOf(todo[1..]) ensures f in w.disk { assert f in SetOf(todo); }
      PushAllSame(cfg, env, w, Release(st, todo[0]), report.(same := report.same + [todo[0]]), todo[1..]);
    }
  }

  lemma {:induction false} NothingAbsent(names: seq<string>, scanned: set<string>)
    requires forall f :: f in names ==> f in scanned
    ensures Absent(names, scanned) == []
  {
    if names != [] {
      assert names[0] in names;
      NothingAbsent(names[1..], scanned);
    }
  }

  lemma NothingToDelete(st: SyncState, names: seq<string>, scanned: set<string>, limits: Limits)
    requires SetOf(names) <= scanned
    ensures PlanDeletions(st, names, scanned, limits) == Plan([], {}, [], [])
  {
    forall f | f in names ensures f in scanned { assert f in SetOf(names); }
    NothingAbsent(names, scanned);
  }

  lemma PushPassSame(cfg: Config, input: PushInput, keys: seq<Key>, w: World, saved: SyncState)
    requires InSync(cfg, w, saved) && VaultOnly(cfg) && FullView(cfg, input, keys, w, saved)
    ensures var e := PushPass(cfg, input, w, saved); e.report.Some? && Same(w, saved, e.world, e.saved) && InSync(cfg, e.world, e.saved)
  {
    SafePartsOfSync(cfg, w, saved);
    ResolvedAreRecorded(w.store.conflicts, cfg.brain);
    hide Sound, TrackedSound, NothingLost, ResolvedConflicts, Matches, PlanDeletions, DiskHash, VaultOnly;
    ReconcileAllSame(cfg, w, saved, EMPTY_REPORT, ResolvedConflicts(w.store.conflicts, cfg.brain));
    var r := ReconcilePass(cfg, w, saved);
    PushAllSame(cfg, input.env, r.world, r.state, r.report, input.scan.names);
    var q := PushAll(cfg, input.env, r.world, r.state, r.report, input.scan.names);
    hide PushAll, ReconcileAll, ListsAll;
    NothingToDelete(q.state, input.names, SetOf(input.scan.names), input.limits);
    var e := PushPass(cfg, input, w, saved);
    assert e.world == q.world && e.saved.files == q.state.files;
    assert NothingLost(cfg, e.world);
    SameInSync(cfg, w, saved, e.world, e.saved);
  }

  lemma PullOneSame(cfg: Config, env: Env, w: World, st: SyncState, report: Report, head: Revision)
    requires AllClean(cfg, w, st) && Matches(cfg, w, st, head) && (IsSource(head.key.filename) || cfg.safe(head.key.filename))
    ensures var p := PullOne(cfg, env, w, st, report, head); p.Pass? && p.world == w && p.state.files == st.files && p.state.pending == st.pending
  {
    var f := head.key.filename;
    assert f in st.files <==> f in w.disk;
    if f in st.files { assert Clean(st, f, DiskHash(w, f)); }
    assert PullHold(cfg, env, w, st, head, DiskHash(w, f)).None?;
    hide PullHold, RecordConflict, IsSource;
    if f !in st.files { assert Forget(st, f).files == st.files; }
  }

  lemma {:induction false} PullAllSame(cfg: Config, env: Env, w: World, st: SyncState, report: Report, todo: seq<Revision>)
    requires AllClean(cfg, w, st) && forall head :: head in todo ==> Matches(cfg, w, st, head)
    ensures var p := PullAll(cfg, env, w, st, report, todo); p.Pass? && p.world == w && p.state.files == st.files
    decreases |todo|
  {
    hide PullOne;
    if todo != [] {
      assert Matches(cfg, w, st, todo[0]);
      PullOneSame(cfg, env, w, st, report, todo[0]);
      var p := PullOne(cfg, env, w, st, report, todo[0]);
      forall head | head in todo[1..] ensures Matches(cfg, p.world, p.state, head) { assert head in todo; }
      PullAllSame(cfg, env, p.world, p.state, p.report, todo[1..]);
    }
  }

  lemma PullPassSame(cfg: Config, env: Env, keys: seq<Key>, w: World, saved: SyncState)
    requires InSync(cfg, w, saved) && ListsAll(cfg, keys, w.store)
    ensures var e := PullPass(cfg, env, keys, w, saved); Same(w, saved, e.world, e.saved) && InSync(cfg, e.world, e.saved)
  {
    SafePartsOfSync(cfg, w, saved);
    HeadsOfAll(cfg, w.store, keys);
    hide Sound, TrackedSound, NothingLost, Matches, HeadsOf, PullAll;
    forall head | head in HeadsOf(w.store, keys) ensures Matches(cfg, w, saved, head) {
      assert head.key in w.store.heads;
    }
    PullAllSame(cfg, env, w, saved, EMPTY_REPORT, HeadsOf(w.store, keys));
    var e := PullPass(cfg, env, keys, w, saved);
    SameInSync(cfg, w, saved, e.world, e.saved);
  }

  /** Settling. Whatever the policy, syncing replicas that agree changes neither the disk, the store nor what
      is tracked, however often it is repeated. */
  lemma SyncSettles(cfg: Config, input: PushInput, keys: seq<Key>, w: World, saved: SyncState)
    requires InSync(cfg, w, saved) && VaultOnly(cfg) && FullView(cfg, input, keys, w, saved)
    ensures var e := SyncOnce(cfg, input, keys, w, saved).1; Same(w, saved, e.world, e.saved) && InSync(cfg, e.world, e.saved)
  {
    PushPassSame(cfg, input, keys, w, saved);
    hide InSync, PushPass, PullPass, VaultOnly;
    var push := PushPass(cfg, input, w, saved);
    PullPassSame(cfg, input.env, keys, push.world, push.saved);
  }

  /** Rebuilding the state file succeeds exactly when nothing is open and the two inventories are byte-equal. */
  lemma RebaseGuard(cfg: Config, w: World, saved: SyncState, found: seq<string>)
    requires Sound(w.store) && SetOf(found) == w.disk.Keys
    ensures RebaseState(cfg, w, saved, found).Some? <==>
              && !AnyOpen(w.store.conflicts, cfg.brain)
              && (forall f :: f in w.disk <==> IsLive(w.store, FileKey(cfg, f)))
              && (forall f :: f in w.disk ==> cfg.safe(f) && w.disk[f] == w.store.heads[FileKey(cfg, f)].content)
  {
    hide AnyOpen, Sound;
    forall f ensures f in LiveNames(w.store, cfg.brain) <==> IsLive(w.store, FileKey(cfg, f)) {
      if IsLive(w.store, FileKey(cfg, f)) { HeadIsRecorded(w.store, FileKey(cfg, f)); }
    }
    forall f | IsLive(w.store, FileKey(cfg, f)) ensures HeadHash(cfg, w.store, f) == Live(w.store.heads[FileKey(cfg, f)].content) {
      HeadRevision(w.store, FileKey(cfg, f));
    }
    forall f ensures f in found <==> f in w.disk { assert f in SetOf(found) <==> f in w.disk; }
    hide LiveNames;
    if (forall f :: f in w.disk <==> IsLive(w.store, FileKey(cfg, f))) {
      assert SetOf(found) == LiveNames(w.store, cfg.brain);
    }
  }

  predicate RebasedFile(cfg: Config, w: World, st: SyncState, f: string) {
    && f in st.files && f in w.disk && IsLive(w.store, FileKey(cfg, f)) && cfg.safe(f)
    && var head := w.store.heads[FileKey(cfg, f)];
    && w.disk[f] == head.content && head.hash == Live(head.content)
    && st.files[f] == Tracked(head.id, head.hash, head.hash)
  }

  lemma RebasesFile(cfg: Config, w: World, saved: SyncState, found: seq<string>, f: string)
    requires Sound(w.store) && SetOf(found) == w.disk.Keys && RebaseState(cfg, w, saved, found).Some? && f in w.disk
    ensures RebasedFile(cfg, w, RebaseState(cfg, w, saved, found).value, f)
  {
    var st := RebaseState(cfg, w, saved, found).value;
    assert f in SetOf(found);
    assert st.files[f] == AtHead(cfg, w.store, f);
    RebaseGuard(cfg, w, saved, found);
    hide AnyOpen, LiveNames, RebaseState, SetOf;
    HeadRevision(w.store, FileKey(cfg, f));
    hide Sound;
  }

  /** Rebuilding the state file leaves the replicas in step, whatever the old state file said. */
  lemma RebaseSettles(cfg: Config, w: World, saved: SyncState, found: seq<string>)
    requires Sound(w.store) && NothingLost(cfg, w) && SetOf(found) == w.disk.Keys
    requires forall key :: key in w.store.heads && key.brain == cfg.brain && !IsSource(key.filename) ==> cfg.safe(key.filename)
    requires RebaseState(cfg, w, saved, found).Some?
    ensures InSync(cfg, w, RebaseState(cfg, w, saved, found).value)
  {
    var st := RebaseState(cfg, w, saved, found).value;
    assert st.files.Keys == SetOf(found);
    RebaseGuard(cfg, w, saved, found);
    SyncRuns.RebaseSound(cfg, w, saved, found);
    hide Sound, TrackedSound, NothingLost, AnyOpen, LiveNames, IsSource, RebaseState, SetOf, RebasedFile, Matches;
    forall f | f in w.disk ensures RebasedFile(cfg, w, st, f) { RebasesFile(cfg, w, saved, found, f); }
    forall f | f in st.files ensures cfg.safe(f) && Clean(st, f, DiskHash(w, f)) { RebasedClean(cfg, w, st, f); }
    forall key | key in w.store.heads && key.brain == cfg.brain ensures Matches(cfg, w, st, w.store.heads[key]) {
      HeadRevision(w.store, key);
      RebasedMatches(cfg, w, st, key);
    }
  }

  lemma RebasedClean(cfg: Config, w: World, st: SyncState, f: string)
    requires RebasedFile(cfg, w, st, f)
    ensures cfg.safe(f) && Clean(st, f, DiskHash(w, f))
  {
  }

  lemma RebasedMatches(cfg: Config, w: World, st: SyncState, key: Key)
    requires key in w.store.heads && key.brain == cfg.brain && w.store.heads[key].key == key
    requires !IsSource(key.filename) ==> cfg.safe(key.filename)
    requires key.filename in st.files ==> RebasedFile(cfg, w, st, key.filename)
    requires IsLive(w.store, key) ==> key.filename in st.files
    ensures Matches(cfg, w, st, w.store.heads[key])
  {
    assert key == FileKey(cfg, key.filename);
    hide IsSource;
  }
}
