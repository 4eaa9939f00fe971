/** The agent of `src/sync/local-sync-agent.ts` with its loops and its state file, proved against
    `SyncModel`, which the safety and convergence results are about. */
module SyncAgent {
  import opened Wrappers
  import opened RevisionModel
  import opened RevisionStore
  import opened SyncModel
  import SyncConverges

  class LocalSyncAgent {
    const cfg: Config
    const store: FileRevisionStore
    var disk: map<string, string>
    var stateFile: SyncState
    /** Every text this agent has taken off the disk. */
    ghost var displaced: seq<Displaced>

    ghost function Now(): World
      reads this, store
    {
      World(disk, store.file, displaced)
    }

    constructor (cfg: Config, store: FileRevisionStore, disk: map<string, string>)
      ensures this.cfg == cfg && this.store == store && this.disk == disk
      ensures stateFile == SyncState(map[], {}, map[]) && displaced == []
    {
      this.cfg, this.store, this.disk, stateFile, displaced := cfg, store, disk, SyncState(map[], {}, map[]), [];
    }

    function HashOf(filename: string): (h: Option<Hash>)
      reads this
      ensures h == DiskHash(World(disk, store.file, []), filename)
      reads store
    {
      if filename in disk then Some(Live(disk[filename])) else None
    }

    /** `mutateLocalFile` */
    method MutateLocalFile(filename: string, content: Option<string>, expected: Option<Hash>) returns (ok: bool, current: Option<Hash>)
      modifies this`disk, this`displaced
      ensures Mutation(Now(), ok, current) == Mutate(old(Now()), filename, content, expected)
    {
      current := HashOf(filename);
      ok := current == expected;
      if !ok { return; }
      if filename in disk { displaced := displaced + [Displaced(filename, disk[filename], content.None?)]; }
      if content.Some? {
        disk := disk[filename := content.value];
      } else {
        disk := disk - {filename};
      }
    }

    /** `reconcileResolvedConflicts` */
    method ReconcileResolvedConflicts() returns (report: Report)
      modifies this
      ensures Pass(Now(), stateFile, report) == ReconcilePass(cfg, old(Now()), old(stateFile))
    {
      hide ResolvedConflicts, Mutate;
      var state := stateFile;
      report := EMPTY_REPORT;
      var resolutions := ResolvedConflicts(store.file.conflicts, cfg.brain);
      var changed := false;
      ghost var start := Now();
      for i := 0 to |resolutions|
        invariant ReconcileAll(cfg, start, stateFile, EMPTY_REPORT, resolutions) == ReconcileAll(cfg, Now(), state, report, resolutions[i..])
        invariant !changed ==> state == stateFile
        invariant stateFile == old(stateFile) && store.file == old(store.file)
      {
        var conflict := resolutions[i];
        var f := conflict.input.key.filename;
        ghost var before := Now();
        assert resolutions[i..][0] == conflict && resolutions[i..][1..] == resolutions[i + 1..];
        if conflict.input.localOrigin != LocalAgent || conflict.resolution.None? || conflict.input.key.filename !in state.files
           || conflict.input.localBase != Some(state.files[f].revision) { continue; }
        var key := conflict.input.key;
        if !IsLive(store.file, key) || store.file.heads[key].id != conflict.resolution.value { continue; }
        var localHash := HashOf(f);
        if localHash.None? || localHash != conflict.input.localHash { continue; }
        if conflict.resolution.value !in store.file.revisions || store.file.revisions[conflict.resolution.value].deleted { continue; }
        var revision := store.file.revisions[conflict.resolution.value];
        assert ReconcileLook(cfg, Now(), state, conflict) == Some(revision);
        var ok, current := MutateLocalFile(f, Some(revision.content), conflict.input.localHash);
        if !ok {
          report := report.(guards := report.guards + [LocalRecovery]);
          continue;
        }
        state := Track(state, f, revision.id, revision.hash);
        report := report.(pulled := report.pulled + [f]);
        changed := true;
      }
      assert resolutions[|resolutions|..] == [];
      if changed { stateFile := state; }
    }

    /** One changed file of the push loop; `threw` is the exception that is not a policy refusal. */
    method PushChanged(env: Env, state0: SyncState, report0: Report, f: string, content: string)
      returns (threw: bool, state: SyncState, report: Report)
      modifies store
      ensures PushFile(cfg, env, old(Now()), state0, report0, f, content) == (if threw then Aborted(Now()) else Pass(Now(), state, report))
    {
      hide Propose;
      threw, state, report := false, state0, report0;
      var localHash := Live(content);
      if f in state.files && state.files[f].localHash == localHash {
        state := Release(state, f);
        report := report.(same := report.same + [f]);
        return;
      }
      if env.deployment.Unavailable? { return true, state, report; }
      var fingerprint := PushPrint(localHash, Base(state, f), env.deployment.policy);
      if f in state.holds && state.holds[f].fingerprint == fingerprint {
        report := report.(held := report.held + [f]);
        return;
      }
      var result := store.ProposeRevision(env, PushProposal(cfg, state, f, content));
      if result.Threw? {
        state := state.(holds := state.holds[f := Hold(fingerprint, localHash, result.error)]);
        report := report.(held := report.held + [f]);
        return;
      }
      state := Release(state, f);
      if result.Conflicted? {
        report := report.(conflicts := report.conflicts + [result.conflict]);
        return;
      }
      var revision := result.revision;
      state := state.(files := state.files[f := Tracked(revision.id, revision.hash, localHash)]);
      if revision.context.Some? && revision.context.value.External? && revision.context.value.requestHash.Some? {
        var verified := IsLive(store.file, FileKey(cfg, f)) && store.file.heads[FileKey(cfg, f)].content == content;
        var ignored := store.SetWriteVerification(cfg.brain, revision.id, if verified then Verified else VerificationFailed);
      }
      if result.Accepted? {
        report := report.(pushed := report.pushed + [f]);
      } else {
        report := report.(same := report.same + [f]);
      }
    }

    /** The deletion loop: each confirmed file that is still tracked becomes a tombstone, or a conflict. */
    method ProposeDeletions(state0: SyncState, report0: Report, confirmed: seq<string>) returns (state: SyncState, report: Report)
      modifies store
      ensures DeleteAll(cfg, old(Now()), state0, report0, confirmed) == Pass(Now(), state, report)
    {
      hide Delete;
      state, report := state0, report0;
      for i := 0 to |confirmed|
        invariant DeleteAll(cfg, old(Now()), state0, report0, confirmed) == DeleteAll(cfg, Now(), state, report, confirmed[i..])
      {
        var filename := confirmed[i];
        assert confirmed[i..][0] == filename && confirmed[i..][1..] == confirmed[i + 1..];
        if filename in state.files {
          var result := store.ProposeDeletion(FileKey(cfg, filename), Some(state.files[filename].revision), LocalAgent, cfg.actor);
          if result.Conflicted? {
            report := report.(conflicts := report.conflicts + [result.conflict]);
          } else {
            state := Forget(state, filename);
            report := report.(deleted := report.deleted + [filename]);
          }
        }
      }
      assert confirmed[|confirmed|..] == [];
    }

    /** `inferGuardedDeletions`; `trackedNames` is the order of the tracked files' names. */
    method InferGuardedDeletions(state0: SyncState, report0: Report, trackedNames: seq<string>, scanned: set<string>, limits: Limits)
      returns (state: SyncState, report: Report)
      modifies store
      ensures var plan := PlanDeletions(state0, trackedNames, scanned, limits);
              var d := DeleteAll(cfg, old(Now()), state0,
                                       report0.(skipped := report0.skipped + plan.skipped, guards := report0.guards + plan.guards), plan.deletions);
              Now() == d.world && state == Remember(d.state, plan.remembered) && report == d.report
    {
      hide DeleteAll, Absent, Confirmed;
      state, report := state0, report0;
      ghost var plan := PlanDeletions(state0, trackedNames, scanned, limits);
      var candidates := Absent(trackedNames, scanned);
      if candidates == [] {
        state := state.(pending := {});
        assert Remember(state0, {}) == state;
        assert report0.(skipped := report0.skipped + [], guards := report0.guards + []) == report;
        NothingDeleted(cfg, Now(), state0, report);
        return;
      }
      var scanNonEmpty := scanned != {};
      var markersIntact := forall marker :: marker in MARKERS ==> marker !in SetOf(trackedNames) || marker in scanned;
      if !scanNonEmpty || !markersIntact {
        report := report.(skipped := report.skipped + candidates,
                          guards := report.guards + [if !scanNonEmpty then EmptyScan else MarkerMissing]);
        state := state.(pending := {});
        assert Remember(state0, {}) == state;
        NothingDeleted(cfg, Now(), state0, report);
        return;
      }
      var confirmed := Confirmed(candidates, state.pending);
      var pct := if |trackedNames| == 0 then 0.0 else |confirmed| as real / |trackedNames| as real * 100.0;
      if |confirmed| > 0 && (|confirmed| as real > limits.maxDeletes || pct > limits.maxPct) {
        report := report.(skipped := report.skipped + confirmed, guards := report.guards + [MassDelete]);
        NothingDeleted(cfg, Now(), state, report);
      } else {
        assert plan.deletions == confirmed && plan.guards == [] && plan.skipped == [];
        assert report0.(skipped := report0.skipped + plan.skipped, guards := report0.guards + plan.guards) == report;
        state, report := ProposeDeletions(state, report, confirmed);
      }
      state := state.(pending := set f | f in candidates && f in state.files);
    }

    /** `pushLocalChanges` */
    method PushLocalChanges(input: PushInput) returns (report: Option<Report>)
      modifies this, store
      ensures Ended(Now(), stateFile, report) == PushPass(cfg, input, old(Now()), old(stateFile))
    {
      hide ReconcilePass, PushFile, PlanDeletions, DeleteAll, Remember;
      var rep := ReconcileResolvedConflicts();
      var state := stateFile;
      if input.scan.ScanFailed? {
        stateFile := state.(pending := {});
        if !input.scan.io { return None; }
        return Some(rep.(guards := rep.guards + [IncompleteScan], skipped := input.names));
      }
      var filenames := input.scan.names;
      label Scanned:
      ghost var report0 := rep;
      for i := 0 to |filenames|
        invariant PushAll(cfg, input.env, old@Scanned(Now()), stateFile, report0, filenames)
               == PushAll(cfg, input.env, Now(), state, rep, filenames[i..])
        invariant stateFile == old@Scanned(stateFile)
      {
        var f := filenames[i];
        assert filenames[i..][0] == f && filenames[i..][1..] == filenames[i + 1..];
        if !cfg.safe(f) || f !in disk { return None; }
        var threw;
        threw, state, rep := PushChanged(input.env, state, rep, f, disk[f]);
        if threw { return None; }
      }
      assert filenames[|filenames|..] == [];
      state, rep := InferGuardedDeletions(state, rep, input.names, SetOf(filenames), input.limits);
      stateFile := state;
      return Some(rep);
    }

    /** `recordPullConflict` */
    method RecordPullConflict(state: SyncState, report0: Report, head: Revision, local: Option<Hash>) returns (report: Report)
      modifies store
      ensures Pass(Now(), state, report) == PullConflict(cfg, old(Now()), state, report0, head, local)
    {
      var f := head.key.filename;
      var conflict := store.RecordConflict(
        ConflictInput(FileKey(cfg, f), Base(state, f), Some(head.id), local, Some(head.hash), LocalAgent, Some(HostedMcp), cfg.actor, None));
      report := report0.(conflicts := report0.conflicts + [conflict]);
    }

    /** Why an unsynced edit is held back; reads the store only. */
    function HoldFor(env: Env, state: SyncState, head: Revision, localHash: Option<Hash>): (hold: Option<Hold>)
      reads this, store
      ensures hold == PullHold(cfg, env, World(disk, store.file, []), state, head, localHash)
    {
      PullHold(cfg, env, World(disk, store.file, []), state, head, localHash)
    }

    /** A hosted tombstone. */
    method PullDeleted(state0: SyncState, report0: Report, head: Revision, localHash: Option<Hash>) returns (state: SyncState, report: Report)
      modifies this`disk, this`displaced, store
      ensures Pass(Now(), state, report) == PullTombstone(cfg, old(Now()), state0, report0, head, localHash)
    {
      hide RevisionModel.RecordConflict;
      state, report := state0, report0;
      var f := head.key.filename;
      if f in MARKERS { return; }
      if localHash.None? { return Forget(state, f), report; }
      var clean := if f in state.files then localHash == Some(state.files[f].localHash) else false;
      if !clean {
        report := RecordPullConflict(state, report, head, localHash);
        return;
      }
      var removed, current := MutateLocalFile(f, None, localHash);
      if !removed {
        report := report.(guards := report.guards + [LocalRecovery]);
        report := RecordPullConflict(state, report, head, current);
        return;
      }
      state := Forget(state, f);
      report := report.(deleted := report.deleted + [f]);
    }

    /** A live hosted head. */
    method PullCurrent(state0: SyncState, report0: Report, head: Revision, localHash: Option<Hash>)
      returns (threw: bool, state: SyncState, report: Report)
      modifies this`disk, this`displaced, store
      ensures PullLive(cfg, old(Now()), state0, report0, head, localHash) == (if threw then Aborted(Now()) else Pass(Now(), state, report))
    {
      hide RevisionModel.RecordConflict;
      threw, state, report := false, state0, report0;
      var f := head.key.filename;
      if Base(state, f) == Some(head.id) {
        report := report.(same := report.same + [f]);
        return;
      }
      if localHash == Some(head.hash) {
        state := Track(state, f, head.id, head.hash);
        report := report.(same := report.same + [f]);
        return;
      }
      if (f in state.files && localHash != Some(state.files[f].localHash)) || (f !in state.files && localHash.Some?) {
        report := RecordPullConflict(state, report, head, localHash);
        return;
      }
      if !Consistent(store.file, head) { return true, state, report; }
      var guarded, current := MutateLocalFile(f, Some(store.file.revisions[head.id].content), localHash);
      if !guarded {
        report := report.(guards := report.guards + [LocalRecovery]);
        report := RecordPullConflict(state, report, head, current);
        return;
      }
      state := Track(state, f, head.id, head.hash);
      report := report.(pulled := report.pulled + [f]);
    }

    /** One turn of the pull loop. */
    method PullHosted(env: Env, state0: SyncState, report0: Report, head: Revision) returns (threw: bool, state: SyncState, report: Report)
      modifies this`disk, this`displaced, store
      ensures PullOne(cfg, env, old(Now()), state0, report0, head) == (if threw then Aborted(Now()) else Pass(Now(), state, report))
    {
      hide PullTombstone, PullLive, Admit;
      threw, state, report := false, state0, report0;
      var filename := head.key.filename;
      if IsSource(filename) { return false, state, report.(excluded := report.excluded + [filename]); }
      if !cfg.safe(filename) { return true, state, report; }
      var localHash := HashOf(filename);
      if filename in state.holds && !Clean(state, filename, localHash) {
        return false, state, report.(held := report.held + [filename]);
      }
      var hold := HoldFor(env, state, head, localHash);
      assert hold == PullHold(cfg, env, Now(), state, head, localHash);
      if hold.Some? {
        return false, state.(holds := state.holds[filename := hold.value]), report.(held := report.held + [filename]);
      }
      if head.deleted {
        state, report := PullDeleted(state, report, head, localHash);
      } else {
        threw, state, report := PullCurrent(state, report, head, localHash);
      }
    }

    /** `pullHostedChanges` */
    method PullHostedChanges(env: Env, keys: seq<Key>) returns (report: Option<Report>)
      modifies this, store
      ensures Ended(Now(), stateFile, report) == PullPass(cfg, env, keys, old(Now()), old(stateFile))
    {
      hide PullOne, HeadsOf;
      if env.deployment.Unavailable? { return None; }
      var state, rep := stateFile, EMPTY_REPORT;
      var heads := HeadsOf(store.file, keys);
      for i := 0 to |heads|
        invariant PullAll(cfg, env, old(Now()), old(stateFile), EMPTY_REPORT, heads) == PullAll(cfg, env, Now(), state, rep, heads[i..])
        invariant stateFile == old(stateFile)
      {
        assert heads[i..][0] == heads[i] && heads[i..][1..] == heads[i + 1..];
        var threw;
        threw, state, rep := PullHosted(env, state, rep, heads[i]);
        if threw { return None; }
      }
      assert heads[|heads|..] == [];
      stateFile := state;
      return Some(rep);
    }

    /** `syncOnce` */
    method SyncOnce(input: PushInput, keys: seq<Key>) returns (pushed: Option<Report>, pulled: Option<Report>)
      modifies this, store
      ensures SyncConverges.SyncOnce(cfg, input, keys, old(Now()), old(stateFile)).1 == Ended(Now(), stateFile, pulled)
      ensures SyncConverges.SyncOnce(cfg, input, keys, old(Now()), old(stateFile)).0.report == pushed
    {
      hide PushPass, PullPass;
      pushed := PushLocalChanges(input);
      if pushed.None? { return pushed, None; }
      pulled := PullHostedChanges(input.env, keys);
    }

    /** `rebaseState(true)` */
    method Rebase(filenames: seq<string>) returns (applied: bool)
      modifies this`stateFile
      ensures match RebaseState(cfg, Now(), old(stateFile), filenames)
              case Some(state) => applied && stateFile == state
              case None => !applied && stateFile == old(stateFile)
    {
      if AnyOpen(store.file.conflicts, cfg.brain) { return false; }
      var liveHeads := LiveNames(store.file, cfg.brain);
      if SetOf(filenames) != liveHeads { return false; }
      var nextFiles: map<string, Tracked> := map[];
      for i := 0 to |filenames|
        invariant forall f :: f in filenames[..i] ==> cfg.safe(f) && DiskHash(Now(), f) == Some(HeadHash(cfg, store.file, f))
        invariant nextFiles == map f | f in SetOf(filenames[..i]) :: AtHead(cfg, store.file, f)
      {
        var filename := filenames[i];
        if !cfg.safe(filename) || HashOf(filename) != Some(HeadHash(cfg, store.file, filename)) {
          assert filename in filenames;
          return false;
        }
        nextFiles := nextFiles[filename := AtHead(cfg, store.file, filename)];
        assert filenames[..i + 1] == filenames[..i] + [filename];
      }
      assert filenames[..|filenames|] == filenames;
      stateFile := stateFile.(files := nextFiles, pending := {});
      return true;
    }
  }

  lemma NothingDeleted(cfg: Config, w: World, st: SyncState, report: Report)
    ensures DeleteAll(cfg, w, st, report, []) == Pass(w, st, report)
  {
  }
}
