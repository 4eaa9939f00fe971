/** When exactly the agent acts on one file, in terms of the two replicas and the state file alone. */
module SyncCases {
  import opened Wrappers
  import opened Text
  import opened WritePolicy
  import opened RevisionModel
  import opened RevisionHistory
  import opened SyncModel
  import opened SyncRuns
  import opened SyncDeletions

  // ---------------------------------------------------------------- resolutions

  /** The conflict was the agent's own, was resolved by the present head, and the local file is still tracked and
      still reads as it was recorded. */
  ghost predicate Installs(w: World, st: SyncState, c: Conflict) {
    var key := c.input.key;
    && c.input.localOrigin == LocalAgent
    && key in w.store.heads && !w.store.heads[key].deleted && c.resolution == Some(w.store.heads[key].id)
    && key.filename in st.files && c.input.localBase == Some(st.files[key.filename].revision)
    && key.filename in w.disk && c.input.localHash == Some(Live(w.disk[key.filename]))
  }

  /** The local file and its entry are what the head is. */
  ghost predicate AtHosted(w: World, st: SyncState, key: Key) {
    && key in w.store.heads
    && var head := w.store.heads[key];
    && key.filename in w.disk && w.disk[key.filename] == head.content
    && key.filename in st.files && st.files[key.filename] == Tracked(head.id, head.hash, head.hash)
  }

  /** One resolved conflict is installed exactly when it may be, with the head's own text, and otherwise nothing
      changes. */
  lemma ReconcileTurn(cfg: Config, w: World, st: SyncState, report: Report, c: Conflict)
    requires Sound(w.store)
    ensures var p := ReconcileOne(cfg, w, st, report, c);
            var f := c.input.key.filename;
            && p.Pass? && p.world.store == w.store
            && (Installs(w, st, c) ==>
                  && AtHosted(p.world, p.state, c.input.key)
                  && p.world.disk == w.disk[f := w.store.heads[c.input.key].content]
                  && p.state == st.(files := st.files[f := p.state.files[f]])
                  && p.report == report.(pulled := report.pulled + [f]))
            && (!Installs(w, st, c) ==> p == Pass(w, st, report))
  {
    var key := c.input.key;
    if key in w.store.heads { HeadRevision(w.store, key); }
    hide Sound;
  }

  lemma {:induction false} ResolvedMembers(conflicts: seq<Conflict>, brain: string)
    ensures forall c :: c in ResolvedConflicts(conflicts, brain) <==> c in conflicts && c.input.key.brain == brain && c.resolution.Some?
  {
    if conflicts != [] { ResolvedMembers(conflicts[1..], brain); }
  }

  /** Where the file stands while a list of conflicts is worked off: as it was, or at the head. */
  lemma {:induction false} ReconcileRest(cfg: Config, w: World, st: SyncState, report: Report, todo: seq<Conflict>, key: Key)
    requires Sound(w.store) && forall c :: c in todo ==> c.input.key.brain == key.brain
    ensures var p := ReconcileAll(cfg, w, st, report, todo);
            && p.world.store == w.store
            && (AtHosted(w, st, key) ==> AtHosted(p.world, p.state, key))
            && ((exists c :: c in todo && c.input.key == key && Installs(w, st, c)) ==> AtHosted(p.world, p.state, key))
            && ((forall c :: c in todo && c.input.key == key ==> !Installs(w, st, c)) ==>
                  && DiskHash(p.world, key.filename) == DiskHash(w, key.filename)
                  && TrackedOf(p.state, key.filename) == TrackedOf(st, key.filename))
    decreases |todo|
  {
    hide Sound, ReconcileOne, Installs, AtHosted;
    if todo != [] {
      var p := ReconcileOne(cfg, w, st, report, todo[0]);
      ReconcileTurn(cfg, w, st, report, todo[0]);
      ReconcileRest(cfg, p.world, p.state, p.report, todo[1..], key);
      assert todo[0] in todo;
      if todo[0].input.key != key && Installs(w, st, todo[0]) {
        forall c: Conflict | c.input.key == key ensures Installs(p.world, p.state, c) <==> Installs(w, st, c) {
          InstallsAlike(w, st, p.world, p.state, c);
        }
        AtHostedAlike(w, st, p.world, p.state, key);
      }
    }
  }

  lemma InstallsAlike(w: World, st: SyncState, v: World, su: SyncState, c: Conflict)
    requires v.store == w.store && DiskHash(v, c.input.key.filename) == DiskHash(w, c.input.key.filename)
    requires TrackedOf(su, c.input.key.filename) == TrackedOf(st, c.input.key.filename)
    ensures Installs(v, su, c) <==> Installs(w, st, c)
  {
  }

  lemma AtHostedAlike(w: World, st: SyncState, v: World, su: SyncState, key: Key)
    requires v.store == w.store && DiskHash(v, key.filename) == DiskHash(w, key.filename)
    requires TrackedOf(su, key.filename) == TrackedOf(st, key.filename)
    ensures AtHosted(v, su, key) <==> AtHosted(w, st, key)
  {
  }

  /** A whole reconciliation brings a file to its head exactly for the sake of a resolved conflict that may be
      installed when the pass begins; without one it touches neither the file nor its entry. */
  lemma ReconcileInstalls(cfg: Config, w: World, saved: SyncState, f: string)
    requires Sound(w.store)
    ensures var p := ReconcilePass(cfg, w, saved);
            var key := Key(cfg.brain, f);
            && p.Pass? && p.world.store == w.store
            && (if exists c :: c in w.store.conflicts && c.input.key == key && c.resolution.Some? && Installs(w, saved, c)
                then AtHosted(p.world, p.state, key)
                else
                  && DiskHash(p.world, f) == DiskHash(w, f)
                  && TrackedOf(p.state, f) == TrackedOf(saved, f))
  {
    hide Sound, Installs, AtHosted;
    ResolvedMembers(w.store.conflicts, cfg.brain);
    ReconcileRest(cfg, w, saved, EMPTY_REPORT, ResolvedConflicts(w.store.conflicts, cfg.brain), Key(cfg.brain, f));
  }

  // ---------------------------------------------------------------- one file of a push

  /** The local text is what was last synced. */
  ghost predicate Synced(w: World, st: SyncState, f: string) {
    f in w.disk && f in st.files && st.files[f].localHash == Live(w.disk[f])
  }

  /** The text was refused before, on the same base and under the same policy. */
  ghost predicate HeldAlready(st: SyncState, f: string, content: string, base: Option<nat>, policy: Option<Policy>) {
    f in st.holds && st.holds[f].fingerprint == PushPrint(Live(content), base, policy)
  }

  /** One file of a push, without a policy that could refuse it. A synced file is left alone. Any other is published
      exactly when the hosted file has not moved since it was last synced, or already holds the text, or is
      deleted while the local file is a new one; then the head holds the text and is what the file is tracked
      at. Otherwise the hosted files and the entry stay, and the difference is on record as a conflict. */
  lemma PushTurn(cfg: Config, env: Env, w: World, st: SyncState, report: Report, f: string)
    requires Sound(w.store) && env.deployment == Configured(None) && cfg.safe(f) && f in w.disk
    requires var base := if f in st.files then Some(st.files[f].revision) else None;
             !HeldAlready(st, f, w.disk[f], base, None)
    ensures var p := PushOne(cfg, env, w, st, report, f);
            var key := Key(cfg.brain, f);
            var base := if f in st.files then Some(st.files[f].revision) else None;
            && p.Pass? && p.world.disk == w.disk && p.state.pending == st.pending
            && (Synced(w, st, f) ==> p.world == w && p.state.files == st.files && f !in p.state.holds)
            && (!Synced(w, st, f) ==>
                  if || (key in w.store.heads && base == Some(w.store.heads[key].id))
                     || (key !in w.store.heads && base.None?)
                     || (key in w.store.heads && !w.store.heads[key].deleted && w.store.heads[key].content == w.disk[f])
                     || (key in w.store.heads && w.store.heads[key].deleted && base.None?)
                  then
                    && key in p.world.store.heads && !p.world.store.heads[key].deleted && p.world.store.heads[key].content == w.disk[f]
                    && p.state.files == st.files[f := Tracked(p.world.store.heads[key].id, Live(w.disk[f]), Live(w.disk[f]))]
                    && p.world.store.heads == w.store.heads[key := p.world.store.heads[key]]
                  else
                    && p.world.store.heads == w.store.heads && p.state.files == st.files
                    && exists c :: c in p.world.store.conflicts && c.resolution.None? && c.input.key == key
                                   && c.input.localBase == base && c.input.localHash == Some(Live(w.disk[f]))
                                   && c.input.remoteHead == HeadId(w.store, key))
  {
    hide Sound, Propose, RecordConflict, Against, Commit, PushFile, Extends;
    if !Synced(w, st, f) {
      var input := PushProposal(cfg, st, f, w.disk[f]);
      PlainOutcome(w.store, env, input);
      PushUnsynced(cfg, env, w, st, report, f);
      var (t, outcome) := Propose(w.store, env, input);
      var current := Head(w.store, input.key);
      AgainstWhat(input, current);
      if outcome.Accepted? { CommitHeads(w.store, outcome.revision); }
    } else {
      PushSynced(cfg, env, w, st, report, f);
    }
  }

  lemma CommitHeads(s: Store, r: Revision)
    ensures Commit(s, r).heads == s.heads[r.key := r]
  {
  }

  lemma AgainstWhat(input: Proposal, current: Option<Revision>)
    ensures var c := Against(input.key, input.base, Live(input.content), input.origin, input.actor, current);
            && c.key == input.key && c.localBase == input.base && c.localHash == Some(Live(input.content))
            && c.remoteHead == (if current.Some? then Some(current.value.id) else None)
  {
  }

  lemma PushSynced(cfg: Config, env: Env, w: World, st: SyncState, report: Report, f: string)
    requires cfg.safe(f) && Synced(w, st, f)
    ensures PushOne(cfg, env, w, st, report, f) == Pass(w, st.(holds := st.holds - {f}), report.(same := report.same + [f]))
  {
  }

  /** What a push makes of each answer. */
  lemma PushUnsynced(cfg: Config, env: Env, w: World, st: SyncState, report: Report, f: string)
    requires env.deployment == Configured(None) && cfg.safe(f) && f in w.disk && !Synced(w, st, f)
    requires !HeldAlready(st, f, w.disk[f], if f in st.files then Some(st.files[f].revision) else None, None)
    ensures var input := Proposal(Key(cfg.brain, f), if f in st.files then Some(st.files[f].revision) else None, w.disk[f],
                                  LocalAgent, cfg.actor, None);
            var p := PushOne(cfg, env, w, st, report, f);
            var (t, outcome) := Propose(w.store, env, input);
            && input == PushProposal(cfg, st, f, w.disk[f])
            && p.Pass? && p.world.disk == w.disk && p.state.pending == st.pending
            && p.world.store.heads == t.heads && p.world.store.conflicts == t.conflicts
            && p.state.files == (if outcome.Accepted? || outcome.Unchanged?
                                 then st.files[f := Tracked(outcome.revision.id, outcome.revision.hash, Live(w.disk[f]))] else st.files)
  {
    hide Propose;
  }

  /** A proposal without a context or a policy. */
  lemma PlainOutcome(s: Store, env: Env, input: Proposal)
    requires Sound(s) && env.deployment == Configured(None) && input.context.None?
    ensures var (t, outcome) := Propose(s, env, input);
            var current := Head(s, input.key);
            if current.Some? && !current.value.deleted && current.value.content == input.content then
              t == s && outcome == Unchanged(current.value) && current.value.hash == Live(input.content)
            else if input.base == HeadId(s, input.key) || (input.base.None? && current.Some? && current.value.deleted) then
              && outcome.Accepted? && t == Commit(s, outcome.revision) && outcome.revision.key == input.key
              && !outcome.revision.deleted && outcome.revision.content == input.content && outcome.revision.hash == Live(input.content)
              && outcome.revision.context.None? && outcome.revision.parent == HeadId(s, input.key)
            else
              && outcome.Conflicted? && t.heads == s.heads && outcome.conflict in t.conflicts && outcome.conflict.resolution.None?
              && outcome.conflict.input == Against(input.key, input.base, Live(input.content), input.origin, input.actor, current)
  {
    if input.key in s.heads { HeadRevision(s, input.key); }
    var current := Head(s, input.key);
    RecordConflictSound(s, Against(input.key, input.base, Live(input.content), input.origin, input.actor, current));
    hide Sound, RecordConflict, CheckAllEvidence, FindOperation, IsLogPath;
  }

  /** A text that was refused is not proposed again while neither it nor the base nor the policy has changed, and
      is proposed again as soon as one of them has. */
  lemma PushHeld(cfg: Config, env: Env, w: World, st: SyncState, report: Report, f: string)
    requires env.deployment.Configured? && cfg.safe(f) && f in w.disk && !Synced(w, st, f)
    ensures var base := if f in st.files then Some(st.files[f].revision) else None;
            var (t, outcome) := Propose(w.store, env, Proposal(Key(cfg.brain, f), base, w.disk[f], LocalAgent, cfg.actor, None));
            var p := PushOne(cfg, env, w, st, report, f);
            && (HeldAlready(st, f, w.disk[f], base, env.deployment.policy) ==> p == Pass(w, st, report.(held := report.held + [f])))
            && (!HeldAlready(st, f, w.disk[f], base, env.deployment.policy) && outcome.Threw? ==>
                  && p.Pass? && p.world == w.(store := t) && p.state.files == st.files && p.report.held == report.held + [f]
                  && HeldAlready(p.state, f, w.disk[f], base, env.deployment.policy))
            && (!HeldAlready(st, f, w.disk[f], base, env.deployment.policy) && !outcome.Threw? ==>
                  p.Pass? && p.state.holds == st.holds - {f} && p.report.held == report.held)
  {
    hide Propose, ReadBack;
    var input := PushProposal(cfg, st, f, w.disk[f]);
    match Propose(w.store, env, input).1
    case Threw(_) =>
    case Conflicted(_, _) =>
    case Accepted(_) =>
    case Unchanged(_) =>
  }

  // ---------------------------------------------------------------- one confirmed deletion

  /** The hosted file is deleted exactly when its head is the revision the file was tracked at. The file is then
      forgotten, as it is when others have deleted it; otherwise the hosted files stay and there is a conflict. */
  lemma DeleteTurn(cfg: Config, w: World, st: SyncState, report: Report, f: string)
    requires Sound(w.store) && f in st.files
    ensures var p := DeleteOne(cfg, w, st, report, f);
            var key := Key(cfg.brain, f);
            && p.Pass? && p.world.disk == w.disk
            && if key in w.store.heads && !w.store.heads[key].deleted && w.store.heads[key].id == st.files[f].revision then
                 && key in p.world.store.heads && p.world.store.heads[key].deleted && p.world.store.heads[key].parent == Some(st.files[f].revision)
                 && p.world.store.heads == w.store.heads[key := p.world.store.heads[key]]
                 && p.state == st.(files := st.files - {f}) && p.report.deleted == report.deleted + [f]
               else if key in w.store.heads && w.store.heads[key].deleted then
                 p.world == w && p.state == st.(files := st.files - {f}) && p.report.deleted == report.deleted + [f]
               else
                 && p.world.store.heads == w.store.heads && p.state == st && p.report.deleted == report.deleted
                 && exists c :: c in p.world.store.conflicts && c.resolution.None? && c.input.key == key
                                && c.input.localBase == Some(st.files[f].revision) && c.input.localHash == Some(Tombstone)
                                && c.input.remoteHead == HeadId(w.store, key)
  {
    hide Sound, RecordConflict, Extends;
    var key := FileKey(cfg, f);
    RecordConflictSound(w.store, Against(key, Base(st, f), Tombstone, LocalAgent, cfg.actor, Head(w.store, key)));
  }

  /** The hosted file is as it was last synced, or deleted already. */
  ghost predicate Deletable(cfg: Config, w: World, st: SyncState, f: string) {
    var head := Head(w.store, FileKey(cfg, f));
    head.Some? && (head.value.deleted || Base(st, f) == Some(head.value.id))
  }

  /** How the hosted file and the entry of one name stand before and after. */
  ghost predicate AfterDeletion(cfg: Config, w: World, st: SyncState, v: World, su: SyncState, f: string, due: bool) {
    if due && Deletable(cfg, w, st, f) then
      TrackedOf(su, f).None? && Head(v.store, FileKey(cfg, f)).Some? && Head(v.store, FileKey(cfg, f)).value.deleted
    else TrackedOf(su, f) == TrackedOf(st, f) && Head(v.store, FileKey(cfg, f)) == Head(w.store, FileKey(cfg, f))
  }

  lemma DeletionTurn(cfg: Config, w: World, st: SyncState, report: Report, todo: string, f: string)
    requires Sound(w.store) && todo in st.files
    ensures var p := DeleteOne(cfg, w, st, report, todo);
            p.Pass? && Sound(p.world.store) && p.world.disk == w.disk && AfterDeletion(cfg, w, st, p.world, p.state, f, f == todo)
  {
    hide Sound, DeleteOne;
    DeleteTurn(cfg, w, st, report, todo);
    DeletionSound(cfg, w, st, report, todo);
  }

  lemma DeletionSound(cfg: Config, w: World, st: SyncState, report: Report, f: string)
    requires Sound(w.store)
    ensures var p := DeleteOne(cfg, w, st, report, f); p.Pass? && Sound(p.world.store)
  {
    hide Sound, Delete, Extends;
    DeleteSound(w.store, FileKey(cfg, f), Base(st, f), LocalAgent, cfg.actor);
  }

  /** The whole of the planned deletions: each planned file that can be is deleted and forgotten, and every other
      file, planned or not, keeps its hosted head and its entry. */
  lemma {:induction false} DeletesExactly(cfg: Config, w: World, st: SyncState, report: Report, todo: seq<string>, f: string)
    requires Sound(w.store) && Distinct(todo) && forall g :: g in todo ==> g in st.files
    ensures var d := DeleteAll(cfg, w, st, report, todo);
            d.Pass? && d.world.disk == w.disk && AfterDeletion(cfg, w, st, d.world, d.state, f, f in todo)
    decreases |todo|
  {
    hide Sound, DeleteOne, AfterDeletion;
    if todo == [] {
      NothingDue(cfg, w, st, f);
    } else {
      var p := DeleteOne(cfg, w, st, report, todo[0]);
      DeletionTurn(cfg, w, st, report, todo[0], f);
      forall g | g in todo[1..] ensures g in p.state.files {
        DeletionTurn(cfg, w, st, report, todo[0], g);
        StillTracked(cfg, w, st, p.world, p.state, g);
      }
      DeletesExactly(cfg, p.world, p.state, p.report, todo[1..], f);
      var d := DeleteAll(cfg, p.world, p.state, p.report, todo[1..]);
      AfterBoth(cfg, w, st, p.world, p.state, d.world, d.state, f, f == todo[0], f in todo[1..]);
    }
  }

  lemma NothingDue(cfg: Config, w: World, st: SyncState, f: string)
    ensures AfterDeletion(cfg, w, st, w, st, f, false)
  {
  }

  lemma StillTracked(cfg: Config, w: World, st: SyncState, v: World, su: SyncState, f: string)
    requires AfterDeletion(cfg, w, st, v, su, f, false) && f in st.files
    ensures f in su.files
  {
  }

  lemma AfterBoth(cfg: Config, w: World, st: SyncState, v: World, su: SyncState, x: World, sx: SyncState, f: string, first: bool, later: bool)
    requires AfterDeletion(cfg, w, st, v, su, f, first) && AfterDeletion(cfg, v, su, x, sx, f, later) && !(first && later)
    ensures AfterDeletion(cfg, w, st, x, sx, f, first || later)
  {
  }

  /** How a push that scanned its files ends for one tracked name: it is forgotten exactly when it was missed, as at
      the last push, by an intact scan, within both limits, and the hosted file has not moved; and it is
      remembered exactly when it was missed by an intact scan and is still tracked. */
  lemma PushEnds(cfg: Config, input: PushInput, p: Pass, f: string)
    requires p.Pass? && input.scan.Files? && Sound(p.world.store) && Distinct(input.names)
    requires forall g :: g in input.names <==> g in p.state.files
    ensures var ended := AfterPush(cfg, input, p);
            var scanned := SetOf(input.scan.names);
            var twice := Twice(input.names, scanned, p.state.pending);
            var due := f in twice && Intact(SetOf(input.names), scanned) && WithinLimits(|twice|, |input.names|, input.limits);
            && ended.world.disk == p.world.disk
            && AfterDeletion(cfg, p.world, p.state, ended.world, ended.saved, f, due)
            && (f in ended.saved.pending <==>
                  f in ended.saved.files && f in input.names && f !in scanned && Intact(SetOf(input.names), scanned))
  {
    hide Sound, Intact, WithinLimits, Distinct, AfterDeletion, PlanDeletions, DeleteAll;
    var plan := PlanDeletions(p.state, input.names, SetOf(input.scan.names), input.limits);
    PlanIsGuarded(p.state, input.names, SetOf(input.scan.names), input.limits);
    var report := p.report.(skipped := p.report.skipped + plan.skipped, guards := p.report.guards + plan.guards);
    DeletesExactly(cfg, p.world, p.state, report, plan.deletions, f);
    TrackedSame(cfg, p.world, p.state, DeleteAll(cfg, p.world, p.state, report, plan.deletions), AfterPush(cfg, input, p), f, f in plan.deletions);
  }

  /** What is remembered plays no part in where a file stands. */
  lemma TrackedSame(cfg: Config, w: World, st: SyncState, d: Pass, ended: Ended, f: string, due: bool)
    requires d.Pass? && AfterDeletion(cfg, w, st, d.world, d.state, f, due)
    requires ended.world == d.world && ended.saved.files == d.state.files
    ensures AfterDeletion(cfg, w, st, ended.world, ended.saved, f, due)
  {
  }

  // ---------------------------------------------------------------- one head of a pull

  /** The local file has text that was never synced, or the text last synced is gone. */
  ghost predicate Edited(w: World, st: SyncState, f: string) {
    if f in w.disk then !Synced(w, st, f) else f in st.files
  }

  ghost predicate OnRecord(cfg: Config, w: World, v: World, st: SyncState, head: Revision) {
    var f := head.key.filename;
    exists c :: c in v.store.conflicts && c.resolution.None?
                && c.input == ConflictInput(Key(cfg.brain, f), if f in st.files then Some(st.files[f].revision) else None, Some(head.id),
                                            if f in w.disk then Some(Live(w.disk[f])) else None, Some(head.hash),
                                            LocalAgent, Some(HostedMcp), cfg.actor, None)
  }

  /** One hosted tombstone, without a policy. It never touches the two structural files; it removes a synced copy,
      forgets a file that is gone already, and meets an edited one with a conflict. */
  lemma PullTombstoneTurn(cfg: Config, env: Env, w: World, st: SyncState, report: Report, key: Key)
    requires Sound(w.store) && env.deployment == Configured(None) && key.brain == cfg.brain
    requires key in w.store.heads && w.store.heads[key].deleted
    requires var f := key.filename; !StartsWith(f, "sources/") && cfg.safe(f) && f !in st.holds
    ensures var f := key.filename;
            var p := PullOne(cfg, env, w, st, report, w.store.heads[key]);
            && p.Pass? && p.world.store.heads == w.store.heads
            && if f == "00_loader.md" || f == "NOW.md" then p == Pass(w, st, report)
               else if f !in w.disk then p.world == w && p.state == st.(files := st.files - {f})
               else if Synced(w, st, f) then
                 && p.world.disk == w.disk - {f} && p.world.store == w.store
                 && p.state == st.(files := st.files - {f}) && p.report.deleted == report.deleted + [f]
               else p.world.disk == w.disk && p.state == st && OnRecord(cfg, w, p.world, st, w.store.heads[key])
  {
    hide Sound, RecordConflict, Extends;
    HeadRevision(w.store, key);
    PullRecords(cfg, w, st, report, w.store.heads[key]);
    assert MARKERS == {"00_loader.md", "NOW.md"};
  }

  lemma PullRecords(cfg: Config, w: World, st: SyncState, report: Report, head: Revision)
    requires Sound(w.store)
    ensures var p := PullConflict(cfg, w, st, report, head, DiskHash(w, head.key.filename));
            p.Pass? && p.world.disk == w.disk && p.world.store.heads == w.store.heads && p.state == st && OnRecord(cfg, w, p.world, st, head)
  {
    hide Sound, RecordConflict, Extends;
    var f := head.key.filename;
    RecordConflictSound(
      w.store, ConflictInput(FileKey(cfg, f), Base(st, f), Some(head.id), DiskHash(w, f), Some(head.hash),
                             LocalAgent, Some(HostedMcp), cfg.actor, None));
  }

  /** One live head, without a policy. A file tracked at it is left alone, even when it is missing; a local text
      equal to the head's is adopted; a synced copy, or a file not there and never synced, is brought to the
      head; and every other is met with a conflict. */
  lemma PullLiveTurn(cfg: Config, env: Env, w: World, st: SyncState, report: Report, key: Key)
    requires Sound(w.store) && env.deployment == Configured(None) && key.brain == cfg.brain
    requires key in w.store.heads && !w.store.heads[key].deleted
    requires var f := key.filename; !StartsWith(f, "sources/") && cfg.safe(f) && f !in st.holds
    ensures var f := key.filename;
            var head := w.store.heads[key];
            var p := PullOne(cfg, env, w, st, report, head);
            && p.Pass? && p.world.store.heads == w.store.heads
            && if f in st.files && st.files[f].revision == head.id then p.world == w && p.state == st
               else if f in w.disk && w.disk[f] == head.content then p.world == w && AtHosted(w, p.state, key)
               else if Edited(w, st, f) then p.world.disk == w.disk && p.state == st && OnRecord(cfg, w, p.world, st, head)
               else
                 && p.world.disk == w.disk[f := head.content] && p.world.store == w.store && AtHosted(p.world, p.state, key)
                 && p.report.pulled == report.pulled + [f]
  {
    hide Sound, RecordConflict, Extends;
    HeadRevision(w.store, key);
    PullRecords(cfg, w, st, report, w.store.heads[key]);
    hide PullConflict, OnRecord;
  }

  /** Under any policy: a file under sources/ is left alone, and a name that is no Brain file ends the pull; a held file
      waits until its local text is what was last synced; an unsynced text that an enforcing or retired policy
      refuses is held, and nothing else happens to it; and every other head is pulled as without a policy. */
  lemma PullUnderPolicy(cfg: Config, env: Env, w: World, st: SyncState, report: Report, head: Revision)
    requires env.deployment.Configured?
    ensures var f := head.key.filename;
            var policy := env.deployment.policy;
            var base := if f in st.files then Some(st.files[f].revision) else None;
            var prior := if base.Some? && base.value in w.store.revisions then w.store.revisions[base.value].content else "";
            var p := PullOne(cfg, env, w, st, report, head);
            if StartsWith(f, "sources/") then p == Pass(w, st, report.(excluded := report.excluded + [f]))
            else if !cfg.safe(f) then p == Aborted(w)
            else if f in st.holds && !Synced(w, st, f) then p == Pass(w, st, report.(held := report.held + [f]))
            else if && policy.Some? && (policy.value.mode.Enforce? || policy.value.intake.Retired?)
                    && f in w.disk && Live(w.disk[f]) != head.hash && !Synced(w, st, f)
                    && Admit(w.store, env, Proposal(Key(cfg.brain, f), base, w.disk[f], LocalAgent, cfg.actor, None), prior).Refused?
            then
              && p.Pass? && p.world == w && p.state.files == st.files && f in p.state.holds
              && p.report == report.(held := report.held + [f])
            else p == PullOne(cfg, env.(deployment := Configured(None)), w, st, report, head)
  {
    hide Admit, PullTombstone, PullLive, StartsWith;
  }

  // ---------------------------------------------------------------- around the turns

  /** A failed scan infers nothing: nothing is proposed or tombstoned, and no miss is remembered. */
  lemma FailedScan(cfg: Config, input: PushInput, w: World, saved: SyncState)
    requires Sound(w.store) && input.scan.ScanFailed?
    ensures var ended := PushPass(cfg, input, w, saved);
            && ended.world.store == w.store && ended.saved.pending == {}
            && (input.scan.io <==> ended.report.Some?)
            && (input.scan.io ==> IncompleteScan in ended.report.value.guards && ended.report.value.skipped == input.names)
  {
    hide Sound;
    ResolvedMembers(w.store.conflicts, cfg.brain);
    ReconcileRest(cfg, w, saved, EMPTY_REPORT, ResolvedConflicts(w.store.conflicts, cfg.brain), Key(cfg.brain, ""));
    hide ReconcileAll, ResolvedConflicts, AtHosted, Installs;
  }

  /** The read-back of a policy-admitted revision is recorded as verified exactly when the hosted text is the one
      pushed. */
  lemma ReadsBack(cfg: Config, s: Store, f: string, content: string, r: Revision)
    requires r.id in s.revisions && s.revisions[r.id] == r && r.key == Key(cfg.brain, f)
    requires r.context.Some? && r.context.value.External? && r.context.value.requestHash.Some?
    ensures var t := ReadBack(cfg, s, f, content, r);
            && t == s.(revisions := s.revisions[r.id := t.revisions[r.id]])
            && t.revisions[r.id].(context := None) == r.(context := None)
            && t.revisions[r.id].context.Some? && t.revisions[r.id].context.value.External?
            && t.revisions[r.id].context.value.verification ==
               Some(if r.key in s.heads && !s.heads[r.key].deleted && s.heads[r.key].content == content then Verified else VerificationFailed)
  {
  }

  /** Rebuilding tracks exactly the local files, each at its head, forgets every remembered miss and keeps every hold; and
      it goes through exactly when no conflict of the Brain is open and the two inventories are byte-equal. */
  lemma RebasesExactly(cfg: Config, w: World, saved: SyncState, found: seq<string>)
    requires Sound(w.store) && forall f :: f in found <==> f in w.disk
    ensures var rebuilt := RebaseState(cfg, w, saved, found);
            && (rebuilt.Some? <==>
                  && (forall c :: c in w.store.conflicts && c.input.key.brain == cfg.brain ==> c.resolution.Some?)
                  && (forall key :: key in w.store.heads && key.brain == cfg.brain && !w.store.heads[key].deleted ==> key.filename in w.disk)
                  && (forall f :: f in w.disk ==>
                        && cfg.safe(f) && Key(cfg.brain, f) in w.store.heads && !w.store.heads[Key(cfg.brain, f)].deleted
                        && w.store.heads[Key(cfg.brain, f)].content == w.disk[f]))
            && (rebuilt.Some? ==>
                  && rebuilt.value == saved.(files := rebuilt.value.files, pending := {})
                  && rebuilt.value.files.Keys == w.disk.Keys
                  && forall f :: f in w.disk ==> AtHosted(w, rebuilt.value, Key(cfg.brain, f)))
  {
    hide Sound;
    HeadHashes(cfg, w.store);
    NoneOpen(w.store.conflicts, cfg.brain);
    assert SetOf(found) == w.disk.Keys;
    NamesOfLive(w.store, cfg.brain);
    hide AnyOpen, LiveNames, HeadHash;
    if forall f :: f in w.disk <==> Key(cfg.brain, f) in w.store.heads && !w.store.heads[Key(cfg.brain, f)].deleted {
      assert SetOf(found) == LiveNames(w.store, cfg.brain);
    }
    forall key | key in w.store.heads && key.brain == cfg.brain ensures key == Key(cfg.brain, key.filename) {
    }
  }

  lemma NoneOpen(conflicts: seq<Conflict>, brain: string)
    ensures AnyOpen(conflicts, brain) <==> exists c :: c in conflicts && c.input.key.brain == brain && c.resolution.None?
  {
  }

  lemma NamesOfLive(s: Store, brain: string)
    ensures forall f :: f in LiveNames(s, brain) <==> Key(brain, f) in s.heads && !s.heads[Key(brain, f)].deleted
  {
    forall f | f in LiveNames(s, brain) ensures Key(brain, f) in s.heads && !s.heads[Key(brain, f)].deleted {
      var key :| key in s.heads && key.brain == brain && !s.heads[key].deleted && key.filename == f;
      assert key == Key(brain, f);
    }
  }

  lemma HeadHashes(cfg: Config, s: Store)
    requires Sound(s)
    ensures forall f :: Key(cfg.brain, f) in s.heads && !s.heads[Key(cfg.brain, f)].deleted ==>
              HeadHash(cfg, s, f) == Live(s.heads[Key(cfg.brain, f)].content) == s.heads[Key(cfg.brain, f)].hash
  {
    forall f | Key(cfg.brain, f) in s.heads && !s.heads[Key(cfg.brain, f)].deleted
      ensures HeadHash(cfg, s, f) == Live(s.heads[Key(cfg.brain, f)].content) == s.heads[Key(cfg.brain, f)].hash
    {
      HeadRevision(s, Key(cfg.brain, f));
    }
  }
}
