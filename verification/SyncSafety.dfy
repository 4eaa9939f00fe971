/** No lost local text, one agent step at a time: what every step keeps, whatever happened since the
    agent last looked. */
module SyncSafety {
  import opened Wrappers
  import opened RevisionModel
  import opened RevisionHistory
  import opened RevisionTheorems
  import opened SyncModel

  // ---------------------------------------------------------------- what is kept

  /** Equal in everything that later operations never change. */
  predicate SameText(a: Revision, b: Revision) {
    a.id == b.id && a.key == b.key && a.hash == b.hash && a.deleted == b.deleted && a.content == b.content
  }

  predicate Recorded(s: Store, r: Revision) {
    r.id in s.revisions && SameText(s.revisions[r.id], r)
  }

  /** A tracked entry names a live revision of its file, whose hash is the tracked local hash. */
  predicate Names(s: Store, key: Key, t: Tracked) {
    && t.revision in s.revisions
    && s.revisions[t.revision].key == key
    && !s.revisions[t.revision].deleted
    && s.revisions[t.revision].hash == t.localHash == t.contentHash
  }

  ghost predicate TrackedSound(cfg: Config, s: Store, st: SyncState) {
    forall f :: f in st.files ==> Names(s, FileKey(cfg, f), st.files[f])
  }

  predicate IsTextOf(r: Revision, key: Key, content: string) {
    r.key == key && !r.deleted && r.content == content
  }

  predicate IsResolvedText(c: Conflict, key: Key, content: string) {
    c.resolution.Some? && c.input.key == key && c.input.localOrigin == LocalAgent && c.input.localHash == Some(Live(content))
  }

  /** A displaced text is still in the store as a live revision of that file, or was the local text of a
      conflict somebody has resolved. */
  ghost predicate Justified(cfg: Config, s: Store, d: Displaced) {
    || (exists id :: id in s.revisions && IsTextOf(s.revisions[id], FileKey(cfg, d.filename), d.content))
    || (exists i :: 0 <= i < |s.conflicts| && IsResolvedText(s.conflicts[i], FileKey(cfg, d.filename), d.content))
  }

  /** Nothing displaced is lost, and no structural marker is ever removed. */
  ghost predicate NothingLost(cfg: Config, w: World) {
    forall i :: 0 <= i < |w.displaced| ==> Justified(cfg, w.store, w.displaced[i]) && (w.displaced[i].removed ==> w.displaced[i].filename !in MARKERS)
  }

  ghost predicate Safe(cfg: Config, w: World, st: SyncState) {
    Sound(w.store) && TrackedSound(cfg, w.store, st) && NothingLost(cfg, w)
  }

  // ---------------------------------------------------------------- it survives the store moving on

  lemma SettledText(a: Revision, b: Revision)
    requires Settled(a) == Settled(b)
    ensures SameText(a, b)
  {
    assert SameText(Settled(a), a) && SameText(Settled(b), b);
  }

  lemma RecordedSurvives(s: Store, t: Store, r: Revision)
    requires Extends(s, t) && Recorded(s, r)
    ensures Recorded(t, r)
  {
    SettledText(s.revisions[r.id], t.revisions[r.id]);
  }

  lemma TrackedSurvives(cfg: Config, s: Store, t: Store, st: SyncState)
    requires Extends(s, t) && TrackedSound(cfg, s, st)
    ensures TrackedSound(cfg, t, st)
  {
    forall f | f in st.files ensures Names(t, FileKey(cfg, f), st.files[f]) {
      var id := st.files[f].revision;
      assert Names(s, FileKey(cfg, f), st.files[f]);
      SettledText(s.revisions[id], t.revisions[id]);
    }
  }

  lemma JustifiedSurvives(cfg: Config, s: Store, t: Store, d: Displaced)
    requires Extends(s, t) && Justified(cfg, s, d)
    ensures Justified(cfg, t, d)
  {
    var key := FileKey(cfg, d.filename);
    if id :| id in s.revisions && IsTextOf(s.revisions[id], key, d.content) {
      SettledText(s.revisions[id], t.revisions[id]);
      assert IsTextOf(t.revisions[id], key, d.content);
    } else {
      var i :| 0 <= i < |s.conflicts| && IsResolvedText(s.conflicts[i], key, d.content);
      assert IsResolvedText(t.conflicts[i], key, d.content);
    }
  }

  /** The hosted side may do anything sound at any time. */
  lemma SafeSurvives(cfg: Config, w: World, t: Store, st: SyncState)
    requires Safe(cfg, w, st) && Sound(t) && Extends(w.store, t)
    ensures Safe(cfg, w.(store := t), st)
  {
    hide Sound, Extends, Justified;
    TrackedSurvives(cfg, w.store, t, st);
    forall i | 0 <= i < |w.displaced| ensures Justified(cfg, t, w.displaced[i]) {
      JustifiedSurvives(cfg, w.store, t, w.displaced[i]);
    }
  }

  lemma HeadIsRecorded(s: Store, key: Key)
    requires Sound(s) && key in s.heads
    ensures Recorded(s, s.heads[key]) && s.heads[key].key == key
  {
    HeadRevision(s, key);
    hide Sound;
  }

  // ---------------------------------------------------------------- the local write

  /** A successful local write displaces at most the text it expected to find. */
  lemma MutateSafe(cfg: Config, w: World, st: SyncState, f: string, content: Option<string>, expected: Option<Hash>)
    requires Safe(cfg, w, st)
    requires content.None? ==> f !in MARKERS
    requires expected.Some? && expected.value.Live? ==> Justified(cfg, w.store, Displaced(f, expected.value.content, content.None?))
    ensures var m := Mutate(w, f, content, expected);
            && Safe(cfg, m.world, st) && m.world.store == w.store && w.displaced <= m.world.displaced
            && (!m.ok ==> m.world == w)
            && (m.ok ==> m.world.disk == match content case Some(text) => w.disk[f := text] case None => w.disk - {f})
  {
    hide Sound, Justified, TrackedSound;
  }

  // ---------------------------------------------------------------- each step

  /** The step left everything safe and only added to the history. */
  ghost predicate StepSafe(cfg: Config, w: World, p: Pass) {
    && Sound(p.world.store) && Extends(w.store, p.world.store) && NothingLost(cfg, p.world) && w.displaced <= p.world.displaced
    && (p.Pass? ==> TrackedSound(cfg, p.world.store, p.state))
  }

  lemma StepSafeSelf(cfg: Config, w: World, st: SyncState, p: Pass)
    requires Safe(cfg, w, st) && p.world == w && (p.Pass? ==> TrackedSound(cfg, w.store, p.state))
    ensures StepSafe(cfg, w, p)
  {
    ExtendsSelf(w.store);
    hide Sound, Extends, Justified;
  }

  /** The observation a reconcile write acts on, however long ago it was made. */
  ghost predicate Reconcilable(cfg: Config, s: Store, c: Conflict, r: Revision) {
    && c.input.key.brain == cfg.brain
    && (exists i :: 0 <= i < |s.conflicts| && s.conflicts[i] == c)
    && c.resolution.Some? && c.input.localOrigin == LocalAgent
    && Recorded(s, r) && r.key == c.input.key && !r.deleted && r.hash == Live(r.content)
  }

  lemma ReconcileWriteSafe(cfg: Config, w: World, st: SyncState, report: Report, c: Conflict, r: Revision)
    requires Safe(cfg, w, st) && Reconcilable(cfg, w.store, c, r)
    ensures StepSafe(cfg, w, ReconcileWrite(w, st, report, c, r))
  {
    var f := c.input.key.filename;
    var i :| 0 <= i < |w.store.conflicts| && w.store.conflicts[i] == c;
    if c.input.localHash.Some? && c.input.localHash.value.Live? {
      var d := Displaced(f, c.input.localHash.value.content, false);
      assert IsResolvedText(w.store.conflicts[i], FileKey(cfg, f), d.content);
      assert Justified(cfg, w.store, d);
    }
    hide Sound, Justified;
    MutateSafe(cfg, w, st, f, Some(r.content), c.input.localHash);
    ExtendsSelf(w.store);
    hide Extends;
    var p := ReconcileWrite(w, st, report, c, r);
    forall g | g in p.state.files ensures Names(w.store, FileKey(cfg, g), p.state.files[g]) {
      if g != f { assert Names(w.store, FileKey(cfg, g), st.files[g]); }
    }
  }

  lemma {:induction false} ResolvedAreRecorded(conflicts: seq<Conflict>, brain: string)
    ensures forall c :: c in ResolvedConflicts(conflicts, brain) ==>
              c.input.key.brain == brain && c.resolution.Some? && exists i :: 0 <= i < |conflicts| && conflicts[i] == c
  {
    if conflicts != [] {
      ResolvedAreRecorded(conflicts[1..], brain);
      forall c | c in ResolvedConflicts(conflicts, brain)
        ensures c.input.key.brain == brain && c.resolution.Some? && exists i :: 0 <= i < |conflicts| && conflicts[i] == c
      {
        if c in ResolvedConflicts(conflicts[1..], brain) {
          var i :| 0 <= i < |conflicts[1..]| && conflicts[1..][i] == c;
          assert conflicts[i + 1] == c;
        } else {
          assert conflicts[0] == c;
        }
      }
    }
  }

  lemma LookReconcilable(cfg: Config, w: World, st: SyncState, c: Conflict)
    requires Sound(w.store) && c.input.key.brain == cfg.brain
    requires exists i :: 0 <= i < |w.store.conflicts| && w.store.conflicts[i] == c
    requires ReconcileLook(cfg, w, st, c).Some?
    ensures Reconcilable(cfg, w.store, c, ReconcileLook(cfg, w, st, c).value)
  {
    HeadRevision(w.store, c.input.key);
    HeadIsRecorded(w.store, c.input.key);
    hide Sound;
  }

  lemma ReconcilableSurvives(cfg: Config, s: Store, t: Store, c: Conflict, r: Revision)
    requires Extends(s, t) && Reconcilable(cfg, s, c, r)
    ensures Reconcilable(cfg, t, c, r)
  {
    RecordedSurvives(s, t, r);
    var i :| 0 <= i < |s.conflicts| && s.conflicts[i] == c;
    assert t.conflicts[i] == c;
  }

  lemma FromParts(cfg: Config, w: World, u: Store, p: Pass)
    requires Sound(u) && Extends(w.store, u) && NothingLost(cfg, w.(store := u)) && p.world == w.(store := u)
    requires p.Pass? ==> TrackedSound(cfg, u, p.state)
    ensures StepSafe(cfg, w, p)
  {
    hide Sound, Extends, NothingLost, TrackedSound;
  }

  lemma PushFileSafe(cfg: Config, env: Env, w: World, st: SyncState, report: Report, f: string, content: string)
    requires Safe(cfg, w, st)
    ensures StepSafe(cfg, w, PushFile(cfg, env, w, st, report, f, content))
  {
    hide Propose, PushProposal, Sound, Extends, NothingLost, TrackedSound, ReadBack, StepSafe;
    var (s, outcome) := Propose(w.store, env, PushProposal(cfg, st, f, content));
    ProposeSound(w.store, env, PushProposal(cfg, st, f, content));
    ExtendsSelf(w.store);
    assert w.(store := w.store) == w;
    var p := PushFile(cfg, env, w, st, report, f, content);
    var early := Clean(st, f, Some(Live(content))) || env.deployment.Unavailable?
                 || (f in st.holds && st.holds[f].fingerprint == PushPrint(Live(content), Base(st, f), env.deployment.policy));
    if early {
      if p.Pass? { SameFilesSound(cfg, w.store, st, p.state); }
      FromParts(cfg, w, w.store, p);
    } else if outcome.Accepted? || outcome.Unchanged? {
      PushedSafe(cfg, env, w, st, f, content);
      FromParts(cfg, w, ReadBack(cfg, s, f, content, outcome.revision), p);
    } else {
      SafeSurvives(cfg, w, s, st);
      SameFilesSound(cfg, s, st, p.state);
      FromParts(cfg, w, s, p);
    }
  }

  lemma SameFilesSound(cfg: Config, s: Store, a: SyncState, b: SyncState)
    requires a.files == b.files
    ensures TrackedSound(cfg, s, a) ==> TrackedSound(cfg, s, b)
  {
  }

  lemma ReadBackSound(cfg: Config, s: Store, f: string, content: string, r: Revision)
    requires Sound(s)
    ensures Sound(ReadBack(cfg, s, f, content, r)) && Extends(s, ReadBack(cfg, s, f, content, r))
    ensures ReadBack(cfg, s, f, content, r).heads == s.heads
  {
    var verified := IsLive(s, FileKey(cfg, f)) && s.heads[FileKey(cfg, f)].content == content;
    VerificationSound(s, cfg.brain, r.id, if verified then Verified else VerificationFailed);
    ExtendsSelf(s);
    hide Sound, Extends, SetVerification;
  }

  /** Without a write context there is no replay: the answer is the revision just made, or the head. */
  lemma PushedRevision(s: Store, env: Env, input: Proposal)
    requires Sound(s) && input.context.None?
    requires Propose(s, env, input).1.Accepted? || Propose(s, env, input).1.Unchanged?
    ensures var (t, outcome) := Propose(s, env, input);
            && Recorded(t, outcome.revision)
            && outcome.revision.hash == Live(input.content) && outcome.revision.key == input.key && !outcome.revision.deleted
            && input.key in t.heads && t.heads[input.key] == outcome.revision
            && (outcome.Unchanged? ==> t == s)
            && (outcome.Accepted? ==> t == Commit(s, outcome.revision))
  {
    if ApplyFile(s, env, input).2 { AdmittedRevision(s, env, input); }
    ApplyCases(s, env, input);
    hide Sound, Admit, ApplyFile, OperationHash, FindOperation, RecordConflict, LiveText;
    if input.key in s.heads { HeadIsRecorded(s, input.key); }
  }

  /** A text the store has accepted, or already had, is from then on tracked truthfully. */
  lemma PushedSafe(cfg: Config, env: Env, w: World, st: SyncState, f: string, content: string)
    requires Safe(cfg, w, st)
    requires Propose(w.store, env, PushProposal(cfg, st, f, content)).1.Accepted? ||
             Propose(w.store, env, PushProposal(cfg, st, f, content)).1.Unchanged?
    ensures var (s, outcome) := Propose(w.store, env, PushProposal(cfg, st, f, content));
            var u := ReadBack(cfg, s, f, content, outcome.revision);
            && Sound(u) && Extends(w.store, u) && NothingLost(cfg, w.(store := u)) && TrackedSound(cfg, u, st)
            && outcome.revision.hash == Live(content)
            && TrackedSound(cfg, u, Release(st, f).(files := st.files[f := Tracked(outcome.revision.id, outcome.revision.hash, Live(content))]))
  {
    var input := PushProposal(cfg, st, f, content);
    var (s, outcome) := Propose(w.store, env, input);
    var r := outcome.revision;
    ProposeSound(w.store, env, input);
    PushedRevision(w.store, env, input);
    hide Propose, Sound, Extends, NothingLost, Recorded;
    ReadBackSound(cfg, s, f, content, r);
    var u := ReadBack(cfg, s, f, content, r);
    ExtendsTransitive(w.store, s, u);
    hide ReadBack;
    SafeSurvives(cfg, w, u, st);
    RecordedSurvives(s, u, r);
    TrackSound(cfg, u, st, f, r);
    SameFilesSound(cfg, u, Track(st, f, r.id, r.hash), Release(st, f).(files := st.files[f := Tracked(r.id, r.hash, Live(content))]));
  }

  lemma DeleteOneSafe(cfg: Config, w: World, st: SyncState, report: Report, f: string)
    requires Safe(cfg, w, st)
    ensures StepSafe(cfg, w, DeleteOne(cfg, w, st, report, f))
  {
    DeleteSound(w.store, FileKey(cfg, f), Base(st, f), LocalAgent, cfg.actor);
    var s := Delete(w.store, FileKey(cfg, f), Base(st, f), LocalAgent, cfg.actor).0;
    hide Sound, Extends, Delete, NothingLost, TrackedSound;
    ExtendsSelf(w.store);
    SafeSurvives(cfg, w, s, st);
    ForgetSound(cfg, s, st, f);
  }

  lemma ForgetSound(cfg: Config, s: Store, st: SyncState, f: string)
    requires TrackedSound(cfg, s, st)
    ensures TrackedSound(cfg, s, Forget(st, f))
  {
    forall g | g in Forget(st, f).files ensures Names(s, FileKey(cfg, g), Forget(st, f).files[g]) {
      assert Names(s, FileKey(cfg, g), st.files[g]);
    }
  }

  lemma TrackSound(cfg: Config, s: Store, st: SyncState, f: string, r: Revision)
    requires TrackedSound(cfg, s, st) && Recorded(s, r) && r.key == FileKey(cfg, f) && !r.deleted
    ensures TrackedSound(cfg, s, Track(st, f, r.id, r.hash))
  {
    var t := Track(st, f, r.id, r.hash);
    forall g | g in t.files ensures Names(s, FileKey(cfg, g), t.files[g]) {
      if g != f { assert Names(s, FileKey(cfg, g), st.files[g]); }
    }
  }

  lemma PullConflictSafe(cfg: Config, w: World, st: SyncState, report: Report, head: Revision, local: Option<Hash>)
    requires Safe(cfg, w, st)
    ensures StepSafe(cfg, w, PullConflict(cfg, w, st, report, head, local))
  {
    var input := ConflictInput(FileKey(cfg, head.key.filename), Base(st, head.key.filename), Some(head.id), local, Some(head.hash),
                               LocalAgent, Some(HostedMcp), cfg.actor, None);
    RecordConflictSound(w.store, input);
    hide Sound, Extends, RecordConflict;
    SafeSurvives(cfg, w, RecordConflict(w.store, input).0, st);
  }

  /** A clean local copy is the text of the revision it is tracked at. */
  lemma CleanIsJustified(cfg: Config, s: Store, st: SyncState, f: string, seen: Option<Hash>, removed: bool)
    requires Sound(s) && TrackedSound(cfg, s, st) && Clean(st, f, seen)
    ensures seen.Some? && seen.value.Live? && Justified(cfg, s, Displaced(f, seen.value.content, removed))
  {
    var id := st.files[f].revision;
    assert Names(s, FileKey(cfg, f), st.files[f]);
    RevisionWellFormed(s, id);
    assert IsTextOf(s.revisions[id], FileKey(cfg, f), seen.value.content);
  }

  lemma RevisionWellFormed(s: Store, id: nat)
    requires Sound(s) && id in s.revisions
    ensures WellFormed(s, s.revisions[id]) && s.revisions[id].id == id
  {
    hide HeadsFold, OperationsUnique, ConflictsSound, LastChange;
  }

  lemma PullTombstoneSafe(cfg: Config, w: World, st: SyncState, report: Report, head: Revision, seen: Option<Hash>)
    requires Safe(cfg, w, st)
    ensures StepSafe(cfg, w, PullTombstone(cfg, w, st, report, head, seen))
    ensures PullTombstone(cfg, w, st, report, head, seen).Pass?
  {
    var f := head.key.filename;
    hide Sound, Justified, Extends, Mutate;
    StepSafeSelf(cfg, w, st, Pass(w, st, report));
    ForgetSound(cfg, w.store, st, f);
    if f !in MARKERS && seen.Some? {
      if !Clean(st, f, seen) {
        PullConflictSafe(cfg, w, st, report, head, seen);
      } else {
        CleanIsJustified(cfg, w.store, st, f, seen, true);
        MutateSafe(cfg, w, st, f, None, seen);
        var m := Mutate(w, f, None, seen);
        PullConflictSafe(cfg, w, st, report.(guards := report.guards + [LocalRecovery]), head, m.current);
        ExtendsSelf(w.store);
      }
    }
  }

  lemma RecordedConsistent(s: Store, head: Revision)
    requires Recorded(s, head) && !head.deleted
    ensures Consistent(s, head)
  {
  }

  lemma PullLiveSafe(cfg: Config, w: World, st: SyncState, report: Report, head: Revision, seen: Option<Hash>)
    requires Safe(cfg, w, st) && Recorded(w.store, head) && !head.deleted && head.key.brain == cfg.brain
    ensures StepSafe(cfg, w, PullLive(cfg, w, st, report, head, seen))
    ensures PullLive(cfg, w, st, report, head, seen).Pass?
  {
    var f := head.key.filename;
    RecordedConsistent(w.store, head);
    TrackSound(cfg, w.store, st, f, head);
    hide Sound, Justified, Extends, Mutate, Recorded;
    StepSafeSelf(cfg, w, st, Pass(w, st, report));
    if Base(st, f) == Some(head.id) || seen == Some(head.hash) {
    } else if (f in st.files && !Clean(st, f, seen)) || (f !in st.files && seen.Some?) {
      PullConflictSafe(cfg, w, st, report, head, seen);
    } else {
      if f in st.files { CleanIsJustified(cfg, w.store, st, f, seen, false); }
      var content := Some(w.store.revisions[head.id].content);
      MutateSafe(cfg, w, st, f, content, seen);
      var m := Mutate(w, f, content, seen);
      PullConflictSafe(cfg, w, st, report.(guards := report.guards + [LocalRecovery]), head, m.current);
      ExtendsSelf(w.store);
    }
  }

  lemma PullFileSafe(cfg: Config, env: Env, w: World, st: SyncState, report: Report, head: Revision, seen: Option<Hash>)
    requires Safe(cfg, w, st) && Recorded(w.store, head) && head.key.brain == cfg.brain
    ensures StepSafe(cfg, w, PullFile(cfg, env, w, st, report, head, seen))
    ensures PullFile(cfg, env, w, st, report, head, seen).Pass?
  {
    hide Sound, NothingLost, Extends, Recorded, PullHold, PullLive, PullTombstone;
    StepSafeSelf(cfg, w, st, Pass(w, st, report));
    if head.deleted {
      PullTombstoneSafe(cfg, w, st, report, head, seen);
    } else {
      PullLiveSafe(cfg, w, st, report, head, seen);
    }
  }
}
