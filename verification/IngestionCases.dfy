/** When exactly each transaction on a job goes through, and what it then leaves in the row. */
module IngestionCases {
  import opened Wrappers
  import opened RevisionModel
  import opened RevisionHistory
  import opened RevisionCases
  import opened IngestionModel
  import opened IngestionCommit
  import Log

  // ---------------------------------------------------------------- leases

  /** The caller's own job. */
  ghost predicate Mine(db: Database, b: Binding, id: nat) {
    id in db.jobs && db.jobs[id].owner == b.owner && db.jobs[id].brain == b.brain
  }

  /** The job is claimed under this token, for some time yet. */
  ghost predicate Holds(db: Database, id: nat, token: nat) {
    id in db.jobs && db.jobs[id].lease.Some? && db.jobs[id].lease.value.token == token && db.now < db.jobs[id].lease.value.until
  }

  ghost predicate Only(db: Database, next: Database, id: nat, job: Job) {
    next == db.(jobs := db.jobs[id := job])
  }

  /** A job is claimed exactly by its owner, when nobody holds it or its lease has run out: for two minutes, under a
      token never used before. */
  lemma ClaimsExactly(db: Database, b: Binding, id: nat)
    ensures var (next, answer) := Claim(db, b, id);
            if Mine(db, b, id) && (db.jobs[id].lease.None? || db.jobs[id].lease.value.until < db.now) then
              && answer == Ok(db.nextToken) && next.nextToken == db.nextToken + 1
              && Only(db, next.(nextToken := db.nextToken), id,
                      db.jobs[id].(lease := Some(Lease(db.nextToken, db.now + 120)), attempts := db.jobs[id].attempts + 1))
            else next == db && answer == No(Busy)
  {
  }

  /** A lease is given back by its token alone. */
  lemma ReleasesExactly(db: Database, b: Binding, id: nat, token: nat)
    ensures var next := Release(db, b, id, token);
            if Mine(db, b, id) && db.jobs[id].lease.Some? && db.jobs[id].lease.value.token == token
            then Only(db, next, id, db.jobs[id].(lease := None)) else next == db
  {
  }

  /** Each fenced step goes through exactly for the owner under a live lease, and changes what it is for. */
  lemma FencedExactly(db: Database, b: Binding, id: nat, token: nat, bucket: string, text: string)
    ensures var may := Mine(db, b, id) && Holds(db, id, token);
            var why := if Mine(db, b, id) then LeaseLost else NoSuchJob;
            && (if may then RecordOriginal(db, b, id, token, bucket).Ok?
                            && Only(db, RecordOriginal(db, b, id, token, bucket).value, id, db.jobs[id].(original := Some(Original(bucket, false))))
                else RecordOriginal(db, b, id, token, bucket) == No(why))
            && (if may then MarkVerified(db, b, id, token, bucket).Ok?
                            && Only(db, MarkVerified(db, b, id, token, bucket).value, id,
                                    db.jobs[id].(original := Some(Original(bucket, true)), stage := Stage.Verified))
                else MarkVerified(db, b, id, token, bucket) == No(why))
            && (if may then SaveExtraction(db, b, id, token, text).Ok?
                            && Only(db, SaveExtraction(db, b, id, token, text).value, id, db.jobs[id].(extraction := Some(text), stage := Review))
                else SaveExtraction(db, b, id, token, text) == No(why))
            && (if may then Only(db, Block(db, b, id, token), id, db.jobs[id].(stage := Blocked)) else Block(db, b, id, token) == db)
  {
  }

  // ---------------------------------------------------------------- reservations

  /** A reservation is for the caller's own Brain; its subject has had no other source, its source no other subject or
      companion, and its companion no other source, here or among the sources registered. */
  ghost predicate Reservable(db: Database, b: Binding, m: Manifest, registry: Registry) {
    && m.brain == b.brain
    && (forall id :: id in db.jobs ==>
          var job := db.jobs[id];
          && (job.owner == b.owner && job.brain == b.brain && job.identity == m.identity <==> job.source == m.source)
          && (job.brain == b.brain && job.companion == m.companion ==> job.source == m.source)
          && (job.source == m.source ==> job.companion == m.companion))
    && (forall s :: s in registry.sources && s != m.source ==> registry.sources[s] != Registered(b.brain, Some(m.companion)))
    && (m.source in registry.sources ==>
          && registry.sources[m.source].brain == b.brain
          && (registry.sources[m.source].companion.Some? ==> registry.sources[m.source].companion == Some(m.companion)))
  }

  /** The artifact is new, or registered for this source and content and not yet that of a job. */
  ghost predicate ArtifactFree(db: Database, m: Manifest, registry: Registry) {
    && (m.artifact in registry.artifacts ==> registry.artifacts[m.artifact] == Artifact(m.source, m.sha))
    && forall id :: id in db.jobs ==> db.jobs[id].artifact != m.artifact
  }

  /** A reservation goes through exactly when it is reservable and there is a job of that content already, which is then
      the answer, or its artifact is free, for which a new job is prepared. */
  lemma ReservesExactly(db: Database, b: Binding, m: Manifest, registry: Registry)
    ensures var (next, answer) := Reserve(db, b, m, registry);
            var known := exists id :: id in db.jobs && db.jobs[id].owner == b.owner && db.jobs[id].brain == b.brain
                                      && db.jobs[id].identity == m.identity && db.jobs[id].sha == m.sha;
            && (answer.Ok? <==> Reservable(db, b, m, registry) && (known || ArtifactFree(db, m, registry)))
            && (answer.No? ==> next == db)
            && (answer.Ok? && known ==>
                  && next == db && answer.value in db.jobs && db.jobs[answer.value].identity == m.identity && db.jobs[answer.value].sha == m.sha
                  && db.jobs[answer.value].owner == b.owner && db.jobs[answer.value].brain == b.brain)
            && (answer.Ok? && !known ==>
                  && answer.value == db.nextJob && next.nextJob == db.nextJob + 1
                  && Only(db, next.(nextJob := db.nextJob), db.nextJob,
                          Job(b.owner, b.brain, m.source, m.companion, m.artifact, m.identity, m.sha, Prepared,
                              None, None, None, None, None, None, 0)))
  {
  }

  // ---------------------------------------------------------------- review and approval

  /** The bundle is the companion, on the head it has, and the changes asked for, each on the head it has and no file
      twice. */
  ghost predicate Bundled(db: Database, b: Binding, job: Job, compiled: string, changes: seq<FileChange>, all: seq<FileChange>) {
    && all == [FileChange(job.companion, HeadId(db.store, Key(b.brain, job.companion)), compiled)] + changes
    && |all| <= 20
    && (forall i, j :: 0 <= i < j < |all| ==> all[i].filename != all[j].filename)
    && forall i :: 0 <= i < |all| ==> all[i].expected == HeadId(db.store, Key(b.brain, all[i].filename))
  }

  /** A review goes through exactly on an extracted job that nobody holds, and for a bundle that is current; it then
      stands for that very bundle, with the text each change replaces, and any approval is gone. */
  lemma ReviewsExactly(db: Database, b: Binding, id: nat, text: string, compiled: string, changes: seq<FileChange>, expected: Option<Option<nat>>)
    ensures var answer := ReviewJob(db, b, id, text, compiled, changes, expected);
            && (answer.Ok? <==>
                  && Mine(db, b, id)
                  && var job := db.jobs[id];
                  && (job.stage.Review? || job.stage.NeedsReview? || job.stage.Approved?)
                  && job.original.Some? && job.extraction.Some? && job.lease.None?
                  && (expected.Some? ==> expected.value == HeadId(db.store, Key(b.brain, job.companion)))
                  && exists all :: Bundled(db, b, job, compiled, changes, all))
            && (answer.Ok? ==>
                  && var job, after := db.jobs[id], answer.value.jobs[id];
                  && after.candidate.Some? && after.candidate.value.job == id && after.candidate.value.sha == job.sha
                  && after.candidate.value.text == text && Bundled(db, b, job, compiled, changes, after.candidate.value.changes)
                  && |after.candidate.value.previous| == |after.candidate.value.changes|
                  && (forall i :: 0 <= i < |after.candidate.value.changes| ==>
                        var key := Key(b.brain, after.candidate.value.changes[i].filename);
                        after.candidate.value.previous[i] == if key in db.store.heads then Some(db.store.heads[key].content) else None)
                  && Only(db, answer.value, id, job.(candidate := after.candidate, approval := None, stage := Review)))
  {
    if Mine(db, b, id) {
      var all := [FileChange(db.jobs[id].companion, HeadId(db.store, Key(b.brain, db.jobs[id].companion)), compiled)] + changes;
      assert AllCurrent(db.store, b.brain, all) <==>
             forall i :: 0 <= i < |all| ==> all[i].expected == HeadId(db.store, Key(b.brain, all[i].filename)) by {
        assert forall i :: 0 <= i < |all| ==>
                 (Current(db.store, b.brain, all[i]) <==> all[i].expected == HeadId(db.store, Key(b.brain, all[i].filename)));
      }
      assert Bundled(db, b, db.jobs[id], compiled, changes, all) <==> |all| <= 20 && DistinctFiles(all) && AllCurrent(db.store, b.brain, all);
    }
  }

  /** An approval goes through exactly for the candidate on record of a reviewed job that nobody holds. */
  lemma ApprovesExactly(db: Database, b: Binding, id: nat, digest: Candidate)
    ensures var answer := Approve(db, b, id, digest);
            && (answer.Ok? <==> Mine(db, b, id) && db.jobs[id].stage.Review? && db.jobs[id].candidate == Some(digest) && db.jobs[id].lease.None?)
            && (answer.Ok? ==> Only(db, answer.value, id, db.jobs[id].(stage := Approved, approval := Some(Approval(digest, b.actor)))))
  {
  }

  // ---------------------------------------------------------------- applying

  /** Each reviewed change is proposed on the head it was reviewed on, in the approver's name. The companion, and every
      file of a caller without a write context, is an internal change; any other is put to the policy with the
      caller's context under an operation id of its own. The receipt is an internal change of LOG.md on its head. */
  lemma WritesExactly(s: Store, b: Binding, session: Session, id: nat, job: Job, actor: Actor, change: FileChange)
    ensures var input := ChangeProposal(b, session, id, job, actor, change);
            && input.key == Key(b.brain, change.filename) && input.base == change.expected && input.content == change.content
            && input.origin == Import && input.actor == Some(actor) && input.context.Some?
            && (input.context.value.External? <==> change.filename != job.companion && session.request.Some?)
            && (input.context.value.External? ==>
                  var operation := session.derive(session.request.value.operationId, id, change.filename);
                  input.context.value == External(session.request.value.(operationId := operation), None, None))
    ensures var log := Key(b.brain, "LOG.md");
            var text := if log in s.heads then s.heads[log].content else "";
            var input := IngestReceipt(s, b, session);
            && input.key == log && input.base == HeadId(s, log) && input.origin == Import && input.actor == Some(b.actor)
            && input.context.Some? && input.context.value.Internal?
            && input.content == Log.AppendLogEntry(text, Log.FormatLogEntry("INGEST", [session.files], session.summary, session.date))
  {
  }

  /** An application is refused for want of the job, the lease or a matching approval, in this order; and a head that
      has moved sends the job back to review, with nothing written. */
  lemma CommitGuards(db: Database, b: Binding, id: nat, token: nat, env: Env, session: Session, ordered: seq<FileChange>)
    ensures var answer := CommitJob(db, b, id, token, env, session, ordered);
            && (!Mine(db, b, id) ==> answer == No(NoSuchJob))
            && (Mine(db, b, id) && !Holds(db, id, token) ==> answer == No(LeaseLost))
            && (Mine(db, b, id) && Holds(db, id, token) ==>
                  var job := db.jobs[id];
                  var agreed := job.stage.Approved? && job.candidate.Some? && job.approval.Some? && job.approval.value.digest == job.candidate.value;
                  && (!agreed ==> answer == No(ApprovalRequired))
                  && (agreed && (exists i :: 0 <= i < |ordered| && HeadId(db.store, Key(b.brain, ordered[i].filename)) != ordered[i].expected) ==>
                        answer.Ok? && Only(db, answer.value, id, job.(stage := NeedsReview, approval := None))))
  {
    hide ApplyChanges, Propose;
    if i :| 0 <= i < |ordered| && HeadId(db.store, Key(b.brain, ordered[i].filename)) != ordered[i].expected {
      assert !Current(db.store, b.brain, ordered[i]);
    }
  }

  /** Without a policy and a write context nothing stops an application whose heads have not moved: it completes. */
  lemma CommitGoesThrough(db: Database, b: Binding, id: nat, token: nat, env: Env, session: Session, ordered: seq<FileChange>)
    requires Genuine(db.store) && env.deployment == Configured(None) && session.request.None?
    requires Mine(db, b, id) && Holds(db, id, token) && Approvable(db.jobs[id]) && DistinctFiles(ordered)
    requires forall i :: 0 <= i < |ordered| ==> HeadId(db.store, Key(b.brain, ordered[i].filename)) == ordered[i].expected
    ensures var answer := CommitJob(db, b, id, token, env, session, ordered);
            answer.Ok? && answer.value.jobs[id].stage.Complete? && answer.value.jobs[id].receipt.Some?
  {
    hide Genuine, ApplyChanges, Propose;
    assert AllCurrent(db.store, b.brain, ordered);
    AllWritten(db.store, env, b, session, id, db.jobs[id], db.jobs[id].approval.value.actor, ordered, []);
  }

  lemma {:induction false} AllWritten(
    s: Store, env: Env, b: Binding, session: Session, id: nat, job: Job, actor: Actor, changes: seq<FileChange>, done: seq<Revised>)
    requires Genuine(s) && env.deployment == Configured(None) && session.request.None?
    requires DistinctFiles(changes) && AllCurrent(s, b.brain, changes)
    ensures ApplyChanges(s, env, b, session, id, job, actor, changes, done).Written?
    decreases |changes|
  {
    hide Genuine, Propose, ChangeProposal;
    if changes != [] {
      var input := ChangeProposal(b, session, id, job, actor, changes[0]);
      var (t, outcome) := Propose(s, env, input);
      var rest := changes[1..];
      ContextHonest(b, session, id, job, actor, changes[0]);
      ProposalKey(b, session, id, job, actor, changes[0]);
      assert Current(s, b.brain, changes[0]);
      FreeProposal(s, env, input);
      ProposeGenuine(s, env, input);
      GenuineSound(s);
      forall i | 0 <= i < |rest| ensures Current(t, b.brain, rest[i]) {
        assert rest[i] == changes[i + 1] && Current(s, b.brain, changes[i + 1]);
        ProposeFrame(s, env, input, FileKey(b, rest[i]));
      }
      AllWritten(t, env, b, session, id, job, actor, rest, done + [Revised(changes[0].filename, outcome.revision.id, outcome.revision.hash)]);
    }
  }
}
