/** The transactions of `src/ingestion/jobs.ts` on a mutable job table, proved against `IngestionModel`. A
    transaction works on its own copy of the revisions and is committed, or rolled back, as a whole. */
module IngestionJobs {
  import opened Wrappers
  import opened RevisionModel
  import opened RevisionStore
  import opened IngestionModel
  import IngestionRuns

  /** A subject's content has at most one job to find. */
  lemma OneExisting(jobs: map<nat, Job>, b: Binding, m: Manifest, i: nat, j: nat)
    requires IngestionRuns.Reservations(jobs) && i in jobs && j in jobs && IsExisting(b, m, jobs[i]) && IsExisting(b, m, jobs[j])
    ensures i == j
  {
    assert IngestionRuns.SameContentJob(jobs[i], jobs[j]);
  }

  class IngestionJobs {
    const binding: Binding
    var jobs: map<nat, Job>
    var revisions: Store
    var nextJob: nat
    var nextToken: nat
    var now: int

    function Table(): Database
      reads this
    {
      Database(jobs, revisions, nextJob, nextToken, now)
    }

    constructor (binding: Binding, revisions: Store, now: int)
      ensures this.binding == binding && Table() == Database(map[], revisions, 0, 0, now)
    {
      this.binding, this.revisions, this.now := binding, revisions, now;
      jobs, nextJob, nextToken := map[], 0, 0;
    }

    /** `reserve` */
    method Reserve(m: Manifest, registry: Registry) returns (answer: Answer<nat>)
      requires IngestionRuns.Reservations(jobs)
      modifies this`jobs, this`nextJob
      ensures (Table(), answer) == IngestionModel.Reserve(old(Table()), binding, m, registry)
      ensures IngestionRuns.Reservations(jobs)
    {
      IngestionRuns.ReserveSound(Table(), binding, m, registry);
      var refusal := ReserveRefusal(Table(), binding, m, registry);
      if refusal.Some? { return No(refusal.value); }
      hide ReserveRefusal;
      if exists id :: id in jobs && IsExisting(binding, m, jobs[id]) {
        var id :| id in jobs && IsExisting(binding, m, jobs[id]);
        OneExisting(jobs, binding, m, id, IngestionModel.Reserve(Table(), binding, m, registry).1.value);
        return Ok(id);
      }
      if m.artifact in registry.artifacts && registry.artifacts[m.artifact] != Artifact(m.source, m.sha) { return No(ArtifactMismatch); }
      if exists id :: id in jobs && jobs[id].artifact == m.artifact { return No(ArtifactMismatch); }
      answer := Ok(nextJob);
      jobs := jobs[nextJob := NewJob(binding, m)];
      nextJob := nextJob + 1;
    }

    /** `claim` */
    method Claim(id: nat) returns (token: Answer<nat>)
      modifies this`jobs, this`nextToken
      ensures (Table(), token) == IngestionModel.Claim(old(Table()), binding, id)
    {
      if id !in jobs || !Owns(binding, jobs[id]) || !(jobs[id].lease.None? || jobs[id].lease.value.until < now) { return No(Busy); }
      token := Ok(nextToken);
      jobs := jobs[id := jobs[id].(lease := Some(Lease(nextToken, now + LEASE_SECONDS)), attempts := jobs[id].attempts + 1)];
      nextToken := nextToken + 1;
    }

    /** `release` */
    method Release(id: nat, token: nat)
      modifies this`jobs
      ensures Table() == IngestionModel.Release(old(Table()), binding, id, token)
    {
      if id in jobs && Owns(binding, jobs[id]) && jobs[id].lease.Some? && jobs[id].lease.value.token == token {
        jobs := jobs[id := jobs[id].(lease := None)];
      }
    }

    /** The row-locking read and the lease check that open every fenced transaction. */
    method Fence(id: nat, token: nat) returns (refusal: Option<Refusal>)
      ensures refusal == if !Visible(Table(), binding, id) then Some(NoSuchJob) else if !Leased(Table(), id, token) then Some(LeaseLost) else None
    {
      if id !in jobs || !Owns(binding, jobs[id]) { return Some(NoSuchJob); }
      var lease := jobs[id].lease;
      if lease.None? || lease.value.token != token || lease.value.until <= now { return Some(LeaseLost); }
      return None;
    }

    /** The three fenced steps of `advance`, and its catch block. */
    method RecordOriginal(id: nat, token: nat, bucket: string) returns (refusal: Option<Refusal>)
      modifies this`jobs
      ensures match IngestionModel.RecordOriginal(old(Table()), binding, id, token, bucket)
              case Ok(db) => refusal.None? && Table() == db
              case No(r) => refusal == Some(r) && Table() == old(Table())
    {
      refusal := Fence(id, token);
      if refusal.None? { jobs := jobs[id := jobs[id].(original := Some(Original(bucket, false)))]; }
    }

    method MarkVerified(id: nat, token: nat, bucket: string) returns (refusal: Option<Refusal>)
      modifies this`jobs
      ensures match IngestionModel.MarkVerified(old(Table()), binding, id, token, bucket)
              case Ok(db) => refusal.None? && Table() == db
              case No(r) => refusal == Some(r) && Table() == old(Table())
    {
      refusal := Fence(id, token);
      if refusal.None? { jobs := jobs[id := jobs[id].(original := Some(Original(bucket, true)), stage := Stage.Verified)]; }
    }

    method SaveExtraction(id: nat, token: nat, text: string) returns (refusal: Option<Refusal>)
      modifies this`jobs
      ensures match IngestionModel.SaveExtraction(old(Table()), binding, id, token, text)
              case Ok(db) => refusal.None? && Table() == db
              case No(r) => refusal == Some(r) && Table() == old(Table())
    {
      refusal := Fence(id, token);
      if refusal.None? { jobs := jobs[id := jobs[id].(extraction := Some(text), stage := Review)]; }
    }

    method Block(id: nat, token: nat)
      modifies this`jobs
      ensures Table() == IngestionModel.Block(old(Table()), binding, id, token)
    {
      var refusal := Fence(id, token);
      if refusal.None? { jobs := jobs[id := jobs[id].(stage := Blocked)]; }
    }

    /** `review`: the loop binds each change to the exact read it was made against. */
    method ReviewJob(id: nat, text: string, compiled: string, changes: seq<FileChange>, companionExpected: Option<Option<nat>>)
      returns (refusal: Option<Refusal>)
      modifies this`jobs
      ensures match IngestionModel.ReviewJob(old(Table()), binding, id, text, compiled, changes, companionExpected)
              case Ok(db) => refusal.None? && Table() == db
              case No(r) => refusal == Some(r) && Table() == old(Table())
    {
      if id !in jobs || !Owns(binding, jobs[id]) { return Some(NoSuchJob); }
      var job := jobs[id];
      if job.stage !in {Review, NeedsReview, Approved} || job.original.None? || job.extraction.None? || job.lease.Some? {
        return Some(NotReady);
      }
      var head := HeadId(revisions, Key(binding.brain, job.companion));
      if companionExpected.Some? && head != companionExpected.value { return Some(Refusal.StaleReview); }
      var all := [FileChange(job.companion, head, compiled)] + changes;
      if |all| > MAX_CHANGES || !DistinctFiles(all) { return Some(TooManyOrDuplicate); }
      var previous: seq<Option<string>> := [];
      for i := 0 to |all|
        invariant forall k :: 0 <= k < i ==> Current(revisions, binding.brain, all[k])
        invariant |previous| == i && forall k :: 0 <= k < i ==> previous[k] == PreviousText(revisions, binding.brain, all[k])
      {
        if !Current(revisions, binding.brain, all[i]) { return Some(Refusal.StaleReview); }
        previous := previous + [PreviousText(revisions, binding.brain, all[i])];
      }
      assert previous == Previous(revisions, binding.brain, all);
      jobs := jobs[id := job.(candidate := Some(Candidate(id, job.sha, text, all, previous)), approval := None, stage := Review)];
      return None;
    }

    /** `approve` */
    method Approve(id: nat, digest: Candidate) returns (refusal: Option<Refusal>)
      modifies this`jobs
      ensures match IngestionModel.Approve(old(Table()), binding, id, digest)
              case Ok(db) => refusal.None? && Table() == db
              case No(r) => refusal == Some(r) && Table() == old(Table())
    {
      if id !in jobs || !Owns(binding, jobs[id]) { return Some(NoSuchJob); }
      var job := jobs[id];
      if job.stage != Review || job.candidate.None? || job.candidate.value != digest || job.lease.Some? { return Some(ApprovalRequired); }
      jobs := jobs[id := job.(stage := Approved, approval := Some(Approval(digest, binding.actor)))];
      return None;
    }

    /** The fenced transaction of `apply`: check every head, then write every file, then the receipts. */
    method Commit(id: nat, token: nat, env: Env, session: Session, ordered: seq<FileChange>) returns (refusal: Option<Refusal>)
      modifies this`jobs, this`revisions
      ensures match IngestionModel.CommitJob(old(Table()), binding, id, token, env, session, ordered)
              case Ok(db) => refusal.None? && Table() == db
              case No(r) => refusal == Some(r) && Table() == old(Table())
    {
      hide Propose, ChangeProposal, IngestReceipt;
      refusal := Fence(id, token);
      if refusal.Some? { return; }
      var job := jobs[id];
      if !Approvable(job) { return Some(ApprovalRequired); }
      for i := 0 to |ordered|
        invariant forall k :: 0 <= k < i ==> Current(revisions, binding.brain, ordered[k])
      {
        if !Current(revisions, binding.brain, ordered[i]) {
          jobs := jobs[id := job.(stage := NeedsReview, approval := None)];
          return None;
        }
      }
      assert AllCurrent(revisions, binding.brain, ordered);
      var actor := job.approval.value.actor;
      var client := new MemoryRevisionStore(revisions);
      var rows: seq<Revised> := [];
      ghost var whole := ApplyChanges(revisions, env, binding, session, id, job, actor, ordered, []);
      for i := 0 to |ordered|
        invariant whole == ApplyChanges(client.Snapshot(), env, binding, session, id, job, actor, ordered[i..], rows)
        invariant Table() == old(Table())
      {
        assert ordered[i..][0] == ordered[i] && ordered[i..][1..] == ordered[i + 1..];
        var result := client.ProposeRevision(env, ChangeProposal(binding, session, id, job, actor, ordered[i]));
        if result.Conflicted? { return Some(WriteConflict); }
        if result.Threw? { return Some(WriteRefused); }
        rows := rows + [Revised(ordered[i].filename, result.revision.id, result.revision.hash)];
      }
      assert ordered[|ordered|..] == [];
      assert whole == Written(client.Snapshot(), rows);
      if session.request.Some? {
        var receipt := client.ProposeRevision(env, IngestReceipt(client.Snapshot(), binding, session));
        if receipt.Threw? { return Some(WriteRefused); }
      }
      revisions := client.Snapshot();
      jobs := jobs[id := job.(stage := Complete, receipt := Some(Receipt(job.candidate.value, actor, binding.actor, rows)))];
      return None;
    }
  }
}
