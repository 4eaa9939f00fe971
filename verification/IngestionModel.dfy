/** The ingestion job table of `src/ingestion/jobs.ts`: what each of its transactions makes of it. A digest is
    identified with the candidate it is taken of. */
module IngestionModel {
  import opened Wrappers
  import opened RevisionModel
  import Log

  // ---------------------------------------------------------------- rows

  datatype Stage = Prepared | Verified | Review | Approved | NeedsReview | Blocked | Complete

  datatype Original = Original(bucket: string, verified: bool)

  /** `expected` is None for "new". */
  datatype FileChange = FileChange(filename: string, expected: Option<nat>, content: string)

  /** The review bundle, with the text each change replaces. */
  datatype Candidate = Candidate(job: nat, sha: string, text: string, changes: seq<FileChange>, previous: seq<Option<string>>)

  datatype Approval = Approval(digest: Candidate, actor: Actor)

  datatype Revised = Revised(filename: string, revision: nat, sha: Hash)

  datatype Receipt = Receipt(digest: Candidate, approvedBy: Actor, appliedBy: Actor, revisions: seq<Revised>)

  datatype Lease = Lease(token: nat, until: int)

  datatype Job = Job(
    owner: string, brain: string, source: string, companion: string, artifact: string, identity: string, sha: string,
    stage: Stage, original: Option<Original>, extraction: Option<string>, candidate: Option<Candidate>,
    approval: Option<Approval>, receipt: Option<Receipt>, lease: Option<Lease>, attempts: nat)

  datatype Database = Database(jobs: map<nat, Job>, store: Store, nextJob: nat, nextToken: nat, now: int)

  /** Whom an `IngestionJobs` object acts for. */
  datatype Binding = Binding(owner: string, brain: string, actor: Actor)

  const LEASE_SECONDS := 120

  const MAX_CHANGES := 20

  datatype Refusal =
    | NoSuchJob | Busy | LeaseLost | ReuseExistingSource | CompanionOwned | SourceOwnedElsewhere | SourceIdentityMismatch
    | SourceCompanionMismatch | ArtifactMismatch | IdentityRequired | NotReady | StaleReview | TooManyOrDuplicate
    | ApprovalRequired | WriteConflict | WriteRefused

  datatype Answer<T> = Ok(value: T) | No(refusal: Refusal)

  predicate Owns(b: Binding, job: Job) {
    job.owner == b.owner && job.brain == b.brain
  }

  predicate Visible(db: Database, b: Binding, id: nat) {
    id in db.jobs && Owns(b, db.jobs[id])
  }

  function Update(db: Database, id: nat, job: Job): Database {
    db.(jobs := db.jobs[id := job])
  }

  // ---------------------------------------------------------------- reserving

  datatype Manifest = Manifest(brain: string, source: string, companion: string, artifact: string, identity: string, sha: string)

  /** The tables of applied sources and their artifacts, which other workflows fill too. */
  datatype Registered = Registered(brain: string, companion: Option<string>)
  datatype Artifact = Artifact(source: string, sha: string)
  datatype Registry = Registry(sources: map<string, Registered>, artifacts: map<string, Artifact>)

  predicate SameSubject(b: Binding, m: Manifest, job: Job) {
    Owns(b, job) && job.identity == m.identity
  }

  function NewJob(b: Binding, m: Manifest): Job {
    Job(b.owner, b.brain, m.source, m.companion, m.artifact, m.identity, m.sha, Prepared, None, None, None, None, None, None, 0)
  }

  /** The first guard of `reserve` that refuses. */
  function ReserveRefusal(db: Database, b: Binding, m: Manifest, registry: Registry): Option<Refusal> {
    if m.brain != b.brain then Some(IdentityRequired)
    else if exists id :: id in db.jobs && SameSubject(b, m, db.jobs[id]) && db.jobs[id].source != m.source then Some(ReuseExistingSource)
    else if (exists s :: s in registry.sources && s != m.source && registry.sources[s] == Registered(b.brain, Some(m.companion)))
            || (exists id :: id in db.jobs && db.jobs[id].brain == b.brain && db.jobs[id].companion == m.companion && db.jobs[id].source != m.source)
    then Some(CompanionOwned)
    else if m.source in registry.sources && registry.sources[m.source].brain != b.brain then Some(SourceOwnedElsewhere)
    else if m.source in registry.sources && registry.sources[m.source].companion.Some? && registry.sources[m.source].companion != Some(m.companion)
    then Some(SourceCompanionMismatch)
    else if exists id :: id in db.jobs && db.jobs[id].source == m.source && !SameSubject(b, m, db.jobs[id]) then Some(SourceIdentityMismatch)
    else if exists id :: id in db.jobs && db.jobs[id].source == m.source && db.jobs[id].companion != m.companion then Some(SourceCompanionMismatch)
    else None
  }

  predicate IsExisting(b: Binding, m: Manifest, job: Job) {
    SameSubject(b, m, job) && job.sha == m.sha
  }

  /** `reserve`, the row's unique constraint on artifacts included. */
  ghost function Reserve(db: Database, b: Binding, m: Manifest, registry: Registry): (Database, Answer<nat>) {
    if ReserveRefusal(db, b, m, registry).Some? then (db, No(ReserveRefusal(db, b, m, registry).value))
    else if exists id :: id in db.jobs && IsExisting(b, m, db.jobs[id]) then
      var id :| id in db.jobs && IsExisting(b, m, db.jobs[id]);
      (db, Ok(id))
    else if m.artifact in registry.artifacts && registry.artifacts[m.artifact] != Artifact(m.source, m.sha) then (db, No(ArtifactMismatch))
    else if exists id :: id in db.jobs && db.jobs[id].artifact == m.artifact then (db, No(ArtifactMismatch))
    else (Update(db, db.nextJob, NewJob(b, m)).(nextJob := db.nextJob + 1), Ok(db.nextJob))
  }

  // ---------------------------------------------------------------- leases

  /** `claim` */
  function Claim(db: Database, b: Binding, id: nat): (Database, Answer<nat>) {
    if !Visible(db, b, id) || (db.jobs[id].lease.Some? && db.jobs[id].lease.value.until >= db.now) then (db, No(Busy))
    else
      var job := db.jobs[id].(lease := Some(Lease(db.nextToken, db.now + LEASE_SECONDS)), attempts := db.jobs[id].attempts + 1);
      (Update(db, id, job).(nextToken := db.nextToken + 1), Ok(db.nextToken))
  }

  /** The guard of `leased`. */
  predicate Leased(db: Database, id: nat, token: nat) {
    id in db.jobs && db.jobs[id].lease.Some? && db.jobs[id].lease.value.token == token && db.jobs[id].lease.value.until > db.now
  }

  /** `release` */
  function Release(db: Database, b: Binding, id: nat, token: nat): Database {
    if Visible(db, b, id) && db.jobs[id].lease.Some? && db.jobs[id].lease.value.token == token
    then Update(db, id, db.jobs[id].(lease := None))
    else db
  }

  // ---------------------------------------------------------------- the fenced steps of `advance`

  function RecordOriginal(db: Database, b: Binding, id: nat, token: nat, bucket: string): Answer<Database> {
    if !Visible(db, b, id) then No(NoSuchJob)
    else if !Leased(db, id, token) then No(LeaseLost)
    else Ok(Update(db, id, db.jobs[id].(original := Some(Original(bucket, false)))))
  }

  function MarkVerified(db: Database, b: Binding, id: nat, token: nat, bucket: string): Answer<Database> {
    if !Visible(db, b, id) then No(NoSuchJob)
    else if !Leased(db, id, token) then No(LeaseLost)
    else Ok(Update(db, id, db.jobs[id].(original := Some(Original(bucket, true)), stage := Stage.Verified)))
  }

  function SaveExtraction(db: Database, b: Binding, id: nat, token: nat, text: string): Answer<Database> {
    if !Visible(db, b, id) then No(NoSuchJob)
    else if !Leased(db, id, token) then No(LeaseLost)
    else Ok(Update(db, id, db.jobs[id].(extraction := Some(text), stage := Review)))
  }

  /** The catch block of `advance`. */
  function Block(db: Database, b: Binding, id: nat, token: nat): Database {
    if Visible(db, b, id) && Leased(db, id, token) then Update(db, id, db.jobs[id].(stage := Blocked)) else db
  }

  // ---------------------------------------------------------------- review and approval

  predicate DistinctFiles(changes: seq<FileChange>) {
    forall i, j :: 0 <= i < j < |changes| ==> changes[i].filename != changes[j].filename
  }

  predicate Current(s: Store, brain: string, change: FileChange) {
    HeadId(s, Key(brain, change.filename)) == change.expected
  }

  predicate AllCurrent(s: Store, brain: string, changes: seq<FileChange>) {
    forall i :: 0 <= i < |changes| ==> Current(s, brain, changes[i])
  }

  function PreviousText(s: Store, brain: string, change: FileChange): Option<string> {
    var key := Key(brain, change.filename);
    if key in s.heads then Some(s.heads[key].content) else None
  }

  function Previous(s: Store, brain: string, changes: seq<FileChange>): seq<Option<string>> {
    seq(|changes|, i requires 0 <= i < |changes| => PreviousText(s, brain, changes[i]))
  }

  /** `review`; `compiled` is the companion's text for the reviewed content, and `companionExpected` is None
      when the caller named no expectation. */
  function ReviewJob(
    db: Database, b: Binding, id: nat, text: string, compiled: string, changes: seq<FileChange>,
    companionExpected: Option<Option<nat>>): Answer<Database>
  {
    if !Visible(db, b, id) then No(NoSuchJob)
    else
      var job := db.jobs[id];
      var head := HeadId(db.store, Key(b.brain, job.companion));
      var all := [FileChange(job.companion, head, compiled)] + changes;
      if job.stage !in {Review, NeedsReview, Approved} || job.original.None? || job.extraction.None? || job.lease.Some? then No(NotReady)
      else if companionExpected.Some? && head != companionExpected.value then No(Refusal.StaleReview)
      else if |all| > MAX_CHANGES || !DistinctFiles(all) then No(TooManyOrDuplicate)
      else if !AllCurrent(db.store, b.brain, all) then No(Refusal.StaleReview)
      else Ok(Update(db, id, job.(candidate := Some(Candidate(id, job.sha, text, all, Previous(db.store, b.brain, all))),
                                  approval := None, stage := Review)))
  }

  /** `approve` */
  function Approve(db: Database, b: Binding, id: nat, digest: Candidate): Answer<Database> {
    if !Visible(db, b, id) then No(NoSuchJob)
    else
      var job := db.jobs[id];
      if job.stage != Review || job.candidate != Some(digest) || job.lease.Some? then No(ApprovalRequired)
      else Ok(Update(db, id, job.(stage := Approved, approval := Some(Approval(digest, b.actor)))))
  }

  // ---------------------------------------------------------------- applying

  /** What the caller of `apply` brings: its write context, if any, how operation ids are derived from it, and
      the label, summary and date of the receipt in LOG.md. */
  datatype Session = Session(
    request: Option<Request>, derive: (string, nat, string) -> string, files: string, summary: string, date: string)

  function ContextFor(session: Session, id: nat, companion: string, filename: string): Context {
    if filename == companion then Internal("verified reviewed source companion")
    else
      match session.request
      case Some(request) => External(request.(operationId := session.derive(request.operationId, id, filename)), None, None)
      case None => Internal("existing reviewed source ingestion")
  }

  function ChangeProposal(b: Binding, session: Session, id: nat, job: Job, actor: Actor, change: FileChange): Proposal {
    Proposal(Key(b.brain, change.filename), change.expected, change.content, Import, Some(actor),
             Some(ContextFor(session, id, job.companion, change.filename)))
  }

  datatype Writes = Written(store: Store, revisions: seq<Revised>) | RolledBack(refusal: Refusal)

  /** The writes of one transaction, in order. */
  function ApplyChanges(
    s: Store, env: Env, b: Binding, session: Session, id: nat, job: Job, actor: Actor, changes: seq<FileChange>, done: seq<Revised>): Writes
    decreases |changes|
  {
    if changes == [] then Written(s, done)
    else
      var (t, outcome) := Propose(s, env, ChangeProposal(b, session, id, job, actor, changes[0]));
      match outcome
      case Conflicted(_, _) => RolledBack(WriteConflict)
      case Threw(_) => RolledBack(WriteRefused)
      case Accepted(r) =>
        ApplyChanges(t, env, b, session, id, job, actor, changes[1..], done + [Revised(changes[0].filename, r.id, r.hash)])
      case Unchanged(r) =>
        ApplyChanges(t, env, b, session, id, job, actor, changes[1..], done + [Revised(changes[0].filename, r.id, r.hash)])
  }

  function IngestEntry(session: Session): string {
    Log.FormatLogEntry("INGEST", [session.files], session.summary, session.date)
  }

  /** The receipt `apply` adds to LOG.md for a caller with a write context. */
  function IngestReceipt(s: Store, b: Binding, session: Session): Proposal {
    var log := LogKey(b.brain);
    Proposal(log, HeadId(s, log), Log.AppendLogEntry(if log in s.heads then s.heads[log].content else "", IngestEntry(session)),
             Import, Some(b.actor), Some(Internal("bounded verified source ingestion receipt")))
  }

  predicate Approvable(job: Job) {
    job.stage.Approved? && job.candidate.Some? && job.approval.Some? && job.approval.value.digest == job.candidate.value
  }

  /** The transaction of `apply`; `ordered` lists the candidate's changes in the order they are written. */
  function CommitJob(db: Database, b: Binding, id: nat, token: nat, env: Env, session: Session, ordered: seq<FileChange>): Answer<Database> {
    if !Visible(db, b, id) then No(NoSuchJob)
    else if !Leased(db, id, token) then No(LeaseLost)
    else
      var job := db.jobs[id];
      if !Approvable(job) then No(ApprovalRequired)
      else if !AllCurrent(db.store, b.brain, ordered) then Ok(Update(db, id, job.(stage := NeedsReview, approval := None)))
      else
        match ApplyChanges(db.store, env, b, session, id, job, job.approval.value.actor, ordered, [])
        case RolledBack(refusal) => No(refusal)
        case Written(s, revisions) =>
          var done := job.(stage := Complete,
                           receipt := Some(Receipt(job.candidate.value, job.approval.value.actor, b.actor, revisions)));
          if session.request.None? then Ok(Update(db, id, done).(store := s))
          else
            var (t, outcome) := Propose(s, env, IngestReceipt(s, b, session));
            if outcome.Threw? then No(WriteRefused) else Ok(Update(db, id, done).(store := t))
  }
}
