/** Ingestion workers as a machine: any number of them, each of which may stall for any time, fail or die
    between any two of its statements. */
module IngestionRuns {
  import opened Wrappers
  import opened RevisionModel
  import opened IngestionModel

  // ---------------------------------------------------------------- the machine

  /** Where an `advance` that has read its job goes next. */
  datatype Next = Recording | Verifying | Extracting | Returning

  /** `seen` is the row as the worker read it, however long ago; `read` says whether it got that far. */
  datatype Worker =
    | Out
    | Claimed(b: Binding, id: nat, token: nat, applying: bool)
    | Advancing(b: Binding, id: nat, token: nat, seen: Job, next: Next)
    | Applying(b: Binding, id: nat, token: nat, seen: Job)
    | Failing(b: Binding, id: nat, token: nat, read: bool)
    | Leaving(b: Binding, id: nat, token: nat)

  datatype Crew = Crew(db: Database, workers: map<nat, Worker>)

  datatype Action =
    | Tick(seconds: nat)
    | Hosted(op: Operation)
    | DoReserve(b: Binding, m: Manifest, registry: Registry)
    | DoReview(b: Binding, id: nat, text: string, compiled: string, changes: seq<FileChange>, expected: Option<Option<nat>>)
    | DoApprove(b: Binding, id: nat, digest: Candidate)
    | Start(w: nat, b: Binding, id: nat, applying: bool)
    | ReadJob(w: nat, bucket: string)
    | DoDeclare(w: nat, bucket: string)
    | DoCustody(w: nat, bucket: string)
    | DoExtract(w: nat, text: string)
    | Finish(w: nat)
    | DoCommit(w: nat, env: Env, session: Session, ordered: seq<FileChange>)
    | Fail(w: nat)
    | DoBlock(w: nat)
    | DoRelease(w: nat)
    | Die(w: nat)

  function WorkerOf(sys: Crew, w: nat): Worker {
    if w in sys.workers then sys.workers[w] else Out
  }

  function Set(sys: Crew, w: nat, p: Worker): Crew {
    sys.(workers := sys.workers[w := p])
  }

  /** An exception: `advance` goes to its catch block, `apply` straight to its finally. */
  function Thrown(sys: Crew, w: nat): Crew {
    match WorkerOf(sys, w)
    case Claimed(b, id, token, applying) => Set(sys, w, if applying then Leaving(b, id, token) else Failing(b, id, token, false))
    case Advancing(b, id, token, _, _) => Set(sys, w, Failing(b, id, token, true))
    case Applying(b, id, token, _) => Set(sys, w, Leaving(b, id, token))
    case Failing(b, id, token, _) => Set(sys, w, Leaving(b, id, token))
    case Leaving(_, _, _) => Set(sys, w, Out)
    case Out => sys
  }

  function FromAnswer(sys: Crew, w: nat, answer: Answer<Database>, p: Worker): Crew {
    match answer
    case Ok(db) => Crew(db, sys.workers[w := p])
    case No(_) => Thrown(sys, w)
  }

  /** One statement or transaction of one party; an action that does not fit changes nothing. */
  ghost function Act(sys: Crew, a: Action): Crew {
    match a
    case Tick(seconds) => sys.(db := sys.db.(now := sys.db.now + seconds))
    case Hosted(op) => sys.(db := sys.db.(store := Step(sys.db.store, op)))
    case DoReserve(b, m, registry) => sys.(db := Reserve(sys.db, b, m, registry).0)
    case DoReview(b, id, text, compiled, changes, expected) =>
      (match ReviewJob(sys.db, b, id, text, compiled, changes, expected)
       case Ok(db) => sys.(db := db)
       case No(_) => sys)
    case DoApprove(b, id, digest) =>
      (match Approve(sys.db, b, id, digest)
       case Ok(db) => sys.(db := db)
       case No(_) => sys)
    case Start(w, b, id, applying) =>
      if !WorkerOf(sys, w).Out? then sys
      else
        (match Claim(sys.db, b, id)
         case (db, Ok(token)) => Crew(db, sys.workers[w := Claimed(b, id, token, applying)])
         case (_, No(_)) => sys)
    case ReadJob(w, bucket) => ActRead(sys, w, bucket)
    case DoDeclare(w, bucket) => ActDeclare(sys, w, bucket)
    case DoCustody(w, bucket) => ActVerify(sys, w, bucket)
    case DoExtract(w, text) => ActExtract(sys, w, text)
    case Finish(w) => ActFinish(sys, w)
    case DoCommit(w, env, session, ordered) => ActCommit(sys, w, env, session, ordered)
    case Fail(w) => Thrown(sys, w)
    case DoBlock(w) => ActBlock(sys, w)
    case DoRelease(w) => ActRelease(sys, w)
    case Die(w) => Set(sys, w, Out)
  }

  /** The first read of the job, and the checks on what it returned. */
  function ActRead(sys: Crew, w: nat, bucket: string): Crew {
    match WorkerOf(sys, w)
    case Claimed(b, id, token, applying) =>
      if !Visible(sys.db, b, id) then Thrown(sys, w)
      else
        var job := sys.db.jobs[id];
        if applying then
          if !job.stage.Approved? || !Approvable(job) || job.original.None? || job.original.value.bucket != bucket
          then Set(sys, w, Leaving(b, id, token))
          else Set(sys, w, Applying(b, id, token, job))
        else if job.stage in {Review, Approved, NeedsReview, Complete} then Set(sys, w, Leaving(b, id, token))
        else if job.original.Some? && job.original.value.bucket != bucket then Set(sys, w, Failing(b, id, token, true))
        else Set(sys, w, Advancing(b, id, token, job, if job.original.None? then Recording else Verifying))
    case _ => sys
  }

  function ActDeclare(sys: Crew, w: nat, bucket: string): Crew {
    match WorkerOf(sys, w)
    case Advancing(b, id, token, seen, next) =>
      if !next.Recording? then sys
      else FromAnswer(sys, w, RecordOriginal(sys.db, b, id, token, bucket), Advancing(b, id, token, seen, Verifying))
    case _ => sys
  }

  function ActVerify(sys: Crew, w: nat, bucket: string): Crew {
    match WorkerOf(sys, w)
    case Advancing(b, id, token, seen, next) =>
      if !next.Verifying? then sys
      else FromAnswer(sys, w, MarkVerified(sys.db, b, id, token, bucket), Advancing(b, id, token, seen, Extracting))
    case _ => sys
  }

  function ActExtract(sys: Crew, w: nat, text: string): Crew {
    match WorkerOf(sys, w)
    case Advancing(b, id, token, seen, next) =>
      if !next.Extracting? then sys
      else FromAnswer(sys, w, SaveExtraction(sys.db, b, id, token, text), Advancing(b, id, token, seen, Returning))
    case _ => sys
  }

  /** The closing read succeeded. */
  function ActFinish(sys: Crew, w: nat): Crew {
    match WorkerOf(sys, w)
    case Advancing(b, id, token, _, next) => if next.Returning? then Set(sys, w, Leaving(b, id, token)) else sys
    case _ => sys
  }

  function ActCommit(sys: Crew, w: nat, env: Env, session: Session, ordered: seq<FileChange>): Crew {
    match WorkerOf(sys, w)
    case Applying(b, id, token, seen) =>
      if Visible(sys.db, b, id) && sys.db.jobs[id].candidate.Some?
         && multiset(ordered) != multiset(sys.db.jobs[id].candidate.value.changes) then sys
      else FromAnswer(sys, w, CommitJob(sys.db, b, id, token, env, session, ordered), Leaving(b, id, token))
    case _ => sys
  }

  function ActBlock(sys: Crew, w: nat): Crew {
    match WorkerOf(sys, w)
    case Failing(b, id, token, _) => Crew(Block(sys.db, b, id, token), sys.workers[w := Leaving(b, id, token)])
    case _ => sys
  }

  function ActRelease(sys: Crew, w: nat): Crew {
    match WorkerOf(sys, w)
    case Leaving(b, id, token) => Crew(Release(sys.db, b, id, token), sys.workers[w := Out])
    case _ => sys
  }

  ghost function RunJobs(sys: Crew, actions: seq<Action>): Crew
    decreases |actions|
  {
    if actions == [] then sys else RunJobs(Act(sys, actions[0]), actions[1..])
  }

  // ---------------------------------------------------------------- fencing

  /** Everything of a row but its lease and its count of attempts. */
  function Content(job: Job): Job {
    job.(lease := None, attempts := 0)
  }

  predicate HoldsLease(sys: Crew, w: nat, id: nat) {
    var p := WorkerOf(sys, w);
    !p.Out? && p.id == id && Leased(sys.db, id, p.token)
  }

  /** The worker an action belongs to. */
  function By(a: Action): Option<nat> {
    match a
    case Start(w, _, _, _) => Some(w)
    case ReadJob(w, _) => Some(w)
    case DoDeclare(w, _) => Some(w)
    case DoCustody(w, _) => Some(w)
    case DoExtract(w, _) => Some(w)
    case Finish(w) => Some(w)
    case DoCommit(w, _, _, _) => Some(w)
    case Fail(w) => Some(w)
    case DoBlock(w) => Some(w)
    case DoRelease(w) => Some(w)
    case Die(w) => Some(w)
    case _ => None
  }

  lemma ReserveKeepsRows(db: Database, b: Binding, m: Manifest, registry: Registry)
    ensures var t := Reserve(db, b, m, registry).0;
            && t.store == db.store && t.nextToken == db.nextToken && t.now == db.now
            && (t == db || (t.jobs == db.jobs[db.nextJob := NewJob(b, m)] && t.nextJob == db.nextJob + 1))
  {
  }

  /** Lease fencing. Whatever the interleaving, a step changes the content of an existing row only if it is
      taken by the worker holding that row's unexpired lease, or is a review or approval of a row nobody holds. */
  lemma Fenced(sys: Crew, a: Action, id: nat)
    requires id in sys.db.jobs && id < sys.db.nextJob
    ensures id in Act(sys, a).db.jobs
    ensures Content(Act(sys, a).db.jobs[id]) != Content(sys.db.jobs[id]) ==>
              || (By(a).Some? && HoldsLease(sys, By(a).value, id))
              || ((a.DoReview? || a.DoApprove?) && a.id == id && sys.db.jobs[id].lease.None?)
  {
    hide Step, ApplyChanges, Propose, AllCurrent, DistinctFiles, IngestReceipt, Previous;
    if a.DoReserve? { ReserveKeepsRows(sys.db, a.b, a.m, a.registry); }
    hide Reserve;
  }

  // ---------------------------------------------------------------- what every reachable state keeps

  /** Tokens are never handed out twice. */
  ghost predicate TokensFresh(sys: Crew) {
    && (forall id :: id in sys.db.jobs ==> id < sys.db.nextJob)
    && (forall id :: id in sys.db.jobs && sys.db.jobs[id].lease.Some? ==> sys.db.jobs[id].lease.value.token < sys.db.nextToken)
    && (forall w: nat :: !WorkerOf(sys, w).Out? ==> WorkerOf(sys, w).token < sys.db.nextToken)
    && (forall v: nat, w: nat :: v != w && !WorkerOf(sys, v).Out? && !WorkerOf(sys, w).Out? ==> WorkerOf(sys, v).token != WorkerOf(sys, w).token)
  }

  predicate Early(stage: Stage) {
    stage.Prepared? || stage.Verified? || stage.Blocked?
  }

  predicate Reviewable(stage: Stage) {
    stage.Review? || stage.Approved? || stage.NeedsReview? || stage.Complete?
  }

  /** Only verified originals are reviewed, an approval is always of the candidate beside it, and a completed
      job carries the receipt of what was approved. */
  predicate RowSound(id: nat, job: Job) {
    && (job.stage.Verified? || Reviewable(job.stage) ==> job.original.Some? && job.original.value.verified)
    && (Reviewable(job.stage) ==> job.extraction.Some?)
    && (job.candidate.Some? ==> job.candidate.value.job == id && DistinctFiles(job.candidate.value.changes))
    && (job.approval.Some? ==> job.candidate == Some(job.approval.value.digest))
    && (job.stage.Approved? ==> job.approval.Some?)
    && (job.stage.Complete? ==> job.approval.Some? && job.receipt.Some? && job.receipt.value.digest == job.approval.value.digest)
  }

  ghost predicate RowsSound(sys: Crew) {
    forall id :: id in sys.db.jobs ==> RowSound(id, sys.db.jobs[id])
  }

  /** What a worker that still holds the lease knows about the row. */
  predicate Knows(p: Worker, job: Job) {
    match p
    case Advancing(_, _, _, seen, next) =>
      (match next
       case Recording => Early(job.stage) && Content(job) == Content(seen) && job.original.None?
       case Verifying => Early(job.stage) && job.stage == seen.stage && job.original.Some?
       case Extracting => job.stage.Verified?
       case Returning => job.stage.Review?)
    case Applying(_, _, _, seen) => Content(job) == Content(seen) && job.stage.Approved?
    case Failing(_, _, _, true) => Early(job.stage) || job.stage.Review?
    case _ => true
  }

  ghost predicate HoldersKnow(sys: Crew) {
    forall w: nat, id: nat :: HoldsLease(sys, w, id) ==> Knows(WorkerOf(sys, w), sys.db.jobs[id])
  }

  ghost predicate Inv(sys: Crew) {
    TokensFresh(sys) && RowsSound(sys) && HoldersKnow(sys)
  }

  /** A step moves only its own worker, who keeps the token claimed for it. */
  lemma WorkersMove(sys: Crew, a: Action, w: nat)
    ensures Some(w) != By(a) ==> WorkerOf(Act(sys, a), w) == WorkerOf(sys, w)
    ensures var p, q := WorkerOf(sys, w), WorkerOf(Act(sys, a), w);
            || q.Out?
            || (!p.Out? && q.id == p.id && q.token == p.token)
            || (a.Start? && a.w == w && q.token == sys.db.nextToken && Act(sys, a).db.nextToken == sys.db.nextToken + 1)
    ensures sys.db.nextToken <= Act(sys, a).db.nextToken
  {
    hide Step, CommitJob, ReviewJob, Approve;
    if a.DoReserve? { ReserveKeepsRows(sys.db, a.b, a.m, a.registry); }
    hide Reserve;
    if a.DoCommit? { CommitKeepsTokens(sys, a); }
    if a.DoReview? { ReviewKeepsTokens(sys, a); }
    if a.DoApprove? { ApproveKeepsTokens(sys, a); }
  }

  lemma CommitKeepsTokens(sys: Crew, a: Action)
    requires a.DoCommit?
    ensures Act(sys, a).db.nextToken == sys.db.nextToken && Act(sys, a).db.nextJob == sys.db.nextJob && Act(sys, a).db.now == sys.db.now
  {
    hide ApplyChanges, Propose, AllCurrent, IngestReceipt;
  }

  lemma ReviewKeepsTokens(sys: Crew, a: Action)
    requires a.DoReview?
    ensures Act(sys, a).db.nextToken == sys.db.nextToken && Act(sys, a).db.nextJob == sys.db.nextJob && Act(sys, a).db.now == sys.db.now
  {
    hide AllCurrent, DistinctFiles, Previous;
  }

  lemma ApproveKeepsTokens(sys: Crew, a: Action)
    requires a.DoApprove?
    ensures Act(sys, a).db.nextToken == sys.db.nextToken && Act(sys, a).db.nextJob == sys.db.nextJob && Act(sys, a).db.now == sys.db.now
  {
  }

  /** A row's lease is what it was, or gone, or freshly claimed. */
  lemma LeasesMove(sys: Crew, a: Action, id: nat)
    requires id in Act(sys, a).db.jobs
    ensures id in sys.db.jobs || (id == sys.db.nextJob && Act(sys, a).db.nextJob == id + 1)
    ensures var lease := Act(sys, a).db.jobs[id].lease;
            || lease.None?
            || (id in sys.db.jobs && lease == sys.db.jobs[id].lease)
            || (a.Start? && a.id == id && lease.value.token == sys.db.nextToken && Act(sys, a).db.nextToken == sys.db.nextToken + 1)
    ensures sys.db.nextJob <= Act(sys, a).db.nextJob
  {
    hide Step, ApplyChanges, Propose, AllCurrent, DistinctFiles, IngestReceipt, Previous, Approvable;
    if a.DoReserve? { ReserveKeepsRows(sys.db, a.b, a.m, a.registry); }
    hide Reserve;
  }

  lemma TokensKept(sys: Crew, a: Action)
    requires TokensFresh(sys)
    ensures TokensFresh(Act(sys, a))
  {
    hide Act, WorkerOf;
    var n := Act(sys, a);
    forall id | id in n.db.jobs ensures id < n.db.nextJob && (n.db.jobs[id].lease.Some? ==> n.db.jobs[id].lease.value.token < n.db.nextToken) {
      LeasesMove(sys, a, id);
      WorkersMove(sys, a, 0);
    }
    forall w: nat | !WorkerOf(n, w).Out? ensures WorkerOf(n, w).token < n.db.nextToken {
      WorkersMove(sys, a, w);
    }
    forall v: nat, w: nat | v != w && !WorkerOf(n, v).Out? && !WorkerOf(n, w).Out? ensures WorkerOf(n, v).token != WorkerOf(n, w).token {
      WorkersMove(sys, a, v);
      WorkersMove(sys, a, w);
    }
  }

  lemma {:induction false} HoldersAlone(sys: Crew, v: nat, w: nat, id: nat)
    requires TokensFresh(sys) && HoldsLease(sys, v, id) && HoldsLease(sys, w, id)
    ensures v == w
  {
  }

  /** Time only ends leases, and nobody renews one: who holds a lease after a step that was not its own claim
      held it before. */
  lemma HeldBefore(sys: Crew, a: Action, w: nat, id: nat)
    requires TokensFresh(sys) && HoldsLease(Act(sys, a), w, id) && !(a.Start? && a.w == w)
    ensures id in sys.db.jobs && HoldsLease(sys, w, id)
  {
    LeasesMove(sys, a, id);
    WorkersMove(sys, a, w);
    TimePasses(sys, a);
    hide Act;
  }

  lemma TimePasses(sys: Crew, a: Action)
    ensures sys.db.now <= Act(sys, a).db.now
  {
    hide Step, CommitJob, ReviewJob, Approve;
    if a.DoReserve? { ReserveKeepsRows(sys.db, a.b, a.m, a.registry); }
    hide Reserve;
    if a.DoCommit? { CommitKeepsTokens(sys, a); }
    if a.DoReview? { ReviewKeepsTokens(sys, a); }
    if a.DoApprove? { ApproveKeepsTokens(sys, a); }
  }

  /** While a worker holds the lease, nobody else moves the row. */
  lemma OthersStandStill(sys: Crew, a: Action, w: nat, id: nat)
    requires TokensFresh(sys) && HoldsLease(Act(sys, a), w, id) && By(a) != Some(w)
    ensures HoldsLease(sys, w, id) && Content(Act(sys, a).db.jobs[id]) == Content(sys.db.jobs[id])
  {
    HeldBefore(sys, a, w, id);
    Fenced(sys, a, id);
    if By(a).Some? && HoldsLease(sys, By(a).value, id) { HoldersAlone(sys, By(a).value, w, id); }
    hide Act;
  }

  /** A row's soundness is a matter of its content. */
  lemma SameContentSound(id: nat, a: Job, b: Job)
    requires Content(a) == Content(b) && RowSound(id, a)
    ensures RowSound(id, b)
  {
    assert Content(a).original == Content(b).original && Content(a).stage == Content(b).stage && Content(a).extraction == Content(b).extraction;
    assert Content(a).candidate == Content(b).candidate && Content(a).approval == Content(b).approval && Content(a).receipt == Content(b).receipt;
    hide DistinctFiles;
  }

  /** The steps that can change a row's content. */
  predicate Writes(a: Action) {
    a.DoReserve? || a.DoReview? || a.DoApprove? || a.DoDeclare? || a.DoCustody? || a.DoExtract? || a.DoCommit? || a.DoBlock?
  }

  lemma OthersKeepContent(sys: Crew, a: Action, id: nat)
    requires !Writes(a)
    ensures Act(sys, a).db.jobs.Keys == sys.db.jobs.Keys
    ensures id in sys.db.jobs ==> Content(Act(sys, a).db.jobs[id]) == Content(sys.db.jobs[id])
  {
    hide Step, ReviewJob, Approve, Reserve, ActDeclare, ActVerify, ActExtract, ActCommit, ActBlock, Approvable;
  }

  lemma FencedRowKept(sys: Crew, a: Action, id: nat)
    requires (a.DoDeclare? || a.DoCustody? || a.DoExtract? || a.DoBlock?) && id in sys.db.jobs && RowSound(id, sys.db.jobs[id])
    requires HoldsLease(sys, a.w, id) ==> Knows(WorkerOf(sys, a.w), sys.db.jobs[id])
    ensures Act(sys, a).db.jobs.Keys == sys.db.jobs.Keys && RowSound(id, Act(sys, a).db.jobs[id])
  {
    hide DistinctFiles, ReviewJob, Approve, Reserve, ActCommit, ActRead, Step;
  }

  lemma CommitRowKept(sys: Crew, a: Action, id: nat)
    requires a.DoCommit? && id in sys.db.jobs && RowSound(id, sys.db.jobs[id])
    ensures Act(sys, a).db.jobs.Keys == sys.db.jobs.Keys && RowSound(id, Act(sys, a).db.jobs[id])
  {
    hide DistinctFiles, ApplyChanges, Propose, AllCurrent, IngestReceipt;
  }

  lemma ReviewRowKept(sys: Crew, a: Action, id: nat)
    requires (a.DoReview? || a.DoApprove?) && id in sys.db.jobs && RowSound(id, sys.db.jobs[id])
    ensures Act(sys, a).db.jobs.Keys == sys.db.jobs.Keys && RowSound(id, Act(sys, a).db.jobs[id])
  {
    hide DistinctFiles, AllCurrent, Previous;
  }

  lemma RowKept(sys: Crew, a: Action, id: nat)
    requires Inv(sys) && id in Act(sys, a).db.jobs
    ensures RowSound(id, Act(sys, a).db.jobs[id])
  {
    if a.DoReserve? {
      ReserveKeepsRows(sys.db, a.b, a.m, a.registry);
      hide Reserve, TokensFresh, HoldersKnow;
    } else if !Writes(a) {
      OthersKeepContent(sys, a, id);
      hide Act;
      SameContentSound(id, sys.db.jobs[id], Act(sys, a).db.jobs[id]);
    } else {
      if id in sys.db.jobs && By(a).Some? && HoldsLease(sys, By(a).value, id) { assert Knows(WorkerOf(sys, By(a).value), sys.db.jobs[id]); }
      LeasesMove(sys, a, id);
      WritesKeepRows(sys, a);
      hide Act, HoldersKnow, TokensFresh, RowSound, Knows, Content;
      if a.DoCommit? { CommitRowKept(sys, a, id); }
      else if a.DoReview? || a.DoApprove? { ReviewRowKept(sys, a, id); }
      else { FencedRowKept(sys, a, id); }
    }
  }

  lemma WritesKeepRows(sys: Crew, a: Action)
    requires Writes(a) && !a.DoReserve?
    ensures Act(sys, a).db.jobs.Keys == sys.db.jobs.Keys
  {
    hide DistinctFiles, ApplyChanges, Propose, AllCurrent, IngestReceipt, Previous, Approvable;
  }

  /** What a worker knows after its own step. */
  lemma OwnKnowledge(sys: Crew, a: Action, w: nat, id: nat)
    requires By(a) == Some(w) && !a.Start? && id in sys.db.jobs && HoldsLease(sys, w, id) && HoldsLease(Act(sys, a), w, id)
    requires Knows(WorkerOf(sys, w), sys.db.jobs[id]) && RowSound(id, sys.db.jobs[id])
    ensures Knows(WorkerOf(Act(sys, a), w), Act(sys, a).db.jobs[id])
  {
    hide Step, CommitJob, ReviewJob, Approve, Reserve, DistinctFiles;
  }

  lemma KnowledgeKept(sys: Crew, a: Action, w: nat, id: nat)
    requires Inv(sys) && HoldsLease(Act(sys, a), w, id)
    ensures Knows(WorkerOf(Act(sys, a), w), Act(sys, a).db.jobs[id])
  {
    var n := Act(sys, a);
    if By(a) != Some(w) {
      OthersStandStill(sys, a, w, id);
      WorkersMove(sys, a, w);
      hide Act, Leased;
      assert Knows(WorkerOf(sys, w), sys.db.jobs[id]);
      SameContentKnows(WorkerOf(sys, w), sys.db.jobs[id], n.db.jobs[id]);
    } else if !a.Start? {
      HeldBefore(sys, a, w, id);
      hide Act, RowSound, Knows, TokensFresh, Leased;
      assert Knows(WorkerOf(sys, w), sys.db.jobs[id]);
      assert RowSound(id, sys.db.jobs[id]);
      OwnKnowledge(sys, a, w, id);
    } else {
      hide TokensFresh, HoldersKnow, RowsSound;
    }
  }

  lemma SameContentKnows(p: Worker, a: Job, b: Job)
    requires Content(a) == Content(b) && Knows(p, a)
    ensures Knows(p, b)
  {
    assert Content(a).stage == Content(b).stage && Content(a).original == Content(b).original;
  }

  lemma InvKept(sys: Crew, a: Action)
    requires Inv(sys)
    ensures Inv(Act(sys, a))
  {
    TokensKept(sys, a);
    hide Act, RowSound, Knows, TokensFresh, Leased;
    forall id | id in Act(sys, a).db.jobs ensures RowSound(id, Act(sys, a).db.jobs[id]) { RowKept(sys, a, id); }
    forall w: nat, id: nat | HoldsLease(Act(sys, a), w, id) ensures Knows(WorkerOf(Act(sys, a), w), Act(sys, a).db.jobs[id]) {
      KnowledgeKept(sys, a, w, id);
    }
  }

  const START := Crew(Database(map[], EMPTY, 0, 0, 0), map[])

  lemma {:induction false} RunInv(sys: Crew, actions: seq<Action>)
    requires Inv(sys)
    ensures Inv(RunJobs(sys, actions))
    decreases |actions|
  {
    hide Inv, Act;
    if actions != [] {
      InvKept(sys, actions[0]);
      RunInv(Act(sys, actions[0]), actions[1..]);
    }
  }

  lemma StartInv()
    ensures Inv(START)
  {
  }

  // ---------------------------------------------------------------- what fencing gives

  /** However long a run, if a worker that took no step in it still holds the lease at its end, it held it all
      along and nobody has moved the row. */
  lemma {:induction false} UndisturbedUnderLease(sys: Crew, actions: seq<Action>, w: nat, id: nat)
    requires TokensFresh(sys) && HoldsLease(RunJobs(sys, actions), w, id)
    requires forall a :: a in actions ==> By(a) != Some(w)
    ensures HoldsLease(sys, w, id) && Content(RunJobs(sys, actions).db.jobs[id]) == Content(sys.db.jobs[id])
    decreases |actions|
  {
    hide Act, TokensFresh, HoldsLease, Content;
    if actions != [] {
      assert actions[0] in actions;
      TokensKept(sys, actions[0]);
      UndisturbedUnderLease(Act(sys, actions[0]), actions[1..], w, id);
      HoldsRow(Act(sys, actions[0]), w, id);
      OthersStandStill(sys, actions[0], w, id);
    }
  }

  lemma HoldsRow(sys: Crew, w: nat, id: nat)
    requires HoldsLease(sys, w, id)
    ensures id in sys.db.jobs
  {
  }

  /** The catch block of an `advance` whose lease is live. */
  predicate HandlerBlocks(sys: Crew, a: Action, id: nat) {
    a.DoBlock? && var p := WorkerOf(sys, a.w);
    p.Failing? && p.id == id && Leased(sys.db, id, p.token) && Visible(sys.db, p.b, id)
  }

  /** Such a catch block reached without ever having read the job. */
  predicate BlindBlock(sys: Crew, a: Action, id: nat) {
    HandlerBlocks(sys, a, id) && !WorkerOf(sys, a.w).read
  }

  /** What drags a job back. Leaving the commit of an approved job aside, no step of any worker, however stale what
      it knows, changes a job in review or later, except that the catch block of an `advance` under a live lease
      blocks it; and past review only one whose very first read failed gets there. */
  lemma OnlyBlindFailureDragsBack(sys: Crew, a: Action, id: nat)
    requires Inv(sys) && id in sys.db.jobs && By(a).Some? && Reviewable(sys.db.jobs[id].stage)
    requires a.DoCommit? ==> !sys.db.jobs[id].stage.Approved?
    ensures id in Act(sys, a).db.jobs
    ensures Content(Act(sys, a).db.jobs[id]) != Content(sys.db.jobs[id]) <==> HandlerBlocks(sys, a, id)
    ensures HandlerBlocks(sys, a, id) ==> Act(sys, a).db.jobs[id] == sys.db.jobs[id].(stage := Blocked)
    ensures !sys.db.jobs[id].stage.Review? ==> (HandlerBlocks(sys, a, id) <==> BlindBlock(sys, a, id))
  {
    Fenced(sys, a, id);
    if HoldsLease(sys, By(a).value, id) { assert Knows(WorkerOf(sys, By(a).value), sys.db.jobs[id]); }
    hide TokensFresh, HoldersKnow, RowsSound, Step, ApplyChanges, Propose, AllCurrent, DistinctFiles, IngestReceipt, Previous, Reserve;
  }

  /** Completion is left exactly by such a blind block, and by nothing else that anybody does. */
  lemma CompleteLeft(sys: Crew, a: Action, id: nat)
    requires Inv(sys) && id in sys.db.jobs && sys.db.jobs[id].stage.Complete?
    ensures id in Act(sys, a).db.jobs
    ensures Act(sys, a).db.jobs[id].stage != Complete <==> BlindBlock(sys, a, id)
  {
    Fenced(sys, a, id);
    if By(a).Some? && HoldsLease(sys, By(a).value, id) { assert Knows(WorkerOf(sys, By(a).value), sys.db.jobs[id]); }
    hide TokensFresh, HoldersKnow, RowsSound, Step, ApplyChanges, Propose, AllCurrent, DistinctFiles, IngestReceipt, Previous;
    if a.DoReserve? { ReserveKeepsRows(sys.db, a.b, a.m, a.registry); }
    hide Reserve;
  }

  /** So neither completion nor an approval is safe: from every job that nobody holds, whatever its stage, an
      `advance` whose first read fails leads to `blocked`. */
  lemma AnyStageCanBeLost(sys: Crew, w: nat, b: Binding, id: nat)
    requires Visible(sys.db, b, id) && sys.db.jobs[id].lease.None? && WorkerOf(sys, w).Out?
    ensures var end := RunJobs(sys, [Start(w, b, id, false), Fail(w), DoBlock(w)]);
            id in end.db.jobs && end.db.jobs[id].stage.Blocked?
  {
    var actions := [Start(w, b, id, false), Fail(w), DoBlock(w)];
    var one := Act(sys, actions[0]);
    var two := Act(one, actions[1]);
    assert WorkerOf(two, w) == Failing(b, id, sys.db.nextToken, false);
    assert Leased(two.db, id, sys.db.nextToken);
    var three := Act(two, actions[2]);
    assert actions[1..] == [Fail(w), DoBlock(w)] && actions[1..][1..] == [DoBlock(w)];
    assert RunJobs(two, [DoBlock(w)]) == three by { assert [DoBlock(w)][1..] == []; }
  }

  /** An approved job nobody holds is reachable, and so is its loss. */
  lemma ApprovalCanBeLost()
    ensures exists approved :: Reaches(START, approved) && Visible(approved.db, SOMEONE, 0) && approved.db.jobs[0].stage.Approved? &&
              var end := RunJobs(approved, [Start(0, SOMEONE, 0, false), Fail(0), DoBlock(0)]);
              0 in end.db.jobs && end.db.jobs[0].stage.Blocked?
  {
    ReachApproved([]);
    var approved := OneJob(ApprovedJob([]), 1, Out);
    hide Reaches, RunJobs;
    AnyStageCanBeLost(approved, 0, SOMEONE, 0);
    assert Reaches(START, approved);
  }

  lemma {:induction false} RunThen(sys: Crew, actions: seq<Action>, a: Action)
    ensures RunJobs(sys, actions + [a]) == Act(RunJobs(sys, actions), a)
    decreases |actions|
  {
    hide Act;
    if actions == [] {
      assert actions + [a] == [a] && [a][1..] == [];
      assert RunJobs(Act(sys, a), []) == Act(sys, a);
    } else {
      assert (actions + [a])[1..] == actions[1..] + [a];
      RunThen(Act(sys, actions[0]), actions[1..], a);
    }
  }

  const SOMEONE := Binding("owner", "brain", Actor("local", "operator"))

  const SUBJECT := Manifest("brain", "source", "notes.md", "artifact", "identity", "hash")

  /** A job with a verified original and an extraction, waiting for review; nobody holds it. */
  const EXTRACTED := Job("owner", "brain", "source", "notes.md", "artifact", "identity", "hash", Review,
                         Some(Original("bucket", true)), Some("text"), None, None, None, None, 1)

  /** Some run of these parties alone, without any hosted operation, leads there. */
  ghost predicate Reaches(sys: Crew, end: Crew) {
    exists actions: seq<Action> :: RunJobs(sys, actions) == end && forall a: Action :: a in actions ==> !a.Hosted?
  }

  lemma ReachesItself(sys: Crew)
    ensures Reaches(sys, sys)
  {
    assert RunJobs(sys, []) == sys;
  }

  lemma ReachesNext(sys: Crew, t: Crew, a: Action, u: Crew)
    requires Reaches(sys, t) && !a.Hosted? && Act(t, a) == u
    ensures Reaches(sys, u)
  {
    var actions: seq<Action> :| RunJobs(sys, actions) == t && forall x: Action :: x in actions ==> !x.Hosted?;
    RunThen(sys, actions, a);
    hide Act;
    assert RunJobs(sys, actions + [a]) == u;
  }

  function Held(job: Job, token: nat): Job {
    job.(lease := Some(Lease(token, 120)), attempts := job.attempts + 1)
  }

  function OneJob(job: Job, token: nat, p: Worker): Crew {
    Crew(Database(map[0 := job], EMPTY, 1, token, 0), map[0 := p])
  }

  lemma ReachClaimed()
    ensures Reaches(START, OneJob(Held(NewJob(SOMEONE, SUBJECT), 0), 1, Claimed(SOMEONE, 0, 0, false)))
  {
    var reserve := DoReserve(SOMEONE, SUBJECT, Registry(map[], map[]));
    var one := Act(START, reserve);
    assert one == Crew(Database(map[0 := NewJob(SOMEONE, SUBJECT)], EMPTY, 1, 0, 0), map[]);
    var two := Act(one, Start(0, SOMEONE, 0, false));
    assert two == OneJob(Held(NewJob(SOMEONE, SUBJECT), 0), 1, Claimed(SOMEONE, 0, 0, false));
    hide Act, Reaches;
    ReachesItself(START);
    ReachesNext(START, START, reserve, one);
    ReachesNext(START, one, Start(0, SOMEONE, 0, false), two);
  }

  lemma ReachVerified()
    ensures var held := Held(NewJob(SOMEONE, SUBJECT), 0);
            Reaches(START, OneJob(held.(original := Some(Original("bucket", true)), stage := Stage.Verified), 1,
                                         Advancing(SOMEONE, 0, 0, held, Extracting)))
  {
    ReachClaimed();
    var held := Held(NewJob(SOMEONE, SUBJECT), 0);
    var s0 := OneJob(held, 1, Claimed(SOMEONE, 0, 0, false));
    var s1 := OneJob(held, 1, Advancing(SOMEONE, 0, 0, held, Recording));
    var s2 := OneJob(held.(original := Some(Original("bucket", false))), 1, Advancing(SOMEONE, 0, 0, held, Verifying));
    var s3 := OneJob(held.(original := Some(Original("bucket", true)), stage := Stage.Verified), 1, Advancing(SOMEONE, 0, 0, held, Extracting));
    hide Reaches, ReviewJob, Approve, Reserve, Step, CommitJob, ActCommit, ActExtract, ActFinish, ActBlock, ActRelease;
    ReachesNext(START, s0, ReadJob(0, "bucket"), s1);
    ReachesNext(START, s1, DoDeclare(0, "bucket"), s2);
    ReachesNext(START, s2, DoCustody(0, "bucket"), s3);
  }

  /** One `advance`, from reservation to review. */
  lemma ReachReview()
    ensures Reaches(START, OneJob(EXTRACTED, 1, Out))
  {
    ReachVerified();
    var held := Held(NewJob(SOMEONE, SUBJECT), 0);
    var s3 := OneJob(held.(original := Some(Original("bucket", true)), stage := Stage.Verified), 1, Advancing(SOMEONE, 0, 0, held, Extracting));
    var s4 := OneJob(Held(EXTRACTED, 0).(attempts := 1), 1, Advancing(SOMEONE, 0, 0, held, Returning));
    var s5 := OneJob(Held(EXTRACTED, 0).(attempts := 1), 1, Leaving(SOMEONE, 0, 0));
    hide Reaches, ReviewJob, Approve, Reserve, Step, CommitJob, ActCommit, ActRead, ActDeclare, ActVerify, ActBlock;
    ReachesNext(START, s3, DoExtract(0, "text"), s4);
    ReachesNext(START, s4, Finish(0), s5);
    ReachesNext(START, s5, DoRelease(0), OneJob(EXTRACTED, 1, Out));
  }

  function Files(extra: seq<FileChange>): seq<FileChange> {
    [FileChange("notes.md", None, "compiled")] + extra
  }

  /** The bundle reviewed for that job: its companion and some other new files. */
  function Bundle(extra: seq<FileChange>): Candidate {
    Candidate(0, "hash", "text", Files(extra), Previous(EMPTY, "brain", Files(extra)))
  }

  predicate FewNew(extra: seq<FileChange>) {
    |Files(extra)| <= MAX_CHANGES && DistinctFiles(Files(extra)) && AllCurrent(EMPTY, "brain", Files(extra))
  }

  function ApprovedJob(extra: seq<FileChange>): Job {
    EXTRACTED.(candidate := Some(Bundle(extra)), stage := Approved, approval := Some(Approval(Bundle(extra), SOMEONE.actor)))
  }

  lemma ReachApproved(extra: seq<FileChange>)
    requires FewNew(extra)
    ensures Reaches(START, OneJob(ApprovedJob(extra), 1, Out))
  {
    ReachReview();
    var s0 := OneJob(EXTRACTED, 1, Out);
    var s1 := OneJob(EXTRACTED.(candidate := Some(Bundle(extra))), 1, Out);
    var s2 := OneJob(ApprovedJob(extra), 1, Out);
    hide Reaches, DistinctFiles, AllCurrent, Previous;
    ReachesNext(START, s0, DoReview(SOMEONE, 0, "text", "compiled", extra, None), s1);
    ReachesNext(START, s1, DoApprove(SOMEONE, 0, Bundle(extra)), s2);
  }

  lemma ReachApplying(extra: seq<FileChange>)
    requires FewNew(extra)
    ensures var held := Held(ApprovedJob(extra), 1);
            Reaches(START, OneJob(held, 2, Applying(SOMEONE, 0, 1, held)))
  {
    ReachApproved(extra);
    var approved := ApprovedJob(extra);
    var held := Held(approved, 1);
    var s0 := OneJob(approved, 1, Out);
    var s1 := OneJob(held, 2, Claimed(SOMEONE, 0, 1, true));
    var s2 := OneJob(held, 2, Applying(SOMEONE, 0, 1, held));
    hide Reaches, ReviewJob, Approve, Reserve, Step, CommitJob, ActCommit, ActDeclare, ActVerify, ActExtract, ActFinish, ActBlock, ActRelease, Bundle;
    ReachesNext(START, s0, Start(0, SOMEONE, 0, true), s1);
    ReachesNext(START, s1, ReadJob(0, "bucket"), s2);
  }

  lemma FirstCommit(db: Database, env: Env, session: Session)
    requires env.deployment == Configured(None) && session.request.None?
    requires db.store == EMPTY && Visible(db, SOMEONE, 0) && Leased(db, 0, 1) && Approvable(db.jobs[0])
    requires db.jobs[0].companion == "notes.md" && db.jobs[0].candidate == Some(Bundle([])) && db.jobs[0].approval.value.actor == SOMEONE.actor
    ensures var commit := CommitJob(db, SOMEONE, 0, 1, env, session, Files([]));
            && commit.Ok? && Visible(commit.value, SOMEONE, 0)
            && commit.value.jobs[0].stage.Complete? && commit.value.jobs[0].lease == db.jobs[0].lease
  {
    FirstWrite(env, session, db.jobs[0]);
    assert AllCurrent(EMPTY, "brain", Files([]));
    hide ApplyChanges, AllCurrent, Approvable;
  }

  /** Review, approval and one `apply` complete it: completion is reachable, with nobody holding the job. */
  lemma ReachComplete(env: Env, session: Session)
    requires env.deployment == Configured(None) && session.request.None?
    ensures exists end :: Reaches(START, end) &&
                          Visible(end.db, SOMEONE, 0) && end.db.jobs[0].stage.Complete? &&
                          end.db.jobs[0].lease.None? && WorkerOf(end, 0).Out?
  {
    ReachApplying([]);
    var held := Held(ApprovedJob([]), 1);
    var s2 := OneJob(held, 2, Applying(SOMEONE, 0, 1, held));
    FirstCommit(s2.db, env, session);
    hide Reaches, ReviewJob, Approve, Reserve, Step, ActRead, ActDeclare, ActVerify, ActExtract, ActFinish, ActBlock, CommitJob;
    var commit := CommitJob(s2.db, SOMEONE, 0, 1, env, session, Files([]));
    var s3 := Crew(commit.value, map[0 := Leaving(SOMEONE, 0, 1)]);
    assert Act(s2, DoCommit(0, env, session, Files([]))) == s3;
    ReachesNext(START, s2, DoCommit(0, env, session, Files([])), s3);
    LastRelease(s3, SOMEONE, 0, 1);
    hide ActCommit, Act;
    ReachesNext(START, s3, DoRelease(0), Act(s3, DoRelease(0)));
  }

  lemma LastRelease(sys: Crew, b: Binding, id: nat, token: nat)
    requires WorkerOf(sys, 0) == Leaving(b, id, token) && Visible(sys.db, b, id) && sys.db.jobs[id].stage.Complete?
    requires sys.db.jobs[id].lease.Some? && sys.db.jobs[id].lease.value.token == token
    ensures var end := Act(sys, DoRelease(0));
            Visible(end.db, b, id) && end.db.jobs[id].stage.Complete? && end.db.jobs[id].lease.None? && WorkerOf(end, 0).Out?
  {
  }

  lemma FirstWrite(env: Env, session: Session, job: Job)
    requires env.deployment == Configured(None) && session.request.None? && job.companion == "notes.md"
    ensures ApplyChanges(EMPTY, env, SOMEONE, session, 0, job, SOMEONE.actor, Files([]), []).Written?
  {
    var input := ChangeProposal(SOMEONE, session, 0, job, SOMEONE.actor, Files([])[0]);
    var (t, outcome) := Propose(EMPTY, env, input);
    assert outcome.Accepted?;
    assert Files([])[1..] == [];
  }

  // ---------------------------------------------------------------- reservations

  /** Source, subject and companion determine one another. */
  predicate Paired(a: Job, b: Job) {
    && (a.source == b.source ==> a.owner == b.owner && a.brain == b.brain && a.identity == b.identity && a.companion == b.companion)
    && (a.owner == b.owner && a.brain == b.brain && a.identity == b.identity ==> a.source == b.source)
    && (a.brain == b.brain && a.companion == b.companion ==> a.source == b.source)
  }

  predicate SameContentJob(a: Job, b: Job) {
    a.owner == b.owner && a.brain == b.brain && a.identity == b.identity && a.sha == b.sha
  }

  ghost predicate Reservations(jobs: map<nat, Job>) {
    && (forall i, j :: i in jobs && j in jobs ==> Paired(jobs[i], jobs[j]))
    && (forall i, j :: i in jobs && j in jobs && (SameContentJob(jobs[i], jobs[j]) || jobs[i].artifact == jobs[j].artifact) ==> i == j)
  }

  predicate SameIdentity(a: Job, b: Job) {
    SameContentJob(a, b) && a.source == b.source && a.companion == b.companion && a.artifact == b.artifact
  }

  lemma FencedIdentity(sys: Crew, a: Action, id: nat)
    requires (a.DoDeclare? || a.DoCustody? || a.DoExtract? || a.DoBlock?) && id in sys.db.jobs && id in Act(sys, a).db.jobs
    ensures SameIdentity(Act(sys, a).db.jobs[id], sys.db.jobs[id])
  {
    hide ReviewJob, Approve, Reserve, ActCommit, ActRead, Step;
  }

  lemma CommitIdentity(sys: Crew, a: Action, id: nat)
    requires a.DoCommit? && id in sys.db.jobs && id in Act(sys, a).db.jobs
    ensures SameIdentity(Act(sys, a).db.jobs[id], sys.db.jobs[id])
  {
    hide ApplyChanges, Propose, AllCurrent, IngestReceipt, Approvable;
  }

  lemma ReviewIdentity(sys: Crew, a: Action, id: nat)
    requires (a.DoReview? || a.DoApprove?) && id in sys.db.jobs && id in Act(sys, a).db.jobs
    ensures SameIdentity(Act(sys, a).db.jobs[id], sys.db.jobs[id])
  {
    hide DistinctFiles, AllCurrent, Previous;
  }

  lemma IdentityKept(sys: Crew, a: Action, id: nat)
    requires id in sys.db.jobs && !a.DoReserve?
    ensures Act(sys, a).db.jobs.Keys == sys.db.jobs.Keys && SameIdentity(Act(sys, a).db.jobs[id], sys.db.jobs[id])
  {
    if !Writes(a) {
      OthersKeepContent(sys, a, id);
      hide Act;
      assert SameIdentity(Content(Act(sys, a).db.jobs[id]), Content(sys.db.jobs[id]));
    } else {
      WritesKeepRows(sys, a);
      hide Act, SameIdentity;
      if a.DoCommit? { CommitIdentity(sys, a, id); }
      else if a.DoReview? || a.DoApprove? { ReviewIdentity(sys, a, id); }
      else { FencedIdentity(sys, a, id); }
    }
  }

  lemma ReserveSound(db: Database, b: Binding, m: Manifest, registry: Registry)
    requires Reservations(db.jobs)
    ensures Reservations(Reserve(db, b, m, registry).0.jobs)
    ensures Reserve(db, b, m, registry).1.Ok? ==>
              var id := Reserve(db, b, m, registry).1.value;
              && id in Reserve(db, b, m, registry).0.jobs
              && var job := Reserve(db, b, m, registry).0.jobs[id];
                 Owns(b, job) && job.identity == m.identity && job.sha == m.sha && job.source == m.source && job.companion == m.companion
  {
    var (t, answer) := Reserve(db, b, m, registry);
    if ReserveRefusal(db, b, m, registry).None? {
      forall id | id in db.jobs ensures Paired(db.jobs[id], NewJob(b, m)) && Paired(NewJob(b, m), db.jobs[id]) {
        UnrefusedPairs(db, b, m, registry, id);
      }
      if answer.Ok? && t == db { UnrefusedPairs(db, b, m, registry, answer.value); }
    }
    hide ReserveRefusal;
    if t != db {
      var job := NewJob(b, m);
      forall id | id in db.jobs ensures !SameContentJob(db.jobs[id], job) && db.jobs[id].artifact != job.artifact {
        assert !IsExisting(b, m, db.jobs[id]);
      }
      ReservationsGrow(db.jobs, db.nextJob, job);
    }
  }

  /** What passes the guards of a reservation is paired with every row there is. */
  lemma UnrefusedPairs(db: Database, b: Binding, m: Manifest, registry: Registry, id: nat)
    requires ReserveRefusal(db, b, m, registry).None? && id in db.jobs
    ensures Paired(db.jobs[id], NewJob(b, m)) && Paired(NewJob(b, m), db.jobs[id]) && m.brain == b.brain
  {
  }

  lemma ReservationsGrow(jobs: map<nat, Job>, id: nat, job: Job)
    requires Reservations(jobs)
    requires forall i :: i in jobs ==> Paired(jobs[i], job) && Paired(job, jobs[i])
    requires forall i :: i in jobs ==> !SameContentJob(jobs[i], job) && jobs[i].artifact != job.artifact
    ensures Reservations(jobs[id := job])
  {
    hide Paired;
    var grown := jobs[id := job];
    forall i, j | i in grown && j in grown ensures Paired(grown[i], grown[j]) {
      if i == id && j == id { PairedSelf(job); }
    }
  }

  lemma PairedSelf(job: Job)
    ensures Paired(job, job)
  {
  }

  /** Identity reservation. In every reachable table, source id, (owner, Brain, identity) and (Brain, companion)
      determine one another, and no content of a subject has two jobs. */
  lemma {:induction false} RunReservations(sys: Crew, actions: seq<Action>)
    requires Reservations(sys.db.jobs)
    ensures Reservations(RunJobs(sys, actions).db.jobs)
    decreases |actions|
  {
    if actions != [] {
      var a := actions[0];
      if a.DoReserve? {
        ReserveSound(sys.db, a.b, a.m, a.registry);
      } else {
        hide Act;
        forall id | id in sys.db.jobs ensures Act(sys, a).db.jobs.Keys == sys.db.jobs.Keys && SameIdentity(Act(sys, a).db.jobs[id], sys.db.jobs[id]) {
          IdentityKept(sys, a, id);
        }
        if sys.db.jobs == map[] { NoRowsAppear(sys, a); }
      }
      hide Reserve, Act;
      RunReservations(Act(sys, a), actions[1..]);
    }
  }

  lemma NoRowsAppear(sys: Crew, a: Action)
    requires sys.db.jobs == map[] && !a.DoReserve?
    ensures Act(sys, a).db.jobs == map[]
  {
    hide Step;
  }
}
