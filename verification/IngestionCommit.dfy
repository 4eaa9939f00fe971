/** Reviewed bytes are what commits: what the transaction of `apply` leaves behind. */
module IngestionCommit {
  import opened Wrappers
  import opened Text
  import opened RevisionModel
  import opened RevisionHistory
  import opened RevisionStamps
  import opened RevisionTheorems
  import opened IngestionModel
  import Log
  import IngestionRuns

  ghost predicate Genuine(s: Store) {
    Sound(s) && AllStamped(s)
  }

  lemma GenuineSound(s: Store)
    requires Genuine(s)
    ensures Sound(s)
  {
  }

  predicate Holds(s: Store, key: Key, content: string) {
    IsLive(s, key) && s.heads[key].content == content && s.heads[key].hash == Live(content)
  }

  function FileKey(b: Binding, change: FileChange): Key {
    Key(b.brain, change.filename)
  }

  predicate TouchesLog(changes: seq<FileChange>) {
    exists i :: 0 <= i < |changes| && changes[i].filename == "LOG.md"
  }

  /** A proposal touches its own file and, when it wants a receipt, LOG.md. */
  lemma ProposeFrame(s: Store, env: Env, input: Proposal, key: Key)
    requires Sound(s) && (Propose(s, env, input).1.Accepted? || Propose(s, env, input).1.Unchanged?)
    requires key != input.key && (key != LogKey(input.key.brain) || !IsExternal(input))
    ensures Head(Propose(s, env, input).0, key) == Head(s, key)
  {
    hide Sound, Propose, ApplyFile, RevisionModel.Receipt, OperationHash, CarriesOperation;
    ProposalAccounting(s, env, input);
    if ApplyFile(s, env, input).2 { AdmittedRevision(s, env, input); }
  }

  lemma ProposeGenuine(s: Store, env: Env, input: Proposal)
    requires Genuine(s) && Honest(input)
    ensures Genuine(Propose(s, env, input).0)
  {
    ProposeSound(s, env, input);
    ProposeStamped(s, env, input);
    hide Sound, AllStamped, Propose;
  }

  /** A proposal answers what its own file's write came to. */
  lemma ProposeAnswers(s: Store, env: Env, input: Proposal)
    requires Propose(s, env, input).1.Accepted? || Propose(s, env, input).1.Unchanged?
    ensures Propose(s, env, input).1 == ApplyFile(s, env, input).1
    ensures Propose(s, env, input).1.Unchanged? ==> Propose(s, env, input).0 == s == ApplyFile(s, env, input).0
  {
    ApplyCases(s, env, input);
    var t := ApplyFile(s, env, input).0;
    ReceiptEnds(t, env, input);
    hide ApplyFile, RevisionModel.Receipt, Admit, FindOperation, OperationHash, RecordConflict;
  }

  lemma ReceiptEnds(s: Store, env: Env, input: Proposal)
    ensures Ends(s, env, RevisionModel.Receipt(s, env, input), ApplyFile(s, env, RevisionModel.Receipt(s, env, input)).0,
                 ApplyFile(s, env, RevisionModel.Receipt(s, env, input)).1, ApplyFile(s, env, RevisionModel.Receipt(s, env, input)).2)
  {
    ApplyCases(s, env, RevisionModel.Receipt(s, env, input));
  }

  /** A proposal on the current head that succeeds leaves its content at the head. */
  lemma ProposeLands(s: Store, env: Env, input: Proposal)
    requires Genuine(s) && input.base == HeadId(s, input.key)
    requires Propose(s, env, input).1.Accepted? || Propose(s, env, input).1.Unchanged?
    ensures var (t, outcome) := Propose(s, env, input);
            Holds(t, input.key, input.content) && input.key in t.heads && t.heads[input.key] == outcome.revision
  {
    hide Sound, AllStamped, RevisionModel.Receipt, Admit, FindOperation, OperationHash, ApplyFile;
    ProposeAnswers(s, env, input);
    OnHeadTakesEffect(s, env, input);
    ProposalAccounting(s, env, input);
  }

  /** No revision of a log carries a request hash, so a proposal to a log is never answered by a replay. */
  lemma LogNeverReplays(s: Store, env: Env, input: Proposal)
    requires Genuine(s) && input.key.filename == "LOG.md" && IsExternal(input)
    requires FindOperation(s, input.key.brain, input.context.value.request.operationId, 1).Some?
    ensures ApplyFile(s, env, input).1.Threw?
  {
    var r := FindOperation(s, input.key.brain, input.context.value.request.operationId, 1).value;
    LogIsLogPath();
    FindOperationRecorded(s, input.key.brain, input.context.value.request.operationId, 1);
    assert Stamped(s.revisions[r.id]);
    hide Sound, IsLogPath, Admit;
  }

  lemma ApplyLands(s: Store, env: Env, input: Proposal)
    requires Genuine(s) && input.key.filename == "LOG.md"
    requires ApplyFile(s, env, input).1.Accepted? || ApplyFile(s, env, input).1.Unchanged?
    ensures Holds(ApplyFile(s, env, input).0, input.key, input.content)
  {
    hide Genuine, Sound, Admit, FindOperation, OperationHash, IsLogPath, ApplyFile, RecordConflict, LiveText;
    ApplyCases(s, env, input);
    GenuineSound(s);
    if input.key in s.heads { HeadRevision(s, input.key); }
    if Replays(s, input) { LogNeverReplays(s, env, input); }
  }

  /** The same of LOG.md, whatever its base. */
  lemma LogLands(s: Store, env: Env, input: Proposal)
    requires Genuine(s) && input.key.filename == "LOG.md"
    requires Propose(s, env, input).1.Accepted? || Propose(s, env, input).1.Unchanged?
    ensures Holds(Propose(s, env, input).0, input.key, input.content)
  {
    ApplyLands(s, env, input);
    if ApplyFile(s, env, input).2 { LogWantsNoReceipt(s, env, input); }
    hide Genuine, ApplyFile, RevisionModel.Receipt, IsLogPath, Holds;
  }

  lemma LogWantsNoReceipt(s: Store, env: Env, input: Proposal)
    requires input.key.filename == "LOG.md"
    ensures !ApplyFile(s, env, input).2
  {
    LogIsLogPath();
    hide FindOperation, OperationHash, IsLogPath, QueueRefuses, CheckAllEvidence;
  }

  // ---------------------------------------------------------------- the writes of one transaction

  /** The receipt row names the file, and the head it now has. */
  predicate Records(s: Store, b: Binding, change: FileChange, r: Revised) {
    && FileKey(b, change) in s.heads
    && r == Revised(change.filename, s.heads[FileKey(b, change)].id, s.heads[FileKey(b, change)].hash)
  }

  lemma ContextHonest(b: Binding, session: Session, id: nat, job: Job, actor: Actor, change: FileChange)
    ensures Honest(ChangeProposal(b, session, id, job, actor, change))
    ensures session.request.None? ==> !IsExternal(ChangeProposal(b, session, id, job, actor, change))
  {
  }

  /** LOG.md is set apart when the transaction itself writes to it. */
  predicate Apart(change: FileChange, logged: bool) {
    logged && change.filename == "LOG.md"
  }

  lemma {:induction false} ChangesLand(
    s: Store, env: Env, b: Binding, session: Session, id: nat, job: Job, actor: Actor, changes: seq<FileChange>, done: seq<Revised>)
    requires Genuine(s) && DistinctFiles(changes)
    requires forall i :: 0 <= i < |changes| && !Apart(changes[i], session.request.Some?) ==> Current(s, b.brain, changes[i])
    requires ApplyChanges(s, env, b, session, id, job, actor, changes, done).Written?
    ensures var w := ApplyChanges(s, env, b, session, id, job, actor, changes, done);
            && Genuine(w.store) && |w.revisions| == |done| + |changes| && done <= w.revisions
            && (forall i :: 0 <= i < |changes| && !Apart(changes[i], session.request.Some?) ==>
                  && Holds(w.store, FileKey(b, changes[i]), changes[i].content)
                  && Records(w.store, b, changes[i], w.revisions[|done| + i]))
            && (forall key ::
                  (forall i :: 0 <= i < |changes| ==> key != FileKey(b, changes[i])) && (key != LogKey(b.brain) || session.request.None?) ==>
                    Head(w.store, key) == Head(s, key))
    decreases |changes|
  {
    hide Genuine, Holds, Records, Propose, ChangeProposal;
    if changes != [] {
      var input := ChangeProposal(b, session, id, job, actor, changes[0]);
      var (t, outcome) := Propose(s, env, input);
      var rest := changes[1..];
      var more := done + [Revised(changes[0].filename, outcome.revision.id, outcome.revision.hash)];
      ContextHonest(b, session, id, job, actor, changes[0]);
      ProposalKey(b, session, id, job, actor, changes[0]);
      ProposeGenuine(s, env, input);
      if !Apart(changes[0], session.request.Some?) { ProposeLands(s, env, input); }
      GenuineSound(s);
      forall i | 0 <= i < |rest| && !Apart(rest[i], session.request.Some?) ensures Current(t, b.brain, rest[i]) {
        assert rest[i] == changes[i + 1] && Current(s, b.brain, changes[i + 1]);
        ProposeFrame(s, env, input, FileKey(b, rest[i]));
      }
      ChangesLand(t, env, b, session, id, job, actor, rest, more);
      var w := ApplyChanges(s, env, b, session, id, job, actor, changes, done);
      assert w == ApplyChanges(t, env, b, session, id, job, actor, rest, more);
      hide ApplyChanges;
      if !Apart(changes[0], session.request.Some?) {
        var key0 := FileKey(b, changes[0]);
        assert Head(w.store, key0) == Head(t, key0);
        RecordsOutcome(t, b, changes[0], outcome.revision);
        HeldAlike(t, w.store, b, changes[0], more[|done|]);
      }
      forall i | 0 <= i < |changes| && !Apart(changes[i], session.request.Some?)
        ensures Holds(w.store, FileKey(b, changes[i]), changes[i].content) && Records(w.store, b, changes[i], w.revisions[|done| + i])
      {
        if i > 0 {
          assert changes[i] == rest[i - 1] && |more| + (i - 1) == |done| + i;
        } else {
          assert w.revisions[|done|] == more[|done|];
        }
      }
      forall key | (forall i :: 0 <= i < |changes| ==> key != FileKey(b, changes[i])) && (key != LogKey(b.brain) || session.request.None?)
        ensures Head(w.store, key) == Head(s, key)
      {
        ProposeFrame(s, env, input, key);
        assert forall i :: 0 <= i < |rest| ==> rest[i] == changes[i + 1];
      }
    }
  }

  lemma ProposalKey(b: Binding, session: Session, id: nat, job: Job, actor: Actor, change: FileChange)
    ensures var input := ChangeProposal(b, session, id, job, actor, change);
            input.key == FileKey(b, change) && input.base == change.expected && input.content == change.content
  {
  }

  lemma HeldAlike(s: Store, t: Store, b: Binding, change: FileChange, row: Revised)
    requires Head(s, FileKey(b, change)) == Head(t, FileKey(b, change))
    ensures Holds(s, FileKey(b, change), change.content) ==> Holds(t, FileKey(b, change), change.content)
    ensures Records(s, b, change, row) ==> Records(t, b, change, row)
  {
  }

  lemma RecordsOutcome(s: Store, b: Binding, change: FileChange, r: Revision)
    requires FileKey(b, change) in s.heads && s.heads[FileKey(b, change)] == r
    ensures Records(s, b, change, Revised(change.filename, r.id, r.hash))
  {
  }

  // ---------------------------------------------------------------- the log outgrows what was reviewed of it

  function LogText(s: Store, brain: string): string {
    if LogKey(brain) in s.heads then s.heads[LogKey(brain)].content else ""
  }

  lemma AppendGrows(content: string, entry: string)
    ensures |Ink(Log.AppendLogEntry(content, entry))| >= |Ink(content)| + |Ink(entry)|
  {
    Log.AppendKeepsInk(content, entry);
    InkBlank(content);
    hide Log.AppendLogEntry, Log.LOG_HEADER, Ink;
  }

  /** A write to another file never takes anything off the log. */
  lemma LogOnlyGrows(s: Store, env: Env, input: Proposal)
    requires Sound(s) && input.key != LogKey(input.key.brain)
    requires Propose(s, env, input).1.Accepted? || Propose(s, env, input).1.Unchanged?
    ensures |Ink(LogText(Propose(s, env, input).0, input.key.brain))| >= |Ink(LogText(s, input.key.brain))|
  {
    ProposalAccounting(s, env, input);
    var log := LogKey(input.key.brain);
    var text := if log in s.heads && s.heads[log].content != "" then s.heads[log].content else Log.LOG_HEADER;
    AppendGrows(text, ReceiptEntry(env, input.key.filename));
    NoInkInEmpty();
    hide Sound, Propose, ApplyFile, Ink, Log.AppendLogEntry, ReceiptEntry, Log.LOG_HEADER;
  }

  lemma {:induction false} LogKept(
    s: Store, env: Env, b: Binding, session: Session, id: nat, job: Job, actor: Actor, changes: seq<FileChange>, done: seq<Revised>)
    requires Genuine(s) && !TouchesLog(changes) && ApplyChanges(s, env, b, session, id, job, actor, changes, done).Written?
    ensures |Ink(LogText(ApplyChanges(s, env, b, session, id, job, actor, changes, done).store, b.brain))| >= |Ink(LogText(s, b.brain))|
    ensures Genuine(ApplyChanges(s, env, b, session, id, job, actor, changes, done).store)
    decreases |changes|
  {
    hide Genuine, Propose, ChangeProposal, Ink, LogText;
    if changes != [] {
      var input := ChangeProposal(b, session, id, job, actor, changes[0]);
      var (t, outcome) := Propose(s, env, input);
      ContextHonest(b, session, id, job, actor, changes[0]);
      ProposalKey(b, session, id, job, actor, changes[0]);
      GenuineSound(s);
      assert changes[0].filename != "LOG.md";
      LogOnlyGrows(s, env, input);
      ProposeGenuine(s, env, input);
      assert forall i :: 0 <= i < |changes[1..]| ==> changes[1..][i] == changes[i + 1];
      LogKept(t, env, b, session, id, job, actor, changes[1..], done + [Revised(changes[0].filename, outcome.revision.id, outcome.revision.hash)]);
    }
  }

  lemma {:induction false} LogOutgrows(
    s: Store, env: Env, b: Binding, session: Session, id: nat, job: Job, actor: Actor, changes: seq<FileChange>, done: seq<Revised>, k: nat)
    requires Genuine(s) && DistinctFiles(changes) && k < |changes| && changes[k].filename == "LOG.md"
    requires ApplyChanges(s, env, b, session, id, job, actor, changes, done).Written?
    ensures |Ink(LogText(ApplyChanges(s, env, b, session, id, job, actor, changes, done).store, b.brain))| >= |Ink(changes[k].content)|
    ensures Genuine(ApplyChanges(s, env, b, session, id, job, actor, changes, done).store)
    decreases |changes|
  {
    hide Genuine, Propose, ChangeProposal, Ink, IsLogPath;
    var input := ChangeProposal(b, session, id, job, actor, changes[0]);
    var (t, outcome) := Propose(s, env, input);
    ContextHonest(b, session, id, job, actor, changes[0]);
    ProposalKey(b, session, id, job, actor, changes[0]);
    ProposeGenuine(s, env, input);
    var more := done + [Revised(changes[0].filename, outcome.revision.id, outcome.revision.hash)];
    assert forall i :: 0 <= i < |changes[1..]| ==> changes[1..][i] == changes[i + 1];
    if k == 0 {
      LogLands(s, env, input);
      LogKept(t, env, b, session, id, job, actor, changes[1..], more);
    } else {
      LogOutgrows(t, env, b, session, id, job, actor, changes[1..], more, k - 1);
    }
  }

  // ---------------------------------------------------------------- the transaction

  lemma TwiceCounts<T>(s: seq<T>, i: nat, j: nat)
    requires i < j < |s| && s[i] == s[j]
    ensures multiset(s)[s[i]] >= 2
  {
    assert s == s[..j] + [s[j]] + s[j + 1..];
    assert s[i] in multiset(s[..j]) by { assert s[..j][i] == s[i]; }
  }

  lemma {:induction false} CountsTwice<T>(s: seq<T>, x: T)
    requires multiset(s)[x] >= 2
    ensures exists i, j :: 0 <= i < j < |s| && s[i] == x && s[j] == x
  {
    assert s == [s[0]] + s[1..];
    if s[0] == x {
      assert x in multiset(s[1..]);
      var j :| 0 <= j < |s[1..]| && s[1..][j] == x;
      assert s[0] == x && s[j + 1] == x;
    } else {
      CountsTwice(s[1..], x);
      var i, j :| 0 <= i < j < |s[1..]| && s[1..][i] == x && s[1..][j] == x;
      assert s[i + 1] == x && s[j + 1] == x;
    }
  }

  lemma Reordered(a: seq<FileChange>, b: seq<FileChange>)
    requires multiset(a) == multiset(b) && DistinctFiles(a)
    ensures DistinctFiles(b) && |a| == |b|
    ensures forall c :: c in a <==> c in b
  {
    assert |multiset(a)| == |multiset(b)|;
    forall c ensures c in a <==> c in b {
      assert c in multiset(a) <==> c in multiset(b);
    }
    forall i, j | 0 <= i < j < |b| ensures b[i].filename != b[j].filename {
      if b[i] == b[j] {
        TwiceCounts(b, i, j);
        CountsTwice(a, b[i]);
      } else {
        assert b[i] in a && b[j] in a;
        var m :| 0 <= m < |a| && a[m] == b[i];
        var n :| 0 <= n < |a| && a[n] == b[j];
        assert m < n || n < m;
      }
    }
  }

  lemma ReorderedCurrent(s: Store, brain: string, a: seq<FileChange>, b: seq<FileChange>)
    requires forall c :: c in a <==> c in b
    ensures AllCurrent(s, brain, a) <==> AllCurrent(s, brain, b)
    ensures TouchesLog(a) <==> TouchesLog(b)
  {
    hide Current;
    if AllCurrent(s, brain, a) { forall i | 0 <= i < |b| ensures Current(s, brain, b[i]) { assert b[i] in a; } }
    if AllCurrent(s, brain, b) { forall i | 0 <= i < |a| ensures Current(s, brain, a[i]) { assert a[i] in b; } }
    if TouchesLog(a) { var i :| 0 <= i < |a| && a[i].filename == "LOG.md"; assert a[i] in b; }
    if TouchesLog(b) { var i :| 0 <= i < |b| && b[i].filename == "LOG.md"; assert b[i] in a; }
  }

  /** Every file of the candidate, or every one but LOG.md, holds exactly its reviewed content. */
  predicate AllHold(s: Store, b: Binding, changes: seq<FileChange>, logged: bool) {
    forall i :: 0 <= i < |changes| && !Apart(changes[i], logged) ==> Holds(s, FileKey(b, changes[i]), changes[i].content)
  }

  /** The receipt has one row for each change, naming the head it now has. */
  predicate AllRecorded(s: Store, b: Binding, ordered: seq<FileChange>, rows: seq<Revised>, logged: bool) {
    |rows| == |ordered| && forall i :: 0 <= i < |ordered| && !Apart(ordered[i], logged) ==> Records(s, b, ordered[i], rows[i])
  }

  ghost predicate OthersUntouched(s: Store, t: Store, b: Binding, changes: seq<FileChange>, logged: bool) {
    forall key :: (forall i :: 0 <= i < |changes| ==> key != FileKey(b, changes[i])) && (key != LogKey(b.brain) || !logged) ==>
      Head(t, key) == Head(s, key)
  }

  /** The writes and the receipt of a transaction that goes through. */
  function Committed(s: Store, env: Env, b: Binding, session: Session): Store {
    if session.request.None? then s else Propose(s, env, IngestReceipt(s, b, session)).0
  }

  lemma IngestReceiptShape(s: Store, b: Binding, session: Session)
    ensures var input := IngestReceipt(s, b, session);
            && input.key == LogKey(b.brain) && input.base == HeadId(s, input.key) && Honest(input) && !IsExternal(input)
            && input.content == Log.AppendLogEntry(LogText(s, b.brain), IngestEntry(session))
  {
  }

  /** The receipt changes LOG.md alone, and only adds to it. */
  lemma ReceiptLands(s: Store, env: Env, b: Binding, session: Session)
    requires Genuine(s) && session.request.Some? && !Propose(s, env, IngestReceipt(s, b, session)).1.Threw?
    ensures var t := Committed(s, env, b, session);
            && |Ink(LogText(t, b.brain))| > |Ink(LogText(s, b.brain))|
            && forall key :: key != LogKey(b.brain) ==> Head(t, key) == Head(s, key)
  {
    var input := IngestReceipt(s, b, session);
    IngestReceiptShape(s, b, session);
    OnHeadNeverConflicts(s, env, input);
    ProposeLands(s, env, input);
    AppendGrows(LogText(s, b.brain), IngestEntry(session));
    IngestInk(session);
    GenuineSound(s);
    hide Genuine, Propose, Ink, IngestReceipt, IngestEntry, Log.AppendLogEntry;
    forall key | key != LogKey(b.brain) ensures Head(Committed(s, env, b, session), key) == Head(s, key) {
      ProposeFrame(s, env, input, key);
    }
  }

  lemma IngestInk(session: Session)
    ensures Ink(IngestEntry(session)) != ""
  {
    var lines := ["## [" + session.date + "] " + "INGEST" + " | " + session.summary, "Files: " + Log.CommaList([session.files]), ""];
    var entry := IngestEntry(session);
    assert entry == Join(lines);
    assert entry == lines[0] + "\n" + Join(lines[1..]);
    assert entry[0] == '#';
    InkBlank(entry);
  }

  /** But for a reviewed LOG.md, the reviewed files survive the receipt as they were written. */
  lemma FilesCommitted(
    s: Store, env: Env, b: Binding, session: Session, id: nat, job: Job, actor: Actor, changes: seq<FileChange>)
    requires Genuine(s) && DistinctFiles(changes) && AllCurrent(s, b.brain, changes)
    requires var w := ApplyChanges(s, env, b, session, id, job, actor, changes, []);
             w.Written? && (session.request.Some? ==> !Propose(w.store, env, IngestReceipt(w.store, b, session)).1.Threw?)
    ensures var w := ApplyChanges(s, env, b, session, id, job, actor, changes, []);
            var t := Committed(w.store, env, b, session);
            var logged := session.request.Some?;
            AllHold(t, b, changes, logged) && AllRecorded(t, b, changes, w.revisions, logged) && OthersUntouched(s, t, b, changes, logged)
  {
    ChangesLand(s, env, b, session, id, job, actor, changes, []);
    var w := ApplyChanges(s, env, b, session, id, job, actor, changes, []);
    hide Genuine, ApplyChanges, Propose, IngestReceipt, Holds, Ink, Records;
    assert AllHold(w.store, b, changes, session.request.Some?);
    assert AllRecorded(w.store, b, changes, w.revisions, session.request.Some?);
    assert OthersUntouched(s, w.store, b, changes, session.request.Some?);
    if session.request.Some? {
      ReceiptLands(w.store, env, b, session);
      SurviveReceipt(s, w.store, Committed(w.store, env, b, session), b, changes, w.revisions);
    }
  }

  lemma SurviveReceipt(s: Store, t: Store, u: Store, b: Binding, changes: seq<FileChange>, rows: seq<Revised>)
    requires AllHold(t, b, changes, true) && AllRecorded(t, b, changes, rows, true) && OthersUntouched(s, t, b, changes, true)
    requires forall key :: key != LogKey(b.brain) ==> Head(u, key) == Head(t, key)
    ensures AllHold(u, b, changes, true) && AllRecorded(u, b, changes, rows, true) && OthersUntouched(s, u, b, changes, true)
  {
    forall i | 0 <= i < |changes| && !Apart(changes[i], true)
      ensures Holds(u, FileKey(b, changes[i]), changes[i].content) && Records(u, b, changes[i], rows[i])
    {
      assert Head(u, FileKey(b, changes[i])) == Head(t, FileKey(b, changes[i]));
      assert Holds(t, FileKey(b, changes[i]), changes[i].content) && Records(t, b, changes[i], rows[i]);
    }
    forall key | (forall i :: 0 <= i < |changes| ==> key != FileKey(b, changes[i])) && key != LogKey(b.brain)
      ensures Head(u, key) == Head(s, key)
    {
      assert Head(u, key) == Head(t, key);
    }
  }

  lemma HeldLog(s: Store, b: Binding, change: FileChange)
    requires change.filename == "LOG.md"
    ensures Holds(s, FileKey(b, change), change.content) ==> LogText(s, b.brain) == change.content
  {
  }

  /** With one, the receipt leaves it holding something else. */
  lemma LogDiffers(
    s: Store, env: Env, b: Binding, session: Session, id: nat, job: Job, actor: Actor, changes: seq<FileChange>)
    requires Genuine(s) && DistinctFiles(changes) && session.request.Some? && TouchesLog(changes)
    requires var w := ApplyChanges(s, env, b, session, id, job, actor, changes, []);
             w.Written? && !Propose(w.store, env, IngestReceipt(w.store, b, session)).1.Threw?
    ensures var w := ApplyChanges(s, env, b, session, id, job, actor, changes, []);
            !AllHold(Committed(w.store, env, b, session), b, changes, false)
  {
    var k :| 0 <= k < |changes| && changes[k].filename == "LOG.md";
    LogOutgrows(s, env, b, session, id, job, actor, changes, [], k);
    var w := ApplyChanges(s, env, b, session, id, job, actor, changes, []);
    hide Genuine, ApplyChanges, Propose, IngestReceipt, Ink;
    ReceiptLands(w.store, env, b, session);
    hide Committed;
    var t := Committed(w.store, env, b, session);
    HeldLog(t, b, changes[k]);
  }

  lemma HoldReordered(s: Store, b: Binding, a: seq<FileChange>, c: seq<FileChange>, logged: bool)
    requires forall x :: x in a <==> x in c
    ensures AllHold(s, b, a, logged) <==> AllHold(s, b, c, logged)
  {
    hide Holds, Apart;
    if AllHold(s, b, a, logged) {
      forall i | 0 <= i < |c| && !Apart(c[i], logged) ensures Holds(s, FileKey(b, c[i]), c[i].content) { assert c[i] in a; }
    }
    if AllHold(s, b, c, logged) {
      forall i | 0 <= i < |a| && !Apart(a[i], logged) ensures Holds(s, FileKey(b, a[i]), a[i].content) { assert a[i] in c; }
    }
  }

  lemma NothingApart(s: Store, b: Binding, changes: seq<FileChange>, logged: bool)
    requires !(logged && TouchesLog(changes))
    ensures AllHold(s, b, changes, false) <==> AllHold(s, b, changes, logged)
  {
    hide Holds;
  }

  /** All of the candidate is on file exactly when LOG.md is not set apart from it. */
  lemma ExactlyApart(
    s: Store, env: Env, b: Binding, session: Session, id: nat, job: Job, actor: Actor, changes: seq<FileChange>)
    requires Genuine(s) && DistinctFiles(changes) && AllCurrent(s, b.brain, changes)
    requires var w := ApplyChanges(s, env, b, session, id, job, actor, changes, []);
             w.Written? && (session.request.Some? ==> !Propose(w.store, env, IngestReceipt(w.store, b, session)).1.Threw?)
    ensures var t := Committed(ApplyChanges(s, env, b, session, id, job, actor, changes, []).store, env, b, session);
            AllHold(t, b, changes, false) <==> !(session.request.Some? && TouchesLog(changes))
  {
    hide Genuine, ApplyChanges, Propose, IngestReceipt, AllCurrent, DistinctFiles, TouchesLog, AllHold, AllRecorded, OthersUntouched, Committed;
    FilesCommitted(s, env, b, session, id, job, actor, changes);
    if session.request.Some? && TouchesLog(changes) {
      LogDiffers(s, env, b, session, id, job, actor, changes);
    } else {
      NothingApart(Committed(ApplyChanges(s, env, b, session, id, job, actor, changes, []).store, env, b, session), b, changes,
                   session.request.Some?);
    }
  }

  /** The decision of a transaction that commits, with its parts named. */
  lemma CommitParts(db: Database, b: Binding, id: nat, token: nat, env: Env, session: Session, ordered: seq<FileChange>)
    requires CommitJob(db, b, id, token, env, session, ordered).Ok?
    ensures id in db.jobs && Leased(db, id, token) && Approvable(db.jobs[id])
    ensures var next := CommitJob(db, b, id, token, env, session, ordered).value;
            var w := ApplyChanges(db.store, env, b, session, id, db.jobs[id], db.jobs[id].approval.value.actor, ordered, []);
            if !AllCurrent(db.store, b.brain, ordered) then
              next == Update(db, id, db.jobs[id].(stage := NeedsReview, approval := None))
            else
              && w.Written? && (session.request.Some? ==> !Propose(w.store, env, IngestReceipt(w.store, b, session)).1.Threw?)
              && next.store == Committed(w.store, env, b, session)
              && next == Update(db, id, db.jobs[id].(
                                  stage := Complete,
                                  receipt := Some(Receipt(db.jobs[id].candidate.value, db.jobs[id].approval.value.actor, b.actor, w.revisions)))).(
                           store := next.store)
  {
    hide ApplyChanges, Propose, IngestReceipt, AllCurrent;
  }

  /** Either nothing but the job's stage and approval, or exactly the files approved. */
  ghost predicate CommitsReviewed(db: Database, next: Database, b: Binding, id: nat, session: Session, ordered: seq<FileChange>)
    requires id in db.jobs && db.jobs[id].candidate.Some? && db.jobs[id].approval.Some?
  {
    && id in next.jobs
    && var job, after := db.jobs[id], next.jobs[id];
    var changes := job.candidate.value.changes;
    if !AllCurrent(db.store, b.brain, changes) then
      next.store == db.store && after == job.(stage := NeedsReview, approval := None)
    else
      && after.stage == Complete && after.candidate == job.candidate && after.approval == job.approval
      && after.receipt.Some? && after.receipt.value.digest == job.approval.value.digest == job.candidate.value
      && after.receipt.value.approvedBy == job.approval.value.actor
      && var logged := session.request.Some?;
      && (AllHold(next.store, b, changes, false) <==> !(logged && TouchesLog(changes)))
      && AllHold(next.store, b, changes, logged)
      && AllRecorded(next.store, b, ordered, after.receipt.value.revisions, logged)
      && OthersUntouched(db.store, next.store, b, ordered, logged)
  }

  /** Reviewed bytes are what commits. A transaction of `apply` that goes through was made under a live lease on
      an approved job. If any head moved since the review it changes no file and withdraws the approval.
      Otherwise the job is complete, its receipt is of the very candidate approved, and every file of the
      candidate holds exactly the approved content, as the receipt says, and no other file but LOG.md has moved
      -- unless the candidate itself names LOG.md and the caller brought a write context, in which case, and
      only then, LOG.md alone does not hold what was approved for it. */
  lemma ReviewedBytesCommit(db: Database, b: Binding, id: nat, token: nat, env: Env, session: Session, ordered: seq<FileChange>)
    requires Genuine(db.store) && id in db.jobs && IngestionRuns.RowSound(id, db.jobs[id])
    requires db.jobs[id].candidate.Some? ==> multiset(ordered) == multiset(db.jobs[id].candidate.value.changes)
    requires CommitJob(db, b, id, token, env, session, ordered).Ok?
    ensures Leased(db, id, token) && Approvable(db.jobs[id])
    ensures CommitsReviewed(db, CommitJob(db, b, id, token, env, session, ordered).value, b, id, session, ordered)
  {
    hide Genuine, ApplyChanges, Propose, IngestReceipt, AllCurrent, DistinctFiles,
         TouchesLog, AllHold, AllRecorded, OthersUntouched, CommitJob, Committed;
    CommitParts(db, b, id, token, env, session, ordered);
    var job := db.jobs[id];
    var changes := job.candidate.value.changes;
    Reordered(changes, ordered);
    ReorderedCurrent(db.store, b.brain, changes, ordered);
    if AllCurrent(db.store, b.brain, changes) {
      FilesCommitted(db.store, env, b, session, id, job, job.approval.value.actor, ordered);
      ExactlyApart(db.store, env, b, session, id, job, job.approval.value.actor, ordered);
      var t := CommitJob(db, b, id, token, env, session, ordered).value.store;
      HoldReordered(t, b, changes, ordered, session.request.Some?);
      HoldReordered(t, b, changes, ordered, false);
    }
  }

  // ---------------------------------------------------------------- in every reachable state

  lemma {:induction false} WritesGenuine(
    s: Store, env: Env, b: Binding, session: Session, id: nat, job: Job, actor: Actor, changes: seq<FileChange>, done: seq<Revised>)
    requires Genuine(s) && ApplyChanges(s, env, b, session, id, job, actor, changes, done).Written?
    ensures Genuine(ApplyChanges(s, env, b, session, id, job, actor, changes, done).store)
    decreases |changes|
  {
    hide Genuine, Propose, ChangeProposal;
    if changes != [] {
      var input := ChangeProposal(b, session, id, job, actor, changes[0]);
      var (t, outcome) := Propose(s, env, input);
      ContextHonest(b, session, id, job, actor, changes[0]);
      ProposeGenuine(s, env, input);
      WritesGenuine(t, env, b, session, id, job, actor, changes[1..],
                   done + [Revised(changes[0].filename, outcome.revision.id, outcome.revision.hash)]);
    }
  }

  lemma CommitGenuine(db: Database, b: Binding, id: nat, token: nat, env: Env, session: Session, ordered: seq<FileChange>)
    requires Genuine(db.store) && CommitJob(db, b, id, token, env, session, ordered).Ok?
    ensures Genuine(CommitJob(db, b, id, token, env, session, ordered).value.store)
  {
    CommitParts(db, b, id, token, env, session, ordered);
    hide Genuine, ApplyChanges, Propose, IngestReceipt, AllCurrent, CommitJob;
    if AllCurrent(db.store, b.brain, ordered) {
      var w := ApplyChanges(db.store, env, b, session, id, db.jobs[id], db.jobs[id].approval.value.actor, ordered, []);
      WritesGenuine(db.store, env, b, session, id, db.jobs[id], db.jobs[id].approval.value.actor, ordered, []);
      IngestReceiptShape(w.store, b, session);
      ProposeGenuine(w.store, env, IngestReceipt(w.store, b, session));
    }
  }

  lemma ActGenuine(sys: IngestionRuns.Crew, a: IngestionRuns.Action)
    requires Genuine(sys.db.store) && (a.Hosted? ==> HonestOperation(a.op))
    ensures Genuine(IngestionRuns.Act(sys, a).db.store)
  {
    hide Step, CommitJob;
    if a.Hosted? {
      StepSound(sys.db.store, a.op);
      StepStamped(sys.db.store, a.op);
    } else if a.DoCommit? {
      var p := IngestionRuns.WorkerOf(sys, a.w);
      if p.Applying? && CommitJob(sys.db, p.b, p.id, p.token, a.env, a.session, a.ordered).Ok? {
        CommitGenuine(sys.db, p.b, p.id, p.token, a.env, a.session, a.ordered);
      }
      hide Genuine, ReviewJob;
    } else {
      hide Genuine, AllCurrent, DistinctFiles, Previous;
      if a.DoReserve? { IngestionRuns.ReserveKeepsRows(sys.db, a.b, a.m, a.registry); }
      hide Reserve;
    }
  }

  /** Every reachable state meets what `ReviewedBytesCommit` asks of the store and of the job's row. */
  lemma {:induction false} ReachableCommits(sys: IngestionRuns.Crew, actions: seq<IngestionRuns.Action>)
    requires Genuine(sys.db.store) && IngestionRuns.Inv(sys)
    requires forall a :: a in actions && a.Hosted? ==> HonestOperation(a.op)
    ensures var end := IngestionRuns.RunJobs(sys, actions);
            Genuine(end.db.store) && forall id :: id in end.db.jobs ==> IngestionRuns.RowSound(id, end.db.jobs[id])
    decreases |actions|
  {
    hide Genuine, IngestionRuns.RowSound, IngestionRuns.Act, HonestOperation, IngestionRuns.TokensFresh, IngestionRuns.HoldersKnow;
    if actions != [] {
      assert actions[0] in actions;
      ActGenuine(sys, actions[0]);
      IngestionRuns.InvKept(sys, actions[0]);
      ReachableCommits(IngestionRuns.Act(sys, actions[0]), actions[1..]);
    }
  }

  // ---------------------------------------------------------------- a reviewed LOG.md

  /** Without a policy nothing but another request under its operation id stops a proposal on the head. */
  lemma FreeProposal(s: Store, env: Env, input: Proposal)
    requires env.deployment == Configured(None) && !Replays(s, input) && input.base == HeadId(s, input.key)
    ensures Propose(s, env, input).1.Accepted? || Propose(s, env, input).1.Unchanged?
  {
    OnHeadNeverConflicts(s, env, input);
    hide FindOperation, OperationHash, CheckAllEvidence, IsLogPath, RecordConflict, Commit;
  }

  const LOG_CHANGE := FileChange("LOG.md", None, "reviewed")

  lemma LogChangeReviewable()
    ensures IngestionRuns.FewNew([LOG_CHANGE])
    ensures TouchesLog(IngestionRuns.Files([LOG_CHANGE]))
  {
    var files := IngestionRuns.Files([LOG_CHANGE]);
    assert files == [FileChange("notes.md", None, "compiled"), LOG_CHANGE];
    assert files[0].filename[0] == 'n' && files[1].filename[0] == 'L';
    assert files[1].filename == "LOG.md";
  }

  lemma LogChangeWritten(env: Env, session: Session, job: Job)
    requires env.deployment == Configured(None) && session.request.Some? && job.companion == "notes.md"
    ensures var b := IngestionRuns.SOMEONE;
            ApplyChanges(EMPTY, env, b, session, 0, job, b.actor, IngestionRuns.Files([LOG_CHANGE]), []).Written?
  {
    var files := IngestionRuns.Files([LOG_CHANGE]);
    var b := IngestionRuns.SOMEONE;
    assert files == [FileChange("notes.md", None, "compiled"), LOG_CHANGE];
    assert files[1..] == [LOG_CHANGE] && [LOG_CHANGE][1..] == [];
    var first := ChangeProposal(b, session, 0, job, b.actor, files[0]);
    var (t, outcome) := Propose(EMPTY, env, first);
    FreeProposal(EMPTY, env, first);
    var second := ChangeProposal(b, session, 0, job, b.actor, LOG_CHANGE);
    assert t.revisions == map[1 := outcome.revision] && t.revisionSeq == 1 && outcome.revision.context == first.context;
    var op := second.context.value.request.operationId;
    assert !CarriesOperation(t.revisions[1], b.brain, op) && FindOperation(t, b.brain, op, 2).None?;
    assert "notes.md"[0] == 'n' && "LOG.md"[0] == 'L';
    assert t.heads.Keys == {first.key} && second.key != first.key;
    hide Propose;
    FreeProposal(t, env, second);
    var row := Revised(files[0].filename, outcome.revision.id, outcome.revision.hash);
    assert ApplyChanges(t, env, b, session, 0, job, b.actor, [LOG_CHANGE], [row]).Written?;
    assert [] + [row] == [row];
    hide ChangeProposal;
    assert ApplyChanges(EMPTY, env, b, session, 0, job, b.actor, files, [])
        == ApplyChanges(t, env, b, session, 0, job, b.actor, files[1..], [] + [row]);
  }

  /** The exception does happen: from the empty table reservation, review and approval lead to a job whose candidate
      names LOG.md, and applying it with a write context commits and leaves LOG.md holding something else. */
  lemma ReviewedLogDiffers(env: Env, session: Session)
    requires env.deployment == Configured(None) && session.request.Some?
    ensures exists sys: IngestionRuns.Crew ::
              && IngestionRuns.Reaches(IngestionRuns.START, sys)
              && var changes := IngestionRuns.Files([LOG_CHANGE]);
              var commit := CommitJob(sys.db, IngestionRuns.SOMEONE, 0, 1, env, session, changes);
              && 0 in sys.db.jobs && sys.db.jobs[0].candidate == Some(IngestionRuns.Bundle([LOG_CHANGE]))
              && commit.Ok? && commit.value.jobs.Keys == {0} && commit.value.jobs[0].stage.Complete?
              && !AllHold(commit.value.store, IngestionRuns.SOMEONE, changes, false)
  {
    hide IngestionRuns.Reaches, AllHold, CommitJob, IngestionRuns.FewNew, Propose;
    LogChangeReviewable();
    IngestionRuns.ReachApplying([LOG_CHANGE]);
    var held := IngestionRuns.Held(IngestionRuns.ApprovedJob([LOG_CHANGE]), 1);
    var sys := IngestionRuns.OneJob(held, 2, IngestionRuns.Applying(IngestionRuns.SOMEONE, 0, 1, held));
    LogChangeCommits(sys.db, env, session);
    assert IngestionRuns.Reaches(IngestionRuns.START, sys);
  }

  lemma LogChangeCommits(db: Database, env: Env, session: Session)
    requires env.deployment == Configured(None) && session.request.Some?
    requires db.store == EMPTY && Visible(db, IngestionRuns.SOMEONE, 0) && Leased(db, 0, 1) && db.jobs.Keys == {0}
    requires Approvable(db.jobs[0]) && db.jobs[0].companion == "notes.md" && db.jobs[0].approval.value.actor == IngestionRuns.SOMEONE.actor
    ensures var changes := IngestionRuns.Files([LOG_CHANGE]);
            var commit := CommitJob(db, IngestionRuns.SOMEONE, 0, 1, env, session, changes);
            && commit.Ok? && commit.value.jobs.Keys == {0} && commit.value.jobs[0].stage.Complete?
            && !AllHold(commit.value.store, IngestionRuns.SOMEONE, changes, false)
  {
    hide Propose, AllHold, ApplyChanges, IngestReceipt, Genuine;
    var b := IngestionRuns.SOMEONE;
    var changes := IngestionRuns.Files([LOG_CHANGE]);
    LogChangeReviewable();
    LogChangeWritten(env, session, db.jobs[0]);
    var w := ApplyChanges(EMPTY, env, b, session, 0, db.jobs[0], b.actor, changes, []);
    IngestReceiptShape(w.store, b, session);
    FreeProposal(w.store, env, IngestReceipt(w.store, b, session));
    EmptyGenuine();
    LogDiffers(EMPTY, env, b, session, 0, db.jobs[0], b.actor, changes);
    hide AllCurrent, DistinctFiles, TouchesLog;
  }

  lemma EmptyGenuine()
    ensures Genuine(EMPTY)
  {
    EmptySound();
  }
}
