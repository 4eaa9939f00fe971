/** The calls of `src/services/filesystem-write-audit.ts` statement by statement: an uninterrupted call is a run
    of one process of the `WriteJournal` machine, and an undisturbed write completes. */
module WriteAudit {
  import opened Wrappers
  import opened WriteJournal

  function Moves(m: Machine, p: nat, k: nat): Machine
    decreases k
  {
    if k == 0 then m else Moves(Move(m, p), p, k - 1)
  }

  lemma FirstMove(m: Machine, p: nat)
    ensures Moves(m, p, 1) == Move(m, p)
  {
    hide Move;
    assert Moves(Move(m, p), p, 0) == Move(m, p);
  }

  lemma {:induction false} OneMore(m: Machine, p: nat, k: nat)
    ensures Moves(m, p, k + 1) == Move(Moves(m, p, k), p)
    decreases k
  {
    hide Move;
    if k > 0 { OneMore(Move(m, p), p, k - 1); }
  }

  lemma {:induction false} MovesAreARun(m: Machine, p: nat, k: nat)
    ensures exists actions :: RunJournal(m, actions) == Moves(m, p, k)
    decreases k
  {
    hide Move, Act;
    if k == 0 {
      assert RunJournal(m, []) == m;
    } else {
      MovesAreARun(Move(m, p), p, k - 1);
      var rest :| RunJournal(Move(m, p), rest) == Moves(Move(m, p), p, k - 1);
      ProceedMoves(m, p);
      assert ([Proceed(p)] + rest)[1..] == rest;
      assert RunJournal(m, [Proceed(p)] + rest) == Moves(m, p, k);
    }
  }

  lemma ProceedMoves(m: Machine, p: nat)
    ensures Act(m, Proceed(p)) == Move(m, p)
  {
  }

  /** There is no intent yet, or a prepared one of the same request and the same pid. */
  predicate MayIntend(journal: Option<Record>, p: nat, attempt: Record) {
    journal.Some? ==> journal.value.request == attempt.request && journal.value.phase.Prepared? && journal.value.owner == p
  }

  /** The same request, and nobody else at work on it. */
  predicate MayRecover(r: Record, p: nat, attempt: Record, inUse: bool) {
    r.request == attempt.request && (r.owner == p || !inUse)
  }

  /** The log with the receipt at its top, unless it has it somewhere. */
  function WithReceipt(log: seq<Entry>, summary: string): seq<Entry> {
    if Receipt(summary) in log then log else [Receipt(summary)] + log
  }

  class FilesystemJournal {
    var files: map<string, string>
    var log: seq<Entry>
    var journal: Option<Record>
    /** Where this process, and every other, is; and what has happened so far. */
    ghost var history: Machine

    ghost predicate Valid()
      reads this
    {
      history.files == files && history.log == log && history.journal == journal
    }

    constructor (start: Machine)
      ensures Valid() && history == start
    {
      files, log, journal, history := start.files, start.log, start.journal, start;
    }

    function Content(filename: string): Option<string>
      reads this
    {
      if filename in files then Some(files[filename]) else None
    }

    /** The write of an unfinished record was made: its journal says so, or its target holds the new text. */
    predicate TookEffect(r: Record)
      reads this
    {
      || r.phase.AuditPending?
      || (r.phase.Prepared? && Content(r.Filename()) == Some(r.after) && Content(r.Filename()) != r.before)
    }

    /** `filesystemReplay` from the branch on the phase on, for a record read before: the recovery of a write
        that took effect. */
    method RecoverReceipt(p: nat, r: Record, own: bool) returns (completed: bool, ghost k: nat)
      requires Valid() && At(history, p) == ReadingLog(r, own)
      modifies this
      ensures Valid() && history == Moves(old(history), p, k)
      ensures completed && files == old(files) && journal == Some(r.(phase := Complete))
      ensures log == WithReceipt(old(log), r.summary)
      ensures At(history, p) == if own then ReadingBack else Ready
    {
      ghost var start := history;
      var before := log;
      history := Move(history, p);
      k := 1;
      FirstMove(start, p);
      if Receipt(r.summary) !in before {
        log := [Receipt(r.summary)] + before;
        history := Move(history, p);
        OneMore(start, p, k);
        k := k + 1;
      }
      journal := Some(r.(phase := Complete));
      history := Move(history, p);
      OneMore(start, p, k);
      k := k + 1;
      completed := true;
    }

    /** `filesystemReplay` for a call of `updateFile`: whether the write still has to be made. `inUse` is what
        signalling the record's pid finds: whether anything runs under it. */
    method FilesystemReplay(p: nat, attempt: Record, inUse: bool) returns (proceed: bool, ghost k: nat)
      requires Valid() && At(history, p) == Starting(attempt)
      requires journal.Some? ==> inUse == InUse(history, journal.value.owner)
      modifies this
      ensures Valid() && history == Moves(old(history), p, k)
      ensures files == old(files)
      ensures At(history, p) == if proceed then Preparing(attempt) else Ready
      ensures proceed <==> old(journal).None? || (MayRecover(old(journal).value, p, attempt, inUse) && old(journal).value.phase.Prepared?
                                                  && Content(old(journal).value.Filename()) == old(journal).value.before)
      ensures if old(journal).Some? && MayRecover(old(journal).value, p, attempt, inUse) && TookEffect(old(journal).value) then
                !proceed && journal == Some(old(journal).value.(phase := Complete)) && log == WithReceipt(old(log), old(journal).value.summary)
              else journal == old(journal) && log == old(log)
    {
      hide Moves, ReplayOwn, InUse;
      ghost var start := history;
      history := Move(history, p);
      k := 1;
      FirstMove(start, p);
      if journal.None? { return true, k; }
      var r := journal.value;
      if r.request != attempt.request { return false, k; }
      if r.owner != p && (r.phase.Prepared? || r.phase.AuditPending?) && inUse { return false, k; }
      if r.phase.NotApplied? || r.phase.Complete? { return false, k; }
      if r.phase.Prepared? {
        var actual := Content(r.Filename());
        history := Move(history, p);
        OneMore(start, p, k);
        k := k + 1;
        if actual == r.before { return true, k; }
        if actual != Some(r.after) { return false, k; }
        r := r.(phase := AuditPending);
        journal := Some(r);
        history := Move(history, p);
        OneMore(start, p, k);
        k := k + 1;
      }
      ghost var middle := history;
      var completed;
      ghost var more;
      completed, more := RecoverReceipt(p, r, false);
      MovesAdd(start, p, k, more);
      return false, k + more;
    }

    /** The exclusive creation of the intent, or what an existing one allows. */
    method CreateIntent(p: nat, attempt: Record) returns (mine: bool, ghost k: nat)
      requires Valid() && At(history, p) == Preparing(attempt)
      modifies this
      ensures Valid() && history == Moves(old(history), p, k) && files == old(files) && log == old(log)
      ensures At(history, p) == if mine then Mutating(attempt.(owner := p, phase := Prepared)) else Ready
      ensures mine <==> MayIntend(old(journal), p, attempt)
      ensures mine ==> journal == Some(attempt.(owner := p, phase := Prepared))
      ensures !mine ==> journal == old(journal)
    {
      ghost var start := history;
      var record := attempt.(owner := p, phase := Prepared);
      mine := journal.None?;
      if mine {
        journal := Some(record);
      }
      history := Move(history, p);
      k := 1;
      FirstMove(start, p);
      if mine { return; }
      var existing := journal.value;
      history := Move(history, p);
      OneMore(start, p, k);
      k := k + 1;
      if existing.request != attempt.request || !existing.phase.Prepared? || existing.owner != p { return; }
      journal := Some(record);
      mine := true;
      history := Move(history, p);
      OneMore(start, p, k);
      k := k + 1;
    }

    /** The one write of the target, and the record of how it went. */
    method WriteTarget(p: nat, record: Record) returns (ok: bool, ghost k: nat)
      requires Valid() && At(history, p) == Mutating(record)
      modifies this
      ensures Valid() && history == Moves(old(history), p, k) && log == old(log)
      ensures ok == (old(Content(record.Filename())) == record.before)
      ensures files == if ok then old(files)[record.Filename() := record.after] else old(files)
      ensures journal == Some(record.(phase := if ok then AuditPending else NotApplied))
      ensures At(history, p) == if ok then ReplayingOwn(record.(phase := AuditPending)) else Ready
    {
      ghost var start := history;
      ok := Content(record.Filename()) == record.before;
      if ok { files := files[record.Filename() := record.after]; }
      history := Move(history, p);
      k := 1;
      FirstMove(start, p);
      journal := Some(record.(phase := if ok then AuditPending else NotApplied));
      history := Move(history, p);
      OneMore(start, p, k);
      k := k + 1;
    }

    /** The read-back: the completed record is saved once more. */
    method ReadBack(p: nat) returns (ghost k: nat)
      requires Valid() && At(history, p) == ReadingBack && journal.Some? && journal.value.phase.Complete?
      modifies this
      ensures Valid() && history == Moves(old(history), p, k) && At(history, p) == Ready
      ensures files == old(files) && journal == old(journal) && log == old(log)
    {
      ghost var start := history;
      var logged := journal.value;
      history := Move(history, p);
      k := 1;
      FirstMove(start, p);
      journal := Some(logged);
      history := Move(history, p);
      OneMore(start, p, k);
      k := k + 1;
    }

    /** The first read of the replay that follows a write. */
    ghost method StartOwnReplay(p: nat, record: Record)
      requires Valid() && At(history, p) == ReplayingOwn(record) && journal == Some(record) && record.phase.AuditPending?
      modifies this`history
      ensures Valid() && history == Moves(old(history), p, 1) && At(history, p) == ReadingLog(record, true)
    {
      ghost var start := history;
      history := Move(history, p);
      FirstMove(start, p);
    }

    /** The receipt, through the same recovery as after an interruption, and the read-back. */
    method FinishWrite(p: nat, record: Record) returns (ghost k: nat)
      requires Valid() && At(history, p) == ReplayingOwn(record) && journal == Some(record) && record.phase.AuditPending?
      modifies this
      ensures Valid() && history == Moves(old(history), p, k) && At(history, p) == Ready
      ensures files == old(files) && journal == Some(record.(phase := Complete)) && log == WithReceipt(old(log), record.summary)
    {
      hide Moves, Move;
      ghost var start := history;
      StartOwnReplay(p, record);
      k := 1;
      var completed;
      ghost var more;
      completed, more := RecoverReceipt(p, record, true);
      MovesAdd(start, p, k, more);
      k := k + more;
      more := ReadBack(p);
      MovesAdd(start, p, k, more);
      k := k + more;
    }

    /** `applyFilesystemChange`: an undisturbed one writes the target and the receipt, or finds the target moved
        and leaves it; one that finds an intent it may not take over changes nothing. */
    method ApplyFilesystemChange(p: nat, attempt: Record) returns (ghost k: nat)
      requires Valid() && At(history, p) == Preparing(attempt)
      modifies this
      ensures Valid() && history == Moves(old(history), p, k) && At(history, p) == Ready
      ensures MayIntend(old(journal), p, attempt) ==>
                if old(Content(attempt.Filename())) == attempt.before then
                  && files == old(files)[attempt.Filename() := attempt.after]
                  && journal == Some(attempt.(owner := p, phase := Complete)) && log == WithReceipt(old(log), attempt.summary)
                else
                  files == old(files) && log == old(log) && journal == Some(attempt.(owner := p, phase := NotApplied))
      ensures !MayIntend(old(journal), p, attempt) ==>
                files == old(files) && log == old(log) && journal == old(journal)
    {
      hide Moves, Move;
      ghost var start := history;
      var mine;
      mine, k := CreateIntent(p, attempt);
      if !mine { return; }
      var record := attempt.(owner := p, phase := Prepared);
      var ok;
      ghost var more;
      ok, more := WriteTarget(p, record);
      MovesAdd(start, p, k, more);
      k := k + more;
      if !ok { return; }
      more := FinishWrite(p, record.(phase := AuditPending));
      MovesAdd(start, p, k, more);
      k := k + more;
    }
  }

  lemma {:induction false} MovesAdd(m: Machine, p: nat, j: nat, k: nat)
    ensures Moves(Moves(m, p, j), p, k) == Moves(m, p, j + k)
    decreases j
  {
    hide Move;
    if j > 0 { MovesAdd(Move(m, p), p, j - 1, k); }
  }
}
