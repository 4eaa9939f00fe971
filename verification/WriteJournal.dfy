/** The write-ahead journal of `src/services/filesystem-write-audit.ts` for one operation id, as a machine of
    processes that may stall or crash between any two of their file operations. A process is known to the others,
    and to later ones, by its pid alone, and a pid that has become free may be given out again. */
module WriteJournal {
  import opened Wrappers

  // ---------------------------------------------------------------- state

  datatype Phase = Prepared | AuditPending | NotApplied | Complete

  /** A tool request, which its hash is identified with: the file it names and everything else in it. */
  datatype Request = Request(filename: string, details: string)

  /** The journal record. `summary` is the receipt's text, `owner` a pid. */
  datatype Record = Record(
    request: Request, before: Option<string>, after: string, summary: string, owner: nat, phase: Phase)
  {
    function Filename(): string { request.filename }
  }

  /** LOG.md as its entries: this operation's receipts, and everything else. */
  datatype Entry = Receipt(summary: string) | Other(text: string)

  /** Where a process is. `rec` is what it last read of the journal or wrote to it; `own` says that the replay
      belongs to the write it has just made. */
  datatype Process =
    | Ready
    | Starting(attempt: Record)
    | ReadingTarget(rec: Record, attempt: Record)
    | MarkingPending(rec: Record)
    | ReadingLog(rec: Record, own: bool)
    | Appending(rec: Record, own: bool, seen: seq<Entry>)
    | MarkingComplete(rec: Record, own: bool)
    | Preparing(attempt: Record)
    | LinkLost(attempt: Record)
    | Reclaiming(attempt: Record)
    | Mutating(rec: Record)
    | MarkingApplied(rec: Record)
    | MarkingNotApplied(rec: Record)
    | ReplayingOwn(rec: Record)
    | ReadingBack
    | SavingVerified(rec: Record)
    | Dead

  datatype Written = Written(pid: nat, filename: string, content: string)

  /** The machine; `processes` says what runs under each pid. `journal` and `log` are the two files of the operation
      beside `files`; the rest is history that no step reads: the intents as linked or reclaimed, how often their
      owner's pid has begun afresh, every write to a target by this operation, every text a file has held,
      and every receipt the log has held. */
  datatype Machine = Machine(
    files: map<string, string>, log: seq<Entry>, journal: Option<Record>, processes: map<nat, Process>,
    intents: seq<Record>, again: nat, writes: seq<Written>, held: set<(string, string)>, logged: set<string>)

  function At(m: Machine, p: nat): Process {
    if p in m.processes then m.processes[p] else Ready
  }

  function Go(m: Machine, p: nat, q: Process): Machine {
    m.(processes := m.processes[p := q])
  }

  function Text(m: Machine, filename: string): Option<string> {
    if filename in m.files then Some(m.files[filename]) else None
  }

  /** `save`: the journal file is replaced whole. */
  function Save(m: Machine, r: Record): Machine {
    m.(journal := Some(r))
  }

  /** A new intent of process `p`, by link or by taking over a prepared one. */
  function Intend(m: Machine, r: Record): Machine {
    Save(m, r).(intents := m.intents + [r])
  }

  function Put(m: Machine, filename: string, content: string): Machine {
    m.(files := m.files[filename := content], held := m.held + {(filename, content)})
  }

  /** The pid of the intents. */
  predicate Owns(m: Machine, p: nat) {
    m.intents != [] && m.intents[0].owner == p
  }

  // ---------------------------------------------------------------- steps

  datatype Action =
    | EditFile(filename: string, text: Option<string>)
    | EditLog(entries: seq<Entry>)
    | Call(p: nat, attempt: Record)
    | Proceed(p: nat)
    | Crash(p: nat)
    | Restart(p: nat)
    | Fail(p: nat)

  /** What signalling a pid finds: that something runs under it, whether or not it is what ran under it before. */
  predicate InUse(m: Machine, p: nat) {
    !At(m, p).Dead?
  }

  /** The first read of `filesystemReplay`, its identity and liveness checks, and the branch on the phase. */
  function Replay(m: Machine, p: nat, attempt: Record): Machine {
    match m.journal
    case None => Go(m, p, Preparing(attempt))
    case Some(r) =>
      if r.request != attempt.request then Go(m, p, Ready)
      else if r.owner != p && (r.phase.Prepared? || r.phase.AuditPending?) && InUse(m, r.owner) then Go(m, p, Ready)
      else
        match r.phase
        case NotApplied => Go(m, p, Ready)
        case Prepared => Go(m, p, ReadingTarget(r, attempt))
        case AuditPending => Go(m, p, ReadingLog(r, false))
        case Complete => Go(m, p, Ready)
  }

  /** The same, called by a write after saving that it has taken effect. */
  function ReplayOwn(m: Machine, p: nat): Machine {
    match m.journal
    case None => Go(m, p, Ready)
    case Some(r) =>
      match r.phase
      case NotApplied => Go(m, p, ReadingBack)
      case Prepared => Go(m, p, Ready)
      case AuditPending => Go(m, p, ReadingLog(r, true))
      case Complete => Go(m, p, ReadingBack)
  }

  /** The next file operation of process `p`. */
  function Move(m: Machine, p: nat): Machine {
    match At(m, p)
    case Ready => m
    case Dead => m
    case Starting(attempt) => Replay(m, p, attempt)
    case ReadingTarget(r, attempt) =>
      if Text(m, r.Filename()) == r.before then Go(m, p, Preparing(attempt))
      else if Text(m, r.Filename()) == Some(r.after) then Go(m, p, MarkingPending(r.(phase := AuditPending)))
      else Go(m, p, Ready)
    case MarkingPending(r) => Go(Save(m, r), p, ReadingLog(r, false))
    case ReadingLog(r, own) =>
      if Receipt(r.summary) in m.log then Go(m, p, MarkingComplete(r, own)) else Go(m, p, Appending(r, own, m.log))
    case Appending(r, own, seen) =>
      // `mutateLocalFile` replaces LOG.md only if it is still what was read.
      if m.log != seen then Go(m, p, if own then ReadingBack else Ready)
      else Go(m.(log := [Receipt(r.summary)] + m.log, logged := m.logged + {r.summary}), p, MarkingComplete(r, own))
    case MarkingComplete(r, own) => Go(Save(m, r.(phase := Complete)), p, if own then ReadingBack else Ready)
    case Preparing(attempt) =>
      // `link` creates the journal file, or fails because there is one.
      var r := attempt.(owner := p, phase := Prepared);
      if m.journal.None? then Go(Intend(m, r), p, Mutating(r)) else Go(m, p, LinkLost(attempt))
    case LinkLost(attempt) =>
      if m.journal.Some? && m.journal.value.request == attempt.request && m.journal.value.phase.Prepared? && m.journal.value.owner == p
      then Go(m, p, Reclaiming(attempt)) else Go(m, p, Ready)
    case Reclaiming(attempt) =>
      var r := attempt.(owner := p, phase := Prepared);
      Go(Intend(m, r), p, Mutating(r))
    case Mutating(r) =>
      // `mutateLocalFile`: a compare-and-swap on the target.
      if Text(m, r.Filename()) == r.before
      then Go(Put(m, r.Filename(), r.after).(writes := m.writes + [WriteOf(r)]), p, MarkingApplied(r.(phase := AuditPending)))
      else Go(m, p, MarkingNotApplied(r.(phase := NotApplied)))
    case MarkingNotApplied(r) => Go(Save(m, r), p, Ready)
    case MarkingApplied(r) => Go(Save(m, r), p, ReplayingOwn(r))
    case ReplayingOwn(_) => ReplayOwn(m, p)
    case ReadingBack =>
      // Only a completed record is saved again, with the outcome of the read-back.
      if m.journal.Some? && m.journal.value.phase.Complete? then Go(m, p, SavingVerified(m.journal.value)) else Go(m, p, Ready)
    case SavingVerified(r) => Go(Save(m, r), p, Ready)
  }

  function WriteOf(r: Record): Written {
    Written(r.owner, r.Filename(), r.after)
  }

  function Act(m: Machine, a: Action): Machine {
    match a
    case EditFile(f, Some(text)) => Put(m, f, text)
    case EditFile(f, None) => m.(files := m.files - {f})
    case EditLog(entries) =>
      // Others may do what they like to the log but write receipts of this operation.
      if forall e :: e in entries && e.Receipt? ==> multiset(entries)[e] <= multiset(m.log)[e] then m.(log := entries) else m
    case Call(p, attempt) => if At(m, p).Ready? then Go(m, p, Starting(attempt)) else m
    case Proceed(p) => Move(m, p)
    case Crash(p) => Go(m, p, Dead)
    case Restart(p) => if At(m, p).Dead? then Afresh(m, p) else m
    case Fail(p) => if At(m, p).Dead? || At(m, p).Ready? then m else Afresh(m, p)
  }

  /** A new process under a pid, or one whose call has ended with an exception. */
  function Afresh(m: Machine, p: nat): Machine {
    Go(m, p, Ready).(again := if Owns(m, p) then m.again + 1 else m.again)
  }

  function RunJournal(m: Machine, actions: seq<Action>): Machine
    decreases |actions|
  {
    if actions == [] then m else RunJournal(Act(m, actions[0]), actions[1..])
  }

  /** No process has called yet, and the operation id is fresh. */
  predicate Fresh(m: Machine) {
    && m.journal.None? && m.processes == map[] && m.intents == [] && m.again == 0 && m.writes == [] && m.logged == {}
    && (forall e :: e in m.log ==> !e.Receipt?)
    && forall f :: f in m.files ==> (f, m.files[f]) in m.held
  }

  // ---------------------------------------------------------------- the invariant

  /** One of the intents, at some phase. */
  predicate Copies(m: Machine, r: Record) {
    r.(phase := Prepared) in m.intents
  }

  predicate HeldAfter(m: Machine, r: Record) {
    (r.Filename(), r.after) in m.held
  }

  /** A copy that says that its write took effect is right, and so is one that says that the receipt is there. */
  predicate Truthful(m: Machine, r: Record) {
    && Copies(m, r)
    && (r.phase.AuditPending? || r.phase.Complete? ==> HeldAfter(m, r))
    && (r.phase.Complete? ==> r.summary in m.logged)
    && (r.phase.NotApplied? ==> |m.writes| < |m.intents|)
  }

  /** What a process knows, however long it has stalled since it found out. */
  predicate Knows(m: Machine, p: nat, q: Process) {
    match q
    case ReadingTarget(r, _) => Truthful(m, r) && r.phase.Prepared?
    case MarkingPending(r) => Truthful(m, r) && r.phase.AuditPending?
    case ReadingLog(r, _) => Truthful(m, r) && r.phase.AuditPending?
    case Appending(r, _, seen) => Truthful(m, r) && r.phase.AuditPending? && Receipt(r.summary) !in seen
    case MarkingComplete(r, _) => Truthful(m, r) && r.phase.AuditPending? && r.summary in m.logged
    case Reclaiming(attempt) => Owns(m, p) && attempt.request == m.intents[0].request && |m.intents| <= m.again
    case Mutating(r) => Owns(m, p) && Truthful(m, r) && r.phase.Prepared? && |m.writes| < |m.intents|
    case MarkingApplied(r) => Owns(m, p) && Truthful(m, r) && r.phase.AuditPending?
    case MarkingNotApplied(r) => Owns(m, p) && Truthful(m, r) && r.phase.NotApplied?
    case SavingVerified(r) => Truthful(m, r) && r.phase.Complete?
    case _ => true
  }

  /** In the middle of the one write of this process. */
  predicate MidWrite(q: Process) {
    q.Mutating? || q.MarkingApplied? || q.MarkingNotApplied?
  }

  /** Intents differ only in what their callers read; before each but the first their pid has begun afresh. */
  predicate IntentsSound(m: Machine) {
    && (m.journal.Some? <==> m.intents != [])
    && (forall r :: r in m.intents ==> r.phase.Prepared? && r.owner == m.intents[0].owner && r.request == m.intents[0].request)
    && |m.intents| <= m.again + 1
    && (m.intents == [] ==> m.again == 0)
  }

  predicate JournalSound(m: Machine) {
    m.intents != [] && m.journal.Some? ==>
      var r, owner := m.journal.value, At(m, m.intents[0].owner);
      && Truthful(m, r)
      && (r.phase.NotApplied? ==> !owner.Mutating?)
      && (r.phase.Prepared? && !owner.Dead? && !MidWrite(owner) ==> |m.intents| <= m.again)
  }

  ghost predicate WritesSound(m: Machine) {
    |m.writes| <= |m.intents| && forall w :: w in m.writes ==> exists r :: r in m.intents && w == WriteOf(r)
  }

  /** Every receipt is of an intent, and there once. */
  ghost predicate LogSound(m: Machine) {
    forall e :: e in m.log && e.Receipt? ==>
      multiset(m.log)[e] == 1 && e.summary in m.logged && exists r :: r in m.intents && r.summary == e.summary
  }

  ghost predicate FilesSound(m: Machine) {
    forall f :: f in m.files ==> (f, m.files[f]) in m.held
  }

  ghost predicate Inv(m: Machine) {
    && IntentsSound(m) && JournalSound(m) && WritesSound(m) && LogSound(m) && FilesSound(m)
    && forall p: nat :: Knows(m, p, At(m, p))
  }

  /** Facts that nothing ever takes back. */
  predicate Grows(m: Machine, n: Machine) {
    m.held <= n.held && m.logged <= n.logged && m.intents <= n.intents && m.again <= n.again
  }

  // ---------------------------------------------------------------- one move of one process

  /** Moves that leave the journal, the files and the log alone. */
  predicate Looks(q: Process) {
    q.Ready? || q.Dead? || q.Starting? || q.ReadingTarget? || q.ReadingLog? || q.LinkLost? || q.ReplayingOwn? || q.ReadingBack?
  }

  /** A replay's first read changes nothing but where its process is. */
  lemma ReplayMoves(m: Machine, p: nat)
    ensures At(m, p).Starting? ==> Move(m, p) == Go(m, p, At(Move(m, p), p)) && !At(Move(m, p), p).Dead? && !MidWrite(At(Move(m, p), p))
    ensures At(m, p).ReplayingOwn? ==> Move(m, p) == Go(m, p, At(Move(m, p), p)) && !At(Move(m, p), p).Dead? && !MidWrite(At(Move(m, p), p))
  {
  }

  lemma LookingMoves(m: Machine, p: nat)
    requires Looks(At(m, p))
    ensures Move(m, p) == Go(m, p, At(Move(m, p), p)) || Move(m, p) == m
    ensures !MidWrite(At(Move(m, p), p))
  {
    hide InUse, Text;
    ReplayMoves(m, p);
    hide Replay, ReplayOwn;
  }

  /** What one process's move does to everything else. */
  lemma MoveFrame(m: Machine, p: nat)
    ensures forall o: nat :: o != p ==> At(Move(m, p), o) == At(m, o)
    ensures Move(m, p).again == m.again
    ensures At(Move(m, p), p).Dead? <==> At(m, p).Dead?
  {
    hide Text, InUse;
    if Looks(At(m, p)) {
      LookingMoves(m, p);
      ReplayMoves(m, p);
      hide Replay, ReplayOwn;
    } else {
      hide Replay, ReplayOwn;
    }
  }

  /** Only the owner's pid intends or writes anything, once there is an intent. */
  lemma OthersNeverWrite(m: Machine, p: nat)
    requires IntentsSound(m) && Knows(m, p, At(m, p)) && !(At(m, p).Mutating? || At(m, p).Reclaiming?) && m.intents != []
    ensures Move(m, p).writes == m.writes && Move(m, p).intents == m.intents
  {
    hide Text, InUse;
    if Looks(At(m, p)) {
      LookingMoves(m, p);
      hide Move;
    } else {
      hide Replay, ReplayOwn;
    }
  }

  lemma MoveGrows(m: Machine, p: nat)
    ensures Grows(m, Move(m, p))
  {
    hide Text, InUse;
    if Looks(At(m, p)) {
      LookingMoves(m, p);
      hide Move;
    } else {
      hide Replay, ReplayOwn;
    }
  }

  lemma MoveKeepsIntents(m: Machine, p: nat)
    requires IntentsSound(m) && Knows(m, p, At(m, p))
    ensures IntentsSound(Move(m, p))
  {
    hide Text, InUse;
    if Looks(At(m, p)) {
      LookingMoves(m, p);
      hide Move;
    } else {
      hide Replay, ReplayOwn;
    }
  }

  /** A truthful record stays so, unless it says "not applied" and a write is made after all. */
  lemma StaysTruthful(m: Machine, n: Machine, r: Record)
    requires Truthful(m, r) && Grows(m, n) && (r.phase.NotApplied? ==> n.writes == m.writes)
    ensures Truthful(n, r)
  {
  }

  /** A step of `p` that leaves the journal alone, and is not within its write. */
  lemma ElsewhereKeepsJournal(m: Machine, n: Machine, p: nat)
    requires JournalSound(m) && Grows(m, n)
    requires n.journal == m.journal && n.intents == m.intents && n.again == m.again && n.writes == m.writes
    requires !At(m, p).Dead? && !MidWrite(At(m, p)) && !MidWrite(At(n, p))
    requires forall o: nat :: o != p ==> At(n, o) == At(m, o)
    ensures JournalSound(n)
  {
    hide Grows;
    GrowsHeld(m, n);
  }

  lemma GrowsHeld(m: Machine, n: Machine)
    requires Grows(m, n)
    ensures m.held <= n.held && m.logged <= n.logged
  {
  }

  lemma SavingKeepsJournal(m: Machine, p: nat, r: Record, q: Process)
    requires Truthful(m, r) && !r.phase.Prepared? && !q.Mutating? && (r.phase.NotApplied? ==> Owns(m, p))
    ensures JournalSound(Go(Save(m, r), p, q))
  {
  }

  lemma IntendingKeepsJournal(m: Machine, p: nat, r: Record)
    requires r.owner == p && r.phase.Prepared? && (m.intents == [] || Owns(m, p))
    ensures JournalSound(Go(Intend(m, r), p, Mutating(r)))
  {
    assert (m.intents + [r])[0].owner == p;
  }

  lemma MutatingKeepsJournal(m: Machine, p: nat)
    requires JournalSound(m) && IntentsSound(m) && At(m, p).Mutating? && Knows(m, p, At(m, p))
    ensures JournalSound(Move(m, p))
  {
    hide IntentsSound, Text;
    assert m.journal.Some? ==> !m.journal.value.phase.NotApplied?;
  }

  lemma MoveKeepsJournal(m: Machine, p: nat)
    requires IntentsSound(m) && JournalSound(m) && Knows(m, p, At(m, p))
    ensures JournalSound(Move(m, p))
  {
    hide Text, InUse, JournalSound, Truthful, IntentsSound, Replay, ReplayOwn, Owns, Grows;
    var q := At(m, p);
    MoveGrows(m, p);
    MoveFrame(m, p);
    if Looks(q) {
      LookingMoves(m, p);
      if !q.Dead? { ElsewhereKeepsJournal(m, Move(m, p), p); }
    } else {
      match q
      case MarkingPending(r) => SavingKeepsJournal(m, p, r, ReadingLog(r, false));
      case Appending(_, _, _) => ElsewhereKeepsJournal(m, Move(m, p), p);
      case MarkingComplete(r, own) =>
        CompletesTruthfully(m, r);
        SavingKeepsJournal(m, p, r.(phase := Complete), if own then ReadingBack else Ready);
      case Preparing(attempt) =>
        if m.journal.None? {
          NoIntentYet(m);
          IntendingKeepsJournal(m, p, attempt.(owner := p, phase := Prepared));
        } else {
          ElsewhereKeepsJournal(m, Move(m, p), p);
        }
      case Reclaiming(attempt) => IntendingKeepsJournal(m, p, attempt.(owner := p, phase := Prepared));
      case Mutating(_) => MutatingKeepsJournal(m, p);
      case MarkingNotApplied(r) => SavingKeepsJournal(m, p, r, Ready);
      case MarkingApplied(r) => SavingKeepsJournal(m, p, r, ReplayingOwn(r));
      case SavingVerified(r) => SavingKeepsJournal(m, p, r, Ready);
      case _ =>
    }
  }

  lemma CompletesTruthfully(m: Machine, r: Record)
    requires Truthful(m, r) && r.phase.AuditPending? && r.summary in m.logged
    ensures Truthful(m, r.(phase := Complete))
  {
    assert r.(phase := Complete).(phase := Prepared) == r.(phase := Prepared);
  }

  lemma NoIntentYet(m: Machine)
    requires IntentsSound(m) && m.journal.None?
    ensures m.intents == []
  {
  }

  lemma MoveKeepsWrites(m: Machine, p: nat)
    requires IntentsSound(m) && WritesSound(m) && Knows(m, p, At(m, p))
    ensures WritesSound(Move(m, p))
  {
    hide Text, InUse;
    var n := Move(m, p);
    if At(m, p).Mutating? {
      var r := At(m, p).rec;
      assert r.(phase := Prepared) == r;
      forall w | w in n.writes ensures exists r :: r in n.intents && w == WriteOf(r) {
        if w == WriteOf(r) { assert r in n.intents; }
      }
    } else {
      MoveGrows(m, p);
      assert n.writes == m.writes by {
        if Looks(At(m, p)) { LookingMoves(m, p); hide Move; } else { hide Replay, ReplayOwn; }
      }
      hide Move, Knows, IntentsSound;
      forall w | w in n.writes ensures exists r :: r in n.intents && w == WriteOf(r) {
        var r :| r in m.intents && w == WriteOf(r);
        assert r in n.intents;
      }
    }
  }

  /** A receipt prepended to a log that has none like it. */
  lemma AppendsOnce(log: seq<Entry>, e: Entry)
    requires e !in log
    ensures multiset([e] + log)[e] == 1
    ensures forall x :: x != e ==> multiset([e] + log)[x] == multiset(log)[x]
  {
    assert multiset([e] + log) == multiset{e} + multiset(log);
  }

  lemma LogGrows(m: Machine, n: Machine)
    requires LogSound(m) && Grows(m, n) && n.log == m.log
    ensures LogSound(n)
  {
    forall e | e in n.log && e.Receipt?
      ensures multiset(n.log)[e] == 1 && e.summary in n.logged && exists r :: r in n.intents && r.summary == e.summary
    {
      var r :| r in m.intents && r.summary == e.summary;
      assert r in n.intents;
    }
  }

  lemma MoveKeepsLog(m: Machine, p: nat)
    requires LogSound(m) && Knows(m, p, At(m, p))
    ensures LogSound(Move(m, p))
  {
    var q, n := At(m, p), Move(m, p);
    MoveGrows(m, p);
    if q.Appending? && m.log == q.seen {
      var r := q.rec;
      AppendsOnce(m.log, Receipt(r.summary));
      assert r.(phase := Prepared) in m.intents && n.intents == m.intents;
      forall e | e in n.log && e.Receipt?
        ensures multiset(n.log)[e] == 1 && e.summary in n.logged && exists x :: x in n.intents && x.summary == e.summary
      {
        if e == Receipt(r.summary) { assert r.(phase := Prepared).summary == e.summary; } else { assert e in m.log; }
      }
    } else {
      hide Text, InUse;
      assert n.log == m.log by {
        if Looks(q) { LookingMoves(m, p); hide Move; } else { hide Replay, ReplayOwn; }
      }
      hide Move;
      LogGrows(m, n);
    }
  }

  lemma MoveKeepsFiles(m: Machine, p: nat)
    requires FilesSound(m)
    ensures FilesSound(Move(m, p))
  {
    hide InUse;
    if Looks(At(m, p)) {
      LookingMoves(m, p);
      hide Move;
    } else {
      hide Replay, ReplayOwn;
    }
  }

  // ---------------------------------------------------------------- what processes know stays true

  lemma KnowsSurvives(m: Machine, n: Machine, p: nat, q: Process)
    requires Knows(m, p, q) && Grows(m, n)
    requires q.Mutating? || q.MarkingNotApplied? || q.Reclaiming? ==> n.writes == m.writes && n.intents == m.intents
    ensures Knows(n, p, q)
  {
  }

  lemma OthersKeepKnowledge(m: Machine, a: Action, p: nat)
    requires Inv(m) && (a.Proceed? || a.Call? || a.Crash? || a.Restart? || a.Fail? ==> p != a.p)
    ensures Knows(Act(m, a), p, At(Act(m, a), p))
  {
    hide Move, JournalSound, LogSound, WritesSound, FilesSound, InUse, IntentsSound;
    assert Knows(m, p, At(m, p));
    if a.Proceed? {
      MoveFrame(m, a.p);
      MoveGrows(m, a.p);
      assert Knows(m, a.p, At(m, a.p));
      if At(m, p).Mutating? || At(m, p).MarkingNotApplied? || At(m, p).Reclaiming? {
        assert Owns(m, p) && !Owns(m, a.p);
        OthersNeverWrite(m, a.p);
      }
    }
    KnowsSurvives(m, Act(m, a), p, At(m, p));
  }

  lemma LookerKnows(m: Machine, p: nat)
    requires IntentsSound(m) && JournalSound(m) && Looks(At(m, p)) && Knows(m, p, At(m, p)) && FilesSound(m)
    requires forall e :: e in m.log && e.Receipt? ==> e.summary in m.logged
    ensures Knows(Move(m, p), p, At(Move(m, p), p))
  {
    var q := At(m, p);
    LookingMoves(m, p);
    if q.ReadingLog? {
      assert Receipt(q.rec.summary) in m.log ==> q.rec.summary in m.logged;
    }
    hide Looks, HeldAfter;
    match q
    case Starting(_) =>
    case ReadingTarget(r, _) =>
      assert Text(m, r.Filename()) == Some(r.after) ==> (r.Filename(), r.after) in m.held;
    case ReadingLog(_, _) =>
    case LinkLost(_) =>
    case ReplayingOwn(_) =>
    case ReadingBack =>
    case _ =>
  }

  lemma DoerKnows(m: Machine, p: nat)
    requires IntentsSound(m) && JournalSound(m) && WritesSound(m) && !Looks(At(m, p)) && Knows(m, p, At(m, p))
    ensures Knows(Move(m, p), p, At(Move(m, p), p))
  {
    hide Replay, ReplayOwn, InUse;
    match At(m, p)
    case MarkingPending(_) =>
    case Appending(_, _, _) =>
    case MarkingComplete(_, _) =>
    case Preparing(_) =>
    case Reclaiming(_) =>
    case Mutating(_) =>
    case MarkingNotApplied(_) =>
    case MarkingApplied(_) =>
    case SavingVerified(_) =>
    case _ =>
  }

  lemma KnowledgeKept(m: Machine, a: Action, p: nat)
    requires Inv(m)
    ensures Knows(Act(m, a), p, At(Act(m, a), p))
  {
    if (a.Proceed? || a.Call? || a.Crash? || a.Restart? || a.Fail?) && p == a.p {
      assert Knows(m, p, At(m, p));
      if a.Proceed? {
        if Looks(At(m, p)) { LookerKnows(m, p); } else { DoerKnows(m, p); }
        hide Move;
      }
      hide Truthful;
    } else {
      OthersKeepKnowledge(m, a, p);
    }
  }

  // ---------------------------------------------------------------- the invariant is kept

  /** Calls, crashes, restarts and failures: the budget of intents grows whenever the owner's pid begins afresh. */
  lemma ProcessesKeep(m: Machine, a: Action)
    requires Inv(m) && (a.Call? || a.Crash? || a.Restart? || a.Fail?)
    ensures IntentsSound(Act(m, a)) && JournalSound(Act(m, a))
  {
    hide LogSound, WritesSound, FilesSound, Knows;
  }

  lemma PartsKept(m: Machine, a: Action)
    requires Inv(m)
    ensures IntentsSound(Act(m, a)) && JournalSound(Act(m, a))
    ensures WritesSound(Act(m, a)) && FilesSound(Act(m, a))
  {
    if a.Proceed? {
      assert Knows(m, a.p, At(m, a.p));
      MoveKeepsIntents(m, a.p);
      MoveKeepsJournal(m, a.p);
      MoveKeepsWrites(m, a.p);
      MoveKeepsFiles(m, a.p);
      hide Move;
    } else if a.Call? || a.Crash? || a.Restart? || a.Fail? {
      ProcessesKeep(m, a);
    }
    hide LogSound, Knows, InUse;
  }

  lemma LogKept(m: Machine, a: Action)
    requires Inv(m)
    ensures LogSound(Act(m, a))
  {
    if a.Proceed? {
      assert Knows(m, a.p, At(m, a.p));
      MoveKeepsLog(m, a.p);
      hide Move;
    }
    hide JournalSound, WritesSound, FilesSound, Knows, IntentsSound, InUse;
  }

  lemma InvKept(m: Machine, a: Action)
    requires Inv(m)
    ensures Inv(Act(m, a))
  {
    hide Act, IntentsSound, JournalSound, LogSound, WritesSound, FilesSound, Knows;
    PartsKept(m, a);
    LogKept(m, a);
    forall p: nat ensures Knows(Act(m, a), p, At(Act(m, a), p)) { KnowledgeKept(m, a, p); }
  }

  lemma {:induction false} RunInv(m: Machine, actions: seq<Action>)
    requires Inv(m)
    ensures Inv(RunJournal(m, actions))
    decreases |actions|
  {
    hide Inv, Act;
    if actions != [] {
      InvKept(m, actions[0]);
      RunInv(Act(m, actions[0]), actions[1..]);
    }
  }

  lemma FreshInv(m: Machine)
    requires Fresh(m)
    ensures Inv(m)
  {
  }
}
