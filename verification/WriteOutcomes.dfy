/** What the write journal promises over whole runs: how often a target is written, when an interrupted write is
    made again, and by whom. */
module WriteOutcomes {
  import opened Wrappers
  import opened WriteJournal

  // ---------------------------------------------------------------- how often the pid comes back

  lemma ActGrows(m: Machine, a: Action)
    ensures Grows(m, Act(m, a))
    ensures Act(m, a).again <= m.again + if (a.Restart? || a.Fail?) && Owns(m, a.p) then 1 else 0
  {
    hide Move, InUse;
    if a.Proceed? {
      MoveGrows(m, a.p);
      MoveFrame(m, a.p);
    }
  }

  lemma {:induction false} RunGrows(m: Machine, actions: seq<Action>)
    ensures Grows(m, RunJournal(m, actions))
    decreases |actions|
  {
    hide Act;
    if actions != [] {
      ActGrows(m, actions[0]);
      RunGrows(Act(m, actions[0]), actions[1..]);
    }
  }

  /** The restarts and failed calls of a pid. */
  function Fresher(actions: seq<Action>, p: nat): nat {
    multiset(actions)[Restart(p)] + multiset(actions)[Fail(p)]
  }

  /** `again` counts these of the owner's pid alone, so a run without any leaves it as it was. */
  lemma {:induction false} AgainCounted(m: Machine, actions: seq<Action>)
    ensures var end := RunJournal(m, actions);
            end.again <= m.again + if end.intents == [] then 0 else Fresher(actions, end.intents[0].owner)
    decreases |actions|
  {
    hide Act;
    if actions != [] {
      var a, rest := actions[0], actions[1..];
      assert actions == [a] + rest;
      ActGrows(m, a);
      RunGrows(Act(m, a), rest);
      AgainCounted(Act(m, a), rest);
    }
  }

  // ---------------------------------------------------------------- at most once for each process under the pid

  function Receipts(log: seq<Entry>): set<Entry> {
    set e | e in log && e.Receipt?
  }

  lemma {:induction false} SummariesBounded(log: seq<Entry>, intents: seq<Record>)
    requires forall e :: e in log && e.Receipt? ==> exists r :: r in intents && r.summary == e.summary
    ensures |Receipts(log)| <= |intents|
  {
    var all := set r | r in intents :: Receipt(r.summary);
    assert Receipts(log) <= all;
    SubsetSmaller(Receipts(log), all);
    IntentSummaries(intents);
  }

  lemma {:induction false} IntentSummaries(intents: seq<Record>)
    ensures |set r | r in intents :: Receipt(r.summary)| <= |intents|
  {
    var all := set r | r in intents :: Receipt(r.summary);
    if intents != [] {
      var rest := set r | r in intents[1..] :: Receipt(r.summary);
      IntentSummaries(intents[1..]);
      assert intents == [intents[0]] + intents[1..];
      assert all == rest + {Receipt(intents[0].summary)};
    }
  }

  lemma {:induction false} SubsetSmaller<T>(a: set<T>, b: set<T>)
    requires a <= b
    ensures |a| <= |b|
    decreases |a|
  {
    if a != {} {
      var x :| x in a;
      SubsetSmaller(a - {x}, b - {x});
    }
  }

  /** Crash safety. Over every run of any number of processes, crashes, restarts, failures, retries and outside edits:
      the operation writes its target at most once for each intent, and intents are at most one more than the
      times their owner's pid began afresh; every write is made under that pid, to the one file, with the content of
      an intent; every receipt in the log is of an intent and there once; a completed journal means that the file
      held the content and the log the receipt; and one that says "not applied" means that an intent was never
      written. */
  lemma CrashSafe(start: Machine, actions: seq<Action>)
    requires Fresh(start)
    ensures var m := RunJournal(start, actions);
            && |m.writes| <= |m.intents| <= 1 + m.again
            && m.again <= (if m.intents == [] then 0 else Fresher(actions, m.intents[0].owner))
            && (forall r :: r in m.intents ==> r.owner == m.intents[0].owner && r.request == m.intents[0].request)
            && (forall w :: w in m.writes ==> exists r :: r in m.intents && w == WriteOf(r))
            && (forall e :: e in m.log && e.Receipt? ==> multiset(m.log)[e] == 1 && exists r :: r in m.intents && r.summary == e.summary)
            && |Receipts(m.log)| <= |m.intents|
            && (m.journal.Some? ==>
                  var r := m.journal.value;
                  && Copies(m, r)
                  && (r.phase.Complete? ==> HeldAfter(m, r) && r.summary in m.logged)
                  && (r.phase.NotApplied? ==> |m.writes| < |m.intents|))
  {
    FreshInv(start);
    RunInv(start, actions);
    var m := RunJournal(start, actions);
    AgainCounted(start, actions);
    SummariesBounded(m.log, m.intents);
    hide Fresher, Fresh, RunJournal, Knows, Receipts;
  }

  /** So while the owner's pid does not begin afresh, the operation writes at most once, with the content first
      intended, and leaves at most one receipt; and "not applied" means that nothing was written. */
  lemma OnceInOneLife(start: Machine, actions: seq<Action>)
    requires Fresh(start)
    requires var m := RunJournal(start, actions); m.intents != [] ==> Fresher(actions, m.intents[0].owner) == 0
    ensures var m := RunJournal(start, actions);
            && m.again == 0 && |m.intents| <= 1
            && (m.writes != [] ==> m.intents != [] && m.writes == [WriteOf(m.intents[0])])
            && (forall e :: e in m.log && e.Receipt? ==>
                  m.intents != [] && e == Receipt(m.intents[0].summary) && multiset(m.log)[e] == 1)
            && (m.journal.Some? && m.journal.value.phase.NotApplied? ==> m.writes == [])
  {
    CrashSafe(start, actions);
    var m := RunJournal(start, actions);
    hide RunJournal, Copies, HeldAfter, Fresher;
    if m.writes != [] { assert m.writes[0] in m.writes; assert m.writes == [m.writes[0]]; }
  }

  // ---------------------------------------------------------------- interrupted writes

  /** The owner of the intents has crashed, and nothing runs under its pid yet. */
  predicate OwnerGone(m: Machine) {
    m.intents != [] && At(m, m.intents[0].owner).Dead?
  }

  /** An interrupted write is never redone unless something is started again under its owner's pid: until then no
      recoverer or retry writes the target, under any interleaving. */
  lemma {:induction false} NeverRedone(m: Machine, actions: seq<Action>)
    requires Inv(m) && OwnerGone(m) && Restart(m.intents[0].owner) !in actions
    ensures RunJournal(m, actions).writes == m.writes && RunJournal(m, actions).intents == m.intents
    decreases |actions|
  {
    if actions != [] {
      var a := actions[0];
      assert a in actions && forall x :: x in actions[1..] ==> x in actions;
      InvKept(m, a);
      GoneStaysGone(m, a);
      hide Inv, Act, OwnerGone;
      NeverRedone(Act(m, a), actions[1..]);
    }
  }

  lemma GoneStaysGone(m: Machine, a: Action)
    requires Inv(m) && OwnerGone(m) && a != Restart(m.intents[0].owner)
    ensures OwnerGone(Act(m, a)) && Act(m, a).writes == m.writes && Act(m, a).intents == m.intents
  {
    hide Move, JournalSound, LogSound, WritesSound, FilesSound, InUse;
    if a.Proceed? {
      assert Knows(m, a.p, At(m, a.p));
      OthersNeverWrite(m, a.p);
      MoveFrame(m, a.p);
    }
    hide IntentsSound, Knows;
  }

  /** The journal has left `prepared`, and its owner's pid is not about to write. */
  predicate Decided(m: Machine) {
    && m.intents != [] && m.journal.Some? && !m.journal.value.phase.Prepared?
    && !At(m, m.intents[0].owner).Mutating? && !At(m, m.intents[0].owner).Reclaiming?
  }

  lemma DecidedStays(m: Machine, a: Action)
    requires Inv(m) && Decided(m)
    ensures Decided(Act(m, a)) && Act(m, a).writes == m.writes && Act(m, a).intents == m.intents
  {
    hide JournalSound, LogSound, WritesSound, FilesSound, InUse;
    if a.Proceed? {
      assert Knows(m, a.p, At(m, a.p));
      OthersNeverWrite(m, a.p);
      MoveFrame(m, a.p);
      DecidedMove(m, a.p);
    }
    hide IntentsSound, Knows, Move;
  }

  lemma DecidedMove(m: Machine, p: nat)
    requires Decided(m) && Knows(m, p, At(m, p))
    ensures !At(Move(m, p), p).Mutating? && (Owns(m, p) ==> !At(Move(m, p), p).Reclaiming?)
    ensures Move(m, p).journal.Some? && !Move(m, p).journal.value.phase.Prepared?
  {
    hide Text, InUse, HeldAfter, Copies;
    if Looks(At(m, p)) {
      LookingMoves(m, p);
    } else {
      hide Replay, ReplayOwn;
    }
  }

  /** Once the journal says anything but `prepared`, and its owner is not in the middle of writing, no write is ever
      made again, whoever crashes and whatever pids come back. */
  lemma {:induction false} NeverWrittenAgain(m: Machine, actions: seq<Action>)
    requires Inv(m) && Decided(m)
    ensures RunJournal(m, actions).writes == m.writes
    decreases |actions|
  {
    if actions != [] {
      InvKept(m, actions[0]);
      DecidedStays(m, actions[0]);
      hide Inv, Act, Decided;
      NeverWrittenAgain(Act(m, actions[0]), actions[1..]);
    }
  }

  lemma {:induction false} RunConcat(m: Machine, a: seq<Action>, b: seq<Action>)
    ensures RunJournal(m, a + b) == RunJournal(RunJournal(m, a), b)
    decreases |a|
  {
    hide Act;
    if a == [] {
      assert a + b == b;
    } else {
      assert (a + b)[1..] == a[1..] + b;
      RunConcat(Act(m, a[0]), a[1..], b);
    }
  }

  lemma ThreeSteps(m: Machine, a: Action, b: Action, c: Action)
    ensures RunJournal(m, [a, b, c]) == Act(Act(Act(m, a), b), c)
  {
    hide Act;
    assert [a, b, c][1..] == [b, c] && [b, c][1..] == [c] && [c][1..] == [];
    assert RunJournal(Act(m, a), [b, c]) == RunJournal(Act(Act(m, a), b), [c]);
  }

  /** The target is set back, a new process is given the pid, and it retries up to its write. */
  function Retry(p: nat, attempt: Record): seq<Action> {
    [EditFile(attempt.Filename(), attempt.before), Restart(p), Call(p, attempt)]
    + [Proceed(p), Proceed(p), Proceed(p)] + [Proceed(p), Proceed(p), Proceed(p)]
  }

  /** A prepared intent of a process that is gone, or of one whose pid another process has now. */
  predicate Interrupted(m: Machine, p: nat) {
    && Owns(m, p) && (At(m, p).Dead? || At(m, p).Ready?)
    && m.journal.Some? && m.journal.value.phase.Prepared? && m.journal.value.owner == p
  }

  /** A retry under its pid finds the intent its own, takes it over and writes. */
  lemma RetryWrites(m: Machine, p: nat)
    requires Interrupted(m, p)
    ensures var r := m.journal.value;
            var n := RunJournal(m, Retry(p, r));
            && n.writes == m.writes + [WriteOf(r)] && n.intents == m.intents + [r]
            && n.again == m.again + (if At(m, p).Dead? then 1 else 0)
            && n.journal == Some(r) && At(n, p).MarkingApplied?
  {
    var r := m.journal.value;
    var call := [EditFile(r.Filename(), r.before), Restart(p), Call(p, r)];
    var three := [Proceed(p), Proceed(p), Proceed(p)];
    RunConcat(m, call + three, three);
    RunConcat(m, call, three);
    ThreeSteps(m, EditFile(r.Filename(), r.before), Restart(p), Call(p, r));
    var called := RunJournal(m, call);
    RetryCalls(m, p);
    ThreeSteps(called, Proceed(p), Proceed(p), Proceed(p));
    RetryLooks(called, p, r);
    var found := RunJournal(called, three);
    ThreeSteps(found, Proceed(p), Proceed(p), Proceed(p));
    hide RunJournal, Act;
    RetryReclaims(found, p, r);
  }

  lemma RetryCalls(m: Machine, p: nat)
    requires Interrupted(m, p)
    ensures var r := m.journal.value;
            var n := Act(Act(Act(m, EditFile(r.Filename(), r.before)), Restart(p)), Call(p, r));
            && At(n, p) == Starting(r) && n.journal == m.journal && Text(n, r.Filename()) == r.before
            && n.writes == m.writes && n.intents == m.intents && n.again == m.again + (if At(m, p).Dead? then 1 else 0)
  {
    hide Move;
  }

  lemma RetryLooks(m: Machine, p: nat, r: Record)
    requires At(m, p) == Starting(r) && m.journal == Some(r) && r.owner == p && r.phase.Prepared? && Text(m, r.Filename()) == r.before
    ensures var n := Act(Act(Act(m, Proceed(p)), Proceed(p)), Proceed(p));
            n == Go(m, p, LinkLost(r))
  {
  }

  lemma RetryReclaims(m: Machine, p: nat, r: Record)
    requires At(m, p) == LinkLost(r) && m.journal == Some(r) && r.owner == p && r.phase.Prepared? && Text(m, r.Filename()) == r.before
    ensures var n := Act(Act(Act(m, Proceed(p)), Proceed(p)), Proceed(p));
            && n.writes == m.writes + [WriteOf(r)] && n.intents == m.intents + [r] && n.again == m.again
            && n.journal == Some(r) && At(n, p).MarkingApplied?
  {
    hide Replay, ReplayOwn;
    var one := Act(m, Proceed(p));
    assert one == Go(m, p, Reclaiming(r));
    assert r.(owner := p, phase := Prepared) == r;
    var two := Act(one, Proceed(p));
    assert At(two, p) == Mutating(r) && Text(two, r.Filename()) == r.before;
  }

  /** When the owner is gone, the write can be made again if and only if the journal still says `prepared`. */
  lemma RedoneIffPrepared(m: Machine)
    requires Inv(m) && OwnerGone(m)
    ensures m.journal.Some?
    ensures (exists actions :: RunJournal(m, actions).writes != m.writes) <==> m.journal.value.phase.Prepared?
  {
    var p := m.intents[0].owner;
    OwnedByFirst(m);
    if m.journal.value.phase.Prepared? {
      RetryWrites(m, p);
      assert RunJournal(m, Retry(p, m.journal.value)).writes != m.writes;
    } else {
      hide Inv;
      forall actions ensures RunJournal(m, actions).writes == m.writes { NeverWrittenAgain(m, actions); }
    }
  }

  lemma OwnedByFirst(m: Machine)
    requires Inv(m) && m.intents != []
    ensures m.journal.Some? && m.journal.value.owner == m.intents[0].owner
  {
    hide LogSound, WritesSound, FilesSound, Knows;
    var r := m.journal.value;
    assert r.(phase := Prepared) in m.intents;
  }

  lemma {:induction false} DecidedForGood(m: Machine, actions: seq<Action>)
    requires Inv(m) && Decided(m)
    ensures Decided(RunJournal(m, actions))
    decreases |actions|
  {
    if actions != [] {
      InvKept(m, actions[0]);
      DecidedStays(m, actions[0]);
      hide Inv, Act, Decided;
      DecidedForGood(Act(m, actions[0]), actions[1..]);
    }
  }

  /** A process that is not in the middle of a call, or one yet to be started, can come to take an intent over if and
      only if the journal is prepared and carries its own pid. */
  lemma ReclaimsIffPrepared(m: Machine, p: nat)
    requires Inv(m) && m.intents != [] && (At(m, p).Dead? || At(m, p).Ready?)
    ensures m.journal.Some?
    ensures (exists actions :: At(RunJournal(m, actions), p).Reclaiming?) <==>
            m.journal.value.phase.Prepared? && m.journal.value.owner == p
  {
    OwnedByFirst(m);
    hide Inv;
    if m.journal.value.phase.Prepared? && m.journal.value.owner == p {
      RetryFinds(m, p);
    } else {
      forall actions ensures !At(RunJournal(m, actions), p).Reclaiming? {
        var end := RunJournal(m, actions);
        RunInv(m, actions);
        RunGrows(m, actions);
        if At(end, p).Reclaiming? {
          OwnsReclaimed(end, p);
          assert m.intents[0] == end.intents[0];
          DecidedForGood(m, actions);
        }
      }
    }
  }

  lemma OwnsReclaimed(m: Machine, p: nat)
    requires Inv(m) && At(m, p).Reclaiming?
    ensures Owns(m, p) && 1 <= |m.intents| <= m.again
  {
    hide LogSound, WritesSound, FilesSound, JournalSound, IntentsSound;
    assert Knows(m, p, At(m, p));
  }

  lemma RetryFinds(m: Machine, p: nat)
    requires Interrupted(m, p)
    ensures exists actions :: At(RunJournal(m, actions), p).Reclaiming?
  {
    var r := m.journal.value;
    var call := [EditFile(r.Filename(), r.before), Restart(p), Call(p, r)];
    var three := [Proceed(p), Proceed(p), Proceed(p)];
    RunConcat(m, call + three, [Proceed(p)]);
    RunConcat(m, call, three);
    ThreeSteps(m, EditFile(r.Filename(), r.before), Restart(p), Call(p, r));
    var called := RunJournal(m, call);
    RetryCalls(m, p);
    ThreeSteps(called, Proceed(p), Proceed(p), Proceed(p));
    RetryLooks(called, p, r);
    var found := RunJournal(called, three);
    FindsOwn(found, p, r);
    OneStep(found, Proceed(p));
    hide Act, RunJournal;
    assert At(RunJournal(m, call + three + [Proceed(p)]), p).Reclaiming?;
  }

  lemma FindsOwn(m: Machine, p: nat, r: Record)
    requires At(m, p) == LinkLost(r) && m.journal == Some(r) && r.owner == p && r.phase.Prepared?
    ensures At(Act(m, Proceed(p)), p).Reclaiming?
  {
    hide Replay, ReplayOwn;
  }

  lemma OneStep(m: Machine, a: Action)
    ensures RunJournal(m, [a]) == Act(m, a)
  {
    hide Act;
    assert [a][1..] == [];
  }

  /** So while a pid does not begin afresh, no process of that pid takes an intent over. */
  lemma NeverReclaims(start: Machine, actions: seq<Action>, p: nat)
    requires Fresh(start) && Fresher(actions, p) == 0
    ensures !At(RunJournal(start, actions), p).Reclaiming?
  {
    FreshInv(start);
    RunInv(start, actions);
    AgainCounted(start, actions);
    hide Inv, RunJournal, Fresher;
    if At(RunJournal(start, actions), p).Reclaiming? { OwnsReclaimed(RunJournal(start, actions), p); }
  }

  /** A first call up to its link. */
  function FirstCall(p: nat, attempt: Record): seq<Action> {
    [EditFile(attempt.Filename(), attempt.before), Call(p, attempt), Proceed(p)]
  }

  lemma FirstCallLooks(start: Machine, p: nat, attempt: Record)
    requires Fresh(start)
    ensures var m := RunJournal(start, FirstCall(p, attempt));
            && At(m, p) == Preparing(attempt) && m.journal.None? && m.intents == [] && m.writes == [] && m.again == 0
            && Text(m, attempt.Filename()) == attempt.before
  {
    ThreeSteps(start, EditFile(attempt.Filename(), attempt.before), Call(p, attempt), Proceed(p));
    assert At(start, p).Ready?;
  }

  /** Such writes are lost: from every fresh machine, a crash between link and write leaves a prepared intent behind,
      and the write is not made, whoever retries and whatever else happens, while nothing is started again under
      that pid. */
  lemma WriteCanBeLost(start: Machine, p: nat, attempt: Record, later: seq<Action>)
    requires Fresh(start) && Restart(p) !in later
    ensures var crashed := RunJournal(start, FirstCall(p, attempt) + [Proceed(p), Crash(p)]);
            && Interrupted(crashed, p) && OwnerGone(crashed) && RunJournal(crashed, later).writes == []
  {
    var m := RunJournal(start, FirstCall(p, attempt));
    FirstCallLooks(start, p, attempt);
    RunConcat(start, FirstCall(p, attempt), [Proceed(p), Crash(p)]);
    TwoSteps(m, Proceed(p), Crash(p));
    var crashed := RunJournal(m, [Proceed(p), Crash(p)]);
    FreshInv(start);
    RunInv(start, FirstCall(p, attempt) + [Proceed(p), Crash(p)]);
    hide Inv, RunJournal, FirstCall;
    NeverRedone(crashed, later);
  }

  lemma TwoSteps(m: Machine, a: Action, b: Action)
    ensures RunJournal(m, [a, b]) == Act(Act(m, a), b)
  {
    hide Act;
    assert [a, b][1..] == [b] && [b][1..] == [];
    assert RunJournal(Act(m, a), [b]) == Act(Act(m, a), b);
  }

  /** The bound on writes is reached: for every n there is a run in which the pid comes back n times and the target is
      written n + 1 times. Each process crashes after its write, before the journal says so, and somebody sets
      the target back. */
  lemma {:induction false} WritesReachBound(start: Machine, p: nat, attempt: Record, n: nat)
    requires Fresh(start)
    ensures exists actions ::
              var m := RunJournal(start, actions); |m.writes| == n + 1 && m.again == n && Interrupted(m, p) && At(m, p).Dead?
    decreases n
  {
    if n == 0 {
      var m := RunJournal(start, FirstCall(p, attempt));
      var more := [Proceed(p), Proceed(p), Crash(p)];
      FirstCallLooks(start, p, attempt);
      RunConcat(start, FirstCall(p, attempt), more);
      ThreeSteps(m, Proceed(p), Proceed(p), Crash(p));
      FirstWrites(m, p, attempt);
      hide RunJournal, Act;
      assert |RunJournal(start, FirstCall(p, attempt) + more).writes| == 1;
    } else {
      WritesReachBound(start, p, attempt, n - 1);
      var actions :| var m := RunJournal(start, actions); |m.writes| == n && m.again == n - 1 && Interrupted(m, p) && At(m, p).Dead?;
      var m := RunJournal(start, actions);
      var more := Retry(p, m.journal.value) + [Crash(p)];
      WritesOnceMore(m, p);
      RunConcat(start, actions, more);
      hide RunJournal, Retry, Interrupted;
      assert |RunJournal(start, actions + more).writes| == n + 1;
    }
  }

  lemma WritesOnceMore(m: Machine, p: nat)
    requires Interrupted(m, p) && At(m, p).Dead?
    ensures var n := RunJournal(m, Retry(p, m.journal.value) + [Crash(p)]);
            |n.writes| == |m.writes| + 1 && n.again == m.again + 1 && Interrupted(n, p) && At(n, p).Dead?
  {
    var retry := Retry(p, m.journal.value);
    RetryWrites(m, p);
    RunConcat(m, retry, [Crash(p)]);
    OneStep(RunJournal(m, retry), Crash(p));
    hide RunJournal, Retry, Move;
    assert m.intents[0] == RunJournal(m, retry).intents[0];
  }

  lemma FirstWrites(m: Machine, p: nat, attempt: Record)
    requires At(m, p) == Preparing(attempt) && m.journal.None? && m.intents == [] && m.writes == [] && m.again == 0
    requires Text(m, attempt.Filename()) == attempt.before
    ensures var n := Act(Act(Act(m, Proceed(p)), Proceed(p)), Crash(p));
            |n.writes| == 1 && n.again == 0 && Interrupted(n, p) && At(n, p).Dead?
  {
    hide Replay, ReplayOwn;
    var one := Act(m, Proceed(p));
    assert At(one, p) == Mutating(attempt.(owner := p, phase := Prepared)) && Text(one, attempt.Filename()) == attempt.before;
  }
}
