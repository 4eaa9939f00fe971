/** A push or a pull that nothing interrupts is a run of the machine that interleaves agent, user and hosted store. */
module SyncPasses {
  import opened Wrappers
  import opened RevisionModel
  import opened SyncModel
  import opened SyncRuns

  /** The agent's own steps alone lead there. */
  ghost predicate Leads(cfg: Config, sys: System, end: System) {
    exists actions: seq<Action> :: RunSystem(cfg, sys, actions) == end
                                   && forall a: Action :: a in actions ==> !a.EditLocal? && !a.Hosted? && !a.Crash?
  }

  lemma LeadsHere(cfg: Config, sys: System)
    ensures Leads(cfg, sys, sys)
  {
    assert RunSystem(cfg, sys, []) == sys;
  }

  lemma LeadsOn(cfg: Config, sys: System, a: Action, next: System, end: System)
    requires Act(cfg, sys, a) == next && Leads(cfg, next, end) && !a.EditLocal? && !a.Hosted? && !a.Crash?
    ensures Leads(cfg, sys, end)
  {
    hide Act;
    var rest: seq<Action> :| RunSystem(cfg, next, rest) == end && forall x: Action :: x in rest ==> !x.EditLocal? && !x.Hosted? && !x.Crash?;
    assert ([a] + rest)[1..] == rest;
    assert RunSystem(cfg, sys, [a] + rest) == end;
  }

  // ---------------------------------------------------------------- reconciling

  lemma {:induction false} ReconcileLeads(
    cfg: Config, sys: System, st: SyncState, report: Report, todo: seq<Conflict>, changed: bool, end: System)
    requires sys.phase == Reconciling(st, todo, None, changed) && (!changed ==> st == sys.saved)
    requires var p := ReconcileAll(cfg, sys.world, st, report, todo);
             Leads(cfg, sys.(world := p.world, saved := p.state, phase := Scanning(p.state)), end)
    ensures Leads(cfg, sys, end)
    decreases |todo|
  {
    hide ReconcileLook, ReconcileWrite, Leads, RunSystem;
    if todo == [] {
      LeadsOn(cfg, sys, EndReconcile, sys.(saved := st, phase := Scanning(st)), end);
    } else {
      var c, rest := todo[0], todo[1..];
      match ReconcileLook(cfg, sys.world, st, c)
      case None =>
        var next := sys.(phase := Reconciling(st, rest, None, changed));
        ReconcileLeads(cfg, next, st, report, rest, changed, end);
        LeadsOn(cfg, sys, LookAtResolved, next, end);
      case Some(r) =>
        var looked := sys.(phase := Reconciling(st, todo, Some(Look(c, r)), changed));
        var q := ReconcileWrite(sys.world, st, report, c, r);
        ReconcileWritten(sys.world, st, report, c, r);
        var installed := Act(cfg, looked, InstallResolved);
        ReconcileLeads(cfg, installed, q.state, q.report, rest, installed.phase.changed, end);
        LeadsOn(cfg, looked, InstallResolved, installed, end);
        LeadsOn(cfg, sys, LookAtResolved, looked, end);
    }
  }

  lemma ReconcileWritten(w: World, st: SyncState, report: Report, c: Conflict, r: Revision)
    ensures var p, q := ReconcileWrite(w, st, report, c, r), ReconcileWrite(w, st, EMPTY_REPORT, c, r);
            p.Pass? && q.Pass? && p.world == q.world && p.state == q.state && (q.report.pulled == [] ==> q.state == st)
  {
    hide Mutate;
  }

  // ---------------------------------------------------------------- pushing

  lemma {:induction false} PushLeads(
    cfg: Config, env: Env, sys: System, st: SyncState, report: Report, scanned: set<string>, todo: seq<string>, end: System)
    requires sys.phase == Pushing(st, scanned, todo, None)
    requires match PushAll(cfg, env, sys.world, st, report, todo)
             case Pass(w, after, _) => Leads(cfg, sys.(world := w, phase := Pushing(after, scanned, [], None)), end)
             case Aborted(w) => Leads(cfg, sys.(world := w, phase := Idle), end)
    ensures Leads(cfg, sys, end)
    decreases |todo|
  {
    hide PushFile, Leads, RunSystem;
    if todo != [] {
      var f := todo[0];
      if !cfg.safe(f) || f !in sys.world.disk {
        LeadsOn(cfg, sys, ReadLocal, sys.(phase := Idle), end);
      } else {
        var content := sys.world.disk[f];
        var read := sys.(phase := Pushing(st, scanned, todo, Some(content)));
        PushSilent(cfg, env, sys.world, st, report, f, content);
        var next := Act(cfg, read, ProposeLocal(env));
        if PushFile(cfg, env, sys.world, st, report, f, content).Pass? {
          var p := PushFile(cfg, env, sys.world, st, report, f, content);
          PushLeads(cfg, env, next, p.state, p.report, scanned, todo[1..], end);
        }
        LeadsOn(cfg, read, ProposeLocal(env), next, end);
        LeadsOn(cfg, sys, ReadLocal, read, end);
      }
    }
  }

  /** The report does not matter to what is done. */
  lemma PushSilent(cfg: Config, env: Env, w: World, st: SyncState, report: Report, f: string, content: string)
    ensures var p, q := PushFile(cfg, env, w, st, report, f, content), PushFile(cfg, env, w, st, EMPTY_REPORT, f, content);
            p.world == q.world && (p.Pass? <==> q.Pass?) && (p.Pass? ==> p.state == q.state)
  {
    hide Propose, ReadBack;
  }

  lemma {:induction false} DeleteLeads(
    cfg: Config, sys: System, st: SyncState, report: Report, remembered: set<string>, todo: seq<string>)
    requires sys.phase == Deleting(st, remembered, todo) && sys.pushes != []
    ensures var p := DeleteAll(cfg, sys.world, st, report, todo);
            exists end: System :: Leads(cfg, sys, end) && end.phase.Idle? && end.world == p.world && end.saved == Remember(p.state, remembered)
    decreases |todo|
  {
    hide DeleteOne, Leads, RunSystem, Remember;
    if todo == [] {
      var end := Act(cfg, sys, EndPush);
      LeadsHere(cfg, end);
      LeadsOn(cfg, sys, EndPush, end, end);
    } else {
      var next := Act(cfg, sys, TombstoneOne);
      DeleteSilent(cfg, sys.world, st, report, todo[0]);
      var p := DeleteOne(cfg, sys.world, st, report, todo[0]);
      DeleteLeads(cfg, next, p.state, p.report, remembered, todo[1..]);
      var q := DeleteAll(cfg, sys.world, st, report, todo);
      var end: System :| Leads(cfg, next, end) && end.phase.Idle? && end.world == q.world && end.saved == Remember(q.state, remembered);
      LeadsOn(cfg, sys, TombstoneOne, next, end);
    }
  }

  lemma DeleteSilent(cfg: Config, w: World, st: SyncState, report: Report, f: string)
    ensures var p, q := DeleteOne(cfg, w, st, report, f), DeleteOne(cfg, w, st, EMPTY_REPORT, f);
            p.Pass? && q.Pass? && p.world == q.world && p.state == q.state
  {
    hide Delete;
  }

  /** A whole push that nothing interrupts, `names` listing the tracked files. */
  lemma PushIsARun(cfg: Config, input: PushInput, sys: System)
    requires sys.phase.Idle?
    requires Distinct(input.names)
    requires input.scan.Files? ==>
               var r := ReconcilePass(cfg, sys.world, sys.saved);
               var p := PushAll(cfg, input.env, r.world, r.state, r.report, input.scan.names);
               p.Pass? ==> SetOf(input.names) == p.state.files.Keys
    ensures var ended := PushPass(cfg, input, sys.world, sys.saved);
            exists end: System :: Leads(cfg, sys, end) && end.phase.Idle? && end.world == ended.world && end.saved == ended.saved
  {
    hide Leads, RunSystem, ReconcileAll, PushAll, DeleteAll, PlanDeletions, ResolvedConflicts, Distinct;
    var resolved := ResolvedConflicts(sys.world.store.conflicts, cfg.brain);
    var started := sys.(phase := Reconciling(sys.saved, resolved, None, false));
    var r := ReconcilePass(cfg, sys.world, sys.saved);
    var scanning := sys.(world := r.world, saved := r.state, phase := Scanning(r.state));
    var end: System;
    match input.scan {
      case ScanFailed(_) =>
        end := Act(cfg, scanning, FailScan);
        LeadsHere(cfg, end);
        LeadsOn(cfg, scanning, FailScan, end, end);
      case Files(found) =>
        var pushing := Act(cfg, scanning, EndScan(found));
        match PushAll(cfg, input.env, r.world, r.state, r.report, found) {
          case Aborted(w) =>
            end := pushing.(world := w, phase := Idle);
            LeadsHere(cfg, end);
          case Pass(w, st, report) =>
            var pushed := pushing.(world := w, phase := Pushing(st, SetOf(found), [], None));
            var deleting := Act(cfg, pushed, PlanTombstones(input.names, input.limits));
            var plan := PlanDeletions(st, input.names, SetOf(found), input.limits);
            var with := report.(skipped := report.skipped + plan.skipped, guards := report.guards + plan.guards);
            DeleteLeads(cfg, deleting, st, with, plan.remembered, plan.deletions);
            end :| Leads(cfg, deleting, end) && end.phase.Idle? && end.world == DeleteAll(cfg, w, st, with, plan.deletions).world
                   && end.saved == Remember(DeleteAll(cfg, w, st, with, plan.deletions).state, plan.remembered);
            LeadsOn(cfg, pushed, PlanTombstones(input.names, input.limits), deleting, end);
        }
        PushLeads(cfg, input.env, pushing, r.state, r.report, SetOf(found), found, end);
        LeadsOn(cfg, scanning, EndScan(found), pushing, end);
    }
    ReconcileLeads(cfg, started, sys.saved, EMPTY_REPORT, resolved, false, end);
    LeadsOn(cfg, sys, StartPush, started, end);
  }

  // ---------------------------------------------------------------- pulling

  lemma {:induction false} PullLeads(cfg: Config, env: Env, sys: System, st: SyncState, report: Report, todo: seq<Revision>)
    requires sys.phase == Pulling(st, todo, None)
    ensures exists end: System :: Leads(cfg, sys, end) && end.phase.Idle? &&
              match PullAll(cfg, env, sys.world, st, report, todo)
              case Pass(w, after, _) => end.world == w && end.saved == after
              case Aborted(w) => end.world == w && end.saved == sys.saved
    decreases |todo|
  {
    hide PullFile, Leads, RunSystem, IsSource;
    if todo == [] {
      var end := Act(cfg, sys, EndPull);
      LeadsHere(cfg, end);
      LeadsOn(cfg, sys, EndPull, end, end);
    } else {
      var head := todo[0];
      var hashed := Act(cfg, sys, HashLocal);
      var end: System;
      if IsSource(head.key.filename) {
        PullLeads(cfg, env, hashed, st, PullOne(cfg, env, sys.world, st, report, head).report, todo[1..]);
        end := PullEnd(cfg, env, hashed, st, PullOne(cfg, env, sys.world, st, report, head).report, todo[1..]);
      } else if !cfg.safe(head.key.filename) {
        end := hashed;
        LeadsHere(cfg, end);
      } else {
        var seen := DiskHash(sys.world, head.key.filename);
        PullSilent(cfg, env, sys.world, st, report, head, seen);
        var next := Act(cfg, hashed, PullHead(env));
        match PullFile(cfg, env, sys.world, st, report, head, seen) {
          case Aborted(w) =>
            end := next;
            LeadsHere(cfg, end);
          case Pass(w, after, more) =>
            PullLeads(cfg, env, next, after, more, todo[1..]);
            end := PullEnd(cfg, env, next, after, more, todo[1..]);
        }
        LeadsOn(cfg, hashed, PullHead(env), next, end);
      }
      LeadsOn(cfg, sys, HashLocal, hashed, end);
    }
  }

  lemma PullEnd(cfg: Config, env: Env, sys: System, st: SyncState, report: Report, todo: seq<Revision>) returns (end: System)
    requires exists e: System :: Leads(cfg, sys, e) && e.phase.Idle? &&
               match PullAll(cfg, env, sys.world, st, report, todo)
               case Pass(w, after, _) => e.world == w && e.saved == after
               case Aborted(w) => e.world == w && e.saved == sys.saved
    ensures Leads(cfg, sys, end) && end.phase.Idle?
    ensures match PullAll(cfg, env, sys.world, st, report, todo)
            case Pass(w, after, _) => end.world == w && end.saved == after
            case Aborted(w) => end.world == w && end.saved == sys.saved
  {
    hide Leads, PullAll;
    end :| Leads(cfg, sys, end) && end.phase.Idle? &&
           match PullAll(cfg, env, sys.world, st, report, todo)
           case Pass(w, after, _) => end.world == w && end.saved == after
           case Aborted(w) => end.world == w && end.saved == sys.saved;
  }

  lemma PullSilent(cfg: Config, env: Env, w: World, st: SyncState, report: Report, head: Revision, seen: Option<Hash>)
    ensures var p, q := PullFile(cfg, env, w, st, report, head, seen), PullFile(cfg, env, w, st, EMPTY_REPORT, head, seen);
            p.world == q.world && (p.Pass? <==> q.Pass?) && (p.Pass? ==> p.state == q.state)
  {
    hide Mutate, RecordConflict, PullHold;
  }

  /** A whole pull that nothing interrupts. */
  lemma PullIsARun(cfg: Config, env: Env, keys: seq<Key>, sys: System)
    requires sys.phase.Idle? && forall key :: key in keys ==> key.brain == cfg.brain
    ensures var ended := PullPass(cfg, env, keys, sys.world, sys.saved);
            exists end: System :: Leads(cfg, sys, end) && end.phase.Idle? && end.world == ended.world && end.saved == ended.saved
  {
    hide Leads, RunSystem, PullAll, HeadsOf;
    if env.deployment.Unavailable? {
      LeadsHere(cfg, sys);
    } else {
      var started := Act(cfg, sys, StartPull(keys));
      var heads := HeadsOf(sys.world.store, keys);
      PullLeads(cfg, env, started, sys.saved, EMPTY_REPORT, heads);
      var end := PullEnd(cfg, env, started, sys.saved, EMPTY_REPORT, heads);
      LeadsOn(cfg, sys, StartPull(keys), started, end);
    }
  }
}
