/** What the hosted store promises its callers: replays, receipts, and a retired queue that only shrinks. */
module RevisionTheorems {
  import opened Wrappers
  import opened Text
  import opened WritePolicy
  import opened RevisionModel
  import opened RevisionHistory
  import Log

  // ---------------------------------------------------------------- at most once

  lemma OperationsAtMostOnce(ops: seq<Operation>, i: nat, j: nat, brain: string, operationId: string)
    requires var s := Run(EMPTY, ops);
             && i in s.revisions && CarriesOperation(s.revisions[i], brain, operationId)
             && j in s.revisions && CarriesOperation(s.revisions[j], brain, operationId)
    ensures i == j
  {
    EmptySound();
    RunSound(EMPTY, ops);
    hide Run, Numbered, Linked, HeadsFold, ConflictsSound;
  }

  lemma FindsTheOnly(s: Store, brain: string, op: string, id: nat)
    requires Sound(s) && id in s.revisions && CarriesOperation(s.revisions[id], brain, op)
    ensures FindOperation(s, brain, op, 1) == Some(s.revisions[id])
  {
    hide Linked, HeadsFold, ConflictsSound, CarriesOperation;
    assert FindOperation(s, brain, op, 1).Some?;
    FindOperationRecorded(s, brain, op, 1);
  }

  /** The revision a policy-admitted write makes carries its operation and the hash of its request. */
  lemma AdmittedRevision(s: Store, env: Env, input: Proposal)
    requires ApplyFile(s, env, input).2
    ensures IsExternal(input)
    ensures var r := ApplyFile(s, env, input).1.revision;
            && CarriesOperation(r, input.key.brain, input.context.value.request.operationId)
            && r.context.value.requestHash == Some(OperationHash(input, input.context.value.request))
            && r == ApplyFile(s, env, input).0.heads[input.key]
            && r.key == input.key && r.content == input.content
            && r.id in ApplyFile(s, env, input).0.revisions && ApplyFile(s, env, input).0.revisions[r.id] == r
            && input.key.filename != "LOG.md"
  {
    hide OperationHash, FindOperation, Admit, IsLogPath, ApplyFile, LiveText;
    ApplyCases(s, env, input);
    AdmittedContext(s, env, input, LiveText(s, input.key));
    AdmittedNotLog(s, env, input, LiveText(s, input.key));
    LogIsLogPath();
  }

  lemma LogIsLogPath()
    ensures IsLogPath("LOG.md")
  {
    assert "LOG.md"[0..] == "LOG.md";
  }

  lemma AdmittedNotLog(s: Store, env: Env, input: Proposal, before: string)
    requires Admit(s, env, input, before).UnderPolicy?
    ensures !IsLogPath(input.key.filename)
  {
    hide IsLogPath, OperationHash, QueueRefuses, CheckAllEvidence;
  }

  /** Resubmitting an admitted write, after anything else has happened and under whatever policy, answers
      with the original revision and leaves the store unchanged. */
  lemma ResubmissionReturnsOriginal(s: Store, env: Env, input: Proposal, later: seq<Operation>, env': Env)
    requires Sound(s) && ApplyFile(s, env, input).2 && Propose(s, env, input).1.Accepted?
    ensures var (t, outcome) := Propose(s, env, input);
            var u := Run(t, later);
            var id := outcome.revision.id;
            && id in u.revisions && Settled(u.revisions[id]) == Settled(outcome.revision)
            && Propose(u, env', input) == (u, Unchanged(u.revisions[id]))
  {
    AdmittedRevision(s, env, input);
    RecordedSurvives(s, env, input, later);
    hide Sound, Extends, Run, Propose, Admit, OperationHash, CarriesOperation;
    var u := Run(Propose(s, env, input).0, later);
    var id := ApplyFile(s, env, input).1.revision.id;
    FindsTheOnly(u, input.key.brain, input.context.value.request.operationId, id);
    ReplayAnswers(u, env', input, id);
  }

  /** Another request under the same operation id is refused, and changes nothing either. */
  lemma OtherRequestRefused(s: Store, env: Env, input: Proposal, later: seq<Operation>, env': Env, other: Proposal)
    requires Sound(s) && ApplyFile(s, env, input).2 && Propose(s, env, input).1.Accepted?
    requires IsExternal(other) && other.key.brain == input.key.brain && IsExternal(input)
    requires other.context.value.request.operationId == input.context.value.request.operationId
    requires OperationHash(other, other.context.value.request) != OperationHash(input, input.context.value.request)
    ensures var u := Run(Propose(s, env, input).0, later);
            Propose(u, env', other) == (u, Threw(OperationIdentityConflict))
  {
    AdmittedRevision(s, env, input);
    RecordedSurvives(s, env, input, later);
    hide Sound, Extends, Run, Admit, OperationHash, CarriesOperation;
    var u := Run(Propose(s, env, input).0, later);
    var id := ApplyFile(s, env, input).1.revision.id;
    FindsTheOnly(u, input.key.brain, input.context.value.request.operationId, id);
    hide FindOperation;
  }

  lemma RecordedSurvives(s: Store, env: Env, input: Proposal, later: seq<Operation>)
    requires Sound(s) && ApplyFile(s, env, input).2 && Propose(s, env, input).1.Accepted?
    ensures var (t, outcome) := Propose(s, env, input);
            var u := Run(t, later);
            var r := ApplyFile(s, env, input).1.revision;
            && outcome.revision == r && Sound(u) && r.id in u.revisions && Settled(u.revisions[r.id]) == Settled(r)
            && IsExternal(input) && CarriesOperation(u.revisions[r.id], input.key.brain, input.context.value.request.operationId)
            && u.revisions[r.id].context.value.requestHash == Some(OperationHash(input, input.context.value.request))
  {
    AdmittedRevision(s, env, input);
    var r := ApplyFile(s, env, input).1.revision;
    ApplyFileSound(s, env, input);
    var t0 := ApplyFile(s, env, input).0;
    ApplyFileSound(t0, env, Receipt(t0, env, input));
    hide ApplyFile, Sound, OperationHash;
    var t := Propose(s, env, input).0;
    ProposeSound(s, env, input);
    RunSound(t, later);
    ExtendsKeeps(t0, t, r.id);
    ExtendsKeeps(t, Run(t, later), r.id);
    hide Run, Extends, Propose;
    SettledCarries(r, Run(t, later).revisions[r.id]);
  }

  lemma SettledCarries(a: Revision, b: Revision)
    requires Settled(a) == Settled(b) && a.context.Some? && a.context.value.External?
    ensures b.context.Some? && b.context.value.External?
    ensures b.context.value.requestHash == a.context.value.requestHash && b.context.value.request == a.context.value.request
    ensures a.key == b.key && a.id == b.id && a.content == b.content
  {
    assert Settled(a).context.value.External?;
    if b.context.Some? && b.context.value.External? {
      assert Settled(b).context.value.requestHash == b.context.value.requestHash;
      assert Settled(a).context.value.requestHash == a.context.value.requestHash;
      assert Settled(b).context.value.request == b.context.value.request;
      assert Settled(a).context.value.request == a.context.value.request;
    }
    assert Settled(a).key == a.key && Settled(a).id == a.id && Settled(a).content == a.content;
    assert Settled(b).key == b.key && Settled(b).id == b.id && Settled(b).content == b.content;
  }

  lemma ReplayAnswers(u: Store, env: Env, input: Proposal, id: nat)
    requires IsExternal(input) && id in u.revisions
    requires FindOperation(u, input.key.brain, input.context.value.request.operationId, 1) == Some(u.revisions[id])
    requires u.revisions[id].context.Some? && u.revisions[id].context.value.External?
    requires u.revisions[id].context.value.requestHash == Some(OperationHash(input, input.context.value.request))
    ensures Propose(u, env, input) == (u, Unchanged(u.revisions[id]))
  {
    hide FindOperation, OperationHash, Admit;
  }

  // ---------------------------------------------------------------- exactly one receipt

  /** A receipt is a fresh revision of LOG.md: its text always differs from the log it extends. */
  lemma ReceiptIsAccepted(s: Store, env: Env, input: Proposal)
    requires Sound(s)
    ensures var log := LogKey(input.key.brain);
            var (t, outcome, due) := ApplyFile(s, env, Receipt(s, env, input));
            && !due
            && (outcome.Threw? || outcome.Accepted?)
            && (outcome.Accepted? ==>
                  && t == Commit(s, outcome.revision)
                  && outcome.revision.key == log && outcome.revision.parent == HeadId(s, log)
                  && outcome.revision.content == Receipt(s, env, input).content)
  {
    var log := LogKey(input.key.brain);
    ReceiptIsInternal(s, env, input);
    OnHeadNeverConflicts(s, env, Receipt(s, env, input));
    ReceiptChangesLog(s, env, input);
    ApplyCases(s, env, Receipt(s, env, input));
    if log in s.heads { HeadRevisionLive(s, log); }
    assert !ApplyFile(s, env, Receipt(s, env, input)).2;
    hide Receipt, Admit, FindOperation, OperationHash, Sound, ApplyFile, LogKey;
  }

  lemma HeadRevisionLive(s: Store, key: Key)
    requires Sound(s) && key in s.heads
    ensures !s.heads[key].deleted ==> s.heads[key].hash == Live(s.heads[key].content)
    ensures s.heads[key].deleted ==> s.heads[key].content == ""
  {
    HeadRevision(s, key);
  }

  lemma ReceiptChangesLog(s: Store, env: Env, input: Proposal)
    ensures LogKey(input.key.brain) in s.heads ==> Receipt(s, env, input).content != s.heads[LogKey(input.key.brain)].content
    ensures Receipt(s, env, input).content != ""
  {
    var log := LogKey(input.key.brain);
    var entry := ReceiptEntry(env, input.key.filename);
    var text := if log in s.heads && s.heads[log].content != "" then s.heads[log].content else Log.LOG_HEADER;
    EntryInk(env, input.key.filename);
    hide Log.AppendLogEntry, ReceiptEntry, Log.LOG_HEADER;
    Log.AppendKeepsInk(text, entry);
    InkBlank(entry);
    InkBlank(text);
    NoInkInEmpty();
    if log in s.heads && s.heads[log].content != "" {
      Log.AppendChangesContent(text, entry);
    }
  }

  lemma NoInkInEmpty()
    ensures Ink("") == ""
  {
  }

  lemma EntryInk(env: Env, filename: string)
    ensures !Blank(ReceiptEntry(env, filename))
  {
    var lines := ["## [" + env.date + "] " + "UPDATE" + " | " + env.summary, "Files: " + Log.CommaList([filename]), ""];
    var entry := ReceiptEntry(env, filename);
    assert entry == Join(lines);
    assert entry == lines[0] + "\n" + Join(lines[1..]);
    assert entry[0] == '#';
  }

  /** What became of a proposal: a refusal or replay changes nothing, a conflict changes no file, an ordinary
      write adds its own change, and an admitted one adds its own and one of LOG.md. */
  ghost predicate Accounts(s: Store, env: Env, input: Proposal, t: Store, outcome: Outcome, due: bool) {
    var log := LogKey(input.key.brain);
    match outcome
    case Threw(_) => t == s
    case Unchanged(_) => t == s
    case Conflicted(conflict, _) => t.(conflicts := s.conflicts, conflictSeq := s.conflictSeq) == s && conflict in t.conflicts
    case Accepted(r) =>
      && r.key == input.key && r.content == input.content && !r.deleted
      && IsLive(t, input.key) && t.heads[input.key] == r
      && (!due ==> t == Commit(s, r))
      && (due ==>
            && input.key != log && log in t.heads && t.heads == s.heads[input.key := r][log := t.heads[log]]
            && |t.changes| == |s.changes| + 2 && t.conflicts == s.conflicts
            && t.changes[|s.changes|].key == input.key && t.changes[|s.changes| + 1].key == log
            && t.heads[log].content == Receipt(s, env, input).content)
  }

  /** Every proposal accounts for itself. */
  lemma ProposalAccounting(s: Store, env: Env, input: Proposal)
    requires Sound(s)
    ensures Accounts(s, env, input, Propose(s, env, input).0, Propose(s, env, input).1, ApplyFile(s, env, input).2)
  {
    ApplyCases(s, env, input);
    hide Sound, Admit, FindOperation, OperationHash, ApplyFile, Receipt;
    var (t0, outcome, due) := ApplyFile(s, env, input);
    if due {
      AdmittedRevision(s, env, input);
      ApplyFileSound(s, env, input);
      SameReceipt(s, t0, env, input, outcome.revision);
      ReceiptIsAccepted(t0, env, input);
      hide LogKey;
    } else if outcome.Conflicted? {
      var current := Head(s, input.key);
      hide RecordConflict;
      RecordConflictSound(s, Against(input.key, input.base, Live(input.content), input.origin, input.actor, current));
    }
  }

  /** Writing another file leaves the receipt's text as it would have been. */
  lemma SameReceipt(s: Store, t: Store, env: Env, input: Proposal, r: Revision)
    requires t == Commit(s, r) && r.key == input.key && input.key.filename != "LOG.md"
    ensures Receipt(t, env, input).content == Receipt(s, env, input).content
    ensures input.key != LogKey(input.key.brain)
  {
    hide Log.AppendLogEntry, ReceiptEntry, Log.LOG_HEADER;
  }

  // ---------------------------------------------------------------- evidence

  /** Hosted evidence names a live file whose current head has the revision, hash and passage observed. */
  ghost predicate Grounded(s: Store, brain: string, e: Evidence) {
    e.hosted ==>
      && IsLive(s, Key(brain, e.reference))
      && var actual := s.heads[Key(brain, e.reference)];
         && (e.revision.Some? ==> e.revision.value == actual.id)
         && (e.sha.Some? ==> e.sha.value == Live(actual.content))
         && exists i: nat :: OccursAt(actual.content, e.excerpt, i)
  }

  lemma {:induction false} CheckedEvidenceIsGrounded(s: Store, brain: string, evidence: seq<Evidence>)
    requires CheckAllEvidence(s, brain, evidence).None?
    ensures forall i :: 0 <= i < |evidence| ==> Grounded(s, brain, evidence[i])
  {
    if evidence != [] {
      CheckedEvidenceIsGrounded(s, brain, evidence[1..]);
      var e := evidence[0];
      if e.hosted {
        var actual := s.heads[Key(brain, e.reference)];
        assert OccursAt(actual.content, e.excerpt, IndexOf(actual.content, e.excerpt, 0).value);
      }
      forall i | 0 <= i < |evidence| ensures Grounded(s, brain, evidence[i]) {
        if i > 0 { assert evidence[i] == evidence[1..][i - 1]; }
      }
    }
  }

  /** What an admitted write records as retrieved was read from the live heads of its own Brain. */
  lemma AdmittedEvidenceIsGrounded(s: Store, env: Env, input: Proposal)
    requires ApplyFile(s, env, input).2
    ensures var request := ApplyFile(s, env, input).1.revision.context.value.request;
            forall i :: 0 <= i < |request.evidence| ==>
              Grounded(s, input.key.brain, request.evidence[i]) && request.evidence[i].retrieved == request.evidence[i].hosted
  {
    hide OperationHash, FindOperation, QueueRefuses, IsLogPath, CheckAllEvidence;
    var admission := Admit(s, env, input, LiveText(s, input.key));
    var asked := input.context.value.request.evidence;
    CheckedEvidenceIsGrounded(s, input.key.brain, asked);
    var request := ApplyFile(s, env, input).1.revision.context.value.request;
    forall i | 0 <= i < |request.evidence|
      ensures Grounded(s, input.key.brain, request.evidence[i]) && request.evidence[i].retrieved == request.evidence[i].hosted
    {
      assert request.evidence[i] == asked[i].(retrieved := asked[i].hosted);
      assert Grounded(s, input.key.brain, asked[i]);
    }
  }

  // ---------------------------------------------------------------- the retired queue

  /** Every call of the run is made under one policy that has retired the intake queue. */
  ghost predicate Under(op: Operation, rules: Rules, policy: Policy) {
    match op
    case DoPropose(env, _) => env.rules == rules && env.deployment == Configured(Some(policy))
    case DoRename(env, _, _, _, _, _, _) => env.rules == rules && env.deployment == Configured(Some(policy))
    case DoResolve(env, _, _, _, _, _) => env.rules == rules && env.deployment == Configured(Some(policy))
    case _ => true
  }

  function Queue(rules: Rules, s: Store, key: Key): multiset<string> {
    multiset(rules.blocks(LiveText(s, key)))
  }

  /** The active blocks of every task file only shrink. */
  ghost predicate Shrinks(rules: Rules, policy: Policy, s: Store, t: Store) {
    forall key: Key :: TaskPath(policy, key.filename) ==> Queue(rules, t, key) <= Queue(rules, s, key)
  }

  lemma CommitShrinks(rules: Rules, policy: Policy, s: Store, r: Revision)
    requires TaskPath(policy, r.key.filename) ==>
               multiset(rules.blocks(if r.deleted then "" else r.content)) <= Queue(rules, s, r.key)
    ensures Shrinks(rules, policy, s, Commit(s, r))
  {
    forall key: Key | TaskPath(policy, key.filename) ensures Queue(rules, Commit(s, r), key) <= Queue(rules, s, key) {
      if key == r.key {
        assert LiveText(Commit(s, r), key) == if r.deleted then "" else r.content;
      } else {
        assert LiveText(Commit(s, r), key) == LiveText(s, key);
      }
    }
  }

  lemma SameHeadsShrinks(rules: Rules, policy: Policy, s: Store, t: Store)
    requires t.heads == s.heads
    ensures Shrinks(rules, policy, s, t)
  {
    forall key: Key ensures LiveText(t, key) == LiveText(s, key) {}
  }

  lemma ShrinksTransitive(rules: Rules, policy: Policy, s: Store, t: Store, u: Store)
    requires Shrinks(rules, policy, s, t) && Shrinks(rules, policy, t, u)
    ensures Shrinks(rules, policy, s, u)
  {
    forall key: Key | TaskPath(policy, key.filename) ensures Queue(rules, u, key) <= Queue(rules, s, key) {
      assert Queue(rules, u, key) <= Queue(rules, t, key);
    }
  }

  lemma ApplyShrinks(s: Store, env: Env, input: Proposal, policy: Policy)
    requires Sound(s) && env.deployment == Configured(Some(policy)) && policy.intake.Retired?
    ensures Shrinks(env.rules, policy, s, ApplyFile(s, env, input).0)
  {
    var (t, outcome, due) := ApplyFile(s, env, input);
    ApplyCases(s, env, input);
    if outcome.Accepted? {
      AcceptedPassesQueue(s, env, input);
      hide Sound, ApplyFile, QueueRefuses, Admit, FindOperation, OperationHash, RecordConflict;
      CommitShrinks(env.rules, policy, s, outcome.revision);
    } else {
      if outcome.Conflicted? {
        ConflictKeepsHeads(s, Against(input.key, input.base, Live(input.content), input.origin, input.actor, Head(s, input.key)));
      }
      hide Sound, Admit, FindOperation, Shrinks, ApplyFile, OperationHash, RecordConflict;
      SameHeadsShrinks(env.rules, policy, s, t);
    }
  }

  lemma ConflictKeepsHeads(s: Store, input: ConflictInput)
    ensures RecordConflict(s, input).0.heads == s.heads
  {
    hide FindOpen;
  }

  lemma AcceptedPassesQueue(s: Store, env: Env, input: Proposal)
    requires env.deployment.Configured? && ApplyFile(s, env, input).1.Accepted?
    ensures var r := ApplyFile(s, env, input).1.revision;
            && ApplyFile(s, env, input).0 == Commit(s, r) && r.key == input.key && !r.deleted && r.content == input.content
    ensures env.deployment.policy.Some? && env.deployment.policy.value.intake.Retired?
            && TaskPath(env.deployment.policy.value, input.key.filename) ==>
              multiset(env.rules.blocks(input.content)) <= multiset(env.rules.blocks(LiveText(s, input.key)))
  {
    ApplyCases(s, env, input);
    PassesQueue(s, env, input, LiveText(s, input.key));
    hide FindOperation, OperationHash, Admit, ApplyFile, LiveText;
  }

  /** What admission lets through adds no active block to a retired task file. */
  lemma PassesQueue(s: Store, env: Env, input: Proposal, before: string)
    requires env.deployment.Configured? && !Admit(s, env, input, before).Refused?
    ensures env.deployment.policy.Some? && env.deployment.policy.value.intake.Retired?
            && TaskPath(env.deployment.policy.value, input.key.filename) ==>
              multiset(env.rules.blocks(input.content)) <= multiset(env.rules.blocks(before))
  {
    hide CheckAllEvidence, IsLogPath, OperationHash;
  }

  lemma ProposeShrinks(s: Store, env: Env, input: Proposal, policy: Policy)
    requires Sound(s) && env.deployment == Configured(Some(policy)) && policy.intake.Retired?
    ensures Shrinks(env.rules, policy, s, Propose(s, env, input).0)
  {
    hide Sound, Shrinks, ApplyFile, Receipt;
    var (t, outcome, due) := ApplyFile(s, env, input);
    ApplyShrinks(s, env, input, policy);
    if due {
      ApplyFileSound(s, env, input);
      ApplyShrinks(t, env, Receipt(t, env, input), policy);
      ShrinksTransitive(env.rules, policy, s, t, ApplyFile(t, env, Receipt(t, env, input)).0);
      SameHeadsShrinks(env.rules, policy, s, s);
    }
  }

  lemma RenameShrinks(s: Store, env: Env, brain: string, from: string, to: string, base: Option<nat>,
      origin: Origin, actor: Option<Actor>, policy: Policy)
    requires Sound(s) && env.deployment == Configured(Some(policy)) && policy.intake.Retired?
    requires env.rules.blocks("") == []
    ensures Shrinks(env.rules, policy, s, Rename(s, env, brain, from, to, base, origin, actor).0)
  {
    hide Sound, Shrinks;
    var (t, outcome) := Rename(s, env, brain, from, to, base, origin, actor);
    if outcome.Accepted? {
      var r := outcome.revision;
      var toKey := Key(brain, to);
      if toKey in s.heads { HeadRevisionLive(s, toKey); }
      var u := Commit(s, r);
      assert LiveText(s, toKey) == "";
      CommitShrinks(env.rules, policy, s, r);
      var tombstone := NextRevision(u, Key(brain, from), "", true, origin, actor, None, Some(to), None);
      CommitShrinks(env.rules, policy, u, tombstone);
      ShrinksTransitive(env.rules, policy, s, u, t);
    } else {
      hide QueueRefuses;
      SameHeadsShrinks(env.rules, policy, s, t);
    }
  }

  lemma StepShrinks(s: Store, op: Operation, rules: Rules, policy: Policy)
    requires Sound(s) && Under(op, rules, policy) && policy.intake.Retired? && rules.blocks("") == []
    ensures Shrinks(rules, policy, s, Step(s, op))
  {
    hide Sound, Shrinks, Propose, Rename;
    match op
    case DoPropose(env, input) => ProposeShrinks(s, env, input, policy);
    case DoRename(env, brain, from, to, base, origin, actor) => RenameShrinks(s, env, brain, from, to, base, origin, actor, policy);
    case DoDelete(key, base, origin, actor) =>
      var (t, outcome) := Delete(s, key, base, origin, actor);
      if outcome.Accepted? {
        CommitShrinks(rules, policy, s, outcome.revision);
      } else {
        SameHeadsShrinks(rules, policy, s, t);
      }
    case DoRecord(conflict) => SameHeadsShrinks(rules, policy, s, Step(s, op));
    case DoVerify(brain, id, state) => SameHeadsShrinks(rules, policy, s, Step(s, op));
    case DoResolve(env, brain, id, expected, content, actor) =>
      var found := FindConflict(s.conflicts, brain, id);
      if found.Some? {
        var key := s.conflicts[found.value].input.key;
        var input := Proposal(key, HeadId(s, key), content, HostedMcp, actor, Some(Internal("explicit reviewed conflict resolution")));
        ProposeShrinks(s, env, input, policy);
        var t := Propose(s, env, input).0;
        if Step(s, op) != s {
          SameHeadsShrinks(rules, policy, t, Step(s, op));
          ShrinksTransitive(rules, policy, s, t, Step(s, op));
        }
      }
      SameHeadsShrinks(rules, policy, s, s);
  }

  /** Along every run under a retired policy, no task file ever gains an active queue block. */
  lemma {:induction false} RetiredIntakeNeverGrows(s: Store, ops: seq<Operation>, rules: Rules, policy: Policy)
    requires Sound(s) && policy.intake.Retired? && rules.blocks("") == []
    requires forall i :: 0 <= i < |ops| ==> Under(ops[i], rules, policy)
    ensures forall key: Key :: TaskPath(policy, key.filename) ==> Queue(rules, Run(s, ops), key) <= Queue(rules, s, key)
    decreases |ops|
  {
    hide Sound, Shrinks, Step;
    if ops == [] {
      SameHeadsShrinks(rules, policy, s, s);
    } else {
      var t := Step(s, ops[0]);
      StepSound(s, ops[0]);
      StepShrinks(s, ops[0], rules, policy);
      RetiredIntakeNeverGrows(t, ops[1..], rules, policy);
      FromShrinks(rules, policy, s, t);
    }
    assert forall key: Key :: TaskPath(policy, key.filename) ==> Queue(rules, Run(s, ops), key) <= Queue(rules, s, key);
  }

  lemma FromShrinks(rules: Rules, policy: Policy, s: Store, t: Store)
    requires Shrinks(rules, policy, s, t)
    ensures forall key: Key :: TaskPath(policy, key.filename) ==> Queue(rules, t, key) <= Queue(rules, s, key)
  {
  }
}
