/** When exactly the revision store admits, answers and refuses, and what it then records, in terms of the store and
    the request alone. */
module RevisionCases {
  import opened Wrappers
  import opened Text
  import opened WritePolicy
  import opened RevisionModel
  import opened RevisionHistory
  import opened RevisionTheorems
  import Log

  // ---------------------------------------------------------------- evidence

  lemma CheckedExactly(s: Store, brain: string, e: Evidence)
    ensures CheckEvidence(s, brain, e) ==
            if Grounded(s, brain, e) then None
            else if Key(brain, e.reference) in s.heads && !s.heads[Key(brain, e.reference)].deleted then Some(StaleWriteContext)
            else Some(SourceUnavailable)
  {
    if e.hosted && IsLive(s, Key(brain, e.reference)) {
      var content := s.heads[Key(brain, e.reference)].content;
      if IndexOf(content, e.excerpt, 0).Some? { assert OccursAt(content, e.excerpt, IndexOf(content, e.excerpt, 0).value); }
    }
  }

  /** Evidence passes exactly when every item that names a hosted source is grounded; otherwise the first item that
      is not decides, by whether its source is there at all. */
  lemma {:induction false} EvidencePassesExactly(s: Store, brain: string, evidence: seq<Evidence>)
    ensures CheckAllEvidence(s, brain, evidence).None? <==> forall i :: 0 <= i < |evidence| ==> Grounded(s, brain, evidence[i])
    ensures CheckAllEvidence(s, brain, evidence).Some? ==>
              exists i :: 0 <= i < |evidence| && !Grounded(s, brain, evidence[i])
                          && (forall j :: 0 <= j < i ==> Grounded(s, brain, evidence[j]))
                          && CheckAllEvidence(s, brain, evidence).value
                             == (if IsLive(s, Key(brain, evidence[i].reference)) then StaleWriteContext else SourceUnavailable)
  {
    hide CheckEvidence, Grounded;
    if evidence != [] {
      var rest := evidence[1..];
      CheckedExactly(s, brain, evidence[0]);
      EvidencePassesExactly(s, brain, rest);
      assert forall i :: 1 <= i < |evidence| ==> evidence[i] == rest[i - 1];
      if Grounded(s, brain, evidence[0]) && CheckAllEvidence(s, brain, rest).Some? {
        var i :| 0 <= i < |rest| && !Grounded(s, brain, rest[i]) && (forall j :: 0 <= j < i ==> Grounded(s, brain, rest[j]))
                 && CheckAllEvidence(s, brain, rest).value
                    == (if IsLive(s, Key(brain, rest[i].reference)) then StaleWriteContext else SourceUnavailable);
        assert evidence[i + 1] == rest[i];
      }
      if forall i :: 0 <= i < |evidence| ==> Grounded(s, brain, evidence[i]) {
        forall i | 0 <= i < |rest| ensures Grounded(s, brain, rest[i]) { assert rest[i] == evidence[i + 1]; }
      }
    }
  }

  // ---------------------------------------------------------------- admission

  /** The log of a folder: the last part of the path reads "LOG.md", in whatever case. */
  lemma LogPathMeans(filename: string)
    ensures IsLogPath(filename) <==>
              var n := |filename|;
              && n >= 6 && filename[n - 6] in "Ll" && filename[n - 5] in "Oo" && filename[n - 4] in "Gg" && filename[n - 3] == '.'
              && filename[n - 2] in "Mm" && filename[n - 1] in "Dd" && (n > 6 ==> filename[n - 7] == '/')
  {
    if |filename| >= 6 {
      var t := filename[|filename| - 6..];
      assert SameIgnoringCase(t, "LOG.md") <==>
             && LowerChar(t[0]) == 'l' && LowerChar(t[1]) == 'o' && LowerChar(t[2]) == 'g' && LowerChar(t[3]) == '.'
             && LowerChar(t[4]) == 'm' && LowerChar(t[5]) == 'd' by {
        var u := "LOG.md";
        assert LowerChar(u[0]) == 'l' && LowerChar(u[1]) == 'o' && LowerChar(u[2]) == 'g' && LowerChar(u[3]) == '.';
        assert LowerChar(u[4]) == 'm' && LowerChar(u[5]) == 'd';
      }
      forall i | 0 <= i < 6 ensures t[i] == filename[|filename| - 6 + i] {
      }
    }
  }

  /** New intake for a queue that takes no more: some active block is there more often than before. */
  ghost predicate NewIntake(env: Env, filename: string, before: string, after: string)
  {
    && env.deployment.Configured? && env.deployment.policy.Some? && env.deployment.policy.value.intake.Retired?
    && filename in env.deployment.policy.value.taskPaths
    && before != after
    && exists block :: multiset(env.rules.blocks(after))[block] > multiset(env.rules.blocks(before))[block]
  }

  /** A change that an enforcing policy wants evidence for. */
  ghost predicate Asks(env: Env, input: Proposal, before: string)
  {
    && env.deployment.Configured? && env.deployment.policy.Some? && env.deployment.policy.value.mode.Enforce?
    && before != input.content
    && !(input.context.Some? && input.context.value.Internal?)
  }

  /** What admission decides, and for which reason, in the order of its checks. */
  lemma AdmitsExactly(s: Store, env: Env, input: Proposal, before: string)
    ensures var admission := Admit(s, env, input, before);
            if env.deployment.Unavailable? then admission == Admission.Refused(PolicyUnavailable)
            else if NewIntake(env, input.key.filename, before, input.content) then admission == Admission.Refused(GeneralIntakeRetired)
            else if !Asks(env, input, before) then admission == Plain
            else if IsLogPath(input.key.filename) || input.context.None? then admission == Admission.Refused(KnowledgeRefused)
            else
              var request := input.context.value.request;
              if !env.rules.wellFormed(env.deployment.policy.value, input.key.filename, before, input.content, request)
              then admission == Admission.Refused(KnowledgeRefused)
              else if request.target.Some? && !IsLive(s, Key(input.key.brain, request.target.value))
              then admission == Admission.Refused(BrainScopeRequired)
              else if forall i :: 0 <= i < |request.evidence| ==> Grounded(s, input.key.brain, request.evidence[i])
              then
                && admission.UnderPolicy? && admission.context.External? && admission.context.verification == Some(Applied)
                && admission.context.request == request.(evidence := admission.context.request.evidence)
                && |admission.context.request.evidence| == |request.evidence|
                && (forall i :: 0 <= i < |request.evidence| ==>
                      admission.context.request.evidence[i] == request.evidence[i].(retrieved := request.evidence[i].hosted))
                && admission.context.requestHash.Some?
                && HashOf(input, request, admission.context.requestHash.value)
              else admission == Admission.Refused(StaleWriteContext) || admission == Admission.Refused(SourceUnavailable)
  {
    hide IsLogPath, CheckAllEvidence, Grounded;
    if env.deployment.Configured? {
      NewBlocks(multiset(env.rules.blocks(before)), env.rules.blocks(input.content));
      if input.context.Some? && input.context.value.External? {
        EvidencePassesExactly(s, input.key.brain, input.context.value.request.evidence);
        AdmitHash(input, input.context.value.request);
        hide OperationHash, SomeNewBlock;
      }
    }
  }

  lemma NewBlocks(previous: multiset<string>, blocks: seq<string>)
    ensures SomeNewBlock(previous, blocks) <==> exists block :: multiset(blocks)[block] > previous[block]
  {
    if !(exists block :: multiset(blocks)[block] > previous[block]) {
      forall block ensures multiset(blocks)[block] <= previous[block] {
      }
      assert multiset(blocks) <= previous;
    }
  }

  /** The hash is of the file, the base, the text, the actor and all the caller asked for, but not of what the server
      stamps on the evidence. */
  ghost predicate HashOf(input: Proposal, request: Request, hash: Fingerprint) {
    && hash.key == input.key && hash.base == input.base && hash.content == input.content && hash.actor == input.actor
    && hash.request == request.(evidence := hash.request.evidence)
    && |hash.request.evidence| == |request.evidence|
    && forall i :: 0 <= i < |request.evidence| ==> hash.request.evidence[i] == request.evidence[i].(retrieved := false)
  }

  lemma AdmitHash(input: Proposal, request: Request)
    ensures HashOf(input, request, OperationHash(input, request))
  {
  }

  // ---------------------------------------------------------------- proposals

  /** The revision recorded with a request hash under the operation id the caller brings. */
  ghost predicate Earlier(s: Store, input: Proposal, id: nat) {
    IsExternal(input) && id in s.revisions && CarriesOperation(s.revisions[id], input.key.brain, input.context.value.request.operationId)
  }

  /** A caller's operation id that is on record answers for the request: with what it did then if it is the same in
      every part, and with a refusal otherwise. The store stays as it is. */
  lemma ReplaysExactly(s: Store, env: Env, input: Proposal, id: nat)
    requires Sound(s) && Earlier(s, input, id)
    ensures var earlier := s.revisions[id];
            Propose(s, env, input) ==
            (s, if HashOf(input, input.context.value.request, earlier.context.value.requestHash.value)
                then Unchanged(earlier) else Threw(OperationIdentityConflict))
  {
    FindsTheOnly(s, input.key.brain, input.context.value.request.operationId, id);
    AdmitHash(input, input.context.value.request);
    HashDetermined(input, input.context.value.request, s.revisions[id].context.value.requestHash.value);
    hide Sound, Admit, FindOperation, OperationHash, HashOf;
  }

  lemma HashDetermined(input: Proposal, request: Request, hash: Fingerprint)
    ensures HashOf(input, request, hash) ==> hash == OperationHash(input, request)
  {
    if HashOf(input, request, hash) {
      assert hash.request.evidence == OperationHash(input, request).request.evidence;
    }
  }

  /** The base is the head, or there is none and the head is a tombstone. */
  predicate OnBase(s: Store, input: Proposal) {
    if input.key in s.heads then input.base == Some(s.heads[input.key].id) || (s.heads[input.key].deleted && input.base.None?)
    else input.base.None?
  }

  predicate HoldsAlready(s: Store, input: Proposal) {
    input.key in s.heads && !s.heads[input.key].deleted && s.heads[input.key].content == input.content
  }

  /** The revision a proposal makes. */
  ghost predicate MadeFrom(s: Store, input: Proposal, context: Option<Context>, r: Revision) {
    r == Revision(input.key, s.revisionSeq + 1, if input.key in s.heads then Some(s.heads[input.key].id) else None, Live(input.content),
                  input.origin, input.actor, s.cursorSeq + 1, input.content, false, None, None, context)
  }

  /** What a store is after one new revision of one file. */
  ghost predicate Grown(s: Store, t: Store, r: Revision) {
    && t.heads == s.heads[r.key := r] && t.revisions == s.revisions[r.id := r]
    && t.changes == s.changes + [Change(r.cursor, r.key, r.id, r.hash, r.origin, r.actor)]
    && t.conflicts == s.conflicts && t.revisionSeq == s.revisionSeq + 1 && t.cursorSeq == s.cursorSeq + 1
  }

  /** LOG.md with the receipt of a change to `filename`. */
  function Logged(s: Store, env: Env, brain: string, filename: string): string {
    var log := Key(brain, "LOG.md");
    Log.AppendLogEntry(if log in s.heads && s.heads[log].content != "" then s.heads[log].content else Log.LOG_HEADER,
                       Log.FormatLogEntry("UPDATE", [filename], env.summary, env.date))
  }

  /** What becomes of a proposal that is no replay, in the order of the checks: refused, already there, in conflict, or
      accepted on its base, with the receipt a policy wants. */
  ghost predicate Answered(s: Store, env: Env, input: Proposal, t: Store, outcome: Outcome) {
    var log := Key(input.key.brain, "LOG.md");
    var text := Logged(s, env, input.key.brain, input.key.filename);
    match Admit(s, env, input, LiveText(s, input.key))
    case Refused(error) => t == s && outcome == Threw(error)
    case Plain =>
      if HoldsAlready(s, input) then t == s && outcome == Unchanged(s.heads[input.key])
      else if !OnBase(s, input) then InConflict(s, input, t, outcome)
      else outcome.Accepted? && MadeFrom(s, input, input.context, outcome.revision) && Grown(s, t, outcome.revision)
    case UnderPolicy(context) =>
      if HoldsAlready(s, input) then t == s && outcome == Unchanged(s.heads[input.key])
      else if !OnBase(s, input) then InConflict(s, input, t, outcome)
      else if NewIntake(env, "LOG.md", LiveText(s, log), text) then t == s && outcome == Threw(GeneralIntakeRetired)
      else
        && outcome.Accepted? && MadeFrom(s, input, Some(context), outcome.revision)
        && log in t.heads && t.heads == s.heads[input.key := outcome.revision][log := t.heads[log]]
        && t.heads[log] == Revision(log, s.revisionSeq + 2, if log in s.heads then Some(s.heads[log].id) else None, Live(text), System,
                                    input.actor, s.cursorSeq + 2, text, false, None, None, Some(Internal("automatic change index")))
  }

  /** The hosted files stay, and the difference from the present head is on record. */
  ghost predicate InConflict(s: Store, input: Proposal, t: Store, outcome: Outcome) {
    && outcome.Conflicted? && outcome.current == Head(s, input.key) && t.heads == s.heads && outcome.conflict in t.conflicts
    && outcome.conflict.resolution.None?
    && outcome.conflict.input == ConflictAt(s, input.key, input.base, Live(input.content), input.origin, input.actor)
  }

  lemma AnswersExactly(s: Store, env: Env, input: Proposal)
    requires Sound(s) && forall id :: id in s.revisions ==> !Earlier(s, input, id)
    ensures Answered(s, env, input, Propose(s, env, input).0, Propose(s, env, input).1)
  {
    hide Sound, Admit, Propose, ApplyFile, Receipt, NewIntake, MadeFrom, Grown, HoldsAlready, OnBase, InConflict, Logged, Earlier, LiveText;
    ApplyAnswers(s, env, input);
    var (t, outcome, due) := ApplyFile(s, env, input);
    ProposeParts(s, env, input);
    if due { ReceiptAnswers(s, t, env, input, outcome.revision); }
  }

  lemma ProposeParts(s: Store, env: Env, input: Proposal)
    ensures var (t, outcome, due) := ApplyFile(s, env, input);
            var (u, receipt, _) := ApplyFile(t, env, Receipt(t, env, input));
            Propose(s, env, input) == if !due then (t, outcome) else if receipt.Threw? then (s, receipt) else (u, outcome)
  {
    hide ApplyFile, Receipt;
  }

  lemma ReplaysEarlier(s: Store, input: Proposal)
    requires Sound(s) && Replays(s, input)
    ensures exists id :: id in s.revisions && Earlier(s, input, id)
  {
    hide Sound;
    var operationId := input.context.value.request.operationId;
    FindOperationRecorded(s, input.key.brain, operationId, 1);
    assert Earlier(s, input, FindOperation(s, input.key.brain, operationId, 1).value.id);
  }

  /** The same up to the receipt. */
  lemma ApplyAnswers(s: Store, env: Env, input: Proposal)
    requires Sound(s) && forall id :: id in s.revisions ==> !Earlier(s, input, id)
    ensures var (t, outcome, due) := ApplyFile(s, env, input);
            var admission := Admit(s, env, input, LiveText(s, input.key));
            if admission.Refused? then t == s && outcome == Threw(admission.error) && !due
            else if HoldsAlready(s, input) then t == s && outcome == Unchanged(s.heads[input.key]) && !due
            else if !OnBase(s, input) then !due && InConflict(s, input, t, outcome)
            else
              && outcome.Accepted? && Grown(s, t, outcome.revision) && outcome.revision.key == input.key && due == admission.UnderPolicy?
              && MadeFrom(s, input, if due then Some(admission.context) else input.context, outcome.revision)
  {
    hide Sound, Admit, FindOperation, OperationHash, RecordConflict, LiveText;
    if Replays(s, input) { ReplaysEarlier(s, input); }
    if input.key in s.heads { HeadRevision(s, input.key); }
    RecordConflictSound(s, Against(input.key, input.base, Live(input.content), input.origin, input.actor, Head(s, input.key)));
    hide Extends, Earlier;
  }

  lemma ReceiptAnswers(s: Store, t: Store, env: Env, input: Proposal, r: Revision)
    requires Sound(s) && ApplyFile(s, env, input) == (t, Accepted(r), true) && Grown(s, t, r) && r.key == input.key
    ensures env.deployment.Configured?
    ensures var (u, receipt, _) := ApplyFile(t, env, Receipt(t, env, input));
            var log := Key(input.key.brain, "LOG.md");
            var text := Logged(s, env, input.key.brain, input.key.filename);
            if NewIntake(env, "LOG.md", LiveText(s, log), text) then receipt == Threw(GeneralIntakeRetired)
            else
              && receipt.Accepted? && log in u.heads && u.heads == s.heads[input.key := r][log := u.heads[log]]
              && u.heads[log] == Revision(log, s.revisionSeq + 2, if log in s.heads then Some(s.heads[log].id) else None, Live(text), System,
                                          input.actor, s.cursorSeq + 2, text, false, None, None, Some(Internal("automatic change index")))
  {
    hide Sound, Admit, ApplyFile, NewIntake, Log.AppendLogEntry, Log.FormatLogEntry, Log.LOG_HEADER, OperationHash;
    var log := Key(input.key.brain, "LOG.md");
    AdmittedRevision(s, env, input);
    ApplyFileSound(s, env, input);
    ConfiguredWhenDue(s, env, input);
    var made := Receipt(t, env, input);
    assert Head(t, log) == Head(s, log) && made.key == log && made.content == Logged(s, env, input.key.brain, input.key.filename);
    assert forall id :: id in t.revisions ==> !Earlier(t, made, id);
    ApplyAnswers(t, env, made);
    ReceiptChangesLog(t, env, input);
    AdmitsExactly(t, env, made, LiveText(t, log));
    if log in t.heads { HeadRevisionLive(t, log); }
  }

  lemma ConfiguredWhenDue(s: Store, env: Env, input: Proposal)
    requires ApplyFile(s, env, input).2
    ensures env.deployment.Configured?
  {
    hide FindOperation, OperationHash, CheckAllEvidence, IsLogPath, QueueRefuses;
  }

  /** A conflict at the present head. */
  function ConflictAt(s: Store, key: Key, base: Option<nat>, local: Hash, origin: Origin, actor: Option<Actor>): ConflictInput {
    if key in s.heads then
      var head := s.heads[key];
      ConflictInput(key, base, Some(head.id), Some(local), Some(head.hash), origin, Some(head.origin), actor, head.actor)
    else ConflictInput(key, base, None, Some(local), None, origin, None, actor, None)
  }

  // ---------------------------------------------------------------- conflicts

  /** A difference is recorded exactly once while it is open: it gets the next id unless the very same one is open. */
  lemma RecordsExactly(s: Store, input: ConflictInput)
    ensures var (t, conflict) := RecordConflict(s, input);
            && conflict.input == input && conflict.resolution.None? && conflict in t.conflicts
            && if exists c :: c in s.conflicts && c.resolution.None? && c.input == input then t == s
               else t == s.(conflicts := s.conflicts + [Conflict(s.conflictSeq + 1, input, None)], conflictSeq := s.conflictSeq + 1)
  {
    FindOpenSpec(s.conflicts, input);
    hide FindOpen;
    if c :| c in s.conflicts && c.resolution.None? && c.input == input {
      var i :| 0 <= i < |s.conflicts| && s.conflicts[i] == c;
      assert FindOpen(s.conflicts, input).Some?;
    }
  }

  lemma {:induction false} FoundConflict(conflicts: seq<Conflict>, brain: string, id: nat, i: nat)
    requires i < |conflicts| && conflicts[i].id == id && conflicts[i].input.key.brain == brain
    requires forall j :: 0 <= j < i ==> conflicts[j].id != id
    ensures FindConflict(conflicts, brain, id) == Some(i)
  {
    if i > 0 {
      assert conflicts[1..][i - 1] == conflicts[i];
      assert forall j :: 0 <= j < i - 1 ==> conflicts[1..][j] == conflicts[j + 1];
      assert conflicts[0].id != id;
      FoundConflict(conflicts[1..], brain, id, i - 1);
    }
  }

  /** A resolution takes effect exactly when the conflict is open in the caller's Brain, the caller reviewed the present
      head, and the policy admits the text as an internal change; then the file holds it and that conflict, and no
      other, names the head that does. It is refused for the first of these reasons that fails. */
  lemma ResolvesExactly(s: Store, env: Env, brain: string, id: nat, expected: Option<nat>, content: string, actor: Option<Actor>)
    requires Sound(s)
    ensures var (t, outcome) := Resolve(s, env, brain, id, expected, content, actor);
            if !(1 <= id <= |s.conflicts| && s.conflicts[id - 1].input.key.brain == brain) then t == s && outcome == Threw(NotFound)
            else
              var key := s.conflicts[id - 1].input.key;
              if s.conflicts[id - 1].resolution.Some? then t == s && outcome == Threw(NotOpen)
              else if key !in s.heads || expected != Some(s.heads[key].id) then t == s && outcome == Threw(StaleReview)
              else if env.deployment.Unavailable? then t == s && outcome == Threw(PolicyUnavailable)
              else if NewIntake(env, key.filename, LiveText(s, key), content) then t == s && outcome == Threw(GeneralIntakeRetired)
              else
                && key in t.heads && !t.heads[key].deleted && t.heads[key].content == content && outcome == (
                     if HoldsAlready(s, ResolutionOf(key, expected, content, actor)) then Unchanged(t.heads[key]) else Accepted(t.heads[key]))
                && t.heads == s.heads[key := t.heads[key]]
                && t.conflicts == s.conflicts[id - 1 := s.conflicts[id - 1].(resolution := Some(t.heads[key].id))]
  {
    hide Sound, Propose, NewIntake, MadeFrom, Grown, FindConflict, Admit, ResolutionOf;
    ConflictIds(s);
    if 1 <= id <= |s.conflicts| && s.conflicts[id - 1].input.key.brain == brain {
      FoundConflict(s.conflicts, brain, id, id - 1);
      var key := s.conflicts[id - 1].input.key;
      if s.conflicts[id - 1].resolution.None? && key in s.heads && expected == Some(s.heads[key].id) {
        ResolutionLands(s, env, key, content, actor);
        ResolutionParts(s, env, brain, id, expected, content, actor);
      }
    } else {
      FindConflictUnique(s.conflicts, brain, id);
    }
  }

  function ResolutionOf(key: Key, base: Option<nat>, content: string, actor: Option<Actor>): Proposal {
    Proposal(key, base, content, HostedMcp, actor, Some(Internal("explicit reviewed conflict resolution")))
  }

  lemma ConflictIds(s: Store)
    requires Sound(s)
    ensures forall i :: 0 <= i < |s.conflicts| ==> s.conflicts[i].id == i + 1
  {
  }

  lemma ResolutionParts(s: Store, env: Env, brain: string, id: nat, expected: Option<nat>, content: string, actor: Option<Actor>)
    requires FindConflict(s.conflicts, brain, id) == Some(id - 1) && 1 <= id <= |s.conflicts| && s.conflicts[id - 1].resolution.None?
    requires expected.Some? && expected == HeadId(s, s.conflicts[id - 1].input.key)
    ensures var (t, outcome) := Propose(s, env, ResolutionOf(s.conflicts[id - 1].input.key, expected, content, actor));
            Resolve(s, env, brain, id, expected, content, actor) ==
            if outcome.Threw? then (s, outcome) else if outcome.Conflicted? then (t, Threw(CouldNotResolve))
            else if id <= |t.conflicts| then
              (t.(conflicts := t.conflicts[id - 1 := t.conflicts[id - 1].(resolution := Some(outcome.revision.id))]), outcome)
            else (t, outcome)
  {
    hide Propose, FindConflict;
  }

  /** A resolution on the head is admitted as an internal change. */
  lemma ResolutionLands(s: Store, env: Env, key: Key, content: string, actor: Option<Actor>)
    requires Sound(s) && key in s.heads
    ensures var input := ResolutionOf(key, Some(s.heads[key].id), content, actor);
            var (t, outcome) := Propose(s, env, input);
            if env.deployment.Unavailable? then t == s && outcome == Threw(PolicyUnavailable)
            else if NewIntake(env, key.filename, LiveText(s, key), content) then t == s && outcome == Threw(GeneralIntakeRetired)
            else
              && key in t.heads && !t.heads[key].deleted && t.heads[key].content == content
              && t.heads == s.heads[key := t.heads[key]] && t.conflicts == s.conflicts
              && outcome == (if HoldsAlready(s, input) then Unchanged(t.heads[key]) else Accepted(t.heads[key]))
  {
    hide Sound, Admit, Propose, NewIntake, LiveText;
    var input := ResolutionOf(key, Some(s.heads[key].id), content, actor);
    assert forall i :: i in s.revisions ==> !Earlier(s, input, i);
    AnswersExactly(s, env, input);
    AdmitsExactly(s, env, input, LiveText(s, key));
    hide Earlier;
  }

  // ---------------------------------------------------------------- read-back verification

  /** The outcome of a read-back is recorded on the one revision, when it has a context to record it in. */
  lemma VerifiesExactly(s: Store, brain: string, id: nat, state: Verification)
    ensures var (t, error) := SetVerification(s, brain, id, state);
            if id in s.revisions && s.revisions[id].key.brain == brain && s.revisions[id].context.Some? then
              && error.None? && t == s.(revisions := s.revisions[id := t.revisions[id]])
              && t.revisions[id].(context := None) == s.revisions[id].(context := None) && t.revisions[id].context.Some?
              && (s.revisions[id].context.value.External? ==>
                    t.revisions[id].context.value == s.revisions[id].context.value.(verification := Some(state)))
              && (s.revisions[id].context.value.Internal? ==> t == s)
            else t == s && error == Some(NotFound)
  {
    if id in s.revisions && s.revisions[id].context.Some? && s.revisions[id].context.value.Internal? {
      assert s.revisions[id := s.revisions[id]] == s.revisions;
    }
  }

  // ---------------------------------------------------------------- renames

  /** A rename is refused, or in conflict over the name that is in its way, in the order of its checks. */
  lemma RenamesExactly(s: Store, env: Env, brain: string, from: string, to: string, base: Option<nat>, origin: Origin, actor: Option<Actor>)
    requires Sound(s)
    ensures var (t, outcome) := Rename(s, env, brain, from, to, base, origin, actor);
            var a, b := Key(brain, from), Key(brain, to);
            if a !in s.heads || s.heads[a].deleted || base != Some(s.heads[a].id) then
              && outcome.Conflicted? && t.heads == s.heads && outcome.current == Head(s, a) && outcome.conflict in t.conflicts
              && outcome.conflict.input == ConflictAt(s, a, base, Tombstone, origin, actor)
            else if b in s.heads && !s.heads[b].deleted then
              && outcome.Conflicted? && t.heads == s.heads && outcome.current == Head(s, b) && outcome.conflict in t.conflicts
              && outcome.conflict.input == ConflictAt(s, b, None, Live(s.heads[a].content), origin, actor)
            else if env.deployment.Unavailable? then t == s && outcome == Threw(PolicyUnavailable)
            else if NewIntake(env, to, "", s.heads[a].content) then t == s && outcome == Threw(GeneralIntakeRetired)
            else
              && outcome == Accepted(t.heads[b]) && t.heads == s.heads[b := t.heads[b]][a := t.heads[a]]
              && !t.heads[b].deleted && t.heads[b].content == s.heads[a].content && t.heads[b].parent == HeadId(s, b)
              && t.heads[a].deleted && t.heads[a].parent == base
              && t.heads[b].renamedFrom == Some(from) && t.heads[a].renamedTo == Some(to)
              && t.heads[b].origin == t.heads[a].origin == origin && t.heads[b].actor == t.heads[a].actor == actor
  {
    hide Sound, RecordConflict, NewIntake, Extends;
    var a, b := Key(brain, from), Key(brain, to);
    if a in s.heads {
      HeadRevisionLive(s, a);
      QueueExactly(env, to, "", s.heads[a].content);
      RecordConflictSound(s, Against(b, None, s.heads[a].hash, origin, actor, Head(s, b)));
    }
    if b in s.heads { HeadRevisionLive(s, b); }
    RecordConflictSound(s, Against(a, base, Tombstone, origin, actor, Head(s, a)));
    hide QueueRefuses;
  }

  lemma QueueExactly(env: Env, filename: string, before: string, after: string)
    ensures env.deployment.Configured? ==>
              (QueueRefuses(env.rules, env.deployment.policy, filename, before, after) <==> NewIntake(env, filename, before, after))
  {
    NewBlocks(multiset(env.rules.blocks(before)), env.rules.blocks(after));
    hide SomeNewBlock;
  }
}
