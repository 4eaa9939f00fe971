/** The mutable stores of `src/sync/memory-revision-store.ts` and `src/sync/file-revision-store.ts`,
    proved against `RevisionModel`. */
module RevisionStore {
  import opened Wrappers
  import opened RevisionModel
  import opened RevisionHistory

  /** `applyRevision` with its receipt, before `proposeRevision` decides about rolling back. */
  function ApplyWithReceipt(s: Store, env: Env, input: Proposal): (Store, Outcome) {
    var (t, outcome, receiptDue) := ApplyFile(s, env, input);
    if !receiptDue then (t, outcome)
    else
      var (u, receipt, _) := ApplyFile(t, env, Receipt(t, env, input));
      (u, if receipt.Threw? then receipt else outcome)
  }

  lemma ReceiptNeedsNoReceipt(s: Store, env: Env, input: Proposal)
    ensures ApplyWithReceipt(s, env, Receipt(s, env, input)).0 == ApplyFile(s, env, Receipt(s, env, input)).0
    ensures ApplyWithReceipt(s, env, Receipt(s, env, input)).1 == ApplyFile(s, env, Receipt(s, env, input)).1
  {
    assert Receipt(s, env, input).context.value.Internal?;
    hide Receipt;
  }

  lemma {:induction false} CheckAllSnoc(s: Store, brain: string, evidence: seq<Evidence>, e: Evidence)
    ensures CheckAllEvidence(s, brain, evidence + [e]) ==
            if CheckAllEvidence(s, brain, evidence).Some? then CheckAllEvidence(s, brain, evidence) else CheckEvidence(s, brain, e)
  {
    hide CheckEvidence;
    if evidence == [] {
      assert (evidence + [e])[1..] == [];
    } else {
      assert (evidence + [e])[1..] == evidence[1..] + [e];
      CheckAllSnoc(s, brain, evidence[1..], e);
    }
  }

  lemma {:induction false} CheckAllPrefix(s: Store, brain: string, evidence: seq<Evidence>, n: nat)
    requires n <= |evidence| && CheckAllEvidence(s, brain, evidence[..n]).Some?
    ensures CheckAllEvidence(s, brain, evidence) == CheckAllEvidence(s, brain, evidence[..n])
  {
    hide CheckEvidence;
    if evidence != [] {
      assert n > 0;
      assert evidence[..n][1..] == evidence[1..][..n - 1];
      if CheckEvidence(s, brain, evidence[0]).None? {
        CheckAllPrefix(s, brain, evidence[1..], n - 1);
      }
    }
  }

  class MemoryRevisionStore {
    var heads: map<Key, Revision>
    var revisions: map<nat, Revision>
    var changes: seq<Change>
    var conflicts: seq<Conflict>
    var revisionSeq: nat
    var cursorSeq: nat
    var conflictSeq: nat

    function Snapshot(): Store
      reads this
    {
      Store(heads, revisions, changes, conflicts, revisionSeq, cursorSeq, conflictSeq)
    }

    constructor (snapshot: Store)
      ensures Snapshot() == snapshot
    {
      heads, revisions, changes, conflicts := snapshot.heads, snapshot.revisions, snapshot.changes, snapshot.conflicts;
      revisionSeq, cursorSeq, conflictSeq := snapshot.revisionSeq, snapshot.cursorSeq, snapshot.conflictSeq;
    }

    method FindWriteOperation(brain: string, operationId: string) returns (found: Option<Revision>)
      ensures found == FindOperation(Snapshot(), brain, operationId, 1)
    {
      var id := 1;
      while id <= revisionSeq
        invariant 1 <= id <= revisionSeq + 1
        invariant FindOperation(Snapshot(), brain, operationId, 1) == FindOperation(Snapshot(), brain, operationId, id)
      {
        if id in revisions && CarriesOperation(revisions[id], brain, operationId) {
          return Some(revisions[id]);
        }
        id := id + 1;
      }
      return None;
    }

    /** `admitRevision`, stamping the evidence as it checks it. */
    method AdmitRevision(env: Env, input: Proposal, before: string) returns (admission: Admission)
      ensures admission == Admit(Snapshot(), env, input, before)
    {
      hide CheckEvidence, IsLogPath, QueueRefuses;
      if env.deployment.Unavailable? { return Refused(PolicyUnavailable); }
      var policy := env.deployment.policy;
      if QueueRefuses(env.rules, policy, input.key.filename, before, input.content) { return Refused(GeneralIntakeRetired); }
      if policy.None? || policy.value.mode.Observe? || before == input.content { return Plain; }
      if input.context.Some? && input.context.value.Internal? { return Plain; }
      if IsLogPath(input.key.filename) || input.context.None? { return Refused(KnowledgeRefused); }
      var request := input.context.value.request;
      if !env.rules.wellFormed(policy.value, input.key.filename, before, input.content, request) { return Refused(KnowledgeRefused); }
      if request.target.Some? && !IsLive(Snapshot(), Key(input.key.brain, request.target.value)) { return Refused(BrainScopeRequired); }
      var stamped: seq<Evidence> := [];
      for i := 0 to |request.evidence|
        invariant CheckAllEvidence(Snapshot(), input.key.brain, request.evidence[..i]).None?
        invariant stamped == StampEvidence(request.evidence[..i])
      {
        var e := request.evidence[i];
        assert request.evidence[..i + 1] == request.evidence[..i] + [e];
        CheckAllSnoc(Snapshot(), input.key.brain, request.evidence[..i], e);
        var bad := CheckEvidence(Snapshot(), input.key.brain, e);
        if bad.Some? {
          CheckAllPrefix(Snapshot(), input.key.brain, request.evidence, i + 1);
          return Refused(bad.value);
        }
        stamped := stamped + [e.(retrieved := e.hosted)];
      }
      assert request.evidence[..|request.evidence|] == request.evidence;
      return UnderPolicy(External(request.(evidence := stamped), Some(OperationHash(input, request)), Some(Verification.Applied)));
    }

    /** Install a revision as its file's head, under the next id and cursor. */
    method Install(r: Revision)
      requires r.id == revisionSeq + 1 && r.cursor == cursorSeq + 1
      modifies this
      ensures Snapshot() == Commit(old(Snapshot()), r)
    {
      revisionSeq := revisionSeq + 1;
      cursorSeq := cursorSeq + 1;
      revisions := revisions[r.id := r];
      heads := heads[r.key := r];
      changes := changes + [Change(r.cursor, r.key, r.id, r.hash, r.origin, r.actor)];
    }

    /** `recordConflict` */
    method RecordConflict(input: ConflictInput) returns (conflict: Conflict)
      modifies this
      ensures (Snapshot(), conflict) == RevisionModel.RecordConflict(old(Snapshot()), input)
    {
      var i := 0;
      while i < |conflicts|
        invariant 0 <= i <= |conflicts|
        invariant FindOpen(conflicts, input) == FindOpen(conflicts[i..], input)
      {
        if conflicts[i].resolution.None? && conflicts[i].input == input {
          return conflicts[i];
        }
        i := i + 1;
      }
      conflictSeq := conflictSeq + 1;
      conflict := Conflict(conflictSeq, input, None);
      conflicts := conflicts + [conflict];
    }

    /** `applyRevision` */
    method ApplyRevision(env: Env, input: Proposal) returns (outcome: Outcome)
      modifies this
      ensures (Snapshot(), outcome) == ApplyWithReceipt(old(Snapshot()), env, input)
      decreases if input.context.Some? && input.context.value.Internal? then 0 else 1
    {
      hide Admit, FindOperation, OperationHash, Receipt;
      if input.context.Some? && input.context.value.External? {
        var replay := FindWriteOperation(input.key.brain, input.context.value.request.operationId);
        if replay.Some? {
          if replay.value.context.Some? && replay.value.context.value.External?
             && replay.value.context.value.requestHash == Some(OperationHash(input, input.context.value.request)) {
            return Unchanged(replay.value);
          }
          return Threw(OperationIdentityConflict);
        }
      }
      var current := Head(Snapshot(), input.key);
      var admission := AdmitRevision(env, input, LiveText(Snapshot(), input.key));
      if admission.Refused? { return Threw(admission.error); }
      var recreatingOverTombstone := current.Some? && current.value.deleted && input.base.None?;
      if current.Some? && !current.value.deleted && current.value.hash == Live(input.content) {
        return Unchanged(current.value);
      }
      if !recreatingOverTombstone && input.base != HeadId(Snapshot(), input.key) {
        var conflict := RecordConflict(Against(input.key, input.base, Live(input.content), input.origin, input.actor, current));
        return Conflicted(conflict, current);
      }
      var revision := NextRevision(
        Snapshot(), input.key, input.content, false, input.origin, input.actor, None, None,
        if admission.UnderPolicy? then Some(admission.context) else input.context);
      Install(revision);
      if admission.UnderPolicy? {
        assert ApplyFile(old(Snapshot()), env, input).2;
        ReceiptNeedsNoReceipt(Snapshot(), env, input);
        var receipt := ReceiptProposal(env, input);
        var nested := ApplyRevision(env, receipt);
        if nested.Threw? { return nested; }
      }
      return Accepted(revision);
    }

    function ReceiptProposal(env: Env, input: Proposal): (receipt: Proposal)
      reads this
      ensures receipt == Receipt(Snapshot(), env, input)
      ensures receipt.context.Some? && receipt.context.value.Internal?
    {
      Receipt(Snapshot(), env, input)
    }

    /** `proposeRevision`: run, and on an exception put every field back. */
    method ProposeRevision(env: Env, input: Proposal) returns (outcome: Outcome)
      modifies this
      ensures (Snapshot(), outcome) == Propose(old(Snapshot()), env, input)
    {
      hide ApplyFile, Receipt;
      var snapshot := Snapshot();
      outcome := ApplyRevision(env, input);
      if outcome.Threw? {
        heads, revisions, changes, conflicts := snapshot.heads, snapshot.revisions, snapshot.changes, snapshot.conflicts;
        revisionSeq, cursorSeq, conflictSeq := snapshot.revisionSeq, snapshot.cursorSeq, snapshot.conflictSeq;
      }
    }

    /** `proposeDeletion` */
    method ProposeDeletion(key: Key, base: Option<nat>, origin: Origin, actor: Option<Actor>) returns (outcome: Outcome)
      modifies this
      ensures (Snapshot(), outcome) == Delete(old(Snapshot()), key, base, origin, actor)
    {
      var current := Head(Snapshot(), key);
      if current.Some? && current.value.deleted { return Unchanged(current.value); }
      if current.None? || base != Some(current.value.id) {
        var conflict := RecordConflict(Against(key, base, Tombstone, origin, actor, current));
        return Conflicted(conflict, current);
      }
      var revision := NextRevision(Snapshot(), key, "", true, origin, actor, None, None, None);
      Install(revision);
      return Accepted(revision);
    }

    /** `proposeRename` */
    method ProposeRename(
      env: Env, brain: string, from: string, to: string, base: Option<nat>, origin: Origin, actor: Option<Actor>)
      returns (outcome: Outcome)
      modifies this
      ensures (Snapshot(), outcome) == Rename(old(Snapshot()), env, brain, from, to, base, origin, actor)
    {
      hide QueueRefuses;
      var fromHead, toHead := Head(Snapshot(), Key(brain, from)), Head(Snapshot(), Key(brain, to));
      if fromHead.None? || fromHead.value.deleted || base != Some(fromHead.value.id) {
        var conflict := RecordConflict(Against(Key(brain, from), base, Tombstone, origin, actor, fromHead));
        return Conflicted(conflict, fromHead);
      }
      if toHead.Some? && !toHead.value.deleted {
        var conflict := RecordConflict(Against(Key(brain, to), None, fromHead.value.hash, origin, actor, toHead));
        return Conflicted(conflict, toHead);
      }
      if env.deployment.Unavailable? { return Threw(PolicyUnavailable); }
      if QueueRefuses(env.rules, env.deployment.policy, to, if toHead.Some? then toHead.value.content else "", fromHead.value.content) {
        return Threw(GeneralIntakeRetired);
      }
      var toRevision := NextRevision(Snapshot(), Key(brain, to), fromHead.value.content, false, origin, actor, Some(from), None, None);
      Install(toRevision);
      var fromTombstone := NextRevision(Snapshot(), Key(brain, from), "", true, origin, actor, None, Some(to), None);
      Install(fromTombstone);
      return Accepted(toRevision);
    }

    /** `resolveConflict` */
    method ResolveConflict(env: Env, brain: string, id: nat, expected: Option<nat>, content: string, actor: Option<Actor>)
      returns (outcome: Outcome)
      modifies this
      ensures (Snapshot(), outcome) == Resolve(old(Snapshot()), env, brain, id, expected, content, actor)
    {
      hide Propose;
      var found := FindConflict(conflicts, brain, id);
      if found.None? { return Threw(NotFound); }
      var i := found.value;
      var key := conflicts[i].input.key;
      if conflicts[i].resolution.Some? { return Threw(NotOpen); }
      if expected.None? || expected != HeadId(Snapshot(), key) { return Threw(StaleReview); }
      ghost var before := Snapshot();
      var input := Proposal(key, HeadId(Snapshot(), key), content, HostedMcp, actor, Some(Internal("explicit reviewed conflict resolution")));
      ProposeThrowsUnchanged(before, env, input);
      outcome := ProposeRevision(env, input);
      if outcome.Threw? { return; }
      if outcome.Conflicted? { return Threw(CouldNotResolve); }
      if i < |conflicts| {
        conflicts := conflicts[i := conflicts[i].(resolution := Some(outcome.revision.id))];
      }
    }

    /** `setWriteVerification` */
    method SetWriteVerification(brain: string, id: nat, state: Verification) returns (error: Option<Error>)
      modifies this
      ensures (Snapshot(), error) == SetVerification(old(Snapshot()), brain, id, state)
    {
      if !(id in revisions && revisions[id].key.brain == brain && revisions[id].context.Some?) { return Some(NotFound); }
      var r := revisions[id];
      if r.context.value.External? {
        revisions := revisions[id := r.(context := Some(r.context.value.(verification := Some(state))))];
      } else {
        revisions := revisions[id := r];
      }
      return None;
    }
  }

  lemma ProposeThrowsUnchanged(s: Store, env: Env, input: Proposal)
    ensures Propose(s, env, input).1.Threw? ==> Propose(s, env, input).0 == s
  {
    hide Receipt, Admit, FindOperation;
  }

  lemma ResolveThrowsUnchanged(
    s: Store, env: Env, brain: string, id: nat, expected: Option<nat>, content: string, actor: Option<Actor>)
    ensures Resolve(s, env, brain, id, expected, content, actor).1.Threw? ==> Resolve(s, env, brain, id, expected, content, actor).0 == s
  {
    hide Propose, FindConflict;
    var found := FindConflict(s.conflicts, brain, id);
    if found.Some? {
      var key := s.conflicts[found.value].input.key;
      OnHeadNeverConflicts(s, env, Proposal(key, HeadId(s, key), content, HostedMcp, actor,
                                            Some(Internal("explicit reviewed conflict resolution"))));
    }
  }

  /** The file-backed store: every operation loads, runs, and saves only when nothing was thrown. */
  class FileRevisionStore {
    /** The snapshot on disk; the empty store while there is no file. */
    var file: Store

    constructor ()
      ensures file == EMPTY
    {
      file := EMPTY;
    }

    method ProposeRevision(env: Env, input: Proposal) returns (outcome: Outcome)
      modifies this
      ensures (file, outcome) == Propose(old(file), env, input)
    {
      hide Propose;
      var store := new MemoryRevisionStore(file);
      ProposeThrowsUnchanged(file, env, input);
      outcome := store.ProposeRevision(env, input);
      if !outcome.Threw? { file := store.Snapshot(); }
    }

    method ProposeDeletion(key: Key, base: Option<nat>, origin: Origin, actor: Option<Actor>) returns (outcome: Outcome)
      modifies this
      ensures (file, outcome) == Delete(old(file), key, base, origin, actor)
    {
      var store := new MemoryRevisionStore(file);
      outcome := store.ProposeDeletion(key, base, origin, actor);
      file := store.Snapshot();
    }

    method ProposeRename(
      env: Env, brain: string, from: string, to: string, base: Option<nat>, origin: Origin, actor: Option<Actor>)
      returns (outcome: Outcome)
      modifies this
      ensures (file, outcome) == Rename(old(file), env, brain, from, to, base, origin, actor)
    {
      var store := new MemoryRevisionStore(file);
      outcome := store.ProposeRename(env, brain, from, to, base, origin, actor);
      if !outcome.Threw? { file := store.Snapshot(); }
    }

    method RecordConflict(input: ConflictInput) returns (conflict: Conflict)
      modifies this
      ensures (file, conflict) == RevisionModel.RecordConflict(old(file), input)
    {
      var store := new MemoryRevisionStore(file);
      conflict := store.RecordConflict(input);
      file := store.Snapshot();
    }

    method ResolveConflict(env: Env, brain: string, id: nat, expected: Option<nat>, content: string, actor: Option<Actor>)
      returns (outcome: Outcome)
      modifies this
      ensures (file, outcome) == Resolve(old(file), env, brain, id, expected, content, actor)
    {
      hide Resolve;
      var store := new MemoryRevisionStore(file);
      ResolveThrowsUnchanged(file, env, brain, id, expected, content, actor);
      outcome := store.ResolveConflict(env, brain, id, expected, content, actor);
      if !outcome.Threw? { file := store.Snapshot(); }
    }

    method SetWriteVerification(brain: string, id: nat, state: Verification) returns (error: Option<Error>)
      modifies this
      ensures (file, error) == SetVerification(old(file), brain, id, state)
    {
      var store := new MemoryRevisionStore(file);
      error := store.SetWriteVerification(brain, id, state);
      if error.None? { file := store.Snapshot(); }
    }

    /** One call of some caller. */
    method Perform(op: Operation)
      modifies this
      ensures file == Step(old(file), op)
    {
      hide Propose, Delete, Rename, Resolve, SetVerification, RevisionModel.RecordConflict;
      match op {
        case DoPropose(env, input) => var _ := ProposeRevision(env, input);
        case DoDelete(key, base, origin, actor) => var _ := ProposeDeletion(key, base, origin, actor);
        case DoRename(env, brain, from, to, base, origin, actor) => var _ := ProposeRename(env, brain, from, to, base, origin, actor);
        case DoRecord(conflict) => var _ := RecordConflict(conflict);
        case DoResolve(env, brain, id, expected, content, actor) => var _ := ResolveConflict(env, brain, id, expected, content, actor);
        case DoVerify(brain, id, state) => var _ := SetWriteVerification(brain, id, state);
      }
    }

    /** The calls of other callers that the queue admits while one caller waits for its next turn. */
    method Await(others: seq<Operation>)
      modifies this
      ensures file == Run(old(file), others)
    {
      hide Step;
      for i := 0 to |others|
        invariant Run(file, others[i..]) == Run(old(file), others)
      {
        assert others[i..][1..] == others[i + 1..];
        Perform(others[i]);
      }
      assert others[|others|..] == [];
    }
  }
}
