/** Request hashes are genuine in every store whose callers do not bring their own, so a replay can only
    answer the very write that was made before. */
module RevisionStamps {
  import opened Wrappers
  import opened RevisionModel
  import opened RevisionHistory

  /** Request hashes are computed by the server, never accepted from a caller. */
  predicate Honest(input: Proposal) {
    input.context.Some? && input.context.value.External? ==> input.context.value.requestHash.None?
  }

  predicate HonestOperation(op: Operation) {
    op.DoPropose? ==> Honest(op.input)
  }

  lemma StrippedEvidence(request: Request)
    ensures Strip(request.(evidence := StampEvidence(request.evidence))) == Strip(request)
  {
    assert Strip(request.(evidence := StampEvidence(request.evidence))).evidence == Strip(request).evidence;
  }

  lemma CommitStamped(s: Store, r: Revision)
    requires AllStamped(s) && Stamped(r)
    ensures AllStamped(Commit(s, r))
  {
  }

  /** What admission stamps is the hash of the write it admits. */
  lemma AdmitStamps(s: Store, env: Env, input: Proposal, before: string)
    requires Admit(s, env, input, before).UnderPolicy?
    ensures input.context.Some? && input.context.value.External?
    ensures var c := Admit(s, env, input, before).context;
            && c.External? && c.requestHash == Some(OperationHash(input, input.context.value.request))
            && Strip(c.request) == Strip(input.context.value.request)
    ensures !IsLogPath(input.key.filename)
  {
    AdmittedContext(s, env, input, before);
    StrippedEvidence(input.context.value.request);
    hide QueueRefuses, IsLogPath, CheckAllEvidence, Strip, StampEvidence;
  }

  lemma ApplyFileStamped(s: Store, env: Env, input: Proposal)
    requires AllStamped(s) && Honest(input)
    ensures AllStamped(ApplyFile(s, env, input).0)
  {
    var admission := Admit(s, env, input, LiveText(s, input.key));
    if admission.UnderPolicy? { AdmitStamps(s, env, input, LiveText(s, input.key)); }
    hide Admit, FindOperation, RecordConflict, Strip, AllStamped, IsLogPath;
    var (t, outcome, due) := ApplyFile(s, env, input);
    if outcome.Accepted? {
      CommitStamped(s, outcome.revision);
    } else if outcome.Conflicted? {
      SameRevisionsStamped(s, t);
    }
  }

  lemma SameRevisionsStamped(s: Store, t: Store)
    ensures t.revisions == s.revisions && AllStamped(s) ==> AllStamped(t)
  {
  }

  lemma ProposeStamped(s: Store, env: Env, input: Proposal)
    requires AllStamped(s) && Honest(input)
    ensures AllStamped(Propose(s, env, input).0)
  {
    var (t, outcome, due) := ApplyFile(s, env, input);
    ApplyFileStamped(s, env, input);
    ReceiptIsInternal(t, env, input);
    hide ApplyFile, Receipt, AllStamped;
    if due { ApplyFileStamped(t, env, Receipt(t, env, input)); }
  }

  lemma StepStamped(s: Store, op: Operation)
    requires AllStamped(s) && HonestOperation(op)
    ensures AllStamped(Step(s, op))
  {
    hide FindOpen, Propose, FindConflict, QueueRefuses;
    match op
    case DoPropose(env, input) => ProposeStamped(s, env, input);
    case DoResolve(env, brain, id, expected, content, actor) =>
      var found := FindConflict(s.conflicts, brain, id);
      if found.Some? {
        var key := s.conflicts[found.value].input.key;
        ProposeStamped(s, env, Proposal(key, HeadId(s, key), content, HostedMcp, actor, Some(Internal("explicit reviewed conflict resolution"))));
      }
    case _ =>
  }

  lemma {:induction false} RunStamped(s: Store, ops: seq<Operation>)
    requires AllStamped(s) && forall op :: op in ops ==> HonestOperation(op)
    ensures AllStamped(Run(s, ops))
    decreases |ops|
  {
    hide AllStamped, Step, HonestOperation;
    if ops != [] {
      assert ops[0] in ops;
      StepStamped(s, ops[0]);
      RunStamped(Step(s, ops[0]), ops[1..]);
    }
  }

  /** A proposal made on the current head is never answered by a replay: it takes effect, or it is already
      the head, or it throws. */
  lemma OnHeadTakesEffect(s: Store, env: Env, input: Proposal)
    requires Sound(s) && AllStamped(s) && input.base == HeadId(s, input.key)
    requires ApplyFile(s, env, input).1.Accepted? || ApplyFile(s, env, input).1.Unchanged?
    ensures var (t, outcome, _) := ApplyFile(s, env, input);
            && input.key in t.heads && t.heads[input.key] == outcome.revision
            && !outcome.revision.deleted && outcome.revision.content == input.content && outcome.revision.hash == Live(input.content)
  {
    ApplyCases(s, env, input);
    if input.key in s.heads { HeadRevision(s, input.key); }
    if ApplyFile(s, env, input).1.Unchanged? && Replays(s, input) { NotReplayed(s, input, ApplyFile(s, env, input).1.revision); }
    hide Sound, AllStamped, FindOperation, Admit, OperationHash, ApplyFile, RecordConflict, LiveText;
  }

  lemma NotReplayed(s: Store, input: Proposal, r: Revision)
    requires Sound(s) && AllStamped(s) && Answers(s, input, r)
    ensures input.base != HeadId(s, input.key)
  {
    ReplayIsRecorded(s, input);
    assert Stamped(s.revisions[r.id]);
    NoChildOfHead(s, r.id);
    hide Sound, FindOperation;
  }

  lemma HeadIsLast(s: Store, key: Key)
    requires Sound(s)
    ensures HeadId(s, key) == LastChange(s.changes, key)
  {
    hide LastChange, Linked, Numbered, OperationsUnique, ConflictsSound;
  }

  /** No recorded revision of a file has the file's head as its parent, or a missing file. */
  lemma NoChildOfHead(s: Store, id: nat)
    requires Sound(s) && id in s.revisions
    ensures var key := s.revisions[id].key; key in s.heads && s.revisions[id].parent != HeadId(s, key)
  {
    hide LastChange, Lineage, IdsOf;
    ParentIsLast(s, id);
    var key := s.revisions[id].key;
    LastIsGreatest(s, |s.changes|, key, id);
    assert s.changes[..|s.changes|] == s.changes;
    LastIsLast(s, id - 1, key);
    HeadIsLast(s, key);
    hide Sound;
  }
}
