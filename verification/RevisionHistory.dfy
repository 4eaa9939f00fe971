/** What every reachable revision store satisfies: one linear history per file, ending at its head. */
module RevisionHistory {
  import opened Wrappers
  import opened RevisionModel

  // ---------------------------------------------------------------- the fold of the change log

  /** The revision of the last change of `key`. */
  function LastChange(changes: seq<Change>, key: Key): (r: Option<nat>) {
    if changes == [] then None
    else
      var last := changes[|changes| - 1];
      if last.key == key then Some(last.id) else LastChange(changes[..|changes| - 1], key)
  }

  lemma LastChangeSnoc(changes: seq<Change>, c: Change, key: Key)
    ensures LastChange(changes + [c], key) == if c.key == key then Some(c.id) else LastChange(changes, key)
  {
    assert (changes + [c])[..|changes|] == changes;
  }

  // ---------------------------------------------------------------- the invariant

  /** Equal in every field but the write context, which `setWriteVerification` updates on one copy. */
  predicate SameButContext(a: Revision, b: Revision) {
    a.(context := b.context) == b
  }

  predicate Describes(c: Change, r: Revision) {
    c == Change(r.cursor, r.key, r.id, r.hash, r.origin, r.actor)
  }

  /** A tombstone has no content, and something live to restore. */
  ghost predicate WellFormed(s: Store, r: Revision) {
    && (r.deleted ==>
          && r.content == "" && r.hash == Tombstone
          && r.parent.Some? && r.parent.value in s.revisions
          && s.revisions[r.parent.value].key == r.key && !s.revisions[r.parent.value].deleted)
    && (!r.deleted ==> r.hash == Live(r.content))
  }

  /** Revisions are numbered without gaps, each by exactly one change. */
  ghost predicate Numbered(s: Store) {
    && s.revisionSeq == s.cursorSeq == |s.changes|
    && (forall id :: id in s.revisions <==> 1 <= id <= s.revisionSeq)
    && (forall id :: id in s.revisions ==> s.revisions[id].id == s.revisions[id].cursor == id)
    && (forall i :: 0 <= i < |s.changes| ==> i + 1 in s.revisions && Describes(s.changes[i], s.revisions[i + 1]))
  }

  /** The parent of a revision is the file's last revision before it. */
  ghost predicate Linked(s: Store) {
    && (forall id :: id in s.revisions && 1 <= id <= |s.changes| ==>
          s.revisions[id].parent == LastChange(s.changes[..id - 1], s.revisions[id].key))
    && (forall id :: id in s.revisions ==> WellFormed(s, s.revisions[id]))
  }

  ghost predicate HeadsFold(s: Store) {
    && (forall key :: HeadId(s, key) == LastChange(s.changes, key))
    && (forall key :: key in s.heads ==>
          s.heads[key].id in s.revisions && s.heads[key].key == key && SameButContext(s.heads[key], s.revisions[s.heads[key].id]))
  }

  /** No operation id of a Brain is recorded with a request hash twice. */
  ghost predicate OperationsUnique(s: Store) {
    forall i, j, brain, op ::
      (i in s.revisions && j in s.revisions && CarriesOperation(s.revisions[i], brain, op) && CarriesOperation(s.revisions[j], brain, op)) ==>
        i == j
  }

  /** Conflict ids are fresh, at most one open conflict has a given input, and a resolution is a live
      revision of the file. */
  ghost predicate ConflictsSound(s: Store) {
    && (forall i :: 0 <= i < |s.conflicts| ==> s.conflicts[i].id == i + 1)
    && s.conflictSeq == |s.conflicts|
    && (forall i, j :: 0 <= i < j < |s.conflicts| && s.conflicts[i].resolution.None? && s.conflicts[j].resolution.None? ==>
          s.conflicts[i].input != s.conflicts[j].input)
    && (forall i :: 0 <= i < |s.conflicts| && s.conflicts[i].resolution.Some? ==>
          ResolutionLive(s, s.conflicts[i].input.key, s.conflicts[i].resolution.value))
  }

  predicate ResolutionLive(s: Store, key: Key, id: nat) {
    id in s.revisions && s.revisions[id].key == key && !s.revisions[id].deleted
  }

  /** A recorded request hash is the hash of the very write that carries it. */
  predicate Stamped(r: Revision) {
    r.context.Some? && r.context.value.External? && r.context.value.requestHash.Some? ==>
      var hash := r.context.value.requestHash.value;
      && hash.key == r.key && hash.content == r.content && !r.deleted && hash.actor == r.actor
      && hash.request == Strip(r.context.value.request)
      && (hash.base == r.parent || hash.base.None?)
      && !IsLogPath(r.key.filename)
  }

  predicate IsExternal(input: Proposal) {
    input.context.Some? && input.context.value.External?
  }

  ghost predicate AllStamped(s: Store) {
    forall id :: id in s.revisions ==> Stamped(s.revisions[id])
  }

  ghost predicate Sound(s: Store) {
    Numbered(s) && Linked(s) && HeadsFold(s) && OperationsUnique(s) && ConflictsSound(s)
  }

  // ---------------------------------------------------------------- committing keeps it

  lemma HeadRevision(s: Store, key: Key)
    requires Sound(s) && key in s.heads
    ensures var h := s.heads[key];
            h.id in s.revisions && h.key == key && SameButContext(h, s.revisions[h.id]) && WellFormed(s, h)
  {
    hide LastChange, OperationsUnique, ConflictsSound;
    assert WellFormed(s, s.revisions[s.heads[key].id]);
  }

  lemma CommitNumbered(s: Store, r: Revision)
    requires Numbered(s) && r.id == s.revisionSeq + 1 && r.cursor == s.cursorSeq + 1
    ensures Numbered(Commit(s, r))
  {
    var t := Commit(s, r);
    assert forall i :: 0 <= i < |s.changes| ==> t.changes[i] == s.changes[i];
  }

  lemma CommitLinked(s: Store, r: Revision)
    requires Numbered(s) && Linked(s) && HeadsFold(s)
    requires r.id == s.revisionSeq + 1 && r.parent == HeadId(s, r.key)
    requires WellFormed(s, r)
    ensures Linked(Commit(s, r))
  {
    hide LastChange;
    assert HeadId(s, r.key) == LastChange(s.changes, r.key);
    hide HeadsFold, HeadId;
    var t := Commit(s, r);
    forall id | id in t.revisions && 1 <= id <= |t.changes|
      ensures t.revisions[id].parent == LastChange(t.changes[..id - 1], t.revisions[id].key)
    {
      if id == r.id {
        assert t.changes[..id - 1] == s.changes;
      } else {
        assert t.changes[..id - 1] == s.changes[..id - 1];
      }
    }
    forall id | id in t.revisions ensures WellFormed(t, t.revisions[id]) {
      if id != r.id {
        assert WellFormed(s, s.revisions[id]);
        CommitKeepsFormed(s, r, s.revisions[id]);
      } else {
        CommitKeepsFormed(s, r, r);
      }
    }
  }

  lemma CommitKeepsFormed(s: Store, r: Revision, q: Revision)
    requires Numbered(s) && r.id == s.revisionSeq + 1 && WellFormed(s, q)
    ensures WellFormed(Commit(s, r), q)
  {
  }

  lemma CommitHeadsFold(s: Store, r: Revision)
    requires Numbered(s) && HeadsFold(s) && r.id == s.revisionSeq + 1
    ensures HeadsFold(Commit(s, r))
  {
    var t := Commit(s, r);
    forall key ensures HeadId(t, key) == LastChange(t.changes, key) {
      LastChangeSnoc(s.changes, Change(r.cursor, r.key, r.id, r.hash, r.origin, r.actor), key);
      assert HeadId(s, key) == LastChange(s.changes, key);
    }
  }

  /** A revision may not reuse an operation id that is already recorded. */
  ghost predicate FreshOperation(s: Store, r: Revision) {
    forall brain, op, id :: CarriesOperation(r, brain, op) && id in s.revisions ==> !CarriesOperation(s.revisions[id], brain, op)
  }

  lemma CommitSound(s: Store, r: Revision)
    requires Sound(s)
    requires r.id == s.revisionSeq + 1 && r.cursor == s.cursorSeq + 1 && r.parent == HeadId(s, r.key)
    requires WellFormed(s, r) && FreshOperation(s, r)
    ensures Sound(Commit(s, r))
  {
    hide LastChange, WellFormed, HeadId, Numbered, Linked, HeadsFold, OperationsUnique, ConflictsSound, FreshOperation;
    CommitNumbered(s, r);
    CommitLinked(s, r);
    CommitHeadsFold(s, r);
    CommitKeepsOperations(s, r);
    CommitKeepsConflicts(s, r);
  }

  lemma CommitKeepsOperations(s: Store, r: Revision)
    requires OperationsUnique(s) && FreshOperation(s, r)
    ensures OperationsUnique(Commit(s, r))
  {
    hide CarriesOperation;
  }

  lemma CommitKeepsConflicts(s: Store, r: Revision)
    requires Numbered(s) && ConflictsSound(s) && r.id == s.revisionSeq + 1
    ensures ConflictsSound(Commit(s, r))
  {
    var t := Commit(s, r);
    forall i | 0 <= i < |t.conflicts| && t.conflicts[i].resolution.Some?
      ensures ResolutionLive(t, t.conflicts[i].input.key, t.conflicts[i].resolution.value)
    {
      assert ResolutionLive(s, s.conflicts[i].input.key, s.conflicts[i].resolution.value);
    }
  }

  // ---------------------------------------------------------------- what later operations keep

  /** A revision without the read-back verification, which is all that ever changes in one. */
  function Settled(r: Revision): Revision {
    if r.context.Some? && r.context.value.External?
    then r.(context := Some(r.context.value.(verification := None)))
    else r
  }

  /** The change log only grows, revisions are immutable but for verification, and conflicts are only
      added or resolved. */
  ghost predicate Extends(s: Store, t: Store) {
    && s.changes <= t.changes
    && (forall id :: id in s.revisions ==> id in t.revisions && Settled(t.revisions[id]) == Settled(s.revisions[id]))
    && |s.conflicts| <= |t.conflicts|
    && (forall i :: 0 <= i < |s.conflicts| ==>
          && t.conflicts[i].(resolution := None) == s.conflicts[i].(resolution := None)
          && (s.conflicts[i].resolution.Some? ==> t.conflicts[i] == s.conflicts[i]))
  }

  lemma ExtendsTransitive(s: Store, t: Store, u: Store)
    requires Extends(s, t) && Extends(t, u)
    ensures Extends(s, u)
  {
  }

  lemma CommitExtends(s: Store, r: Revision)
    requires Sound(s) && r.id == s.revisionSeq + 1
    ensures Extends(s, Commit(s, r))
  {
  }

  // ---------------------------------------------------------------- conflicts

  lemma {:induction false} FindOpenSpec(conflicts: seq<Conflict>, input: ConflictInput)
    ensures FindOpen(conflicts, input).Some? ==>
              exists i :: 0 <= i < |conflicts| && conflicts[i] == FindOpen(conflicts, input).value &&
                conflicts[i].resolution.None? && conflicts[i].input == input
    ensures FindOpen(conflicts, input).None? ==>
              forall i :: 0 <= i < |conflicts| && conflicts[i].resolution.None? ==> conflicts[i].input != input
  {
    if conflicts != [] && !(conflicts[0].resolution.None? && conflicts[0].input == input) {
      var rest := conflicts[1..];
      FindOpenSpec(rest, input);
      if FindOpen(rest, input).Some? {
        var i :| 0 <= i < |rest| && rest[i] == FindOpen(rest, input).value && rest[i].resolution.None? && rest[i].input == input;
        assert conflicts[i + 1] == rest[i];
      } else {
        forall i | 0 <= i < |conflicts| && conflicts[i].resolution.None? ensures conflicts[i].input != input {
          if i > 0 { assert conflicts[i] == rest[i - 1]; }
        }
      }
    }
  }

  /** Recording a conflict touches no file, and answers with an open conflict of that very input. */
  lemma RecordConflictSound(s: Store, input: ConflictInput)
    requires Sound(s)
    ensures var (t, conflict) := RecordConflict(s, input);
            && Sound(t) && Extends(s, t)
            && t.(conflicts := s.conflicts, conflictSeq := s.conflictSeq) == s
            && conflict in t.conflicts && conflict.input == input && conflict.resolution.None?
  {
    var (t, conflict) := RecordConflict(s, input);
    FindOpenSpec(s.conflicts, input);
    hide LastChange, FindOpen;
    if FindOpen(s.conflicts, input).None? {
      assert t.conflicts == s.conflicts + [conflict];
      ReviseConflicts(s, t);
    }
  }

  /** Changing only the conflict list cannot disturb the file history. */
  lemma ReviseConflicts(s: Store, t: Store)
    requires Sound(s) && t.(conflicts := s.conflicts, conflictSeq := s.conflictSeq) == s
    requires ConflictsSound(t)
    ensures Sound(t)
  {
    hide LastChange, ConflictsSound;
    forall id | id in t.revisions ensures WellFormed(t, t.revisions[id]) {
      assert WellFormed(s, s.revisions[id]);
    }
    assert forall key :: HeadId(t, key) == HeadId(s, key);
    assert Numbered(t) && Linked(t) && HeadsFold(t);
    assert OperationsUnique(t);
  }

  // ---------------------------------------------------------------- proposals

  lemma ConflictingSound(s: Store, input: ConflictInput, current: Option<Revision>)
    requires Sound(s)
    ensures Sound(Conflicting(s, input, current).0) && Extends(s, Conflicting(s, input, current).0)
  {
    hide Sound, Extends;
    RecordConflictSound(s, input);
  }

  predicate Replays(s: Store, input: Proposal) {
    IsExternal(input) && FindOperation(s, input.key.brain, input.context.value.request.operationId, 1).Some?
  }

  predicate OverTombstone(s: Store, input: Proposal) {
    input.key in s.heads && s.heads[input.key].deleted && input.base.None?
  }

  /** The ways a proposal can end, with admission left folded. */
  predicate Ends(s: Store, env: Env, input: Proposal, t: Store, outcome: Outcome, due: bool) {
    var admission := Admit(s, env, input, LiveText(s, input.key));
    match outcome
    case Threw(_) => t == s && !due
    case Unchanged(r) => t == s && !due && (if Replays(s, input) then Answers(s, input, r) else AlreadyHead(s, input, r))
    case Conflicted(conflict, current) =>
      && !due && !Replays(s, input) && current == Head(s, input.key)
      && (t, conflict) == RecordConflict(s, Against(input.key, input.base, Live(input.content), input.origin, input.actor, current))
      && input.base != HeadId(s, input.key)
    case Accepted(r) =>
      && !Replays(s, input) && !admission.Refused? && due == admission.UnderPolicy? && t == Commit(s, r)
      && (input.base == HeadId(s, input.key) || OverTombstone(s, input))
      && r == NextRevision(s, input.key, input.content, false, input.origin, input.actor, None, None,
                           if due then Some(admission.context) else input.context)
  }

  /** A replay, of the very same request. */
  predicate Answers(s: Store, input: Proposal, r: Revision) {
    && Replays(s, input)
    && r == FindOperation(s, input.key.brain, input.context.value.request.operationId, 1).value
    && r.context.value.requestHash == Some(OperationHash(input, input.context.value.request))
  }

  predicate AlreadyHead(s: Store, input: Proposal, r: Revision) {
    input.key in s.heads && r == s.heads[input.key] && !r.deleted && r.hash == Live(input.content)
  }

  lemma ApplyCases(s: Store, env: Env, input: Proposal)
    ensures Ends(s, env, input, ApplyFile(s, env, input).0, ApplyFile(s, env, input).1, ApplyFile(s, env, input).2)
  {
    hide Admit, FindOperation, OperationHash, RecordConflict, Commit, LiveText, Against;
  }

  lemma ApplyFileSound(s: Store, env: Env, input: Proposal)
    requires Sound(s)
    ensures Sound(ApplyFile(s, env, input).0) && Extends(s, ApplyFile(s, env, input).0)
  {
    ApplyCases(s, env, input);
    hide Sound, Extends, Admit, FindOperation, OperationHash, ApplyFile;
    var (t, outcome, due) := ApplyFile(s, env, input);
    ExtendsSelf(s);
    if outcome.Conflicted? {
      var current := Head(s, input.key);
      ConflictingSound(s, Against(input.key, input.base, Live(input.content), input.origin, input.actor, current), current);
    } else if outcome.Accepted? {
      var r := outcome.revision;
      assert t == Commit(s, r);
      AcceptedIsFresh(s, env, input);
      assert WellFormed(s, r);
      CommitSound(s, r);
      CommitExtends(s, r);
    }
  }

  lemma ExtendsSelf(s: Store)
    ensures Extends(s, s)
  {
  }

  /** The context stored is the request's own, or the one admission stamped for the same operation. */
  lemma AdmittedContext(s: Store, env: Env, input: Proposal, before: string)
    requires Admit(s, env, input, before).UnderPolicy?
    ensures var context := Admit(s, env, input, before).context;
            && input.context.Some? && input.context.value.External?
            && context.External? && context.request.operationId == input.context.value.request.operationId
            && context.requestHash == Some(OperationHash(input, input.context.value.request))
  {
    hide QueueRefuses, IsLogPath, CheckAllEvidence, OperationHash;
  }

  lemma AcceptedIsFresh(s: Store, env: Env, input: Proposal)
    requires Sound(s)
    requires ApplyFile(s, env, input).1.Accepted?
    ensures FreshOperation(s, ApplyFile(s, env, input).1.revision)
  {
    hide Admit, OperationHash, Linked, HeadsFold, ConflictsSound, OperationsUnique;
    var r := ApplyFile(s, env, input).1.revision;
    var before := LiveText(s, input.key);
    if Admit(s, env, input, before).UnderPolicy? {
      AdmittedContext(s, env, input, before);
    }
    forall brain, op, id | CarriesOperation(r, brain, op) && id in s.revisions ensures !CarriesOperation(s.revisions[id], brain, op) {
      assert FindOperation(s, brain, op, 1).None?;
    }
  }

  /** The receipt is written by the server itself, so it carries no operation and wants no receipt. */
  lemma ReceiptIsInternal(s: Store, env: Env, input: Proposal)
    ensures Receipt(s, env, input).context == Some(Internal("automatic change index"))
    ensures Receipt(s, env, input).key == LogKey(input.key.brain)
    ensures Receipt(s, env, input).base == HeadId(s, LogKey(input.key.brain))
  {
  }

  lemma ProposeSound(s: Store, env: Env, input: Proposal)
    requires Sound(s)
    ensures Sound(Propose(s, env, input).0) && Extends(s, Propose(s, env, input).0)
  {
    hide Sound, Extends, ApplyFile, Receipt;
    var (t, outcome, due) := ApplyFile(s, env, input);
    ExtendsSelf(s);
    ApplyFileSound(s, env, input);
    if due {
      ReceiptIsInternal(t, env, input);
      ApplyFileSound(t, env, Receipt(t, env, input));
      ExtendsTransitive(s, t, ApplyFile(t, env, Receipt(t, env, input)).0);
    }
  }

  lemma DeleteSound(s: Store, key: Key, base: Option<nat>, origin: Origin, actor: Option<Actor>)
    requires Sound(s)
    ensures Sound(Delete(s, key, base, origin, actor).0) && Extends(s, Delete(s, key, base, origin, actor).0)
  {
    var (t, outcome) := Delete(s, key, base, origin, actor);
    ExtendsSelf(s);
    if outcome.Conflicted? {
      hide Sound, Extends;
      ConflictingSound(s, Against(key, base, Tombstone, origin, actor, Head(s, key)), Head(s, key));
    } else if outcome.Accepted? {
      HeadRevision(s, key);
      hide Sound, Extends;
      assert FreshOperation(s, outcome.revision);
      CommitSound(s, outcome.revision);
      CommitExtends(s, outcome.revision);
    }
  }

  lemma RenameSound(s: Store, env: Env, brain: string, from: string, to: string, base: Option<nat>, origin: Origin, actor: Option<Actor>)
    requires Sound(s)
    ensures Sound(Rename(s, env, brain, from, to, base, origin, actor).0)
    ensures Extends(s, Rename(s, env, brain, from, to, base, origin, actor).0)
  {
    hide Sound, Extends, QueueRefuses;
    var (t, outcome) := Rename(s, env, brain, from, to, base, origin, actor);
    ExtendsSelf(s);
    var fromKey, toKey := Key(brain, from), Key(brain, to);
    var fromHead, toHead := Head(s, fromKey), Head(s, toKey);
    if outcome.Conflicted? {
      if fromHead.None? || fromHead.value.deleted || base != Some(fromHead.value.id) {
        ConflictingSound(s, Against(fromKey, base, Tombstone, origin, actor, fromHead), fromHead);
      } else {
        ConflictingSound(s, Against(toKey, None, fromHead.value.hash, origin, actor, toHead), toHead);
      }
    } else if outcome.Accepted? {
      var r := outcome.revision;
      HeadRevision(s, fromKey);
      assert FreshOperation(s, r) && WellFormed(s, r);
      CommitSound(s, r);
      CommitExtends(s, r);
      var u := Commit(s, r);
      var tombstone := NextRevision(u, fromKey, "", true, origin, actor, None, Some(to), None);
      HeadRevision(u, fromKey);
      assert FreshOperation(u, tombstone);
      CommitSound(u, tombstone);
      CommitExtends(u, tombstone);
      ExtendsTransitive(s, u, t);
    }
  }

  // ---------------------------------------------------------------- resolving and verifying

  lemma {:induction false} FindConflictUnique(conflicts: seq<Conflict>, brain: string, id: nat)
    ensures FindConflict(conflicts, brain, id).None? ==>
              forall i :: 0 <= i < |conflicts| ==> !(conflicts[i].id == id && conflicts[i].input.key.brain == brain)
  {
    if conflicts != [] && !(conflicts[0].id == id && conflicts[0].input.key.brain == brain) {
      FindConflictUnique(conflicts[1..], brain, id);
      if FindConflict(conflicts, brain, id).None? {
        forall i | 0 <= i < |conflicts| ensures !(conflicts[i].id == id && conflicts[i].input.key.brain == brain) {
          if i > 0 { assert conflicts[i] == conflicts[1..][i - 1]; }
        }
      }
    }
  }

  /** A proposal on the current head is never a conflict. */
  lemma OnHeadNeverConflicts(s: Store, env: Env, input: Proposal)
    requires input.base == HeadId(s, input.key)
    ensures !ApplyFile(s, env, input).1.Conflicted?
    ensures !Propose(s, env, input).1.Conflicted?
  {
    hide Admit, FindOperation, OperationHash, Receipt;
  }

  /** What a successful proposal answers with is a live revision of the file, holding the content. */
  lemma AnswerHoldsContent(s: Store, env: Env, input: Proposal)
    requires Sound(s) && (AllStamped(s) || !IsExternal(input))
    requires Propose(s, env, input).1.Accepted? || Propose(s, env, input).1.Unchanged?
    ensures var (t, outcome) := Propose(s, env, input);
            && ResolutionLive(t, input.key, outcome.revision.id)
            && outcome.revision.content == input.content && outcome.revision.key == input.key && !outcome.revision.deleted
            && Settled(t.revisions[outcome.revision.id]).content == input.content
  {
    hide Sound, Extends, Admit, ApplyFile, AllStamped, Receipt, OperationHash, FindOperation, RecordConflict;
    var (t, outcome, due) := ApplyFile(s, env, input);
    ApplyCases(s, env, input);
    ProposeSound(s, env, input);
    if outcome.Accepted? {
      assert outcome.revision == t.revisions[outcome.revision.id];
      if due {
        ApplyFileSound(s, env, input);
        ApplyFileSound(t, env, Receipt(t, env, input));
        ExtendsKeeps(t, Propose(s, env, input).0, outcome.revision.id);
        SettledLive(t.revisions[outcome.revision.id], Propose(s, env, input).0.revisions[outcome.revision.id]);
      }
    } else if outcome.Unchanged? {
      AnswerUnchanged(s, env, input);
    }
  }

  lemma SettledLive(a: Revision, b: Revision)
    requires Settled(a) == Settled(b)
    ensures a.key == b.key && a.parent == b.parent && a.deleted == b.deleted && a.content == b.content
  {
    assert Settled(a).(context := None) == a.(context := None);
    assert Settled(b).(context := None) == b.(context := None);
  }

  lemma ExtendsKeeps(s: Store, t: Store, id: nat)
    requires Extends(s, t) && id in s.revisions
    ensures id in t.revisions && Settled(t.revisions[id]) == Settled(s.revisions[id])
  {
  }

  lemma AnswerUnchanged(s: Store, env: Env, input: Proposal)
    requires Sound(s) && (AllStamped(s) || !IsExternal(input)) && ApplyFile(s, env, input).1.Unchanged?
    ensures var outcome := ApplyFile(s, env, input).1;
            && ApplyFile(s, env, input).0 == s
            && ResolutionLive(s, input.key, outcome.revision.id)
            && outcome.revision.content == input.content && outcome.revision.key == input.key && !outcome.revision.deleted
            && s.revisions[outcome.revision.id].content == input.content
  {
    hide Admit, Linked, OperationsUnique, ConflictsSound;
    var r := ApplyFile(s, env, input).1.revision;
    if input.key in s.heads && r == s.heads[input.key] && !r.deleted && r.hash == Live(input.content) {
      HeadRevision(s, input.key);
    } else {
      ReplayIsRecorded(s, input);
    }
  }

  lemma {:induction false} FindOperationRecorded(s: Store, brain: string, op: string, from: nat)
    requires Sound(s) && FindOperation(s, brain, op, from).Some?
    ensures var r := FindOperation(s, brain, op, from).value;
            r.id in s.revisions && s.revisions[r.id] == r
    decreases s.revisionSeq + 1 - from
  {
    hide Linked, HeadsFold, OperationsUnique, ConflictsSound;
    if !(from in s.revisions && CarriesOperation(s.revisions[from], brain, op)) {
      FindOperationRecorded(s, brain, op, from + 1);
    }
  }

  /** A replayed revision is the recorded one, for the same file and content. */
  lemma ReplayIsRecorded(s: Store, input: Proposal)
    requires Sound(s) && AllStamped(s) && IsExternal(input)
    requires FindOperation(s, input.key.brain, input.context.value.request.operationId, 1).Some?
    requires var r := FindOperation(s, input.key.brain, input.context.value.request.operationId, 1).value;
             r.context.value.requestHash == Some(OperationHash(input, input.context.value.request))
    ensures var r := FindOperation(s, input.key.brain, input.context.value.request.operationId, 1).value;
            r.id in s.revisions && s.revisions[r.id] == r && r.key == input.key && r.content == input.content && !r.deleted
  {
    FindOperationRecorded(s, input.key.brain, input.context.value.request.operationId, 1);
    hide FindOperation, OperationHash;
    var r := FindOperation(s, input.key.brain, input.context.value.request.operationId, 1).value;
    assert Stamped(s.revisions[r.id]);
  }

  lemma ResolveSound(s: Store, env: Env, brain: string, id: nat, expected: Option<nat>, content: string, actor: Option<Actor>)
    requires Sound(s)
    ensures Sound(Resolve(s, env, brain, id, expected, content, actor).0)
    ensures Extends(s, Resolve(s, env, brain, id, expected, content, actor).0)
    ensures Resolve(s, env, brain, id, expected, content, actor).1.Threw? ==> Resolve(s, env, brain, id, expected, content, actor).0 == s
  {
    hide Sound, Extends, Propose, FindConflict;
    ExtendsSelf(s);
    var found := FindConflict(s.conflicts, brain, id);
    if found.Some? && s.conflicts[found.value].resolution.None? && expected.Some? && expected == HeadId(s, s.conflicts[found.value].input.key) {
      var i := found.value;
      var key := s.conflicts[i].input.key;
      var input := Proposal(key, HeadId(s, key), content, HostedMcp, actor, Some(Internal("explicit reviewed conflict resolution")));
      OnHeadNeverConflicts(s, env, input);
      ProposeSound(s, env, input);
      var (t, outcome) := Propose(s, env, input);
      if !outcome.Threw? {
        AnswerHoldsContent(s, env, input);
        ProposeKeepsConflicts(s, env, input);
        ResolvedSound(t, i, outcome.revision.id);
        ExtendsTransitive(s, t, Resolved(t, i, outcome.revision.id));
      }
    }
  }

  function Resolved(s: Store, i: nat, revision: nat): Store
    requires i < |s.conflicts|
  {
    s.(conflicts := s.conflicts[i := s.conflicts[i].(resolution := Some(revision))])
  }

  lemma ResolvedSound(s: Store, i: nat, revision: nat)
    requires Sound(s) && i < |s.conflicts| && s.conflicts[i].resolution.None?
    requires ResolutionLive(s, s.conflicts[i].input.key, revision)
    ensures Sound(Resolved(s, i, revision)) && Extends(s, Resolved(s, i, revision))
  {
    var t := Resolved(s, i, revision);
    assert ConflictsSound(t) by {
      forall j | 0 <= j < |t.conflicts| && t.conflicts[j].resolution.Some?
        ensures ResolutionLive(t, t.conflicts[j].input.key, t.conflicts[j].resolution.value)
      {
        if j != i { assert ResolutionLive(s, s.conflicts[j].input.key, s.conflicts[j].resolution.value); }
      }
    }
    ReviseConflicts(s, t);
  }

  lemma ApplyKeepsConflicts(s: Store, env: Env, input: Proposal)
    requires !ApplyFile(s, env, input).1.Conflicted?
    ensures ApplyFile(s, env, input).0.conflicts == s.conflicts && ApplyFile(s, env, input).0.conflictSeq == s.conflictSeq
  {
    hide Admit, FindOperation, OperationHash;
  }

  /** A proposal that does not conflict leaves the conflict list alone. */
  lemma ProposeKeepsConflicts(s: Store, env: Env, input: Proposal)
    requires !Propose(s, env, input).1.Conflicted?
    ensures Propose(s, env, input).0.conflicts == s.conflicts && Propose(s, env, input).0.conflictSeq == s.conflictSeq
  {
    hide ApplyFile, Receipt;
    var (t, outcome, due) := ApplyFile(s, env, input);
    if !outcome.Conflicted? { ApplyKeepsConflicts(s, env, input); }
    if due {
      ReceiptIsInternal(t, env, input);
      OnHeadNeverConflicts(t, env, Receipt(t, env, input));
      ApplyKeepsConflicts(t, env, Receipt(t, env, input));
    }
  }

  /** Only write contexts differ, and only outside the heads. */
  ghost predicate Recontexted(s: Store, t: Store) {
    && t.(revisions := s.revisions) == s
    && t.revisions.Keys == s.revisions.Keys
    && forall i :: i in s.revisions ==> t.revisions[i].(context := None) == s.revisions[i].(context := None)
  }

  lemma RecontextedHistory(s: Store, t: Store)
    requires Sound(s) && Recontexted(s, t)
    ensures Numbered(t) && Linked(t) && HeadsFold(t)
  {
    hide LastChange, OperationsUnique, ConflictsSound;
    assert Numbered(t) by { hide Linked, HeadsFold; }
    assert Linked(t) by {
      hide HeadsFold;
      forall i | i in t.revisions ensures WellFormed(t, t.revisions[i]) { assert WellFormed(s, s.revisions[i]); }
    }
    assert HeadsFold(t) by {
      hide Linked, Numbered;
      assert forall key :: HeadId(t, key) == HeadId(s, key);
    }
  }

  lemma RecontextedConflicts(s: Store, t: Store)
    requires Sound(s) && Recontexted(s, t)
    ensures ConflictsSound(t)
  {
    hide Numbered, Linked, HeadsFold, OperationsUnique;
    forall i | 0 <= i < |t.conflicts| && t.conflicts[i].resolution.Some?
      ensures ResolutionLive(t, t.conflicts[i].input.key, t.conflicts[i].resolution.value)
    {
      assert ResolutionLive(s, s.conflicts[i].input.key, s.conflicts[i].resolution.value);
    }
  }

  lemma VerificationRecontexts(s: Store, brain: string, id: nat, state: Verification)
    ensures Recontexted(s, SetVerification(s, brain, id, state).0)
    ensures Extends(s, SetVerification(s, brain, id, state).0)
  {
    var t := SetVerification(s, brain, id, state).0;
    forall i | i in s.revisions ensures Settled(t.revisions[i]) == Settled(s.revisions[i]) {
    }
    hide Settled;
  }

  lemma VerificationKeepsOperations(s: Store, brain: string, id: nat, state: Verification)
    requires OperationsUnique(s)
    ensures OperationsUnique(SetVerification(s, brain, id, state).0)
  {
    var t := SetVerification(s, brain, id, state).0;
    forall i, b, op | i in s.revisions ensures CarriesOperation(t.revisions[i], b, op) <==> CarriesOperation(s.revisions[i], b, op) {
    }
  }

  lemma VerificationSound(s: Store, brain: string, id: nat, state: Verification)
    requires Sound(s)
    ensures Sound(SetVerification(s, brain, id, state).0) && Extends(s, SetVerification(s, brain, id, state).0)
    ensures SetVerification(s, brain, id, state).0.heads == s.heads
  {
    hide Numbered, Linked, HeadsFold, ConflictsSound, OperationsUnique, Extends;
    var t := SetVerification(s, brain, id, state).0;
    VerificationRecontexts(s, brain, id, state);
    VerificationKeepsOperations(s, brain, id, state);
    RecontextedHistory(s, t);
    RecontextedConflicts(s, t);
  }

  // ---------------------------------------------------------------- whole runs

  lemma EmptySound()
    ensures Sound(EMPTY)
  {
  }

  lemma StepSound(s: Store, op: Operation)
    requires Sound(s)
    ensures Sound(Step(s, op)) && Extends(s, Step(s, op))
  {
    hide Sound, Extends, Propose, Delete, Rename, RecordConflict, Resolve, SetVerification;
    match op
    case DoPropose(env, input) => ProposeSound(s, env, input);
    case DoDelete(key, base, origin, actor) => DeleteSound(s, key, base, origin, actor);
    case DoRename(env, brain, from, to, base, origin, actor) => RenameSound(s, env, brain, from, to, base, origin, actor);
    case DoRecord(conflict) => RecordConflictSound(s, conflict);
    case DoResolve(env, brain, id, expected, content, actor) => ResolveSound(s, env, brain, id, expected, content, actor);
    case DoVerify(brain, id, state) => VerificationSound(s, brain, id, state);
  }

  /** Every run keeps the invariant, and never rewrites what was there before. */
  lemma {:induction false} RunSound(s: Store, ops: seq<Operation>)
    requires Sound(s)
    ensures Sound(Run(s, ops)) && Extends(s, Run(s, ops))
    decreases |ops|
  {
    hide Sound, Extends, Step;
    ExtendsSelf(s);
    if ops != [] {
      StepSound(s, ops[0]);
      RunSound(Step(s, ops[0]), ops[1..]);
      ExtendsTransitive(s, Step(s, ops[0]), Run(s, ops));
    }
  }

  // ---------------------------------------------------------------- one unforked chain per file

  /** The revision ids of a file, oldest first. */
  function IdsOf(changes: seq<Change>, key: Key): seq<nat> {
    if changes == [] then []
    else
      var last := changes[|changes| - 1];
      IdsOf(changes[..|changes| - 1], key) + if last.key == key then [last.id] else []
  }

  /** The ids met by following parents from revision `id`, oldest first. */
  function Lineage(s: Store, id: nat): seq<nat>
    decreases id
  {
    if id !in s.revisions then []
    else
      match s.revisions[id].parent
      case Some(parent) => if parent < id then Lineage(s, parent) + [id] else [id]
      case None => [id]
  }

  lemma {:induction false} LastIsLast(s: Store, n: nat, key: Key)
    requires Sound(s) && n <= |s.changes|
    ensures match LastChange(s.changes[..n], key)
            case None => IdsOf(s.changes[..n], key) == []
            case Some(id) => 1 <= id <= n && id in s.revisions && s.revisions[id].key == key && Lineage(s, id) == IdsOf(s.changes[..n], key)
    decreases n
  {
    hide HeadsFold, OperationsUnique, ConflictsSound;
    if n > 0 {
      assert s.changes[..n][..n - 1] == s.changes[..n - 1];
      LastIsLast(s, n - 1, key);
      assert Describes(s.changes[n - 1], s.revisions[n]);
      if s.changes[n - 1].key == key {
        assert s.revisions[n].parent == LastChange(s.changes[..n - 1], key);
      }
    }
  }

  predicate StrictlyIncreasing(ids: seq<nat>) {
    forall i, j :: 0 <= i < j < |ids| ==> ids[i] < ids[j]
  }

  lemma {:induction false} IdsOfMembers(s: Store, n: nat, key: Key)
    requires Sound(s) && n <= |s.changes|
    ensures forall id :: id in IdsOf(s.changes[..n], key) <==> 1 <= id <= n && s.revisions[id].key == key
    ensures StrictlyIncreasing(IdsOf(s.changes[..n], key))
    decreases n
  {
    hide Linked, HeadsFold, OperationsUnique, ConflictsSound;
    if n > 0 {
      assert s.changes[..n][..n - 1] == s.changes[..n - 1];
      IdsOfMembers(s, n - 1, key);
      assert Describes(s.changes[n - 1], s.revisions[n]);
      var older := IdsOf(s.changes[..n - 1], key);
      assert forall i :: 0 <= i < |older| ==> older[i] in older;
    }
  }

  /** In every reachable store the heads are the fold of the change log, cursors count up, and following
      parents from a file's head visits every revision ever made of that file, in order and once. */
  lemma HistoryIsLinear(ops: seq<Operation>, key: Key)
    ensures var s := Run(EMPTY, ops);
            && HeadId(s, key) == LastChange(s.changes, key)
            && (forall i, j :: 0 <= i < j < |s.changes| ==> s.changes[i].cursor < s.changes[j].cursor)
            && (key in s.heads ==>
                  var chain := Lineage(s, s.heads[key].id);
                  StrictlyIncreasing(chain) && (forall id :: id in chain <==> id in s.revisions && s.revisions[id].key == key))
            && (key !in s.heads ==> forall id :: id in s.revisions ==> s.revisions[id].key != key)
  {
    EmptySound();
    RunSound(EMPTY, ops);
    var s := Run(EMPTY, ops);
    assert s.changes[..|s.changes|] == s.changes;
    LastIsLast(s, |s.changes|, key);
    IdsOfMembers(s, |s.changes|, key);
    hide Linked, OperationsUnique, ConflictsSound, Run, LastChange, IdsOf, Lineage;
    assert HeadId(s, key) == LastChange(s.changes, key);
    forall i | 0 <= i < |s.changes| ensures s.changes[i].cursor == i + 1 {
      assert Describes(s.changes[i], s.revisions[i + 1]);
    }
  }

  /** No two revisions share a parent, and a file has one first revision. */
  lemma HistoryNeverForks(ops: seq<Operation>, i: nat, j: nat)
    requires var s := Run(EMPTY, ops);
             i in s.revisions && j in s.revisions && s.revisions[i].parent == s.revisions[j].parent
    requires var s := Run(EMPTY, ops); s.revisions[i].parent.Some? || s.revisions[i].key == s.revisions[j].key
    ensures i == j
  {
    EmptySound();
    RunSound(EMPTY, ops);
    var s := Run(EMPTY, ops);
    if i < j {
      ForkImpossible(s, i, j);
    } else if j < i {
      ForkImpossible(s, j, i);
    }
  }

  lemma ParentIsLast(s: Store, id: nat)
    requires Sound(s) && id in s.revisions
    ensures 1 <= id <= |s.changes|
    ensures s.revisions[id].parent == LastChange(s.changes[..id - 1], s.revisions[id].key)
  {
    hide HeadsFold, OperationsUnique, ConflictsSound, LastChange;
  }

  lemma ForkImpossible(s: Store, i: nat, j: nat)
    requires Sound(s) && i in s.revisions && j in s.revisions && i < j
    requires s.revisions[i].parent == s.revisions[j].parent
    ensures s.revisions[i].parent.None? && s.revisions[i].key != s.revisions[j].key
  {
    hide Sound, LastChange, IdsOf, Lineage;
    ParentIsLast(s, i);
    ParentIsLast(s, j);
    LastIsLast(s, i - 1, s.revisions[i].key);
    LastIsLast(s, j - 1, s.revisions[j].key);
    if s.revisions[i].key == s.revisions[j].key {
      LastIsGreatest(s, j - 1, s.revisions[j].key, i);
    }
  }

  lemma {:induction false} LastIsGreatest(s: Store, n: nat, key: Key, id: nat)
    requires Sound(s) && n <= |s.changes| && 1 <= id <= n && s.revisions[id].key == key
    ensures LastChange(s.changes[..n], key).Some? && LastChange(s.changes[..n], key).value >= id
    decreases n
  {
    hide Linked, HeadsFold, OperationsUnique, ConflictsSound;
    assert s.changes[..n][..n - 1] == s.changes[..n - 1];
    assert Describes(s.changes[n - 1], s.revisions[n]);
    if s.changes[n - 1].key != key {
      LastIsGreatest(s, n - 1, key, id);
    }
  }

  // ---------------------------------------------------------------- heads over a run

  /** A file that has a head never loses it: the head stays as it was or is replaced by a later one. */
  lemma HeadMovesOn(s: Store, ops: seq<Operation>, key: Key)
    requires Sound(s) && key in s.heads
    ensures var t := Run(s, ops);
            && key in t.heads && s.heads[key].id <= t.heads[key].id
            && (s.heads[key].id == t.heads[key].id ==>
                  t.heads[key].content == s.heads[key].content && t.heads[key].deleted == s.heads[key].deleted)
  {
    hide Sound, Extends, Run;
    var t := Run(s, ops);
    var id := s.heads[key].id;
    RunSound(s, ops);
    HeadRevision(s, key);
    ExtendsKeeps(s, t, id);
    SettledLive(s.revisions[id], t.revisions[id]);
    HeadIsNewest(t, key, id);
    if t.heads[key].id == id { HeadRevision(t, key); }
  }

  lemma HeadIsNewest(t: Store, key: Key, id: nat)
    requires Sound(t) && id in t.revisions && t.revisions[id].key == key
    ensures key in t.heads && id <= t.heads[key].id
  {
    assert t.changes[..|t.changes|] == t.changes;
    LastIsGreatest(t, |t.changes|, key, id);
    hide LastChange;
    assert HeadId(t, key) == LastChange(t.changes, key);
  }
}
