/** The hosted revision store as a value: what `src/sync/memory-revision-store.ts` keeps, and what each
    of its operations makes of it. `RevisionStore` proves the mutable class against these functions. */
module RevisionModel {
  import opened Wrappers
  import opened Text
  import opened WritePolicy
  import Log

  // ---------------------------------------------------------------- records

  datatype Key = Key(brain: string, filename: string)

  /** A content hash, identified with what it hashes; `Tombstone` is the sentinel "deleted". */
  datatype Hash = Live(content: string) | Tombstone

  datatype Origin = LocalAgent | HostedMcp | Import | System

  datatype Actor = Actor(provider: string, id: string)

  /** One piece of write evidence; `retrieved` is the verification the server stamps on it. */
  datatype Evidence = Evidence(
    brain: string, reference: string, hosted: bool, revision: Option<nat>, sha: Option<Hash>, excerpt: string, retrieved: bool)

  datatype Request = Request(
    operationId: string, kind: string, reason: string, target: Option<string>, evidence: seq<Evidence>)

  /** `operationHash`: injective in the request, with the evidence's own verification left out. */
  datatype Fingerprint = Fingerprint(
    key: Key, base: Option<nat>, content: string, actor: Option<Actor>, request: Request)

  datatype Verification = Applied | Verified | VerificationFailed

  datatype Context =
    | Internal(reason: string)
    | External(request: Request, requestHash: Option<Fingerprint>, verification: Option<Verification>)

  datatype Revision = Revision(
    key: Key, id: nat, parent: Option<nat>, hash: Hash, origin: Origin, actor: Option<Actor>, cursor: nat,
    content: string, deleted: bool, renamedFrom: Option<string>, renamedTo: Option<string>, context: Option<Context>)

  datatype Change = Change(cursor: nat, key: Key, id: nat, hash: Hash, origin: Origin, actor: Option<Actor>)

  /** `localHash` and `remoteHash` are None for "<missing>" and null. */
  datatype ConflictInput = ConflictInput(
    key: Key, localBase: Option<nat>, remoteHead: Option<nat>, localHash: Option<Hash>, remoteHash: Option<Hash>,
    localOrigin: Origin, remoteOrigin: Option<Origin>, localActor: Option<Actor>, remoteActor: Option<Actor>)

  /** An open conflict has no resolution; a resolved one names the revision that resolved it. */
  datatype Conflict = Conflict(id: nat, input: ConflictInput, resolution: Option<nat>)

  datatype Store = Store(
    heads: map<Key, Revision>, revisions: map<nat, Revision>, changes: seq<Change>, conflicts: seq<Conflict>,
    revisionSeq: nat, cursorSeq: nat, conflictSeq: nat)

  const EMPTY := Store(map[], map[], [], [], 0, 0, 0)

  datatype Proposal = Proposal(
    key: Key, base: Option<nat>, content: string, origin: Origin, actor: Option<Actor>, context: Option<Context>)

  datatype Error =
    | PolicyUnavailable | GeneralIntakeRetired | KnowledgeRefused | BrainScopeRequired | SourceUnavailable
    | StaleWriteContext | OperationIdentityConflict | NotFound | NotOpen | StaleReview | CouldNotResolve

  datatype Outcome =
    | Accepted(revision: Revision)
    | Unchanged(revision: Revision)
    | Conflicted(conflict: Conflict, current: Option<Revision>)
    | Threw(error: Error)

  // ---------------------------------------------------------------- the deployment

  /** What the source computes with regular expressions: the active blocks of a task file, and the
      line and evidence-format rules of `assertKnowledgeWrite`. */
  datatype Rules = Rules(
    blocks: string -> seq<string>,
    wellFormed: (Policy, string, string, string, Request) -> bool)

  datatype Deployment = Unavailable | Configured(policy: Option<Policy>)

  /** Everything one call reads from outside the store, the receipt's text and date included. */
  datatype Env = Env(rules: Rules, deployment: Deployment, summary: string, date: string)

  /** `/^(?:.*\/)?LOG\.md$/i` */
  predicate IsLogPath(filename: string) {
    && |filename| >= 6
    && SameIgnoringCase(filename[|filename| - 6..], "LOG.md")
    && (|filename| == 6 || filename[|filename| - 7] == '/')
  }

  predicate QueueRefuses(rules: Rules, policy: Option<Policy>, filename: string, before: string, after: string) {
    && policy.Some?
    && policy.value.intake.Retired?
    && TaskPath(policy.value, filename)
    && before != after
    && SomeNewBlock(multiset(rules.blocks(before)), rules.blocks(after))
  }

  // ---------------------------------------------------------------- reading

  function Head(s: Store, key: Key): Option<Revision> {
    if key in s.heads then Some(s.heads[key]) else None
  }

  function HeadId(s: Store, key: Key): Option<nat> {
    if key in s.heads then Some(s.heads[key].id) else None
  }

  predicate IsLive(s: Store, key: Key) {
    key in s.heads && !s.heads[key].deleted
  }

  /** The text a policy compares an edit with: nothing for a missing or deleted file. */
  function LiveText(s: Store, key: Key): string {
    if IsLive(s, key) then s.heads[key].content else ""
  }

  predicate CarriesOperation(r: Revision, brain: string, operationId: string) {
    && r.key.brain == brain
    && r.context.Some?
    && r.context.value.External?
    && r.context.value.request.operationId == operationId
    && r.context.value.requestHash.Some?
  }

  /** `findWriteOperation`, from revision `from` on in the order they were made. */
  function FindOperation(s: Store, brain: string, operationId: string, from: nat): (r: Option<Revision>)
    ensures r.Some? ==> CarriesOperation(r.value, brain, operationId)
    ensures r.None? ==> forall id :: from <= id <= s.revisionSeq && id in s.revisions ==> !CarriesOperation(s.revisions[id], brain, operationId)
    decreases s.revisionSeq + 1 - from
  {
    if from > s.revisionSeq then None
    else if from in s.revisions && CarriesOperation(s.revisions[from], brain, operationId) then Some(s.revisions[from])
    else FindOperation(s, brain, operationId, from + 1)
  }

  // ---------------------------------------------------------------- admission

  function Strip(request: Request): Request {
    request.(evidence := seq(|request.evidence|, i requires 0 <= i < |request.evidence| => request.evidence[i].(retrieved := false)))
  }

  function OperationHash(input: Proposal, request: Request): Fingerprint {
    Fingerprint(input.key, input.base, input.content, input.actor, Strip(request))
  }

  /** One turn of `admitRevision`'s evidence loop. */
  function CheckEvidence(s: Store, brain: string, e: Evidence): Option<Error> {
    if !e.hosted then None
    else if !IsLive(s, Key(brain, e.reference)) then Some(SourceUnavailable)
    else
      var actual := s.heads[Key(brain, e.reference)];
      if (e.revision.Some? && e.revision.value != actual.id)
         || (e.sha.Some? && e.sha.value != Live(actual.content))
         || !Contains(actual.content, e.excerpt)
      then Some(StaleWriteContext)
      else None
  }

  predicate Contains(text: string, excerpt: string) {
    IndexOf(text, excerpt, 0).Some?
  }

  function CheckAllEvidence(s: Store, brain: string, evidence: seq<Evidence>): Option<Error> {
    if evidence == [] then None
    else if CheckEvidence(s, brain, evidence[0]).Some? then CheckEvidence(s, brain, evidence[0])
    else CheckAllEvidence(s, brain, evidence[1..])
  }

  function StampEvidence(evidence: seq<Evidence>): seq<Evidence> {
    seq(|evidence|, i requires 0 <= i < |evidence| => evidence[i].(retrieved := evidence[i].hosted))
  }

  datatype Admission =
    | Refused(error: Error)
    | Plain
    | UnderPolicy(context: Context)

  /** `admitRevision`: refuse, let pass, or let pass under a policy that also wants a receipt. */
  function Admit(s: Store, env: Env, input: Proposal, before: string): Admission {
    if env.deployment.Unavailable? then Refused(PolicyUnavailable)
    else
      var policy := env.deployment.policy;
      if QueueRefuses(env.rules, policy, input.key.filename, before, input.content) then Refused(GeneralIntakeRetired)
      else if policy.None? || policy.value.mode.Observe? || before == input.content then Plain
      else if input.context.Some? && input.context.value.Internal? then Plain
      else if IsLogPath(input.key.filename) || input.context.None? then Refused(KnowledgeRefused)
      else
        var request := input.context.value.request;
        if !env.rules.wellFormed(policy.value, input.key.filename, before, input.content, request) then Refused(KnowledgeRefused)
        else if request.target.Some? && !IsLive(s, Key(input.key.brain, request.target.value)) then Refused(BrainScopeRequired)
        else
          var bad := CheckAllEvidence(s, input.key.brain, request.evidence);
          if bad.Some? then Refused(bad.value)
          else UnderPolicy(External(
                             request.(evidence := StampEvidence(request.evidence)),
                             Some(OperationHash(input, request)),
                             Some(Applied)))
  }

  // ---------------------------------------------------------------- committing one revision

  /** The next revision of a file: a fresh id and cursor, and the current head as its parent. */
  function NextRevision(
    s: Store, key: Key, content: string, deleted: bool, origin: Origin, actor: Option<Actor>,
    renamedFrom: Option<string>, renamedTo: Option<string>, context: Option<Context>): Revision
  {
    Revision(key, s.revisionSeq + 1, HeadId(s, key), if deleted then Tombstone else Live(content), origin, actor,
             s.cursorSeq + 1, content, deleted, renamedFrom, renamedTo, context)
  }

  function Commit(s: Store, r: Revision): Store {
    s.(heads := s.heads[r.key := r],
       revisions := s.revisions[r.id := r],
       changes := s.changes + [Change(r.cursor, r.key, r.id, r.hash, r.origin, r.actor)],
       revisionSeq := s.revisionSeq + 1,
       cursorSeq := s.cursorSeq + 1)
  }

  // ---------------------------------------------------------------- conflicts

  /** The first open conflict with this very input. */
  function FindOpen(conflicts: seq<Conflict>, input: ConflictInput): Option<Conflict> {
    if conflicts == [] then None
    else if conflicts[0].resolution.None? && conflicts[0].input == input then Some(conflicts[0])
    else FindOpen(conflicts[1..], input)
  }

  /** `recordConflict` */
  function RecordConflict(s: Store, input: ConflictInput): (Store, Conflict) {
    match FindOpen(s.conflicts, input)
    case Some(existing) => (s, existing)
    case None =>
      var conflict := Conflict(s.conflictSeq + 1, input, None);
      (s.(conflicts := s.conflicts + [conflict], conflictSeq := s.conflictSeq + 1), conflict)
  }

  function Against(
    key: Key, base: Option<nat>, localHash: Hash, origin: Origin, actor: Option<Actor>, current: Option<Revision>): ConflictInput
  {
    match current
    case Some(r) => ConflictInput(key, base, Some(r.id), Some(localHash), Some(r.hash), origin, Some(r.origin), actor, r.actor)
    case None => ConflictInput(key, base, None, Some(localHash), None, origin, None, actor, None)
  }

  function Conflicting(s: Store, input: ConflictInput, current: Option<Revision>): (Store, Outcome) {
    var (t, conflict) := RecordConflict(s, input);
    (t, Conflicted(conflict, current))
  }

  // ---------------------------------------------------------------- proposals

  /** `applyRevision` up to the receipt, and whether a receipt is due. */
  function ApplyFile(s: Store, env: Env, input: Proposal): (r: (Store, Outcome, bool))
    ensures input.context.Some? && input.context.value.Internal? ==> !r.2
    ensures r.2 ==> r.1.Accepted?
    ensures r.1.Threw? ==> r.0 == s
  {
    var replay := if input.context.Some? && input.context.value.External?
                  then FindOperation(s, input.key.brain, input.context.value.request.operationId, 1) else None;
    if replay.Some? then
      if replay.value.context.Some? && replay.value.context.value.External?
         && replay.value.context.value.requestHash == Some(OperationHash(input, input.context.value.request))
      then (s, Unchanged(replay.value), false)
      else (s, Threw(OperationIdentityConflict), false)
    else
      var current := Head(s, input.key);
      var admission := Admit(s, env, input, LiveText(s, input.key));
      if admission.Refused? then (s, Threw(admission.error), false)
      else if current.Some? && !current.value.deleted && current.value.hash == Live(input.content) then
        (s, Unchanged(current.value), false)
      else if !(current.Some? && current.value.deleted && input.base.None?) && input.base != HeadId(s, input.key) then
        var (t, outcome) := Conflicting(
                              s, Against(input.key, input.base, Live(input.content), input.origin, input.actor, current), current);
        (t, outcome, false)
      else
        var context := if admission.UnderPolicy? then Some(admission.context) else input.context;
        var r := NextRevision(s, input.key, input.content, false, input.origin, input.actor, None, None, context);
        (Commit(s, r), Accepted(r), admission.UnderPolicy?)
  }

  function LogKey(brain: string): Key {
    Key(brain, "LOG.md")
  }

  function ReceiptEntry(env: Env, filename: string): string {
    Log.FormatLogEntry("UPDATE", [filename], env.summary, env.date)
  }

  /** The nested proposal that indexes an automatic change in LOG.md. */
  function Receipt(s: Store, env: Env, input: Proposal): Proposal {
    var log := LogKey(input.key.brain);
    var text := if log in s.heads && s.heads[log].content != "" then s.heads[log].content else Log.LOG_HEADER;
    Proposal(log, HeadId(s, log), Log.AppendLogEntry(text, ReceiptEntry(env, input.key.filename)), System, input.actor,
             Some(Internal("automatic change index")))
  }

  /** `proposeRevision`: an exception anywhere puts the whole store back. */
  function Propose(s: Store, env: Env, input: Proposal): (Store, Outcome) {
    var (t, outcome, receiptDue) := ApplyFile(s, env, input);
    if !receiptDue then (t, outcome)
    else
      var (u, receipt, _) := ApplyFile(t, env, Receipt(t, env, input));
      if receipt.Threw? then (s, receipt) else (u, outcome)
  }

  /** `proposeDeletion` */
  function Delete(s: Store, key: Key, base: Option<nat>, origin: Origin, actor: Option<Actor>): (Store, Outcome) {
    var current := Head(s, key);
    if current.Some? && current.value.deleted then (s, Unchanged(current.value))
    else if current.None? || base != Some(current.value.id) then
      Conflicting(s, Against(key, base, Tombstone, origin, actor, current), current)
    else
      var r := NextRevision(s, key, "", true, origin, actor, None, None, None);
      (Commit(s, r), Accepted(r))
  }

  /** `proposeRename` */
  function Rename(
    s: Store, env: Env, brain: string, from: string, to: string, base: Option<nat>, origin: Origin, actor: Option<Actor>): (Store, Outcome)
  {
    var fromHead, toHead := Head(s, Key(brain, from)), Head(s, Key(brain, to));
    if fromHead.None? || fromHead.value.deleted || base != Some(fromHead.value.id) then
      Conflicting(s, Against(Key(brain, from), base, Tombstone, origin, actor, fromHead), fromHead)
    else if toHead.Some? && !toHead.value.deleted then
      Conflicting(s, Against(Key(brain, to), None, fromHead.value.hash, origin, actor, toHead), toHead)
    else if env.deployment.Unavailable? then (s, Threw(PolicyUnavailable))
    else if QueueRefuses(env.rules, env.deployment.policy, to,
                         if toHead.Some? then toHead.value.content else "", fromHead.value.content) then
      (s, Threw(GeneralIntakeRetired))
    else
      var toRevision := NextRevision(s, Key(brain, to), fromHead.value.content, false, origin, actor, Some(from), None, None);
      var t := Commit(s, toRevision);
      var tombstone := NextRevision(t, Key(brain, from), "", true, origin, actor, None, Some(to), None);
      (Commit(t, tombstone), Accepted(toRevision))
  }

  /** The position of the conflict with this id. */
  function FindConflict(conflicts: seq<Conflict>, brain: string, id: nat): (r: Option<nat>)
    ensures r.Some? ==> r.value < |conflicts| && conflicts[r.value].id == id && conflicts[r.value].input.key.brain == brain
  {
    if conflicts == [] then None
    else if conflicts[0].id == id && conflicts[0].input.key.brain == brain then Some(0)
    else
      match FindConflict(conflicts[1..], brain, id)
      case Some(i) => Some(i + 1)
      case None => None
  }

  /** `resolveConflict` */
  function Resolve(
    s: Store, env: Env, brain: string, id: nat, expected: Option<nat>, content: string, actor: Option<Actor>): (Store, Outcome)
  {
    match FindConflict(s.conflicts, brain, id)
    case None => (s, Threw(NotFound))
    case Some(i) =>
      var conflict := s.conflicts[i];
      if conflict.resolution.Some? then (s, Threw(NotOpen))
      else if expected.None? || expected != HeadId(s, conflict.input.key) then (s, Threw(StaleReview))
      else
        var (t, outcome) := Propose(s, env, Proposal(conflict.input.key, HeadId(s, conflict.input.key), content, HostedMcp, actor,
                                                     Some(Internal("explicit reviewed conflict resolution"))));
        match outcome
        case Threw(_) => (s, outcome)
        case Conflicted(_, _) => (t, Threw(CouldNotResolve))
        case _ =>
          if i < |t.conflicts|
          then (t.(conflicts := t.conflicts[i := t.conflicts[i].(resolution := Some(outcome.revision.id))]), outcome)
          else (t, outcome)
  }

  /** `setWriteVerification`: the copy among the revisions only. */
  function SetVerification(s: Store, brain: string, id: nat, state: Verification): (Store, Option<Error>) {
    if id in s.revisions && s.revisions[id].key.brain == brain && s.revisions[id].context.Some? then
      var r := s.revisions[id];
      var context := match r.context.value
                     case Internal(reason) => r.context.value
                     case External(request, hash, _) => External(request, hash, Some(state));
      (s.(revisions := s.revisions[id := r.(context := Some(context))]), None)
    else (s, Some(NotFound))
  }

  // ---------------------------------------------------------------- runs

  datatype Operation =
    | DoPropose(env: Env, input: Proposal)
    | DoDelete(key: Key, base: Option<nat>, origin: Origin, actor: Option<Actor>)
    | DoRename(env: Env, brain: string, from: string, to: string, base: Option<nat>, origin: Origin, actor: Option<Actor>)
    | DoRecord(conflict: ConflictInput)
    | DoResolve(env: Env, brain: string, conflictId: nat, expected: Option<nat>, content: string, actor: Option<Actor>)
    | DoVerify(brain: string, id: nat, state: Verification)

  function Step(s: Store, op: Operation): Store {
    match op
    case DoPropose(env, input) => Propose(s, env, input).0
    case DoDelete(key, base, origin, actor) => Delete(s, key, base, origin, actor).0
    case DoRename(env, brain, from, to, base, origin, actor) => Rename(s, env, brain, from, to, base, origin, actor).0
    case DoRecord(conflict) => RecordConflict(s, conflict).0
    case DoResolve(env, brain, id, expected, content, actor) => Resolve(s, env, brain, id, expected, content, actor).0
    case DoVerify(brain, id, state) => SetVerification(s, brain, id, state).0
  }

  function Run(s: Store, ops: seq<Operation>): Store
    decreases |ops|
  {
    if ops == [] then s else Run(Step(s, ops[0]), ops[1..])
  }

  lemma {:induction false} RunConcat(s: Store, a: seq<Operation>, b: seq<Operation>)
    ensures Run(s, a + b) == Run(Run(s, a), b)
    decreases |a|
  {
    if a == [] {
      assert a + b == b;
    } else {
      assert (a + b)[1..] == a[1..] + b;
      RunConcat(Step(s, a[0]), a[1..], b);
    }
  }
}
