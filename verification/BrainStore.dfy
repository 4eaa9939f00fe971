/** The Brain's file operations over the hosted store: `src/services/revision-brain-store.ts`. Each makes several
    calls to the store; the store queues single calls only, so any run of other callers' operations may fall
    between two of them. */
module BrainStore {
  import opened Wrappers
  import opened Text
  import opened RevisionModel
  import opened RevisionHistory
  import opened RevisionTheorems
  import opened RevisionStore

  const LOADER_FILE := "00_loader.md"
  const NOW_FILE := "NOW.md"

  predicate Protected(filename: string) {
    filename == LOADER_FILE || filename == NOW_FILE
  }

  datatype Failure =
    | ProtectedFile | AccessDenied | FileMissing | NothingToRestore | NoPrior | NoLivePrior | ExpectedRevisionRequired
    | StaleExpectation | OldContentRequired | OldContentMissing | OldContentAmbiguous
    | RevisionConflict(current: Option<Revision>) | StoreThrew(error: Error)

  datatype Result = Done(revision: Revision) | Failed(failure: Failure)

  function Answer(outcome: Outcome): Result {
    match outcome
    case Accepted(r) => Done(r)
    case Unchanged(r) => Done(r)
    case Conflicted(_, current) => Failed(RevisionConflict(current))
    case Threw(error) => Failed(StoreThrew(error))
  }

  // ---------------------------------------------------------------- specifications

  /** Delete: the head read in `s`, the deletion proposed after `pause`. */
  function Deleted(s: Store, pause: seq<Operation>, key: Key, actor: Option<Actor>): (Store, Result) {
    if Protected(key.filename) then (s, Failed(ProtectedFile))
    else if !IsLive(s, key) then (s, Failed(FileMissing))
    else
      var (t, outcome) := Delete(Run(s, pause), key, HeadId(s, key), HostedMcp, actor);
      (t, Answer(outcome))
  }

  function RenameRefusal(s: Store, brain: string, from: string, to: string, structural: bool): Option<Failure> {
    if Protected(from) then Some(ProtectedFile)
    else if Protected(to) && !structural then Some(AccessDenied)
    else if !IsLive(s, Key(brain, from)) then Some(FileMissing)
    else None
  }

  /** Rename: the head read in `s`, the rename proposed after `pause`. */
  function Renamed(
    s: Store, pause: seq<Operation>, env: Env, brain: string, from: string, to: string, actor: Option<Actor>, structural: bool):
    (Store, Result)
  {
    var refusal := RenameRefusal(s, brain, from, to, structural);
    if refusal.Some? then (s, Failed(refusal.value))
    else
      var (t, outcome) := Rename(Run(s, pause), env, brain, from, to, HeadId(s, Key(brain, from)), HostedMcp, actor);
      (t, Answer(outcome))
  }

  /** `readRevision` */
  function ReadRevision(s: Store, brain: string, id: nat): Option<Revision> {
    if id in s.revisions && s.revisions[id].key.brain == brain then Some(s.revisions[id]) else None
  }

  function RestoreProposal(key: Key, content: string, actor: Option<Actor>): Proposal {
    Proposal(key, None, content, HostedMcp, actor, Some(Internal("explicit restore of retained revision")))
  }

  /** The pauses of a restore: before its two reads of revisions, and before its proposal. */
  datatype Pauses = Pauses(tombstone: seq<Operation>, prior: seq<Operation>, proposal: seq<Operation>)

  function All(pauses: Pauses): seq<Operation> {
    pauses.tombstone + pauses.prior + pauses.proposal
  }

  function Restored(s: Store, pauses: Pauses, env: Env, key: Key, actor: Option<Actor>, structural: bool): (Store, Result) {
    if Protected(key.filename) && !structural then (s, Failed(AccessDenied))
    else if key !in s.heads || !s.heads[key].deleted then (s, Failed(NothingToRestore))
    else
      var s1 := Run(s, pauses.tombstone);
      var tombstone := ReadRevision(s1, key.brain, s.heads[key].id);
      if tombstone.None? || tombstone.value.parent.None? then (s1, Failed(NoPrior))
      else
        var s2 := Run(s1, pauses.prior);
        var prior := ReadRevision(s2, key.brain, tombstone.value.parent.value);
        if prior.None? || prior.value.deleted then (s2, Failed(NoLivePrior))
        else
          var (t, outcome) := Propose(Run(s2, pauses.proposal), env, RestoreProposal(key, prior.value.content, actor));
          (t, Answer(outcome))
  }

  datatype Mode = Replace | Append | Patch(oldContent: string)

  /** `split(pattern).length - 1`: occurrences counted left to right, without overlap. */
  function Occurrences(s: string, pattern: string, from: nat): nat
    requires from <= |s| && pattern != ""
    decreases |s| - from
  {
    match IndexOf(s, pattern, from)
    case None => 0
    case Some(i) => 1 + Occurrences(s, pattern, i + |pattern|)
  }

  datatype Next = Next(content: string) | Refuse(failure: Failure)

  /** The text `writeFile` proposes, when the head it read first was `base` and `t` is the store it reads text from. */
  function NextContent(base: Option<nat>, t: Store, key: Key, content: string, mode: Mode): Next {
    match mode
    case Replace => Next(content)
    case Append =>
      if base.None? then Next(content)
      else if !IsLive(t, key) then Refuse(FileMissing)
      else
        var existing := t.heads[key].content;
        Next(existing + (if EndsWith(existing, "\n") || existing == "" then "" else "\n") + content)
    case Patch(oldContent) =>
      if oldContent == "" then Refuse(OldContentRequired)
      else if !IsLive(t, key) then Refuse(FileMissing)
      else
        var existing := t.heads[key].content;
        var n := Occurrences(existing, oldContent, 0);
        if n == 0 then Refuse(OldContentMissing)
        else if n > 1 then Refuse(OldContentAmbiguous)
        else
          var i := IndexOf(existing, oldContent, 0).value;
          Next(existing[..i] + content + existing[i + |oldContent|..])
  }

  /** What is checked on the head as first read. `expected` is None when the caller passed no
      `expectedRevisionId`, and Some(None) when it expects no file. */
  function WriteRefusal(s: Store, key: Key, mode: Mode, structural: bool, expected: Option<Option<nat>>): Option<Failure> {
    if Protected(key.filename) && !structural then Some(AccessDenied)
    else if mode.Replace? && key in s.heads && expected.None? then Some(ExpectedRevisionRequired)
    else if expected.Some? && HeadId(s, key) != expected.value then Some(StaleExpectation)
    else if mode == Patch("") then Some(OldContentRequired)
    else None
  }

  function WriteProposal(base: Option<nat>, key: Key, content: string, actor: Option<Actor>, context: Option<Context>): Proposal {
    Proposal(key, base, content, HostedMcp, actor, context)
  }

  /** `writeFile` up to its read-back verification: the head is read in `s`, the text after `reading`, and the
      revision proposed after `proposing` more. */
  function Written(
    s: Store, reading: seq<Operation>, proposing: seq<Operation>, env: Env, key: Key, content: string, mode: Mode,
    actor: Option<Actor>, structural: bool, expected: Option<Option<nat>>, context: Option<Context>): (Store, Result)
  {
    var refusal := WriteRefusal(s, key, mode, structural, expected);
    if refusal.Some? then (s, Failed(refusal.value))
    else
      var t := Run(s, reading);
      match NextContent(HeadId(s, key), t, key, content, mode)
      case Refuse(failure) => (t, Failed(failure))
      case Next(next) =>
        var (v, outcome) := Propose(Run(t, proposing), env, WriteProposal(HeadId(s, key), key, next, actor, context));
        (v, Answer(outcome))
  }

  // ---------------------------------------------------------------- the operations

  /** What others do while an operation waits for its next call is an argument of the operation. */
  class RevisionBrainStore {
    const store: FileRevisionStore

    constructor (store: FileRevisionStore)
      ensures this.store == store
    {
      this.store := store;
    }

    method DeleteFile(key: Key, actor: Option<Actor>, pause: seq<Operation>) returns (result: Result)
      modifies store
      ensures (store.file, result) == Deleted(old(store.file), pause, key, actor)
    {
      hide Delete, Run;
      if Protected(key.filename) { return Failed(ProtectedFile); }
      var current := Head(store.file, key);
      if current.None? || current.value.deleted { return Failed(FileMissing); }
      store.Await(pause);
      var outcome := store.ProposeDeletion(key, Some(current.value.id), HostedMcp, actor);
      return Answer(outcome);
    }

    method RenameFile(
      env: Env, brain: string, from: string, to: string, actor: Option<Actor>, structural: bool, pause: seq<Operation>)
      returns (result: Result)
      modifies store
      ensures (store.file, result) == Renamed(old(store.file), pause, env, brain, from, to, actor, structural)
    {
      hide Rename, Run;
      if Protected(from) { return Failed(ProtectedFile); }
      if Protected(to) && !structural { return Failed(AccessDenied); }
      var current := Head(store.file, Key(brain, from));
      if current.None? || current.value.deleted { return Failed(FileMissing); }
      store.Await(pause);
      var outcome := store.ProposeRename(env, brain, from, to, Some(current.value.id), HostedMcp, actor);
      return Answer(outcome);
    }

    method RestoreFile(env: Env, key: Key, actor: Option<Actor>, structural: bool, pauses: Pauses) returns (result: Result)
      modifies store
      ensures (store.file, result) == Restored(old(store.file), pauses, env, key, actor, structural)
    {
      hide Propose, Run;
      if Protected(key.filename) && !structural { return Failed(AccessDenied); }
      var current := Head(store.file, key);
      if current.None? || !current.value.deleted { return Failed(NothingToRestore); }
      store.Await(pauses.tombstone);
      var tombstone := ReadRevision(store.file, key.brain, current.value.id);
      if tombstone.None? || tombstone.value.parent.None? { return Failed(NoPrior); }
      store.Await(pauses.prior);
      var prior := ReadRevision(store.file, key.brain, tombstone.value.parent.value);
      if prior.None? || prior.value.deleted { return Failed(NoLivePrior); }
      store.Await(pauses.proposal);
      var outcome := store.ProposeRevision(env, RestoreProposal(key, prior.value.content, actor));
      return Answer(outcome);
    }

    method WriteFile(
      env: Env, key: Key, content: string, mode: Mode, actor: Option<Actor>, structural: bool,
      expected: Option<Option<nat>>, context: Option<Context>, reading: seq<Operation>, proposing: seq<Operation>)
      returns (result: Result)
      modifies store
      ensures (store.file, result) ==
              Written(old(store.file), reading, proposing, env, key, content, mode, actor, structural, expected, context)
    {
      hide Propose, NextContent, Run;
      if Protected(key.filename) && !structural { return Failed(AccessDenied); }
      var current := HeadId(store.file, key);
      if mode.Replace? && current.Some? && expected.None? { return Failed(ExpectedRevisionRequired); }
      if expected.Some? && current != expected.value { return Failed(StaleExpectation); }
      if mode == Patch("") { return Failed(OldContentRequired); }
      store.Await(reading);
      var next := NextContent(current, store.file, key, content, mode);
      if next.Refuse? { return Failed(next.failure); }
      store.Await(proposing);
      var outcome := store.ProposeRevision(env, WriteProposal(current, key, next.content, actor, context));
      return Answer(outcome);
    }
  }

  // ---------------------------------------------------------------- writes

  /** The two structural files are not deleted or renamed by anybody, and written only with structural rights; a
      replacement must say which revision it was made from; no write is made on another head than was reviewed; and a
      patch says what it replaces. */
  lemma RefusesExactly(
    s: Store, pause: seq<Operation>, env: Env, key: Key, to: string, mode: Mode, structural: bool, expected: Option<Option<nat>>,
    actor: Option<Actor>)
    ensures var head := if key in s.heads then Some(s.heads[key].id) else None;
            var live := key in s.heads && !s.heads[key].deleted;
            var fixed := key.filename == "00_loader.md" || key.filename == "NOW.md";
            && WriteRefusal(s, key, mode, structural, expected) ==
               (if fixed && !structural then Some(AccessDenied)
                else if mode == Replace && head.Some? && expected.None? then Some(ExpectedRevisionRequired)
                else if expected.Some? && expected.value != head then Some(StaleExpectation)
                else if mode == Patch("") then Some(OldContentRequired)
                else None)
            && (fixed ==> Deleted(s, pause, key, actor) == (s, Failed(ProtectedFile)))
            && (!fixed && !live ==> Deleted(s, pause, key, actor) == (s, Failed(FileMissing)))
            && RenameRefusal(s, key.brain, key.filename, to, structural) ==
               (if fixed then Some(ProtectedFile)
                else if (to == "00_loader.md" || to == "NOW.md") && !structural then Some(AccessDenied)
                else if !live then Some(FileMissing)
                else None)
            && (fixed && !structural ==> Restored(s, Pauses([], [], []), env, key, actor, structural) == (s, Failed(AccessDenied)))
            && ((fixed ==> structural) && !(key in s.heads && s.heads[key].deleted) ==>
                  Restored(s, Pauses([], [], []), env, key, actor, structural) == (s, Failed(NothingToRestore)))
  {
    hide Run, Delete, Propose;
  }

  /** An appended text starts on a line of its own, after all there is. */
  lemma AppendsExactly(base: nat, t: Store, key: Key, content: string)
    requires key in t.heads && !t.heads[key].deleted
    ensures var text := t.heads[key].content;
            NextContent(Some(base), t, key, content, Append)
            == Next(if text == "" || text[|text| - 1] == '\n' then text + content else text + "\n" + content)
  {
    var text := t.heads[key].content;
    if text != "" { assert text[|text| - 1..] == [text[|text| - 1]]; }
    assert text + "" == text;
  }

  /** A deleted head: the one place where a proposal on no file is accepted. */
  predicate Buried(s: Store, key: Key) {
    key in s.heads && s.heads[key].deleted
  }

  /** A proposal refused by its policy before its base is looked at. */
  predicate Inadmissible(s: Store, env: Env, input: Proposal) {
    Admit(s, env, input, LiveText(s, input.key)).Refused?
  }

  /** Whatever others do while a write waits, it follows on the head it read, except that a write that read no
      file may follow on a tombstone; when it follows on the head it read, its text was made from that head's.
      A head that has moved otherwise makes it a conflict, which changes no file. */
  lemma WriteNeverOverwritesUnseen(
    s: Store, reading: seq<Operation>, proposing: seq<Operation>, env: Env, key: Key, content: string, mode: Mode,
    actor: Option<Actor>, structural: bool, expected: Option<Option<nat>>, context: Option<Context>)
    requires Sound(s) && WriteRefusal(s, key, mode, structural, expected).None?
    requires NextContent(HeadId(s, key), Run(s, reading), key, content, mode).Next?
    ensures var base := HeadId(s, key);
            var u := Run(Run(s, reading), proposing);
            var input := WriteProposal(base, key, NextContent(base, Run(s, reading), key, content, mode).content, actor, context);
            var (v, outcome) := Propose(u, env, input);
            && Written(s, reading, proposing, env, key, content, mode, actor, structural, expected, context) == (v, Answer(outcome))
            && (expected.Some? ==> base == expected.value)
            && (outcome.Accepted? ==>
                  && outcome.revision.parent == HeadId(u, key) && outcome.revision.content == input.content
                  && (outcome.revision.parent == base <==> !(base.None? && Buried(u, key)))
                  && (outcome.revision.parent == base ==>
                        LiveText(u, key) == LiveText(s, key) && NextContent(base, u, key, content, mode) == Next(input.content)))
            && (outcome.Conflicted? <==>
                  && !Replays(u, input) && !Inadmissible(u, env, input) && !(IsLive(u, key) && LiveText(u, key) == input.content)
                  && base != HeadId(u, key) && !(base.None? && Buried(u, key)))
            && (!outcome.Accepted? ==> v.heads == u.heads)
  {
    var base := HeadId(s, key);
    var t := Run(s, reading);
    var u := Run(t, proposing);
    var input := WriteProposal(base, key, NextContent(base, t, key, content, mode).content, actor, context);
    WriteSubmits(s, reading, proposing, env, key, content, mode, actor, structural, expected, context);
    RunSound(s, reading);
    RunSound(t, proposing);
    hide *;
    ProposalOutcome(u, env, input);
    if base == HeadId(u, key) {
      UnmovedThroughout(s, reading, proposing, key);
      NextFromHead(base, t, u, key, content, mode);
    }
  }

  lemma WriteSubmits(
    s: Store, reading: seq<Operation>, proposing: seq<Operation>, env: Env, key: Key, content: string, mode: Mode,
    actor: Option<Actor>, structural: bool, expected: Option<Option<nat>>, context: Option<Context>)
    requires WriteRefusal(s, key, mode, structural, expected).None?
    requires NextContent(HeadId(s, key), Run(s, reading), key, content, mode).Next?
    ensures var next := NextContent(HeadId(s, key), Run(s, reading), key, content, mode).content;
            var (v, outcome) := Propose(Run(Run(s, reading), proposing), env, WriteProposal(HeadId(s, key), key, next, actor, context));
            Written(s, reading, proposing, env, key, content, mode, actor, structural, expected, context) == (v, Answer(outcome))
    ensures expected.Some? ==> HeadId(s, key) == expected.value
  {
    hide Propose, Run, NextContent;
  }

  /** How a proposal ends depends on its base in this way alone. */
  lemma ProposalOutcome(u: Store, env: Env, input: Proposal)
    requires Sound(u)
    ensures var (v, outcome) := Propose(u, env, input);
            && (outcome.Accepted? ==>
                  && outcome.revision.parent == HeadId(u, input.key) && outcome.revision.content == input.content
                  && (input.base == HeadId(u, input.key) || (input.base.None? && Buried(u, input.key))))
            && (outcome.Conflicted? <==>
                  && !Replays(u, input) && !Inadmissible(u, env, input)
                  && !(IsLive(u, input.key) && LiveText(u, input.key) == input.content)
                  && input.base != HeadId(u, input.key) && !(input.base.None? && Buried(u, input.key)))
            && (!outcome.Accepted? ==> v.heads == u.heads)
  {
    if input.key in u.heads { HeadRevision(u, input.key); }
    ApplyCases(u, env, input);
    ConflictCase(u, env, input);
    hide Sound, Admit, FindOperation, OperationHash, ApplyFile, Receipt, Commit, RecordConflict;
    var (t, outcome, due) := ApplyFile(u, env, input);
    if due {
      ReceiptIsInternal(t, env, input);
      OnHeadNeverConflicts(t, env, Receipt(t, env, input));
      ApplyCases(t, env, Receipt(t, env, input));
    }
    if outcome.Conflicted? {
      RecordKeepsHeads(u, Against(input.key, input.base, Live(input.content), input.origin, input.actor, Head(u, input.key)));
    }
  }

  lemma ConflictCase(u: Store, env: Env, input: Proposal)
    ensures ApplyFile(u, env, input).1.Conflicted? <==>
              && !Replays(u, input) && !Inadmissible(u, env, input)
              && !(IsLive(u, input.key) && u.heads[input.key].hash == Live(input.content))
              && input.base != HeadId(u, input.key) && !(input.base.None? && Buried(u, input.key))
  {
    hide Admit, FindOperation, OperationHash, RecordConflict, Commit, LiveText, Against;
  }

  lemma RecordKeepsHeads(s: Store, input: ConflictInput)
    ensures RecordConflict(s, input).0.heads == s.heads
  {
  }

  /** A head that is the same before and after was the same all along. */
  lemma UnmovedThroughout(s: Store, first: seq<Operation>, second: seq<Operation>, key: Key)
    requires Sound(s) && HeadId(Run(Run(s, first), second), key) == HeadId(s, key)
    ensures var t := Run(s, first);
            var u := Run(t, second);
            && HeadId(t, key) == HeadId(s, key)
            && IsLive(s, key) == IsLive(t, key) == IsLive(u, key) && LiveText(s, key) == LiveText(t, key) == LiveText(u, key)
  {
    hide Sound, Extends, Run;
    var t := Run(s, first);
    RunSound(s, first);
    if key in s.heads { HeadMovesOn(s, first, key); }
    if key in t.heads { HeadMovesOn(t, second, key); }
  }

  lemma NextFromHead(base: Option<nat>, t: Store, u: Store, key: Key, content: string, mode: Mode)
    requires IsLive(t, key) == IsLive(u, key) && LiveText(t, key) == LiveText(u, key)
    ensures NextContent(base, t, key, content, mode) == NextContent(base, u, key, content, mode)
  {
    hide Occurrences;
  }

  const DRAFT := Key("brain", "draft.md")

  const FREE := Env(Rules(_ => [], (_, _, _, _, _) => true), Configured(None), "", "")

  function Put(base: Option<nat>, content: string): Operation {
    DoPropose(FREE, Proposal(DRAFT, base, content, HostedMcp, None, None))
  }

  function Bury(base: nat): Operation {
    DoDelete(DRAFT, Some(base), HostedMcp, None)
  }

  /** A write that expected no file: after somebody else's creation alone it conflicts, and after a creation and
      a deletion it is accepted over the tombstone. */
  lemma ExpectedNothing()
    ensures var (v, result) := Written(EMPTY, [], [Put(None, "theirs")], FREE, DRAFT, "mine", Replace, None, true, Some(None), None);
            result.Failed? && result.failure.RevisionConflict? && LiveText(v, DRAFT) == "theirs"
    ensures var (v, result) :=
              Written(EMPTY, [], [Put(None, "theirs"), Bury(1)], FREE, DRAFT, "mine", Replace, None, true, Some(None), None);
            result.Done? && result.revision.parent == Some(2) && LiveText(v, DRAFT) == "mine"
  {
    assert Run(EMPTY, []) == EMPTY;
    TwoSteps(EMPTY, Put(None, "theirs"), Bury(1));
    assert Run(EMPTY, [Put(None, "theirs")]) == Step(EMPTY, Put(None, "theirs")) by { assert [Put(None, "theirs")][1..] == []; }
  }

  lemma TwoSteps(s: Store, a: Operation, b: Operation)
    ensures Run(s, [a, b]) == Step(Step(s, a), b)
  {
    assert [a, b][1..] == [b] && [b][1..] == [];
    assert Run(Step(s, a), [b]) == Step(Step(s, a), b);
  }

  // ---------------------------------------------------------------- deletions and renames

  /** A deletion takes exactly the head it read; once that has moved it changes no file, and succeeds only when
      somebody else has deleted the file. */
  lemma DeleteTakesOnlySeen(s: Store, pause: seq<Operation>, key: Key, actor: Option<Actor>)
    requires Sound(s) && IsLive(s, key) && !Protected(key.filename)
    ensures var u := Run(s, pause);
            var (v, result) := Deleted(s, pause, key, actor);
            if HeadId(u, key) == HeadId(s, key) then
              && result == Done(v.heads[key]) && Buried(v, key) && v.heads[key].parent == HeadId(s, key)
              && LiveText(u, key) == LiveText(s, key)
              && v.heads == u.heads[key := v.heads[key]]
            else v.heads == u.heads && (result.Done? <==> Buried(u, key))
  {
    hide Sound, Extends, Run, Delete;
    RunSound(s, pause);
    HeadMovesOn(s, pause, key);
    DeletionOutcome(Run(s, pause), key, s.heads[key].id, actor);
  }

  lemma DeletionOutcome(u: Store, key: Key, base: nat, actor: Option<Actor>)
    ensures var (v, outcome) := Delete(u, key, Some(base), HostedMcp, actor);
            if IsLive(u, key) && HeadId(u, key) == Some(base) then
              && outcome == Accepted(v.heads[key]) && Buried(v, key) && v.heads[key].parent == Some(base)
              && v.heads == u.heads[key := v.heads[key]]
            else v.heads == u.heads && (outcome.Unchanged? <==> Buried(u, key)) && !outcome.Accepted? && !outcome.Threw?
  {
    hide RecordConflict;
    RecordKeepsHeads(u, Against(key, Some(base), Tombstone, HostedMcp, actor, Head(u, key)));
  }

  function LiveKeys(s: Store): set<Key> {
    set key | key in s.heads && !s.heads[key].deleted
  }

  /** An accepted rename moves one file's text to a name that was free, and touches no other file. */
  lemma RenameConserves(s: Store, env: Env, brain: string, from: string, to: string, base: Option<nat>, origin: Origin, actor: Option<Actor>)
    requires Rename(s, env, brain, from, to, base, origin, actor).1.Accepted?
    ensures var t := Rename(s, env, brain, from, to, base, origin, actor).0;
            var a, b := Key(brain, from), Key(brain, to);
            && IsLive(s, a) && !IsLive(s, b) && !IsLive(t, a) && IsLive(t, b)
            && t.heads[b].content == s.heads[a].content && t.heads[b].renamedFrom == Some(from) && t.heads[a].renamedTo == Some(to)
            && (forall key :: key != a && key != b ==> Head(t, key) == Head(s, key))
            && LiveKeys(t) == LiveKeys(s) - {a} + {b}
            && |LiveKeys(t)| == |LiveKeys(s)|
  {
    hide QueueRefuses;
    var t := Rename(s, env, brain, from, to, base, origin, actor).0;
    var a, b := Key(brain, from), Key(brain, to);
    assert a != b;
    assert LiveKeys(t) == LiveKeys(s) - {a} + {b};
  }

  /** A rename moves the very text it read, exactly when the old name has not moved since, the new one is free and
      the queue takes the text as new intake; otherwise it changes no file. */
  lemma RenameMovesOnlySeen(
    s: Store, pause: seq<Operation>, env: Env, brain: string, from: string, to: string, actor: Option<Actor>, structural: bool)
    requires Sound(s) && RenameRefusal(s, brain, from, to, structural).None?
    ensures var a, b := Key(brain, from), Key(brain, to);
            var u := Run(s, pause);
            var (v, result) := Renamed(s, pause, env, brain, from, to, actor, structural);
            && (result.Done? <==>
                  && HeadId(u, a) == HeadId(s, a) && !IsLive(u, b) && env.deployment.Configured?
                  && !QueueRefuses(env.rules, env.deployment.policy, to, "", LiveText(s, a)))
            && (result.Done? ==> Buried(v, a) && IsLive(v, b) && LiveText(v, b) == LiveText(s, a) && LiveKeys(v) == LiveKeys(u) - {a} + {b})
            && (!result.Done? ==> v.heads == u.heads)
  {
    hide Sound, Extends, Run, Rename, QueueRefuses, LiveKeys;
    var a, b := Key(brain, from), Key(brain, to);
    var u := Run(s, pause);
    RunSound(s, pause);
    HeadMovesOn(s, pause, a);
    if b in u.heads { HeadRevisionLive(u, b); }
    RenamingOutcome(u, env, brain, from, to, s.heads[a].id, actor);
  }

  lemma RenamingOutcome(u: Store, env: Env, brain: string, from: string, to: string, base: nat, actor: Option<Actor>)
    requires Key(brain, to) in u.heads && u.heads[Key(brain, to)].deleted ==> u.heads[Key(brain, to)].content == ""
    ensures var a, b := Key(brain, from), Key(brain, to);
            var (v, outcome) := Rename(u, env, brain, from, to, Some(base), HostedMcp, actor);
            && (outcome.Accepted? <==>
                  && IsLive(u, a) && HeadId(u, a) == Some(base) && !IsLive(u, b) && env.deployment.Configured?
                  && !QueueRefuses(env.rules, env.deployment.policy, to, "", LiveText(u, a)))
            && (outcome.Accepted? ==> Buried(v, a) && IsLive(v, b) && LiveText(v, b) == LiveText(u, a) && LiveKeys(v) == LiveKeys(u) - {a} + {b})
            && (!outcome.Accepted? ==> v.heads == u.heads && !outcome.Unchanged?)
  {
    var a, b := Key(brain, from), Key(brain, to);
    if Rename(u, env, brain, from, to, Some(base), HostedMcp, actor).1.Accepted? {
      RenameConserves(u, env, brain, from, to, Some(base), HostedMcp, actor);
      hide QueueRefuses, RecordConflict, LiveKeys;
    } else {
      RenameRefused(u, env, brain, from, to, base, actor);
      hide QueueRefuses, RecordConflict, LiveKeys;
    }
  }

  lemma RenameRefused(u: Store, env: Env, brain: string, from: string, to: string, base: nat, actor: Option<Actor>)
    requires !Rename(u, env, brain, from, to, Some(base), HostedMcp, actor).1.Accepted?
    ensures Rename(u, env, brain, from, to, Some(base), HostedMcp, actor).0.heads == u.heads
    ensures !Rename(u, env, brain, from, to, Some(base), HostedMcp, actor).1.Unchanged?
  {
    hide QueueRefuses, RecordConflict;
    var a, b := Key(brain, from), Key(brain, to);
    RecordKeepsHeads(u, Against(a, Some(base), Tombstone, HostedMcp, actor, Head(u, a)));
    if a in u.heads { RecordKeepsHeads(u, Against(b, None, u.heads[a].hash, HostedMcp, actor, Head(u, b))); }
  }

  // ---------------------------------------------------------------- restores

  /** What a tombstone in `s` buried: the live revision it follows on. */
  lemma BuriedRevision(s: Store, key: Key)
    requires Sound(s) && Buried(s, key)
    ensures var parent := s.revisions[s.heads[key].id].parent;
            && s.heads[key].id in s.revisions && s.revisions[s.heads[key].id].key == key && s.heads[key].parent == parent
            && parent.Some? && ResolutionLive(s, key, parent.value)
  {
    HeadRevision(s, key);
    hide Sound;
  }

  function BuriedId(s: Store, key: Key): nat
    requires Sound(s) && Buried(s, key)
  {
    BuriedRevision(s, key);
    s.revisions[s.heads[key].id].parent.value
  }

  function BuriedText(s: Store, key: Key): string
    requires Sound(s) && Buried(s, key)
  {
    BuriedRevision(s, key);
    s.revisions[BuriedId(s, key)].content
  }

  /** Whatever others do while a restore waits: it proposes the text under the tombstone it read first, succeeds
      exactly when the policy takes that text and the file is still deleted or already holds it, and otherwise
      changes no file. That text is what the file last held if and only if the tombstone is still the head. */
  lemma RestoreGivesBack(s: Store, pauses: Pauses, env: Env, key: Key, actor: Option<Actor>, structural: bool)
    requires Sound(s) && Buried(s, key) && (Protected(key.filename) ==> structural)
    ensures Sound(Run(s, All(pauses)))
    ensures var u := Run(s, All(pauses));
            var text := BuriedText(s, key);
            var (v, result) := Restored(s, pauses, env, key, actor, structural);
            && (result.Done? <==>
                  && env.deployment.Configured? && (Buried(u, key) || LiveText(u, key) == text)
                  && !QueueRefuses(env.rules, env.deployment.policy, key.filename, LiveText(u, key), text))
            && (result.Done? ==> IsLive(v, key) && LiveText(v, key) == text)
            && (!result.Done? ==> v.heads == u.heads)
            && (Buried(u, key) ==> (BuriedId(u, key) == BuriedId(s, key) <==> HeadId(u, key) == HeadId(s, key)))
            && (HeadId(u, key) == HeadId(s, key) ==> Buried(u, key) && BuriedText(u, key) == text)
  {
    hide Sound, Extends, Run, Propose, QueueRefuses, Restored, RestoreProposal, All, BuriedText, BuriedId;
    var u := Run(s, All(pauses));
    RunSound(s, All(pauses));
    HeadMovesOn(s, All(pauses), key);
    RestoreReachesPrior(s, pauses, env, key, actor, structural);
    RestoreSubmits(u, env, key, BuriedText(s, key), actor);
    if Buried(u, key) { BuriedOnce(s, u, key); }
  }

  lemma RestoreReachesPrior(s: Store, pauses: Pauses, env: Env, key: Key, actor: Option<Actor>, structural: bool)
    requires Sound(s) && Buried(s, key) && (Protected(key.filename) ==> structural)
    ensures var (v, outcome) := Propose(Run(s, All(pauses)), env, RestoreProposal(key, BuriedText(s, key), actor));
            Restored(s, pauses, env, key, actor, structural) == (v, Answer(outcome))
  {
    hide Sound, Extends, Propose, RestoreProposal, Run, ReadRevision;
    var s1 := Run(s, pauses.tombstone);
    var s2 := Run(s1, pauses.prior);
    BuriedRevision(s, key);
    RunSound(s, pauses.tombstone);
    RunConcat(s, pauses.tombstone, pauses.prior);
    RunConcat(s, pauses.tombstone + pauses.prior, pauses.proposal);
    StillRecorded(s, pauses.tombstone, key, s.heads[key].id);
    StillRecorded(s, pauses.tombstone, key, BuriedId(s, key));
    StillRecorded(s1, pauses.prior, key, BuriedId(s, key));
  }

  /** A recorded revision reads the same for ever. */
  lemma StillRecorded(s: Store, ops: seq<Operation>, key: Key, id: nat)
    requires Sound(s) && id in s.revisions && s.revisions[id].key == key
    ensures var t := Run(s, ops);
            && ReadRevision(s, key.brain, id) == Some(s.revisions[id])
            && id in t.revisions && t.revisions[id].key == key && ReadRevision(t, key.brain, id) == Some(t.revisions[id])
            && t.revisions[id].parent == s.revisions[id].parent && t.revisions[id].deleted == s.revisions[id].deleted
            && t.revisions[id].content == s.revisions[id].content
  {
    hide Sound, Extends, Run;
    RunSound(s, ops);
    ExtendsKeeps(s, Run(s, ops), id);
    SettledLive(s.revisions[id], Run(s, ops).revisions[id]);
  }

  lemma RestoreSubmits(u: Store, env: Env, key: Key, text: string, actor: Option<Actor>)
    requires Sound(u) && key in u.heads
    ensures var (v, outcome) := Propose(u, env, RestoreProposal(key, text, actor));
            if && env.deployment.Configured? && (Buried(u, key) || LiveText(u, key) == text)
               && !QueueRefuses(env.rules, env.deployment.policy, key.filename, LiveText(u, key), text)
            then (outcome.Accepted? || outcome.Unchanged?) && IsLive(v, key) && LiveText(v, key) == text
            else (outcome.Threw? || outcome.Conflicted?) && v.heads == u.heads
  {
    hide Sound, QueueRefuses, FindOperation, RecordConflict, Admit;
    HeadRevisionLive(u, key);
    AdmitsRestore(u, env, key, text, actor, LiveText(u, key));
    RecordKeepsHeads(u, Against(key, None, Live(text), HostedMcp, actor, Head(u, key)));
  }

  lemma AdmitsRestore(u: Store, env: Env, key: Key, text: string, actor: Option<Actor>, before: string)
    ensures Admit(u, env, RestoreProposal(key, text, actor), before) ==
            if env.deployment.Unavailable? then Admission.Refused(PolicyUnavailable)
            else if QueueRefuses(env.rules, env.deployment.policy, key.filename, before, text) then Admission.Refused(GeneralIntakeRetired)
            else Plain
  {
    hide QueueRefuses, CheckAllEvidence, IsLogPath;
  }

  /** A tombstone's parent has no other child, so two tombstones bury two revisions. */
  lemma BuriedOnce(s: Store, u: Store, key: Key)
    requires Sound(s) && Sound(u) && Extends(s, u) && Buried(s, key) && Buried(u, key)
    ensures BuriedId(u, key) == BuriedId(s, key) <==> HeadId(u, key) == HeadId(s, key)
    ensures HeadId(u, key) == HeadId(s, key) ==> BuriedText(u, key) == BuriedText(s, key)
  {
    hide Sound, Extends;
    BuriedRevision(s, key);
    BuriedRevision(u, key);
    var i, j := s.heads[key].id, u.heads[key].id;
    ExtendsKeeps(s, u, i);
    SettledLive(s.revisions[i], u.revisions[i]);
    ExtendsKeeps(s, u, BuriedId(s, key));
    SettledLive(s.revisions[BuriedId(s, key)], u.revisions[BuriedId(s, key)]);
    if BuriedId(u, key) == BuriedId(s, key) {
      if i < j { ForkImpossible(u, i, j); }
      if j < i { ForkImpossible(u, j, i); }
    }
  }

  /** Every tombstone of a reachable store can be restored under every policy whose queue takes the text back. */
  lemma EveryTombstoneRestorable(ops: seq<Operation>, env: Env, key: Key, actor: Option<Actor>)
    requires Buried(Run(EMPTY, ops), key)
    ensures var s := Run(EMPTY, ops);
            && Sound(s) && s.revisions[s.heads[key].id].parent == Some(BuriedId(s, key)) && ResolutionLive(s, key, BuriedId(s, key))
            && var (v, result) := Restored(s, Pauses([], [], []), env, key, actor, true);
            && (result.Done? <==>
                  env.deployment.Configured?
                  && !QueueRefuses(env.rules, env.deployment.policy, key.filename, "", s.revisions[BuriedId(s, key)].content))
            && (result.Done? ==> IsLive(v, key) && LiveText(v, key) == s.revisions[BuriedId(s, key)].content)
  {
    EmptySound();
    RunSound(EMPTY, ops);
    var s := Run(EMPTY, ops);
    hide Sound, Extends, QueueRefuses, Restored;
    BuriedRevision(s, key);
    AllLast([]);
    RestoreGivesBack(s, Pauses([], [], []), env, key, actor, true);
    assert Run(s, []) == s;
    hide Run, All;
  }

  /** A file deleted as it was read and then left alone is restored to its exact text, whatever else goes on, unless
      the policy cannot be read or refuses the text as new intake. */
  lemma DeleteThenRestore(
    s: Store, pause: seq<Operation>, later: seq<Operation>, pauses: Pauses, env: Env, key: Key, actor: Option<Actor>)
    requires Sound(s) && IsLive(s, key) && !Protected(key.filename) && HeadId(Run(s, pause), key) == HeadId(s, key)
    requires var t := Deleted(s, pause, key, actor).0;
             HeadId(Run(Run(t, later), All(pauses)), key) == HeadId(t, key)
    ensures var (t, deleted) := Deleted(s, pause, key, actor);
            var (v, restored) := Restored(Run(t, later), pauses, env, key, actor, false);
            && deleted.Done? && !IsLive(t, key)
            && (restored.Done? <==>
                  env.deployment.Configured? && !QueueRefuses(env.rules, env.deployment.policy, key.filename, "", LiveText(s, key)))
            && (restored.Done? ==> IsLive(v, key) && LiveText(v, key) == LiveText(s, key))
            && (!restored.Done? ==> v.heads == Run(Run(t, later), All(pauses)).heads)
  {
    hide Sound, Extends, Run, QueueRefuses, Restored, Deleted, All, BuriedText, BuriedId;
    var t := Deleted(s, pause, key, actor).0;
    DeleteBuries(s, pause, key, actor);
    UnmovedThroughout(t, later, All(pauses), key);
    RunSound(t, later);
    var r := Run(t, later);
    HeadMovesOn(t, later, key);
    BuriedOnce(t, r, key);
    RestoreGivesBack(r, pauses, env, key, actor, false);
  }

  lemma DeleteBuries(s: Store, pause: seq<Operation>, key: Key, actor: Option<Actor>)
    requires Sound(s) && IsLive(s, key) && !Protected(key.filename) && HeadId(Run(s, pause), key) == HeadId(s, key)
    ensures var (t, deleted) := Deleted(s, pause, key, actor);
            && deleted.Done? && Sound(t) && Buried(t, key) && BuriedText(t, key) == LiveText(s, key)
  {
    hide Sound, Extends, Run, Delete;
    var u := Run(s, pause);
    RunSound(s, pause);
    DeleteTakesOnlySeen(s, pause, key, actor);
    DeleteSound(u, key, HeadId(s, key), HostedMcp, actor);
    var t := Deleted(s, pause, key, actor).0;
    HeadRevision(u, key);
    BuriedRevision(t, key);
    ExtendsKeeps(u, t, u.heads[key].id);
    SettledLive(u.revisions[u.heads[key].id], t.revisions[u.heads[key].id]);
  }

  lemma PutThenBury(s: Store, text: string)
    requires Sound(s) && !IsLive(s, DRAFT)
    ensures var t := Run(s, [Put(None, text), Bury(s.revisionSeq + 1)]);
            && Sound(t) && Buried(t, DRAFT) && BuriedText(t, DRAFT) == text && t.revisionSeq == s.revisionSeq + 2
  {
    hide Sound, Run, Extends;
    var ops := [Put(None, text), Bury(s.revisionSeq + 1)];
    RunSound(s, ops);
    TwoSteps(s, Put(None, text), Bury(s.revisionSeq + 1));
    PutLands(s, text);
  }

  lemma PutLands(s: Store, text: string)
    requires !IsLive(s, DRAFT)
    ensures Step(s, Put(None, text)) == Commit(s, NextRevision(s, DRAFT, text, false, HostedMcp, None, None, None, None))
  {
    hide FindOperation, CheckAllEvidence, IsLogPath, RecordConflict, Commit;
  }

  lemma AllLast(ops: seq<Operation>)
    ensures All(Pauses([], [], ops)) == ops
  {
  }

  /** A restore that waits while the file is restored, rewritten and deleted again puts the older text back. */
  lemma RestoresOlderText()
    ensures var s := Run(EMPTY, [Put(None, "one"), Bury(1)]);
            var between := [Put(None, "two"), Bury(3)];
            var (v, result) := Restored(s, Pauses([], [], between), FREE, DRAFT, None, true);
            && result.Done? && LiveText(v, DRAFT) == "one"
            && Sound(Run(s, between)) && Buried(Run(s, between), DRAFT) && BuriedText(Run(s, between), DRAFT) == "two"
  {
    hide Sound, Run, Restored, BuriedText, All, Put, Bury;
    EmptySound();
    PutThenBury(EMPTY, "one");
    var s := Run(EMPTY, [Put(None, "one"), Bury(1)]);
    var between := [Put(None, "two"), Bury(3)];
    PutThenBury(s, "two");
    RestoreGivesBack(s, Pauses([], [], between), FREE, DRAFT, None, true);
    AllLast(between);
  }

  // ---------------------------------------------------------------- patches

  /** An occurrence that every other one overlaps from behind. */
  ghost predicate OnlyAround(text: string, pattern: string, i: nat) {
    && OccursAt(text, pattern, i)
    && forall j: nat :: OccursAt(text, pattern, j) ==> i <= j < i + |pattern|
  }

  /** Counting without overlap finds one occurrence exactly when every other overlaps the first. */
  lemma CountsOnce(text: string, pattern: string)
    requires pattern != ""
    ensures Occurrences(text, pattern, 0) == 1 <==> exists i: nat :: OnlyAround(text, pattern, i)
    ensures Occurrences(text, pattern, 0) == 1 ==> OnlyAround(text, pattern, IndexOf(text, pattern, 0).value)
  {
    if Occurrences(text, pattern, 0) == 1 {
      var i := IndexOf(text, pattern, 0).value;
      assert Occurrences(text, pattern, i + |pattern|) == 0;
      assert OnlyAround(text, pattern, i);
    }
    if i: nat :| OnlyAround(text, pattern, i) {
      assert IndexOf(text, pattern, 0) == Some(i);
      assert IndexOf(text, pattern, i + |pattern|).None?;
    }
  }

  /** A patch goes through exactly when the old text occurs in a live file and every other occurrence of it overlaps
      the first; it replaces the first and keeps everything around it. */
  lemma PatchReplacesFirstOccurrence(base: Option<nat>, s: Store, key: Key, content: string, oldContent: string)
    ensures var next := NextContent(base, s, key, content, Patch(oldContent));
            && (next.Next? <==> oldContent != "" && IsLive(s, key) && exists i: nat :: OnlyAround(s.heads[key].content, oldContent, i))
            && (next.Next? ==>
                  exists i: nat ::
                    && OnlyAround(s.heads[key].content, oldContent, i)
                    && next.content == s.heads[key].content[..i] + content + s.heads[key].content[i + |oldContent|..])
  {
    if oldContent != "" && IsLive(s, key) { CountsOnce(s.heads[key].content, oldContent); }
    hide Occurrences, OnlyAround;
  }

  /** A text of which some end is also a beginning. */
  predicate SelfOverlapping(pattern: string) {
    exists d :: 0 < d < |pattern| && pattern[d..] == pattern[..|pattern| - d]
  }

  /** So the occurrence replaced is the only one in every text, if and only if the old text does not overlap itself. */
  lemma UniqueUnlessOverlapping(pattern: string)
    requires pattern != ""
    ensures (forall text, i: nat, j: nat ::
               Occurrences(text, pattern, 0) == 1 && OccursAt(text, pattern, i) && OccursAt(text, pattern, j) ==> i == j)
            <==> !SelfOverlapping(pattern)
  {
    if SelfOverlapping(pattern) {
      var d :| 0 < d < |pattern| && pattern[d..] == pattern[..|pattern| - d];
      var text := pattern[..d] + pattern;
      assert text[..|pattern|] == pattern[..d] + pattern[d..] == pattern;
      assert OccursAt(text, pattern, 0) && OccursAt(text, pattern, d);
      assert OnlyAround(text, pattern, 0);
      CountsOnce(text, pattern);
    } else {
      forall text, i: nat, j: nat | Occurrences(text, pattern, 0) == 1 && OccursAt(text, pattern, i) && OccursAt(text, pattern, j)
        ensures i == j
      {
        CountsOnce(text, pattern);
        if i < j { OverlapsItself(text, pattern, i, j); }
        if j < i { OverlapsItself(text, pattern, j, i); }
      }
    }
  }

  lemma OverlapsItself(text: string, pattern: string, i: nat, j: nat)
    requires OccursAt(text, pattern, i) && OccursAt(text, pattern, j) && i < j < i + |pattern|
    ensures SelfOverlapping(pattern)
  {
    var d := j - i;
    assert pattern == text[i..i + |pattern|] == text[j..j + |pattern|];
    assert pattern[d..] == text[j..i + |pattern|] == pattern[..|pattern| - d];
  }

  /** Patching "aa" in "aaa" goes through, with two occurrences. */
  lemma OverlapIsPatched(base: Option<nat>, s: Store, key: Key, content: string)
    requires IsLive(s, key) && s.heads[key].content == "aaa"
    ensures OccursAt("aaa", "aa", 0) && OccursAt("aaa", "aa", 1)
    ensures NextContent(base, s, key, content, Patch("aa")) == Next(content + "a")
  {
    assert "aaa"[0..2] == "aa" && "aaa"[1..3] == "aa";
    assert OnlyAround("aaa", "aa", 0);
    CountsOnce("aaa", "aa");
    assert IndexOf("aaa", "aa", 0) == Some(0);
    assert "aaa"[..0] + content + "aaa"[2..] == content + "a";
    hide Occurrences;
  }
}
