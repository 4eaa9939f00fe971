/** The transforms of `src/services/lint-fix.ts` and their pipeline with the loops of the source. What they plan
    never depends on what was approved. */
module LintTransforms {
  import opened Wrappers
  import opened Text
  import opened LintLines
  import opened LintFix
  import opened LintApply

  datatype Item = Item(id: string, kind: Kind, line: string)

  function IdFrom(id: (Kind, string) -> string, kind: Kind, lines: seq<string>): string {
    id(kind, Trim(Join(lines)))
  }

  /** The plan of a relocation: one item for each stray task. */
  function RelocateItems(id: (Kind, string) -> string, blocks: seq<Block>): seq<Item> {
    if blocks == [] then []
    else (if Stray(blocks[0]) then [Item(IdFrom(id, TaskRelocate, Lines(blocks[0])), TaskRelocate, blocks[0].line)] else [])
         + RelocateItems(id, blocks[1..])
  }

  function StampItems(id: (Kind, string) -> string, st: State, lines: seq<string>): seq<Item>
    decreases |lines|
  {
    if lines == [] then []
    else (if Stampable(Noted(st, lines[0]), lines[0]) then [Item(IdFrom(id, DoneStamp, [lines[0]]), DoneStamp, lines[0])] else [])
         + StampItems(id, Next(st, lines[0]), lines[1..])
  }

  function ArchiveItems(o: Order, blocks: seq<Block>): seq<Item> {
    if blocks == [] then []
    else (if Old(o, blocks[0]) then [Item(IdFrom(o.id, DoneArchive, Lines(blocks[0])), DoneArchive, blocks[0].line)] else [])
         + ArchiveItems(o, blocks[1..])
  }

  /** The ids that were approved, in order. */
  function Chosen(approved: Option<set<string>>, items: seq<Item>): seq<string> {
    if items == [] then []
    else (if approved.None? || items[0].id in approved.value then [items[0].id] else []) + Chosen(approved, items[1..])
  }

  lemma {:induction false} ChosenConcat(approved: Option<set<string>>, a: seq<Item>, b: seq<Item>)
    ensures Chosen(approved, a + b) == Chosen(approved, a) + Chosen(approved, b)
  {
    if a == [] {
      assert a + b == b;
    } else {
      var first := if approved.None? || a[0].id in approved.value then [a[0].id] else [];
      assert (a + b)[0] == a[0] && (a + b)[1..] == a[1..] + b;
      ChosenConcat(approved, a[1..], b);
      assert Chosen(approved, a + b) == first + Chosen(approved, a[1..] + b);
      assert first + (Chosen(approved, a[1..]) + Chosen(approved, b)) == (first + Chosen(approved, a[1..])) + Chosen(approved, b);
    }
  }

  // ---------------------------------------------------------------- walking

  lemma {:induction false} WalkSnoc(st: State, lines: seq<string>, line: string)
    ensures Walk(st, lines + [line]) == Next(Walk(st, lines), line)
    decreases |lines|
  {
    hide Next;
    if lines == [] {
      assert lines + [line] == [line] && [line][1..] == [];
    } else {
      assert (lines + [line])[1..] == lines[1..] + [line];
      WalkSnoc(Next(st, lines[0]), lines[1..], line);
    }
  }

  lemma WalkNothing(st: State)
    ensures Walk(st, []) == st
  {
  }

  /** `annotateLines` */
  method AnnotateLines(lines: seq<string>) returns (annotated: seq<State>)
    ensures |annotated| == |lines| && forall i :: 0 <= i < |lines| ==> annotated[i] == Noted(Walk(START, lines[..i]), lines[i])
  {
    hide Fence, IsH2, DoneHeading, Walk;
    annotated := [];
    var inFence, done := false, false;
    assert lines[..0] == [];
    WalkNothing(START);
    for i := 0 to |lines|
      invariant |annotated| == i && State(inFence, done) == Walk(START, lines[..i])
      invariant forall k :: 0 <= k < i ==> annotated[k] == Noted(Walk(START, lines[..k]), lines[k])
    {
      var line := lines[i];
      assert lines[..i + 1] == lines[..i] + [line];
      WalkSnoc(START, lines[..i], line);
      if Fence(line) {
        inFence := !inFence;
        annotated := annotated + [State(true, done)];
      } else {
        if !inFence && IsH2(line) { done := DoneHeading(line); }
        annotated := annotated + [State(inFence, done)];
      }
    }
  }

  /** A run of blank lines belongs to a tail exactly when what follows it does. */
  lemma {:induction false} BlankRun(lines: seq<string>, k: nat)
    requires k <= |lines| && forall i :: 0 <= i < k ==> Blank(lines[i]) && !Indented(lines[i])
    ensures TailLength(lines) == if TailLength(lines[k..]) == 0 then 0 else k + TailLength(lines[k..])
    decreases k
  {
    hide Blank, Indented;
    if k > 0 {
      assert lines[1..][k - 1..] == lines[k..];
      BlankRun(lines[1..], k - 1);
    } else {
      assert lines[k..] == lines;
    }
  }

  lemma BlankIsNotIndented(line: string)
    requires Blank(line)
    ensures !Indented(line)
  {
    hide Blank;
  }

  /** One more line of a tail, or its end. */
  lemma TailStep(lines: seq<string>, i: nat)
    requires i < |lines|
    ensures Indented(lines[i]) ==> TailLength(lines[i..]) == 1 + TailLength(lines[i + 1..])
    ensures !Indented(lines[i]) && !Blank(lines[i]) ==> TailLength(lines[i..]) == 0
  {
    hide Indented, Blank;
    assert lines[i..][0] == lines[i] && lines[i..][1..] == lines[i + 1..];
  }

  /** A run of blank lines, up to something else or the end. */
  lemma TailRun(lines: seq<string>, i: nat, after: nat)
    requires i < after <= |lines| && forall k :: i <= k < after ==> Blank(lines[k])
    requires after < |lines| ==> !Blank(lines[after])
    ensures TailLength(lines[i..]) == if after < |lines| && Indented(lines[after]) then (after - i) + TailLength(lines[after..]) else 0
  {
    forall k | 0 <= k < after - i ensures Blank(lines[i..][k]) && !Indented(lines[i..][k]) {
      assert lines[i..][k] == lines[i + k];
      BlankIsNotIndented(lines[i + k]);
    }
    hide Indented, Blank;
    assert lines[i..][after - i..] == lines[after..];
    BlankRun(lines[i..], after - i);
    if after < |lines| { TailStep(lines, after); }
  }

  lemma NoTail()
    ensures TailLength([]) == 0
  {
  }

  /** The inner loop of `annotateTaskBlocks`: the lines that stay attached to the item before them. */
  method TakeTail(lines: seq<string>, from: nat) returns (tail: seq<string>)
    requires from <= |lines|
    ensures tail == lines[from..from + TailLength(lines[from..])]
  {
    hide Indented, Blank, TailLength;
    tail := [];
    var i := from;
    NoTail();
    while i < |lines|
      invariant from <= i <= |lines| && tail == lines[from..i]
      invariant TailLength(lines[from..]) == (i - from) + TailLength(lines[i..])
    {
      TailStep(lines, i);
      var next := lines[i];
      if Indented(next) {
        tail := tail + [next];
        i := i + 1;
      } else if Blank(next) {
        var after := i + 1;
        while after < |lines| && Blank(lines[after])
          invariant i + 1 <= after <= |lines|
          invariant forall k :: i <= k < after ==> Blank(lines[k])
        {
          after := after + 1;
        }
        TailRun(lines, i, after);
        if after >= |lines| || !Indented(lines[after]) { break; }
        tail := tail + lines[i..after];
        i := after;
      } else {
        break;
      }
    }
    assert lines[|lines|..] == [];
  }

  lemma WalkBlock(st: State, line: string, tail: seq<string>)
    ensures Walk(st, [line] + tail) == Walk(Next(st, line), tail)
  {
    hide Next;
    assert ([line] + tail)[1..] == tail;
  }

  lemma Slices<T>(s: seq<T>, i: nat, n: nat)
    requires i + 1 + n <= |s|
    ensures s[i..][1..n + 1] == s[i + 1..][..n] && s[i..][n + 1..] == s[i + 1 + n..]
    ensures s[..i + 1 + n] == s[..i] + ([s[i]] + s[i + 1..][..n])
  {
  }

  /** The first block of what is left. */
  lemma NextBlock(lines: seq<string>, i: nat, n: nat, tail: seq<string>)
    requires i < |lines|
    requires n == TailOf(Walk(START, lines[..i]), lines[i..]) && tail == lines[i + 1..][..n]
    ensures i + 1 + n <= |lines|
    ensures Blocks(Walk(START, lines[..i]), lines[i..])
            == [Block(lines[i], Noted(Walk(START, lines[..i]), lines[i]), tail)] + Blocks(Walk(START, lines[..i + 1 + n]), lines[i + 1 + n..])
  {
    var st := Walk(START, lines[..i]);
    hide Noted, Next, TailOf, Blocks, Walk;
    FirstBlock(st, lines[i..]);
    Slices(lines, i, n);
    WalkConcat(START, lines[..i], [lines[i]] + tail);
    WalkBlock(st, lines[i], tail);
  }

  /** `annotateTaskBlocks` */
  method AnnotateTaskBlocks(content: string) returns (blocks: seq<Block>)
    ensures blocks == Blocks(START, Split(content))
  {
    var lines := Split(content);
    var annotated := AnnotateLines(lines);
    hide TailLength, Noted, Next, Blocks, Walk, Split, ListItem;
    blocks := [];
    var i := 0;
    assert lines[..0] == [] && lines[0..] == lines;
    WalkNothing(START);
    while i < |lines|
      invariant 0 <= i <= |lines|
      invariant Blocks(START, lines) == blocks + Blocks(Walk(START, lines[..i]), lines[i..])
    {
      var line, entry := lines[i], annotated[i];
      assert lines[i..][0] == line && lines[i..][1..] == lines[i + 1..];
      var tail: seq<string> := [];
      if !entry.inFence && ListItem(line) { tail := TakeTail(lines, i + 1); }
      NextBlock(lines, i, |tail|, tail);
      blocks := blocks + [Block(line, entry, tail)];
      i := i + 1 + |tail|;
    }
    assert lines[|lines|..] == [];
    NoBlocks(Walk(START, lines[..|lines|]));
  }

  // ---------------------------------------------------------------- the three transforms

  /** Listing one more item, and whether it was approved. */
  lemma ChosenSnoc(approved: Option<set<string>>, items: seq<Item>, item: Item)
    ensures Chosen(approved, items + [item]) ==
            Chosen(approved, items) + if approved.None? || item.id in approved.value then [item.id] else []
  {
    ChosenConcat(approved, items, [item]);
    assert [item][1..] == [];
  }

  /** One block of the relocation loop. */
  lemma RelocateStep(o: Order, blocks: seq<Block>, i: nat)
    requires i < |blocks|
    ensures var b := blocks[i];
            var item := Item(IdFrom(o.id, TaskRelocate, Lines(b)), TaskRelocate, b.line);
            && (Moves(o, b) <==> Stray(b) && (o.approved.None? || item.id in o.approved.value))
            && Kept(o, blocks[i..]) == (if Moves(o, b) then [] else Lines(b)) + Kept(o, blocks[i + 1..])
            && Moved(o, blocks[i..]) == (if Moves(o, b) then [Stamp(b.line, o.today)] + b.tail else []) + Moved(o, blocks[i + 1..])
            && RelocateItems(o.id, blocks[i..]) == (if Stray(b) then [item] else []) + RelocateItems(o.id, blocks[i + 1..])
  {
    hide Stray, Stamp, Trim, Join;
    assert blocks[i..][0] == blocks[i] && blocks[i..][1..] == blocks[i + 1..];
  }

  lemma RelocateEnd(o: Order)
    ensures Kept(o, []) == [] && Moved(o, []) == [] && RelocateItems(o.id, []) == [] && Chosen(o.approved, []) == []
    ensures Remaining(o, []) == [] && Archived(o, []) == [] && ArchiveItems(o, []) == []
  {
  }

  /** `relocateCompletedTasks` */
  method RelocateCompletedTasks(o: Order, content: string) returns (next: string, items: seq<Item>, applied: seq<string>)
    ensures next == RelocatedText(o, content)
    ensures items == RelocateItems(o.id, Blocks(START, Split(content))) && applied == Chosen(o.approved, items)
  {
    var blocks := AnnotateTaskBlocks(content);
    hide Blocks, Split, Join, Trim, Stray, Stamp, Kept, Moved, Moves, RelocateItems, Chosen, Insert;
    RelocateEnd(o);
    items, applied := [], [];
    var moved: seq<string>, kept: seq<string> := [], [];
    assert blocks[0..] == blocks;
    for i := 0 to |blocks|
      invariant Kept(o, blocks) == kept + Kept(o, blocks[i..])
      invariant Moved(o, blocks) == moved + Moved(o, blocks[i..])
      invariant RelocateItems(o.id, blocks) == items + RelocateItems(o.id, blocks[i..])
      invariant applied == Chosen(o.approved, items)
    {
      var b := blocks[i];
      RelocateStep(o, blocks, i);
      if Stray(b) {
        var item := Item(IdFrom(o.id, TaskRelocate, Lines(b)), TaskRelocate, b.line);
        ChosenSnoc(o.approved, items, item);
        items := items + [item];
        if o.approved.None? || item.id in o.approved.value {
          moved := moved + ([Stamp(b.line, o.today)] + b.tail);
          applied := applied + [item.id];
          continue;
        }
      }
      kept := kept + Lines(b);
    }
    assert blocks[|blocks|..] == [];
    assert kept + [] == kept && moved + [] == moved;
    if moved == [] { return content, items, applied; }
    next := Join(Insert(kept, moved));
  }

  /** One line of the stamping loop. */
  lemma StampStep(o: Order, lines: seq<string>, i: nat)
    requires i < |lines|
    ensures var st, line := Walk(START, lines[..i]), lines[i];
            var item := Item(IdFrom(o.id, DoneStamp, [line]), DoneStamp, line);
            && StampLine(o, Noted(st, line), line) ==
               (if Stampable(Noted(st, line), line) && (o.approved.None? || item.id in o.approved.value) then line + Suffix(o.today) else line)
            && Stamped(o, st, lines[i..]) == [StampLine(o, Noted(st, line), line)] + Stamped(o, Walk(START, lines[..i + 1]), lines[i + 1..])
            && StampItems(o.id, st, lines[i..]) ==
               (if Stampable(Noted(st, line), line) then [item] else []) + StampItems(o.id, Walk(START, lines[..i + 1]), lines[i + 1..])
  {
    hide Stampable, Suffix, Trim, Join, Noted, Next;
    assert lines[i..][0] == lines[i] && lines[i..][1..] == lines[i + 1..];
    assert lines[..i + 1] == lines[..i] + [lines[i]];
    WalkSnoc(START, lines[..i], lines[i]);
  }

  lemma StampEnd(o: Order, st: State)
    ensures Stamped(o, st, []) == [] && StampItems(o.id, st, []) == [] && Chosen(o.approved, []) == []
  {
  }

  /** `stampDoneItems` */
  method StampDoneItems(o: Order, content: string) returns (next: string, items: seq<Item>, applied: seq<string>)
    ensures next == StampedText(o, content)
    ensures items == StampItems(o.id, START, Split(content)) && applied == Chosen(o.approved, items)
  {
    var lines := Split(content);
    var annotated := AnnotateLines(lines);
    hide Split, Join, Trim, Stampable, Noted, Next, Suffix, Stamped, StampItems, StampLine, Walk, Chosen;
    items, applied := [], [];
    var out: seq<string> := [];
    assert lines[..0] == [] && lines[0..] == lines;
    WalkNothing(START);
    StampEnd(o, START);
    for i := 0 to |lines|
      invariant Stamped(o, START, lines) == out + Stamped(o, Walk(START, lines[..i]), lines[i..])
      invariant StampItems(o.id, START, lines) == items + StampItems(o.id, Walk(START, lines[..i]), lines[i..])
      invariant applied == Chosen(o.approved, items)
    {
      var line := lines[i];
      StampStep(o, lines, i);
      var kept := line;
      if Stampable(annotated[i], line) {
        var item := Item(IdFrom(o.id, DoneStamp, [line]), DoneStamp, line);
        ChosenSnoc(o.approved, items, item);
        items := items + [item];
        if o.approved.None? || item.id in o.approved.value {
          applied := applied + [item.id];
          kept := line + Suffix(o.today);
        }
      }
      out := out + [kept];
    }
    assert lines[|lines|..] == [];
    StampEnd(o, Walk(START, lines[..|lines|]));
    assert out + [] == out;
    next := Join(out);
  }

  /** One block of the archiving loop. */
  lemma ArchiveStep(o: Order, blocks: seq<Block>, i: nat)
    requires i < |blocks|
    ensures var b := blocks[i];
            var item := Item(IdFrom(o.id, DoneArchive, Lines(b)), DoneArchive, b.line);
            && (Archives(o, b) <==> Old(o, b) && (o.approved.None? || item.id in o.approved.value))
            && Remaining(o, blocks[i..]) == (if Archives(o, b) then [] else Lines(b)) + Remaining(o, blocks[i + 1..])
            && Archived(o, blocks[i..]) == (if Archives(o, b) then Lines(b) else []) + Archived(o, blocks[i + 1..])
            && ArchiveItems(o, blocks[i..]) == (if Old(o, b) then [item] else []) + ArchiveItems(o, blocks[i + 1..])
  {
    hide Old, Trim, Join;
    assert blocks[i..][0] == blocks[i] && blocks[i..][1..] == blocks[i + 1..];
  }

  /** `archiveOldDoneItems` */
  method ArchiveOldDoneItems(o: Order, content: string, archive: string)
    returns (tasks: string, nextArchive: string, items: seq<Item>, applied: seq<string>)
    ensures tasks == RemainingText(o, content) && nextArchive == ArchiveText(o, content, archive)
    ensures items == ArchiveItems(o, Blocks(START, Split(content))) && applied == Chosen(o.approved, items)
  {
    var blocks := AnnotateTaskBlocks(content);
    hide Blocks, Split, Join, Trim, Old, TrimEnd, Remaining, Archived, Archives, ArchiveItems, Chosen;
    RelocateEnd(o);
    items, applied := [], [];
    var archived: seq<string>, kept: seq<string> := [], [];
    assert blocks[0..] == blocks;
    for i := 0 to |blocks|
      invariant Remaining(o, blocks) == kept + Remaining(o, blocks[i..])
      invariant Archived(o, blocks) == archived + Archived(o, blocks[i..])
      invariant ArchiveItems(o, blocks) == items + ArchiveItems(o, blocks[i..])
      invariant applied == Chosen(o.approved, items)
    {
      var b := blocks[i];
      ArchiveStep(o, blocks, i);
      if Old(o, b) {
        var item := Item(IdFrom(o.id, DoneArchive, Lines(b)), DoneArchive, b.line);
        ChosenSnoc(o.approved, items, item);
        items := items + [item];
        if o.approved.None? || item.id in o.approved.value {
          archived := archived + Lines(b);
          applied := applied + [item.id];
          continue;
        }
      }
      kept := kept + Lines(b);
    }
    assert blocks[|blocks|..] == [];
    assert kept + [] == kept && archived + [] == archived;
    if archived == [] { return content, archive, items, applied; }
    tasks := Join(kept);
    nextArchive := TrimEnd(archive) + "\n" + Join(archived) + "\n";
  }

  // ---------------------------------------------------------------- the pipeline

  /** `computeFixes`; `tasks` is None when there is no TASKS.md. */
  method ComputeFixes(o: Order, tasks: Option<string>, archive: string)
    returns (nextTasks: Option<string>, nextArchive: string, items: seq<Item>, applied: seq<string>)
    ensures match tasks
            case None => nextTasks == None && nextArchive == archive && items == [] && applied == []
            case Some(content) =>
              && nextTasks == Some(ComputedFixes(o, content, archive).tasks) && nextArchive == ComputedFixes(o, content, archive).archive
              && var relocated := RelocatedText(o, content);
              items == RelocateItems(o.id, Blocks(START, Split(content))) + StampItems(o.id, START, Split(relocated))
                       + ArchiveItems(o, Blocks(START, Split(StampedText(o, relocated))))
    ensures applied == Chosen(o.approved, items)
  {
    hide RelocatedText, StampedText, RemainingText, ArchiveText, RelocateItems, StampItems, ArchiveItems, Blocks, Split;
    items, applied := [], [];
    if tasks.None? { return None, archive, items, applied; }
    var relocated, items1, applied1 := RelocateCompletedTasks(o, tasks.value);
    var stamped, items2, applied2 := StampDoneItems(o, relocated);
    var remaining, archived, items3, applied3 := ArchiveOldDoneItems(o, stamped, archive);
    ChosenConcat(o.approved, items1, items2);
    ChosenConcat(o.approved, items1 + items2, items3);
    return Some(remaining), archived, items1 + items2 + items3, applied1 + applied2 + applied3;
  }

  const TASKS_FILE := "TASKS.md"
  const ARCHIVE_FILE := "archive/tasks-done.md"

  /** `collectWrites`: exactly the files whose text has changed, so an empty approval set writes nothing. */
  method CollectWrites(o: Order, tasks: Option<string>, archive: string) returns (writes: map<string, string>)
    ensures forall f :: f in writes ==> f == TASKS_FILE || f == ARCHIVE_FILE
    ensures TASKS_FILE in writes <==> tasks.Some? && ComputedFixes(o, tasks.value, archive).tasks != tasks.value
    ensures TASKS_FILE in writes ==> writes[TASKS_FILE] == ComputedFixes(o, tasks.value, archive).tasks
    ensures ARCHIVE_FILE in writes <==> tasks.Some? && ComputedFixes(o, tasks.value, archive).archive != archive
    ensures ARCHIVE_FILE in writes ==> writes[ARCHIVE_FILE] == ComputedFixes(o, tasks.value, archive).archive
    ensures NothingApproved(o) ==> writes == map[]
  {
    hide ComputedFixes, RelocatedText, StampedText, RelocateItems, StampItems, ArchiveItems, Blocks, Split, Chosen;
    if tasks.Some? && NothingApproved(o) { EmptyApprovalChangesNothing(o, tasks.value, archive); }
    var nextTasks, nextArchive, items, applied := ComputeFixes(o, tasks, archive);
    writes := map[];
    assert TASKS_FILE != ARCHIVE_FILE;
    if tasks.Some? && nextTasks.Some? && nextTasks != tasks { writes := writes[TASKS_FILE := nextTasks.value]; }
    if nextArchive != archive { writes := writes[ARCHIVE_FILE := nextArchive]; }
  }
}
