/** The three line transforms of `src/services/lint-fix.ts`, as functions of the lines, and what they keep. */
module LintFix {
  import opened Wrappers
  import opened Text
  import opened LintLines

  // ---------------------------------------------------------------- walking the lines

  /** Inside a code fence; under a Done heading. */
  datatype State = State(inFence: bool, done: bool)

  const START := State(false, false)

  function Next(st: State, line: string): State {
    if Fence(line) then st.(inFence := !st.inFence)
    else if !st.inFence && IsH2(line) then st.(done := DoneHeading(line))
    else st
  }

  /** What the walk records beside a line: a fence line itself counts as fenced. */
  function Noted(st: State, line: string): State {
    if Fence(line) then State(true, st.done) else Next(st, line)
  }

  function Walk(st: State, lines: seq<string>): State
    decreases |lines|
  {
    if lines == [] then st else Walk(Next(st, lines[0]), lines[1..])
  }

  /** How many of the lines after a list item stay attached to it: indented lines, and blank ones before them. */
  function TailLength(lines: seq<string>): (n: nat)
    ensures n <= |lines|
    ensures forall i :: 0 <= i < n ==> Indented(lines[i]) || Blank(lines[i])
    decreases |lines|
  {
    if lines == [] then 0
    else if Indented(lines[0]) then 1 + TailLength(lines[1..])
    else if Blank(lines[0]) then
      var n := TailLength(lines[1..]);
      if n == 0 then 0 else n + 1
    else 0
  }

  datatype Block = Block(line: string, state: State, tail: seq<string>)

  function Lines(b: Block): seq<string> {
    [b.line] + b.tail
  }

  function TailOf(st: State, lines: seq<string>): nat
    requires lines != []
    ensures TailOf(st, lines) <= |lines| - 1
  {
    if !Noted(st, lines[0]).inFence && ListItem(lines[0]) then TailLength(lines[1..]) else 0
  }

  /** `annotateTaskBlocks` */
  function Blocks(st: State, lines: seq<string>): seq<Block>
    decreases |lines|
  {
    if lines == [] then []
    else
      var n := TailOf(st, lines);
      var tail := lines[1..n + 1];
      [Block(lines[0], Noted(st, lines[0]), tail)] + Blocks(Walk(Next(st, lines[0]), tail), lines[n + 1..])
  }

  /** The lines of some blocks, in order. */
  function Flatten(blocks: seq<Block>): seq<string> {
    if blocks == [] then [] else Lines(blocks[0]) + Flatten(blocks[1..])
  }

  lemma {:induction false} FlattenBlocks(st: State, lines: seq<string>)
    ensures Flatten(Blocks(st, lines)) == lines
    decreases |lines|
  {
    hide Walk, Next, Noted, TailOf;
    if lines != [] {
      var n := TailOf(st, lines);
      var tail := lines[1..n + 1];
      var rest := Blocks(Walk(Next(st, lines[0]), tail), lines[n + 1..]);
      FlattenBlocks(Walk(Next(st, lines[0]), tail), lines[n + 1..]);
      var blocks := Blocks(st, lines);
      assert blocks == [Block(lines[0], Noted(st, lines[0]), tail)] + rest;
      assert blocks[1..] == rest;
      assert [lines[0]] + tail + lines[n + 1..] == lines;
    }
  }

  // ---------------------------------------------------------------- approval

  datatype Kind = TaskRelocate | DoneStamp | DoneArchive

  /** Which changes to make: every one, or only those whose id was approved; and how ids are made, a hash of
      the trimmed text that need not be injective. */
  datatype Order = Order(today: string, approved: Option<set<string>>, id: (Kind, string) -> string, age: (string, string) -> int, threshold: int)

  function IdOf(o: Order, kind: Kind, lines: seq<string>): string {
    o.id(kind, Trim(Join(lines)))
  }

  predicate Approves(o: Order, kind: Kind, lines: seq<string>) {
    o.approved.None? || IdOf(o, kind, lines) in o.approved.value
  }

  // ---------------------------------------------------------------- relocating

  predicate Stray(b: Block) {
    !b.state.inFence && Completed(b.line) && !b.state.done
  }

  predicate Moves(o: Order, b: Block) {
    Stray(b) && Approves(o, TaskRelocate, Lines(b))
  }

  function Kept(o: Order, blocks: seq<Block>): seq<string> {
    if blocks == [] then [] else (if Moves(o, blocks[0]) then [] else Lines(blocks[0])) + Kept(o, blocks[1..])
  }

  function Moved(o: Order, blocks: seq<Block>): seq<string> {
    if blocks == [] then []
    else (if Moves(o, blocks[0]) then [Stamp(blocks[0].line, o.today)] + blocks[0].tail else []) + Moved(o, blocks[1..])
  }

  function FindDone(lines: seq<string>): (r: Option<nat>)
    ensures r.Some? ==> r.value < |lines|
  {
    if lines == [] then None
    else if DoneHeading(lines[0]) then Some(0)
    else
      match FindDone(lines[1..])
      case Some(i) => Some(i + 1)
      case None => None
  }

  lemma {:induction false} FindDoneFinds(lines: seq<string>)
    ensures match FindDone(lines)
            case Some(i) => DoneHeading(lines[i]) && forall j :: 0 <= j < i ==> !DoneHeading(lines[j])
            case None => forall i :: 0 <= i < |lines| ==> !DoneHeading(lines[i])
  {
    hide DoneHeading;
    if lines != [] && !DoneHeading(lines[0]) {
      FindDoneFinds(lines[1..]);
      assert forall j :: 1 <= j < |lines| ==> lines[j] == lines[1..][j - 1];
      if FindDone(lines[1..]).None? {
        forall i | 0 <= i < |lines| ensures !DoneHeading(lines[i]) {
          if i > 0 { assert lines[i] == lines[1..][i - 1]; }
        }
      }
    }
  }

  const DONE := "## Done"

  /** What goes before the moved lines when there is no Done heading yet. */
  function NewSection(kept: seq<string>): seq<string> {
    (if kept != [] && !Blank(kept[|kept| - 1]) then [""] else []) + [DONE, ""]
  }

  function Insert(kept: seq<string>, moved: seq<string>): seq<string> {
    match FindDone(kept)
    case Some(i) => kept[..i + 1] + moved + kept[i + 1..]
    case None => kept + NewSection(kept) + moved + [""]
  }

  /** `relocateCompletedTasks` on the lines. */
  function Relocated(o: Order, lines: seq<string>): seq<string> {
    var blocks := Blocks(START, lines);
    if Moved(o, blocks) == [] then lines else Insert(Kept(o, blocks), Moved(o, blocks))
  }

  /** The Done heading that had to be added, if one had to. */
  function Added(o: Order, lines: seq<string>): seq<string> {
    var blocks := Blocks(START, lines);
    if Moved(o, blocks) != [] && FindDone(Kept(o, blocks)).None? then [DONE] else []
  }

  // ---------------------------------------------------------------- stamping

  predicate Stampable(st: State, line: string) {
    !st.inFence && st.done && ListItem(line) && !Dated(line)
  }

  function StampLine(o: Order, st: State, line: string): string {
    if Stampable(st, line) && Approves(o, DoneStamp, [line]) then line + Suffix(o.today) else line
  }

  /** `stampDoneItems` on the lines. */
  function Stamped(o: Order, st: State, lines: seq<string>): (r: seq<string>)
    ensures |r| == |lines|
    decreases |lines|
  {
    if lines == [] then [] else [StampLine(o, Noted(st, lines[0]), lines[0])] + Stamped(o, Next(st, lines[0]), lines[1..])
  }

  // ---------------------------------------------------------------- archiving

  predicate Old(o: Order, b: Block) {
    && !b.state.inFence && b.state.done && ListItem(b.line)
    && ParseDoneDate(b.line).Some? && o.age(ParseDoneDate(b.line).value, o.today) > o.threshold
  }

  predicate Archives(o: Order, b: Block) {
    Old(o, b) && Approves(o, DoneArchive, Lines(b))
  }

  function Remaining(o: Order, blocks: seq<Block>): seq<string> {
    if blocks == [] then [] else (if Archives(o, blocks[0]) then [] else Lines(blocks[0])) + Remaining(o, blocks[1..])
  }

  function Archived(o: Order, blocks: seq<Block>): seq<string> {
    if blocks == [] then [] else (if Archives(o, blocks[0]) then Lines(blocks[0]) else []) + Archived(o, blocks[1..])
  }

  // ---------------------------------------------------------------- counting lines

  /** How many lines that are not blank read `x`, once the stamp they may have been given is taken off. */
  function Tally(lines: seq<string>, today: string, x: string): nat {
    if lines == [] then 0
    else (if !Blank(lines[0]) && Erase(lines[0], today) == x then 1 else 0) + Tally(lines[1..], today, x)
  }

  /** How many lines that are neither blank nor dated read `x`. */
  function Undated(lines: seq<string>, x: string): nat {
    if lines == [] then 0 else (if !Blank(lines[0]) && !Dated(lines[0]) && lines[0] == x then 1 else 0) + Undated(lines[1..], x)
  }

  lemma {:induction false} TallyConcat(a: seq<string>, b: seq<string>, today: string, x: string)
    ensures Tally(a + b, today, x) == Tally(a, today, x) + Tally(b, today, x)
    ensures Undated(a + b, x) == Undated(a, x) + Undated(b, x)
  {
    hide Erase, Dated, Blank;
    if a == [] {
      assert a + b == b;
    } else {
      assert (a + b)[1..] == a[1..] + b;
      TallyConcat(a[1..], b, today, x);
    }
  }

  /** The lines `b` are the lines `a`, some of them stamped, and nothing else but blank lines and `extra`: every
      text is there as often as it was, and none is there more often without its stamp. */
  ghost predicate Conserves(a: seq<string>, b: seq<string>, extra: seq<string>, today: string) {
    forall x :: Tally(b, today, x) == Tally(a, today, x) + Tally(extra, today, x) && Undated(b, x) <= Undated(a, x) + Undated(extra, x)
  }

  lemma {:induction false} BlanksCountNothing(lines: seq<string>, today: string, x: string)
    requires forall i :: 0 <= i < |lines| ==> Blank(lines[i])
    ensures Tally(lines, today, x) == 0 && Undated(lines, x) == 0
  {
    hide Erase, Dated;
    if lines != [] { BlanksCountNothing(lines[1..], today, x); }
  }

  lemma OneLine(line: string, today: string, x: string)
    ensures Tally([line], today, x) == if !Blank(line) && Erase(line, today) == x then 1 else 0
    ensures Undated([line], x) == if !Blank(line) && !Dated(line) && line == x then 1 else 0
  {
    hide Erase, Dated, Blank;
    assert [line][1..] == [];
  }

  /** Stamping one line keeps it, and can only make it dated. */
  lemma StampConserves(line: string, today: string, x: string)
    requires IsDate(today) && !Blank(line)
    ensures Tally([Stamp(line, today)], today, x) == Tally([line], today, x)
    ensures Undated([Stamp(line, today)], x) <= Undated([line], x)
  {
    OneLine(line, today, x);
    OneLine(Stamp(line, today), today, x);
    EraseStamp(line, today);
    StampNotBlank(line, today);
    StampDated(line, today);
    hide Stamp, Erase, Dated, Blank, Tally, Undated;
  }

  lemma {:induction false} PartsConserve(o: Order, blocks: seq<Block>, x: string)
    requires IsDate(o.today)
    ensures Tally(Kept(o, blocks), o.today, x) + Tally(Moved(o, blocks), o.today, x) == Tally(Flatten(blocks), o.today, x)
    ensures Undated(Kept(o, blocks), x) + Undated(Moved(o, blocks), x) <= Undated(Flatten(blocks), x)
  {
    if blocks != [] {
      var b, rest := blocks[0], blocks[1..];
      PartsConserve(o, rest, x);
      var stamped := [Stamp(b.line, o.today)] + b.tail;
      TallyConcat(Lines(b), Flatten(rest), o.today, x);
      TallyConcat(Lines(b), Kept(o, rest), o.today, x);
      TallyConcat(stamped, Moved(o, rest), o.today, x);
      TallyConcat([Stamp(b.line, o.today)], b.tail, o.today, x);
      TallyConcat([b.line], b.tail, o.today, x);
      if Moves(o, b) {
        CompletedIsItem(b.line);
        ItemIsPlain(b.line);
        StampConserves(b.line, o.today, x);
      }
      hide Tally, Undated, Stamp, Moves, IsDate;
      assert [] + Kept(o, rest) == Kept(o, rest) && [] + Moved(o, rest) == Moved(o, rest);
    }
  }

  lemma InsertAtCounts(kept: seq<string>, moved: seq<string>, i: nat, today: string, x: string)
    requires i < |kept|
    ensures var all := kept[..i + 1] + moved + kept[i + 1..];
            && Tally(all, today, x) == Tally(kept, today, x) + Tally(moved, today, x)
            && Undated(all, x) == Undated(kept, x) + Undated(moved, x)
  {
    hide Tally, Undated;
    assert kept == kept[..i + 1] + kept[i + 1..];
    TallyConcat(kept[..i + 1], kept[i + 1..], today, x);
    TallyConcat(kept[..i + 1] + moved, kept[i + 1..], today, x);
    TallyConcat(kept[..i + 1], moved, today, x);
  }

  lemma NewSectionCounts(kept: seq<string>, today: string, x: string)
    ensures Tally(NewSection(kept), today, x) == Tally([DONE], today, x) && Undated(NewSection(kept), x) == Undated([DONE], x)
  {
    hide Tally, Undated;
    var gap := if kept != [] && !Blank(kept[|kept| - 1]) then [""] else [];
    BlanksCountNothing(gap, today, x);
    BlanksCountNothing([""], today, x);
    TallyConcat(gap, [DONE, ""], today, x);
    assert [DONE] + [""] == [DONE, ""];
    TallyConcat([DONE], [""], today, x);
  }

  lemma InsertCounts(kept: seq<string>, moved: seq<string>, today: string, x: string)
    ensures var extra := if FindDone(kept).None? then [DONE] else [];
            && Tally(Insert(kept, moved), today, x) == Tally(kept, today, x) + Tally(moved, today, x) + Tally(extra, today, x)
            && Undated(Insert(kept, moved), x) == Undated(kept, x) + Undated(moved, x) + Undated(extra, x)
  {
    hide Tally, Undated, FindDone, NewSection;
    BlanksCountNothing([], today, x);
    if FindDone(kept).Some? {
      InsertAtCounts(kept, moved, FindDone(kept).value, today, x);
    } else {
      BlanksCountNothing([""], today, x);
      NewSectionCounts(kept, today, x);
      TallyConcat(kept, NewSection(kept), today, x);
      TallyConcat(kept + NewSection(kept), moved, today, x);
      TallyConcat(kept + NewSection(kept) + moved, [""], today, x);
    }
  }

  /** Relocation loses nothing: it moves and stamps, and may add one Done heading. */
  lemma RelocateConserves(o: Order, lines: seq<string>)
    requires IsDate(o.today)
    ensures Conserves(lines, Relocated(o, lines), Added(o, lines), o.today)
  {
    var blocks := Blocks(START, lines);
    FlattenBlocks(START, lines);
    forall x
      ensures Tally(Relocated(o, lines), o.today, x) == Tally(lines, o.today, x) + Tally(Added(o, lines), o.today, x)
      ensures Undated(Relocated(o, lines), x) <= Undated(lines, x) + Undated(Added(o, lines), x)
    {
      PartsConserve(o, blocks, x);
      InsertCounts(Kept(o, blocks), Moved(o, blocks), o.today, x);
      BlanksCountNothing([], o.today, x);
      hide Tally, Undated, Insert, Kept, Moved, Blocks, Flatten, IsDate, FindDone;
    }
  }

  lemma StampLineIs(o: Order, st: State, line: string)
    ensures StampLine(o, st, line) == line || (StampLine(o, st, line) == Stamp(line, o.today) && !Blank(line))
  {
    if Stampable(st, line) { ItemIsPlain(line); }
    hide Blank, Dated, Suffix, Approves;
  }

  lemma StampLineCounts(o: Order, st: State, line: string, x: string)
    requires IsDate(o.today)
    ensures Tally([StampLine(o, st, line)], o.today, x) == Tally([line], o.today, x)
    ensures Undated([StampLine(o, st, line)], x) <= Undated([line], x)
  {
    StampLineIs(o, st, line);
    hide Tally, Undated, Stamp, StampLine, IsDate, Blank;
    if StampLine(o, st, line) != line { StampConserves(line, o.today, x); }
  }

  lemma {:induction false} StampingCounts(o: Order, st: State, lines: seq<string>, x: string)
    requires IsDate(o.today)
    ensures Tally(Stamped(o, st, lines), o.today, x) == Tally(lines, o.today, x) && Undated(Stamped(o, st, lines), x) <= Undated(lines, x)
    decreases |lines|
  {
    hide Tally, Undated, Stamp, StampLine, IsDate, Blank, Noted, Next;
    if lines != [] {
      var line := StampLine(o, Noted(st, lines[0]), lines[0]);
      var rest := Stamped(o, Next(st, lines[0]), lines[1..]);
      StampingCounts(o, Next(st, lines[0]), lines[1..], x);
      assert Stamped(o, st, lines) == [line] + rest;
      StampLineCounts(o, Noted(st, lines[0]), lines[0], x);
      TallyConcat([line], rest, o.today, x);
      assert lines == [lines[0]] + lines[1..];
      TallyConcat([lines[0]], lines[1..], o.today, x);
    }
  }

  /** Stamping keeps every line, in place. */
  lemma StampingConserves(o: Order, lines: seq<string>)
    requires IsDate(o.today)
    ensures Conserves(lines, Stamped(o, START, lines), [], o.today)
  {
    forall x ensures Tally(Stamped(o, START, lines), o.today, x) == Tally(lines, o.today, x) + Tally([], o.today, x)
                     && Undated(Stamped(o, START, lines), x) <= Undated(lines, x) + Undated([], x)
    {
      StampingCounts(o, START, lines, x);
    }
  }

  /** Archiving splits the lines in two. */
  lemma {:induction false} ArchiveCounts(o: Order, blocks: seq<Block>, x: string)
    ensures Tally(Remaining(o, blocks), o.today, x) + Tally(Archived(o, blocks), o.today, x) == Tally(Flatten(blocks), o.today, x)
    ensures Undated(Remaining(o, blocks), x) + Undated(Archived(o, blocks), x) == Undated(Flatten(blocks), x)
  {
    if blocks != [] {
      var b, rest := blocks[0], blocks[1..];
      ArchiveCounts(o, rest, x);
      TallyConcat(Lines(b), Flatten(rest), o.today, x);
      TallyConcat(Lines(b), Remaining(o, rest), o.today, x);
      TallyConcat(Lines(b), Archived(o, rest), o.today, x);
      hide Tally, Undated, Archives;
      assert [] + Remaining(o, rest) == Remaining(o, rest) && [] + Archived(o, rest) == Archived(o, rest);
    }
  }

  // ---------------------------------------------------------------- relocation settles

  predicate FenceFree(lines: seq<string>) {
    forall i :: 0 <= i < |lines| ==> !Fence(lines[i])
  }

  predicate PlainTail(tail: seq<string>) {
    forall i :: 0 <= i < |tail| ==> Indented(tail[i]) || Blank(tail[i])
  }

  /** What follows a tail does not belong to it. */
  lemma {:induction false} TailIsMaximal(lines: seq<string>)
    ensures TailLength(lines[TailLength(lines)..]) == 0
  {
    hide Indented, Blank;
    var n := TailLength(lines);
    if n > 0 {
      TailIsMaximal(lines[1..]);
      assert lines[n..] == lines[1..][n - 1..];
    }
  }

  /** A whole tail reaches on into what is put behind it, and lines that start no tail add nothing to any other. */
  lemma {:induction false} TailConcat(a: seq<string>, b: seq<string>)
    ensures TailLength(a) == |a| ==> TailLength(a + b) == |a| + TailLength(b)
    ensures TailLength(b) == 0 ==> TailLength(a + b) == TailLength(a)
  {
    hide Indented, Blank;
    if a == [] {
      assert a + b == b;
    } else {
      assert (a + b)[1..] == a[1..] + b;
      TailConcat(a[1..], b);
    }
  }

  // The parts of a text at its first block.

  function TailLines(st: State, lines: seq<string>): seq<string>
    requires lines != []
  {
    lines[1..TailOf(st, lines) + 1]
  }

  function RestLines(st: State, lines: seq<string>): (rest: seq<string>)
    requires lines != []
    ensures |rest| < |lines|
  {
    lines[TailOf(st, lines) + 1..]
  }

  function RestState(st: State, lines: seq<string>): State
    requires lines != []
  {
    Walk(Next(st, lines[0]), TailLines(st, lines))
  }

  function FirstOf(st: State, lines: seq<string>): Block
    requires lines != []
  {
    Block(lines[0], Noted(st, lines[0]), TailLines(st, lines))
  }

  lemma FirstBlock(st: State, lines: seq<string>)
    requires lines != []
    ensures Blocks(st, lines) == [FirstOf(st, lines)] + Blocks(RestState(st, lines), RestLines(st, lines))
    ensures lines == Lines(FirstOf(st, lines)) + RestLines(st, lines)
  {
    hide Walk, Next, Noted, TailOf;
  }

  /** The tail of the first block: a whole tail that ends where the rest begins, and none unless the block is an item. */
  lemma FirstTail(st: State, lines: seq<string>)
    requires lines != []
    ensures var tail := TailLines(st, lines);
            && PlainTail(tail) && TailLength(tail) == |tail|
            && (if !Noted(st, lines[0]).inFence && ListItem(lines[0]) then TailLength(RestLines(st, lines)) == 0 else tail == [])
  {
    hide Indented, Blank, Noted, ListItem;
    var after := lines[1..];
    var n := TailLength(after);
    if TailOf(st, lines) == n {
      TailIsMaximal(after);
      TailConcat(after[..n], after[n..]);
      assert after[..n] + after[n..] == after;
      assert after[..n] == lines[1..n + 1] && after[n..] == lines[n + 1..];
    }
  }

  /** A block is found again in front of any lines that its tail does not reach into. */
  lemma BlockInFront(st: State, line: string, tail: seq<string>, rest: seq<string>)
    requires TailLength(tail) == |tail|
    requires if !Noted(st, line).inFence && ListItem(line) then TailLength(rest) == 0 else tail == []
    ensures Blocks(st, [line] + tail + rest) == [Block(line, Noted(st, line), tail)] + Blocks(Walk(Next(st, line), tail), rest)
  {
    hide Walk, Next, Noted, ListItem, Indented, Blank;
    var lines := [line] + tail + rest;
    TailConcat(tail, rest);
    assert lines[1..] == tail + rest;
    assert TailOf(st, lines) == |tail|;
    assert lines[1..|tail| + 1] == tail && lines[|tail| + 1..] == rest;
  }

  /** Cutting a text where no tail is cut cuts its blocks. */
  lemma {:induction false} BlocksConcat(st: State, a: seq<string>, b: seq<string>)
    requires TailLength(b) == 0
    ensures Blocks(st, a + b) == Blocks(st, a) + Blocks(Walk(st, a), b)
    decreases |a|
  {
    hide *;
    if a == [] {
      NoBlocks(st);
      assert a + b == b;
    } else {
      var first, rest, next := FirstOf(st, a), RestLines(st, a), RestState(st, a);
      FirstBlock(st, a);
      TailConcat(rest, b);
      BlocksConcat(next, rest, b);
      assert a + b == Lines(first) + (rest + b);
      FrontAgain(st, a, rest + b);
      WalkThrough(st, a);
    }
  }

  lemma NoBlocks(st: State)
    ensures Blocks(st, []) == [] && Walk(st, []) == st
  {
  }

  lemma FrontAgain(st: State, lines: seq<string>, rest: seq<string>)
    requires lines != [] && (TailLength(RestLines(st, lines)) == 0 ==> TailLength(rest) == 0)
    ensures Blocks(st, Lines(FirstOf(st, lines)) + rest) == [FirstOf(st, lines)] + Blocks(RestState(st, lines), rest)
  {
    hide Walk, Next, Noted, Blocks, ListItem, TailLines, RestLines, TailLength;
    FirstTail(st, lines);
    BlockInFront(st, lines[0], TailLines(st, lines), rest);
  }

  lemma {:induction false} WalkConcat(st: State, a: seq<string>, b: seq<string>)
    ensures Walk(st, a + b) == Walk(Walk(st, a), b)
    decreases |a|
  {
    hide Next;
    if a == [] {
      assert a + b == b;
    } else {
      assert (a + b)[1..] == a[1..] + b;
      WalkConcat(Next(st, a[0]), a[1..], b);
    }
  }

  lemma WalkThrough(st: State, lines: seq<string>)
    requires lines != []
    ensures Walk(st, lines) == Walk(RestState(st, lines), RestLines(st, lines))
  {
    hide Next, Walk, TailOf;
    var tail, rest := TailLines(st, lines), RestLines(st, lines);
    assert lines[1..] == tail + rest;
    WalkFirst(st, lines);
    WalkConcat(Next(st, lines[0]), tail, rest);
  }

  lemma WalkFirst(st: State, lines: seq<string>)
    requires lines != []
    ensures Walk(st, lines) == Walk(Next(st, lines[0]), lines[1..])
  {
  }

  // Text without fences.

  lemma FenceFreeConcat(a: seq<string>, b: seq<string>)
    ensures FenceFree(a + b) <==> FenceFree(a) && FenceFree(b)
  {
    hide Fence;
    if FenceFree(a + b) {
      forall i | 0 <= i < |a| ensures !Fence(a[i]) { assert (a + b)[i] == a[i]; }
      forall i | 0 <= i < |b| ensures !Fence(b[i]) { assert (a + b)[|a| + i] == b[i]; }
    }
  }

  lemma FenceFreeParts(st: State, lines: seq<string>)
    requires lines != [] && FenceFree(lines)
    ensures !Fence(lines[0]) && FenceFree(TailLines(st, lines)) && FenceFree(RestLines(st, lines))
  {
    hide Fence, TailOf;
  }

  lemma {:induction false} WalkFenceFree(st: State, lines: seq<string>)
    requires FenceFree(lines) && !st.inFence
    ensures !Walk(st, lines).inFence
    ensures PlainTail(lines) ==> Walk(st, lines) == st
    decreases |lines|
  {
    hide Fence, DoneHeading, Indented, Blank;
    if lines != [] {
      if Indented(lines[0]) || Blank(lines[0]) { IndentedIsPlain(lines[0]); }
      hide IsH2;
      WalkFenceFree(Next(st, lines[0]), lines[1..]);
    }
  }

  // What stays behind.

  /** The blocks that stay. */
  function Staying(o: Order, blocks: seq<Block>): seq<Block> {
    if blocks == [] then [] else (if Moves(o, blocks[0]) then [] else [blocks[0]]) + Staying(o, blocks[1..])
  }

  lemma PartsSplit(o: Order, b: Block, rest: seq<Block>)
    ensures Kept(o, [b] + rest) == (if Moves(o, b) then [] else Lines(b)) + Kept(o, rest)
    ensures Moved(o, [b] + rest) == (if Moves(o, b) then [Stamp(b.line, o.today)] + b.tail else []) + Moved(o, rest)
    ensures Staying(o, [b] + rest) == (if Moves(o, b) then [] else [b]) + Staying(o, rest)
  {
    hide Moves, Stamp;
    assert ([b] + rest)[1..] == rest;
  }

  lemma MovesCompleted(o: Order, b: Block)
    requires Moves(o, b)
    ensures Completed(b.line) && !b.state.done && !b.state.inFence
  {
    hide Completed, Approves;
  }

  /** A block that moves is an item, and leaves the walk where it was. */
  lemma MovedLeavesNoTrace(o: Order, st: State, lines: seq<string>)
    requires lines != [] && FenceFree(lines) && !st.inFence && Moves(o, FirstOf(st, lines))
    ensures RestState(st, lines) == st && TailLength(RestLines(st, lines)) == 0
  {
    hide Moves, TailLines, RestLines, Completed, FenceFree;
    FirstTail(st, lines);
    FenceFreeParts(st, lines);
    MovesCompleted(o, FirstOf(st, lines));
    CompletedIsItem(lines[0]);
    ItemIsPlain(lines[0]);
    assert Next(st, lines[0]) == st;
    WalkFenceFree(st, TailLines(st, lines));
    hide Fence, IsH2, DoneHeading, ListItem;
  }

  /** A line that starts no tail: if it is neither indented nor blank nothing behind it matters. */
  lemma TailFrom(line: string, rest: seq<string>)
    ensures TailLength([line] + rest) == 0 <==> !Indented(line) && (Blank(line) ==> TailLength(rest) == 0)
  {
    assert ([line] + rest)[1..] == rest;
    hide Indented, Blank;
  }

  /** What stays behind falls into the very blocks that stayed: taking a block out joins no other two. */
  lemma {:induction false} KeptBlocks(o: Order, st: State, lines: seq<string>)
    requires FenceFree(lines) && !st.inFence
    ensures Blocks(st, Kept(o, Blocks(st, lines))) == Staying(o, Blocks(st, lines))
    ensures TailLength(lines) == 0 ==> TailLength(Kept(o, Blocks(st, lines))) == 0
    decreases |lines|
  {
    hide *;
    if lines == [] {
      NothingStays(o, st);
    } else {
      var b, rest, next := FirstOf(st, lines), RestLines(st, lines), RestState(st, lines);
      FirstBlock(st, lines);
      PartsSplit(o, b, Blocks(next, rest));
      RestFenceFree(st, lines);
      KeptBlocks(o, next, rest);
      var kept := Kept(o, Blocks(next, rest));
      if Moves(o, b) {
        MovedLeavesNoTrace(o, st, lines);
        assert [] + kept == kept;
        assert [] + Staying(o, Blocks(next, rest)) == Staying(o, Blocks(next, rest));
      } else {
        FrontAgain(st, lines, kept);
        if TailLength(lines) == 0 { StayingTail(st, lines, kept); }
      }
    }
  }

  lemma NothingStays(o: Order, st: State)
    ensures Kept(o, Blocks(st, [])) == [] && Staying(o, Blocks(st, [])) == [] && Blocks(st, []) == [] && TailLength([]) == 0
  {
  }

  lemma RestFenceFree(st: State, lines: seq<string>)
    requires lines != [] && FenceFree(lines) && !st.inFence
    ensures FenceFree(RestLines(st, lines)) && !RestState(st, lines).inFence
  {
    hide FenceFree, Fence, TailLines, RestLines, Walk, IsH2, DoneHeading;
    FenceFreeParts(st, lines);
    WalkFenceFree(Next(st, lines[0]), TailLines(st, lines));
  }

  lemma StayingTail(st: State, lines: seq<string>, kept: seq<string>)
    requires lines != [] && TailLength(lines) == 0 && (TailLength(RestLines(st, lines)) == 0 ==> TailLength(kept) == 0)
    ensures TailLength(Lines(FirstOf(st, lines)) + kept) == 0
  {
    hide *;
    var tail, rest := TailLines(st, lines), RestLines(st, lines);
    FirstTail(st, lines);
    FirstLines(st, lines);
    assert lines == [lines[0]] + (tail + rest);
    TailFrom(lines[0], tail + rest);
    assert Lines(FirstOf(st, lines)) + kept == [lines[0]] + (tail + kept);
    TailFrom(lines[0], tail + kept);
    if Blank(lines[0]) {
      IndentedIsPlain(lines[0]);
      assert tail + rest == rest && tail + kept == kept;
    }
  }

  lemma FirstLines(st: State, lines: seq<string>)
    requires lines != []
    ensures Lines(FirstOf(st, lines)) == [lines[0]] + TailLines(st, lines)
    ensures lines == [lines[0]] + TailLines(st, lines) + RestLines(st, lines)
  {
  }

  // What relocating again finds to move.

  predicate NoMoves(o: Order, st: State, lines: seq<string>) {
    Moved(o, Blocks(st, lines)) == []
  }

  /** `again` moves nothing that `o` would have left. */
  ghost predicate ApprovesNoMore(again: Order, o: Order) {
    forall lines: seq<string> :: Approves(again, TaskRelocate, lines) ==> Approves(o, TaskRelocate, lines)
  }

  lemma {:induction false} StayingStays(again: Order, o: Order, blocks: seq<Block>)
    requires ApprovesNoMore(again, o)
    ensures Moved(again, Staying(o, blocks)) == []
  {
    hide Stray, Approves, Stamp;
    if blocks != [] {
      StayingStays(again, o, blocks[1..]);
      if !Moves(o, blocks[0]) { PartsSplit(again, blocks[0], Staying(o, blocks[1..])); }
      assert [] + Staying(o, blocks[1..]) == Staying(o, blocks[1..]);
    }
  }

  lemma {:induction false} MovedConcat(o: Order, a: seq<Block>, b: seq<Block>)
    ensures Moved(o, a + b) == Moved(o, a) + Moved(o, b)
  {
    hide Moves, Stamp;
    if a == [] {
      assert a + b == b;
    } else {
      assert (a + b)[1..] == a[1..] + b;
      MovedConcat(o, a[1..], b);
    }
  }

  lemma NoMovesConcat(o: Order, st: State, a: seq<string>, b: seq<string>)
    requires TailLength(b) == 0
    ensures NoMoves(o, st, a + b) <==> NoMoves(o, st, a) && NoMoves(o, Walk(st, a), b)
  {
    BlocksConcat(st, a, b);
    MovedConcat(o, Blocks(st, a), Blocks(Walk(st, a), b));
    hide Moved, Blocks, Walk;
  }

  /** A line that is no item is a block by itself, and stays. */
  lemma PlainLine(o: Order, st: State, line: string, rest: seq<string>)
    requires !ListItem(line)
    ensures NoMoves(o, st, [line] + rest) <==> NoMoves(o, Next(st, line), rest)
  {
    hide Moved, Blocks, Next, Noted, ListItem;
    assert [line] + [] + rest == [line] + rest;
    BlockInFront(st, line, [], rest);
    var b := Block(line, Noted(st, line), []);
    PartsSplit(o, b, Blocks(Next(st, line), rest));
    if Moves(o, b) {
      MovesCompleted(o, b);
      CompletedIsItem(line);
    }
  }

  lemma {:induction false} DropTail(o: Order, st: State, tail: seq<string>, rest: seq<string>)
    requires PlainTail(tail) && FenceFree(tail) && !st.inFence
    ensures NoMoves(o, st, tail + rest) <==> NoMoves(o, st, rest)
    decreases |tail|
  {
    hide NoMoves, Fence, ListItem, IsH2, Indented, Blank;
    if tail == [] {
      assert tail + rest == rest;
    } else {
      IndentedIsPlain(tail[0]);
      PlainLine(o, st, tail[0], tail[1..] + rest);
      assert tail + rest == [tail[0]] + (tail[1..] + rest);
      DropTail(o, st, tail[1..], rest);
    }
  }

  lemma HeadingThen(o: Order, st: State, heading: string, rest: seq<string>)
    requires DoneHeading(heading) && !Fence(heading) && !st.inFence
    ensures TailLength([heading] + rest) == 0
    ensures NoMoves(o, st, [heading] + rest) <==> NoMoves(o, State(false, true), rest)
  {
    hide NoMoves, Fence;
    PlainLine(o, st, heading, rest);
    assert !IsSpace(heading[0]);
    TrimStartNoop(heading);
    TailFrom(heading, rest);
    hide TailLength;
  }

  /** An item in the Done section stays, and takes along whatever indented lines follow it. */
  lemma DoneItem(o: Order, st: State, line: string, tail: seq<string>, rest: seq<string>)
    requires st == State(false, true) && ListItem(line)
    requires TailLength(tail) == |tail| && FenceFree(tail) && FenceFree(rest) && NoMoves(o, st, rest)
    ensures NoMoves(o, st, [line] + tail + rest)
  {
    hide *;
    ItemInDone(line);
    var m := TailLength(rest);
    var more, after := rest[..m], rest[m..];
    assert more + after == rest;
    TailIsMaximal(rest);
    TailConcat(more, after);
    TailConcat(tail, more);
    FenceFreeConcat(more, after);
    FenceFreeConcat(tail, more);
    WholeTail(tail + more);
    WholeTail(more);
    BlockInFront(st, line, tail + more, after);
    assert [line] + (tail + more) + after == [line] + tail + rest;
    WalkFenceFree(st, tail + more);
    DropTail(o, st, more, after);
    DoneBlock(o, Block(line, st, tail + more), st, [line] + tail + rest, after);
  }

  lemma ItemInDone(line: string)
    requires ListItem(line)
    ensures var st := State(false, true); Next(st, line) == st == Noted(st, line)
  {
    ItemIsPlain(line);
  }

  lemma DoneBlock(o: Order, b: Block, st: State, lines: seq<string>, rest: seq<string>)
    requires Blocks(st, lines) == [b] + Blocks(st, rest) && b.state.done && NoMoves(o, st, rest)
    ensures NoMoves(o, st, lines)
  {
    hide Blocks, Moved;
    PartsSplit(o, b, Blocks(st, rest));
    hide Approves, Stamp;
  }

  lemma WholeTail(tail: seq<string>)
    requires TailLength(tail) == |tail|
    ensures PlainTail(tail)
  {
  }

  lemma StampNoFence(line: string, today: string)
    requires Completed(line)
    ensures !Fence(Stamp(line, today))
  {
    CompletedIsItem(line);
    StampKeepsItem(line, today);
    ItemIsPlain(Stamp(line, today));
  }

  lemma FenceFreeBlock(o: Order, b: Block)
    requires !Fence(b.line) && FenceFree(b.tail)
    ensures FenceFree(Lines(b)) && (Moves(o, b) ==> FenceFree([Stamp(b.line, o.today)] + b.tail))
  {
    hide Fence, Moves, Stamp, Completed;
    if Moves(o, b) {
      MovesCompleted(o, b);
      StampNoFence(b.line, o.today);
      assert FenceFree([Stamp(b.line, o.today)]);
      FenceFreeConcat([Stamp(b.line, o.today)], b.tail);
    }
    assert FenceFree([b.line]);
    FenceFreeConcat([b.line], b.tail);
  }

  lemma {:induction false} PartsFenceFree(o: Order, st: State, lines: seq<string>)
    requires FenceFree(lines)
    ensures FenceFree(Kept(o, Blocks(st, lines))) && FenceFree(Moved(o, Blocks(st, lines)))
    decreases |lines|
  {
    hide *;
    if lines == [] {
      NoPartsFenced(o, st);
    } else {
      var b := FirstOf(st, lines);
      var more := Blocks(RestState(st, lines), RestLines(st, lines));
      FirstBlock(st, lines);
      FirstIs(st, lines);
      PartsSplit(o, b, more);
      FenceFreeParts(st, lines);
      FenceFreeBlock(o, b);
      PartsFenceFree(o, RestState(st, lines), RestLines(st, lines));
      FenceFreeConcat(Lines(b), Kept(o, more));
      FenceFreeConcat([Stamp(b.line, o.today)] + b.tail, Moved(o, more));
      assert [] + Kept(o, more) == Kept(o, more) && [] + Moved(o, more) == Moved(o, more);
    }
  }

  lemma NoPartsFenced(o: Order, st: State)
    ensures FenceFree(Kept(o, Blocks(st, []))) && FenceFree(Moved(o, Blocks(st, [])))
  {
    hide Fence;
  }

  lemma NothingMoved(o: Order, st: State)
    ensures Moved(o, Blocks(st, [])) == []
  {
  }

  lemma FirstIs(st: State, lines: seq<string>)
    requires lines != []
    ensures FirstOf(st, lines) == Block(lines[0], Noted(st, lines[0]), TailLines(st, lines))
  {
  }

  /** Moved blocks are at home in front of whatever the Done section holds. */
  lemma {:induction false} MovedStays(again: Order, o: Order, st: State, lines: seq<string>, rest: seq<string>)
    requires FenceFree(lines) && FenceFree(rest) && NoMoves(again, State(false, true), rest)
    ensures NoMoves(again, State(false, true), Moved(o, Blocks(st, lines)) + rest)
    decreases |lines|
  {
    hide *;
    if lines == [] {
      NothingMoved(o, st);
      assert [] + rest == rest;
    } else {
      var b := FirstOf(st, lines);
      var more := Moved(o, Blocks(RestState(st, lines), RestLines(st, lines)));
      FirstBlock(st, lines);
      FirstTail(st, lines);
      FirstIs(st, lines);
      PartsSplit(o, b, Blocks(RestState(st, lines), RestLines(st, lines)));
      FenceFreeParts(st, lines);
      MovedStays(again, o, RestState(st, lines), RestLines(st, lines), rest);
      if Moves(o, b) {
        MovesCompleted(o, b);
        CompletedIsItem(b.line);
        StampKeepsItem(b.line, o.today);
        PartsFenceFree(o, RestState(st, lines), RestLines(st, lines));
        FenceFreeConcat(more, rest);
        DoneItem(again, State(false, true), Stamp(b.line, o.today), b.tail, more + rest);
        assert [Stamp(b.line, o.today)] + b.tail + more + rest == [Stamp(b.line, o.today)] + b.tail + (more + rest);
      } else {
        assert [] + more + rest == more + rest;
      }
    }
  }

  lemma TrimmedWord(t: string)
    requires t != "" && !IsSpace(t[0]) && !IsSpace(t[|t| - 1])
    ensures Trim(t) == t
  {
    TrimStartNoop(t);
  }

  /** A line that starts with neither white space nor a fence character is no fence. */
  lemma PlainStart(line: string)
    requires line == "" || (!IsSpace(line[0]) && line[0] != '`' && line[0] != '~')
    ensures !Fence(line)
  {
  }

  lemma DoneIsHeading()
    ensures DoneHeading(DONE) && !Fence(DONE) && !Fence("") && Blank("")
  {
    hide Fence, Trim, SameIgnoringCase;
    PlainStart(DONE);
    PlainStart("");
    DoneWord();
  }

  lemma DoneWord()
    ensures SameIgnoringCase(Trim(DONE[3..]), "done")
  {
    hide Trim;
    var t := DONE[3..];
    assert |DONE| == 7 && |t| == 4;
    assert t[0] == 'D' && t[1] == 'o' && t[2] == 'n' && t[3] == 'e';
    TrimmedWord(t);
  }

  /** Under the first Done heading of what stays. */
  lemma InsertUnder(again: Order, o: Order, lines: seq<string>, kept: seq<string>, i: nat)
    requires FenceFree(lines) && FenceFree(kept) && i < |kept| && DoneHeading(kept[i]) && NoMoves(again, START, kept)
    ensures NoMoves(again, START, kept[..i + 1] + Moved(o, Blocks(START, lines)) + kept[i + 1..])
  {
    hide NoMoves, DoneHeading, Fence, Moved, Blocks, Walk;
    var a, heading, rest := kept[..i], kept[i], kept[i + 1..];
    var moved := Moved(o, Blocks(START, lines));
    assert kept == a + ([heading] + rest);
    assert kept[..i + 1] + moved + rest == a + ([heading] + (moved + rest));
    WalkFenceFree(START, a);
    var st := Walk(START, a);
    HeadingThen(again, st, heading, rest);
    HeadingThen(again, st, heading, moved + rest);
    NoMovesConcat(again, START, a, [heading] + rest);
    NoMovesConcat(again, START, a, [heading] + (moved + rest));
    MovedStays(again, o, START, lines, rest);
  }

  /** Under a Done heading made for them. */
  lemma InsertNew(again: Order, o: Order, lines: seq<string>, kept: seq<string>)
    requires FenceFree(lines) && FenceFree(kept) && NoMoves(again, START, kept)
    ensures NoMoves(again, START, kept + NewSection(kept) + Moved(o, Blocks(START, lines)) + [""])
  {
    DoneIsHeading();
    BlankEnds(again);
    hide NoMoves, DoneHeading, Fence, Moved, Blocks, Walk, Blank, TailLength;
    var gap := if kept != [] && !Blank(kept[|kept| - 1]) then [""] else [];
    var moved := Moved(o, Blocks(START, lines));
    var section := [""] + (moved + [""]);
    assert kept + NewSection(kept) + moved + [""] == kept + (gap + ([DONE] + section));
    WalkFenceFree(START, kept);
    var st := Walk(START, kept);
    MovedStays(again, o, START, lines, [""]);
    DropTail(again, State(false, true), [""], moved + [""]);
    HeadingThen(again, st, DONE, section);
    DropTail(again, st, gap, [DONE] + section);
    TailFrom("", [DONE] + section);
    IndentedNot();
    assert [] + ([DONE] + section) == [DONE] + section;
    NoMovesConcat(again, START, kept, gap + ([DONE] + section));
  }

  lemma IndentedNot()
    ensures !Indented("")
  {
  }

  lemma BlankEnds(o: Order)
    ensures NoMoves(o, State(false, true), [""])
  {
    PlainLine(o, State(false, true), "", []);
    assert [""] + [] == [""];
  }

  /** Relocation settles. On a text without fences, relocating again changes nothing, whatever is approved each
      time, so long as the second time approves no block that the first had not. */
  lemma RelocationSettles(again: Order, o: Order, lines: seq<string>)
    requires FenceFree(lines) && ApprovesNoMore(again, o)
    ensures Relocated(again, Relocated(o, lines)) == Relocated(o, lines)
  {
    var blocks := Blocks(START, lines);
    var kept := Kept(o, blocks);
    KeptBlocks(o, START, lines);
    StayingStays(again, o, blocks);
    PartsFenceFree(o, START, lines);
    FindDoneFinds(kept);
    hide Fence, FenceFree, Blocks, Kept, Moved, Staying, FindDone, DoneHeading, NewSection, ApprovesNoMore;
    if Moved(o, blocks) == [] {
      AllKept(o, blocks);
      FlattenBlocks(START, lines);
    } else if FindDone(kept).Some? {
      InsertUnder(again, o, lines, kept, FindDone(kept).value);
    } else {
      InsertNew(again, o, lines, kept);
    }
    assert NoMoves(again, START, Relocated(o, lines));
  }

  lemma {:induction false} AllKept(o: Order, blocks: seq<Block>)
    requires Moved(o, blocks) == []
    ensures Kept(o, blocks) == Flatten(blocks)
  {
    hide Moves, Stamp;
    if blocks != [] { AllKept(o, blocks[1..]); }
  }
}
