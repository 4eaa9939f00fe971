/** Which lines of TASKS.md each fix takes, in terms of the lines, their dates and what was approved alone. */
module LintCases {
  import opened Wrappers
  import opened Text
  import opened LintLines
  import opened LintFix
  import opened LintTransforms

  // ---------------------------------------------------------------- where a line stands

  function Fences(lines: seq<string>): nat {
    if lines == [] then 0 else (if Fence(lines[0]) then 1 else 0) + Fences(lines[1..])
  }

  /** A level-two heading with an even number of fences before it. */
  ghost predicate HeadingAt(lines: seq<string>, j: nat) {
    j < |lines| && IsH2(lines[j]) && !Fence(lines[j]) && Fences(lines[..j]) % 2 == 0
  }

  /** The last such heading is "Done". */
  ghost predicate UnderDone(lines: seq<string>) {
    exists j: nat :: HeadingAt(lines, j) && DoneHeading(lines[j]) && forall k: nat :: j < k ==> !HeadingAt(lines, k)
  }

  lemma {:induction false} FencesSnoc(lines: seq<string>, line: string)
    ensures Fences(lines + [line]) == Fences(lines) + if Fence(line) then 1 else 0
  {
    hide Fence;
    if lines == [] {
      assert lines + [line] == [line] && [line][1..] == [];
    } else {
      assert (lines + [line])[1..] == lines[1..] + [line];
      FencesSnoc(lines[1..], line);
    }
  }

  /** The walk knows whether the number of fences is odd, and whether the last heading outside them is "Done". */
  lemma {:induction false} WalkStands(lines: seq<string>)
    ensures Walk(START, lines).inFence <==> Fences(lines) % 2 == 1
    ensures Walk(START, lines).done <==> UnderDone(lines)
    decreases |lines|
  {
    hide Fence, IsH2, DoneHeading, Walk, UnderDone;
    if lines == [] {
      NoLines();
    } else {
      var before, line := lines[..|lines| - 1], lines[|lines| - 1];
      assert lines == before + [line];
      WalkStands(before);
      WalkSnoc(START, before, line);
      FencesSnoc(before, line);
      HeadingSnoc(before, line);
      DoneIsHeadingLine(line);
    }
  }

  lemma DoneIsHeadingLine(line: string)
    ensures DoneHeading(line) ==> IsH2(line)
  {
  }

  lemma NoLines()
    ensures Walk(START, []) == START && Fences([]) == 0 && !UnderDone([])
  {
  }

  lemma HeadingSnoc(before: seq<string>, line: string)
    ensures var lines := before + [line];
            UnderDone(lines) <==> if HeadingAt(lines, |before|) then DoneHeading(line) else UnderDone(before)
    ensures HeadingAt(before + [line], |before|) <==> IsH2(line) && !Fence(line) && Fences(before) % 2 == 0
  {
    hide Fence, IsH2, DoneHeading, Fences;
    var lines := before + [line];
    assert lines[..|before|] == before;
    forall j: nat | j < |before| ensures HeadingAt(lines, j) <==> HeadingAt(before, j) {
      assert lines[..j] == before[..j];
    }
    if UnderDone(lines) {
      var j: nat :| HeadingAt(lines, j) && DoneHeading(lines[j]) && forall k: nat :: j < k ==> !HeadingAt(lines, k);
      if j < |before| { assert HeadingAt(before, j) && !HeadingAt(lines, |before|); }
    }
    if HeadingAt(lines, |before|) && DoneHeading(line) {
      assert forall k: nat :: |before| < k ==> !HeadingAt(lines, k);
    }
    if !HeadingAt(lines, |before|) && UnderDone(before) {
      var j: nat :| HeadingAt(before, j) && DoneHeading(before[j]) && forall k: nat :: j < k ==> !HeadingAt(before, k);
      assert HeadingAt(lines, j);
    }
  }

  /** So a line is noted as fenced when it is a fence or follows an odd number of them, and as done under the last
      heading up to itself. */
  lemma NotedStands(lines: seq<string>, i: nat)
    requires i < |lines|
    ensures var st := Noted(Walk(START, lines[..i]), lines[i]);
            && (st.inFence <==> Fence(lines[i]) || Fences(lines[..i]) % 2 == 1)
            && (st.done <==> UnderDone(lines[..i + 1]))
  {
    WalkStands(lines[..i]);
    WalkStands(lines[..i + 1]);
    assert lines[..i + 1] == lines[..i] + [lines[i]];
    WalkSnoc(START, lines[..i], lines[i]);
    hide Walk, UnderDone, IsH2, DoneHeading, Fences;
  }

  /** Flush with the margin, and not empty. */
  predicate Flush(line: string) {
    !Indented(line) && !Blank(line)
  }

  /** A tail runs up to the last indented line before the first flush one. */
  lemma {:induction false} TailMeans(lines: seq<string>)
    ensures var n := TailLength(lines);
            && (n > 0 ==> Indented(lines[n - 1])) && (forall i :: 0 <= i < n ==> !Flush(lines[i]))
            && forall m :: n <= m < |lines| && Indented(lines[m]) ==> exists i :: n <= i < m && Flush(lines[i])
  {
    hide Indented, Blank;
    if lines != [] {
      var rest, n := lines[1..], TailLength(lines);
      TailMeans(rest);
      if n > 1 { assert lines[n - 1] == rest[n - 2]; }
      assert forall i :: 1 <= i < |lines| ==> lines[i] == rest[i - 1];
      BlankOrIndented(lines[0]);
      forall m | n <= m < |lines| && Indented(lines[m]) ensures exists i :: n <= i < m && Flush(lines[i]) {
        if !Flush(lines[0]) {
          assert Indented(rest[m - 1]);
          var i :| TailLength(rest) <= i < m - 1 && Flush(rest[i]);
          assert Flush(lines[i + 1]);
        }
      }
    }
  }

  lemma BlankOrIndented(line: string)
    ensures !(Blank(line) && Indented(line))
  {
  }

  /** Block k starts where the ones before it end; it is noted as its line stands; and an item outside a fence, and
      nothing else, takes along its tail. */
  ghost predicate BlockIs(st: State, lines: seq<string>, blocks: seq<Block>, k: nat)
    requires k < |blocks|
  {
    var start := |Flatten(blocks[..k])|;
    && start < |lines| && blocks[k].line == lines[start] && blocks[k].state == Noted(Walk(st, lines[..start]), lines[start])
    && blocks[k].tail == (if !blocks[k].state.inFence && ListItem(lines[start])
                          then lines[start + 1..][..TailLength(lines[start + 1..])] else [])
  }

  lemma {:induction false} BlocksExactly(st: State, lines: seq<string>, k: nat)
    requires k < |Blocks(st, lines)|
    ensures BlockIs(st, lines, Blocks(st, lines), k)
    decreases |lines|
  {
    hide ListItem, TailLength, Noted, Next, Walk, TailLines, RestLines, RestState, BlockIs, FirstOf, Flatten;
    FirstBlock(st, lines);
    var b, rest, next := FirstOf(st, lines), RestLines(st, lines), RestState(st, lines);
    if k == 0 {
      FirstBlockIs(st, lines);
    } else {
      BlocksExactly(next, rest, k - 1);
      WalkLines(st, lines);
      BlockShifts(st, b, rest, Blocks(next, rest), k - 1);
    }
    hide Blocks;
  }

  lemma FirstBlockIs(st: State, lines: seq<string>)
    requires lines != []
    ensures BlockIs(st, lines, Blocks(st, lines), 0)
  {
    hide ListItem, TailLength, Noted, Next, Walk, TailLines, Blocks;
    FirstBlock(st, lines);
    FirstIs(st, lines);
    FirstTakes(st, lines);
    WalkNothing(st);
    assert Blocks(st, lines)[..0] == [] && lines[..0] == [];
  }

  lemma BlockShifts(st: State, b: Block, rest: seq<string>, more: seq<Block>, k: nat)
    requires k < |more| && BlockIs(Walk(st, Lines(b)), rest, more, k)
    ensures BlockIs(st, Lines(b) + rest, [b] + more, k + 1)
  {
    hide ListItem, TailLength, Noted, Next, Walk, Flatten;
    var lines := Lines(b) + rest;
    assert ([b] + more)[..k + 1] == [b] + more[..k];
    FlattenFirst(b, more[..k]);
    var n, start := |Lines(b)|, |Flatten(more[..k])|;
    assert lines[n + start] == rest[start] && lines[n + start + 1..] == rest[start + 1..];
    assert lines[..n + start] == Lines(b) + rest[..start];
    LintFix.WalkConcat(st, Lines(b), rest[..start]);
  }

  lemma FirstTakes(st: State, lines: seq<string>)
    requires lines != []
    ensures TailLines(st, lines) == if !Noted(st, lines[0]).inFence && ListItem(lines[0]) then lines[1..][..TailLength(lines[1..])] else []
  {
    hide ListItem, Noted;
  }

  lemma WalkLines(st: State, lines: seq<string>)
    requires lines != []
    ensures Walk(st, Lines(FirstOf(st, lines))) == RestState(st, lines)
  {
    hide Next, Noted, TailLines;
    assert ([lines[0]] + TailLines(st, lines))[1..] == TailLines(st, lines);
  }

  // ---------------------------------------------------------------- picking blocks

  /** The blocks at the places marked `which`, in order. */
  function Pick(blocks: seq<Block>, marks: seq<bool>, which: bool): seq<Block>
    requires |marks| == |blocks|
  {
    if blocks == [] then [] else (if marks[0] == which then [blocks[0]] else []) + Pick(blocks[1..], marks[1..], which)
  }

  /** No approval set was given, or the id made of the trimmed lines is in it. */
  ghost predicate Chosen(o: Order, kind: Kind, lines: seq<string>) {
    o.approved.None? || o.id(kind, Trim(Join(lines))) in o.approved.value
  }

  /** Outside a fence, under Done, an item whose date is further back than the threshold. */
  ghost predicate Expired(o: Order, b: Block) {
    && !b.state.inFence && b.state.done && ListItem(b.line)
    && ParseDoneDate(b.line).Some? && o.age(ParseDoneDate(b.line).value, o.today) > o.threshold
  }

  /** Outside a fence, not under Done, a ticked task. */
  ghost predicate Misplaced(b: Block) {
    !b.state.inFence && !b.state.done && Completed(b.line)
  }

  /** Outside a fence, under Done, an item without a date. */
  ghost predicate Dateless(st: State, line: string) {
    !st.inFence && st.done && ListItem(line) && ParseDoneDate(line).None?
  }

  ghost predicate MarksExpired(o: Order, blocks: seq<Block>, marks: seq<bool>, asked: bool) {
    && |marks| == |blocks|
    && forall i :: 0 <= i < |blocks| ==>
         (marks[i] <==> Expired(o, blocks[i]) && (asked ==> Chosen(o, DoneArchive, [blocks[i].line] + blocks[i].tail)))
  }

  ghost predicate MarksMisplaced(o: Order, blocks: seq<Block>, marks: seq<bool>, asked: bool) {
    && |marks| == |blocks|
    && forall i :: 0 <= i < |blocks| ==>
         (marks[i] <==> Misplaced(blocks[i]) && (asked ==> Chosen(o, TaskRelocate, [blocks[i].line] + blocks[i].tail)))
  }

  /** What is archived is exactly the expired blocks that were chosen, line by line and in order, and the rest stays. */
  lemma {:induction false} ArchivesExactly(o: Order, blocks: seq<Block>, marks: seq<bool>)
    requires MarksExpired(o, blocks, marks, true)
    ensures Archived(o, blocks) == Flatten(Pick(blocks, marks, true))
    ensures Remaining(o, blocks) == Flatten(Pick(blocks, marks, false))
  {
    hide ListItem, Join, Trim;
    if blocks != [] {
      assert marks[0] <==> Archives(o, blocks[0]);
      ArchivesExactly(o, blocks[1..], marks[1..]);
      FlattenFirst(blocks[0], Pick(blocks[1..], marks[1..], true));
      FlattenFirst(blocks[0], Pick(blocks[1..], marks[1..], false));
      hide Archives, Expired, Chosen;
      assert [] + Archived(o, blocks[1..]) == Archived(o, blocks[1..]) && [] + Remaining(o, blocks[1..]) == Remaining(o, blocks[1..]);
      assert [] + Pick(blocks[1..], marks[1..], true) == Pick(blocks[1..], marks[1..], true);
      assert [] + Pick(blocks[1..], marks[1..], false) == Pick(blocks[1..], marks[1..], false);
    }
  }

  lemma FlattenFirst(b: Block, rest: seq<Block>)
    ensures Flatten([b] + rest) == Lines(b) + Flatten(rest)
  {
    assert ([b] + rest)[1..] == rest;
  }

  /** The plan of archiving lists exactly the expired blocks, chosen or not. */
  lemma {:induction false} PlansArchiving(o: Order, blocks: seq<Block>, marks: seq<bool>)
    requires MarksExpired(o, blocks, marks, false)
    ensures var gone := Pick(blocks, marks, true);
            && |ArchiveItems(o, blocks)| == |gone|
            && forall i :: 0 <= i < |gone| ==>
                 ArchiveItems(o, blocks)[i] == Item(o.id(DoneArchive, Trim(Join([gone[i].line] + gone[i].tail))), DoneArchive, gone[i].line)
  {
    hide ListItem, Join, Trim;
    if blocks != [] {
      assert marks[0] <==> Old(o, blocks[0]);
      PlansArchiving(o, blocks[1..], marks[1..]);
      hide Old, Expired, Chosen;
    }
  }

  /** The lines of some blocks moved under Done, each block dated. */
  function Stamps(blocks: seq<Block>, today: string): seq<string> {
    if blocks == [] then [] else [Stamp(blocks[0].line, today)] + blocks[0].tail + Stamps(blocks[1..], today)
  }

  /** What moves is exactly the misplaced blocks that were chosen, each dated, in order, and the rest stays as it is. */
  lemma {:induction false} RelocatesExactly(o: Order, blocks: seq<Block>, marks: seq<bool>)
    requires MarksMisplaced(o, blocks, marks, true)
    ensures Moved(o, blocks) == Stamps(Pick(blocks, marks, true), o.today)
    ensures Kept(o, blocks) == Flatten(Pick(blocks, marks, false))
  {
    hide Completed, Join, Trim, Stamp;
    if blocks != [] {
      var b, rest := blocks[0], blocks[1..];
      assert marks[0] <==> Moves(o, b);
      RelocatesExactly(o, rest, marks[1..]);
      FlattenFirst(b, Pick(rest, marks[1..], false));
      StampsFirst(b, Pick(rest, marks[1..], true), o.today);
      hide Moves, Misplaced, Chosen;
      assert [] + Moved(o, rest) == Moved(o, rest) && [] + Kept(o, rest) == Kept(o, rest);
      assert [] + Pick(rest, marks[1..], true) == Pick(rest, marks[1..], true);
      assert [] + Pick(rest, marks[1..], false) == Pick(rest, marks[1..], false);
    }
  }

  lemma StampsFirst(b: Block, rest: seq<Block>, today: string)
    ensures Stamps([b] + rest, today) == [Stamp(b.line, today)] + b.tail + Stamps(rest, today)
  {
    hide Stamp;
    assert ([b] + rest)[1..] == rest;
  }

  /** The plan of relocation lists exactly the misplaced blocks, chosen or not. */
  lemma {:induction false} PlansRelocation(o: Order, blocks: seq<Block>, marks: seq<bool>)
    requires MarksMisplaced(o, blocks, marks, false)
    ensures var stray := Pick(blocks, marks, true);
            && |RelocateItems(o.id, blocks)| == |stray|
            && forall i :: 0 <= i < |stray| ==>
                 RelocateItems(o.id, blocks)[i] == Item(o.id(TaskRelocate, Trim(Join([stray[i].line] + stray[i].tail))), TaskRelocate, stray[i].line)
  {
    hide Completed, Join, Trim;
    if blocks != [] {
      assert marks[0] <==> Stray(blocks[0]);
      PlansRelocation(o, blocks[1..], marks[1..]);
      hide Stray, Misplaced, Chosen;
    }
  }

  /** A line gets today's date exactly when it is a dateless item and was chosen; every other stays. */
  lemma {:induction false} StampsExactly(o: Order, st: State, lines: seq<string>, i: nat)
    requires i < |lines|
    ensures Stamped(o, st, lines)[i] ==
            if Dateless(Noted(Walk(st, lines[..i]), lines[i]), lines[i]) && Chosen(o, DoneStamp, [lines[i]])
            then lines[i] + " (done " + o.today + ")" else lines[i]
    decreases |lines|
  {
    hide ListItem, Join, Trim, Noted, Next;
    if i == 0 {
      assert lines[..0] == [];
    } else {
      StampsExactly(o, Next(st, lines[0]), lines[1..], i - 1);
      assert lines[..i][1..] == lines[1..][..i - 1];
      hide StampLine, Dateless, Chosen;
    }
  }

  /** The plan of stamping lists exactly the dateless items, chosen or not. */
  lemma {:induction false} PlansStamping(id: (Kind, string) -> string, st: State, lines: seq<string>, line: string)
    ensures Item(id(DoneStamp, Trim(Join([line]))), DoneStamp, line) in StampItems(id, st, lines) <==>
            exists i :: 0 <= i < |lines| && lines[i] == line && Dateless(Noted(Walk(st, lines[..i]), lines[i]), lines[i])
    decreases |lines|
  {
    hide ListItem, Join, Trim, Noted, Next, Dateless;
    if lines != [] {
      var rest, next := lines[1..], Next(st, lines[0]);
      PlansStamping(id, next, rest, line);
      DatelessIs(Noted(st, lines[0]), lines[0]);
      assert lines[..0] == [] && Walk(st, []) == st;
      forall i | 1 <= i < |lines| ensures Walk(st, lines[..i]) == Walk(next, rest[..i - 1]) && lines[i] == rest[i - 1] {
        assert lines[..i][1..] == rest[..i - 1];
      }
      if i :| 0 <= i < |rest| && rest[i] == line && Dateless(Noted(Walk(next, rest[..i]), rest[i]), rest[i]) {
        assert lines[i + 1] == line && Walk(st, lines[..i + 1]) == Walk(next, rest[..i]);
      }
      hide Walk, Stampable;
    }
  }

  lemma DatelessIs(st: State, line: string)
    ensures Dateless(st, line) <==> Stampable(st, line)
  {
  }

  // ---------------------------------------------------------------- where the moved lines go

  /** Right under the first Done heading of what stays, or under one made at its end, set off by blank lines. */
  lemma InsertsExactly(kept: seq<string>, moved: seq<string>)
    ensures match FindDone(kept)
            case Some(i) =>
              && DoneHeading(kept[i]) && (forall j :: 0 <= j < i ==> !DoneHeading(kept[j]))
              && Insert(kept, moved) == kept[..i + 1] + moved + kept[i + 1..]
            case None =>
              && (forall j :: 0 <= j < |kept| ==> !DoneHeading(kept[j]))
              && Insert(kept, moved) == kept + (if kept != [] && !Blank(kept[|kept| - 1]) then [""] else []) + ["## Done", ""] + moved + [""]
  {
    hide DoneHeading, FindDone, Blank;
    FindDoneFinds(kept);
    var gap := if kept != [] && !Blank(kept[|kept| - 1]) then [""] else [];
    assert kept + (gap + ["## Done", ""]) == kept + gap + ["## Done", ""];
  }

  // ---------------------------------------------------------------- what the recognisers match

  /** `[x]` and white space at place n, after nothing but white space from place `from` on. */
  ghost predicate BoxAt(t: string, from: nat, n: nat) {
    && from < n && n + 4 <= |t| && (forall k :: from <= k < n ==> IsSpace(t[k]))
    && t[n] == '[' && (t[n + 1] == 'x' || t[n + 1] == 'X') && t[n + 2] == ']' && IsSpace(t[n + 3])
  }

  lemma {:induction false} SpacedBoxMeans(t: string, from: nat)
    requires from <= |t|
    ensures SpacedBox(t[from..]) <==> exists n: nat :: BoxAt(t, from, n)
    decreases |t| - from
  {
    hide IsSpace;
    if from < |t| {
      assert t[from..][0] == t[from] && t[from..][1..] == t[from + 1..];
      SpacedBoxMeans(t, from + 1);
      if n: nat :| BoxAt(t, from, n) {
        if n > from + 1 { assert BoxAt(t, from + 1, n); }
      }
      var next := from + 1;
      if n: nat :| BoxAt(t, next, n) {
        if IsSpace(t[from]) { assert BoxAt(t, from, n); }
      }
      if Box(t[from + 1..]) && IsSpace(t[from]) { assert BoxAt(t, from, from + 1); }
    }
  }

  /** A ticked task: a bullet, white space, a ticked box, white space. */
  lemma CompletedMeans(line: string)
    ensures Completed(line) <==> line != "" && (line[0] == '-' || line[0] == '*') && exists n: nat :: BoxAt(line, 1, n)
  {
    if line != "" { SpacedBoxMeans(line, 1); }
  }

  ghost predicate FenceFrom(line: string, from: nat, n: nat) {
    && from <= n && n + 3 <= |line| && (forall k :: from <= k < n ==> IsSpace(line[k]))
    && (line[n] == line[n + 1] == line[n + 2] == '`' || line[n] == line[n + 1] == line[n + 2] == '~')
  }

  /** A fence: three back-ticks or tildes after nothing but white space. */
  lemma {:induction false} FenceMeans(line: string, from: nat)
    requires from <= |line|
    ensures Fence(line[from..]) <==> exists n: nat :: FenceFrom(line, from, n)
    decreases |line| - from
  {
    hide IsSpace;
    if FenceMark(line[from..]) {
      assert FenceFrom(line, from, from);
    } else if from < |line| {
      assert line[from..][0] == line[from] && line[from..][1..] == line[from + 1..];
      FenceMeans(line, from + 1);
      if n: nat :| FenceFrom(line, from, n) { assert n > from && FenceFrom(line, from + 1, n); }
      var next := from + 1;
      if n: nat :| FenceFrom(line, next, n) {
        if IsSpace(line[from]) { assert FenceFrom(line, from, n); }
      }
    }
  }

  /** "(done", white space, and a date at place n. */
  ghost predicate DoneDate(line: string, i: nat, n: nat) {
    && i + 5 < n && n + 10 <= |line| && line[i..i + 5] == "(done" && (forall k :: i + 5 <= k < n ==> IsSpace(line[k]))
    && DateAt(line[n..])
  }

  lemma {:induction false} SpacedDateMeans(line: string, from: nat)
    requires from <= |line|
    ensures SpacedDate(line[from..]).Some? ==>
              exists n: nat :: from < n && n + 10 <= |line| && (forall k :: from <= k < n ==> IsSpace(line[k]))
                               && DateAt(line[n..]) && SpacedDate(line[from..]).value == line[n..n + 10]
    ensures forall n: nat :: from < n && n + 10 <= |line| && (forall k :: from <= k < n ==> IsSpace(line[k])) && DateAt(line[n..]) ==>
              SpacedDate(line[from..]).Some?
    decreases |line| - from
  {
    hide IsSpace;
    if from < |line| {
      assert line[from..][0] == line[from] && line[from..][1..] == line[from + 1..];
      SpacedDateMeans(line, from + 1);
      if IsSpace(line[from]) && DateAt(line[from + 1..]) {
        assert line[from..][1..11] == line[from + 1..from + 11];
      }
    }
  }

  /** The date of a line is that of its first "(done" with a date behind it, if there is one. */
  lemma {:induction false} DoneDateMeans(line: string, from: nat)
    requires from <= |line|
    ensures match ParseDoneDate(line[from..])
            case None => forall i: nat, n: nat :: from <= i ==> !DoneDate(line, i, n)
            case Some(date) =>
              exists i: nat, n: nat :: from <= i && DoneDate(line, i, n) && date == line[n..n + 10]
                                       && forall j: nat, m: nat :: from <= j < i ==> !DoneDate(line, j, m)
    decreases |line| - from
  {
    hide IsSpace;
    DoneAtMeans(line, from);
    if from < |line| {
      assert line[from..][1..] == line[from + 1..];
      DoneDateMeans(line, from + 1);
    }
    hide DoneAt, DoneDate;
  }

  lemma DoneAtMeans(line: string, i: nat)
    requires i <= |line|
    ensures match DoneAt(line[i..])
            case None => forall n: nat :: !DoneDate(line, i, n)
            case Some(date) => exists n: nat :: DoneDate(line, i, n) && date == line[n..n + 10]
  {
    hide IsSpace, SpacedDate, DateAt;
    if i + 5 <= |line| {
      assert line[i..][..5] == line[i..i + 5] && line[i..][5..] == line[i + 5..];
      var from := i + 5;
      SpacedDateMeans(line, from);
      if DoneAt(line[i..]).Some? {
        var n: nat :| from < n && n + 10 <= |line| && (forall k :: from <= k < n ==> IsSpace(line[k]))
                      && DateAt(line[n..]) && SpacedDate(line[from..]).value == line[n..n + 10];
        assert DoneDate(line, i, n);
      }
    }
  }
}
