/** The fix pipeline of `src/services/lint-apply.ts` over the transforms of `src/services/lint-fix.ts`, with their
    loops, proved against `LintFix`. */
module LintApply {
  import opened Wrappers
  import opened Text
  import opened LintLines
  import opened LintFix

  // ---------------------------------------------------------------- the transforms on text

  function RelocatedText(o: Order, content: string): string {
    var blocks := Blocks(START, Split(content));
    if Moved(o, blocks) == [] then content else Join(Insert(Kept(o, blocks), Moved(o, blocks)))
  }

  function StampedText(o: Order, content: string): string {
    Join(Stamped(o, START, Split(content)))
  }

  function RemainingText(o: Order, content: string): string {
    var blocks := Blocks(START, Split(content));
    if Archived(o, blocks) == [] then content else Join(Remaining(o, blocks))
  }

  function ArchiveText(o: Order, content: string, archive: string): string {
    var archived := Archived(o, Blocks(START, Split(content)));
    if archived == [] then archive else TrimEnd(archive) + "\n" + Join(archived) + "\n"
  }

  datatype Fixed = Fixed(tasks: string, archive: string)

  /** `computeFixes` on existing tasks. */
  function ComputedFixes(o: Order, tasks: string, archive: string): Fixed {
    var stamped := StampedText(o, RelocatedText(o, tasks));
    Fixed(RemainingText(o, stamped), ArchiveText(o, stamped, archive))
  }

  // ---------------------------------------------------------------- text and lines

  predicate AllNoNewline(lines: seq<string>) {
    forall i :: 0 <= i < |lines| ==> NoNewline(lines[i])
  }

  lemma NoNewlineConcat(a: seq<string>, b: seq<string>)
    ensures AllNoNewline(a + b) <==> AllNoNewline(a) && AllNoNewline(b)
  {
    if AllNoNewline(a + b) {
      forall i | 0 <= i < |a| ensures NoNewline(a[i]) { assert (a + b)[i] == a[i]; }
      forall i | 0 <= i < |b| ensures NoNewline(b[i]) { assert (a + b)[|a| + i] == b[i]; }
    }
  }

  lemma {:induction false} RelocateNoNewline(o: Order, blocks: seq<Block>)
    requires IsDate(o.today) && AllNoNewline(Flatten(blocks))
    ensures AllNoNewline(Kept(o, blocks)) && AllNoNewline(Moved(o, blocks))
  {
    if blocks != [] {
      var b, rest := blocks[0], blocks[1..];
      hide Moves, Stamp, NoNewline, IsDate, AllNoNewline;
      NoNewlineConcat(Lines(b), Flatten(rest));
      NoNewlineConcat([b.line], b.tail);
      RelocateNoNewline(o, rest);
      OneNoNewline(b.line, o.today);
      NoNewlineConcat([Stamp(b.line, o.today)], b.tail);
      NoNewlineConcat(Lines(b), Kept(o, rest));
      NoNewlineConcat([Stamp(b.line, o.today)] + b.tail, Moved(o, rest));
      assert [] + Kept(o, rest) == Kept(o, rest) && [] + Moved(o, rest) == Moved(o, rest);
    } else {
      assert AllNoNewline(Kept(o, blocks)) && AllNoNewline(Moved(o, blocks));
    }
  }

  lemma OneNoNewline(line: string, today: string)
    requires IsDate(today) && AllNoNewline([line])
    ensures AllNoNewline([Stamp(line, today)])
  {
    assert [line][0] == line;
    StampNoNewline(line, today);
    hide Stamp;
  }

  lemma InsertNoNewline(kept: seq<string>, moved: seq<string>)
    requires AllNoNewline(kept) && AllNoNewline(moved)
    ensures AllNoNewline(Insert(kept, moved)) && Insert(kept, moved) != []
  {
    HeadingNoNewline();
    hide NoNewline, FindDone, AllNoNewline, NewSection;
    if FindDone(kept).Some? {
      var i := FindDone(kept).value;
      assert kept == kept[..i + 1] + kept[i + 1..];
      NoNewlineConcat(kept[..i + 1], kept[i + 1..]);
      NoNewlineConcat(kept[..i + 1], moved);
      NoNewlineConcat(kept[..i + 1] + moved, kept[i + 1..]);
    } else {
      NewSectionNoNewline(kept);
      NoNewlineConcat(kept, NewSection(kept));
      NoNewlineConcat(kept + NewSection(kept), moved);
      NoNewlineConcat(kept + NewSection(kept) + moved, [""]);
    }
  }

  lemma HeadingNoNewline()
    ensures NoNewline(DONE) && AllNoNewline([""]) && AllNoNewline([DONE, ""])
  {
  }

  lemma NewSectionNoNewline(kept: seq<string>)
    ensures AllNoNewline(NewSection(kept))
  {
    HeadingNoNewline();
    hide NoNewline, Blank;
  }

  lemma SplitNoNewline(content: string)
    ensures AllNoNewline(Split(content))
  {
  }

  lemma RelocatedLines(o: Order, content: string)
    requires IsDate(o.today)
    ensures Split(RelocatedText(o, content)) == Relocated(o, Split(content))
  {
    hide Blocks, Flatten, Kept, Moved, Insert, Split, Join, IsDate, NoNewline;
    var blocks := Blocks(START, Split(content));
    FlattenBlocks(START, Split(content));
    SplitNoNewline(content);
    RelocateNoNewline(o, blocks);
    if Moved(o, blocks) != [] {
      InsertNoNewline(Kept(o, blocks), Moved(o, blocks));
      SplitJoin(Insert(Kept(o, blocks), Moved(o, blocks)));
    }
  }

  lemma StampedLineNoNewline(o: Order, st: State, line: string)
    requires IsDate(o.today) && NoNewline(line)
    ensures NoNewline(StampLine(o, st, line))
  {
    StampLineIs(o, st, line);
    StampNoNewline(line, o.today);
    hide Stamp, StampLine, NoNewline;
  }

  lemma {:induction false} StampedNoNewline(o: Order, st: State, lines: seq<string>)
    requires IsDate(o.today) && AllNoNewline(lines)
    ensures AllNoNewline(Stamped(o, st, lines))
    decreases |lines|
  {
    hide StampLine, Noted, Next, NoNewline, IsDate;
    if lines != [] {
      StampedLineNoNewline(o, Noted(st, lines[0]), lines[0]);
      StampedNoNewline(o, Next(st, lines[0]), lines[1..]);
    }
  }

  lemma StampedLines(o: Order, content: string)
    requires IsDate(o.today)
    ensures Split(StampedText(o, content)) == Stamped(o, START, Split(content))
  {
    StampedNoNewline(o, START, Split(content));
    SplitJoin(Stamped(o, START, Split(content)));
  }

  lemma {:induction false} ArchiveNoNewline(o: Order, blocks: seq<Block>)
    requires AllNoNewline(Flatten(blocks))
    ensures AllNoNewline(Remaining(o, blocks)) && AllNoNewline(Archived(o, blocks))
  {
    if blocks != [] {
      var b, rest := blocks[0], blocks[1..];
      hide Archives, NoNewline;
      NoNewlineConcat(Lines(b), Flatten(rest));
      ArchiveNoNewline(o, rest);
      NoNewlineConcat(Lines(b), Remaining(o, rest));
      NoNewlineConcat(Lines(b), Archived(o, rest));
      assert [] + Remaining(o, rest) == Remaining(o, rest) && [] + Archived(o, rest) == Archived(o, rest);
    }
  }

  /** Joining and splitting again can only turn no line into one blank line. */
  lemma JoinedCounts(lines: seq<string>, today: string, x: string)
    requires AllNoNewline(lines)
    ensures Tally(Split(Join(lines)), today, x) == Tally(lines, today, x) && Undated(Split(Join(lines)), x) == Undated(lines, x)
  {
    if lines == [] {
      BlanksCountNothing([""], today, x);
    } else {
      SplitJoin(lines);
    }
  }

  // ---------------------------------------------------------------- the pipeline loses nothing

  /** The archive as the pipeline extends it. */
  function ArchiveBase(o: Order, content: string, archive: string): string {
    if Archived(o, Blocks(START, Split(content))) == [] then archive else TrimEnd(archive)
  }

  lemma ArchivingCounts(o: Order, content: string, archive: string, x: string)
    ensures var t, a := Split(RemainingText(o, content)), Split(ArchiveText(o, content, archive));
            var base := Split(ArchiveBase(o, content, archive));
            && Tally(t, o.today, x) + Tally(a, o.today, x) == Tally(Split(content), o.today, x) + Tally(base, o.today, x)
            && Undated(t, x) + Undated(a, x) == Undated(Split(content), x) + Undated(base, x)
  {
    hide Blocks, Flatten, Remaining, Archived, Tally, Undated, Split, Join, TrimEnd, AllNoNewline;
    var lines := Split(content);
    var blocks := Blocks(START, lines);
    var archived := Archived(o, blocks);
    FlattenBlocks(START, lines);
    SplitNoNewline(content);
    ArchiveNoNewline(o, blocks);
    ArchiveCounts(o, blocks, x);
    if archived != [] {
      JoinedCounts(Remaining(o, blocks), o.today, x);
      AppendedLines(TrimEnd(archive), archived);
      TallyConcat(Split(TrimEnd(archive)), archived + [""], o.today, x);
      TallyConcat(archived, [""], o.today, x);
      BlanksCountNothing([""], o.today, x);
    }
  }

  /** The lines of an archive with some lines written after it. */
  lemma AppendedLines(base: string, lines: seq<string>)
    requires lines != [] && AllNoNewline(lines)
    ensures Split(base + "\n" + Join(lines) + "\n") == Split(base) + (lines + [""])
  {
    SplitJoin(lines);
    SplitEmpty();
    hide Split, Join, NoNewline;
    SplitConcat(Join(lines), "");
    SplitConcat(base, Join(lines) + "\n" + "");
    assert Join(lines) + "\n" + "" == Join(lines) + "\n";
    assert base + "\n" + (Join(lines) + "\n") == base + "\n" + Join(lines) + "\n";
  }

  lemma SplitEmpty()
    ensures Split("") == [""] && Blank("")
  {
  }

  /** The fix pipeline loses nothing. Every text of a non-blank line of TASKS.md and of the archive is in the new
      TASKS.md and archive together exactly as often as before, counting a line the same with and without the
      one stamp it may be given; no line is there more often unstamped; all that is added is at most one Done
      heading; and the archive's own text is kept but for white space at its very end. */
  lemma PipelineConserves(o: Order, tasks: string, archive: string, x: string)
    requires IsDate(o.today)
    ensures var fixed := ComputedFixes(o, tasks, archive);
            var stamped := StampedText(o, RelocatedText(o, tasks));
            var base := ArchiveBase(o, stamped, archive);
            && Tally(Split(fixed.tasks), o.today, x) + Tally(Split(fixed.archive), o.today, x)
               == Tally(Split(tasks), o.today, x) + Tally(Split(base), o.today, x) + Tally(Added(o, Split(tasks)), o.today, x)
            && Undated(Split(fixed.tasks), x) + Undated(Split(fixed.archive), x)
               <= Undated(Split(tasks), x) + Undated(Split(base), x) + Undated(Added(o, Split(tasks)), x)
            && |Added(o, Split(tasks))| <= 1
            && StartsWith(fixed.archive, base) && (base == archive || base == TrimEnd(archive))
  {
    hide RelocatedText, StampedText, RemainingText, ArchiveText, ArchiveBase, Tally, Undated, Split, Stamped, Relocated, IsDate, TrimEnd, Added;
    var relocated := RelocatedText(o, tasks);
    var stamped := StampedText(o, relocated);
    RelocatedLines(o, tasks);
    RelocateConserves(o, Split(tasks));
    StampedLines(o, relocated);
    StampingConserves(o, Split(relocated));
    ArchivingCounts(o, stamped, archive, x);
    BlanksCountNothing([], o.today, x);
    BaseStarts(o, stamped, archive);
    AtMostOneAdded(o, Split(tasks));
    assert Tally(Split(stamped), o.today, x) == Tally(Split(relocated), o.today, x) + Tally([], o.today, x);
    assert Tally(Split(relocated), o.today, x) == Tally(Split(tasks), o.today, x) + Tally(Added(o, Split(tasks)), o.today, x);
  }

  lemma AtMostOneAdded(o: Order, lines: seq<string>)
    ensures |Added(o, lines)| <= 1
  {
    hide Blocks, Moved, Kept, FindDone;
  }

  lemma BaseStarts(o: Order, content: string, archive: string)
    ensures StartsWith(ArchiveText(o, content, archive), ArchiveBase(o, content, archive))
    ensures ArchiveBase(o, content, archive) == archive || ArchiveBase(o, content, archive) == TrimEnd(archive)
  {
    hide Blocks, Archived, Join, TrimEnd;
    var archived := Archived(o, Blocks(START, Split(content)));
    if archived == [] {
      assert archive[..|archive|] == archive;
    } else {
      var base := TrimEnd(archive);
      assert ArchiveText(o, content, archive)[..|base|] == base;
    }
  }

  // ---------------------------------------------------------------- no approval, no change

  predicate NothingApproved(o: Order) {
    o.approved == Some({})
  }

  lemma {:induction false} NothingMoves(o: Order, blocks: seq<Block>)
    requires NothingApproved(o)
    ensures Moved(o, blocks) == [] && Archived(o, blocks) == []
  {
    hide IdOf, Stray, Old;
    if blocks != [] { NothingMoves(o, blocks[1..]); }
  }

  lemma {:induction false} NothingStamped(o: Order, st: State, lines: seq<string>)
    requires NothingApproved(o)
    ensures Stamped(o, st, lines) == lines
    decreases |lines|
  {
    hide IdOf, Stampable, Noted, Next;
    if lines != [] { NothingStamped(o, Next(st, lines[0]), lines[1..]); }
  }

  /** An empty approval set plans without changing a character. */
  lemma EmptyApprovalChangesNothing(o: Order, tasks: string, archive: string)
    requires NothingApproved(o)
    ensures ComputedFixes(o, tasks, archive) == Fixed(tasks, archive)
  {
    NothingMoves(o, Blocks(START, Split(tasks)));
    NothingStamped(o, START, Split(tasks));
    JoinSplit(tasks);
    hide Blocks, Moved, Archived, Stamped, Split, Join, Insert;
  }

  /** The pipeline's first step is idempotent on text without fences, whatever is approved. */
  lemma RelocationIsIdempotent(o: Order, content: string)
    requires IsDate(o.today) && FenceFree(Split(content))
    ensures RelocatedText(o, RelocatedText(o, content)) == RelocatedText(o, content)
  {
    hide Approves;
    RelocatedLines(o, content);
    RelocatedLines(o, RelocatedText(o, content));
    RelocationSettles(o, o, Split(content));
    JoinSplit(RelocatedText(o, RelocatedText(o, content)));
    JoinSplit(RelocatedText(o, content));
    hide RelocatedText, Relocated, Split, Join;
  }
}
