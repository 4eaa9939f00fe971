/** What the log's printer writes and its parser reads, line by line. */
module LogCases {
  import opened Wrappers
  import opened Text
  import opened Log

  // ---------------------------------------------------------------- printing

  /** Every file touched is in the list. */
  lemma {:induction false} ListedFile(files: seq<string>, i: nat)
    requires i < |files|
    ensures exists k: nat :: OccursAt(CommaList(files), files[i], k)
  {
    if |files| == 1 {
      assert OccursAt(CommaList(files), files[i], 0);
    } else {
      var list := CommaList(files);
      var head := files[0] + ", ";
      assert list == head + CommaList(files[1..]);
      if i == 0 {
        assert list[..|files[0]|] == files[0];
        assert OccursAt(list, files[0], 0);
      } else {
        ListedFile(files[1..], i - 1);
        var k: nat :| OccursAt(CommaList(files[1..]), files[1..][i - 1], k);
        assert list[|head| + k..|head| + k + |files[i]|] == CommaList(files[1..])[k..k + |files[i]|];
        assert OccursAt(list, files[i], |head| + k);
      }
    }
  }

  /** A printed entry is its date, operation and summary on a line, and the list of files touched on the next. */
  lemma FormattedEntryHolds(opType: string, files: seq<string>, summary: string, date: string)
    ensures var first := "## [" + date + "] " + opType + " | " + summary;
            var second := "Files: " + CommaList(files);
            FormatLogEntry(opType, files, summary, date) == first + "\n" + second + "\n"
  {
    hide Join, CommaList;
    ThreeLines("## [" + date + "] " + opType + " | " + summary, "Files: " + CommaList(files));
  }

  lemma ThreeLines(first: string, second: string)
    ensures Join([first, second, ""]) == first + "\n" + second + "\n"
  {
    JoinFirst(second, [""]);
    JoinFirst(first, [second, ""]);
    assert [second] + [""] == [second, ""] && [first] + [second, ""] == [first, second, ""];
    assert Join([""]) == "";
    hide Join;
    assert first + "\n" + (second + "\n" + "") == first + "\n" + second + "\n";
  }

  // ---------------------------------------------------------------- recognising

  /** White space from place i up to place j, and none at j. */
  ghost predicate Gap(s: string, i: nat, j: nat) {
    i <= j <= |s| && Blank(s[i..j]) && (j < |s| ==> !IsSpace(s[j]))
  }

  lemma GapTrims(s: string, i: nat, j: nat)
    requires Gap(s, i, j)
    ensures TrimStart(s[i..]) == s[j..]
  {
    hide IsSpace, Blank;
    assert s[i..] == s[i..j] + s[j..];
    TrimStartBlankPrefix(s[i..j], s[j..]);
    if j < |s| { TrimStartNoop(s[j..]); } else { assert TrimStart("") == ""; }
  }

  lemma GapThere(s: string, i: nat) returns (j: nat)
    requires i <= |s|
    ensures i <= j <= |s| && Gap(s, i, j) && TrimStart(s[i..]) == s[j..]
  {
    hide IsSpace, Blank;
    var t := TrimStart(s[i..]);
    j := |s| - |t|;
    CutTwice(s, i, j);
    assert |s[i..]| - |t| == j - i;
  }

  lemma CutTwice(s: string, i: nat, j: nat)
    requires i <= j <= |s|
    ensures s[i..][..j - i] == s[i..j] && s[i..][j - i..] == s[j..]
  {
  }

  lemma OneGap(s: string, i: nat, j: nat, k: nat)
    requires Gap(s, i, j) && Gap(s, i, k)
    ensures j == k
  {
    hide IsSpace;
  }

  /** White space, perhaps a dash and white space again, a date, white space, and a long dash. */
  ghost predicate LegacyAt(s: string, a: nat, b: nat, c: nat) {
    && Gap(s, 0, a) && Gap(s, if a < |s| && s[a] == '-' then a + 1 else a, b)
    && DateAt(s[b..]) && b + 10 < c < |s| && Gap(s, b + 10, c) && s[c] == '\U{2014}'
  }

  /** A legacy entry starts with a date, perhaps as a list item, and a long dash. */
  lemma LegacyMeans(s: string)
    ensures IsLegacyEntryStart(s) <==> exists a: nat, b: nat, c: nat :: LegacyAt(s, a, b, c)
  {
    hide Gap, IsLegacyEntryStart, LegacyEnd, DateThenDash, DateAt;
    var a := GapThere(s, 0);
    var d := if a < |s| && s[a] == '-' then a + 1 else a;
    var b := GapThere(s, d);
    LegacyFrom(s, a, b);
    DashAfterDate(s, b);
    if DateThenDash(s[b..]) {
      var c: nat :| LegacyEnd(s, b, c);
      LegacyParts(s, a, b, c);
    }
    if x: nat, y: nat, c: nat :| LegacyAt(s, x, y, c) {
      LegacyParts(s, x, y, c);
      OneGap(s, 0, a, x);
      OneGap(s, d, b, y);
    }
  }

  lemma LegacyParts(s: string, a: nat, b: nat, c: nat)
    ensures LegacyAt(s, a, b, c) <==>
            Gap(s, 0, a) && Gap(s, if a < |s| && s[a] == '-' then a + 1 else a, b) && LegacyEnd(s, b, c)
  {
    hide DateAt;
  }

  lemma LegacyFrom(s: string, a: nat, b: nat)
    requires a <= |s| && Gap(s, 0, a)
    requires var d := if a < |s| && s[a] == '-' then a + 1 else a; d <= |s| && Gap(s, d, b)
    ensures b <= |s| && (IsLegacyEntryStart(s) <==> DateThenDash(s[b..]))
  {
    var d := if a < |s| && s[a] == '-' then a + 1 else a;
    assert b <= |s|;
    hide Gap, DateAt, TrimStart, IsSpace, DateThenDash, AfterBullet;
    GapTrims(s, 0, a);
    GapTrims(s, d, b);
    Bullet(s, a);
    assert s[0..] == s;
  }

  ghost predicate LegacyEnd(s: string, b: nat, c: nat) {
    b <= |s| && DateAt(s[b..]) && b + 10 < c < |s| && Gap(s, b + 10, c) && s[c] == '\U{2014}'
  }

  lemma Bullet(s: string, a: nat)
    requires a <= |s|
    ensures AfterBullet(s[a..]) == TrimStart(s[if a < |s| && s[a] == '-' then a + 1 else a..])
  {
    hide TrimStart;
    if a < |s| && s[a] == '-' { assert s[a..][1..] == s[a + 1..] && s[a..][..1] == "-"; }
    else if a < |s| { assert s[a..][0] != '-' && "-"[0] == '-'; }
  }

  lemma LongDash(t: string)
    ensures StartsWith(t, "\U{2014}") <==> t != "" && t[0] == '\U{2014}'
  {
  }

  lemma DashAfterDate(s: string, b: nat)
    requires b <= |s|
    ensures DateThenDash(s[b..]) <==> exists c: nat :: LegacyEnd(s, b, c)
  {
    hide DateAt, TrimStart, IsSpace, StartsWith, Gap;
    if DateAt(s[b..]) && |s| > b + 10 {
      assert s[b..][10..] == s[b + 10..] && s[b..][10] == s[b + 10];
      var c := GapThere(s, b + 10);
      LongDash(s[b + 10..]);
      LongDash(TrimStart(s[b + 10..]));
      SpaceStarts(s, b + 10, c);
      if x: nat :| LegacyEnd(s, b, x) { OneGap(s, b + 10, c, x); }
      if DateThenDash(s[b..]) { assert LegacyEnd(s, b, c); }
    }
  }

  lemma SpaceStarts(s: string, i: nat, j: nat)
    requires i < |s| && Gap(s, i, j)
    ensures j <= |s| && (i < j <==> IsSpace(s[i]))
  {
    hide IsSpace;
    if i < j { assert s[i..j][0] == s[i]; }
  }

  /** A root heading is one number sign, alone or before anything but another. */
  lemma RootHeadingMeans(s: string)
    ensures IsRootHeading(s) <==> s != "" && s[0] == '#' && !(|s| > 1 && s[1] == '#')
  {
  }

  /** An entry starts at place i, at the beginning of a line. */
  predicate EntryAt(content: string, i: nat) {
    && i <= |content| && (i == 0 || content[i - 1] == '\n')
    && (IsStandardEntryStart(content[i..]) || IsLegacyEntryStart(content[i..]))
  }

  /** The first entry looked for is the first there is. */
  lemma {:induction false} FirstEntryMeans(content: string, p: nat)
    requires p <= |content|
    ensures match FirstEntry(content, p)
            case Some(i) => p <= i && EntryAt(content, i) && forall j: nat :: p <= j < i ==> !EntryAt(content, j)
            case None => forall j: nat :: p <= j ==> !EntryAt(content, j)
    decreases |content| - p
  {
    hide IsStandardEntryStart, IsLegacyEntryStart;
    if !EntryAt(content, p) && p < |content| { FirstEntryMeans(content, p + 1); }
  }

  // ---------------------------------------------------------------- parsing

  /** The entries of some lines, read on their own. */
  function EntriesOf(lines: seq<string>): seq<string> {
    Parse([], [], false).Lines(lines).Flush().entries
  }

  /** Entries already found do not matter to the lines that follow. */
  lemma {:induction false} FoundStays(found: seq<string>, current: seq<string>, standard: bool, lines: seq<string>)
    ensures Parse(found, current, standard).Lines(lines).Flush().entries == found + Parse([], current, standard).Lines(lines).Flush().entries
    decreases |lines|
  {
    hide Kind, Trim, Join;
    if lines == [] {
      assert found + [] == found;
    } else {
      var p, q := Parse(found, current, standard), Parse([], current, standard);
      LineFoundStays(found, current, standard, lines[0]);
      var p1, q1 := p.Line(lines[0]), q.Line(lines[0]);
      hide Parse.Line, Parse.Flush;
      FoundStays(p1.entries, p1.current, p1.standard, lines[1..]);
      FoundStays(q1.entries, q1.current, q1.standard, lines[1..]);
      var rest := Parse([], p1.current, p1.standard).Lines(lines[1..]).Flush().entries;
      assert (found + q1.entries) + rest == found + (q1.entries + rest);
    }
  }

  lemma LineFoundStays(found: seq<string>, current: seq<string>, standard: bool, line: string)
    ensures var p, q := Parse(found, current, standard).Line(line), Parse([], current, standard).Line(line);
            p.entries == found + q.entries && p.current == q.current && p.standard == q.standard
  {
    hide Kind, Trim, Join;
    assert found + [] == found;
  }

  /** A legacy line is an entry by itself, trimmed: it ends whatever was open, and the lines after it are read anew. */
  lemma LegacyIsAnEntry(before: seq<string>, line: string, after: seq<string>)
    requires Kind(line).Legacy?
    ensures EntriesOf(before + [line] + after) == EntriesOf(before) + (if Blank(line) then [] else [Trim(line)]) + EntriesOf(after)
  {
    hide Kind, Trim, Parse.Lines;
    var p := Parse([], [], false).Lines(before);
    LinesConcat(Parse([], [], false), before + [line], after);
    LinesSnoc(Parse([], [], false), before, line);
    LegacyLine(p, line);
    FoundStays(p.Line(line).entries, [], false, after);
  }

  lemma LegacyLine(p: Parse, line: string)
    requires Kind(line).Legacy?
    ensures p.Line(line) == Parse(p.Flush().entries + if Blank(line) then [] else [Trim(line)], [], false)
  {
    hide Kind, Trim, Join, Parse.Flush, Blank;
    TrimOne(line);
    var q := p.Flush().(current := [Trim(line)]);
    FlushIs(p);
    FlushIs(q);
    assert p.Line(line) == q.Flush();
  }

  lemma TrimOne(line: string)
    ensures Trim(Join([Trim(line)])) == Trim(line) && (Trim(line) == "" <==> Blank(line))
  {
    assert Join([Trim(line)]) == Trim(line);
    TrimTwice(line);
    InkTrim(line);
    InkBlank(line);
    InkBlank(Trim(line));
  }

  lemma TrimTwice(line: string)
    ensures Trim(Trim(line)) == Trim(line)
  {
    var t := Trim(line);
    if t != "" {
      assert !IsSpace(t[|t| - 1]);
      assert t[0] == TrimStart(line)[0];
      TrimStartNoop(t);
    }
  }

  /** A standard entry is its first line and everything up to the next entry, heading or end, trimmed. */
  lemma StandardRunsOn(before: seq<string>, line: string, body: seq<string>, after: seq<string>)
    requires Kind(line).Standard? && forall i :: 0 <= i < |body| ==> Kind(body[i]).Other?
    requires after != [] ==> !Kind(after[0]).Other?
    ensures EntriesOf(before + [line] + body + after) ==
            EntriesOf(before) + (var entry := Trim(Join([line] + body)); if entry == "" then [] else [entry]) + EntriesOf(after)
  {
    hide Kind, Trim, Join, Parse.Lines, Parse.Flush;
    var start := Parse([], [], false);
    var p := start.Lines(before);
    LinesConcat(start, before + [line] + body, after);
    LinesConcat(start, before + [line], body);
    LinesSnoc(start, before, line);
    var open := p.Line(line);
    StandardLine(p, line);
    BodyRead(open, body);
    var q := Parse(open.entries, [line] + body, true);
    EndsHere(q, after);
    FoundStays(q.Flush().entries, [], false, after);
    FlushIs(q);
  }

  lemma StandardLine(p: Parse, line: string)
    requires Kind(line).Standard?
    ensures p.Line(line) == Parse(p.Flush().entries, [line], true)
  {
    hide Kind, Trim, Join;
  }

  lemma FlushIs(p: Parse)
    ensures p.Flush() == Parse(p.entries + (if Trim(Join(p.current)) == "" then [] else [Trim(Join(p.current))]), [], false)
  {
    hide Trim, Join;
    assert p.entries + [] == p.entries;
  }

  lemma {:induction false} BodyRead(p: Parse, body: seq<string>)
    requires p.standard && forall i :: 0 <= i < |body| ==> Kind(body[i]).Other?
    ensures p.Lines(body) == Parse(p.entries, p.current + body, true)
    decreases |body|
  {
    hide Kind, Trim, Join;
    if body == [] {
      assert p.current + [] == p.current;
    } else {
      BodyRead(p.Line(body[0]), body[1..]);
      assert p.current + [body[0]] + body[1..] == p.current + body;
    }
  }

  /** Before an entry start, a heading or the end an open entry may as well be closed first. */
  lemma EndsHere(p: Parse, after: seq<string>)
    requires p.standard && (after != [] ==> !Kind(after[0]).Other?)
    ensures p.Lines(after).Flush().entries == p.Flush().Lines(after).Flush().entries
  {
    hide Kind, Trim, Join;
    TwiceFlushed(p);
    if after != [] { ClosedFirst(p, after[0]); }
    hide Parse.Line, Parse.Flush;
  }

  lemma TwiceFlushed(p: Parse)
    ensures p.Flush().Flush() == p.Flush()
  {
    NothingTrims();
    hide Trim, Join;
  }

  lemma NothingTrims()
    ensures Trim(Join([])) == ""
  {
  }

  lemma ClosedFirst(p: Parse, line: string)
    requires p.standard && !Kind(line).Other?
    ensures p.Line(line) == p.Flush().Line(line)
  {
    TwiceFlushed(p);
    hide Kind, Trim, Join;
  }

  /** Lines before the first entry, and those between a heading and the next entry, belong to none. */
  lemma {:induction false} OutsideIgnored(lines: seq<string>, after: seq<string>)
    requires forall i :: 0 <= i < |lines| ==> Kind(lines[i]).Other? || Kind(lines[i]).RootHeading?
    ensures EntriesOf(lines + after) == EntriesOf(after)
  {
    hide Kind, Trim, Join;
    if lines == [] {
      assert lines + after == after;
    } else {
      assert (lines + after)[1..] == lines[1..] + after;
      OutsideIgnored(lines[1..], after);
    }
  }

  // ---------------------------------------------------------------- pages

  /** A page is the entries from the offset on, at most as many as the limit; its header numbers them, counting from
      one, exactly when there are others. */
  lemma PageExactly(entries: seq<string>, limit: nat, offset: int)
    ensures var page := PageOf(entries, limit, offset);
            var start := if offset < 0 then 0 else offset;
            if entries == [] then page == NoEntries
            else if start >= |entries| || limit == 0 then page == NoneAtOffset(start, |entries|)
            else
              var end := if start + limit < |entries| then start + limit else |entries|;
              page == Shown(if start > 0 || |entries| > limit then Some((start + 1, end, |entries|)) else None, entries[start..end])
  {
  }
}
