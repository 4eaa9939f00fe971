/** The append-only change log: `src/services/log.ts`. */
module Log {
  import opened Wrappers
  import opened Text

  // ---------------------------------------------------------------- recognisers

  /** `/^## \[\d{4}-\d{2}-\d{2}\]/` */
  predicate IsStandardEntryStart(s: string) {
    StartsWith(s, "## [") && DateAt(s[4..]) && |s| > 14 && s[14] == ']'
  }

  /** `/^\s*-?\s*\d{4}-\d{2}-\d{2}\s+—/` */
  predicate IsLegacyEntryStart(s: string) {
    DateThenDash(AfterBullet(TrimStart(s)))
  }

  /** Past an optional dash and the white space after it. */
  function AfterBullet(t: string): string {
    TrimStart(if StartsWith(t, "-") then t[1..] else t)
  }

  predicate DateThenDash(u: string) {
    DateAt(u) && |u| > 10 && IsSpace(u[10]) && StartsWith(TrimStart(u[10..]), "\U{2014}")
  }

  /** `/^#(?!#)/` */
  predicate IsRootHeading(s: string) {
    s != "" && s[0] == '#' && (|s| == 1 || s[1] != '#')
  }

  // ---------------------------------------------------------------- printing

  // The preamble's lines, in short pieces.
  const TITLE := "# Brain Change Log"
  const PURPOSE := "Append-only record" + " of ingests," + " updates, lint" + " passes, and" + " structural" + " changes."
  const FORMAT := "Format: `##" + " [YYYY-MM-DD]" + " OP_TYPE |" + " Summary`" + " followed by" + " files touched."
  const ORDERING := "Ordering: newest" + " entry first;" + " insert new" + " entries" + " directly below" + " this preamble."

  const HEADER_LINES: seq<string> := [TITLE, "", PURPOSE, FORMAT, ORDERING, "", "---", ""]

  const LOG_HEADER: string := Join(HEADER_LINES)

  const DIVIDER := "\n---\n"

  function CommaList(items: seq<string>): string {
    if items == [] then ""
    else if |items| == 1 then items[0]
    else items[0] + ", " + CommaList(items[1..])
  }

  /** `formatLogEntry`, with the date passed in instead of read from the clock. */
  function FormatLogEntry(opType: string, filesTouched: seq<string>, summary: string, date: string): string {
    Join(["## [" + date + "] " + opType + " | " + summary, "Files: " + CommaList(filesTouched), ""])
  }

  /** `firstRecognizedEntryMatch`: the first line start at or after `p` where an entry begins. */
  function FirstEntry(content: string, p: nat): (r: Option<nat>)
    requires p <= |content|
    ensures r.Some? ==> p <= r.value <= |content|
    decreases |content| - p
  {
    if (p == 0 || content[p - 1] == '\n') && (IsStandardEntryStart(content[p..]) || IsLegacyEntryStart(content[p..])) then Some(p)
    else if p == |content| then None
    else FirstEntry(content, p + 1)
  }

  /** `appendLogEntryToContent` */
  function AppendLogEntry(content: string, entry: string): string {
    var base := if Blank(content) then LOG_HEADER else content;
    match IndexOf(base, DIVIDER, 0)
    case None =>
      (match FirstEntry(base, 0)
       case Some(i) => TrimEnd(TrimEnd(base[..i]) + "\n\n" + entry + "\n" + TrimStart(base[i..])) + "\n"
       case None => TrimEnd(entry + "\n" + base) + "\n")
    case Some(dividerIndex) =>
      var insertAt := dividerIndex + |DIVIDER|;
      var prefix := base[..insertAt];
      var rest := TrimStart(base[insertAt..]);
      if rest != "" then prefix + "\n" + entry + "\n" + rest else prefix + "\n" + entry
  }

  /** The blank padding around an inserted entry adds no ink. */
  lemma InkAround(before: string, entry: string, after: string, pad: string)
    requires Blank(pad)
    ensures Ink(before + pad + entry + "\n" + after) == Ink(before) + Ink(entry) + Ink(after)
  {
    hide Ink;
    InkBlank(pad);
    InkBlank("\n");
    InkConcat(before + pad + entry + "\n", after);
    InkConcat(before + pad + entry, "\n");
    InkConcat(before + pad, entry);
    InkConcat(before, pad);
  }

  lemma InkCut(s: string, i: nat)
    requires i <= |s|
    ensures Ink(s[..i]) + Ink(s[i..]) == Ink(s)
  {
    hide Ink, IsSpace;
    InkConcat(s[..i], s[i..]);
    assert s == s[..i] + s[i..];
  }

  lemma InkEnded(s: string)
    ensures Ink(TrimEnd(s) + "\n") == Ink(s)
  {
    InkConcat(TrimEnd(s), "\n");
    InkTrimEnd(s);
    InkBlank("\n");
  }

  /** Where an entry goes in: below the divider, else before the first entry, else at the top. */
  function Place(base: string): (at: nat)
    ensures at <= |base|
  {
    match IndexOf(base, DIVIDER, 0)
    case Some(d) => d + |DIVIDER|
    case None =>
      match FirstEntry(base, 0)
      case Some(i) => i
      case None => 0
  }

  /** Appending puts the entry in at that one place: every printed character of log and entry is there, in order. */
  lemma AppendKeepsInk(content: string, entry: string)
    ensures var base := if Blank(content) then LOG_HEADER else content;
            && Ink(AppendLogEntry(content, entry)) == Ink(base[..Place(base)]) + Ink(entry) + Ink(base[Place(base)..])
            && |Ink(AppendLogEntry(content, entry))| == |Ink(base)| + |Ink(entry)|
  {
    hide LOG_HEADER, FirstEntry, TrimStart, TrimEnd, Ink, IndexOf, Blank, IsSpace;
    var base := if Blank(content) then LOG_HEADER else content;
    var at: nat;
    match IndexOf(base, DIVIDER, 0) {
      case None =>
        match FirstEntry(base, 0) {
          case Some(i) =>
            at := i;
            var a, z := TrimEnd(base[..i]), TrimStart(base[i..]);
            InkEnded(a + "\n\n" + entry + "\n" + z);
            InkPad(a, entry, z);
            InkTrimEnd(base[..i]);
            InkTrimStart(base[i..]);
          case None =>
            at := 0;
            InkEnded(entry + "\n" + base);
            InkFirst(entry, base);
            NoInk();
        }
      case Some(d) =>
        at := d + |DIVIDER|;
        InkInsert(base[..at], entry, TrimStart(base[at..]));
        NoInk();
        InkTrimStart(base[at..]);
    }
    InkCut(base, at);
    assert Ink(AppendLogEntry(content, entry)) == Ink(base[..at]) + Ink(entry) + Ink(base[at..]);
  }

  lemma NoInk()
    ensures Ink("") == ""
  {
  }

  lemma InkPad(a: string, entry: string, z: string)
    ensures Ink(a + "\n\n" + entry + "\n" + z) == Ink(a) + Ink(entry) + Ink(z)
  {
    InkAround(a, entry, z, "\n\n");
  }

  lemma InkFirst(entry: string, base: string)
    ensures Ink(entry + "\n" + base) == Ink(entry) + Ink(base)
  {
    InkAround("", entry, base, "");
    assert "" + "" + entry == entry;
  }

  lemma InkInsert(prefix: string, entry: string, rest: string)
    ensures Ink(prefix + "\n" + entry + "\n" + rest) == Ink(prefix) + Ink(entry) + Ink(rest)
    ensures rest == "" ==> Ink(prefix + "\n" + entry) == Ink(prefix) + Ink(entry)
  {
    InkAround(prefix, entry, rest, "\n");
    InkConcat(prefix + "\n", entry);
    InkConcat(prefix, "\n");
    InkBlank("\n");
  }

  /** So a receipt is never an identical-content no-op on LOG.md. */
  lemma AppendChangesContent(content: string, entry: string)
    requires !Blank(entry)
    ensures AppendLogEntry(content, entry) != content
  {
    hide LOG_HEADER, AppendLogEntry;
    AppendKeepsInk(content, entry);
    InkBlank(entry);
    InkBlank(content);
  }

  // ---------------------------------------------------------------- parsing

  datatype LineKind = Standard | Legacy | RootHeading | Other

  /** The tests of `parseLogEntries`, in its order. */
  function Kind(line: string): LineKind {
    if IsStandardEntryStart(line) then Standard
    else if IsLegacyEntryStart(line) then Legacy
    else if IsRootHeading(line) then RootHeading
    else Other
  }

  /** The entries found so far, the lines of the open entry, and whether it is a standard one. */
  datatype Parse = Parse(entries: seq<string>, current: seq<string>, standard: bool) {
    function Flush(): Parse {
      var entry := Trim(Join(current));
      Parse(if entry != "" then entries + [entry] else entries, [], false)
    }

    function Line(line: string): Parse {
      match Kind(line)
      case Standard => Flush().(current := [line], standard := true)
      case Legacy => Flush().(current := [Trim(line)]).Flush()
      case RootHeading => if standard then Flush() else this
      case Other => if standard then this.(current := current + [line]) else this
    }

    function Lines(lines: seq<string>): Parse
      decreases |lines|
    {
      if lines == [] then this else Line(lines[0]).Lines(lines[1..])
    }
  }

  function ParsedEntries(content: string): seq<string> {
    Parse([], [], false).Lines(Split(content)).Flush().entries
  }

  lemma {:induction false} LinesSnoc(p: Parse, lines: seq<string>, line: string)
    ensures p.Lines(lines + [line]) == p.Lines(lines).Line(line)
    decreases |lines|
  {
    if lines == [] {
      assert ([] + [line])[1..] == [];
      assert p.Lines([line]) == p.Line(line).Lines([]);
    } else {
      assert (lines + [line])[1..] == lines[1..] + [line];
      LinesSnoc(p.Line(lines[0]), lines[1..], line);
    }
  }

  lemma {:induction false} LinesConcat(p: Parse, a: seq<string>, b: seq<string>)
    ensures p.Lines(a + b) == p.Lines(a).Lines(b)
    decreases |a|
  {
    if a == [] {
      assert [] + b == b;
    } else {
      assert (a + b)[1..] == a[1..] + b;
      LinesConcat(p.Line(a[0]), a[1..], b);
    }
  }

  /** `parseLogEntries`, with its `flush` closure written out at each call. */
  method ParseLogEntries(content: string) returns (entries: seq<string>)
    ensures entries == ParsedEntries(content)
  {
    hide IsStandardEntryStart, IsLegacyEntryStart, IsRootHeading, Trim, Join;
    entries := [];
    var current: seq<string> := [];
    var currentIsStandard := false;
    var lines := Split(content);
    for i := 0 to |lines|
      invariant Parse(entries, current, currentIsStandard) == Parse([], [], false).Lines(lines[..i])
    {
      var line := lines[i];
      LinesSnoc(Parse([], [], false), lines[..i], line);
      assert lines[..i + 1] == lines[..i] + [line];
      if IsStandardEntryStart(line) {
        entries := Flush(entries, current);
        current := [line];
        currentIsStandard := true;
        continue;
      }
      if IsLegacyEntryStart(line) {
        entries := Flush(entries, current);
        current := [Trim(line)];
        entries := Flush(entries, current);
        current := [];
        currentIsStandard := false;
        continue;
      }
      if currentIsStandard && IsRootHeading(line) {
        entries := Flush(entries, current);
        current := [];
        currentIsStandard := false;
        continue;
      }
      if currentIsStandard {
        current := current + [line];
      }
    }
    assert lines[..|lines|] == lines;
    entries := Flush(entries, current);
  }

  method Flush(entries: seq<string>, current: seq<string>) returns (flushed: seq<string>)
    ensures flushed == Parse(entries, current, false).Flush().entries
  {
    flushed := entries;
    var entry := Trim(Join(current));
    if entry != "" {
      flushed := flushed + [entry];
    }
  }

  // ---------------------------------------------------------------- printer and parser agree

  /** An entry whose first line starts it, whose body neither starts another entry nor holds a root
      heading, and which ends its last line, as `formatLogEntry` output does. */
  predicate WellFormedEntry(entry: string) {
    && EndsWith(entry, "\n")
    && IsStandardEntryStart(entry)
    && var lines := Split(entry);
       IsStandardEntryStart(lines[0]) && forall i :: 1 <= i < |lines| ==> Kind(lines[i]).Other?
  }

  /** `formatLogEntry` prints well-formed entries, given a date and a summary and file list that
      neither start an entry on a line of their own nor hold a root heading. */
  lemma FormattedEntryIsWellFormed(opType: string, files: seq<string>, summary: string, date: string)
    requires DateAt(date) && |date| == 10
    requires NoNewline(opType) && NoNewline(CommaList(files))
    requires forall i :: 1 <= i < |Split(summary)| ==> Kind(Split(summary)[i]).Other?
    ensures WellFormedEntry(FormatLogEntry(opType, files, summary, date))
  {
    hide Kind, IsLegacyEntryStart, CommaList, Join, DateAt, Split;
    var head := "## [" + date + "] " + opType + " | ";
    var filesLine := "Files: " + CommaList(files);
    var entry := FormatLogEntry(opType, files, summary, date);
    FormattedEntryShape(head + summary, filesLine);
    FilesLineIsBody(CommaList(files));
    HeadLine(head, summary, date);
    SplitPrefix(head, summary);
    assert Split(entry)[0] == head + Split(summary)[0];
    HeadStarts(head, Split(summary)[0], date);
    HeadStarts(head, summary + "\n" + filesLine + "\n", date);
    assert entry == head + (summary + "\n" + filesLine + "\n");
    forall i | 1 <= i < |Split(entry)| ensures Kind(Split(entry)[i]).Other? {
      if i < |Split(summary)| { assert Split(entry)[i] == Split(summary)[i]; }
    }
  }

  lemma HeadLine(head: string, summary: string, date: string)
    requires exists opType :: NoNewline(opType) && head == "## [" + date + "] " + opType + " | "
    requires DateAt(date) && |date| == 10
    ensures NoNewline(head)
  {
    hide DateAt;
    assert NoNewline(date) by { DateNoNewline(date); }
    var opType :| NoNewline(opType) && head == "## [" + date + "] " + opType + " | ";
  }

  lemma DateNoNewline(date: string)
    requires DateAt(date) && |date| == 10
    ensures NoNewline(date)
  {
    assert date == [date[0], date[1], date[2], date[3], date[4], date[5], date[6], date[7], date[8], date[9]];
  }

  lemma HeadStarts(head: string, rest: string, date: string)
    requires exists opType :: head == "## [" + date + "] " + opType + " | "
    requires DateAt(date) && |date| == 10
    ensures IsStandardEntryStart(head + rest)
  {
    var s := head + rest;
    assert s[..4] == "## [";
    assert s[4..][..10] == date;
    assert s[14] == ']';
  }

  lemma FormattedEntryShape(first: string, second: string)
    requires NoNewline(second)
    ensures Join([first, second, ""]) == first + "\n" + second + "\n"
    ensures Split(first + "\n" + second + "\n") == Split(first) + [second, ""]
    ensures EndsWith(first + "\n" + second + "\n", "\n")
  {
    hide Split;
    assert [first, second, ""][1..] == [second, ""] && [second, ""][1..] == [""];
    assert Join([second, ""]) == second + "\n" + "";
    assert first + "\n" + (second + "\n" + "") == first + "\n" + second + "\n";
    SplitConcat(first, second + "\n" + "");
    SplitConcat(second, "");
    SplitLine(second);
    SplitLine("");
  }

  lemma FilesLineIsBody(files: string)
    ensures Kind("Files: " + files).Other? && Kind("").Other?
    ensures NoNewline(files) ==> NoNewline("Files: " + files)
  {
    hide Kind;
    var line := "Files: " + files;
    assert line[0] == 'F';
    ProseStartsNothing(line);
    DashesStartNothing();
  }

  lemma {:induction false} SplitPrefix(p: string, s: string)
    requires NoNewline(p)
    ensures Split(p + s) == [p + Split(s)[0]] + Split(s)[1..]
  {
    if p == "" {
      assert p + s == s && p + Split(s)[0] == Split(s)[0];
    } else {
      assert p[0] in p;
      assert forall c :: c in p[1..] ==> c in p;
      assert (p + s)[1..] == p[1..] + s;
      SplitPrefix(p[1..], s);
      assert [p[0]] + (p[1..] + Split(s)[0]) == p + Split(s)[0];
    }
  }

  /** The log after appending `entries` in order to the empty log. */
  function Appended(entries: seq<string>): string {
    if entries == [] then LOG_HEADER
    else AppendLogEntry(Appended(entries[..|entries| - 1]), entries[|entries| - 1])
  }

  /** Entries, newest first, each after a blank separator line. */
  function Body(entries: seq<string>): string {
    if entries == [] then ""
    else
      var last := |entries| - 1;
      var older := Body(entries[..last]);
      if older == "" then entries[last] else entries[last] + "\n" + older
  }

  function NewestFirst(entries: seq<string>): seq<string> {
    if entries == [] then []
    else [Trim(entries[|entries| - 1])] + NewestFirst(entries[..|entries| - 1])
  }

  /** Text in which no line after the first starts with a dash. */
  predicate NoDashLine(s: string) {
    forall j :: 0 <= j && j + 1 < |s| && s[j] == '\n' ==> s[j + 1] != '-'
  }

  lemma NoDashLineJoin(a: string, b: string)
    requires NoNewline(a) && NoDashLine(b) && (b == "" || b[0] != '-')
    ensures NoDashLine(a + "\n" + b)
  {
    var t := a + "\n" + b;
    forall j | 0 <= j && j + 1 < |t| && t[j] == '\n' ensures t[j + 1] != '-' {
      if j > |a| {
        assert t[j] == b[j - |a| - 1] && t[j + 1] == b[j - |a|];
      }
    }
  }

  /** The preamble is a dash-free introduction and the divider. */
  const INTRO: string := TITLE + "\n" + ("" + "\n" + (PURPOSE + "\n" + (FORMAT + "\n" + (ORDERING + "\n"))))

  lemma HeaderIsIntroAndDivider()
    ensures LOG_HEADER == INTRO + DIVIDER
  {
    hide TITLE, PURPOSE, FORMAT, ORDERING;
    JoinEight(TITLE, PURPOSE, FORMAT, ORDERING);
  }

  lemma JoinEight(a: string, b: string, c: string, d: string)
    ensures Join([a, "", b, c, d, "", "---", ""]) ==
            a + "\n" + ("" + "\n" + (b + "\n" + (c + "\n" + (d + "\n")))) + DIVIDER
  {
    JoinDivider();
    JoinFirst(d, ["", "---", ""]);
    JoinFirst(c, [d, "", "---", ""]);
    JoinFirst(b, [c, d, "", "---", ""]);
    JoinFirst("", [b, c, d, "", "---", ""]);
    JoinFirst(a, ["", b, c, d, "", "---", ""]);
    hide Join;
    assert [d] + ["", "---", ""] == [d, "", "---", ""] && [c] + [d, "", "---", ""] == [c, d, "", "---", ""];
    assert [b] + [c, d, "", "---", ""] == [b, c, d, "", "---", ""];
    assert [""] + [b, c, d, "", "---", ""] == ["", b, c, d, "", "---", ""];
    assert [a] + ["", b, c, d, "", "---", ""] == [a, "", b, c, d, "", "---", ""];
    AddDivider(a, b, c, d);
  }

  lemma AddDivider(a: string, b: string, c: string, d: string)
    ensures a + "\n" + ("" + "\n" + (b + "\n" + (c + "\n" + (d + "\n" + DIVIDER))))
            == a + "\n" + ("" + "\n" + (b + "\n" + (c + "\n" + (d + "\n")))) + DIVIDER
  {
    var e := d + "\n";
    var f := c + "\n" + e;
    var g := b + "\n" + f;
    assert c + "\n" + (e + DIVIDER) == f + DIVIDER;
    assert b + "\n" + (f + DIVIDER) == g + DIVIDER;
    assert "" + "\n" + (g + DIVIDER) == ("" + "\n" + g) + DIVIDER;
  }

  lemma JoinDivider()
    ensures Join(["", "---", ""]) == DIVIDER
  {
    JoinFirst("---", [""]);
    JoinFirst("", ["---", ""]);
    assert ["---"] + [""] == ["---", ""] && [""] + ["---", ""] == ["", "---", ""];
  }

  lemma JoinFirst(line: string, rest: seq<string>)
    requires rest != []
    ensures Join([line] + rest) == line + "\n" + Join(rest)
  {
    assert ([line] + rest)[1..] == rest;
  }

  lemma TitleLine()
    ensures TITLE != "" && TITLE[0] == '#' && NoNewline(TITLE)
  {
    assert NoNewline("# Brain Change Log");
  }

  lemma PurposeLine()
    ensures PURPOSE != "" && PURPOSE[0] == 'A' && NoNewline(PURPOSE)
  {
    assert NoNewline("Append-only record");
    assert NoNewline(" of ingests,");
    assert NoNewline(" updates, lint");
    assert NoNewline(" passes, and");
    assert NoNewline(" structural");
    assert NoNewline(" changes.");
  }

  lemma FormatLine()
    ensures FORMAT != "" && FORMAT[0] == 'F' && NoNewline(FORMAT)
  {
    assert NoNewline("Format: `##");
    assert NoNewline(" [YYYY-MM-DD]");
    assert NoNewline(" OP_TYPE |");
    assert NoNewline(" Summary`");
    assert NoNewline(" followed by");
    assert NoNewline(" files touched.");
  }

  lemma OrderingLine()
    ensures ORDERING != "" && ORDERING[0] == 'O' && NoNewline(ORDERING)
  {
    assert NoNewline("Ordering: newest");
    assert NoNewline(" entry first;");
    assert NoNewline(" insert new");
    assert NoNewline(" entries");
    assert NoNewline(" directly below");
    assert NoNewline(" this preamble.");
  }

  lemma IntroHasNoDashLine()
    ensures NoDashLine(INTRO) && INTRO != "" && INTRO[0] == '#'
  {
    TitleLine();
    PurposeLine();
    FormatLine();
    OrderingLine();
    hide TITLE, PURPOSE, FORMAT, ORDERING;
    var i4 := ORDERING + "\n";
    NoDashLineJoin(ORDERING, "");
    assert ORDERING + "\n" + "" == i4;
    var i3 := FORMAT + "\n" + i4;
    NoDashLineJoin(FORMAT, i4);
    var i2 := PURPOSE + "\n" + i3;
    NoDashLineJoin(PURPOSE, i3);
    NoDashLineJoin("", i2);
    NoDashLineJoin(TITLE, "" + "\n" + i2);
  }

  lemma FirstDivider(intro: string, rest: string)
    requires NoDashLine(intro) && intro != ""
    ensures IndexOf(intro + DIVIDER + rest, DIVIDER, 0) == Some(|intro|)
  {
    hide IndexOf, NoDashLine;
    var s := intro + DIVIDER + rest;
    assert OccursAt(s, DIVIDER, |intro|);
    forall j | 0 <= j < |intro| ensures !OccursAt(s, DIVIDER, j) {
      NoEarlierDivider(intro, rest, j);
    }
  }

  lemma NoEarlierDivider(intro: string, rest: string, j: nat)
    requires NoDashLine(intro) && j < |intro|
    ensures !OccursAt(intro + DIVIDER + rest, DIVIDER, j)
  {
    var s := intro + DIVIDER + rest;
    assert s[j] == intro[j];
    assert j + 1 < |intro| ==> s[j + 1] == intro[j + 1];
    assert s[|intro|] == '\n';
    if j + 5 <= |s| {
      assert s[j..j + 5][0] == s[j] && s[j..j + 5][1] == s[j + 1];
    }
  }

  /** In any log that starts with the preamble, the divider found is the preamble's own. */
  lemma DividerInHeader(rest: string)
    ensures IndexOf(LOG_HEADER + rest, DIVIDER, 0) == Some(|LOG_HEADER| - |DIVIDER|)
  {
    hide INTRO, LOG_HEADER, IndexOf, NoDashLine;
    HeaderIsIntroAndDivider();
    IntroHasNoDashLine();
    FirstDivider(INTRO, rest);
  }

  lemma AppendBelowHeader(tail: string, entry: string)
    ensures AppendLogEntry(LOG_HEADER + tail, entry) ==
            if TrimStart(tail) != "" then LOG_HEADER + "\n" + entry + "\n" + TrimStart(tail) else LOG_HEADER + "\n" + entry
  {
    hide LOG_HEADER, IndexOf, TrimStart, FirstEntry;
    var base := LOG_HEADER + tail;
    HeaderInk();
    assert base[0] == LOG_HEADER[0];
    assert !Blank(base);
    DividerInHeader(tail);
    assert base[..|LOG_HEADER|] == LOG_HEADER && base[|LOG_HEADER|..] == tail;
  }

  lemma HeaderInk()
    ensures LOG_HEADER != "" && LOG_HEADER[0] == '#'
  {
    hide INTRO, LOG_HEADER, NoDashLine;
    HeaderIsIntroAndDivider();
    IntroHasNoDashLine();
  }

  lemma {:induction false} AppendedShape(entries: seq<string>)
    requires forall i :: 0 <= i < |entries| ==> WellFormedEntry(entries[i])
    ensures Appended(entries) == if entries == [] then LOG_HEADER else LOG_HEADER + "\n" + Body(entries)
    ensures entries != [] ==> Body(entries) != "" && Body(entries)[0] == '#'
  {
    hide LOG_HEADER, AppendLogEntry, WellFormedEntry;
    if entries != [] {
      var last := |entries| - 1;
      var older, entry := entries[..last], entries[last];
      AppendedShape(older);
      EntryFirstChar(entry);
      if older == [] {
        AppendFirst(entry);
      } else {
        AppendNext(entry, Body(older));
      }
    }
  }

  lemma AppendFirst(entry: string)
    ensures AppendLogEntry(LOG_HEADER, entry) == LOG_HEADER + "\n" + entry
  {
    hide LOG_HEADER, AppendLogEntry;
    assert LOG_HEADER + "" == LOG_HEADER;
    TrimStartEmpty();
    AppendBelowHeader("", entry);
  }

  lemma AppendNext(entry: string, older: string)
    requires older != "" && older[0] == '#'
    ensures AppendLogEntry(LOG_HEADER + "\n" + older, entry) == LOG_HEADER + "\n" + (entry + "\n" + older)
  {
    TrimStartBlankPrefix("\n", older);
    TrimStartNoop(older);
    hide LOG_HEADER, AppendLogEntry, TrimStart, Blank, IsSpace;
    LineConcat(LOG_HEADER, older);
    LineConcat(LOG_HEADER + "\n" + entry, older);
    LineConcat(LOG_HEADER, entry + "\n" + older);
    LineConcat3(LOG_HEADER, entry, older);
    AppendBelowHeader("\n" + older, entry);
  }

  lemma LineConcat(a: string, b: string)
    ensures a + ("\n" + b) == a + "\n" + b
  {
  }

  lemma LineConcat3(a: string, b: string, c: string)
    ensures a + "\n" + b + "\n" + c == a + "\n" + (b + "\n" + c)
  {
  }

  lemma TrimStartEmpty()
    ensures TrimStart("") == ""
  {
  }

  lemma EntryFirstChar(entry: string)
    requires WellFormedEntry(entry)
    ensures entry != "" && entry[0] == '#'
  {
    hide Split, IsLegacyEntryStart, DateAt;
    assert entry[..4][0] == '#';
  }

  /** Lines that add nothing while no standard entry is open. */
  lemma {:induction false} PreambleIgnored(p: Parse, lines: seq<string>)
    requires !p.standard
    requires forall i :: 0 <= i < |lines| ==> Kind(lines[i]).RootHeading? || Kind(lines[i]).Other?
    ensures p.Lines(lines) == p
    decreases |lines|
  {
    hide Kind, Parse.Flush, Trim;
    if lines != [] {
      PreambleIgnored(p, lines[1..]);
    }
  }

  lemma {:induction false} BodyLinesKept(p: Parse, lines: seq<string>)
    requires p.standard
    requires forall i :: 0 <= i < |lines| ==> Kind(lines[i]).Other?
    ensures p.Lines(lines) == p.(current := p.current + lines)
    decreases |lines|
  {
    hide Kind, Parse.Flush, Trim;
    if lines == [] {
      assert p.current + lines == p.current;
    } else {
      BodyLinesKept(p.Line(lines[0]), lines[1..]);
      assert p.current + [lines[0]] + lines[1..] == p.current + lines;
    }
  }

  lemma EntryParsed(p: Parse, entry: string)
    requires WellFormedEntry(entry)
    ensures p.Lines(Split(entry)) == Parse(p.Flush().entries, Split(entry), true)
    ensures Trim(entry) != "" && Join(Split(entry)) == entry
  {
    hide IsStandardEntryStart, IsLegacyEntryStart, Parse.Flush, Trim, Join, Split;
    var lines := Split(entry);
    BodyLinesKept(p.Line(lines[0]), lines[1..]);
    assert [lines[0]] + lines[1..] == lines;
    JoinSplit(entry);
    EntryFirstChar(entry);
    TrimmedInk(entry);
  }

  lemma TrimmedInk(entry: string)
    requires entry != "" && !IsSpace(entry[0])
    ensures Trim(entry) != ""
  {
    hide Trim;
    InkTrim(entry);
    InkBlank(entry);
    InkBlank(Trim(entry));
  }

  lemma FlushStandard(entries: seq<string>, lines: seq<string>)
    requires Trim(Join(lines)) != ""
    ensures Parse(entries, lines, true).Flush().entries == entries + [Trim(Join(lines))]
  {
    hide Trim, Join;
  }

  lemma {:induction false} BodyParsed(p: Parse, entries: seq<string>)
    requires entries != [] && forall i :: 0 <= i < |entries| ==> WellFormedEntry(entries[i])
    ensures p.Lines(Split(Body(entries))).Flush().entries == p.Flush().entries + NewestFirst(entries)
    decreases |entries|
  {
    hide WellFormedEntry, Parse.Lines, Parse.Flush, Trim, Join, Split, Appended, LOG_HEADER;
    var last := |entries| - 1;
    var older, entry := entries[..last], entries[last];
    EntryParsed(p, entry);
    var q := p.Lines(Split(entry));
    FlushStandard(p.Flush().entries, Split(entry));
    assert NewestFirst(entries) == [Trim(entry)] + NewestFirst(older);
    if older == [] {
      assert Body(entries) == entry;
    } else {
      AppendedShape(older);
      SplitConcat(entry, Body(older));
      LinesConcat(p, Split(entry), Split(Body(older)));
      BodyParsed(q, older);
      assert p.Flush().entries + [Trim(entry)] + NewestFirst(older) == p.Flush().entries + ([Trim(entry)] + NewestFirst(older));
    }
  }

  lemma HeaderLinesStartNothing()
    ensures forall i :: 0 <= i < |HEADER_LINES| ==> (Kind(HEADER_LINES[i]).RootHeading? || Kind(HEADER_LINES[i]).Other?) && NoNewline(HEADER_LINES[i])
  {
    TitleLine();
    TitleSecondChar();
    PurposeLine();
    FormatLine();
    OrderingLine();
    DashesStartNothing();
    hide TITLE, PURPOSE, FORMAT, ORDERING, Kind, IsSpace, NoNewline;
    NotSpaceOrDigit('#');
    NotSpaceOrDigit('A');
    NotSpaceOrDigit('F');
    NotSpaceOrDigit('O');
    ProseStartsNothing(TITLE);
    ProseStartsNothing(PURPOSE);
    ProseStartsNothing(FORMAT);
    ProseStartsNothing(ORDERING);
  }

  lemma TitleSecondChar()
    ensures |TITLE| > 1 && TITLE[1] == ' '
  {
  }

  lemma NotSpaceOrDigit(c: char)
    requires 'A' <= c <= 'Z' || c == '#'
    ensures !IsSpace(c) && c != '-' && !Digit(c)
  {
  }

  lemma ProseStartsNothing(line: string)
    requires line != "" && !IsSpace(line[0]) && line[0] != '-' && !Digit(line[0])
    requires line[0] != '#' || (|line| > 1 && line[1] == ' ')
    ensures Kind(line) == if line[0] == '#' then RootHeading else Other
  {
    hide IsLegacyEntryStart, IsStandardEntryStart, IsSpace, Digit;
    NotLegacy(line);
    NotStandard(line);
  }

  lemma NotStandard(line: string)
    requires line != "" && (line[0] != '#' || (|line| > 1 && line[1] == ' '))
    ensures !IsStandardEntryStart(line)
  {
    hide DateAt;
  }

  lemma NotLegacy(line: string)
    requires line != "" && !IsSpace(line[0]) && line[0] != '-' && !Digit(line[0])
    ensures !IsLegacyEntryStart(line)
  {
    TrimStartNoop(line);
    NoBullet(line);
    assert !DateThenDash(line);
    hide IsSpace, TrimStart, Blank, DateThenDash, AfterBullet;
  }

  lemma NoBullet(line: string)
    requires line != "" && !IsSpace(line[0]) && line[0] != '-'
    ensures AfterBullet(line) == line
  {
    TrimStartNoop(line);
    hide IsSpace, TrimStart, Blank;
  }

  lemma DashesStartNothing()
    ensures Kind("---").Other? && Kind("").Other? && NoNewline("---") && NoNewline("")
  {
    DashesNotLegacy();
    hide IsLegacyEntryStart;
  }

  lemma DashesNotLegacy()
    ensures !IsLegacyEntryStart("---") && !IsLegacyEntryStart("")
  {
    hide IsSpace, Blank;
    TrimStartDashes();
    hide TrimStart;
    assert "---"[1..] == "--";
    assert !StartsWith("", "-");
  }

  lemma TrimStartDashes()
    ensures TrimStart("---") == "---" && TrimStart("--") == "--" && TrimStart("") == ""
  {
    TrimStartNoop("---");
    TrimStartNoop("--");
  }

  lemma HeaderParsed(p: Parse)
    requires !p.standard
    ensures Split(LOG_HEADER) == HEADER_LINES && p.Lines(HEADER_LINES) == p
  {
    HeaderLinesStartNothing();
    HeaderNonempty();
    assert LOG_HEADER == Join(HEADER_LINES);
    hide HEADER_LINES, LOG_HEADER, Kind, Parse.Lines, Split, Join;
    SplitJoin(HEADER_LINES);
    PreambleIgnored(p, HEADER_LINES);
  }

  lemma HeaderNonempty()
    ensures |HEADER_LINES| >= 1
  {
    hide TITLE, PURPOSE, FORMAT, ORDERING;
  }

  /** Printing any entries in order and parsing the file gives them back, trimmed and newest first. */
  lemma ParseInvertsAppend(entries: seq<string>)
    requires forall i :: 0 <= i < |entries| ==> WellFormedEntry(entries[i])
    ensures ParsedEntries(Appended(entries)) == NewestFirst(entries)
  {
    hide HEADER_LINES, LOG_HEADER, WellFormedEntry, Appended, Split, Join, Trim, Kind, Parse.Lines, Parse.Flush;
    AppendedShape(entries);
    var p := Parse([], [], false);
    HeaderParsed(p);
    EmptyFlush();
    if entries != [] {
      SplitConcat(LOG_HEADER, Body(entries));
      LinesConcat(p, HEADER_LINES, Split(Body(entries)));
      BodyParsed(p, entries);
      assert [] + NewestFirst(entries) == NewestFirst(entries);
    }
  }

  lemma EmptyFlush()
    ensures Parse([], [], false).Flush().entries == []
  {
    assert Trim("") == "";
  }

  // ---------------------------------------------------------------- paging

  datatype Page =
    | NoEntries
    | NoneAtOffset(start: nat, total: nat)
    | Shown(header: Option<(nat, nat, nat)>, entries: seq<string>)

  function Slice(entries: seq<string>, start: nat, limit: nat): seq<string> {
    var from := if start < |entries| then start else |entries|;
    var to := if start + limit < |entries| then start + limit else |entries|;
    entries[from..to]
  }

  /** `readLogContent` on the parsed entries: the header's numbers, and the entries it prints. */
  function PageOf(entries: seq<string>, limit: nat, offset: int): Page {
    if entries == [] then NoEntries
    else
      var start := if offset < 0 then 0 else offset;
      var recent := Slice(entries, start, limit);
      if recent == [] then NoneAtOffset(start, |entries|)
      else Shown(if |entries| > limit || start > 0 then Some((start + 1, start + |recent|, |entries|)) else None, recent)
  }

  function ReadLogContent(content: string, limit: nat, offset: int): Page {
    PageOf(ParsedEntries(content), limit, offset)
  }

  /** Reading page after page until the log says there is nothing more. */
  function AllPages(content: string, limit: nat, offset: nat): seq<string>
    requires limit > 0
    decreases |ParsedEntries(content)| - offset
  {
    match ReadLogContent(content, limit, offset)
    case Shown(_, shown) => shown + AllPages(content, limit, offset + limit)
    case _ => []
  }

  lemma SlicesMeet(entries: seq<string>, offset: nat, limit: nat)
    requires offset < |entries| && limit > 0
    ensures Slice(entries, offset, limit) + Slice(entries, offset + limit, |entries|) == Slice(entries, offset, |entries|)
    ensures Slice(entries, offset, limit) != []
  {
  }

  lemma {:induction false} AllPagesFrom(content: string, limit: nat, offset: nat)
    requires limit > 0
    ensures AllPages(content, limit, offset) == Slice(ParsedEntries(content), offset, |ParsedEntries(content)|)
    decreases |ParsedEntries(content)| - offset
  {
    hide ParsedEntries, PageOf, Slice;
    var entries := ParsedEntries(content);
    OnePage(entries, limit, offset);
    if offset < |entries| {
      AllPagesFrom(content, limit, offset + limit);
      SlicesMeet(entries, offset, limit);
    }
  }

  lemma OnePage(entries: seq<string>, limit: nat, offset: nat)
    requires limit > 0
    ensures var page := PageOf(entries, limit, offset);
            if offset < |entries| then page.Shown? && page.entries == Slice(entries, offset, limit)
            else !page.Shown? && Slice(entries, offset, |entries|) == []
  {
  }

  /** Consecutive pages of any positive size partition what was appended, newest first. */
  lemma PagesPartition(entries: seq<string>, limit: nat)
    requires limit > 0
    requires forall i :: 0 <= i < |entries| ==> WellFormedEntry(entries[i])
    ensures AllPages(Appended(entries), limit, 0) == NewestFirst(entries)
  {
    hide LOG_HEADER, ParsedEntries, Appended, AppendLogEntry, WellFormedEntry;
    ParseInvertsAppend(entries);
    var e := NewestFirst(entries);
    AllPagesFrom(Appended(entries), limit, 0);
    assert Slice(e, 0, |e|) == e;
  }
}
