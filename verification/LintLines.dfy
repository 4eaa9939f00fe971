/** The lines of TASKS.md as `src/services/lint-fix.ts` recognises them, and what its one textual change, the
    "done" stamp, does to a line. */
module LintLines {
  import opened Wrappers
  import opened Text

  // ---------------------------------------------------------------- recognisers

  /** `/^##\s/` */
  predicate IsH2(line: string) {
    |line| >= 3 && line[0] == '#' && line[1] == '#' && IsSpace(line[2])
  }

  /** The section an `##` line opens is "Done", in any case: also what `/^##\s+Done\s*$/i` matches. */
  predicate DoneHeading(line: string) {
    IsH2(line) && SameIgnoringCase(Trim(line[3..]), "done")
  }

  /** `/^[-*]\s+/` */
  predicate ListItem(line: string) {
    |line| >= 2 && (line[0] == '-' || line[0] == '*') && IsSpace(line[1])
  }

  /** `\[x\]\s`, in either case. */
  predicate Box(t: string) {
    |t| >= 4 && t[0] == '[' && (t[1] == 'x' || t[1] == 'X') && t[2] == ']' && IsSpace(t[3])
  }

  /** `\s+\[x\]\s` */
  predicate SpacedBox(t: string) {
    t != "" && IsSpace(t[0]) && (Box(t[1..]) || SpacedBox(t[1..]))
  }

  /** `/^[-*]\s+\[x\]\s/i` */
  predicate Completed(line: string) {
    line != "" && (line[0] == '-' || line[0] == '*') && SpacedBox(line[1..])
  }

  predicate FenceMark(t: string) {
    |t| >= 3 && ((t[0] == '`' && t[1] == '`' && t[2] == '`') || (t[0] == '~' && t[1] == '~' && t[2] == '~'))
  }

  /** `/^\s*(```|~~~)/` */
  predicate Fence(line: string) {
    FenceMark(line) || (line != "" && IsSpace(line[0]) && Fence(line[1..]))
  }

  /** `/^\s+\S/` */
  predicate Indented(line: string) {
    line != "" && IsSpace(line[0]) && !Blank(line)
  }

  predicate IsDate(t: string) {
    |t| == 10 && DateAt(t)
  }

  /** The date after `\s+`, if there is one. */
  function SpacedDate(t: string): (r: Option<string>)
    ensures r.Some? ==> IsDate(r.value)
  {
    if t == "" || !IsSpace(t[0]) then None
    else if DateAt(t[1..]) then Some(t[1..11])
    else SpacedDate(t[1..])
  }

  /** `/^\(done\s+(\d{4}-\d{2}-\d{2})/` */
  function DoneAt(t: string): (r: Option<string>)
    ensures r.Some? ==> IsDate(r.value)
  {
    if |t| >= 5 && t[..5] == "(done" then SpacedDate(t[5..]) else None
  }

  /** `parseDoneDate`: the first match in the line. */
  function ParseDoneDate(line: string): (r: Option<string>)
    ensures r.Some? ==> IsDate(r.value)
  {
    if DoneAt(line).Some? then DoneAt(line) else if line == "" then None else ParseDoneDate(line[1..])
  }

  predicate Dated(line: string) {
    ParseDoneDate(line).Some?
  }

  // ---------------------------------------------------------------- stamping

  function Suffix(today: string): string {
    " (done " + today + ")"
  }

  function Stamp(line: string, today: string): string {
    if Dated(line) then line else line + Suffix(today)
  }

  lemma SuffixDated(today: string)
    requires IsDate(today)
    ensures Dated(Suffix(today)) && Suffix(today) != "" && !Blank(Suffix(today))
  {
    var s := Suffix(today);
    var t := s[1..];
    assert t == "(done" + (" " + today + ")");
    assert t[..5] == "(done" && t[5..] == " " + today + ")";
    assert t[5..][1..] == today + ")";
    assert DateAt(today + ")") by {
      assert forall k :: 0 <= k < 10 ==> (today + ")")[k] == today[k];
    }
    assert DoneAt(t).Some?;
    assert ParseDoneDate(t).Some?;
    assert s[1] == '(';
  }

  /** A date further on in a line dates the whole line. */
  lemma {:induction false} PrefixedDated(a: string, s: string)
    requires Dated(s)
    ensures Dated(a + s)
  {
    if a == "" {
      assert a + s == s;
    } else {
      assert (a + s)[1..] == a[1..] + s;
      PrefixedDated(a[1..], s);
    }
  }

  lemma StampDated(line: string, today: string)
    requires IsDate(today)
    ensures Dated(Stamp(line, today))
  {
    SuffixDated(today);
    PrefixedDated(line, Suffix(today));
  }

  /** A line with the one stamp it may have been given taken off again. */
  function Erase(line: string, today: string): string {
    if EndsWith(line, Suffix(today)) && !Dated(line[..|line| - |Suffix(today)|]) then line[..|line| - |Suffix(today)|] else line
  }

  lemma EraseUndated(line: string, today: string)
    requires IsDate(today) && !Dated(line)
    ensures Erase(line, today) == line
  {
    if EndsWith(line, Suffix(today)) {
      var a := line[..|line| - |Suffix(today)|];
      assert line == a + Suffix(today);
      SuffixDated(today);
      PrefixedDated(a, Suffix(today));
    }
    hide Suffix, Dated;
  }

  /** Stamping changes a line by the stamp alone. */
  lemma EraseStamp(line: string, today: string)
    requires IsDate(today)
    ensures Erase(Stamp(line, today), today) == Erase(line, today)
  {
    if !Dated(line) {
      EraseUndated(line, today);
      var s := line + Suffix(today);
      hide Suffix, Dated;
      assert s[..|s| - |Suffix(today)|] == line;
      assert s[|s| - |Suffix(today)|..] == Suffix(today);
    }
  }

  lemma BlankParts(a: string, b: string)
    ensures Blank(a + b) <==> Blank(a) && Blank(b)
  {
    if Blank(a + b) {
      forall i | 0 <= i < |a| ensures IsSpace(a[i]) { assert (a + b)[i] == a[i]; }
      forall i | 0 <= i < |b| ensures IsSpace(b[i]) { assert (a + b)[|a| + i] == b[i]; }
    }
  }

  lemma StampNotBlank(line: string, today: string)
    requires IsDate(today)
    ensures Blank(Stamp(line, today)) ==> Blank(line) && Stamp(line, today) == line
    ensures !Blank(line) ==> !Blank(Stamp(line, today))
  {
    SuffixDated(today);
    BlankParts(line, Suffix(today));
    hide Suffix, Dated, Blank;
  }

  lemma StampNoNewline(line: string, today: string)
    requires IsDate(today) && NoNewline(line)
    ensures NoNewline(Stamp(line, today))
  {
    assert forall k :: 0 <= k < |today| ==> today[k] != '\n';
  }

  // ---------------------------------------------------------------- kinds of lines exclude one another

  lemma ItemIsPlain(line: string)
    requires ListItem(line)
    ensures !Fence(line) && !IsH2(line) && !Blank(line) && !Indented(line)
  {
    assert !IsSpace(line[0]);
  }

  lemma CompletedIsItem(line: string)
    requires Completed(line)
    ensures ListItem(line)
  {
  }

  lemma StampKeepsItem(line: string, today: string)
    requires ListItem(line)
    ensures ListItem(Stamp(line, today))
  {
  }

  lemma IndentedIsPlain(line: string)
    requires Indented(line) || Blank(line)
    ensures !ListItem(line) && !Completed(line) && !IsH2(line)
  {
    if line != "" { assert IsSpace(line[0]); }
  }
}
