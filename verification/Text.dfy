/** Strings as the Markdown code sees them: JavaScript's `split("\n")`, `join("\n")`, `trim` and `indexOf`. */
module Text {
  import opened Wrappers

  /** The characters matched by `\s` and removed by `trim`. */
  predicate IsSpace(c: char) {
    || '\U{0009}' <= c <= '\U{000D}'
    || c == ' '
    || c == '\U{00A0}'
    || c == '\U{1680}'
    || '\U{2000}' <= c <= '\U{200A}'
    || c == '\U{2028}'
    || c == '\U{2029}'
    || c == '\U{202F}'
    || c == '\U{205F}'
    || c == '\U{3000}'
    || c == '\U{FEFF}'
  }

  predicate Blank(s: string) {
    forall i :: 0 <= i < |s| ==> IsSpace(s[i])
  }

  predicate NoNewline(s: string) {
    '\n' !in s
  }

  predicate StartsWith(s: string, prefix: string) {
    |prefix| <= |s| && s[..|prefix|] == prefix
  }

  predicate EndsWith(s: string, suffix: string) {
    |suffix| <= |s| && s[|s| - |suffix|..] == suffix
  }

  /** `s.trimStart()` */
  function TrimStart(s: string): (r: string)
    ensures |r| <= |s| && r == s[|s| - |r|..]
    ensures Blank(s[..|s| - |r|])
    ensures r != "" ==> !IsSpace(r[0])
  {
    if s != "" && IsSpace(s[0]) then
      var r := TrimStart(s[1..]);
      assert s[..|s| - |r|] == [s[0]] + s[1..][..|s| - 1 - |r|];
      r
    else s
  }

  /** `s.trimEnd()` */
  function TrimEnd(s: string): (r: string)
    ensures |r| <= |s| && r == s[..|r|]
    ensures Blank(s[|r|..])
    ensures r != "" ==> !IsSpace(r[|r| - 1])
  {
    if s != "" && IsSpace(s[|s| - 1]) then
      var r := TrimEnd(s[..|s| - 1]);
      assert s[|r|..] == s[..|s| - 1][|r|..] + [s[|s| - 1]];
      r
    else s
  }

  /** `s.trim()` */
  function Trim(s: string): string {
    TrimEnd(TrimStart(s))
  }

  lemma TrimStartNoop(s: string)
    requires s != "" && !IsSpace(s[0])
    ensures TrimStart(s) == s
  {
  }

  /** Dropping leading white space that is known to be there. */
  lemma {:induction false} TrimStartBlankPrefix(p: string, s: string)
    requires Blank(p)
    ensures TrimStart(p + s) == TrimStart(s)
  {
    if p == "" {
      assert p + s == s;
    } else {
      assert p[0] == (p + s)[0];
      assert (p + s)[1..] == p[1..] + s;
      TrimStartBlankPrefix(p[1..], s);
    }
  }

  /** What of `s` is not white space, in order. */
  function Ink(s: string): string {
    if s == "" then "" else (if IsSpace(s[0]) then "" else [s[0]]) + Ink(s[1..])
  }

  lemma {:induction false} InkConcat(a: string, b: string)
    ensures Ink(a + b) == Ink(a) + Ink(b)
  {
    hide IsSpace;
    if a == "" {
      assert a + b == b;
    } else {
      assert (a + b)[1..] == a[1..] + b;
      InkConcat(a[1..], b);
    }
  }

  lemma {:induction false} InkBlank(s: string)
    ensures Ink(s) == "" <==> Blank(s)
  {
    if s != "" {
      InkBlank(s[1..]);
      assert s == [s[0]] + s[1..];
      if Blank(s[1..]) && IsSpace(s[0]) {
        forall i | 0 <= i < |s| ensures IsSpace(s[i]) {
          if i > 0 { assert s[i] == s[1..][i - 1]; }
        }
      }
      if Blank(s) {
        forall i | 0 <= i < |s[1..]| ensures IsSpace(s[1..][i]) {
          assert s[1..][i] == s[i + 1];
        }
      }
    }
  }

  lemma InkTrimStart(s: string)
    ensures Ink(TrimStart(s)) == Ink(s)
  {
    var r := TrimStart(s);
    assert s == s[..|s| - |r|] + r;
    InkConcat(s[..|s| - |r|], r);
    InkBlank(s[..|s| - |r|]);
  }

  lemma InkTrimEnd(s: string)
    ensures Ink(TrimEnd(s)) == Ink(s)
  {
    var r := TrimEnd(s);
    assert s == r + s[|r|..];
    InkConcat(r, s[|r|..]);
    InkBlank(s[|r|..]);
  }

  lemma InkTrim(s: string)
    ensures Ink(Trim(s)) == Ink(s)
  {
    InkTrimStart(s);
    InkTrimEnd(TrimStart(s));
  }

  /** `s.split("\n")` */
  function Split(s: string): (lines: seq<string>)
    ensures |lines| >= 1
    ensures forall i :: 0 <= i < |lines| ==> NoNewline(lines[i])
  {
    if s == "" then [""]
    else if s[0] == '\n' then [""] + Split(s[1..])
    else
      var rest := Split(s[1..]);
      [[s[0]] + rest[0]] + rest[1..]
  }

  /** `lines.join("\n")` */
  function Join(lines: seq<string>): string {
    if lines == [] then ""
    else if |lines| == 1 then lines[0]
    else lines[0] + "\n" + Join(lines[1..])
  }

  lemma {:induction false} JoinSplit(s: string)
    ensures Join(Split(s)) == s
  {
    if s != "" {
      JoinSplit(s[1..]);
      var rest := Split(s[1..]);
      if s[0] == '\n' {
        assert Split(s)[1..] == rest;
        assert Join(Split(s)) == "" + "\n" + Join(rest);
      } else {
        assert Split(s)[1..] == rest[1..];
        if |rest| == 1 {
          assert Join(Split(s)) == [s[0]] + rest[0];
        } else {
          assert Join(rest) == rest[0] + "\n" + Join(rest[1..]);
          assert Join(Split(s)) == ([s[0]] + rest[0]) + "\n" + Join(rest[1..]);
        }
      }
    }
  }

  lemma {:induction false} SplitLine(s: string)
    requires NoNewline(s)
    ensures Split(s) == [s]
  {
    if s != "" {
      assert s[0] in s;
      assert forall c :: c in s[1..] ==> c in s;
      SplitLine(s[1..]);
      assert s == [s[0]] + s[1..];
    }
  }

  lemma SplitHead(s: string)
    requires s != ""
    ensures Split(s) == if s[0] == '\n' then [""] + Split(s[1..]) else [[s[0]] + Split(s[1..])[0]] + Split(s[1..])[1..]
  {
  }

  lemma Regroup(x: string, rest: seq<string>, more: seq<string>)
    requires rest != []
    ensures [x] + (rest + more)[1..] == ([x] + rest[1..]) + more && (rest + more)[0] == rest[0]
    ensures [x] + (rest + more) == ([x] + rest) + more
  {
  }

  lemma {:induction false} SplitConcat(a: string, b: string)
    ensures Split(a + "\n" + b) == Split(a) + Split(b)
  {
    var t := a + "\n" + b;
    SplitHead(t);
    if a == "" {
      assert t == "\n" + b;
      assert t[0] == '\n' && t[1..] == b;
    } else {
      assert t[0] == a[0] && t[1..] == a[1..] + "\n" + b;
      SplitConcat(a[1..], b);
      SplitHead(a);
      var rest, more := Split(a[1..]), Split(b);
      hide Split;
      Regroup(if a[0] == '\n' then "" else [a[0]] + rest[0], rest, more);
    }
  }

  lemma {:induction false} SplitJoin(lines: seq<string>)
    requires |lines| >= 1
    requires forall i :: 0 <= i < |lines| ==> NoNewline(lines[i])
    ensures Split(Join(lines)) == lines
  {
    SplitLine(lines[0]);
    if |lines| > 1 {
      SplitConcat(lines[0], Join(lines[1..]));
      SplitJoin(lines[1..]);
    }
  }

  lemma {:induction false} JoinConcat(a: seq<string>, b: seq<string>)
    requires a != [] && b != []
    ensures Join(a + b) == Join(a) + "\n" + Join(b)
  {
    if |a| == 1 {
      assert (a + b)[1..] == b;
    } else {
      assert (a + b)[1..] == a[1..] + b;
      JoinConcat(a[1..], b);
    }
  }

  predicate OccursAt(s: string, pattern: string, i: nat) {
    i + |pattern| <= |s| && s[i..i + |pattern|] == pattern
  }

  /** `s.indexOf(pattern, from)` */
  function IndexOf(s: string, pattern: string, from: nat): (r: Option<nat>)
    requires from <= |s|
    ensures r.Some? ==> from <= r.value && OccursAt(s, pattern, r.value)
    ensures forall j :: from <= j && OccursAt(s, pattern, j) ==> r.Some? && r.value <= j
    decreases |s| - from
  {
    if OccursAt(s, pattern, from) then Some(from)
    else if from == |s| then None
    else IndexOf(s, pattern, from + 1)
  }

  /** Lower-casing of the ASCII letters, for the `i` flag on ASCII patterns. */
  function LowerChar(c: char): char {
    if 'A' <= c <= 'Z' then (c as int + 32) as char else c
  }

  predicate SameIgnoringCase(s: string, t: string) {
    |s| == |t| && forall i :: 0 <= i < |s| ==> LowerChar(s[i]) == LowerChar(t[i])
  }

  predicate Digit(c: char) {
    '0' <= c <= '9'
  }

  /** `\d{4}-\d{2}-\d{2}` at the start of `s`. */
  predicate DateAt(s: string) {
    && |s| >= 10
    && Digit(s[0]) && Digit(s[1]) && Digit(s[2]) && Digit(s[3])
    && s[4] == '-' && Digit(s[5]) && Digit(s[6])
    && s[7] == '-' && Digit(s[8]) && Digit(s[9])
  }
}
