/** The interval sweep of `src/services/operation-telemetry.ts`, over the reals: `unionSpanMs` before rounding is
    the length of time that at least one span covers. */
module UnionSpan {

  datatype Span = Span(start: real, duration: real)

  function End(s: Span): real {
    s.start + s.duration
  }

  /** `performance.now()` does not run backwards. */
  predicate Forward(spans: seq<Span>) {
    forall i :: 0 <= i < |spans| ==> spans[i].duration >= 0.0
  }

  predicate Sorted(spans: seq<Span>) {
    forall i, j :: 0 <= i < j < |spans| ==> spans[i].start <= spans[j].start
  }

  // ---------------------------------------------------------------- the measure of the union

  predicate Increasing(b: seq<real>) {
    forall i, j :: 0 <= i < j < |b| ==> b[i] < b[j]
  }

  /** Break points that cut the line at every end of every span. */
  predicate Cuts(b: seq<real>, spans: seq<Span>) {
    Increasing(b) && forall i :: 0 <= i < |spans| ==> spans[i].start in b && End(spans[i]) in b
  }

  /** Cell `i` runs from one break point to the next; being cut nowhere inside, it is covered whole or not at all. */
  predicate Within(b: seq<real>, i: nat, from: real, to: real)
    requires i + 1 < |b|
  {
    from <= b[i] && b[i + 1] <= to
  }

  predicate Covered(b: seq<real>, i: nat, spans: seq<Span>)
    requires i + 1 < |b|
  {
    exists k :: 0 <= k < |spans| && Within(b, i, spans[k].start, End(spans[k]))
  }

  /** The total length of the covered cells among the first `n`. */
  function Length(b: seq<real>, spans: seq<Span>, n: nat): real
    requires n < |b|
  {
    if n == 0 then 0.0
    else Length(b, spans, n - 1) + if Covered(b, n - 1, spans) then b[n] - b[n - 1] else 0.0
  }

  function Measure(b: seq<real>, spans: seq<Span>): real {
    if b == [] then 0.0 else Length(b, spans, |b| - 1)
  }

  function Clamp(x: real, from: real, to: real): real
    requires from <= to
  {
    if x < from then from else if x > to then to else x
  }

  /** Adding an interval none of whose cells was covered adds its length. */
  lemma {:induction false} AddFresh(b: seq<real>, old_: seq<Span>, new_: seq<Span>, from: real, to: real, n: nat)
    requires Increasing(b) && n < |b| && from in b && to in b && from <= to
    requires forall i: nat :: i + 1 < |b| ==> (Covered(b, i, new_) <==> Covered(b, i, old_) || Within(b, i, from, to))
    requires forall i: nat :: i + 1 < |b| && Within(b, i, from, to) ==> !Covered(b, i, old_)
    ensures Length(b, new_, n) == Length(b, old_, n) + Clamp(b[n], from, to) - Clamp(b[0], from, to)
  {
    if n > 0 {
      AddFresh(b, old_, new_, from, to, n - 1);
      var i := n - 1;
      Aligned(b, i, from);
      Aligned(b, i, to);
    }
  }

  /** A break point is never inside a cell. */
  lemma Aligned(b: seq<real>, i: nat, x: real)
    requires Increasing(b) && i + 1 < |b| && x in b
    ensures x <= b[i] || b[i + 1] <= x
  {
    var k :| 0 <= k < |b| && b[k] == x;
    if k <= i { assert b[k] <= b[i]; } else { assert b[i + 1] <= b[k]; }
  }

  lemma Extremes(b: seq<real>, x: real)
    requires Increasing(b) && x in b
    ensures b[0] <= x <= b[|b| - 1]
  {
    var k :| 0 <= k < |b| && b[k] == x;
  }

  lemma MeasureAdds(b: seq<real>, old_: seq<Span>, new_: seq<Span>, from: real, to: real)
    requires Increasing(b) && from in b && to in b && from <= to
    requires forall i: nat :: i + 1 < |b| ==> (Covered(b, i, new_) <==> Covered(b, i, old_) || Within(b, i, from, to))
    requires forall i: nat :: i + 1 < |b| && Within(b, i, from, to) ==> !Covered(b, i, old_)
    ensures Measure(b, new_) == Measure(b, old_) + (to - from)
  {
    AddFresh(b, old_, new_, from, to, |b| - 1);
    Extremes(b, from);
    Extremes(b, to);
  }

  lemma CoveredSnoc(b: seq<real>, i: nat, spans: seq<Span>, s: Span)
    requires i + 1 < |b|
    ensures Covered(b, i, spans + [s]) <==> Covered(b, i, spans) || Within(b, i, s.start, End(s))
  {
    var all := spans + [s];
    if Covered(b, i, spans) {
      var k :| 0 <= k < |spans| && Within(b, i, spans[k].start, End(spans[k]));
      assert all[k] == spans[k];
    }
    if Within(b, i, s.start, End(s)) { assert all[|spans|] == s; }
  }

  // ---------------------------------------------------------------- one turn of the sweep

  /** What is covered from `start` on: all of [start, end), and nothing beyond `end`. */
  ghost predicate Front(b: seq<real>, spans: seq<Span>, start: real, end: real) {
    && start in b && end in b && start <= end
    && (forall i: nat :: i + 1 < |b| && Within(b, i, start, end) ==> Covered(b, i, spans))
    && (forall k :: 0 <= k < |spans| ==> End(spans[k]) <= end)
  }

  /** The next span opens a gap: its whole length is new. */
  lemma Gap(b: seq<real>, spans: seq<Span>, s: Span, start: real, end: real)
    requires Cuts(b, spans + [s]) && s.duration >= 0.0 && Front(b, spans, start, end) && s.start > end
    ensures Measure(b, spans + [s]) == Measure(b, spans) + s.duration
    ensures Front(b, spans + [s], s.start, End(s))
  {
    var all := spans + [s];
    assert all[|spans|] == s;
    forall i: nat | i + 1 < |b| ensures Covered(b, i, all) <==> Covered(b, i, spans) || Within(b, i, s.start, End(s)) {
      CoveredSnoc(b, i, spans, s);
    }
    MeasureAdds(b, spans, all, s.start, End(s));
    forall k | 0 <= k < |all| ensures End(all[k]) <= End(s) {
      if k < |spans| { assert all[k] == spans[k]; }
    }
  }

  /** The next span starts within the front: only what reaches past the front is new. */
  lemma Overlap(b: seq<real>, spans: seq<Span>, s: Span, start: real, end: real)
    requires Cuts(b, spans + [s]) && s.duration >= 0.0 && Front(b, spans, start, end) && start <= s.start <= end
    ensures var e := if End(s) > end then End(s) else end;
            Measure(b, spans + [s]) == Measure(b, spans) + (e - end) && Front(b, spans + [s], start, e)
  {
    var all := spans + [s];
    assert all[|spans|] == s;
    var e := if End(s) > end then End(s) else end;
    forall i: nat | i + 1 < |b| ensures Covered(b, i, all) <==> Covered(b, i, spans) || Within(b, i, end, e) {
      CoveredSnoc(b, i, spans, s);
      Aligned(b, i, end);
    }
    MeasureAdds(b, spans, all, end, e);
    forall i: nat | i + 1 < |b| && Within(b, i, start, e) ensures Covered(b, i, all) {
      Aligned(b, i, end);
    }
    forall k | 0 <= k < |all| ensures End(all[k]) <= e {
      if k < |spans| { assert all[k] == spans[k]; }
    }
  }

  // ---------------------------------------------------------------- order does not matter

  lemma SameCover(b: seq<real>, i: nat, x: seq<Span>, y: seq<Span>)
    requires i + 1 < |b| && forall s :: s in x ==> s in y
    ensures Covered(b, i, x) ==> Covered(b, i, y)
  {
    if Covered(b, i, x) {
      var k :| 0 <= k < |x| && Within(b, i, x[k].start, End(x[k]));
      assert x[k] in y;
    }
  }

  lemma {:induction false} SameLength(b: seq<real>, x: seq<Span>, y: seq<Span>, n: nat)
    requires n < |b| && forall s :: s in x <==> s in y
    ensures Length(b, x, n) == Length(b, y, n)
  {
    if n > 0 {
      SameLength(b, x, y, n - 1);
      SameCover(b, n - 1, x, y);
      SameCover(b, n - 1, y, x);
    }
  }

  lemma {:induction false} Uncovered(b: seq<real>, n: nat)
    requires n < |b|
    ensures Length(b, [], n) == 0.0
  {
    if n > 0 { Uncovered(b, n - 1); }
  }

  // ---------------------------------------------------------------- the sweep

  lemma InsertedOrder(sorted: seq<Span>, j: nat, s: Span)
    requires Sorted(sorted) && j <= |sorted|
    requires forall k :: j <= k < |sorted| ==> sorted[k].start > s.start
    requires j > 0 ==> sorted[j - 1].start <= s.start
    ensures Sorted(sorted[..j] + [s] + sorted[j..])
  {
    var t := sorted[..j] + [s] + sorted[j..];
    assert forall x :: 0 <= x < |t| ==> t[x] == if x < j then sorted[x] else if x == j then s else sorted[x - 1];
    forall x, y | 0 <= x < y < |t| ensures t[x].start <= t[y].start {
      if x < j { assert sorted[x].start <= sorted[j - 1].start; }
    }
  }

  lemma InsertedElements(sorted: seq<Span>, j: nat, s: Span)
    requires j <= |sorted|
    ensures multiset(sorted[..j] + [s] + sorted[j..]) == multiset(sorted) + multiset{s}
  {
    assert sorted == sorted[..j] + sorted[j..];
  }

  /** `sort((left, right) => left[0] - right[0])` */
  method SortByStart(spans: seq<Span>) returns (sorted: seq<Span>)
    ensures Sorted(sorted) && multiset(sorted) == multiset(spans)
  {
    sorted := [];
    for i := 0 to |spans|
      invariant Sorted(sorted) && multiset(sorted) == multiset(spans[..i])
    {
      var s := spans[i];
      var j := |sorted|;
      while j > 0 && sorted[j - 1].start > s.start
        invariant 0 <= j <= |sorted|
        invariant forall k :: j <= k < |sorted| ==> sorted[k].start > s.start
      {
        j := j - 1;
      }
      assert spans[..i + 1] == spans[..i] + [s];
      InsertedOrder(sorted, j, s);
      InsertedElements(sorted, j, s);
      hide Sorted;
      sorted := sorted[..j] + [s] + sorted[j..];
    }
    assert spans[..|spans|] == spans;
  }

  /** `unionSpanMs` before rounding: whatever break points the line is cut at, the length of the covered cells. */
  method UnionSpanMs(spans: seq<Span>) returns (total: real)
    requires Forward(spans)
    ensures forall b :: Cuts(b, spans) ==> total == Measure(b, spans)
  {
    if spans == [] {
      forall b | Cuts(b, spans) ensures Measure(b, spans) == 0.0 { if b != [] { Uncovered(b, |b| - 1); } }
      return 0.0;
    }
    var intervals := SortByStart(spans);
    SortedForward(spans, intervals);
    var currentStart, currentEnd := intervals[0].start, End(intervals[0]);
    total := 0.0;
    forall b | Cuts(b, spans)
      ensures Front(b, intervals[..1], currentStart, currentEnd) && Measure(b, intervals[..1]) == currentEnd - currentStart
    {
      assert intervals[0] in spans;
      FirstSpan(b, intervals);
    }
    for i := 1 to |intervals|
      invariant currentStart <= intervals[i - 1].start
      invariant forall b :: Cuts(b, spans) ==>
                  Front(b, intervals[..i], currentStart, currentEnd) && total + (currentEnd - currentStart) == Measure(b, intervals[..i])
    {
      var start, end := intervals[i].start, End(intervals[i]);
      ghost var s0, e0 := currentStart, currentEnd;
      assert intervals[..i + 1] == intervals[..i] + [intervals[i]];
      assert intervals[i - 1].start <= start;
      forall b | Cuts(b, spans)
        ensures if start > e0 then
                  Measure(b, intervals[..i + 1]) == Measure(b, intervals[..i]) + (end - start) && Front(b, intervals[..i + 1], start, end)
                else
                  var e := if end > e0 then end else e0;
                  Measure(b, intervals[..i + 1]) == Measure(b, intervals[..i]) + (e - e0) && Front(b, intervals[..i + 1], s0, e)
      {
        PrefixCut(b, spans, intervals, i + 1);
        if start > e0 { Gap(b, intervals[..i], intervals[i], s0, e0); } else { Overlap(b, intervals[..i], intervals[i], s0, e0); }
      }
      hide Front, Measure;
      if start > currentEnd {
        total := total + (currentEnd - currentStart);
        currentStart := start;
        currentEnd := end;
        continue;
      }
      if end > currentEnd { currentEnd := end; }
    }
    assert intervals[..|intervals|] == intervals;
    total := total + (currentEnd - currentStart);
    forall b | Cuts(b, spans) ensures total == Measure(b, spans) {
      if b != [] { SameLength(b, intervals, spans, |b| - 1); }
    }
  }

  lemma SortedForward(spans: seq<Span>, sorted: seq<Span>)
    requires Forward(spans) && multiset(sorted) == multiset(spans)
    ensures Forward(sorted) && |sorted| == |spans| && forall s :: s in sorted <==> s in spans
  {
    assert |multiset(sorted)| == |multiset(spans)|;
    forall s ensures s in sorted <==> s in spans { assert s in multiset(sorted) <==> s in multiset(spans); }
    forall i | 0 <= i < |sorted| ensures sorted[i].duration >= 0.0 { assert sorted[i] in spans; }
  }

  lemma PrefixCut(b: seq<real>, spans: seq<Span>, sorted: seq<Span>, n: nat)
    requires Cuts(b, spans) && n <= |sorted| && forall s :: s in sorted <==> s in spans
    ensures Cuts(b, sorted[..n])
  {
    forall i | 0 <= i < n ensures sorted[i].start in b && End(sorted[i]) in b { assert sorted[i] in spans; }
  }

  lemma FirstSpan(b: seq<real>, sorted: seq<Span>)
    requires sorted != [] && sorted[0].duration >= 0.0 && Increasing(b) && sorted[0].start in b && End(sorted[0]) in b
    ensures Front(b, sorted[..1], sorted[0].start, End(sorted[0]))
    ensures Measure(b, sorted[..1]) == sorted[0].duration
  {
    var s := sorted[0];
    var none: seq<Span> := [];
    assert sorted[..1] == none + [s];
    forall i: nat | i + 1 < |b| ensures Covered(b, i, sorted[..1]) <==> Covered(b, i, none) || Within(b, i, s.start, End(s)) {
      CoveredSnoc(b, i, none, s);
    }
    MeasureAdds(b, none, sorted[..1], s.start, End(s));
    Uncovered(b, |b| - 1);
  }

  // ---------------------------------------------------------------- two bounds

  function Sum(spans: seq<Span>): real {
    if spans == [] then 0.0 else Sum(spans[..|spans| - 1]) + spans[|spans| - 1].duration
  }

  /** Covering one more span adds at most its length. */
  lemma {:induction false} AddAny(b: seq<real>, spans: seq<Span>, s: Span, n: nat)
    requires Increasing(b) && n < |b| && s.duration >= 0.0 && s.start in b && End(s) in b
    ensures Length(b, spans + [s], n) <= Length(b, spans, n) + Clamp(b[n], s.start, End(s)) - Clamp(b[0], s.start, End(s))
  {
    if n > 0 {
      AddAny(b, spans, s, n - 1);
      CoveredSnoc(b, n - 1, spans, s);
      Aligned(b, n - 1, s.start);
      Aligned(b, n - 1, End(s));
    }
  }

  /** Concurrent work is never counted twice: the union is at most the sum of the durations. */
  lemma {:induction false} AtMostTheSum(b: seq<real>, spans: seq<Span>)
    requires Forward(spans) && Cuts(b, spans)
    ensures Measure(b, spans) <= Sum(spans)
    decreases |spans|
  {
    if spans == [] {
      if b != [] { Uncovered(b, |b| - 1); }
    } else {
      var shorter, s := spans[..|spans| - 1], spans[|spans| - 1];
      assert spans == shorter + [s];
      assert Cuts(b, shorter);
      AtMostTheSum(b, shorter);
      AddAny(b, shorter, s, |b| - 1);
      Extremes(b, s.start);
      Extremes(b, End(s));
    }
  }

  lemma {:induction false} LengthWithin(b: seq<real>, spans: seq<Span>, from: real, to: real, n: nat)
    requires Increasing(b) && n < |b| && from in b && to in b && from <= to
    requires forall k :: 0 <= k < |spans| ==> from <= spans[k].start && End(spans[k]) <= to
    ensures Length(b, spans, n) <= Clamp(b[n], from, to) - Clamp(b[0], from, to)
  {
    if n > 0 {
      LengthWithin(b, spans, from, to, n - 1);
      Aligned(b, n - 1, from);
      Aligned(b, n - 1, to);
    }
  }

  /** The union is at most the time from the first start to the last end. */
  lemma AtMostTheExtent(b: seq<real>, spans: seq<Span>, first: nat, last: nat)
    requires Forward(spans) && Cuts(b, spans) && first < |spans| && last < |spans|
    requires forall k :: 0 <= k < |spans| ==> spans[first].start <= spans[k].start && End(spans[k]) <= End(spans[last])
    ensures Measure(b, spans) <= End(spans[last]) - spans[first].start
  {
    assert spans[first].start <= spans[last].start;
    LengthWithin(b, spans, spans[first].start, End(spans[last]), |b| - 1);
    Extremes(b, spans[first].start);
    Extremes(b, End(spans[last]));
  }

  // ---------------------------------------------------------------- there are such break points

  lemma {:induction false} AddPoint(b: seq<real>, x: real) returns (c: seq<real>)
    requires Increasing(b)
    ensures Increasing(c) && x in c && forall y :: y in c <==> y in b || y == x
  {
    if b == [] || x < b[0] {
      c := [x] + b;
    } else if x == b[0] {
      c := b;
    } else {
      var rest := AddPoint(b[1..], x);
      c := [b[0]] + rest;
      forall k | 0 <= k < |rest| ensures b[0] < rest[k] { assert rest[k] in rest; }
      assert b == [b[0]] + b[1..];
    }
  }

  /** Any list of spans can be cut at its own ends, so the measure above is never of nothing. */
  lemma {:induction false} CutsExist(spans: seq<Span>) returns (b: seq<real>)
    ensures Cuts(b, spans)
  {
    b := [];
    if spans != [] {
      var rest := CutsExist(spans[1..]);
      var more := AddPoint(rest, spans[0].start);
      b := AddPoint(more, End(spans[0]));
      forall i | 0 <= i < |spans| ensures spans[i].start in b && End(spans[i]) in b {
        if i > 0 { assert spans[i] == spans[1..][i - 1]; }
      }
    }
  }
}
