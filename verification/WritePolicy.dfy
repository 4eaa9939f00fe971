/** Multiset bookkeeping of `src/services/write-policy.ts`: which lines an edit adds, and what a
    retired intake queue accepts. */
module WritePolicy {
  import opened Text

  // ---------------------------------------------------------------- counting down a map

  function Left(remaining: map<string, int>, x: string): int {
    if x in remaining then remaining[x] else 0
  }

  /** `map` holds, for every item, how often it occurs in `m`. */
  ghost predicate Counts(remaining: map<string, int>, m: multiset<string>) {
    forall x :: Left(remaining, x) == m[x]
  }

  method Count(items: seq<string>) returns (counted: map<string, int>)
    ensures Counts(counted, multiset(items))
  {
    counted := map[];
    for i := 0 to |items|
      invariant Counts(counted, multiset(items[..i]))
    {
      assert items[..i + 1] == items[..i] + [items[i]];
      counted := counted[items[i] := Left(counted, items[i]) + 1];
    }
    assert items[..|items|] == items;
  }

  // ---------------------------------------------------------------- addedLines

  /** The lines of `after` left over when each line of `before` has cancelled one equal line, the
      earliest ones first. */
  function Unmatched(before: multiset<string>, after: seq<string>): seq<string> {
    if after == [] then []
    else if after[0] in before then Unmatched(before - multiset{after[0]}, after[1..])
    else [after[0]] + Unmatched(before, after[1..])
  }

  function AddedLinesSpec(before: string, after: string): seq<string> {
    Unmatched(multiset(Split(before)), Split(after))
  }

  lemma {:induction false} UnmatchedSnoc(before: multiset<string>, after: seq<string>, line: string)
    ensures Unmatched(before, after + [line]) ==
            Unmatched(before, after) + if line in before - multiset(after) then [] else [line]
  {
    if after == [] {
      assert after + [line] == [line];
      assert [line][1..] == [];
    } else {
      var t := after + [line];
      assert t[1..] == after[1..] + [line];
      assert after == [after[0]] + after[1..];
      if after[0] in before {
        UnmatchedSnoc(before - multiset{after[0]}, after[1..], line);
        assert before - multiset{after[0]} - multiset(after[1..]) == before - multiset(after);
      } else {
        UnmatchedSnoc(before, after[1..], line);
        assert before - multiset(after[1..]) == before - multiset(after);
      }
    }
  }

  lemma CancelOne(remaining: map<string, int>, m: multiset<string>, line: string)
    requires Counts(remaining, m)
    ensures Left(remaining, line) == m[line]
    ensures line !in m ==> Counts(remaining, m - multiset{line})
    ensures line in m ==> Counts(remaining[line := m[line] - 1], m - multiset{line})
  {
  }

  /** `addedLines` */
  method AddedLines(before: string, after: string) returns (added: seq<string>)
    ensures added == AddedLinesSpec(before, after)
  {
    hide Unmatched, Split, Counts, Left;
    var all := multiset(Split(before));
    var remaining := Count(Split(before));
    var lines := Split(after);
    added := [];
    NothingUnmatched(all);
    assert all - multiset(lines[..0]) == all;
    for i := 0 to |lines|
      invariant added == Unmatched(all, lines[..i])
      invariant Counts(remaining, all - multiset(lines[..i]))
    {
      var line := lines[i];
      UnmatchedSnoc(all, lines[..i], line);
      assert lines[..i + 1] == lines[..i] + [line];
      ghost var uncancelled := all - multiset(lines[..i]);
      assert all - multiset(lines[..i + 1]) == uncancelled - multiset{line};
      CancelOne(remaining, uncancelled, line);
      var n := Left(remaining, line);
      if n != 0 {
        remaining := remaining[line := n - 1];
      } else {
        added := added + [line];
      }
    }
    assert lines[..|lines|] == lines;
  }

  lemma NothingUnmatched(before: multiset<string>)
    ensures Unmatched(before, []) == []
  {
  }

  /** `picked` is `from` with some positions left out, in order. */
  ghost predicate Subsequence(picked: seq<string>, from: seq<string>)
    decreases |from|
  {
    if from == [] then picked == []
    else Subsequence(picked, from[1..]) || (picked != [] && picked[0] == from[0] && Subsequence(picked[1..], from[1..]))
  }

  lemma {:induction false} UnmatchedIsDifference(before: multiset<string>, after: seq<string>)
    ensures multiset(Unmatched(before, after)) == multiset(after) - before
    ensures Subsequence(Unmatched(before, after), after)
  {
    if after != [] {
      var rest := after[1..];
      assert after == [after[0]] + rest;
      if after[0] in before {
        UnmatchedIsDifference(before - multiset{after[0]}, rest);
      } else {
        UnmatchedIsDifference(before, rest);
        assert Unmatched(before, after)[1..] == Unmatched(before, rest);
      }
    }
  }

  /** `addedLines` is exactly the multiset difference of the lines, in their new order. */
  lemma AddedLinesAreTheDifference(before: string, after: string)
    ensures multiset(AddedLinesSpec(before, after)) == multiset(Split(after)) - multiset(Split(before))
    ensures Subsequence(AddedLinesSpec(before, after), Split(after))
    ensures AddedLinesSpec(before, after) == [] <==> multiset(Split(after)) <= multiset(Split(before))
  {
    UnmatchedIsDifference(multiset(Split(before)), Split(after));
  }

  // ---------------------------------------------------------------- the retired queue

  datatype Mode = Observe | Enforce
  datatype Intake = Retired | BrainScoped | Legacy

  /** A deployment's `write_policy`, with `task_paths` already compared case-insensitively. */
  datatype Policy = Policy(mode: Mode, intake: Intake, taskPaths: set<string>)

  predicate TaskPath(policy: Policy, filename: string) {
    filename in policy.taskPaths
  }

  /** Whether the counting loop of `assertQueuePolicy` meets a block it has no copy left of. */
  predicate SomeNewBlock(previous: multiset<string>, blocks: seq<string>) {
    !(multiset(blocks) <= previous)
  }

  lemma PrefixCounts<T>(s: seq<T>, n: nat, x: T)
    requires n <= |s|
    ensures multiset(s[..n])[x] <= multiset(s)[x]
  {
    assert s == s[..n] + s[n..];
  }

  /** The loop of `assertQueuePolicy` over the blocks found before and after an edit. */
  method NewBlockFound(before: seq<string>, after: seq<string>) returns (found: bool)
    ensures found <==> SomeNewBlock(multiset(before), after)
  {
    var previous := Count(before);
    for i := 0 to |after|
      invariant forall x :: Left(previous, x) == multiset(before)[x] as int - multiset(after[..i])[x] as int
      invariant multiset(after[..i]) <= multiset(before)
    {
      var block := after[i];
      assert after[..i + 1] == after[..i] + [block];
      var count := Left(previous, block);
      previous := previous[block := count - 1];
      if count < 1 {
        PrefixCounts(after, i + 1, block);
        return true;
      }
    }
    assert after[..|after|] == after;
    return false;
  }
}
