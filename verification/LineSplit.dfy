/** Splitting text into complete lines and an unfinished rest. */
module LineSplit {
  import opened Text

  function NewlineIndex(s: string): (i: nat)
    requires '\n' in s
    ensures i < |s| && s[i] == '\n' && '\n' !in s[..i]
  {
    if s[0] == '\n' then 0 else 1 + NewlineIndex(s[1..])
  }

  /** The complete lines of s, and what follows the last newline. */
  function Lines(s: string): seq<string>
    decreases |s|
  {
    if '\n' !in s then [] else [s[..NewlineIndex(s)]] + Lines(s[NewlineIndex(s) + 1..])
  }

  function Rest(s: string): string
    decreases |s|
  {
    if '\n' !in s then s else Rest(s[NewlineIndex(s) + 1..])
  }

  function Unsplit(lines: seq<string>): string {
    if lines == [] then "" else lines[0] + "\n" + Unsplit(lines[1..])
  }

  ghost predicate NewlineFree(lines: seq<string>) {
    forall i :: 0 <= i < |lines| ==> '\n' !in lines[i]
  }

  /** Splitting loses nothing and leaves no newline behind. */
  lemma SplitRoundTrip(s: string)
    ensures Unsplit(Lines(s)) + Rest(s) == s
    ensures NewlineFree(Lines(s)) && '\n' !in Rest(s)
  {
    SplitLosesNothing(s);
    LinesAreNewlineFree(s);
  }

  lemma {:induction false} LinesAreNewlineFree(s: string)
    ensures NewlineFree(Lines(s)) && '\n' !in Rest(s)
    decreases |s|
  {
    if '\n' in s { LinesAreNewlineFree(s[NewlineIndex(s) + 1..]); }
  }

  lemma {:induction false} SplitLosesNothing(s: string)
    ensures Unsplit(Lines(s)) + Rest(s) == s
    decreases |s|
  {
    if '\n' in s {
      var i := NewlineIndex(s);
      SplitLosesNothing(s[i + 1..]);
      SplitHere(s);
      Rejoin(s, i, Lines(s[i + 1..]), Rest(s[i + 1..]));
    }
  }

  lemma Rejoin(s: string, i: nat, lines: seq<string>, rest: string)
    requires i < |s| && s[i] == '\n' && Unsplit(lines) + rest == s[i + 1..]
    ensures Unsplit([s[..i]] + lines) + rest == s
  {
    UnsplitFirst(s[..i], lines);
    Glue(s, i, Unsplit(lines), rest);
  }

  lemma UnsplitFirst(line: string, lines: seq<string>)
    ensures Unsplit([line] + lines) == line + "\n" + Unsplit(lines)
  {
    assert ([line] + lines)[1..] == lines;
  }

  lemma Glue(s: string, i: nat, a: string, b: string)
    requires i < |s| && s[i] == '\n' && a + b == s[i + 1..]
    ensures s[..i] + "\n" + a + b == s
  {
    Regroup(s[..i] + "\n", a, b);
    assert s == s[..i] + [s[i]] + s[i + 1..];
  }

  lemma {:induction false} OnlyNewline(s: string, i: nat)
    requires i < |s| && s[i] == '\n' && '\n' !in s[..i]
    ensures '\n' in s && NewlineIndex(s) == i
  {
    if i > 0 {
      assert s[..i][0] == s[0];
      assert s[1..][..i - 1] == s[..i][1..];
      OnlyNewline(s[1..], i - 1);
    }
  }

  lemma FirstLine(line: string, tail: string)
    requires '\n' !in line
    ensures var s := line + "\n" + tail;
      '\n' in s && NewlineIndex(s) == |line| && s[..|line|] == line && s[|line| + 1..] == tail
  {
    var s := line + "\n" + tail;
    assert s[|line|] == '\n' && s[..|line|] == line && s[|line| + 1..] == tail;
    OnlyNewline(s, |line|);
  }

  lemma SplitHere(s: string)
    requires '\n' in s
    ensures Lines(s) == [s[..NewlineIndex(s)]] + Lines(s[NewlineIndex(s) + 1..]) && Rest(s) == Rest(s[NewlineIndex(s) + 1..])
  {
  }

  lemma SplitFirst(line: string, tail: string)
    requires '\n' !in line
    ensures Lines(line + "\n" + tail) == [line] + Lines(tail) && Rest(line + "\n" + tail) == Rest(tail)
  {
    FirstLine(line, tail);
  }

  /** There is only one way to split. */
  lemma {:induction false} SplitUnique(lines: seq<string>, rest: string)
    requires NewlineFree(lines) && '\n' !in rest
    ensures Lines(Unsplit(lines) + rest) == lines && Rest(Unsplit(lines) + rest) == rest
  {
    var s := Unsplit(lines) + rest;
    if lines == [] {
      assert s == rest;
    } else {
      SplitUnique(lines[1..], rest);
      UnsplitAhead(lines, rest);
      SplitFirst(lines[0], Unsplit(lines[1..]) + rest);
      assert [lines[0]] + lines[1..] == lines;
    }
  }

  lemma UnsplitAhead(lines: seq<string>, rest: string)
    requires lines != []
    ensures Unsplit(lines) + rest == lines[0] + "\n" + (Unsplit(lines[1..]) + rest)
  {
    Regroup(lines[0] + "\n", Unsplit(lines[1..]), rest);
  }

  lemma {:induction false} UnsplitConcat(a: seq<string>, b: seq<string>)
    ensures Unsplit(a + b) == Unsplit(a) + Unsplit(b)
  {
    if a == [] {
      assert a + b == b;
    } else {
      assert (a + b)[1..] == a[1..] + b;
      UnsplitConcat(a[1..], b);
      assert Unsplit(a + b) == a[0] + "\n" + (Unsplit(a[1..]) + Unsplit(b));
    }
  }

  /** Splitting chunk by chunk, carrying the unfinished line, is splitting the whole. */
  lemma SplitIncrementally(a: string, b: string)
    ensures Lines(a + b) == Lines(a) + Lines(Rest(a) + b)
    ensures Rest(a + b) == Rest(Rest(a) + b)
  {
    var c := Rest(a) + b;
    SplitRoundTrip(a);
    SplitRoundTrip(c);
    UnsplitConcat(Lines(a), Lines(c));
    Regroup(Unsplit(Lines(a)), Rest(a), b);
    Regroup(Unsplit(Lines(a)), Unsplit(Lines(c)), Rest(c));
    SplitUnique(Lines(a) + Lines(c), Rest(c));
  }
}
