/** A poll that ends inside a character: the line handed on, and the alert cache, are not those of the file. */
module DirtyCut {
  import opened Text
  import opened LineSplit
  import opened TextRead
  import opened AlertCache
  import opened EveFollower

  const LEAD: byte := 0xC3
  const TAIL: byte := 0xA9

  const BEGINNING := Session(Position(0, "", true), [], {}, "", [], [])

  /** A line with an accented letter between p and q, as bytes. */
  function LineBytes(p: string, q: string): seq<byte> { Encoded(p) + [LEAD] + ([TAIL] + Encoded(q + "\n")) }

  function Whole(p: string, q: string): string { p + "\U{00E9}" + q }

  function Broken(p: string, q: string): string { p + "\U{FFFD}" + "\U{FFFD}" + q }

  predicate OneLineText(s: string) { '\n' !in s && '\r' !in s }

  lemma Spliced(a: seq<byte>, b: seq<byte>)
    ensures a + [LEAD] + ([TAIL] + b) == a + [LEAD, TAIL] + b
  {
  }

  lemma AccentIsEncoded()
    ensures Encoded("\U{00E9}") == [LEAD, TAIL]
  {
    assert Bytes('\U{00E9}') == [LEAD, TAIL] && "\U{00E9}"[1..] == "";
  }

  lemma LineIsEncoded(p: string, q: string)
    ensures LineBytes(p, q) == Encoded(Whole(p, q) + "\n")
  {
    AccentIsEncoded();
    EncodedConcat(p, "\U{00E9}");
    EncodedConcat(p + "\U{00E9}", q + "\n");
    assert Whole(p, q) + "\n" == p + "\U{00E9}" + (q + "\n");
    Spliced(Encoded(p), Encoded(q + "\n"));
  }

  /** What the two reads of the cut line give. */
  lemma HalvesRead(p: string, q: string)
    requires OneLineText(p) && OneLineText(q)
    ensures ReadText(Encoded(p) + [LEAD]) == p + "\U{FFFD}"
    ensures ReadText([TAIL] + Encoded(q + "\n")) == "\U{FFFD}" + (q + "\n")
  {
    HalfACharacter();
    CleanBefore(Encoded(p), [LEAD]);
    ReadInTwo(Encoded(p), [LEAD]);
    ReadBack(p);
    CleanAfter(TAIL, Encoded(q + "\n"));
    ReadInTwo([TAIL], Encoded(q + "\n"));
    ReadBack(q + "\n");
    LoneTail();
  }

  lemma LoneTail()
    ensures ReadText([TAIL]) == "\U{FFFD}"
  {
    ReadInOnePass([TAIL]);
    OneAtATime([TAIL]);
    assert [TAIL][1..] == [];
  }

  lemma OneLine(line: string)
    requires '\n' !in line
    ensures Lines(line + "\n") == [line] && Rest(line + "\n") == ""
  {
    assert line + "\n" + "" == line + "\n";
    SplitFirst(line, "");
  }

  function Once(bytes: seq<byte>): seq<View> { [Present(|bytes|, bytes)] }

  function Twice(bytes: seq<byte>, n: nat): seq<View>
    requires n <= |bytes|
  {
    [Present(n, bytes[..n]), Present(|bytes|, bytes)]
  }

  lemma ReadAtOnce(p: string, q: string)
    requires OneLineText(p) && OneLineText(q)
    ensures Run(BEGINNING, Once(LineBytes(p, q))).all == [Whole(p, q)]
  {
    var bytes, line := LineBytes(p, q), Whole(p, q);
    LineIsEncoded(p, q);
    ReadBack(line + "\n");
    AllAtOnce(bytes, line);
    assert Once(bytes)[1..] == [];
  }

  lemma AllAtOnce(bytes: seq<byte>, line: string)
    requires bytes != [] && '\n' !in line && ReadText(bytes) == line + "\n"
    ensures Observe(BEGINNING, Present(|bytes|, bytes)).all == [line]
  {
    OneLine(line);
    assert bytes[0..] == bytes && "" + ReadText(bytes) == line + "\n";
    assert Poll(BEGINNING.at, Present(|bytes|, bytes)).1 == [line];
  }

  lemma ReadInHalves(p: string, q: string)
    requires OneLineText(p) && OneLineText(q)
    ensures |Encoded(p)| + 1 <= |LineBytes(p, q)|
    ensures Run(BEGINNING, Twice(LineBytes(p, q), |Encoded(p)| + 1)).all == [Broken(p, q)]
  {
    var bytes, n := LineBytes(p, q), |Encoded(p)| + 1;
    assert bytes[..n] == Encoded(p) + [LEAD] && bytes[n..] == [TAIL] + Encoded(q + "\n");
    HalvesRead(p, q);
    FirstHalf(p, bytes[..n]);
    SecondHalf(p, q, Observe(BEGINNING, Present(n, bytes[..n])), bytes, n);
    RunTwo(BEGINNING, Present(n, bytes[..n]), Present(|bytes|, bytes));
  }

  lemma SecondHalf(p: string, q: string, half: Session, bytes: seq<byte>, n: nat)
    requires OneLineText(p) && OneLineText(q) && n < |bytes| && ReadText(bytes[n..]) == "\U{FFFD}" + (q + "\n")
    requires half.at == Position(n, p + "\U{FFFD}", true) && half.all == []
    ensures Observe(half, Present(|bytes|, bytes)).all == [Broken(p, q)]
  {
    var line := Broken(p, q);
    assert (p + "\U{FFFD}") + ("\U{FFFD}" + (q + "\n")) == line + "\n";
    OneLine(line);
    assert Poll(half.at, Present(|bytes|, bytes)).1 == [line];
  }

  lemma FirstHalf(p: string, bytes: seq<byte>)
    requires OneLineText(p) && bytes != [] && ReadText(bytes) == p + "\U{FFFD}"
    ensures var half := Observe(BEGINNING, Present(|bytes|, bytes));
      half.at == Position(|bytes|, p + "\U{FFFD}", true) && half.all == []
  {
    assert bytes[0..] == bytes && "" + ReadText(bytes) == ReadText(bytes);
  }

  lemma RunTwo(s: Session, v: View, w: View)
    ensures Run(s, [v, w]) == Observe(Observe(s, v), w)
  {
    assert [v, w][1..] == [w] && [w][1..] == [];
    assert Run(Observe(s, v), [w]) == Run(Observe(Observe(s, v), w), [w][1..]);
  }

  lemma OneAlert(decode: string -> Decoded, line: string, a: Entry)
    requires LineAlert(decode, line) == [a]
    ensures Replay(Alerts(decode, [line])) == [a]
  {
    AlertsStep(decode, [], line);
    assert [] + [line] == [line] && [] + [a] == [a];
    assert [a][..0] == [];
  }

  /** A line appended in one go or in two pieces cut inside its accented letter: the final file is the same, the
      lines handed on are not, and wherever both are alerts of one 4-tuple with different signatures, the
      cache is not either. */
  lemma DirtyCutChangesTheCache(decode: string -> Decoded, p: string, q: string, k: AlertKey, sig: string, sig': string)
    requires OneLineText(p) && OneLineText(q)
    requires LineAlert(decode, Whole(p, q)) == [(k, sig)] && LineAlert(decode, Broken(p, q)) == [(k, sig')] && sig != sig'
    ensures |Encoded(p)| + 1 <= |LineBytes(p, q)|
    ensures var bytes := LineBytes(p, q);
      var once, twice := Once(bytes), Twice(bytes, |Encoded(p)| + 1);
      && FinalBytes([], once) == FinalBytes([], twice) == bytes
      && Run(BEGINNING, once).all == [Whole(p, q)] && Run(BEGINNING, twice).all == [Broken(p, q)]
      && (k, sig) in Replay(Alerts(decode, Run(BEGINNING, once).all))
      && (k, sig) !in Replay(Alerts(decode, Run(BEGINNING, twice).all))
  {
    ReadAtOnce(p, q);
    ReadInHalves(p, q);
    OneAlert(decode, Whole(p, q), (k, sig));
    OneAlert(decode, Broken(p, q), (k, sig'));
    var bytes := LineBytes(p, q);
    var once, twice := Once(bytes), Twice(bytes, |Encoded(p)| + 1);
    assert once[1..] == [] && twice[1..] == [twice[1]] && [twice[1]][1..] == [];
  }
}
