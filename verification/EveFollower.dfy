/**
 The Suricata follower: cutting a growing file into lines across polls, dispatching each
 line, and feeding the alert cache.
 */
module EveFollower {
  import opened Text
  import opened LineSplit
  import opened TextRead
  import opened AlertCache

  // ----- Polling -----

  /** What one poll sees: no file, or its size when asked and its bytes when read. */
  datatype View = Missing | Present(size: nat, bytes: seq<byte>)

  /** The offset counts bytes, the partial line is decoded text. */
  datatype Position = Position(offset: nat, partial: string, positioned: bool)

  const START := Position(0, "", false)

  /** Where the poll reads from, after the check for a truncated file. */
  function Rewound(p: Position, size: nat): Position {
    if size < p.offset then Position(0, "", true) else p
  }

  function Chunk(bytes: seq<byte>, offset: nat): seq<byte> {
    if offset <= |bytes| then bytes[offset..] else []
  }

  /** One round of the polling loop: the new position and the lines handed on. */
  function Poll(p: Position, v: View): (Position, seq<string>) {
    match v
    case Missing => (START, [])
    case Present(size, bytes) =>
      if !p.positioned then (Position(size, p.partial, true), [])
      else
        var q := Rewound(p, size);
        if size > q.offset then
          var c := Chunk(bytes, q.offset);
          var text := q.partial + ReadText(c);
          (Position(q.offset + |c|, Rest(text), true), Lines(text))
        else (q, [])
  }

  /** A run: the bytes taken since the last reset, where among them each read began, the text those reads
      gave, the lines handled since then, and every line handled so far. */
  datatype Session = Session(
    at: Position,
    raw: seq<byte>,
    cuts: set<nat>,
    read: string,
    handled: seq<string>,
    all: seq<string>)

  predicate Resets(p: Position, v: View) {
    v.Missing? || !p.positioned || v.size < p.offset
  }

  predicate Reads(p: Position, v: View) {
    v.Present? && p.positioned && v.size > Rewound(p, v.size).offset
  }

  function Observe(s: Session, v: View): Session {
    var (q, lines) := Poll(s.at, v);
    var base := if Resets(s.at, v) then Session(s.at, [], {}, "", [], s.all) else s;
    if Reads(s.at, v) then
      var c := Chunk(v.bytes, Rewound(s.at, v.size).offset);
      Session(q, base.raw + c, base.cuts + {|base.raw|}, base.read + ReadText(c), base.handled + lines, base.all + lines)
    else Session(q, base.raw, base.cuts, base.read, base.handled, base.all)
  }

  function Run(s: Session, views: seq<View>): Session
    decreases |views|
  {
    if views == [] then s else Run(Observe(s, views[0]), views[1..])
  }

  /** No read began inside a character or between a carriage return and its line feed. */
  predicate CleanCuts(raw: seq<byte>, cuts: set<nat>) { forall e :: e in cuts ==> !SplitsAt(raw, e) }

  predicate SplitsAt(raw: seq<byte>, e: nat) { e <= |raw| && Splits(raw[..e], raw[e..]) }

  /** The lines handled are exactly the complete lines of what was read, and partial is the rest; what was read
      is the text of the bytes exactly when all cuts are clean, and longer otherwise. */
  ghost predicate Consistent(s: Session) {
    && s.handled == Lines(s.read)
    && s.at.partial == Rest(s.read)
    && (!s.at.positioned ==> s.at.partial == "" && s.read == "")
    && Faithful(s.raw, s.cuts, s.read)
  }

  ghost predicate Faithful(raw: seq<byte>, cuts: set<nat>, read: string) {
    && (forall e :: e in cuts ==> e <= |raw|)
    && if CleanCuts(raw, cuts) then read == ReadText(raw) else |read| > |ReadText(raw)|
  }

  /** Whether an earlier cut is clean does not depend on what is read later. */
  lemma EarlierCut(raw: seq<byte>, c: seq<byte>, e: nat)
    requires e < |raw|
    ensures SplitsAt(raw + c, e) == SplitsAt(raw, e)
  {
    assert (raw + c)[..e] == raw[..e];
    assert (raw + c)[e..][0] == raw[e..][0];
  }

  lemma LastCut(raw: seq<byte>, c: seq<byte>)
    ensures SplitsAt(raw + c, |raw|) == Splits(raw, c) && SplitsAt(raw, |raw|) == false
  {
    assert (raw + c)[..|raw|] == raw && (raw + c)[|raw|..] == c;
  }

  lemma CutsGrow(raw: seq<byte>, cuts: set<nat>, c: seq<byte>)
    requires forall e :: e in cuts ==> e <= |raw|
    ensures CleanCuts(raw + c, cuts + {|raw|}) == (CleanCuts(raw, cuts) && !Splits(raw, c))
  {
    LastCut(raw, c);
    forall e | e in cuts && e < |raw| ensures SplitsAt(raw + c, e) == SplitsAt(raw, e) { EarlierCut(raw, c, e); }
  }

  lemma ReadKeepsFaithful(raw: seq<byte>, cuts: set<nat>, read: string, c: seq<byte>)
    requires Faithful(raw, cuts, read)
    ensures Faithful(raw + c, cuts + {|raw|}, read + ReadText(c))
  {
    CutsGrow(raw, cuts, c);
    ReadInTwo(raw, c);
  }

  lemma ObserveKeepsConsistent(s: Session, v: View)
    requires Consistent(s)
    ensures Consistent(Observe(s, v))
  {
    assert Faithful([], {}, "");
    if Reads(s.at, v) {
      var c := Chunk(v.bytes, Rewound(s.at, v.size).offset);
      if Resets(s.at, v) {
        SplitIncrementally("", ReadText(c));
        ReadKeepsFaithful([], {}, "", c);
      } else {
        SplitIncrementally(s.read, ReadText(c));
        ReadKeepsFaithful(s.raw, s.cuts, s.read, c);
      }
    }
  }

  /** Over every sequence of polls: handled lines, their newlines and partial make up what was read since the
      last reset, partial holds no newline, and what was read is the text of the bytes taken if and only if no
      read began inside a character or a line end. */
  lemma {:induction false} EveryRunIsConsistent(s: Session, views: seq<View>)
    requires Consistent(s)
    ensures var r := Run(s, views);
      && Consistent(r)
      && Unsplit(r.handled) + r.at.partial == r.read
      && '\n' !in r.at.partial && NewlineFree(r.handled)
      && (r.read == ReadText(r.raw) <==> CleanCuts(r.raw, r.cuts))
    decreases |views|
  {
    SplitRoundTrip(s.read);
    if views != [] {
      ObserveKeepsConsistent(s, views[0]);
      EveryRunIsConsistent(Observe(s, views[0]), views[1..]);
    }
  }

  /** A file that only grows: each poll's size lies between the last bytes read and the bytes it reads. */
  ghost predicate Growing(base: seq<byte>, views: seq<View>)
    decreases |views|
  {
    views != [] ==>
      && views[0].Present? && |base| <= views[0].size <= |views[0].bytes| && base <= views[0].bytes
      && Growing(views[0].bytes, views[1..])
  }

  function FinalBytes(base: seq<byte>, views: seq<View>): seq<byte>
    decreases |views|
  {
    if views == [] then base
    else FinalBytes(if views[0].Present? then views[0].bytes else base, views[1..])
  }

  /** The last poll saw the whole of the final file. */
  ghost predicate CaughtUp(base: seq<byte>, views: seq<View>) {
    views != [] && views[|views| - 1].Present? && views[|views| - 1].size == |FinalBytes(base, views)|
  }

  /** The offsets at which polls of a growing file begin to read. */
  function ReadOffsets(offset: nat, views: seq<View>): set<nat>
    decreases |views|
  {
    if views == [] then {}
    else if views[0].Present? && views[0].size > offset then {offset} + ReadOffsets(|views[0].bytes|, views[1..])
    else ReadOffsets(offset, views[1..])
  }

  function Shifted(offsets: set<nat>, start: nat): set<nat> {
    set x | x in offsets && x >= start :: x - start
  }

  /** While the file only grows, the bytes taken are the file's own from the start position to the offset, and
      reads begin where the polls found more. */
  lemma {:induction false} GrowingFileIsReadVerbatim(s: Session, start: nat, earlier: seq<string>, base: seq<byte>, views: seq<View>)
    requires s.all == earlier + s.handled
    requires s.at.positioned && start <= s.at.offset <= |base| && s.raw == base[start..s.at.offset]
    requires Growing(base, views)
    ensures var r, bytes := Run(s, views), FinalBytes(base, views);
      && r.at.positioned && start <= r.at.offset <= |bytes| && r.all == earlier + r.handled
      && r.raw == bytes[start..r.at.offset]
      && r.cuts == s.cuts + Shifted(ReadOffsets(s.at.offset, views), start)
    decreases |views|
  {
    if views != [] {
      var v := views[0];
      GrowingStep(s, start, earlier, base, v);
      GrowingFileIsReadVerbatim(Observe(s, v), start, earlier, v.bytes, views[1..]);
      CutsCollect(s.cuts, s.at.offset, ReadOffsets(|v.bytes|, views[1..]), start);
    }
  }

  /** A poll that sees the whole of a grown file reads to its end. */
  lemma {:induction false} CaughtUpReadsAll(s: Session, base: seq<byte>, views: seq<View>)
    requires s.at.positioned && s.at.offset <= |base| && Growing(base, views) && CaughtUp(base, views)
    ensures Run(s, views).at.offset == |FinalBytes(base, views)|
    decreases |views|
  {
    var v := views[0];
    if |views| == 1 {
      assert views[1..] == [];
    } else {
      assert views[1..][|views| - 2] == views[|views| - 1];
      CaughtUpReadsAll(Observe(s, v), v.bytes, views[1..]);
    }
  }

  lemma GrowingStep(s: Session, start: nat, earlier: seq<string>, base: seq<byte>, v: View)
    requires s.all == earlier + s.handled
    requires s.at.positioned && start <= s.at.offset <= |base| && s.raw == base[start..s.at.offset]
    requires v.Present? && |base| <= v.size <= |v.bytes| && base <= v.bytes
    ensures var r := Observe(s, v);
      && r.at.positioned && r.at.offset == (if v.size > s.at.offset then |v.bytes| else s.at.offset)
      && r.all == earlier + r.handled && r.raw == v.bytes[start..r.at.offset]
      && r.cuts == if v.size > s.at.offset then s.cuts + {s.at.offset - start} else s.cuts
  {
    assert base[start..s.at.offset] == v.bytes[start..s.at.offset];
    if v.size > s.at.offset {
      assert v.bytes[start..s.at.offset] + v.bytes[s.at.offset..] == v.bytes[start..|v.bytes|];
      Regroup(earlier, s.handled, Poll(s.at, v).1);
    }
  }

  lemma CutsCollect(cuts: set<nat>, x: nat, offsets: set<nat>, start: nat)
    requires x >= start
    ensures cuts + Shifted({x} + offsets, start) == (cuts + {x - start}) + Shifted(offsets, start)
  {
    assert Shifted({x} + offsets, start) == {x - start} + Shifted(offsets, start);
  }

  /** What a growing file says from the start position on. */
  function TextFrom(bytes: seq<byte>, start: nat): string { ReadText(Chunk(bytes, start)) }

  /** No poll began to read inside a character or between a carriage return and its line feed; the bytes around
      each offset decide. */
  predicate CleanPolls(bytes: seq<byte>, start: nat, views: seq<View>) {
    CleanCuts(Chunk(bytes, start), Shifted(ReadOffsets(start, views), start))
  }

  /** A session that has just found its start position. */
  ghost predicate Fresh(s: Session) {
    Consistent(s) && s.at.positioned && s.raw == [] && s.cuts == {} && s.read == ""
  }

  /** However a growing file is cut into polls, the lines handed on and the partial line are those of the
      appended text if and only if no poll begins to read inside a character or a line end. */
  lemma GrowingFileLines(s: Session, base: seq<byte>, views: seq<View>)
    requires Fresh(s) && s.at.offset <= |base| && Growing(base, views) && CaughtUp(base, views)
    ensures var r, bytes := Run(s, views), FinalBytes(base, views);
      && r.all == s.all + r.handled
      && (r.handled == Lines(TextFrom(bytes, s.at.offset)) && r.at.partial == Rest(TextFrom(bytes, s.at.offset))
          <==> CleanPolls(bytes, s.at.offset, views))
  {
    FreshRun(s, base, views);
    EveryRunIsConsistent(s, views);
    SameLines(Run(s, views).read, TextFrom(FinalBytes(base, views), s.at.offset));
  }

  lemma FreshRun(s: Session, base: seq<byte>, views: seq<View>)
    requires Fresh(s) && s.at.offset <= |base| && Growing(base, views) && CaughtUp(base, views)
    ensures var r, bytes, start := Run(s, views), FinalBytes(base, views), s.at.offset;
      && r.all == s.all + r.handled && r.raw == Chunk(bytes, start)
      && r.cuts == Shifted(ReadOffsets(start, views), start)
  {
    var bytes, start := FinalBytes(base, views), s.at.offset;
    assert s.raw == base[start..start];
    assert s.handled == [] && s.all + [] == s.all;
    GrowingFileIsReadVerbatim(s, start, s.all, base, views);
    CaughtUpReadsAll(s, base, views);
    assert bytes[start..|bytes|] == Chunk(bytes, start);
  }

  lemma SameLines(a: string, b: string)
    ensures Lines(a) == Lines(b) && Rest(a) == Rest(b) <==> a == b
  {
    SplitRoundTrip(a);
    SplitRoundTrip(b);
  }

  /** A poll that finds the file shorter than the offset starts over on its whole text; one that finds it
      empty reads at the next poll. */
  lemma TruncationStartsOver(s: Session, v: View)
    requires Consistent(s) && s.at.positioned && v.Present? && v.size < s.at.offset
    ensures var r := Observe(s, v);
      var seen := if v.size == 0 then [] else v.bytes;
      && r.raw == seen && r.read == ReadText(seen)
      && r.handled == Lines(ReadText(seen)) && r.at == Position(|seen|, Rest(ReadText(seen)), true)
  {
    assert v.bytes[0..] == v.bytes;
    assert "" + ReadText(v.bytes) == ReadText(v.bytes);
  }

  /** A lost file, found again, is followed from its end with nothing carried over. */
  lemma LostFileStartsOver(s: Session, v: View)
    requires v.Present?
    ensures var r := Observe(Observe(s, Missing), v);
      r == Session(Position(v.size, "", true), [], {}, "", [], s.all)
  {
  }

  // ----- Handling lines -----

  datatype Adaptation = Adapted | Rejected | Escaped

  /** What json.loads, the adapter and the sensor route make of a stripped line; Unreadable and Escaped stand
      for errors handle_line does not catch. */
  datatype Decoded =
    | Malformed
    | Unreadable
    | NotAnObject
    | OtherEvent
    | AlertEvent(record: EveRecord)
    | FlowEvent(noise: bool, adaptation: Adaptation, accepted: bool, noiseReply: bool)

  datatype Outcome = Blank | BadJson | Ignored | Alerted | Noise | InvalidFlow | Posted | Raised

  function LineOutcome(decode: string -> Decoded, line: string): Outcome {
    if Strip(line) == "" then Blank
    else match decode(Strip(line))
      case Malformed => BadJson
      case Unreadable => Raised
      case NotAnObject => Ignored
      case OtherEvent => Ignored
      case AlertEvent(record) => if Overflows(record) then Raised else Alerted
      case FlowEvent(noise, adaptation, accepted, noiseReply) => FlowOutcome(noise, adaptation, accepted, noiseReply)
  }

  /** What becomes of a flow: dropped as noise, refused by the adapter, or posted, a refused post being noise or
      an error. */
  function FlowOutcome(noise: bool, adaptation: Adaptation, accepted: bool, noiseReply: bool): (o: Outcome)
    ensures o == Posted <==> !noise && adaptation.Adapted? && accepted
    ensures o == InvalidFlow <==> !noise && adaptation.Rejected?
    ensures o == Noise <==> noise || (adaptation.Adapted? && !accepted && noiseReply)
    ensures o == Raised <==> !noise && (adaptation.Escaped? || (adaptation.Adapted? && !accepted && !noiseReply))
  {
    if noise then Noise
    else if adaptation.Rejected? then InvalidFlow
    else if adaptation.Escaped? then Raised
    else if accepted then Posted else if noiseReply then Noise else Raised
  }

  /** Only a blank line, unparsable text, anything but an alert or a flow, an alert and a flow are told apart, by
      the stripped text alone. */
  lemma OutcomesAre(decode: string -> Decoded, line: string)
    ensures var text, o := Strip(line), LineOutcome(decode, line);
      && (o == Blank <==> text == "")
      && (o == BadJson <==> text != "" && decode(text) == Malformed)
      && (o == Ignored <==> text != "" && (decode(text) == NotAnObject || decode(text) == OtherEvent))
      && (o == Alerted <==> text != "" && decode(text).AlertEvent? && !Overflows(decode(text).record))
      && (o == Posted ==> text != "" && decode(text).FlowEvent?)
      && (o == Raised <==>
          && text != ""
          && match decode(text)
             case Unreadable => true
             case AlertEvent(record) => Overflows(record)
             case FlowEvent(noise, adaptation, accepted, noiseReply) =>
               !noise && (adaptation.Escaped? || (adaptation.Adapted? && !accepted && !noiseReply))
             case _ => false)
  {
  }

  /** The alert a line contributes to the cache. */
  function LineAlert(decode: string -> Decoded, line: string): seq<Entry> {
    if LineOutcome(decode, line) == Alerted then RecordAlert(decode(Strip(line)).record) else []
  }

  function Alerts(decode: string -> Decoded, lines: seq<string>): seq<Entry> {
    if lines == [] then [] else Alerts(decode, lines[..|lines| - 1]) + LineAlert(decode, lines[|lines| - 1])
  }

  lemma AlertsStep(decode: string -> Decoded, lines: seq<string>, line: string)
    ensures Alerts(decode, lines + [line]) == Alerts(decode, lines) + LineAlert(decode, line)
  {
    assert (lines + [line])[..|lines|] == lines;
  }

  lemma LineAlertOf(decode: string -> Decoded, line: string)
    ensures LineAlert(decode, line) ==
      if Strip(line) != "" && decode(Strip(line)).AlertEvent? then RecordAlert(decode(Strip(line)).record) else []
    ensures Strip(line) != "" && decode(Strip(line)).AlertEvent? ==>
      LineOutcome(decode, line) == if Overflows(decode(Strip(line)).record) then Raised else Alerted
  {
  }

  /** Part-way through a text: the lines handed on and those still to come, and what will be left. */
  ghost function Outlook(done: seq<string>, rest: string): (seq<string>, string) {
    (done + Lines(rest), Rest(rest))
  }

  lemma NextLine(done: seq<string>, s: string)
    requires '\n' in s
    ensures Outlook(done + [s[..NewlineIndex(s)]], s[NewlineIndex(s) + 1..]) == Outlook(done, s)
  {
    var line, rest := s[..NewlineIndex(s)], s[NewlineIndex(s) + 1..];
    SplitHere(s);
    Regroup(done, [line], Lines(rest));
  }

  lemma Drained(whole: string, log: seq<string>, done: seq<string>, rest: string)
    requires Outlook(done, rest) == Outlook([], whole)
    ensures '\n' !in rest ==> done == Lines(whole) && rest == Rest(whole)
    ensures done != [] ==> log < log + done <= log + Lines(whole)
  {
    assert [] + Lines(whole) == Lines(whole);
    Regroup(log, done, Lines(rest));
    if '\n' !in rest { assert done + Lines(rest) == done; }
  }

  /** The running follower; log is every line handed to handle_line. */
  class Follower {
    const decode: string -> Decoded
    const cache: Cache
    var offset: nat
    var partial: string
    var positioned: bool
    ghost var log: seq<string>

    ghost predicate Valid() reads this, cache {
      cache.Valid() && cache.history == Alerts(decode, log)
    }

    ghost function At(): Position reads this { Position(offset, partial, positioned) }

    constructor (decode: string -> Decoded)
      ensures Valid() && At() == START && log == [] && this.decode == decode && fresh(cache)
    {
      this.decode := decode;
      cache := new Cache();
      offset, partial, positioned, log := 0, "", false, [];
    }

    method HandleLine(line: string) returns (outcome: Outcome)
      requires Valid()
      modifies cache, this`log
      ensures Valid() && log == old(log) + [line]
      ensures outcome == LineOutcome(decode, line)
    {
      var text := Strip(line);
      LineAlertOf(decode, line);
      if text == "" {
        outcome := Blank;
      } else {
        match decode(text)
        case Malformed => outcome := BadJson;
        case Unreadable => outcome := Raised;
        case NotAnObject => outcome := Ignored;
        case OtherEvent => outcome := Ignored;
        case AlertEvent(record) =>
          var raised := cache.Remember(record);
          outcome := if raised then Raised else Alerted;
        case FlowEvent(noise, adaptation, accepted, noiseReply) => outcome := FlowOutcome(noise, adaptation, accepted, noiseReply);
      }
      AlertsStep(decode, log, line);
      log := log + [line];
    }

    /** The inner loop: hand on every complete line, keep the rest; a raise stops at its line. */
    method DrainPartial() returns (raised: bool)
      requires Valid()
      modifies cache, this`log, this`partial
      ensures Valid()
      ensures !raised ==> log == old(log) + Lines(old(partial)) && partial == Rest(old(partial))
      ensures raised ==> old(log) < log <= old(log) + Lines(old(partial)) && LineOutcome(decode, log[|log| - 1]) == Raised
    {
      raised := false;
      var rest := partial;
      ghost var done, whole := [], partial;
      while '\n' in rest && !raised
        invariant Valid() && log == old(log) + done
        invariant Outlook(done, rest) == Outlook([], whole)
        invariant raised ==> done != [] && LineOutcome(decode, log[|log| - 1]) == Raised
        decreases |rest|
      {
        var i := NewlineIndex(rest);
        var line := rest[..i];
        NextLine(done, rest);
        Regroup(old(log), done, [line]);
        done, rest := done + [line], rest[i + 1..];
        var outcome := HandleLine(line);
        assert log[|log| - 1] == line;
        raised := outcome == Raised;
      }
      partial := rest;
      Drained(whole, old(log), done, rest);
    }

    /** One round of the polling loop. */
    method PollOnce(v: View) returns (raised: bool)
      requires Valid()
      modifies cache, this
      ensures Valid()
      ensures !raised ==> At() == Poll(old(At()), v).0 && log == old(log) + Poll(old(At()), v).1
      ensures raised ==> old(log) < log <= old(log) + Poll(old(At()), v).1
    {
      raised := false;
      match v
      case Missing =>
        positioned, offset, partial := false, 0, "";
      case Present(size, bytes) =>
        if !positioned {
          offset, positioned := size, true;
          return;
        }
        if size < offset { offset, partial := 0, ""; }
        if size > offset {
          var chunk := Chunk(bytes, offset);
          offset := offset + |chunk|;
          partial := partial + ReadText(chunk);
          raised := DrainPartial();
        }
    }
  }

  /** Polled cleanly, a file leaves the cache its text prescribes; another way of polling it hands on the same
      lines and partial line exactly when it is clean too, and then leaves the same cache. */
  lemma CutsDoNotMatter(decode: string -> Decoded, s: Session, base: seq<byte>, views: seq<View>, views': seq<View>)
    requires Fresh(s) && s.at.offset <= |base|
    requires Growing(base, views) && CaughtUp(base, views)
    requires Growing(base, views') && CaughtUp(base, views')
    requires FinalBytes(base, views) == FinalBytes(base, views')
    requires CleanPolls(FinalBytes(base, views), s.at.offset, views)
    ensures var r, r' := Run(s, views), Run(s, views');
      && (r.handled == r'.handled && r.at.partial == r'.at.partial <==> CleanPolls(FinalBytes(base, views), s.at.offset, views'))
      && (CleanPolls(FinalBytes(base, views), s.at.offset, views') ==> Alerts(decode, r.all) == Alerts(decode, r'.all))
  {
    GrowingFileLines(s, base, views);
    GrowingFileLines(s, base, views');
  }
}
