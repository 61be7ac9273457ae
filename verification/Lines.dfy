/** The line reader: lines out of a byte stream that comes in chunks. Lines stay bytes here;
    decoding them is not modelled. */
module Lines {
  type Byte = b: int | 0 <= b < 256

  const NEWLINE: Byte := 10
  const RETURN: Byte := 13

  // ---- Carriage returns at either end -------------------------------------------------

  ghost predicate AllReturns(text: seq<Byte>) {
    forall i | 0 <= i < |text| :: text[i] == RETURN
  }

  /** `text` is `trimmed` between two runs of carriage returns, and `trimmed` has none at
      either end. */
  ghost predicate IsTrimmed(text: seq<Byte>, trimmed: seq<Byte>) {
    && (trimmed != [] ==> trimmed[0] != RETURN && trimmed[|trimmed| - 1] != RETURN)
    && exists start | 0 <= start <= |text| - |trimmed| :: TrimmedAt(text, trimmed, start)
  }

  ghost predicate TrimmedAt(text: seq<Byte>, trimmed: seq<Byte>, start: nat) {
    && start + |trimmed| <= |text|
    && AllReturns(text[..start])
    && text[start..start + |trimmed|] == trimmed
    && AllReturns(text[start + |trimmed|..])
  }

  function Leading(text: seq<Byte>, start: nat): nat
    requires start <= |text|
    ensures start <= Leading(text, start) <= |text|
    decreases |text| - start
  {
    if start < |text| && text[start] == RETURN then Leading(text, start + 1) else start
  }

  function Ending(text: seq<Byte>, start: nat, end: nat): nat
    requires start <= end <= |text|
    ensures start <= Ending(text, start, end) <= end
  {
    if end > start && text[end - 1] == RETURN then Ending(text, start, end - 1) else end
  }

  function Trimmed(text: seq<Byte>): seq<Byte> {
    text[Leading(text, 0)..Ending(text, Leading(text, 0), |text|)]
  }

  lemma {:induction false} LeadingIs(text: seq<Byte>, start: nat)
    requires start <= |text|
    ensures forall i | start <= i < Leading(text, start) :: text[i] == RETURN
    ensures Leading(text, start) < |text| ==> text[Leading(text, start)] != RETURN
    decreases |text| - start
  {
    if start < |text| && text[start] == RETURN {
      LeadingIs(text, start + 1);
    }
  }

  lemma {:induction false} EndingIs(text: seq<Byte>, start: nat, end: nat)
    requires start <= end <= |text|
    ensures forall i | Ending(text, start, end) <= i < end :: text[i] == RETURN
    ensures Ending(text, start, end) > start ==> text[Ending(text, start, end) - 1] != RETURN
  {
    if end > start && text[end - 1] == RETURN {
      EndingIs(text, start, end - 1);
    }
  }

  lemma {:induction false} TrimmedIs(text: seq<Byte>)
    ensures IsTrimmed(text, Trimmed(text))
  {
    var start := Leading(text, 0);
    LeadingIs(text, 0);
    EndingIs(text, start, |text|);
    assert TrimmedAt(text, Trimmed(text), start);
  }

  /** `text` without the carriage returns at either end. */
  method TrimCarriageReturns(text: seq<Byte>) returns (trimmed: seq<Byte>)
    ensures trimmed == Trimmed(text) && IsTrimmed(text, trimmed)
  {
    TrimmedIs(text);
    var start := 0;
    var end := |text|;
    while start < end && text[start] == RETURN
      invariant 0 <= start <= end == |text|
      invariant Leading(text, start) == Leading(text, 0)
    {
      start := start + 1;
    }
    while end > start && text[end - 1] == RETURN
      invariant start <= end <= |text| && start == Leading(text, 0)
      invariant Ending(text, start, end) == Ending(text, start, |text|)
    {
      end := end - 1;
    }
    trimmed := text[start..end];
  }

  // ---- Splitting -----------------------------------------------------------------------

  /** The lines completed so far and the bytes after the last newline. */
  datatype Split = Split(lines: seq<seq<Byte>>, rest: seq<Byte>)

  function Take(s: Split, b: Byte): Split {
    if b == NEWLINE then Split(s.lines + [s.rest], []) else Split(s.lines, s.rest + [b])
  }

  /** `s` with the first `n` bytes of `bytes` read. */
  function Scan(s: Split, bytes: seq<Byte>, n: nat): Split
    requires n <= |bytes|
  {
    if n == 0 then s else Take(Scan(s, bytes, n - 1), bytes[n - 1])
  }

  /** At some byte the line being read is over the limit. */
  ghost predicate Over(s: Split, bytes: seq<Byte>, limit: nat) {
    exists n | 0 <= n <= |bytes| :: |Scan(s, bytes, n).rest| > limit
  }

  /** Up to the `n`-th byte no line being read is over the limit. */
  ghost predicate Within(s: Split, bytes: seq<Byte>, n: nat, limit: nat)
    requires n <= |bytes|
  {
    forall k | 0 <= k <= n :: |Scan(s, bytes, k).rest| <= limit
  }

  /** The bytes that lines, each with its newline, and a rest make up. */
  function Joined(s: Split): seq<Byte>
    decreases |s.lines|
  {
    if s.lines == [] then s.rest
    else s.lines[0] + [NEWLINE] + Joined(Split(s.lines[1..], s.rest))
  }

  ghost predicate NoNewline(line: seq<Byte>) {
    forall i | 0 <= i < |line| :: line[i] != NEWLINE
  }

  ghost predicate Plain(s: Split) {
    NoNewline(s.rest) && forall i | 0 <= i < |s.lines| :: NoNewline(s.lines[i])
  }

  lemma {:induction false} JoinedTake(s: Split, b: Byte)
    ensures Joined(Take(s, b)) == Joined(s) + [b]
    decreases |s.lines|
  {
    if s.lines == [] {
      if b == NEWLINE {
        var t := Take(s, b);
        assert t.lines[1..] == [];
        assert Joined(t) == s.rest + [NEWLINE] + Joined(Split([], []));
      }
    } else {
      var tail := Split(s.lines[1..], s.rest);
      JoinedTake(tail, b);
      var t := Take(s, b);
      assert t.lines[0] == s.lines[0];
      assert t.lines[1..] == Take(tail, b).lines;
      assert Joined(t) == s.lines[0] + [NEWLINE] + Joined(Take(tail, b));
    }
  }

  /** Reading splits at newlines: the lines have none, and with one after each, and the rest
      last, they are the bytes read. */
  lemma {:induction false} ScanSplits(s: Split, bytes: seq<Byte>, n: nat)
    requires n <= |bytes| && Plain(s)
    ensures Plain(Scan(s, bytes, n)) && Joined(Scan(s, bytes, n)) == Joined(s) + bytes[..n]
  {
    if n > 0 {
      ScanSplits(s, bytes, n - 1);
      JoinedTake(Scan(s, bytes, n - 1), bytes[n - 1]);
      assert bytes[..n] == bytes[..n - 1] + [bytes[n - 1]];
    } else {
      assert Joined(s) + bytes[..0] == Joined(s);
    }
  }

  /** The first newline is the end of the first line, if there is one. */
  lemma {:induction false} FirstBreak(s: Split)
    requires Plain(s)
    ensures s.lines == [] ==> NoNewline(Joined(s))
    ensures s.lines != [] ==>
      var n := |s.lines[0]|;
      n < |Joined(s)| && Joined(s)[n] == NEWLINE && Joined(s)[..n] == s.lines[0] && NoNewline(Joined(s)[..n])
  {
  }

  /** There is only one way to split bytes at their newlines. */
  lemma {:induction false} SplitUnique(s: Split, t: Split)
    requires Plain(s) && Plain(t) && Joined(s) == Joined(t)
    ensures s == t
    decreases |s.lines|
  {
    FirstBreak(s);
    FirstBreak(t);
    assert s.lines == [] <==> t.lines == [];
    if s.lines != [] {
      var a := s.lines[0];
      var b := t.lines[0];
      var s' := Split(s.lines[1..], s.rest);
      var t' := Split(t.lines[1..], t.rest);
      assert |a| == |b|;
      assert a == Joined(s)[..|a|] == b;
      assert Joined(s') == Joined(s)[|a| + 1..] == Joined(t');
      SplitUnique(s', t');
      assert s.lines == [a] + s'.lines && t.lines == [b] + t'.lines;
    }
  }

  /** Without a newline between them, bytes join the rest. */
  lemma {:induction false} ScanPlain(s: Split, bytes: seq<Byte>, from: nat, until: nat)
    requires from <= until <= |bytes| && NoNewline(bytes[from..until])
    ensures Scan(s, bytes, until) == Split(Scan(s, bytes, from).lines, Scan(s, bytes, from).rest + bytes[from..until])
    decreases until
  {
    if from < until {
      assert bytes[from..until][until - 1 - from] == bytes[until - 1];
      assert bytes[from..until - 1] == bytes[from..until][..until - 1 - from];
      ScanPlain(s, bytes, from, until - 1);
      assert bytes[from..until] == bytes[from..until - 1] + [bytes[until - 1]];
    } else {
      assert Scan(s, bytes, from).rest + bytes[from..until] == Scan(s, bytes, from).rest;
    }
  }

  // ---- Chunks ----------------------------------------------------------------------------

  function TrimAll(lines: seq<seq<Byte>>): seq<seq<Byte>> {
    seq(|lines|, i requires 0 <= i < |lines| => Trimmed(lines[i]))
  }

  datatype Pushed = Lines(lines: seq<seq<Byte>>) | LineTooLong

  /** What is kept between chunks: the bytes read since the last newline, as they came. */
  class LineReader {
    var parts: seq<seq<Byte>>
    var length: nat
    const limit: nat

    ghost predicate Valid()
      reads this
    {
      length == |Pending()| <= limit && NoNewline(Pending())
    }

    /** The bytes after the last newline. */
    function Pending(): seq<Byte>
      reads this
    {
      Concat(parts)
    }

    constructor (limit: nat)
      ensures Valid() && Pending() == [] && this.limit == limit
    {
      this.parts, this.length, this.limit := [], 0, limit;
    }

    /** One part more, or nothing kept when the limit does not allow it. */
    method Add(part: seq<Byte>) returns (ok: bool)
      requires Valid() && NoNewline(part)
      modifies this
      ensures Valid() && ok == (|old(Pending())| + |part| <= limit)
      ensures Pending() == if ok then old(Pending()) + part else []
    {
      if length + |part| > limit {
        parts, length := [], 0;
        return false;
      }
      length := length + |part|;
      if |part| > 0 {
        ConcatAppend(parts, part);
        parts := parts + [part];
      } else {
        assert Pending() + part == Pending();
      }
      ok := true;
    }

    /** The line being read is over: it is given, trimmed, and nothing is kept. */
    method EndLine() returns (line: seq<Byte>)
      requires Valid()
      modifies this
      ensures Valid() && Pending() == [] && line == Trimmed(old(Pending()))
    {
      line := TrimCarriageReturns(Concat(parts));
      parts, length := [], 0;
    }

    /** A chunk gives the lines it completes, and what follows its last newline is kept. */
    method Push(chunk: seq<Byte>) returns (r: Pushed)
      requires Valid()
      modifies this
      ensures Valid()
      ensures r.LineTooLong? <==> Over(Split([], old(Pending())), chunk, limit)
      ensures r.LineTooLong? ==> Pending() == []
      ensures r.Lines? ==>
        var s := Scan(Split([], old(Pending())), chunk, |chunk|);
        r.lines == TrimAll(s.lines) && Pending() == s.rest
    {
      var lines := [];
      var start := 0;
      ghost var s0 := Split([], Pending());
      while true
        invariant 0 <= start <= |chunk| && Valid() && Within(s0, chunk, start, limit)
        invariant lines == TrimAll(Scan(s0, chunk, start).lines)
        invariant Pending() == Scan(s0, chunk, start).rest
        decreases |chunk| - start
      {
        var end := IndexOfByte(chunk, NEWLINE, start);
        if end < 0 {
          break;
        }
        PartScanned(s0, chunk, start, end, limit);
        var added := Add(chunk[start..end]);
        if !added {
          return LineTooLong;
        }
        LineScanned(s0, chunk, end, limit);
        var line := EndLine();
        lines := lines + [line];
        start := end + 1;
      }
      PartScanned(s0, chunk, start, |chunk|, limit);
      var added := Add(chunk[start..]);
      if !added {
        return LineTooLong;
      }
      return Lines(lines);
    }
  }

  function Concat(parts: seq<seq<Byte>>): seq<Byte>
    decreases |parts|
  {
    if parts == [] then [] else Concat(parts[..|parts| - 1]) + parts[|parts| - 1]
  }

  lemma {:induction false} ConcatAppend(parts: seq<seq<Byte>>, part: seq<Byte>)
    ensures Concat(parts + [part]) == Concat(parts) + part
  {
    assert (parts + [part])[..|parts|] == parts;
  }

  /** The first position of `b` at or after `from`, or -1. */
  method IndexOfByte(bytes: seq<Byte>, b: Byte, from: nat) returns (i: int)
    requires from <= |bytes|
    ensures i < 0 ==> b !in bytes[from..]
    ensures i >= 0 ==> from <= i < |bytes| && bytes[i] == b && b !in bytes[from..i]
  {
    i := from;
    while i < |bytes|
      invariant from <= i <= |bytes| && b !in bytes[from..i]
    {
      if bytes[i] == b {
        return;
      }
      i := i + 1;
    }
    assert bytes[from..i] == bytes[from..];
    i := -1;
  }

  lemma {:induction false} PartLength(s: Split, bytes: seq<Byte>, from: nat, until: nat, n: nat)
    requires from <= n <= until <= |bytes| && NoNewline(bytes[from..until])
    ensures |Scan(s, bytes, n).rest| == |Scan(s, bytes, from).rest| + (n - from)
  {
    assert bytes[from..n] <= bytes[from..until];
    ScanPlain(s, bytes, from, n);
  }

  /** Within one line the limit is passed at some byte exactly when it is at the last. */
  lemma {:induction false} PartScanned(s: Split, bytes: seq<Byte>, from: nat, until: nat, limit: nat)
    requires from <= until <= |bytes| && NEWLINE !in bytes[from..until] && Within(s, bytes, from, limit)
    ensures NoNewline(bytes[from..until])
    ensures Scan(s, bytes, until) == Split(Scan(s, bytes, from).lines, Scan(s, bytes, from).rest + bytes[from..until])
    ensures if |Scan(s, bytes, until).rest| <= limit then Within(s, bytes, until, limit) else Over(s, bytes, limit)
  {
    ScanPlain(s, bytes, from, until);
    forall n | from <= n <= until
      ensures |Scan(s, bytes, n).rest| == |Scan(s, bytes, from).rest| + (n - from)
    {
      PartLength(s, bytes, from, until, n);
    }
  }

  /** At a newline what was being read becomes one more line. */
  lemma {:induction false} LineScanned(s: Split, bytes: seq<Byte>, end: nat, limit: nat)
    requires end < |bytes| && bytes[end] == NEWLINE && Within(s, bytes, end, limit)
    ensures Within(s, bytes, end + 1, limit) && Scan(s, bytes, end + 1).rest == []
    ensures TrimAll(Scan(s, bytes, end + 1).lines)
         == TrimAll(Scan(s, bytes, end).lines) + [Trimmed(Scan(s, bytes, end).rest)]
  {
    var before := Scan(s, bytes, end);
    assert Scan(s, bytes, end + 1) == Take(before, NEWLINE);
    TrimAllAppend(before.lines, [before.rest]);
    assert TrimAll([before.rest]) == [Trimmed(before.rest)];
  }

  // ---- Every way of cutting a stream -------------------------------------------------------

  /** What pushing chunk after chunk gives: all lines so far and the bytes kept, or that a line
      was too long. */
  datatype Outcome = Read(lines: seq<seq<Byte>>, pending: seq<Byte>) | TooLong

  /** One more chunk, after what the chunks before it gave. */
  ghost function PushOne(o: Outcome, chunk: seq<Byte>, limit: nat): Outcome {
    match o
    case TooLong => TooLong
    case Read(lines, kept) =>
      var s := Scan(Split([], kept), chunk, |chunk|);
      if Over(Split([], kept), chunk, limit) then TooLong else Read(lines + TrimAll(s.lines), s.rest)
  }

  ghost function PushAll(pending: seq<Byte>, chunks: seq<seq<Byte>>, n: nat, limit: nat): Outcome
    requires n <= |chunks|
  {
    if n == 0 then Read([], pending) else PushOne(PushAll(pending, chunks, n - 1, limit), chunks[n - 1], limit)
  }

  lemma {:induction false} ScanAppend(s: Split, a: seq<Byte>, b: seq<Byte>, n: nat)
    requires n <= |b|
    ensures Scan(s, a + b, |a| + n) == Scan(Scan(s, a, |a|), b, n)
  {
    if n == 0 {
      ScanPrefix(s, a, b, |a|);
    } else {
      ScanAppend(s, a, b, n - 1);
      assert (a + b)[|a| + n - 1] == b[n - 1];
    }
  }

  lemma {:induction false} ScanPrefix(s: Split, a: seq<Byte>, b: seq<Byte>, n: nat)
    requires n <= |a|
    ensures Scan(s, a + b, n) == Scan(s, a, n)
  {
    if n > 0 {
      ScanPrefix(s, a, b, n - 1);
    }
  }

  /** The lines already complete do not matter to what comes. */
  lemma {:induction false} ScanFresh(s: Split, bytes: seq<Byte>, n: nat)
    requires n <= |bytes|
    ensures Scan(s, bytes, n).lines == s.lines + Scan(Split([], s.rest), bytes, n).lines
    ensures Scan(s, bytes, n).rest == Scan(Split([], s.rest), bytes, n).rest
  {
    if n > 0 {
      ScanFresh(s, bytes, n - 1);
    }
  }

  lemma {:induction false} OverAppend(s: Split, a: seq<Byte>, b: seq<Byte>, limit: nat)
    ensures Over(s, a + b, limit) <==> Over(s, a, limit) || Over(Split([], Scan(s, a, |a|).rest), b, limit)
  {
    var mid := Scan(s, a, |a|);
    forall n | 0 <= n <= |a|
      ensures Scan(s, a + b, n) == Scan(s, a, n)
    {
      ScanPrefix(s, a, b, n);
    }
    forall n | 0 <= n <= |b|
      ensures Scan(s, a + b, |a| + n).rest == Scan(Split([], mid.rest), b, n).rest
    {
      ScanAppend(s, a, b, n);
      ScanFresh(mid, b, n);
    }
    if Over(s, a + b, limit) {
      var n :| 0 <= n <= |a + b| && |Scan(s, a + b, n).rest| > limit;
      if n > |a| {
        assert Scan(s, a + b, |a| + (n - |a|)).rest == Scan(Split([], mid.rest), b, n - |a|).rest;
      }
    }
  }

  lemma {:induction false} TrimAllAppend(a: seq<seq<Byte>>, b: seq<seq<Byte>>)
    ensures TrimAll(a + b) == TrimAll(a) + TrimAll(b)
  {
  }

  /** What a stream gives when it is read at once. */
  ghost function ReadWhole(pending: seq<Byte>, stream: seq<Byte>, limit: nat): Outcome {
    var s := Scan(Split([], pending), stream, |stream|);
    if Over(Split([], pending), stream, limit) then TooLong else Read(TrimAll(s.lines), s.rest)
  }

  /** One more chunk after a stream read at once. */
  lemma {:induction false} OneMoreChunk(pending: seq<Byte>, before: seq<Byte>, chunk: seq<Byte>, limit: nat)
    ensures ReadWhole(pending, before + chunk, limit) == PushOne(ReadWhole(pending, before, limit), chunk, limit)
  {
    var s0 := Split([], pending);
    OverAppend(s0, before, chunk, limit);
    ScanAppend(s0, before, chunk, |chunk|);
    var mid := Scan(s0, before, |before|);
    ScanFresh(mid, chunk, |chunk|);
    TrimAllAppend(mid.lines, Scan(Split([], mid.rest), chunk, |chunk|).lines);
  }

  /** Chunk independence: however a stream is cut, the reader gives the lines of the whole
      stream, trimmed, and keeps exactly the bytes after its last newline; and it finds a line
      too long exactly when the whole stream has one. */
  lemma {:induction false} ChunkIndependence(pending: seq<Byte>, chunks: seq<seq<Byte>>, n: nat, limit: nat)
    requires n <= |chunks| && |pending| <= limit
    ensures PushAll(pending, chunks, n, limit) == ReadWhole(pending, Concat(chunks[..n]), limit)
  {
    if n > 0 {
      ChunkIndependence(pending, chunks, n - 1, limit);
      assert chunks[..n] == chunks[..n - 1] + [chunks[n - 1]];
      ConcatAppend(chunks[..n - 1], chunks[n - 1]);
      OneMoreChunk(pending, Concat(chunks[..n - 1]), chunks[n - 1], limit);
    } else {
      assert Concat(chunks[..0]) == [];
      assert TrimAll([]) == [];
    }
  }

  /** Some line, or the rest, is over the limit. */
  ghost predicate LineOver(s: Split, limit: nat) {
    |s.rest| > limit || exists i | 0 <= i < |s.lines| :: |s.lines[i]| > limit
  }

  /** A line too long at some byte stays too long, complete or not. */
  lemma {:induction false} OverStays(s: Split, bytes: seq<Byte>, k: nat, n: nat, limit: nat)
    requires k <= n <= |bytes| && LineOver(Scan(s, bytes, k), limit)
    ensures LineOver(Scan(s, bytes, n), limit)
    decreases n
  {
    if k < n {
      OverStays(s, bytes, k, n - 1, limit);
      var t := Scan(s, bytes, n - 1);
      var u := Scan(s, bytes, n);
      if |t.rest| > limit {
        if bytes[n - 1] == NEWLINE {
          assert u.lines[|t.lines|] == t.rest;
        }
      } else {
        var i :| 0 <= i < |t.lines| && |t.lines[i]| > limit;
        assert u.lines[i] == t.lines[i];
      }
    }
  }

  lemma {:induction false} OverBefore(s: Split, bytes: seq<Byte>, n: nat, limit: nat)
    requires n <= |bytes| && !LineOver(s, limit) && LineOver(Scan(s, bytes, n), limit)
    ensures exists k | 0 <= k <= n :: |Scan(s, bytes, k).rest| > limit
  {
    if |Scan(s, bytes, n).rest| <= limit {
      var t := Scan(s, bytes, n - 1);
      var u := Scan(s, bytes, n);
      var i :| 0 <= i < |u.lines| && |u.lines[i]| > limit;
      if i < |t.lines| {
        assert t.lines[i] == u.lines[i];
        OverBefore(s, bytes, n - 1, limit);
      } else {
        assert u.lines[i] == t.rest;
      }
    }
  }

  /** For every way of cutting a stream into chunks: when no line of the stream is over the
      limit the results of `Push` are together its lines, trimmed, and the bytes after the last
      newline are kept; when one is, some `Push` finds it. */
  lemma {:induction false} ReadsWholeStream(chunks: seq<seq<Byte>>, whole: Split, limit: nat)
    requires Plain(whole) && Joined(whole) == Concat(chunks)
    ensures PushAll([], chunks, |chunks|, limit)
         == if LineOver(whole, limit) then TooLong else Read(TrimAll(whole.lines), whole.rest)
  {
    var stream := Concat(chunks);
    var s0 := Split([], []);
    assert chunks[..|chunks|] == chunks;
    ChunkIndependence([], chunks, |chunks|, limit);
    ScanSplits(s0, stream, |stream|);
    assert stream[..|stream|] == stream && Joined(s0) + stream == stream;
    SplitUnique(Scan(s0, stream, |stream|), whole);
    if Over(s0, stream, limit) {
      var k :| 0 <= k <= |stream| && |Scan(s0, stream, k).rest| > limit;
      OverStays(s0, stream, k, |stream|, limit);
    }
    if LineOver(whole, limit) {
      OverBefore(s0, stream, |stream|, limit);
    }
  }

  /** A connection's use of the reader: chunk after chunk until a line is too long. */
  method ReadStream(chunks: seq<seq<Byte>>, limit: nat) returns (o: Outcome)
    ensures o == PushAll([], chunks, |chunks|, limit)
  {
    var reader := new LineReader(limit);
    var lines := [];
    for n := 0 to |chunks|
      invariant reader.Valid() && reader.limit == limit
      invariant fresh(reader)
      invariant PushAll([], chunks, n, limit) == Read(lines, reader.Pending())
    {
      var pushed := reader.Push(chunks[n]);
      if pushed.LineTooLong? {
        TooLongStays([], chunks, n + 1, |chunks|, limit);
        return TooLong;
      }
      lines := lines + pushed.lines;
    }
    o := Read(lines, reader.Pending());
  }

  lemma {:induction false} TooLongStays(pending: seq<Byte>, chunks: seq<seq<Byte>>, k: nat, n: nat, limit: nat)
    requires k <= n <= |chunks| && PushAll(pending, chunks, k, limit) == TooLong
    ensures PushAll(pending, chunks, n, limit) == TooLong
    decreases n
  {
    if k < n {
      TooLongStays(pending, chunks, k, n - 1, limit);
    }
  }
}
