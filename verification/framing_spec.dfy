/** Splitting a byte stream into CRLF-terminated lines, independently of how the stream arrived. */
module FramingSpec {
  import opened Bytes

  ghost predicate CrlfAt(s: seq<byte>, i: int) {
    0 <= i && i + 1 < |s| && s[i] == CR && s[i + 1] == LF
  }

  ghost function Scan(s: seq<byte>, from: nat): (i: nat)
    requires from <= |s|
    ensures i == |s| || i + 2 <= |s|
    decreases |s| - from
  {
    if |s| < from + 2 then |s|
    else if CrlfAt(s, from) then from
    else Scan(s, from + 1)
  }

  /** The position of the leftmost CRLF, or |s| when there is none. */
  ghost function FirstCrlf(s: seq<byte>): (i: nat)
    ensures i == |s| || i + 2 <= |s|
  {
    Scan(s, 0)
  }

  lemma {:induction false} ScanIsLeftmost(s: seq<byte>, from: nat)
    requires from <= |s|
    ensures Scan(s, from) == |s| || CrlfAt(s, Scan(s, from))
    ensures forall j :: from <= j < Scan(s, from) ==> !CrlfAt(s, j)
    decreases |s| - from
  {
    if from + 2 <= |s| && !CrlfAt(s, from) {
      ScanIsLeftmost(s, from + 1);
    }
  }

  lemma FirstCrlfIsLeftmost(s: seq<byte>)
    ensures FirstCrlf(s) == |s| || CrlfAt(s, FirstCrlf(s))
    ensures forall j :: 0 <= j < FirstCrlf(s) ==> !CrlfAt(s, j)
  {
    ScanIsLeftmost(s, 0);
  }

  datatype Framed = Framed(lines: seq<seq<byte>>, rest: seq<byte>)

  ghost function Split(s: seq<byte>): Framed
    decreases |s|
  {
    var i := FirstCrlf(s);
    if i == |s| then Framed([], s)
    else
      var tail := Split(s[i + 2..]);
      Framed([s[..i]] + tail.lines, tail.rest)
  }

  function Join(lines: seq<seq<byte>>): seq<byte> {
    if lines == [] then [] else lines[0] + [CR, LF] + Join(lines[1..])
  }

  /** The line's own terminator is the first CRLF in it. */
  ghost predicate Clean(line: seq<byte>) {
    forall j :: 0 <= j < |line| ==> !CrlfAt(line + [CR, LF], j)
  }

  ghost predicate IsFraming(f: Framed, s: seq<byte>) {
    && Join(f.lines) + f.rest == s
    && (forall i :: 0 <= i < |f.lines| ==> Clean(f.lines[i]))
    && (forall j :: 0 <= j < |f.rest| ==> !CrlfAt(f.rest, j))
  }

  lemma FirstCrlfUnique(s: seq<byte>, i: nat)
    requires CrlfAt(s, i) && forall j :: 0 <= j < i ==> !CrlfAt(s, j)
    ensures FirstCrlf(s) == i
  {
    FirstCrlfIsLeftmost(s);
    var k := FirstCrlf(s);
    assert k == |s| ==> !CrlfAt(s, i);
  }

  /** Peeling the first line off a framing leaves a framing of what follows its terminator. */
  lemma FramingHead(f: Framed, s: seq<byte>) returns (after: seq<byte>)
    requires IsFraming(f, s) && f.lines != []
    ensures FirstCrlf(s) == |f.lines[0]| && |f.lines[0]| + 2 <= |s|
    ensures s[..|f.lines[0]|] == f.lines[0] && s[|f.lines[0]| + 2..] == after
    ensures IsFraming(Framed(f.lines[1..], f.rest), after)
  {
    var line, tail := f.lines[0], Framed(f.lines[1..], f.rest);
    after := Join(tail.lines) + tail.rest;
    assert s == line + [CR, LF] + after;
    assert CrlfAt(s, |line|);
    forall j | 0 <= j < |line| ensures !CrlfAt(s, j) {
      assert !CrlfAt(line + [CR, LF], j);
    }
    FirstCrlfUnique(s, |line|);
  }

  lemma {:induction false} FramingIsSplit(s: seq<byte>, f: Framed)
    requires IsFraming(f, s)
    ensures f == Split(s)
    decreases |s|
  {
    if f.lines == [] {
      assert f.rest == s;
      FirstCrlfIsLeftmost(s);
    } else {
      var after := FramingHead(f, s);
      FramingIsSplit(after, Framed(f.lines[1..], f.rest));
      assert f.lines == [f.lines[0]] + f.lines[1..];
    }
  }

  /** Split is the one and only way to cut the stream at its line terminators. */
  lemma SplitIsTheFraming(s: seq<byte>, f: Framed)
    ensures IsFraming(f, s) <==> f == Split(s)
  {
    SplitFrames(s);
    if IsFraming(f, s) {
      FramingIsSplit(s, f);
    }
  }

  lemma {:induction false} SplitFrames(s: seq<byte>)
    ensures IsFraming(Split(s), s)
    decreases |s|
  {
    var i := FirstCrlf(s);
    FirstCrlfIsLeftmost(s);
    if i != |s| {
      SplitFrames(s[i + 2..]);
      var line := s[..i];
      assert line + [CR, LF] == s[..i + 2];
      forall j | 0 <= j < |line| ensures !CrlfAt(line + [CR, LF], j) {
        assert !CrlfAt(s, j);
      }
      var f, tail := Split(s), Split(s[i + 2..]);
      assert f.lines[1..] == tail.lines;
      assert Join(f.lines) + f.rest == line + [CR, LF] + (Join(tail.lines) + tail.rest);
    } else {
      assert Join([]) + s == s;
    }
  }

  lemma SplitStep(s: seq<byte>)
    requires FirstCrlf(s) < |s|
    ensures var i := FirstCrlf(s);
            Split(s) == Framed([s[..i]] + Split(s[i + 2..]).lines, Split(s[i + 2..]).rest)
  {
  }

  lemma FirstCrlfAppend(s: seq<byte>, t: seq<byte>)
    requires FirstCrlf(s) < |s|
    ensures FirstCrlf(s + t) == FirstCrlf(s)
  {
    var i := FirstCrlf(s);
    FirstCrlfIsLeftmost(s);
    assert CrlfAt(s + t, i);
    forall j | 0 <= j < i ensures !CrlfAt(s + t, j) {
      assert !CrlfAt(s, j);
    }
    FirstCrlfUnique(s + t, i);
  }

  /** More bytes never change a line already found: what is left over is completed by what comes next. */
  lemma {:induction false} SplitAppend(s: seq<byte>, t: seq<byte>)
    ensures Split(s + t).lines == Split(s).lines + Split(Split(s).rest + t).lines
    ensures Split(s + t).rest == Split(Split(s).rest + t).rest
    decreases |s|
  {
    var i := FirstCrlf(s);
    if i < |s| {
      var tail := s[i + 2..];
      SplitAppend(tail, t);
      assert Split(s + t) == Framed([s[..i]] + Split(tail + t).lines, Split(tail + t).rest) by {
        FirstCrlfAppend(s, t);
        SplitStep(s + t);
        assert (s + t)[..i] == s[..i] && (s + t)[i + 2..] == tail + t;
      }
      SplitStep(s);
      Associative([s[..i]], Split(tail).lines, Split(Split(tail).rest + t).lines);
    } else {
      assert Split(s) == Framed([], s);
    }
  }

  /** A client that frames after every chunk, keeping the remainder in between. */
  ghost function Feed(chunks: seq<seq<byte>>): Framed {
    if chunks == [] then Framed([], [])
    else
      var before := Feed(chunks[..|chunks| - 1]);
      var now := Split(before.rest + chunks[|chunks| - 1]);
      Framed(before.lines + now.lines, now.rest)
  }

  /** The framed lines and the remainder depend on the bytes alone, not on the chunks they came in. */
  lemma {:induction false} ChunkingIndependent(chunks: seq<seq<byte>>)
    ensures Feed(chunks) == Split(Flatten(chunks))
  {
    if chunks != [] {
      ChunkingIndependent(chunks[..|chunks| - 1]);
      SplitAppend(Flatten(chunks[..|chunks| - 1]), chunks[|chunks| - 1]);
    }
  }
}
