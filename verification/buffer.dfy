/** The growable, compacting buffer of one connection direction, as an object over a byte array. */
module Buffer {
  import opened Bytes
  import S = BuffSpec
  import F = FramingSpec

  /** The result of a pointer-returning search: nullptr, or an index into the storage. */
  datatype Position = Null | At(index: nat)

  /** What readv did: it failed, or it delivered these bytes. */
  datatype ReadOutcome = ReadFailed | ReadBytes(data: seq<byte>)

  class Buff {
    var buf: array<byte>
    var readerIndex: nat
    var writerIndex: nat

    ghost function View(): S.Store
      reads this, buf
    {
      S.Store(buf[..], readerIndex, writerIndex)
    }

    ghost predicate Valid()
      reads this, buf
    {
      S.Valid(View())
    }

    ghost function Contents(): seq<byte>
      requires Valid()
      reads this, buf
    {
      S.Contents(View())
    }

    constructor (initialSize: nat)
      ensures Valid() && fresh(buf) && View() == S.Fresh(initialSize)
    {
      buf := new byte[S.CHEAP_PREPEND + initialSize](_ => 0);
      readerIndex, writerIndex := S.CHEAP_PREPEND, S.CHEAP_PREPEND;
      new;
      assert buf[..] == S.Zeros(S.CHEAP_PREPEND + initialSize);
    }

    method Swap(rhs: Buff)
      requires Valid() && rhs.Valid()
      modifies this, rhs
      ensures buf == old(rhs.buf) && rhs.buf == old(buf)
      ensures View() == old(rhs.View()) && rhs.View() == old(View())
    {
      buf, rhs.buf := rhs.buf, buf;
      readerIndex, rhs.readerIndex := rhs.readerIndex, readerIndex;
      writerIndex, rhs.writerIndex := rhs.writerIndex, writerIndex;
    }

    method ReadableBytes() returns (n: nat)
      requires Valid()
      ensures n == |Contents()|
    {
      n := writerIndex - readerIndex;
    }

    /** A forward byte-by-byte copy into the storage. */
    method CopyTo(at: nat, data: seq<byte>)
      requires at + |data| <= buf.Length
      modifies buf
      ensures buf[..] == S.Poke(old(buf[..]), at, data)
    {
      var i := 0;
      while i < |data|
        invariant i <= |data|
        invariant forall k :: at <= k < at + i ==> buf[k] == data[k - at]
        invariant forall k :: 0 <= k < at || at + i <= k < buf.Length ==> buf[k] == old(buf[k])
      {
        buf[at + i] := data[i];
        i := i + 1;
      }
      S.PokeUnique(old(buf[..]), at, data, buf[..]);
    }

    method HasWritten(len: nat)
      requires Valid() && len <= buf.Length - writerIndex
      modifies this`writerIndex
      ensures View() == old(View()).(writer := old(writerIndex) + len)
    {
      writerIndex := writerIndex + len;
    }

    method Unwrite(len: nat)
      requires Valid() && len <= writerIndex - readerIndex
      modifies this`writerIndex
      ensures View() == S.Unwrite(old(View()), len)
    {
      writerIndex := writerIndex - len;
    }

    method MakeSpace(len: nat)
      requires Valid() && buf.Length - writerIndex < len
      modifies this, buf
      ensures View() == S.MakeSpace(old(View()), len)
      ensures buf == old(buf) || fresh(buf)
    {
      if buf.Length - writerIndex + readerIndex < len + S.CHEAP_PREPEND {
        Resize(len + writerIndex);
      } else {
        Compact();
      }
    }

    /** vector::resize to a larger size: the old bytes, then zeros. */
    method Resize(size: nat)
      requires buf.Length <= size
      modifies this`buf
      ensures fresh(buf) && buf[..] == old(buf[..]) + S.Zeros(size - old(buf.Length))
    {
      var bigger := new byte[size](_ => 0);
      var i := 0;
      while i < buf.Length
        invariant i <= buf.Length && buf == old(buf)
        invariant forall k :: 0 <= k < i ==> bigger[k] == buf[k]
        invariant forall k :: i <= k < size ==> bigger[k] == 0
      {
        bigger[i] := buf[i];
        i := i + 1;
      }
      assert bigger[..] == buf[..] + S.Zeros(size - buf.Length);
      buf := bigger;
    }

    /**
     The readable bytes move to the front within the same array. Source and destination may
     overlap; the copy is safe because it runs forwards and moves strictly to the left.
     */
    method Compact()
      requires Valid() && S.CHEAP_PREPEND < readerIndex
      modifies this`readerIndex, this`writerIndex, buf
      ensures View() == S.Store(S.Poke(old(buf[..]), S.CHEAP_PREPEND, old(Contents())),
                                S.CHEAP_PREPEND, S.CHEAP_PREPEND + old(writerIndex - readerIndex))
    {
      var readable := writerIndex - readerIndex;
      var i := 0;
      while i < readable
        invariant i <= readable && readerIndex == old(readerIndex) && writerIndex == old(writerIndex)
        invariant forall k :: S.CHEAP_PREPEND <= k < S.CHEAP_PREPEND + i ==>
                    buf[k] == old(buf[k - S.CHEAP_PREPEND + readerIndex])
        invariant forall k :: 0 <= k < S.CHEAP_PREPEND || S.CHEAP_PREPEND + i <= k < buf.Length ==> buf[k] == old(buf[k])
      {
        buf[S.CHEAP_PREPEND + i] := buf[readerIndex + i];
        i := i + 1;
      }
      S.PokeUnique(old(buf[..]), S.CHEAP_PREPEND, old(Contents()), buf[..]);
      readerIndex := S.CHEAP_PREPEND;
      writerIndex := S.CHEAP_PREPEND + readable;
    }

    method EnsureWritableBytes(len: nat)
      requires Valid()
      modifies this, buf
      ensures Valid() && View() == S.EnsureWritable(old(View()), len)
      ensures len <= buf.Length - writerIndex && Contents() == old(Contents())
      ensures buf == old(buf) || fresh(buf)
    {
      S.EnsureWritableMakesRoom(View(), len);
      if buf.Length - writerIndex < len {
        MakeSpace(len);
      }
    }

    method Append(data: seq<byte>)
      requires Valid()
      modifies this, buf
      ensures Valid() && View() == S.Append(old(View()), data)
      ensures Contents() == old(Contents()) + data
      ensures buf == old(buf) || fresh(buf)
    {
      S.AppendContents(View(), data);
      EnsureWritableBytes(|data|);
      CopyTo(writerIndex, data);
      HasWritten(|data|);
    }

    method Prepend(data: seq<byte>)
      requires Valid() && |data| <= readerIndex
      modifies this`readerIndex, buf
      ensures Valid() && View() == S.Prepend(old(View()), data)
      ensures Contents() == data + old(Contents())
    {
      readerIndex := readerIndex - |data|;
      CopyTo(readerIndex, data);
      S.PrependContents(old(View()), data);
    }

    method RetrieveAll()
      requires Valid()
      modifies this`readerIndex, this`writerIndex
      ensures Valid() && View() == S.RetrieveAll(old(View())) && Contents() == []
    {
      readerIndex := S.CHEAP_PREPEND;
      writerIndex := S.CHEAP_PREPEND;
    }

    method Retrieve(len: nat)
      requires Valid()
      modifies this`readerIndex, this`writerIndex
      ensures Valid() && View() == S.Retrieve(old(View()), len)
      ensures Contents() == if len < |old(Contents())| then old(Contents())[len..] else []
    {
      if len < writerIndex - readerIndex {
        readerIndex := readerIndex + len;
      } else {
        RetrieveAll();
      }
    }

    method RetrieveUntil(end: nat)
      requires Valid() && readerIndex <= end <= writerIndex
      modifies this`readerIndex, this`writerIndex
      ensures Valid() && View() == S.Retrieve(old(View()), end - old(readerIndex))
      ensures Contents() == old(buf[end..writerIndex])
    {
      Retrieve(end - readerIndex);
    }

    method RetrieveAsString(len: nat) returns (result: seq<byte>)
      requires Valid() && len <= writerIndex - readerIndex
      modifies this`readerIndex, this`writerIndex
      ensures Valid() && View() == S.Retrieve(old(View()), len)
      ensures result + Contents() == old(Contents()) && |result| == len
    {
      result := buf[readerIndex..readerIndex + len];
      Retrieve(len);
    }

    method RetrieveAllAsString() returns (result: seq<byte>)
      requires Valid()
      modifies this`readerIndex, this`writerIndex
      ensures Valid() && Contents() == [] && result == old(Contents())
    {
      result := RetrieveAsString(writerIndex - readerIndex);
    }

    /** One readv into the free tail and, when that is short, the 64 KiB spill area. */
    method ReadFd(outcome: ReadOutcome) returns (n: int)
      requires Valid()
      requires outcome.ReadBytes? ==> |outcome.data| <= S.ReadvRoom(View())
      modifies this, buf
      ensures Valid() && (buf == old(buf) || fresh(buf))
      ensures outcome.ReadFailed? ==> n == -1 && View() == old(View())
      ensures outcome.ReadBytes? ==> n == |outcome.data| && View() == S.ReadFd(old(View()), outcome.data)
      ensures outcome.ReadBytes? ==> Contents() == old(Contents()) + outcome.data
    {
      match outcome {
        case ReadFailed => n := -1;
        case ReadBytes(data) =>
          S.ReadFdContents(View(), data);
          n := |data|;
          var writable := buf.Length - writerIndex;
          if n <= writable {
            CopyTo(writerIndex, data);
            writerIndex := writerIndex + n;
          } else {
            CopyTo(writerIndex, data[..writable]);
            writerIndex := buf.Length;
            S.FillContents(old(View()), data[..writable]);
            Append(data[writable..]);
          }
      }
    }

    /** The leftmost CRLF at or after `start` among the readable bytes. */
    method FindCrlfFrom(start: nat) returns (r: Position)
      requires Valid() && readerIndex <= start <= writerIndex
      ensures r.At? ==> start <= r.index && F.CrlfAt(buf[..writerIndex], r.index)
      ensures r.At? ==> forall j :: start <= j < r.index ==> !F.CrlfAt(buf[..writerIndex], j)
      ensures r.Null? ==> forall j :: start <= j < writerIndex ==> !F.CrlfAt(buf[..writerIndex], j)
    {
      var i := start;
      while i + 1 < writerIndex
        invariant start <= i <= writerIndex
        invariant forall j :: start <= j < i ==> !F.CrlfAt(buf[..writerIndex], j)
      {
        if buf[i] == CR && buf[i + 1] == LF {
          return At(i);
        }
        i := i + 1;
      }
      r := Null;
    }

    method FindCrlf() returns (r: Position)
      requires Valid()
      ensures r.At? ==> readerIndex <= r.index < writerIndex && r.index - readerIndex == F.FirstCrlf(Contents())
      ensures r.Null? <==> F.FirstCrlf(Contents()) == |Contents()|
    {
      r := FindCrlfFrom(readerIndex);
      ghost var c, all := Contents(), buf[..writerIndex];
      F.FirstCrlfIsLeftmost(c);
      assert forall j :: 0 <= j ==> (F.CrlfAt(c, j) <==> F.CrlfAt(all, j + readerIndex));
      if r.At? {
        forall j | 0 <= j < r.index - readerIndex ensures !F.CrlfAt(c, j) {
          assert !F.CrlfAt(all, j + readerIndex);
        }
        F.FirstCrlfUnique(c, r.index - readerIndex);
      } else {
        forall j | 0 <= j < |c| ensures !F.CrlfAt(c, j) {
          assert !F.CrlfAt(all, j + readerIndex);
        }
      }
    }

    method FindEolFrom(start: nat) returns (r: Position)
      requires Valid() && readerIndex <= start <= writerIndex
      ensures r.At? ==> start <= r.index < writerIndex && buf[r.index] == LF && LF !in buf[start..r.index]
      ensures r.Null? ==> LF !in buf[start..writerIndex]
    {
      var i := start;
      while i < writerIndex
        invariant start <= i <= writerIndex
        invariant LF !in buf[start..i]
      {
        if buf[i] == LF {
          return At(i);
        }
        i := i + 1;
      }
      r := Null;
    }
  }

  /** Take one complete line, its terminator included, out of the buffer if there is one. */
  method TakeLine(b: Buff) returns (found: bool, line: seq<byte>)
    requires b.Valid()
    modifies b`readerIndex, b`writerIndex
    ensures b.Valid()
    ensures found ==> |b.Contents()| < |old(b.Contents())|
    ensures F.Split(old(b.Contents())) ==
            if found then F.Framed([line] + F.Split(b.Contents()).lines, F.Split(b.Contents()).rest)
            else F.Framed([], b.Contents())
  {
    F.FirstCrlfIsLeftmost(b.Contents());
    var crlf := b.FindCrlf();
    match crlf {
      case Null => found, line := false, [];
      case At(index) =>
        found, line := true, b.buf[b.readerIndex..index];
        ghost var c := b.Contents();
        SubSlice(b.buf[..], b.readerIndex, index, b.writerIndex);
        F.SplitStep(c);
        b.RetrieveUntil(index + 2);
        assert b.Contents() == c[|line| + 2..];
    }
  }

  /** A client's framing loop: take every complete line out of the buffer. */
  method DrainLines(b: Buff) returns (lines: seq<seq<byte>>)
    requires b.Valid()
    modifies b`readerIndex, b`writerIndex
    ensures b.Valid() && F.Framed(lines, b.Contents()) == F.Split(old(b.Contents()))
  {
    ghost var all := F.Split(b.Contents());
    lines := [];
    var found, line := TakeLine(b);
    ghost var left := F.Split(b.Contents());
    while found
      invariant b.Valid() && b.buf == old(b.buf)
      invariant found ==> left == F.Split(b.Contents())
      invariant all == if found then F.Framed(lines + ([line] + left.lines), left.rest)
                       else F.Framed(lines, b.Contents())
      decreases found, |b.Contents()|
    {
      Associative(lines, [line], left.lines);
      lines := lines + [line];
      found, line := TakeLine(b);
      left := F.Split(b.Contents());
    }
  }

  /** Appending a stream chunk by chunk and framing after each chunk yields the lines of the whole stream. */
  method FeedAndDrain(b: Buff, chunks: seq<seq<byte>>) returns (lines: seq<seq<byte>>)
    requires b.Valid() && b.Contents() == []
    modifies b, b.buf
    ensures b.Valid() && F.Framed(lines, b.Contents()) == F.Split(Flatten(chunks))
  {
    lines := [];
    var i := 0;
    while i < |chunks|
      invariant i <= |chunks| && b.Valid() && (b.buf == old(b.buf) || fresh(b.buf))
      invariant F.Framed(lines, b.Contents()) == F.Feed(chunks[..i])
    {
      b.Append(chunks[i]);
      var more := DrainLines(b);
      lines := lines + more;
      assert chunks[..i + 1][..i] == chunks[..i];
      i := i + 1;
    }
    assert chunks[..i] == chunks;
    F.ChunkingIndependent(chunks);
  }
}
