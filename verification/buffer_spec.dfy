/**
 The buffer as a value: a store of bytes with a reader and a writer index. One function per
 operation says where every byte and both indices end up; the lemmas say what a run of operations
 means for a user who only thinks of the readable bytes as a byte sequence.
 */
module BuffSpec {
  import opened Bytes

  const CHEAP_PREPEND: nat := 8
  const INITIAL_SIZE: nat := 1024
  const SPILL_SIZE: nat := 65536

  datatype Store = Store(buf: seq<byte>, reader: nat, writer: nat)

  ghost predicate Valid(s: Store) {
    s.reader <= s.writer <= |s.buf| && CHEAP_PREPEND <= |s.buf|
  }

  function Readable(s: Store): int { s.writer - s.reader }

  function Writable(s: Store): int { |s.buf| - s.writer }

  /** The byte sequence a user of the buffer sees. */
  function Contents(s: Store): seq<byte>
    requires s.reader <= s.writer <= |s.buf|
  {
    s.buf[s.reader..s.writer]
  }

  function Zeros(n: nat): seq<byte> { seq(n, _ => 0) }

  function Fresh(initialSize: nat): Store {
    Store(Zeros(CHEAP_PREPEND + initialSize), CHEAP_PREPEND, CHEAP_PREPEND)
  }

  /** A new buffer is empty and takes initialSize bytes before it grows. */
  lemma FreshHolds(initialSize: nat, data: seq<byte>)
    ensures Valid(Fresh(initialSize)) && Contents(Fresh(initialSize)) == []
    ensures |Append(Fresh(initialSize), data).buf| == |Fresh(initialSize).buf| <==> |data| <= initialSize
  {
  }

  /** By default that is a kilobyte. */
  lemma DefaultHolds(data: seq<byte>)
    ensures |Append(Fresh(INITIAL_SIZE), data).buf| == |Fresh(INITIAL_SIZE).buf| <==> |data| <= 1024
  {
    FreshHolds(INITIAL_SIZE, data);
  }

  function RetrieveAll(s: Store): Store {
    s.(reader := CHEAP_PREPEND, writer := CHEAP_PREPEND)
  }

  function Retrieve(s: Store, len: nat): Store {
    if len < Readable(s) then s.(reader := s.reader + len) else RetrieveAll(s)
  }

  /** Overwrite `|data|` bytes of the store from position `at`. */
  function Poke(buf: seq<byte>, at: nat, data: seq<byte>): (r: seq<byte>)
    requires at + |data| <= |buf|
    ensures |r| == |buf|
  {
    buf[..at] + data + buf[at + |data|..]
  }

  lemma PokeParts(buf: seq<byte>, at: nat, data: seq<byte>)
    requires at + |data| <= |buf|
    ensures var r := Poke(buf, at, data);
            r[..at] == buf[..at] && r[at..at + |data|] == data && r[at + |data|..] == buf[at + |data|..]
  {
  }

  lemma PokeUnique(buf: seq<byte>, at: nat, data: seq<byte>, r: seq<byte>)
    requires at + |data| <= |buf| == |r|
    requires forall k :: at <= k < at + |data| ==> r[k] == data[k - at]
    requires forall k :: 0 <= k < at || at + |data| <= k < |buf| ==> r[k] == buf[k]
    ensures r == Poke(buf, at, data)
  {
  }

  lemma PokeSame(buf: seq<byte>, at: nat, end: nat)
    requires at <= end <= |buf|
    ensures Poke(buf, at, buf[at..end]) == buf
  {
    PokeUnique(buf, at, buf[at..end], buf);
  }

  function MakeSpace(s: Store, len: nat): Store
    requires Valid(s) && Writable(s) < len
  {
    if Writable(s) + s.reader < len + CHEAP_PREPEND then
      s.(buf := s.buf + Zeros(len + s.writer - |s.buf|))
    else
      Store(Poke(s.buf, CHEAP_PREPEND, Contents(s)), CHEAP_PREPEND, CHEAP_PREPEND + Readable(s))
  }

  function EnsureWritable(s: Store, len: nat): Store
    requires Valid(s)
  {
    if Writable(s) < len then MakeSpace(s, len) else s
  }

  /** Bytes stored at the writer index by the caller, followed by hasWritten. */
  function Fill(s: Store, data: seq<byte>): Store
    requires Valid(s) && |data| <= Writable(s)
  {
    s.(buf := Poke(s.buf, s.writer, data), writer := s.writer + |data|)
  }

  lemma EnsureWritableMakesRoom(s: Store, len: nat)
    requires Valid(s)
    ensures var r := EnsureWritable(s, len);
            Valid(r) && len <= Writable(r) && Contents(r) == Contents(s)
  {
    var r := EnsureWritable(s, len);
    assert Contents(r) == Contents(s);
  }

  function Append(s: Store, data: seq<byte>): Store
    requires Valid(s)
  {
    EnsureWritableMakesRoom(s, |data|);
    Fill(EnsureWritable(s, |data|), data)
  }

  function Prepend(s: Store, data: seq<byte>): Store
    requires Valid(s) && |data| <= s.reader
  {
    s.(reader := s.reader - |data|, buf := Poke(s.buf, s.reader - |data|, data))
  }

  function Unwrite(s: Store, len: nat): Store
    requires len <= s.writer
  {
    s.(writer := s.writer - len)
  }

  /** What one readv call may deliver: the free tail, and the 64 KiB spill area when the tail is shorter. */
  function ReadvRoom(s: Store): int {
    Writable(s) + if Writable(s) < SPILL_SIZE then SPILL_SIZE else 0
  }

  /** One readv can always take all that is free, and 64 KiB at least. */
  lemma RoomForRead(s: Store)
    requires Valid(s)
    ensures ReadvRoom(s) >= Writable(s) && ReadvRoom(s) >= 65536
    ensures ReadvRoom(s) > Writable(s) <==> Writable(s) < 65536
  {
  }

  /** The kernel has scattered `data` over the free tail and the spill area. */
  function ReadFd(s: Store, data: seq<byte>): Store
    requires Valid(s) && |data| <= ReadvRoom(s)
  {
    if |data| <= Writable(s) then Fill(s, data)
    else
      var filled := Fill(s, data[..Writable(s)]);
      Append(filled, data[Writable(s)..])
  }

  datatype Op =
    | OpAppend(data: seq<byte>)
    | OpFill(data: seq<byte>)
    | OpReadFd(data: seq<byte>)
    | OpRetrieve(len: nat)
    | OpRetrieveAll
    | OpPrepend(data: seq<byte>)
    | OpUnwrite(len: nat)
    | OpReserve(len: nat)

  /** The preconditions the code leaves to its callers. */
  ghost predicate Enabled(s: Store, op: Op) {
    match op
    case OpFill(data) => |data| <= Writable(s)
    case OpReadFd(data) => |data| <= ReadvRoom(s)
    case OpPrepend(data) => |data| <= s.reader
    case OpUnwrite(len) => len <= Readable(s)
    case _ => true
  }

  function Apply(s: Store, op: Op): Store
    requires Valid(s) && Enabled(s, op)
  {
    match op
    case OpAppend(data) => Append(s, data)
    case OpFill(data) => Fill(s, data)
    case OpReadFd(data) => ReadFd(s, data)
    case OpRetrieve(len) => Retrieve(s, len)
    case OpRetrieveAll => RetrieveAll(s)
    case OpPrepend(data) => Prepend(s, data)
    case OpUnwrite(len) => Unwrite(s, len)
    case OpReserve(len) => EnsureWritable(s, len)
  }

  /** The same operations on a plain byte sequence. */
  function Abstract(c: seq<byte>, op: Op): seq<byte> {
    match op
    case OpAppend(data) => c + data
    case OpFill(data) => c + data
    case OpReadFd(data) => c + data
    case OpRetrieve(len) => if len < |c| then c[len..] else []
    case OpRetrieveAll => []
    case OpPrepend(data) => data + c
    case OpUnwrite(len) => if len <= |c| then c[..|c| - len] else c
    case OpReserve(len) => c
  }

  lemma FillContents(s: Store, data: seq<byte>)
    requires Valid(s) && |data| <= Writable(s)
    ensures Valid(Fill(s, data)) && Contents(Fill(s, data)) == Contents(s) + data
  {
    var r := Fill(s, data);
    PokeParts(s.buf, s.writer, data);
    assert Contents(r) == r.buf[..s.writer][s.reader..] + r.buf[s.writer..r.writer];
  }

  lemma AppendContents(s: Store, data: seq<byte>)
    requires Valid(s)
    ensures Valid(Append(s, data)) && Contents(Append(s, data)) == Contents(s) + data
  {
    EnsureWritableMakesRoom(s, |data|);
    FillContents(EnsureWritable(s, |data|), data);
  }

  lemma ReadFdContents(s: Store, data: seq<byte>)
    requires Valid(s) && |data| <= ReadvRoom(s)
    ensures Valid(ReadFd(s, data)) && Contents(ReadFd(s, data)) == Contents(s) + data
  {
    if |data| <= Writable(s) {
      FillContents(s, data);
    } else {
      var head, spill := data[..Writable(s)], data[Writable(s)..];
      FillContents(s, head);
      AppendContents(Fill(s, head), spill);
      assert Contents(s) + head + spill == Contents(s) + data by { assert head + spill == data; }
    }
  }

  lemma PrependContents(s: Store, data: seq<byte>)
    requires Valid(s) && |data| <= s.reader
    ensures Valid(Prepend(s, data)) && Contents(Prepend(s, data)) == data + Contents(s)
  {
    var r := Prepend(s, data);
    PokeParts(s.buf, r.reader, data);
    assert Contents(r) == r.buf[r.reader..s.reader] + r.buf[s.reader..s.writer];
    assert r.buf[s.reader..s.writer] == r.buf[s.reader..][..Readable(s)];
  }

  lemma ContentsLength(s: Store)
    requires Valid(s)
    ensures |Contents(s)| == Readable(s)
  {
  }

  lemma RetrieveContents(s: Store, len: nat)
    requires Valid(s)
    ensures Valid(Retrieve(s, len))
    ensures Contents(Retrieve(s, len)) == if len < |Contents(s)| then Contents(s)[len..] else []
  {
    if len < Readable(s) { SubSlice(s.buf, s.reader, s.reader + len, s.writer); }
  }

  lemma UnwriteContents(s: Store, len: nat)
    requires Valid(s) && len <= Readable(s)
    ensures Valid(Unwrite(s, len)) && Contents(Unwrite(s, len)) == Contents(s)[..|Contents(s)| - len]
  {
    SubSlice(s.buf, s.reader, s.writer - len, s.writer);
  }

  /** One operation keeps the indices in order and does to the contents what it does to a byte sequence. */
  lemma StepRefines(s: Store, op: Op)
    requires Valid(s) && Enabled(s, op)
    ensures Valid(Apply(s, op)) && Contents(Apply(s, op)) == Abstract(Contents(s), op)
  {
    hide Contents, Append, Fill, ReadFd, EnsureWritable, Prepend, Retrieve, Unwrite;
    ContentsLength(s);
    match op
    case OpAppend(data) => AppendContents(s, data);
    case OpFill(data) => FillContents(s, data);
    case OpReadFd(data) => ReadFdContents(s, data);
    case OpReserve(len) => EnsureWritableMakesRoom(s, len);
    case OpPrepend(data) => PrependContents(s, data);
    case OpRetrieve(len) => RetrieveContents(s, len);
    case OpRetrieveAll => ContentsLength(RetrieveAll(s));
    case OpUnwrite(len) => UnwriteContents(s, len);
  }

  // ---- runs -------------------------------------------------------------------------------

  ghost predicate Legal(s: Store, ops: seq<Op>)
    requires Valid(s)
    decreases |ops|
  {
    ops == [] ||
    (Enabled(s, ops[0]) && (StepRefines(s, ops[0]); Legal(Apply(s, ops[0]), ops[1..])))
  }

  ghost function Exec(s: Store, ops: seq<Op>): Store
    requires Valid(s) && Legal(s, ops)
    decreases |ops|
  {
    if ops == [] then s
    else
      StepRefines(s, ops[0]);
      Exec(Apply(s, ops[0]), ops[1..])
  }

  function AbstractExec(c: seq<byte>, ops: seq<Op>): seq<byte>
    decreases |ops|
  {
    if ops == [] then c else AbstractExec(Abstract(c, ops[0]), ops[1..])
  }

  /** Every run of the indexed store is a run of a plain byte sequence. */
  lemma {:induction false} RunRefinesByteSequence(s: Store, ops: seq<Op>)
    requires Valid(s) && Legal(s, ops)
    ensures Valid(Exec(s, ops)) && Contents(Exec(s, ops)) == AbstractExec(Contents(s), ops)
    decreases |ops|
  {
    if ops != [] {
      StepRefines(s, ops[0]);
      RunRefinesByteSequence(Apply(s, ops[0]), ops[1..]);
    }
  }

  /** The compaction branch runs only when the readable bytes start strictly right of where they are moved to. */
  lemma CompactionMovesLeft(s: Store, len: nat)
    requires Valid(s) && Writable(s) < len
    ensures Writable(s) + s.reader < len + CHEAP_PREPEND <==> |MakeSpace(s, len).buf| != |s.buf|
    ensures |MakeSpace(s, len).buf| == |s.buf| ==> CHEAP_PREPEND < s.reader
  {
  }

  // ---- room in front ----------------------------------------------------------------------

  lemma StepKeepsRoom(s: Store, op: Op)
    requires Valid(s) && Enabled(s, op) && !op.OpPrepend? && CHEAP_PREPEND <= s.reader
    ensures CHEAP_PREPEND <= Apply(s, op).reader
  {
    if op.OpReadFd? && |op.data| > Writable(s) {
      EnsureWritableMakesRoom(Fill(s, op.data[..Writable(s)]), |op.data| - Writable(s));
    }
  }

  /** Until something is prepended, there is room to prepend eight bytes, however the buffer grew, moved or drained. */
  lemma {:induction false} RoomInFront(s: Store, ops: seq<Op>)
    requires Valid(s) && Legal(s, ops) && CHEAP_PREPEND <= s.reader
    requires forall i :: 0 <= i < |ops| ==> !ops[i].OpPrepend?
    ensures Enabled(Exec(s, ops), OpPrepend(Zeros(8)))
    decreases |ops|
  {
    hide Apply;
    if ops != [] {
      StepRefines(s, ops[0]);
      StepKeepsRoom(s, ops[0]);
      RoomInFront(Apply(s, ops[0]), ops[1..]);
    }
  }

  /** And a buffer that has been emptied has exactly that room, and all the rest free. */
  lemma EmptiedIsFresh(s: Store, len: nat)
    requires Valid(s) && len >= Readable(s)
    ensures var t := Retrieve(s, len); t.reader == t.writer == 8 && Writable(t) == |s.buf| - 8
  {
  }

  // ---- how large the store can get ---------------------------------------------------------

  /** Only append and readFd may have grown the store, and an empty buffer never sits at the very end. */
  ghost predicate Compact(s: Store) {
    Valid(s) && (Readable(s) == 0 ==> s.writer < |s.buf| || s.reader == CHEAP_PREPEND)
  }

  /** The largest number of readable bytes seen in a run. */
  ghost function Peak(s: Store, ops: seq<Op>): nat
    requires Valid(s) && Legal(s, ops)
    decreases |ops|
  {
    if ops == [] then Readable(s)
    else
      StepRefines(s, ops[0]);
      Max(Readable(s), Peak(Apply(s, ops[0]), ops[1..]))
  }

  function Bound(peak: nat): nat {
    Max(peak + CHEAP_PREPEND, 2 * peak + 6)
  }

  lemma AppendGrowth(s: Store, data: seq<byte>)
    requires Compact(s)
    ensures Compact(Append(s, data)) && Readable(Append(s, data)) == Readable(s) + |data|
    ensures |Append(s, data).buf| <= Max(|s.buf|, Bound(Readable(s) + |data|))
  {
    AppendContents(s, data);
    EnsureWritableMakesRoom(s, |data|);
  }

  lemma ReadFdGrowth(s: Store, data: seq<byte>)
    requires Compact(s) && |data| <= ReadvRoom(s)
    ensures Compact(ReadFd(s, data)) && Readable(ReadFd(s, data)) == Readable(s) + |data|
    ensures |ReadFd(s, data).buf| <= Max(|s.buf|, Bound(Readable(s) + |data|))
  {
    if |data| <= Writable(s) {
      FillContents(s, data);
    } else {
      var filled := Fill(s, data[..Writable(s)]);
      FillContents(s, data[..Writable(s)]);
      AppendGrowth(filled, data[Writable(s)..]);
    }
  }

  lemma StepGrowth(s: Store, op: Op)
    requires Compact(s) && Enabled(s, op) && !op.OpReserve?
    ensures Compact(Apply(s, op))
    ensures |Apply(s, op).buf| <= Max(|s.buf|, Bound(Readable(Apply(s, op))))
  {
    match op
    case OpAppend(data) => AppendGrowth(s, data);
    case OpReadFd(data) => ReadFdGrowth(s, data);
    case _ => assert |Apply(s, op).buf| == |s.buf|;
  }

  lemma {:induction false} RunGrowth(s: Store, ops: seq<Op>)
    requires Compact(s) && Legal(s, ops)
    requires forall i :: 0 <= i < |ops| ==> !ops[i].OpReserve?
    ensures |Exec(s, ops).buf| <= Max(|s.buf|, Bound(Peak(s, ops)))
    decreases |ops|
  {
    if ops != [] {
      var t := Apply(s, ops[0]);
      StepRefines(s, ops[0]);
      StepGrowth(s, ops[0]);
      RunGrowth(t, ops[1..]);
      assert Readable(t) <= Peak(t, ops[1..]) by {
        if ops[1..] == [] { assert Peak(t, ops[1..]) == Readable(t); }
      }
    }
  }

  /** Over a whole life without explicit reservation the store stays within twice the peak load. */
  lemma StorageBound(initialSize: nat, ops: seq<Op>)
    requires Legal(Fresh(initialSize), ops)
    requires forall i :: 0 <= i < |ops| ==> !ops[i].OpReserve?
    ensures var peak := Peak(Fresh(initialSize), ops);
            |Exec(Fresh(initialSize), ops).buf| <= Max(CHEAP_PREPEND + initialSize, Max(peak + 8, 2 * peak + 6))
  {
    RunGrowth(Fresh(initialSize), ops);
  }

  /** The bound cannot be lowered: for every peak of two bytes or more a run reaches it exactly. */
  lemma StorageBoundIsTight(k: nat) returns (ops: seq<Op>)
    requires 1 <= k
    ensures Legal(Fresh(k), ops) && forall i :: 0 <= i < |ops| ==> !ops[i].OpReserve?
    ensures Peak(Fresh(k), ops) == k + 1
    ensures |Exec(Fresh(k), ops).buf| == 2 * (k + 1) + 6
  {
    var data := Zeros(k);
    var s0 := Fresh(k);
    var s1 := Apply(s0, OpAppend(data));
    AppendContents(s0, data);
    var s2 := Apply(s1, OpRetrieve(k - 1));
    var s3 := Apply(s2, OpAppend(data));
    AppendContents(s2, data);
    assert Readable(s1) == k && Readable(s2) == 1 && Readable(s3) == k + 1 && |s3.buf| == 2 * (k + 1) + 6;
    hide Apply, Enabled;
    var last := [OpAppend(data)] + [];
    RunCons(s2, OpAppend(data), []);
    RunCons(s1, OpRetrieve(k - 1), last);
    ops := [OpAppend(data)] + ([OpRetrieve(k - 1)] + last);
    RunCons(s0, OpAppend(data), [OpRetrieve(k - 1)] + last);
  }

  lemma RunCons(s: Store, op: Op, rest: seq<Op>)
    requires Valid(s) && Enabled(s, op) && Valid(Apply(s, op)) && Legal(Apply(s, op), rest)
    ensures Legal(s, [op] + rest) && Exec(s, [op] + rest) == Exec(Apply(s, op), rest)
    ensures Peak(s, [op] + rest) == Max(Readable(s), Peak(Apply(s, op), rest))
  {
    var ops := [op] + rest;
    assert ops[0] == op && ops[1..] == rest;
  }

  /** Taking bytes back and declaring them written again changes nothing, whatever they were. */
  lemma UnwriteUndone(s: Store, len: nat)
    requires Valid(s) && len <= Readable(s)
    ensures Fill(Unwrite(s, len), s.buf[s.writer - len..s.writer]) == s
  {
    PokeSame(s.buf, s.writer - len, s.writer);
  }
}
