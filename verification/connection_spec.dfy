/**
 One connection's output path and shutdown state machine as a step system over values. The kernel
 is a log of the calls made on the socket, and every write takes its outcome as a parameter.
 */
module ConnSpec {
  import opened Bytes
  import opened PollerSpec
  import opened Threads

  datatype Phase = Disconnected | Connecting | Connected | Disconnecting

  /** A write took n bytes, or failed with EWOULDBLOCK, with EPIPE or ECONNRESET, or otherwise. */
  datatype WriteResult = Wrote(n: nat) | WouldBlock | PeerGone | OtherError

  /** Callbacks handed to queueInloop. */
  datatype Notice = WriteComplete | HighWater(size: nat)

  /** Calls on the socket: a write attempt with the bytes it took, or shutdown of the write side. */
  datatype Call = Write(taken: seq<byte>) | ShutdownWrite

  datatype Message = Message(from: Who, body: seq<byte>)

  datatype Settings = Settings(mark: nat, onWriteComplete: bool, onHighWater: bool)

  datatype Conn = Conn(
    phase: Phase,
    mask: Mask,
    reading: bool,
    out: seq<byte>,
    calls: seq<Call>,
    accepted: seq<Message>,
    notices: seq<Notice>,
    /** connectEstablished has run; the interest set has been cleared by a close. */
    established: bool,
    wiped: bool)

  datatype Step =
    | Establish
    | Send(body: seq<byte>, result: WriteResult)
    | HandleWrite(result: WriteResult)
    | Shutdown
    | CloseMask
      /** connectDestroyed past its look at the state, which another thread may have changed since. */
    | Destroy
    | StartRead
    | StopRead
      // functors queued by other threads, and the store of another thread's shutdown(), however long after its look
    | SendInLoop(message: Message, result: WriteResult)
    | MarkDisconnecting
    | ShutdownInLoop

  /** The steps of a connection that only its own loop's thread touches. */
  predicate OnLoopThread(e: Step) {
    !e.SendInLoop? && !e.MarkDisconnecting? && !e.ShutdownInLoop?
  }

  function Idle(): Conn {
    Conn(Disconnected, NO_EVENT, false, [], [], [], [], false, false)
  }

  predicate Enabled(s: Conn, e: Step) {
    match e
    case Establish => !s.established
    case Destroy => s.established
    case MarkDisconnecting => s.established
    case Send(body, Wrote(n)) => n <= |body|
    case SendInLoop(m, Wrote(n)) => n <= |m.body|
    case HandleWrite(Wrote(n)) => n <= |s.out|
    case _ => true
  }

  predicate WritesDirectly(s: Conn) {
    !s.mask.write && s.out == []
  }

  /** One write call on the socket and the bytes it took. */
  function Attempt(s: Conn, taken: seq<byte>): Conn {
    s.(calls := s.calls + [Write(taken)])
  }

  function Accept(s: Conn, m: Message): Conn {
    s.(accepted := s.accepted + [m])
  }

  function NotifyComplete(s: Conn, cfg: Settings): Conn {
    if cfg.onWriteComplete then s.(notices := s.notices + [WriteComplete]) else s
  }

  function NotifyHigh(s: Conn, cfg: Settings, size: nat): Conn {
    if size >= cfg.mark && |s.out| < cfg.mark && cfg.onHighWater then s.(notices := s.notices + [HighWater(size)]) else s
  }

  /** Keep what could not be written, and ask to be told when the socket is writable. */
  function Buffer(s: Conn, cfg: Settings, rest: seq<byte>): Conn {
    if rest == [] then s
    else
      var s1 := NotifyHigh(s, cfg, |s.out| + |rest|);
      s1.(out := s1.out + rest, mask := s1.mask.(write := true))
  }

  function AcceptMessage(s: Conn, cfg: Settings, m: Message, k: WriteResult): Conn
    requires k.Wrote? ==> k.n <= |m.body|
  {
    if s.phase == Disconnected then s
    else if !WritesDirectly(s) then Buffer(Accept(s, m), cfg, m.body)
    else
      match k
      case Wrote(n) =>
        var s1 := Accept(Attempt(s, m.body[..n]), m);
        if n == |m.body| then NotifyComplete(s1, cfg) else Buffer(s1, cfg, m.body[n..])
      case PeerGone => Attempt(s, [])
      case _ => Buffer(Accept(Attempt(s, []), m), cfg, m.body)
  }

  function CloseWriteSide(s: Conn): Conn {
    if s.mask.write then s else s.(calls := s.calls + [ShutdownWrite])
  }

  function Drained(s: Conn, cfg: Settings): Conn {
    var s1 := NotifyComplete(s.(mask := s.mask.(write := false)), cfg);
    if s1.phase == Disconnecting then CloseWriteSide(s1) else s1
  }

  function Drain(s: Conn, cfg: Settings, k: WriteResult): Conn
    requires k.Wrote? ==> k.n <= |s.out|
  {
    if !s.mask.write then s
    else if k.Wrote? && k.n > 0 then
      var s1 := Attempt(s, s.out[..k.n]).(out := s.out[k.n..]);
      if s1.out == [] then Drained(s1, cfg) else s1
    else Attempt(s, [])
  }

  function Apply(s: Conn, cfg: Settings, e: Step): Conn
    requires Enabled(s, e)
  {
    match e
    case Establish => s.(phase := Connected, mask := s.mask.(read := true), established := true)
    case Send(body, k) => if s.phase == Connected then AcceptMessage(s, cfg, Message(Owner, body), k) else s
    case HandleWrite(k) => Drain(s, cfg, k)
    case Shutdown => if s.phase == Connected then CloseWriteSide(s.(phase := Disconnecting)) else s
    case CloseMask => s.(mask := NO_EVENT, wiped := true)
    case Destroy => s.(phase := Disconnected, mask := NO_EVENT, wiped := true)
    case StartRead => if !s.reading || !s.mask.read then s.(mask := s.mask.(read := true), reading := true) else s
    case StopRead => if s.reading || s.mask.read then s.(mask := s.mask.(read := false), reading := false) else s
    case SendInLoop(m, k) => AcceptMessage(s, cfg, m, k)
    case MarkDisconnecting => s.(phase := Disconnecting)
    case ShutdownInLoop => CloseWriteSide(s)
  }

  ghost predicate Legal(s: Conn, cfg: Settings, es: seq<Step>)
    decreases |es|
  {
    es == [] || (Enabled(s, es[0]) && Legal(Apply(s, cfg, es[0]), cfg, es[1..]))
  }

  ghost function Exec(s: Conn, cfg: Settings, es: seq<Step>): Conn
    requires Legal(s, cfg, es)
    decreases |es|
  {
    if es == [] then s else Exec(Apply(s, cfg, es[0]), cfg, es[1..])
  }

  // ---- the output stream ------------------------------------------------------------------

  /** The bytes the kernel has taken, in order. */
  function Wire(calls: seq<Call>): seq<byte> {
    if calls == [] then []
    else
      Wire(calls[..|calls| - 1]) + match calls[|calls| - 1] case Write(taken) => taken case ShutdownWrite => []
  }

  /** The whole output stream: every accepted message, complete and in order of acceptance. */
  function Stream(ms: seq<Message>): seq<byte> {
    if ms == [] then [] else Stream(ms[..|ms| - 1]) + ms[|ms| - 1].body
  }

  lemma WireSnoc(calls: seq<Call>, c: Call)
    ensures Wire(calls + [c]) == Wire(calls) + if c.Write? then c.taken else []
  {
    assert (calls + [c])[..|calls|] == calls;
  }

  lemma StreamSnoc(ms: seq<Message>, m: Message)
    ensures Stream(ms + [m]) == Stream(ms) + m.body
  {
    assert (ms + [m])[..|ms|] == ms;
  }

  /** Taken by the kernel, then buffered: together exactly what was accepted. */
  ghost predicate Intact(s: Conn) {
    Wire(s.calls) + s.out == Stream(s.accepted)
  }

  /** Write interest implies bytes to write; until a close clears the interest set, the converse holds too. */
  ghost predicate MaskTracksBuffer(s: Conn) {
    && (s.mask.write ==> s.out != [])
    && (!s.wiped ==> (s.mask.write <==> s.out != []))
  }

  lemma BufferKeepsIntact(s: Conn, cfg: Settings, rest: seq<byte>)
    requires Wire(s.calls) + s.out + rest == Stream(s.accepted)
    ensures Intact(Buffer(s, cfg, rest))
  {
    assert Wire(s.calls) + s.out + rest == Wire(s.calls) + (s.out + rest);
  }

  lemma AcceptKeepsIntact(s: Conn, cfg: Settings, m: Message, k: WriteResult)
    requires Intact(s) && (k.Wrote? ==> k.n <= |m.body|)
    ensures Intact(AcceptMessage(s, cfg, m, k))
  {
    hide Wire, Stream, Buffer;
    StreamSnoc(s.accepted, m);
    if s.phase != Disconnected {
      if !WritesDirectly(s) {
        BufferKeepsIntact(Accept(s, m), cfg, m.body);
      } else {
        var n := if k.Wrote? then k.n else 0;
        WireSnoc(s.calls, Write(m.body[..n]));
        var s1 := Accept(Attempt(s, m.body[..n]), m);
        assert Wire(s1.calls) + s1.out + m.body[n..] == Stream(s1.accepted) by {
          assert m.body == m.body[..n] + m.body[n..];
          assert Wire(s.calls) == Stream(s.accepted);
        }
        BufferKeepsIntact(s1, cfg, m.body[n..]);
      }
    }
  }

  lemma CloseWriteSideKeepsIntact(s: Conn)
    requires Intact(s)
    ensures Intact(CloseWriteSide(s))
  {
    WireSnoc(s.calls, ShutdownWrite);
  }

  lemma DrainKeepsIntact(s: Conn, cfg: Settings, k: WriteResult)
    requires Intact(s) && (k.Wrote? ==> k.n <= |s.out|)
    ensures Intact(Drain(s, cfg, k))
  {
    hide Wire, Stream, CloseWriteSide;
    WireSnoc(s.calls, Write([]));
    if s.mask.write && k.Wrote? && k.n > 0 {
      var s1 := Attempt(s, s.out[..k.n]).(out := s.out[k.n..]);
      assert Intact(s1) by {
        WireSnoc(s.calls, Write(s.out[..k.n]));
        assert s.out == s.out[..k.n] + s.out[k.n..];
      }
      CloseWriteSideKeepsIntact(NotifyComplete(s1.(mask := s1.mask.(write := false)), cfg));
    }
  }

  lemma AcceptTracksBuffer(s: Conn, cfg: Settings, m: Message, k: WriteResult)
    requires MaskTracksBuffer(s) && (k.Wrote? ==> k.n <= |m.body|)
    ensures MaskTracksBuffer(AcceptMessage(s, cfg, m, k))
  {
  }

  lemma DrainTracksBuffer(s: Conn, cfg: Settings, k: WriteResult)
    requires MaskTracksBuffer(s) && (k.Wrote? ==> k.n <= |s.out|)
    ensures MaskTracksBuffer(Drain(s, cfg, k))
  {
  }

  lemma StepKeepsStream(s: Conn, cfg: Settings, e: Step)
    requires Intact(s) && MaskTracksBuffer(s) && Enabled(s, e)
    ensures Intact(Apply(s, cfg, e)) && MaskTracksBuffer(Apply(s, cfg, e))
  {
    hide AcceptMessage, Drain, Wire, Stream;
    match e
    case Send(body, k) =>
      AcceptKeepsIntact(s, cfg, Message(Owner, body), k);
      AcceptTracksBuffer(s, cfg, Message(Owner, body), k);
    case SendInLoop(m, k) =>
      AcceptKeepsIntact(s, cfg, m, k);
      AcceptTracksBuffer(s, cfg, m, k);
    case HandleWrite(k) =>
      DrainKeepsIntact(s, cfg, k);
      DrainTracksBuffer(s, cfg, k);
    case Shutdown => CloseWriteSideKeepsIntact(s.(phase := Disconnecting));
    case ShutdownInLoop => CloseWriteSideKeepsIntact(s);
    case _ =>
  }

  /**
   Whatever the kernel does to each write, and whoever sends, closes or shuts down in whatever
   order: no accepted byte is lost, repeated or reordered.
   */
  lemma {:induction false} StreamIntegrity(s: Conn, cfg: Settings, es: seq<Step>)
    requires Intact(s) && MaskTracksBuffer(s) && Legal(s, cfg, es)
    ensures Intact(Exec(s, cfg, es)) && MaskTracksBuffer(Exec(s, cfg, es))
    decreases |es|
  {
    if es != [] {
      StepKeepsStream(s, cfg, es[0]);
      StreamIntegrity(Apply(s, cfg, es[0]), cfg, es[1..]);
    }
  }

  /** A message is refused only when the connection is down, or when its own direct write finds the peer gone. */
  lemma AcceptedOrRefused(s: Conn, cfg: Settings, m: Message, k: WriteResult)
    requires k.Wrote? ==> k.n <= |m.body|
    ensures var t := AcceptMessage(s, cfg, m, k);
            && (t.accepted == s.accepted + [m] <==> s.phase != Disconnected && !(WritesDirectly(s) && k.PeerGone?))
            && (t.accepted != s.accepted + [m] ==> t.accepted == s.accepted && t.out == s.out && Wire(t.calls) == Wire(s.calls))
  {
    hide Wire;
    WireSnoc(s.calls, Write([]));
    assert s.accepted + [m] != s.accepted;
  }

  // ---- half-close -------------------------------------------------------------------------

  /** The write side is shut at most once, and nothing is written afterwards. */
  ghost predicate ShutIsLast(calls: seq<Call>) {
    forall i :: 0 <= i < |calls| - 1 ==> calls[i] != ShutdownWrite
  }

  ghost predicate HalfClosed(s: Conn) {
    && ShutIsLast(s.calls)
    && (ShutdownWrite in s.calls ==> s.phase != Connected && s.established && !s.mask.write)
    && (s.phase != Disconnected ==> s.established)
  }

  lemma AcceptHalfClosed(s: Conn, cfg: Settings, m: Message, k: WriteResult)
    requires HalfClosed(s) && s.phase == Connected && (k.Wrote? ==> k.n <= |m.body|)
    ensures HalfClosed(AcceptMessage(s, cfg, m, k))
  {
  }

  lemma DrainHalfClosed(s: Conn, cfg: Settings, k: WriteResult)
    requires HalfClosed(s) && (k.Wrote? ==> k.n <= |s.out|)
    ensures HalfClosed(Drain(s, cfg, k))
  {
  }

  lemma StepHalfClosed(s: Conn, cfg: Settings, e: Step)
    requires HalfClosed(s) && Enabled(s, e) && OnLoopThread(e)
    ensures HalfClosed(Apply(s, cfg, e))
  {
    hide AcceptMessage, Drain;
    match e
    case Send(body, k) =>
      if s.phase == Connected { AcceptHalfClosed(s, cfg, Message(Owner, body), k); }
    case HandleWrite(k) => DrainHalfClosed(s, cfg, k);
    case _ =>
  }

  /** In runs on the loop's own thread a connection is shut at most once and never written to afterwards. */
  lemma {:induction false} ShutdownIsFinal(s: Conn, cfg: Settings, es: seq<Step>)
    requires HalfClosed(s) && Legal(s, cfg, es)
    requires forall e :: e in es ==> OnLoopThread(e)
    ensures HalfClosed(Exec(s, cfg, es))
    decreases |es|
  {
    if es != [] {
      assert es[0] in es;
      StepHalfClosed(s, cfg, es[0]);
      ShutdownIsFinal(Apply(s, cfg, es[0]), cfg, es[1..]);
    }
  }

  function Shuts(calls: seq<Call>): nat {
    if calls == [] then 0
    else Shuts(calls[..|calls| - 1]) + if calls[|calls| - 1] == ShutdownWrite then 1 else 0
  }

  lemma ShutsSnoc(calls: seq<Call>, c: Call)
    ensures Shuts(calls + [c]) == Shuts(calls) + if c == ShutdownWrite then 1 else 0
  {
    assert (calls + [c])[..|calls|] == calls;
  }

  lemma ShutsOfAccept(s: Conn, cfg: Settings, m: Message, k: WriteResult)
    requires k.Wrote? ==> k.n <= |m.body|
    ensures Shuts(AcceptMessage(s, cfg, m, k).calls) == Shuts(s.calls)
  {
    hide Shuts;
    ShutsSnoc(s.calls, Write([]));
    if k.Wrote? {
      ShutsSnoc(s.calls, Write(m.body[..k.n]));
    }
  }

  /** Whether a step is about to shut the write side. */
  predicate WillShut(s: Conn, e: Step) {
    match e
    case Shutdown => s.phase == Connected && !s.mask.write
    case ShutdownInLoop => !s.mask.write
    case HandleWrite(Wrote(n)) => s.mask.write && 0 < n == |s.out| && s.phase == Disconnecting
    case _ => false
  }

  lemma ShutsOfClose(s: Conn)
    ensures Shuts(CloseWriteSide(s).calls) == Shuts(s.calls) + if s.mask.write then 0 else 1
  {
    hide Shuts;
    ShutsSnoc(s.calls, ShutdownWrite);
  }

  lemma ShutsOfDrained(s: Conn, cfg: Settings)
    ensures Shuts(Drained(s, cfg).calls) == Shuts(s.calls) + if s.phase == Disconnecting then 1 else 0
    ensures Drained(s, cfg).out == s.out
  {
    hide Shuts;
    ShutsSnoc(s.calls, ShutdownWrite);
  }

  lemma ShutsOfDrain(s: Conn, cfg: Settings, e: Step)
    requires Enabled(s, e) && e.HandleWrite?
    ensures Shuts(Drain(s, cfg, e.result).calls) == Shuts(s.calls) + if WillShut(s, e) then 1 else 0
    ensures WillShut(s, e) ==> Drain(s, cfg, e.result).out == []
  {
    hide Shuts, Drained;
    ShutsSnoc(s.calls, Write([]));
    if e.result.Wrote? {
      ShutsSnoc(s.calls, Write(s.out[..e.result.n]));
      ShutsOfDrained(Attempt(s, s.out[..e.result.n]).(out := s.out[e.result.n..]), cfg);
    }
  }

  /** A step shuts the write side, once, exactly when it is told so beforehand. */
  lemma ShutsWhenTold(s: Conn, cfg: Settings, e: Step)
    requires Enabled(s, e)
    ensures Shuts(Apply(s, cfg, e).calls) == Shuts(s.calls) + if WillShut(s, e) then 1 else 0
  {
    hide AcceptMessage, Drain, Shuts, CloseWriteSide;
    match e
    case Send(body, k) => ShutsOfAccept(s, cfg, Message(Owner, body), k);
    case SendInLoop(m, k) => ShutsOfAccept(s, cfg, m, k);
    case HandleWrite(k) => ShutsOfDrain(s, cfg, e);
    case Shutdown => ShutsOfClose(s.(phase := Disconnecting));
    case ShutdownInLoop => ShutsOfClose(s);
    case _ =>
  }

  /** What a caller can see before the write side is shut: no close has come, or nothing will be left. */
  predicate NothingLeft(s: Conn, e: Step) {
    !s.wiped || e.HandleWrite? || s.out == []
  }

  /** Every accepted byte has been taken by the kernel. */
  ghost predicate Delivered(s: Conn) {
    Wire(s.calls) == Stream(s.accepted)
  }

  lemma DeliveredIffEmpty(s: Conn)
    requires Intact(s)
    ensures Delivered(s) <==> s.out == []
  {
    hide Wire, Stream;
    assert Wire(s.calls) + [] == Wire(s.calls);
    assert s.out != [] ==> |Wire(s.calls)| < |Stream(s.accepted)|;
  }

  /** When the write side is shut, every accepted byte has left exactly if no close came first or nothing was buffered. */
  lemma ShutdownAfterDelivery(s: Conn, cfg: Settings, e: Step)
    requires Intact(s) && MaskTracksBuffer(s) && Enabled(s, e) && WillShut(s, e)
    ensures Shuts(Apply(s, cfg, e).calls) == Shuts(s.calls) + 1
    ensures Delivered(Apply(s, cfg, e)) <==> NothingLeft(s, e)
  {
    hide Drain, Wire, Stream, Shuts, Delivered;
    ShutsWhenTold(s, cfg, e);
    StepKeepsStream(s, cfg, e);
    DeliveredIffEmpty(Apply(s, cfg, e));
    if e.HandleWrite? { ShutsOfDrain(s, cfg, e); }
  }

  /** Whenever a run shuts the write side, everything accepted so far has left. */
  ghost predicate ShutsAfterDelivery(s: Conn, cfg: Settings, es: seq<Step>)
    requires Legal(s, cfg, es)
    decreases |es|
  {
    es == [] ||
    var t := Apply(s, cfg, es[0]);
    (Shuts(t.calls) > Shuts(s.calls) ==> Delivered(t)) && ShutsAfterDelivery(t, cfg, es[1..])
  }

  ghost predicate ShutsWithNothingLeft(s: Conn, cfg: Settings, es: seq<Step>)
    requires Legal(s, cfg, es)
    decreases |es|
  {
    es == [] || ((WillShut(s, es[0]) ==> NothingLeft(s, es[0])) && ShutsWithNothingLeft(Apply(s, cfg, es[0]), cfg, es[1..]))
  }

  /**
   The same over whole runs, whoever sends, closes and shuts down: output is cut exactly by a shut that
   finds some left after a close.
   */
  lemma {:induction false} DeliveredIffNothingLeft(s: Conn, cfg: Settings, es: seq<Step>)
    requires Intact(s) && MaskTracksBuffer(s) && Legal(s, cfg, es)
    ensures ShutsAfterDelivery(s, cfg, es) <==> ShutsWithNothingLeft(s, cfg, es)
    decreases |es|
  {
    hide Apply, Enabled, Shuts, Delivered, WillShut, NothingLeft, Intact, MaskTracksBuffer;
    if es != [] {
      ShutsWhenTold(s, cfg, es[0]);
      StepKeepsStream(s, cfg, es[0]);
      if WillShut(s, es[0]) { ShutdownAfterDelivery(s, cfg, es[0]); }
      DeliveredIffNothingLeft(Apply(s, cfg, es[0]), cfg, es[1..]);
    }
  }

  /**
   And a close does spoil it: as it leaves the connection connected, a later shutdown() finds no
   write interest and shuts the write side with everything still in the buffer.
   */
  lemma ShutdownAfterCloseCutsOutput(body: seq<byte>, cfg: Settings) returns (es: seq<Step>)
    requires body != []
    ensures Legal(Idle(), cfg, es) && forall e :: e in es ==> OnLoopThread(e)
    ensures var t := Exec(Idle(), cfg, es); t.calls == [Write([]), ShutdownWrite] && t.out == body
  {
    var send := Send(body, WouldBlock);
    var s1 := Apply(Idle(), cfg, Establish);
    var s2 := Apply(s1, cfg, send);
    var s3 := Apply(s2, cfg, CloseMask);
    var s4 := Apply(s3, cfg, Shutdown);
    assert [] + body == body && s2.out == body;
    assert s4.calls == [Write([]), ShutdownWrite] && s4.out == body;
    hide Apply, Enabled;
    var last := [Shutdown] + [];
    ExecCons(s3, cfg, Shutdown, []);
    ExecCons(s2, cfg, CloseMask, last);
    ExecCons(s1, cfg, send, [CloseMask] + last);
    ExecCons(Idle(), cfg, Establish, [send] + ([CloseMask] + last));
    es := [Establish] + ([send] + ([CloseMask] + last));
  }

  /** However the loop's own thread goes on, the write side is not shut again and nothing is written after it. */
  ghost predicate ShutForGood(s: Conn, cfg: Settings) {
    forall es :: Legal(s, cfg, es) && (forall e :: e in es ==> OnLoopThread(e)) ==> ShutIsLast(Exec(s, cfg, es).calls)
  }

  /** A call after the shutdown, in one or two steps of the loop's thread. */
  ghost predicate Breaks(s: Conn, cfg: Settings, es: seq<Step>) {
    Legal(s, cfg, es) && (forall e :: e in es ==> OnLoopThread(e)) && !ShutIsLast(Exec(s, cfg, es).calls)
  }

  lemma CallAfterShut(calls: seq<Call>, c: Call)
    requires ShutIsLast(calls) && ShutdownWrite in calls
    ensures !ShutIsLast(calls + [c])
  {
    assert (calls + [c])[|calls| - 1] == ShutdownWrite;
  }

  lemma OneStepBreaks(s: Conn, cfg: Settings, e: Step)
    requires ShutIsLast(s.calls) && ShutdownWrite in s.calls && Enabled(s, e) && OnLoopThread(e)
    requires exists c :: Apply(s, cfg, e).calls == s.calls + [c]
    ensures Breaks(s, cfg, [e] + [])
  {
    var c :| Apply(s, cfg, e).calls == s.calls + [c];
    CallAfterShut(s.calls, c);
    ExecCons(s, cfg, e, []);
  }

  lemma StepThenBreaks(s: Conn, cfg: Settings, e: Step, es: seq<Step>)
    requires Enabled(s, e) && OnLoopThread(e) && Breaks(Apply(s, cfg, e), cfg, es)
    ensures Breaks(s, cfg, [e] + es)
  {
    hide Apply, Enabled, ShutIsLast;
    ExecCons(s, cfg, e, es);
  }

  /** With write interest on, the next writable event writes. */
  lemma InterestBreaks(s: Conn, cfg: Settings) returns (es: seq<Step>)
    requires ShutIsLast(s.calls) && ShutdownWrite in s.calls && s.mask.write
    ensures Breaks(s, cfg, es)
  {
    assert Apply(s, cfg, HandleWrite(WouldBlock)).calls == s.calls + [Write([])];
    OneStepBreaks(s, cfg, HandleWrite(WouldBlock));
    es := [HandleWrite(WouldBlock)] + [];
  }

  /** While it counts as connected, the user may send: the bytes are written at once or at the next writable event. */
  lemma ConnectedBreaks(s: Conn, cfg: Settings) returns (es: seq<Step>)
    requires ShutIsLast(s.calls) && ShutdownWrite in s.calls && s.phase == Connected && !s.mask.write
    ensures Breaks(s, cfg, es)
  {
    var send := Send([0], WouldBlock);
    if s.out == [] {
      assert Apply(s, cfg, send).calls == s.calls + [Write([])];
      OneStepBreaks(s, cfg, send);
      es := [send] + [];
    } else {
      es := InterestBreaks(Apply(s, cfg, send), cfg);
      StepThenBreaks(s, cfg, send, es);
      es := [send] + es;
    }
  }

  /** HalfClosed is no more than it takes: once the write side is shut, it is the same as staying so for good. */
  lemma ForGoodIffHalfClosed(s: Conn, cfg: Settings)
    requires ShutIsLast(s.calls) && ShutdownWrite in s.calls && s.established
    ensures ShutForGood(s, cfg) <==> HalfClosed(s)
  {
    if HalfClosed(s) {
      forall es | Legal(s, cfg, es) && (forall e :: e in es ==> OnLoopThread(e)) ensures ShutIsLast(Exec(s, cfg, es).calls) {
        ShutdownIsFinal(s, cfg, es);
      }
    } else {
      var es: seq<Step>;
      if s.mask.write { es := InterestBreaks(s, cfg); } else { es := ConnectedBreaks(s, cfg); }
      assert Breaks(s, cfg, es);
    }
  }

  /** Whether a step of another thread, at the moment it happens, leaves the half-close as it should be. */
  predicate LateOk(s: Conn, e: Step) {
    match e
    case SendInLoop(m, _) =>
      ShutdownWrite !in s.calls || s.phase == Disconnected || (s.out != [] && m.body == [])
    case ShutdownInLoop => s.mask.write || (ShutdownWrite !in s.calls && s.established && s.phase != Connected)
    case _ => true
  }

  lemma BufferCallsNobody(s: Conn, cfg: Settings, rest: seq<byte>)
    ensures var t := Buffer(s, cfg, rest); t.calls == s.calls && t.phase == s.phase && t.established == s.established
  {
  }

  /** Accepting a message makes at most one call, a write. */
  lemma AcceptCalls(s: Conn, cfg: Settings, m: Message, k: WriteResult)
    requires k.Wrote? ==> k.n <= |m.body|
    ensures var t := AcceptMessage(s, cfg, m, k);
            && t.phase == s.phase && t.established == s.established
            && t.calls == if s.phase == Disconnected || !WritesDirectly(s) then s.calls
                          else s.calls + [Write(if k.Wrote? then m.body[..k.n] else [])]
  {
    hide Buffer;
    var n := if k.Wrote? then k.n else 0;
    BufferCallsNobody(Accept(s, m), cfg, m.body);
    BufferCallsNobody(Accept(Attempt(s, m.body[..n]), m), cfg, m.body[n..]);
    assert m.body[0..] == m.body && m.body[..0] == [];
  }

  lemma LateSend(s: Conn, cfg: Settings, e: Step)
    requires HalfClosed(s) && Enabled(s, e) && e.SendInLoop?
    ensures HalfClosed(Apply(s, cfg, e)) <==> LateOk(s, e)
  {
    AcceptCalls(s, cfg, e.message, e.result);
    if ShutdownWrite in s.calls && s.phase != Disconnected && s.out == [] {
      CallAfterShut(s.calls, Write(if e.result.Wrote? then e.message.body[..e.result.n] else []));
    }
  }

  lemma LateStep(s: Conn, cfg: Settings, e: Step)
    requires HalfClosed(s) && Enabled(s, e) && !OnLoopThread(e)
    ensures HalfClosed(Apply(s, cfg, e)) <==> LateOk(s, e)
  {
    hide AcceptMessage;
    match e
    case SendInLoop(_, _) => LateSend(s, cfg, e);
    case ShutdownInLoop =>
      if ShutdownWrite in s.calls { CallAfterShut(s.calls, ShutdownWrite); }
    case MarkDisconnecting =>
  }

  /**
   After the shutdown, what another thread had queued does no harm exactly when a late sendInLoop finds the
   connection down, or has nothing to add to a buffer that waits in vain; a late shutdownInLoop always does.
   */
  lemma LateFunctor(s: Conn, cfg: Settings, e: Step)
    requires HalfClosed(s) && ShutdownWrite in s.calls && Enabled(s, e) && !OnLoopThread(e)
    ensures ShutForGood(Apply(s, cfg, e), cfg) <==>
            match e
            case SendInLoop(m, _) => s.phase == Disconnected || (s.out != [] && m.body == [])
            case ShutdownInLoop => false
            case _ => true
  {
    var t := Apply(s, cfg, e);
    LateStep(s, cfg, e);
    LateStepKeepsShut(s, cfg, e);
    if ShutIsLast(t.calls) {
      ForGoodIffHalfClosed(t, cfg);
    } else {
      assert Legal(t, cfg, []) && Exec(t, cfg, []) == t;
    }
  }

  lemma LateStepKeepsShut(s: Conn, cfg: Settings, e: Step)
    requires Enabled(s, e) && ShutdownWrite in s.calls && s.established && !OnLoopThread(e)
    ensures ShutdownWrite in Apply(s, cfg, e).calls && Apply(s, cfg, e).established
  {
    hide AcceptMessage;
    if e.SendInLoop? { AcceptCalls(s, cfg, e.message, e.result); }
    var i :| 0 <= i < |s.calls| && s.calls[i] == ShutdownWrite;
    assert Apply(s, cfg, e).calls[i] == ShutdownWrite;
  }

  /** All along a run the half-close is as it should be. */
  ghost predicate HalfClosedThroughout(s: Conn, cfg: Settings, es: seq<Step>)
    requires Legal(s, cfg, es)
    decreases |es|
  {
    HalfClosed(s) && (es == [] || HalfClosedThroughout(Apply(s, cfg, es[0]), cfg, es[1..]))
  }

  ghost predicate AllLateOk(s: Conn, cfg: Settings, es: seq<Step>)
    requires Legal(s, cfg, es)
    decreases |es|
  {
    es == [] || ((OnLoopThread(es[0]) || LateOk(s, es[0])) && AllLateOk(Apply(s, cfg, es[0]), cfg, es[1..]))
  }

  /** Over a whole run, other threads included, the guarantee holds exactly when every one of their steps is harmless. */
  lemma {:induction false} HalfCloseIffLateStepsOk(s: Conn, cfg: Settings, es: seq<Step>)
    requires HalfClosed(s) && Legal(s, cfg, es)
    ensures HalfClosedThroughout(s, cfg, es) <==> AllLateOk(s, cfg, es)
    decreases |es|
  {
    hide Apply, Enabled, HalfClosed, LateOk;
    if es != [] {
      var t := Apply(s, cfg, es[0]);
      if OnLoopThread(es[0]) { StepHalfClosed(s, cfg, es[0]); } else { LateStep(s, cfg, es[0]); }
      if HalfClosed(t) {
        HalfCloseIffLateStepsOk(t, cfg, es[1..]);
      }
    }
  }

  /** So a send that another thread had queued can be written after the write side was shut. */
  lemma ForeignSendAfterShutdown(thread: nat, body: seq<byte>, cfg: Settings) returns (es: seq<Step>)
    ensures Legal(Idle(), cfg, es) && !ShutIsLast(Exec(Idle(), cfg, es).calls)
    ensures Exec(Idle(), cfg, es).calls == [ShutdownWrite, Write(body)]
  {
    var late := SendInLoop(Message(Foreign(thread), body), Wrote(|body|));
    var s1 := Apply(Idle(), cfg, Establish);
    var s2 := Apply(s1, cfg, Shutdown);
    var last := [late] + [];
    assert body[..|body|] == body;
    assert Apply(s2, cfg, late).calls == [ShutdownWrite, Write(body)] && [ShutdownWrite, Write(body)][0] == ShutdownWrite;
    ExecCons(s2, cfg, late, []);
    ExecCons(s1, cfg, Shutdown, last);
    ExecCons(Idle(), cfg, Establish, [Shutdown] + last);
    es := [Establish] + ([Shutdown] + last);
  }

  lemma ExecCons(s: Conn, cfg: Settings, e: Step, rest: seq<Step>)
    requires Enabled(s, e) && Legal(Apply(s, cfg, e), cfg, rest)
    ensures Legal(s, cfg, [e] + rest) && Exec(s, cfg, [e] + rest) == Exec(Apply(s, cfg, e), cfg, rest)
  {
    hide Apply, Enabled;
    assert ([e] + rest)[0] == e && ([e] + rest)[1..] == rest;
  }

  // ---- notices ----------------------------------------------------------------------------

  function Highs(notices: seq<Notice>): nat {
    if notices == [] then 0
    else Highs(notices[..|notices| - 1]) + if notices[|notices| - 1].HighWater? then 1 else 0
  }

  lemma HighsSnoc(notices: seq<Notice>, n: Notice)
    ensures Highs(notices + [n]) == Highs(notices) + if n.HighWater? then 1 else 0
  {
    assert (notices + [n])[..|notices|] == notices;
  }

  /** How often the buffered length went from below the mark to at or above it. */
  ghost function Crossings(s: Conn, cfg: Settings, es: seq<Step>): nat
    requires Legal(s, cfg, es)
    decreases |es|
  {
    if es == [] then 0
    else
      var t := Apply(s, cfg, es[0]);
      (if |s.out| < cfg.mark <= |t.out| then 1 else 0) + Crossings(t, cfg, es[1..])
  }

  lemma BufferHighs(s: Conn, cfg: Settings, rest: seq<byte>)
    requires cfg.onHighWater
    ensures var t := Buffer(s, cfg, rest);
            && Highs(t.notices) == Highs(s.notices) + (if |s.out| < cfg.mark <= |t.out| then 1 else 0)
            && |t.out| == |s.out| + |rest|
  {
    hide Highs;
    HighsSnoc(s.notices, HighWater(|s.out| + |rest|));
  }

  lemma AcceptHighs(s: Conn, cfg: Settings, m: Message, k: WriteResult)
    requires cfg.onHighWater && (k.Wrote? ==> k.n <= |m.body|)
    ensures var t := AcceptMessage(s, cfg, m, k);
            Highs(t.notices) == Highs(s.notices) + if |s.out| < cfg.mark <= |t.out| then 1 else 0
  {
    hide Highs, Buffer;
    HighsSnoc(s.notices, WriteComplete);
    var sent := if WritesDirectly(s) && k.Wrote? then k.n else 0;
    var s1 := if WritesDirectly(s) then Accept(Attempt(s, m.body[..sent]), m) else Accept(s, m);
    BufferHighs(s1, cfg, m.body[sent..]);
    assert m.body[0..] == m.body && m.body[..0] == [];
  }

  lemma DrainHighs(s: Conn, cfg: Settings, k: WriteResult)
    requires k.Wrote? ==> k.n <= |s.out|
    ensures Highs(Drain(s, cfg, k).notices) == Highs(s.notices) && |Drain(s, cfg, k).out| <= |s.out|
  {
    hide Highs;
    HighsSnoc(s.notices, WriteComplete);
  }

  lemma StepHighs(s: Conn, cfg: Settings, e: Step)
    requires cfg.onHighWater && Enabled(s, e)
    ensures var t := Apply(s, cfg, e);
            Highs(t.notices) == Highs(s.notices) + if |s.out| < cfg.mark <= |t.out| then 1 else 0
  {
    hide AcceptMessage, Drain, Highs;
    match e
    case Send(body, k) => AcceptHighs(s, cfg, Message(Owner, body), k);
    case SendInLoop(m, k) => AcceptHighs(s, cfg, m, k);
    case HandleWrite(k) => DrainHighs(s, cfg, k);
    case _ =>
  }

  /** One high-water notice per upward crossing of the mark, and none otherwise. */
  lemma {:induction false} HighWaterMatchesCrossings(s: Conn, cfg: Settings, es: seq<Step>)
    requires cfg.onHighWater && Legal(s, cfg, es)
    ensures Highs(Exec(s, cfg, es).notices) == Highs(s.notices) + Crossings(s, cfg, es)
    decreases |es|
  {
    hide Apply, Highs;
    if es != [] {
      StepHighs(s, cfg, es[0]);
      HighWaterMatchesCrossings(Apply(s, cfg, es[0]), cfg, es[1..]);
    }
  }

  /** Somewhere along the run the buffered length is below the mark. */
  ghost predicate DipsBelow(s: Conn, cfg: Settings, es: seq<Step>)
    requires Legal(s, cfg, es)
    decreases |es|
  {
    |s.out| < cfg.mark || (es != [] && DipsBelow(Apply(s, cfg, es[0]), cfg, es[1..]))
  }

  /** Between two high-water notices the buffer has been drained below the mark. */
  lemma DipsBetweenNotices(s: Conn, cfg: Settings, first: Step, es: seq<Step>)
    requires cfg.onHighWater && Enabled(s, first) && Legal(Apply(s, cfg, first), cfg, es)
    requires Highs(Apply(s, cfg, first).notices) > Highs(s.notices)
    requires Highs(Exec(Apply(s, cfg, first), cfg, es).notices) > Highs(Apply(s, cfg, first).notices)
    ensures |Apply(s, cfg, first).out| >= cfg.mark && DipsBelow(Apply(s, cfg, first), cfg, es)
  {
    hide Apply, Enabled, Highs;
    StepHighs(s, cfg, first);
    NoticeNeedsDip(Apply(s, cfg, first), cfg, es);
  }

  lemma {:induction false} NoticeNeedsDip(s: Conn, cfg: Settings, es: seq<Step>)
    requires cfg.onHighWater && Legal(s, cfg, es) && Highs(Exec(s, cfg, es).notices) > Highs(s.notices)
    ensures DipsBelow(s, cfg, es)
    decreases |es|
  {
    hide Apply, Enabled, Highs;
    if |s.out| >= cfg.mark {
      StepHighs(s, cfg, es[0]);
      NoticeNeedsDip(Apply(s, cfg, es[0]), cfg, es[1..]);
    }
  }

  /** The outcome of the write call a step makes, if it makes one. */
  function ResultOf(e: Step): WriteResult {
    match e
    case Send(_, k) => k
    case SendInLoop(_, k) => k
    case HandleWrite(k) => k
    case _ => WouldBlock
  }

  function Completes(notices: seq<Notice>): nat {
    if notices == [] then 0
    else Completes(notices[..|notices| - 1]) + if notices[|notices| - 1] == WriteComplete then 1 else 0
  }

  lemma CompletesSnoc(notices: seq<Notice>, n: Notice)
    ensures Completes(notices + [n]) == Completes(notices) + if n == WriteComplete then 1 else 0
  {
    assert (notices + [n])[..|notices|] == notices;
  }

  lemma AcceptCompletes(s: Conn, cfg: Settings, m: Message, k: WriteResult)
    requires cfg.onWriteComplete && (k.Wrote? ==> k.n <= |m.body|)
    ensures var t := AcceptMessage(s, cfg, m, k);
            Completes(t.notices) == Completes(s.notices) + if t.calls != s.calls && k.Wrote? && t.out == [] then 1 else 0
  {
    hide Completes;
    CompletesSnoc(s.notices, WriteComplete);
    CompletesSnoc(s.notices, HighWater(|AcceptMessage(s, cfg, m, k).out|));
  }

  lemma DrainCompletes(s: Conn, cfg: Settings, k: WriteResult)
    requires cfg.onWriteComplete && MaskTracksBuffer(s) && (k.Wrote? ==> k.n <= |s.out|)
    ensures var t := Drain(s, cfg, k);
            Completes(t.notices) == Completes(s.notices) + if t.calls != s.calls && k.Wrote? && t.out == [] then 1 else 0
  {
    hide Completes;
    CompletesSnoc(s.notices, WriteComplete);
  }

  /**
   Write-complete is queued by exactly those steps whose write call succeeds and leaves nothing
   buffered; at that moment every accepted byte has been taken by the kernel.
   */
  lemma WriteCompleteIsAccurate(s: Conn, cfg: Settings, e: Step)
    requires cfg.onWriteComplete && Intact(s) && MaskTracksBuffer(s) && Enabled(s, e)
    ensures var t := Apply(s, cfg, e);
            var complete := t.calls != s.calls && ResultOf(e).Wrote? && t.out == [];
            && Completes(t.notices) == Completes(s.notices) + (if complete then 1 else 0)
            && (complete ==> Wire(t.calls) == Stream(t.accepted))
  {
    StepKeepsStream(s, cfg, e);
    hide AcceptMessage, Drain, Wire, Stream, Completes;
    match e
    case Send(body, k) => AcceptCompletes(s, cfg, Message(Owner, body), k);
    case SendInLoop(m, k) => AcceptCompletes(s, cfg, m, k);
    case HandleWrite(k) => DrainCompletes(s, cfg, k);
    case _ =>
  }

  /** The one notice a step may queue: the callbacks that are set, at the moments they are meant for. */
  function Due(s: Conn, t: Conn, cfg: Settings, e: Step): seq<Notice> {
    if cfg.onHighWater && |s.out| < cfg.mark <= |t.out| then [HighWater(|t.out|)]
    else if cfg.onWriteComplete && t.calls != s.calls && ResultOf(e).Wrote? && t.out == [] then [WriteComplete]
    else []
  }

  lemma AcceptNotices(s: Conn, cfg: Settings, m: Message, k: WriteResult)
    requires k.Wrote? ==> k.n <= |m.body|
    ensures var t := AcceptMessage(s, cfg, m, k); t.notices == s.notices + Due(s, t, cfg, SendInLoop(m, k))
  {
    hide Buffer;
    AcceptCalls(s, cfg, m, k);
    var n := if k.Wrote? then k.n else 0;
    assert m.body[0..] == m.body && m.body[..0] == [];
    BufferNotices(Accept(s, m), cfg, m.body);
    BufferNotices(Accept(Attempt(s, m.body[..n]), m), cfg, m.body[n..]);
  }

  lemma BufferNotices(s: Conn, cfg: Settings, rest: seq<byte>)
    ensures var t := Buffer(s, cfg, rest);
            && |t.out| == |s.out| + |rest|
            && t.notices == s.notices + if cfg.onHighWater && |s.out| < cfg.mark <= |t.out| then [HighWater(|t.out|)] else []
  {
  }

  lemma DrainNotices(s: Conn, cfg: Settings, k: WriteResult)
    requires MaskTracksBuffer(s) && (k.Wrote? ==> k.n <= |s.out|)
    ensures var t := Drain(s, cfg, k); t.notices == s.notices + Due(s, t, cfg, HandleWrite(k))
  {
  }

  /**
   Every step queues exactly the notice that is due: a high-water notice, with the new length, iff its
   callback is set and the length crosses the mark; a write-complete iff its callback is set and the
   step's write leaves nothing buffered.
   */
  lemma NoticesAreDue(s: Conn, cfg: Settings, e: Step)
    requires MaskTracksBuffer(s) && Enabled(s, e)
    ensures Apply(s, cfg, e).notices == s.notices + Due(s, Apply(s, cfg, e), cfg, e)
  {
    hide AcceptMessage, Drain;
    match e
    case Send(body, k) => AcceptNotices(s, cfg, Message(Owner, body), k);
    case SendInLoop(m, k) => AcceptNotices(s, cfg, m, k);
    case HandleWrite(k) => DrainNotices(s, cfg, k);
    case _ =>
  }

  // ---- system calls -----------------------------------------------------------------------

  /** The bytes a write call with this outcome takes from `data`. */
  function Taken(data: seq<byte>, k: WriteResult): seq<byte>
    requires k.Wrote? ==> k.n <= |data|
  {
    if k.Wrote? then data[..k.n] else []
  }

  /** The calls a step makes on the socket. */
  function CallsDue(s: Conn, e: Step): seq<Call>
    requires Enabled(s, e)
  {
    match e
    case Send(body, k) => if s.phase == Connected && WritesDirectly(s) then [Write(Taken(body, k))] else []
    case SendInLoop(m, k) => if s.phase != Disconnected && WritesDirectly(s) then [Write(Taken(m.body, k))] else []
    case HandleWrite(k) =>
      (if s.mask.write then [Write(Taken(s.out, k))] else []) + (if WillShut(s, e) then [ShutdownWrite] else [])
    case _ => if WillShut(s, e) then [ShutdownWrite] else []
  }

  lemma DrainCalls(s: Conn, cfg: Settings, e: Step)
    requires Enabled(s, e) && e.HandleWrite?
    ensures Drain(s, cfg, e.result).calls == s.calls + CallsDue(s, e)
  {
  }

  /** Every step makes exactly the calls it should, failed write attempts included: writes when it may, and the half-close when due. */
  lemma CallsAreDue(s: Conn, cfg: Settings, e: Step)
    requires Enabled(s, e)
    ensures Apply(s, cfg, e).calls == s.calls + CallsDue(s, e)
  {
    hide AcceptMessage, Drain;
    match e
    case Send(body, k) => AcceptCalls(s, cfg, Message(Owner, body), k);
    case SendInLoop(m, k) => AcceptCalls(s, cfg, m, k);
    case HandleWrite(k) => DrainCalls(s, cfg, e);
    case _ =>
  }

  // ---- draining ---------------------------------------------------------------------------

  /** Only writable events happen, and while there is interest each takes at least one byte. */
  ghost predicate Draining(s: Conn, cfg: Settings, es: seq<Step>)
    requires Legal(s, cfg, es)
    decreases |es|
  {
    es == [] ||
    (&& es[0].HandleWrite?
     && (s.mask.write ==> es[0].result.Wrote? && es[0].result.n >= 1)
     && Draining(Apply(s, cfg, es[0]), cfg, es[1..]))
  }

  lemma {:induction false} DrainedStaysDrained(s: Conn, cfg: Settings, es: seq<Step>)
    requires Legal(s, cfg, es) && Draining(s, cfg, es) && !s.mask.write
    ensures Exec(s, cfg, es) == s
    decreases |es|
  {
    if es != [] {
      DrainedStaysDrained(Apply(s, cfg, es[0]), cfg, es[1..]);
    }
  }

  lemma OneDrain(s: Conn, cfg: Settings, k: WriteResult)
    requires s.mask.write && k.Wrote? && 1 <= k.n <= |s.out|
    ensures var t := Drain(s, cfg, k);
            && |t.out| < |s.out| && t.accepted == s.accepted && t.phase == s.phase
            && (t.mask.write <==> t.out != [])
            && (t.mask.write ==> t.notices == s.notices)
            && (!t.mask.write ==>
                  && Completes(t.notices) == Completes(s.notices) + (if cfg.onWriteComplete then 1 else 0)
                  && (s.phase == Disconnecting ==> t.calls != [] && t.calls[|t.calls| - 1] == ShutdownWrite))
  {
    hide Completes;
    CompletesSnoc(s.notices, WriteComplete);
  }

  /**
   A buffer of n bytes is empty after at most n progressing writable events. Write interest is then
   off, one write-complete has been queued, and a pending half-close has been carried out.
   */
  lemma {:induction false} DrainsInTime(s: Conn, cfg: Settings, es: seq<Step>)
    requires Intact(s) && MaskTracksBuffer(s) && s.mask.write
    requires Legal(s, cfg, es) && Draining(s, cfg, es) && |es| >= |s.out|
    ensures var t := Exec(s, cfg, es);
            && t.out == [] && !t.mask.write && Wire(t.calls) == Stream(s.accepted)
            && Completes(t.notices) == Completes(s.notices) + (if cfg.onWriteComplete then 1 else 0)
            && (s.phase == Disconnecting ==> t.calls != [] && t.calls[|t.calls| - 1] == ShutdownWrite)
    decreases |es|
  {
    var t := Drain(s, cfg, es[0].result);
    StepKeepsStream(s, cfg, es[0]);
    OneDrain(s, cfg, es[0].result);
    hide Drain, Wire, Stream, Completes;
    if t.mask.write {
      DrainsInTime(t, cfg, es[1..]);
    } else {
      DrainedStaysDrained(t, cfg, es[1..]);
    }
  }
}
