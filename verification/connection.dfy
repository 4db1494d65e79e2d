/**
 A connection as an object over its channel and its two buffers. Every method moves the abstract
 state exactly as ConnSpec says, the output buffer being seen only through its readable bytes.
 */
module Connections {
  import opened Bytes
  import opened Threads
  import opened ConnSpec
  import PollerSpec
  import Buffer
  import BuffSpec
  import Epoller

  /** Calls into user code, which may answer with further operations on the connection. */
  /** Functors bound to the connection and handed to its loop: by other threads, or for later. */
  datatype Functor = SendFunctor(message: Message) | ShutdownFunctor | ForceCloseFunctor

  datatype Upcall = OnConnection(phase: Phase) | OnMessage | OnClose

  lemma BufferNothing(s: Conn, cfg: Settings)
    ensures ConnSpec.Buffer(s, cfg, []) == s
  {
  }

  lemma DownRefuses(s: Conn, cfg: Settings, m: Message, k: WriteResult)
    requires s.phase == Disconnected && (k.Wrote? ==> k.n <= |m.body|)
    ensures AcceptMessage(s, cfg, m, k) == s
  {
  }

  /** The connection after sendInLoop's own write call, if it makes one. */
  function Tried(s: Conn, cfg: Settings, m: Message, k: WriteResult): Conn
    requires k.Wrote? ==> k.n <= |m.body|
  {
    if !WritesDirectly(s) then s
    else
      match k
      case Wrote(n) => var s1 := Attempt(s, m.body[..n]); if n == |m.body| then NotifyComplete(s1, cfg) else s1
      case _ => Attempt(s, [])
  }

  lemma TriedThenBuffered(s: Conn, cfg: Settings, m: Message, k: WriteResult)
    requires s.phase != Disconnected && (k.Wrote? ==> k.n <= |m.body|)
    ensures AcceptMessage(s, cfg, m, k) ==
            if WritesDirectly(s) && k.PeerGone? then Tried(s, cfg, m, k)
            else ConnSpec.Buffer(Accept(Tried(s, cfg, m, k), m), cfg, m.body[if WritesDirectly(s) && k.Wrote? then k.n else 0..])
  {
    assert m.body[0..] == m.body;
  }

  class TcpConnection {
    const settings: Settings
    const channel: Epoller.Channel
    const inputBuffer: Buffer.Buff
    const outputBuffer: Buffer.Buff
    var state: Phase
    var reading: bool
    /** Callbacks and functors handed to the loop with queueInloop, and calls into user code, each in order. */
    var queued: seq<Notice>
    var functors: seq<Functor>
    var upcalls: seq<Upcall>
    ghost var calls: seq<Call>
    ghost var accepted: seq<Message>
    ghost var established: bool
    ghost var wiped: bool

    ghost predicate Valid()
      reads this, channel, channel.poller, channel.poller.live
      reads inputBuffer, inputBuffer.buf, outputBuffer, outputBuffer.buf
    {
      && channel.Valid() && inputBuffer.Valid() && outputBuffer.Valid()
      && inputBuffer != outputBuffer && inputBuffer.buf != outputBuffer.buf
      && (state == Connected ==> established)
    }

    ghost function View(): Conn
      requires outputBuffer.Valid()
      reads this, channel, outputBuffer, outputBuffer.buf
    {
      Conn(state, channel.mask, reading, outputBuffer.Contents(), calls, accepted, queued, established, wiped)
    }

    constructor (settings: Settings, channel: Epoller.Channel)
      requires channel.Valid() && channel.mask == PollerSpec.NO_EVENT
      ensures Valid() && View() == Idle() && this.settings == settings && this.channel == channel
      ensures fresh(inputBuffer) && fresh(outputBuffer) && fresh(inputBuffer.buf) && fresh(outputBuffer.buf)
    {
      this.settings, this.channel := settings, channel;
      inputBuffer := new Buffer.Buff(BuffSpec.INITIAL_SIZE);
      outputBuffer := new Buffer.Buff(BuffSpec.INITIAL_SIZE);
      state, reading, queued, functors, upcalls := Disconnected, false, [], [], [];
      calls, accepted, established, wiped := [], [], false, false;
    }

    /** Keep the unwritten rest of a message, and ask for writable events. */
    method BufferRest(rest: seq<byte>)
      requires Valid() && rest != []
      modifies this`queued, channel`mask, channel`index, channel.poller, outputBuffer, outputBuffer.buf
      ensures Valid() && View() == ConnSpec.Buffer(old(View()), settings, rest)
      ensures channel.poller.live == old(channel.poller.live) && channel.poller.faults == old(channel.poller.faults)
      ensures outputBuffer.buf == old(outputBuffer.buf) || fresh(outputBuffer.buf)
    {
      hide BuffSpec.Append, PollerSpec.SetMask, PollerSpec.Agree;
      var oldlen := outputBuffer.ReadableBytes();
      if oldlen + |rest| >= settings.mark && oldlen < settings.mark && settings.onHighWater {
        queued := queued + [HighWater(oldlen + |rest|)];
      }
      outputBuffer.Append(rest);
      if !channel.mask.write {
        channel.EnableWriting();
      }
    }

    /** Write at once if nothing is waiting; the call's outcome is `k`, and not looked at otherwise. */
    method TryWrite(m: Message, k: WriteResult) returns (nwrote: nat, faultError: bool)
      requires Valid() && (k.Wrote? ==> k.n <= |m.body|)
      modifies this`queued, this`calls
      ensures View() == Tried(old(View()), settings, m, k)
      ensures nwrote == (if WritesDirectly(old(View())) && k.Wrote? then k.n else 0)
      ensures faultError == (WritesDirectly(old(View())) && k.PeerGone?)
    {
      nwrote, faultError := 0, false;
      var readable := outputBuffer.ReadableBytes();
      if !channel.mask.write && readable == 0 {
        match k {
          case Wrote(n) =>
            nwrote := n;
            if n == |m.body| && settings.onWriteComplete {
              queued := queued + [WriteComplete];
            }
          case PeerGone => faultError := true;
          case _ =>
        }
        calls := calls + [Write(m.body[..nwrote])];
        assert m.body[..0] == [];
      }
    }

    method SendInLoop(m: Message, k: WriteResult)
      requires Valid() && (k.Wrote? ==> k.n <= |m.body|)
      modifies this`queued, this`calls, this`accepted
      modifies channel`mask, channel`index, channel.poller, outputBuffer, outputBuffer.buf
      ensures Valid() && View() == AcceptMessage(old(View()), settings, m, k)
      ensures channel.poller.live == old(channel.poller.live) && channel.poller.faults == old(channel.poller.faults)
      ensures outputBuffer.buf == old(outputBuffer.buf) || fresh(outputBuffer.buf)
    {
      hide ConnSpec.Buffer, AcceptMessage, Tried, PollerSpec.Agree, PollerSpec.SetMask, BuffSpec.Append;
      if state == Disconnected {
        DownRefuses(View(), settings, m, k);
        return;
      }
      TriedThenBuffered(View(), settings, m, k);
      var nwrote, faultError := TryWrite(m, k);
      if !faultError {
        accepted := accepted + [m];
        if nwrote < |m.body| {
          BufferRest(m.body[nwrote..]);
        } else {
          BufferNothing(View(), settings);
          assert m.body[nwrote..] == [];
        }
      }
    }

    /** On the loop's own thread the message is sent at once; from another thread a functor is queued. */
    method Send(who: Who, body: seq<byte>, k: WriteResult)
      requires Valid() && (k.Wrote? ==> k.n <= |body|)
      modifies this`queued, this`calls, this`accepted, this`functors
      modifies channel`mask, channel`index, channel.poller, outputBuffer, outputBuffer.buf
      ensures Valid() && View() == if who == Owner then Apply(old(View()), settings, ConnSpec.Send(body, k)) else old(View())
      ensures functors == old(functors) + if who != Owner && state == Connected then [SendFunctor(Message(who, body))] else []
      ensures channel.poller.live == old(channel.poller.live) && channel.poller.faults == old(channel.poller.faults)
      ensures outputBuffer.buf == old(outputBuffer.buf) || fresh(outputBuffer.buf)
    {
      hide AcceptMessage;
      if state == Connected {
        if who == Owner {
          SendInLoop(Message(Owner, body), k);
        } else {
          functors := functors + [SendFunctor(Message(who, body))];
        }
      }
    }

    method ShutdownInLoop()
      requires Valid()
      modifies this`calls
      ensures Valid() && View() == CloseWriteSide(old(View()))
    {
      if !channel.mask.write {
        calls := calls + [ShutdownWrite];
      }
    }

    /** The state changes on the calling thread; the write side is shut on the loop's. */
    method Shutdown(who: Who)
      requires Valid()
      modifies this`state, this`calls, this`functors
      ensures Valid() && (old(state) != Connected ==> View() == old(View()) && functors == old(functors))
      ensures old(state) == Connected ==> state == Disconnecting
      ensures old(state) == Connected && who == Owner ==>
                View() == Apply(old(View()), settings, ConnSpec.Shutdown) && functors == old(functors)
      ensures old(state) == Connected && who != Owner ==>
                View() == Apply(old(View()), settings, MarkDisconnecting) && functors == old(functors) + [ShutdownFunctor]
    {
      if state == Connected {
        state := Disconnecting;
        if who == Owner {
          ShutdownInLoop();
        } else {
          functors := functors + [ShutdownFunctor];
        }
      }
    }

    /** Always queued, never run at once. */
    method ForceClose()
      requires Valid()
      modifies this`functors
      ensures Valid() && View() == old(View())
      ensures functors == old(functors) + if state == Connected || state == Disconnecting then [ForceCloseFunctor] else []
    {
      if state == Connected || state == Disconnecting {
        functors := functors + [ForceCloseFunctor];
      }
    }

    method HandleWrite(k: WriteResult)
      requires Valid() && (k.Wrote? ==> k.n <= |outputBuffer.Contents()|)
      modifies this`queued, this`calls, channel`mask, channel`index, channel.poller
      modifies outputBuffer`readerIndex, outputBuffer`writerIndex
      ensures Valid() && View() == Drain(old(View()), settings, k)
      ensures channel.poller.live == old(channel.poller.live) && channel.poller.faults == old(channel.poller.faults)
    {
      hide BuffSpec.Retrieve, PollerSpec.SetMask, PollerSpec.Agree;
      if channel.mask.write {
        if k.Wrote? && k.n > 0 {
          calls := calls + [Write(outputBuffer.Contents()[..k.n])];
          outputBuffer.Retrieve(k.n);
          var left := outputBuffer.ReadableBytes();
          if left == 0 {
            channel.DisableWriting();
            if settings.onWriteComplete {
              queued := queued + [WriteComplete];
            }
            if state == Disconnecting {
              ShutdownInLoop();
            }
          }
        } else {
          calls := calls + [Write([])];
        }
      }
    }

    /** Up to the user's connection callback and the close callback, which it then makes. */
    method HandleClose()
      requires Valid()
      modifies this`wiped, this`upcalls, channel`mask, channel`index, channel.poller
      ensures Valid() && View() == Apply(old(View()), settings, CloseMask)
      ensures channel.mask == PollerSpec.NO_EVENT && state == old(state) && outputBuffer.Contents() == old(outputBuffer.Contents())
      ensures upcalls == old(upcalls) + [OnConnection(state), OnClose]
      ensures channel.poller.live == old(channel.poller.live) && channel.poller.faults == old(channel.poller.faults)
    {
      hide PollerSpec.SetMask, PollerSpec.Agree, PollerSpec.HasChannel;
      channel.DisableAll();
      wiped := true;
      upcalls := upcalls + [OnConnection(state), OnClose];
    }

    method ForceCloseInLoop()
      requires Valid()
      modifies this`wiped, this`upcalls, channel`mask, channel`index, channel.poller
      ensures Valid() && (state == Connected || state == Disconnecting
                          ==> View() == Apply(old(View()), settings, CloseMask) &&
                              upcalls == old(upcalls) + [OnConnection(state), OnClose])
      ensures state == Disconnected || state == Connecting ==> View() == old(View()) && upcalls == old(upcalls)
    {
      if state == Connected || state == Disconnecting {
        HandleClose();
      }
    }

    /** Bytes go to the user, end of stream closes, an error is only reported. */
    method HandleRead(outcome: Buffer.ReadOutcome)
      requires Valid()
      requires outcome.ReadBytes? ==> |outcome.data| <= BuffSpec.ReadvRoom(inputBuffer.View())
      modifies this`wiped, this`upcalls, channel`mask, channel`index, channel.poller, inputBuffer, inputBuffer.buf
      ensures Valid() && (inputBuffer.buf == old(inputBuffer.buf) || fresh(inputBuffer.buf))
      ensures View() == if outcome == Buffer.ReadBytes([]) then Apply(old(View()), settings, CloseMask) else old(View())
      ensures upcalls == old(upcalls) +
              match outcome
              case ReadFailed => []
              case ReadBytes(data) => if data == [] then [OnConnection(state), OnClose] else [OnMessage]
      ensures inputBuffer.Contents() == old(inputBuffer.Contents()) + if outcome.ReadBytes? then outcome.data else []
    {
      hide BuffSpec.ReadFd;
      var n := inputBuffer.ReadFd(outcome);
      if n > 0 {
        upcalls := upcalls + [OnMessage];
      } else if n == 0 {
        HandleClose();
      }
    }

    method ConnectEstablished()
      requires Valid() && !established
      modifies this`state, this`established, this`upcalls, channel`tied, channel`mask, channel`index, channel.poller
      ensures Valid() && channel.tied && View() == Apply(old(View()), settings, Establish)
      ensures state == Connected && established && channel.mask == old(channel.mask).(read := true)
      ensures upcalls == old(upcalls) + [OnConnection(Connected)]
    {
      hide PollerSpec.SetMask, PollerSpec.Agree, PollerSpec.HasChannel;
      state, established := Connected, true;
      channel.Tie();
      channel.EnableReading();
      upcalls := upcalls + [OnConnection(state)];
    }

    /** The user hears of the disconnection only if the connection still counted as connected. */
    method ConnectDestroyed()
      requires Valid()
      modifies this`state, this`wiped, this`upcalls, channel`mask, channel`index, channel.poller
      ensures Valid() && View() == if old(state) == Connected then Apply(old(View()), settings, Destroy) else old(View())
      ensures upcalls == old(upcalls) + if old(state) == Connected then [OnConnection(Disconnected)] else []
      ensures old(state) == Connected ==> state == Disconnected && channel.mask == PollerSpec.NO_EVENT
      ensures old(state) != Connected ==> state == old(state) && channel.mask == old(channel.mask)
      ensures channel.index == PollerSpec.New && !PollerSpec.HasChannel(channel.poller.View(), channel)
    {
      hide PollerSpec.SetMask, PollerSpec.Agree, PollerSpec.RemoveChannel, PollerSpec.HasChannel;
      if state == Connected {
        state := Disconnected;
        channel.DisableAll();
        wiped := true;
        upcalls := upcalls + [OnConnection(state)];
      }
      channel.Remove();
    }

    method StartReadInLoop()
      requires Valid()
      modifies this`reading, channel`mask, channel`index, channel.poller
      ensures Valid() && View() == Apply(old(View()), settings, StartRead)
      ensures reading && channel.mask == old(channel.mask).(read := true)
    {
      hide PollerSpec.SetMask, PollerSpec.Agree;
      if !reading || !channel.mask.read {
        channel.EnableReading();
        reading := true;
      }
    }

    method StopReadInLoop()
      requires Valid()
      modifies this`reading, channel`mask, channel`index, channel.poller
      ensures Valid() && View() == Apply(old(View()), settings, StopRead)
      ensures !reading && channel.mask == old(channel.mask).(read := false)
    {
      hide PollerSpec.SetMask, PollerSpec.Agree;
      if reading || channel.mask.read {
        channel.DisableReading();
        reading := false;
      }
    }
  }
}
