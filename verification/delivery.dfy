/**
 From send() to the wire: the functor queue of LoopSpec feeding the connection of ConnSpec. Any
 number of threads call send; a foreign thread's call queues a bound sendInLoop, the loop thread's
 own call runs at once. A foreign send looks at the connection's state before it takes the lock; as
 that look may be out of date by then, queueing is allowed here whatever the state has become.
 */
module Delivery {
  import opened Bytes
  import opened Threads
  import L = LoopSpec
  import C = ConnSpec

  /** A queued functor: sendInLoop bound to a message, or anything else. */
  datatype Job = SendJob(message: C.Message) | OtherJob(id: nat)

  datatype System = System(loop: L.Loop<Job, nat>, conn: C.Conn)

  datatype Event =
    | ForeignSend(thread: nat, body: seq<byte>)
    | OwnerSend(body: seq<byte>, result: C.WriteResult)
    | RunSend(result: C.WriteResult)
    | LoopEvent(e: L.Event<Job, nat>)
    | ConnEvent(c: C.Step)

  function Bound(thread: nat, body: seq<byte>): L.Event<Job, nat> {
    L.Push(Foreign(thread), SendJob(C.Message(Foreign(thread), body)))
  }

  ghost predicate Enabled(s: System, e: Event) {
    match e
    case ForeignSend(t, body) => L.Enabled(s.loop, Bound(t, body))
    case OwnerSend(body, k) => L.InUserCode(s.loop.pc) && C.Enabled(s.conn, C.Send(body, k))
    case RunSend(k) =>
      && L.Enabled(s.loop, L.Event<Job, nat>.RunNext) && s.loop.batch[0].SendJob?
      && C.Enabled(s.conn, C.SendInLoop(s.loop.batch[0].message, k))
    case LoopEvent(l) =>
      && L.Enabled(s.loop, l)
      && (l.Push? ==> l.f.OtherJob?) && (l.RunNext? ==> s.loop.batch[0].OtherJob?)
    case ConnEvent(c) => C.Enabled(s.conn, c) && !c.Send? && !c.SendInLoop?
  }

  ghost function Apply(s: System, cfg: C.Settings, e: Event): System
    requires Enabled(s, e)
  {
    match e
    case ForeignSend(t, body) => s.(loop := L.Apply(s.loop, Bound(t, body)))
    case OwnerSend(body, k) => s.(conn := C.Apply(s.conn, cfg, C.Send(body, k)))
    case RunSend(k) =>
      System(L.Apply(s.loop, L.Event<Job, nat>.RunNext),
             C.Apply(s.conn, cfg, C.SendInLoop(s.loop.batch[0].message, k)))
    case LoopEvent(l) => s.(loop := L.Apply(s.loop, l))
    case ConnEvent(c) => s.(conn := C.Apply(s.conn, cfg, c))
  }

  ghost predicate Legal(s: System, cfg: C.Settings, es: seq<Event>)
    decreases |es|
  {
    es == [] || (Enabled(s, es[0]) && Legal(Apply(s, cfg, es[0]), cfg, es[1..]))
  }

  ghost function Exec(s: System, cfg: C.Settings, es: seq<Event>): System
    requires Legal(s, cfg, es)
    decreases |es|
  {
    if es == [] then s else Exec(Apply(s, cfg, es[0]), cfg, es[1..])
  }

  function Start(): System {
    System(L.New<Job, nat>(), C.Idle())
  }

  // ---- the loop inside the system is a loop -----------------------------------------------

  function Protocol(e: Event): seq<L.Event<Job, nat>> {
    match e
    case ForeignSend(t, body) => [Bound(t, body)]
    case RunSend(_) => [L.RunNext]
    case LoopEvent(l) => [l]
    case _ => []
  }

  function ProtocolRun(es: seq<Event>): seq<L.Event<Job, nat>> {
    if es == [] then [] else Protocol(es[0]) + ProtocolRun(es[1..])
  }

  lemma {:induction false} LoopIsProtocolRun(s: System, cfg: C.Settings, es: seq<Event>)
    requires Legal(s, cfg, es)
    ensures L.Legal(s.loop, ProtocolRun(es)) && L.Exec(s.loop, ProtocolRun(es)) == Exec(s, cfg, es).loop
    decreases |es|
  {
    hide C.Apply, L.Apply;
    if es != [] {
      var t := Apply(s, cfg, es[0]);
      LoopIsProtocolRun(t, cfg, es[1..]);
      var rest := ProtocolRun(es[1..]);
      if |Protocol(es[0])| == 1 {
        var l := Protocol(es[0])[0];
        assert ProtocolRun(es)[0] == l && ProtocolRun(es)[1..] == rest;
        assert L.Enabled(s.loop, l) && L.Apply(s.loop, l) == t.loop;
      } else {
        assert ProtocolRun(es) == rest && t.loop == s.loop;
      }
    }
  }

  // ---- who sent what ----------------------------------------------------------------------

  /** The messages of one thread among those accepted onto the stream. */
  function From(ms: seq<C.Message>, who: Who): seq<C.Message> {
    if ms == [] then []
    else From(ms[..|ms| - 1], who) + if ms[|ms| - 1].from == who then [ms[|ms| - 1]] else []
  }

  /** The messages of one thread's send calls among the queued functors, in call order. */
  function CallsOf(js: seq<Job>, who: Who): seq<C.Message> {
    if js == [] then []
    else
      var j := js[|js| - 1];
      CallsOf(js[..|js| - 1], who) + if j.SendJob? && j.message.from == who then [j.message] else []
  }

  lemma FromSnoc(ms: seq<C.Message>, m: C.Message, who: Who)
    ensures From(ms + [m], who) == From(ms, who) + if m.from == who then [m] else []
  {
    assert (ms + [m])[..|ms|] == ms;
  }

  lemma CallsOfSnoc(js: seq<Job>, j: Job, who: Who)
    ensures CallsOf(js + [j], who) == CallsOf(js, who) + if j.SendJob? && j.message.from == who then [j.message] else []
  {
    assert (js + [j])[..|js|] == js;
  }

  lemma {:induction false} CallsOfAppend(a: seq<Job>, b: seq<Job>, who: Who)
    ensures CallsOf(a + b, who) == CallsOf(a, who) + CallsOf(b, who)
  {
    if b == [] {
      assert a + b == a;
    } else {
      var front, last := b[..|b| - 1], b[|b| - 1];
      CallsOfAppend(a, front, who);
      CallsOfSnoc(a + front, last, who);
      CallsOfSnoc(front, last, who);
      assert a + b == (a + front) + [last] && b == front + [last];
    }
  }

  // ---- per-thread order -------------------------------------------------------------------

  /** What a thread got onto the stream is a selection, in order, of its calls that have run. */
  ghost predicate InOrder(s: System, who: Who) {
    IsSubsequence(From(s.conn.accepted, who), CallsOf(s.loop.executed, who))
  }

  /** Every queued send carries the name of the thread that queued it. */
  lemma AcceptedByStep(s: System, cfg: C.Settings, e: Event, who: Who)
    requires Enabled(s, e) && who.Foreign?
    ensures var t := Apply(s, cfg, e);
            if e.RunSend? then
              && t.loop.executed == s.loop.executed + [s.loop.batch[0]]
              && (t.conn.accepted == s.conn.accepted || t.conn.accepted == s.conn.accepted + [s.loop.batch[0].message])
              && (s.conn.phase != C.Disconnected && !e.result.PeerGone? ==> t.conn.accepted != s.conn.accepted)
            else
              && From(t.conn.accepted, who) == From(s.conn.accepted, who)
              && CallsOf(t.loop.executed, who) == CallsOf(s.loop.executed, who)
  {
    hide C.AcceptMessage, C.Drain, From, CallsOf;
    match e
    case RunSend(k) =>
      C.AcceptedOrRefused(s.conn, cfg, s.loop.batch[0].message, k);
      assert s.conn.accepted + [s.loop.batch[0].message] != s.conn.accepted;
    case OwnerSend(body, k) =>
      var m := C.Message(Owner, body);
      C.AcceptedOrRefused(s.conn, cfg, m, k);
      FromSnoc(s.conn.accepted, m, who);
    case LoopEvent(l) =>
      if l.RunNext? { CallsOfSnoc(s.loop.executed, s.loop.batch[0], who); }
    case ConnEvent(c) =>
      if c.HandleWrite? { DrainAccepts(s.conn, cfg, c.result); }
    case _ =>
  }

  lemma DrainAccepts(s: C.Conn, cfg: C.Settings, k: C.WriteResult)
    requires k.Wrote? ==> k.n <= |s.out|
    ensures C.Drain(s, cfg, k).accepted == s.accepted
  {
  }

  lemma StepInOrder(s: System, cfg: C.Settings, e: Event, who: Who)
    requires InOrder(s, who) && Enabled(s, e) && who.Foreign?
    ensures InOrder(Apply(s, cfg, e), who)
  {
    AcceptedByStep(s, cfg, e, who);
    hide Apply, From, CallsOf, IsSubsequence;
    if e.RunSend? {
      var m := s.loop.batch[0].message;
      var a, b := From(s.conn.accepted, who), CallsOf(s.loop.executed, who);
      FromSnoc(s.conn.accepted, m, who);
      CallsOfSnoc(s.loop.executed, s.loop.batch[0], who);
      if m.from == who {
        SubsequenceSkip(a, b, m);
        SubsequenceTake(a, b, m);
      } else {
        assert a + [] == a && b + [] == b;
      }
    }
  }

  lemma {:induction false} RunInOrder(s: System, cfg: C.Settings, es: seq<Event>, who: Who)
    requires InOrder(s, who) && Legal(s, cfg, es) && who.Foreign?
    ensures InOrder(Exec(s, cfg, es), who)
    decreases |es|
  {
    hide Apply, InOrder;
    if es != [] {
      StepInOrder(s, cfg, es[0], who);
      RunInOrder(Apply(s, cfg, es[0]), cfg, es[1..], who);
    }
  }

  lemma {:induction false} RunIntact(s: System, cfg: C.Settings, es: seq<Event>)
    requires C.Intact(s.conn) && C.MaskTracksBuffer(s.conn) && Legal(s, cfg, es)
    ensures C.Intact(Exec(s, cfg, es).conn)
    decreases |es|
  {
    hide C.Apply, L.Apply, C.Intact, C.MaskTracksBuffer;
    if es != [] {
      match es[0] {
        case OwnerSend(body, k) => C.StepKeepsStream(s.conn, cfg, C.Send(body, k));
        case RunSend(k) => C.StepKeepsStream(s.conn, cfg, C.SendInLoop(s.loop.batch[0].message, k));
        case ConnEvent(c) => C.StepKeepsStream(s.conn, cfg, c);
        case _ =>
      }
      RunIntact(Apply(s, cfg, es[0]), cfg, es[1..]);
    }
  }

  // ---- the calls a thread makes -----------------------------------------------------------

  /** The send call an event is, if it is one of this thread's. */
  function CallBy(e: Event, who: Who): seq<C.Message> {
    match e
    case ForeignSend(t, body) => if who == Foreign(t) then [C.Message(who, body)] else []
    case OwnerSend(body, _) => if who == Owner then [C.Message(who, body)] else []
    case _ => []
  }

  /** All of a thread's calls in a run, in call order. */
  function Calls(es: seq<Event>, who: Who): seq<C.Message> {
    if es == [] then [] else CallBy(es[0], who) + Calls(es[1..], who)
  }

  lemma QueuedByStep(s: System, cfg: C.Settings, e: Event, who: Who)
    requires Enabled(s, e) && who.Foreign?
    ensures CallsOf(Apply(s, cfg, e).loop.queued, who) == CallsOf(s.loop.queued, who) + CallBy(e, who)
  {
    hide C.Apply, CallsOf;
    match e
    case ForeignSend(t, body) => CallsOfSnoc(s.loop.queued, SendJob(C.Message(Foreign(t), body)), who);
    case LoopEvent(l) =>
      if l.Push? { CallsOfSnoc(s.loop.queued, l.f, who); }
    case _ =>
  }

  lemma {:induction false} QueuedAreCalls(s: System, cfg: C.Settings, es: seq<Event>, who: Who)
    requires Legal(s, cfg, es) && who.Foreign?
    ensures CallsOf(Exec(s, cfg, es).loop.queued, who) == CallsOf(s.loop.queued, who) + Calls(es, who)
    decreases |es|
  {
    hide Apply, Enabled, CallsOf, CallBy;
    if es != [] {
      QueuedByStep(s, cfg, es[0], who);
      QueuedAreCalls(Apply(s, cfg, es[0]), cfg, es[1..], who);
    }
  }

  /** Only other threads' sends wait in the queue: the owner's run at once. */
  ghost predicate NoneByOwner(js: seq<Job>) {
    forall j :: j in js && j.SendJob? ==> j.message.from.Foreign?
  }

  lemma OwnerStep(s: System, cfg: C.Settings, e: Event, calls: seq<C.Message>)
    requires Enabled(s, e) && NoneByOwner(s.loop.batch) && NoneByOwner(s.loop.pending)
    requires IsSubsequence(From(s.conn.accepted, Owner), calls)
    ensures var t := Apply(s, cfg, e);
            && NoneByOwner(t.loop.batch) && NoneByOwner(t.loop.pending)
            && IsSubsequence(From(t.conn.accepted, Owner), calls + CallBy(e, Owner))
  {
    hide C.AcceptMessage, C.Drain, From, IsSubsequence;
    assert calls + [] == calls;
    match e
    case RunSend(k) =>
      C.AcceptedOrRefused(s.conn, cfg, s.loop.batch[0].message, k);
      FromSnoc(s.conn.accepted, s.loop.batch[0].message, Owner);
      assert From(s.conn.accepted, Owner) + [] == From(s.conn.accepted, Owner);
    case OwnerSend(body, k) =>
      var m := C.Message(Owner, body);
      C.AcceptedOrRefused(s.conn, cfg, m, k);
      FromSnoc(s.conn.accepted, m, Owner);
      SubsequenceSkip(From(s.conn.accepted, Owner), calls, m);
      SubsequenceTake(From(s.conn.accepted, Owner), calls, m);
    case ConnEvent(c) =>
      if c.HandleWrite? { DrainAccepts(s.conn, cfg, c.result); }
    case _ =>
  }

  lemma {:induction false} OwnerInOrder(s: System, cfg: C.Settings, es: seq<Event>, calls: seq<C.Message>)
    requires Legal(s, cfg, es) && NoneByOwner(s.loop.batch) && NoneByOwner(s.loop.pending)
    requires IsSubsequence(From(s.conn.accepted, Owner), calls)
    ensures IsSubsequence(From(Exec(s, cfg, es).conn.accepted, Owner), calls + Calls(es, Owner))
    decreases |es|
  {
    hide Apply, Enabled, From, CallBy, IsSubsequence, NoneByOwner;
    if es == [] {
      assert calls + [] == calls;
    } else {
      OwnerStep(s, cfg, es[0], calls);
      OwnerInOrder(Apply(s, cfg, es[0]), cfg, es[1..], calls + CallBy(es[0], Owner));
      assert calls + CallBy(es[0], Owner) + Calls(es[1..], Owner) == calls + Calls(es, Owner);
    }
  }

  lemma ForeignInOrder(cfg: C.Settings, es: seq<Event>, who: Who)
    requires Legal(Start(), cfg, es) && who.Foreign?
    ensures IsSubsequence(From(Exec(Start(), cfg, es).conn.accepted, who), Calls(es, who))
  {
    hide Apply, From, CallBy, IsSubsequence, L.Exec, L.Legal;
    var t := Exec(Start(), cfg, es);
    StartInOrder(who);
    RunInOrder(Start(), cfg, es, who);
    LoopIsProtocolRun(Start(), cfg, es);
    L.ExactlyOnceInOrder(ProtocolRun(es));
    var waiting := t.loop.batch + t.loop.pending;
    assert t.loop.queued == t.loop.executed + waiting;
    CallsOfAppend(t.loop.executed, waiting, who);
    SubsequenceExtend(From(t.conn.accepted, who), CallsOf(t.loop.executed, who), CallsOf(waiting, who));
    QueuedAreCalls(Start(), cfg, es, who);
    assert CallsOf(Start().loop.queued, who) + Calls(es, who) == Calls(es, who);
  }

  lemma StartInOrder(who: Who)
    ensures InOrder(Start(), who) && CallsOf(Start().loop.queued, who) == []
  {
  }

  /**
   Over every interleaving: the bytes on the wire and in the buffer are the accepted messages, each
   whole, one after the other; and those of any one thread are in the order of that thread's calls.
   */
  lemma EndToEnd(cfg: C.Settings, es: seq<Event>, who: Who)
    requires Legal(Start(), cfg, es)
    ensures var t := Exec(Start(), cfg, es);
            && C.Wire(t.conn.calls) + t.conn.out == C.Stream(t.conn.accepted)
            && IsSubsequence(From(t.conn.accepted, who), Calls(es, who))
  {
    RunIntact(Start(), cfg, es);
    if who.Foreign? {
      ForeignInOrder(cfg, es, who);
    } else {
      OwnerInOrder(Start(), cfg, es, []);
      assert [] + Calls(es, Owner) == Calls(es, Owner);
    }
  }

  /** No queued send finds the connection down or the peer gone. */
  ghost predicate NeverRefused(s: System, cfg: C.Settings, es: seq<Event>)
    requires Legal(s, cfg, es)
    decreases |es|
  {
    es == [] ||
    (&& (es[0].RunSend? ==> s.conn.phase != C.Disconnected && !es[0].result.PeerGone?)
     && NeverRefused(Apply(s, cfg, es[0]), cfg, es[1..]))
  }

  /** Then nothing a foreign thread sent is missing: what has run is on the stream, all of it, in order. */
  lemma {:induction false} NothingMissing(s: System, cfg: C.Settings, es: seq<Event>, thread: nat)
    requires Legal(s, cfg, es) && NeverRefused(s, cfg, es)
    requires From(s.conn.accepted, Foreign(thread)) == CallsOf(s.loop.executed, Foreign(thread))
    ensures var t := Exec(s, cfg, es);
            From(t.conn.accepted, Foreign(thread)) == CallsOf(t.loop.executed, Foreign(thread))
    decreases |es|
  {
    hide Apply, From, CallsOf;
    if es != [] {
      AcceptedByStep(s, cfg, es[0], Foreign(thread));
      if es[0].RunSend? {
        FromSnoc(s.conn.accepted, s.loop.batch[0].message, Foreign(thread));
        CallsOfSnoc(s.loop.executed, s.loop.batch[0], Foreign(thread));
      }
      NothingMissing(Apply(s, cfg, es[0]), cfg, es[1..], thread);
    }
  }

  /** A send queued before the loop polls has reached the connection when that iteration's functors are done. */
  lemma SentWithinOneIteration(s: System, cfg: C.Settings, es: seq<Event>, thread: nat)
    requires L.Consistent(s.loop) && s.loop.pc == L.Polling && Legal(s, cfg, es)
    requires LoopEvent(L.EndCalling) in es
    ensures CallsOf(s.loop.queued, Foreign(thread)) <= CallsOf(Exec(s, cfg, es).loop.executed, Foreign(thread))
  {
    LoopIsProtocolRun(s, cfg, es);
    EventProjects(es, L.EndCalling);
    L.ServedWithinOneIteration(s.loop, ProtocolRun(es));
    var done := Exec(s, cfg, es).loop.executed;
    assert done == s.loop.queued + done[|s.loop.queued|..];
    CallsOfAppend(s.loop.queued, done[|s.loop.queued|..], Foreign(thread));
  }

  lemma {:induction false} EventProjects(es: seq<Event>, l: L.Event<Job, nat>)
    requires LoopEvent(l) in es
    ensures l in ProtocolRun(es)
  {
    if es[0] != LoopEvent(l) {
      EventProjects(es[1..], l);
    } else {
      assert Protocol(es[0])[0] == l;
    }
  }

  lemma {:induction false} ExecSnoc(s: System, cfg: C.Settings, es: seq<Event>, e: Event)
    requires Legal(s, cfg, es) && Enabled(Exec(s, cfg, es), e)
    ensures Legal(s, cfg, es + [e]) && Exec(s, cfg, es + [e]) == Apply(Exec(s, cfg, es), cfg, e)
    decreases |es|
  {
    hide Enabled, Apply;
    if es == [] {
      assert (es + [e])[0] == e && (es + [e])[1..] == [];
      assert Legal(Apply(s, cfg, e), cfg, []) && Exec(Apply(s, cfg, e), cfg, []) == Apply(s, cfg, e);
    } else {
      ExecSnoc(Apply(s, cfg, es[0]), cfg, es[1..], e);
      assert (es + [e])[0] == es[0] && (es + [e])[1..] == es[1..] + [e];
    }
  }

  ghost predicate Reached(s: System, cfg: C.Settings) {
    exists es :: Legal(Start(), cfg, es) && Exec(Start(), cfg, es) == s
  }

  lemma Next(s: System, cfg: C.Settings, e: Event) returns (t: System)
    requires Reached(s, cfg) && Enabled(s, e)
    ensures t == Apply(s, cfg, e) && Reached(t, cfg)
  {
    hide Legal, Exec, Enabled, Apply;
    t := Apply(s, cfg, e);
    var es :| Legal(Start(), cfg, es) && Exec(Start(), cfg, es) == s;
    ExecSnoc(Start(), cfg, es, e);
    assert Legal(Start(), cfg, es + [e]) && Exec(Start(), cfg, es + [e]) == t;
  }

  /** Any message of any other thread can arrive: a run from the start that puts it on the wire, whole. */
  lemma ForeignMessageArrives(cfg: C.Settings, thread: nat, body: seq<byte>) returns (s: System)
    ensures Reached(s, cfg) && s.conn.accepted == [C.Message(Foreign(thread), body)] && C.Wire(s.conn.calls) == body
  {
    hide Reached;
    var t := Begun(cfg);
    t := Next(t, cfg, ForeignSend(thread, body));
    t := Next(t, cfg, LoopEvent(L.Event<Job, nat>.Release(Foreign(thread))));
    t := Next(t, cfg, LoopEvent(L.Event<Job, nat>.BeginCalling));
    t := Next(t, cfg, LoopEvent(L.Event<Job, nat>.SwapOut));
    assert t.loop.batch == [SendJob(C.Message(Foreign(thread), body))];
    s := Next(t, cfg, RunSend(C.Wrote(|body|)));
    assert body[..|body|] == body && s.conn.calls == [C.Write(body)];
    assert s.conn.calls[..0] == [] && C.Wire([]) == [];
  }

  /** The loop is dispatching and the connection established. */
  lemma Begun(cfg: C.Settings) returns (t: System)
    ensures Reached(t, cfg) && t.loop == L.New<Job, nat>().(pc := L.Dispatching)
    ensures t.conn == C.Idle().(phase := C.Connected, mask := t.conn.mask, established := true) && !t.conn.mask.write
  {
    assert Legal(Start(), cfg, []) && Exec(Start(), cfg, []) == Start();
    t := Next(Start(), cfg, LoopEvent(L.Event<Job, nat>.Enter));
    t := Next(t, cfg, LoopEvent(L.Event<Job, nat>.Test));
    t := Next(t, cfg, LoopEvent(L.Event<Job, nat>.PollReturns([])));
    t := Next(t, cfg, ConnEvent(C.Establish));
  }
}
