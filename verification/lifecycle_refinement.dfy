/**
 The lifecycle keeps of a connection only its phase and its interest set. This module shows that
 nothing is missed by that: whatever a connection of ConnSpec does on its loop's thread, at a point
 where the program does it, is one event of the lifecycle, or none, with the same phase and interest.
 */
module LifecycleRefinement {
  import P = PollerSpec
  import opened Bytes
  import opened Threads
  import C = ConnSpec
  import opened Lifecycle
  import opened LifecycleInv
  import opened LifecycleSteps
  import opened LifecycleRuns

  /** What a step shows the lifecycle of a connection. */
  ghost predicate Matches(s: System, c: nat, x: C.Conn) {
    && c in s.conns && s.conns[c].loop < |s.pollers| && c in s.pollers[s.conns[c].loop].chans
    && s.conns[c].phase == x.phase && s.conns[c].up == x.established && MaskOf(s, c) == x.mask
  }

  /** Loop l's thread is where the program takes the step: in the handler or functor concerned, or in user code. */
  ghost predicate AtStep(s: System, l: nat, c: nat, e: C.Step) {
    && l < |s.todo| && s.todo[l] != [] && Live(s, l, c)
    && match e
       case Establish => s.todo[l][0] == Up(c)
       case HandleWrite(_) => s.todo[l][0] == WriteEvent(c)
       case CloseMask => s.todo[l][0] == CloseBegin(c)
       case Destroy => s.todo[l][0] == DownStore(c)
       case Send(_, _) => InUser(s, l)
       case Shutdown => InUser(s, l)
       case StartRead => InUser(s, l) && s.conns[c].up && !s.conns[c].gone
       case StopRead => InUser(s, l) && s.conns[c].up && !s.conns[c].gone
       case _ => false
  }

  /** The lifecycle's name for the step; a step that changes neither phase nor interest has none. */
  ghost function EventOf(l: nat, c: nat, x: C.Conn, y: C.Conn, e: C.Step): seq<Event> {
    match e
    case Send(_, _) => if y.mask == x.mask then [] else [UserSend(l, c)]
    case Shutdown => if x.phase == C.Connected then [OwnShutdown(l, c), Act(l, false)] else []
    case StartRead => if y.mask == x.mask then [] else [UserRead(l, c, true)]
    case StopRead => if y.mask == x.mask then [] else [UserRead(l, c, false)]
    case HandleWrite(_) => [Act(l, y.mask != x.mask)]
    case _ => [Act(l, false)]
  }

  lemma NewMask(s: System, c: nat, mask: P.Mask)
    requires Inv(s) && c in s.conns && s.conns[c].loop < |s.pollers| && c in s.pollers[s.conns[c].loop].chans
    ensures var t := WithMask(s, c, mask);
            && t.conns == s.conns && |t.pollers| == |s.pollers| && c in t.pollers[s.conns[c].loop].chans && MaskOf(t, c) == mask
  {
    hide RegistryOk, LoopOk, LocalOk, LocalOf, P.Agree, P.SetMask;
    assert PollerOk(s, s.conns[c].loop);
    P.SetMaskAgrees(s.pollers[s.conns[c].loop], c, mask);
  }

  lemma OneEvent(s: System, e: Event)
    requires Sized(s) && Enabled(s, e)
    ensures Legal(s, [e]) && Exec(s, [e]) == Apply(s, e)
  {
    hide Enabled, Apply, Sized;
    var es := [e];
    assert es[1..] == [] && Legal(Apply(s, e), []) && Exec(Apply(s, e), []) == Apply(s, e);
  }

  lemma BufferEffect(x: C.Conn, cfg: C.Settings, rest: seq<byte>)
    ensures var y := C.Buffer(x, cfg, rest);
            && y.phase == x.phase && y.established == x.established
            && (y.mask == x.mask || y.mask == x.mask.(write := true))
  {
  }

  lemma TwoEvents(s: System, e: Event, f: Event)
    requires Sized(s) && Enabled(s, e) && Sized(Apply(s, e)) && Enabled(Apply(s, e), f)
    ensures Legal(s, [e, f]) && Exec(s, [e, f]) == Apply(Apply(s, e), f)
  {
    hide Enabled, Apply, Sized;
    OneEvent(Apply(s, e), f);
    assert [e, f][1..] == [f];
  }

  lemma AcceptEffect(x: C.Conn, cfg: C.Settings, m: C.Message, k: C.WriteResult)
    requires k.Wrote? ==> k.n <= |m.body|
    ensures var y := C.AcceptMessage(x, cfg, m, k);
            && y.phase == x.phase && y.established == x.established
            && (y.mask == x.mask || (!x.mask.write && y.mask == x.mask.(write := true)))
  {
    hide C.Buffer;
    if !C.WritesDirectly(x) {
      BufferEffect(C.Accept(x, m), cfg, m.body);
    } else {
      var n := if k.Wrote? then k.n else 0;
      assert m.body[0..] == m.body && m.body[..0] == [];
      BufferEffect(C.Accept(C.Attempt(x, m.body[..n]), m), cfg, m.body[n..]);
    }
  }

  lemma DrainEffect(x: C.Conn, cfg: C.Settings, k: C.WriteResult)
    requires k.Wrote? ==> k.n <= |x.out|
    ensures var y := C.Drain(x, cfg, k);
            && y.phase == x.phase && y.established == x.established
            && (y.mask == x.mask || (x.mask.write && y.mask == x.mask.(write := false)))
  {
  }

  // ---- steps taken by user code -----------------------------------------------------------

  lemma SendIsCovered(s: System, l: nat, c: nat, x: C.Conn, cfg: C.Settings, e: C.Step) returns (es: seq<Event>)
    requires Inv(s) && Matches(s, c, x) && e.Send? && C.Enabled(x, e) && AtStep(s, l, c, e)
    ensures es == EventOf(l, c, x, C.Apply(x, cfg, e), e) && Legal(s, es) && Matches(Exec(s, es), c, C.Apply(x, cfg, e))
  {
    hide Inv, P.SetMask, C.AcceptMessage;
    InvSized(s);
    es := EventOf(l, c, x, C.Apply(x, cfg, e), e);
    if x.phase == C.Connected { AcceptEffect(x, cfg, C.Message(Owner, e.body), e.result); }
    if es != [] {
      NewMask(s, c, MaskOf(s, c).(write := true));
      OneEvent(s, UserSend(l, c));
    }
  }

  lemma ReadIsCovered(s: System, l: nat, c: nat, x: C.Conn, cfg: C.Settings, e: C.Step) returns (es: seq<Event>)
    requires Inv(s) && Matches(s, c, x) && (e.StartRead? || e.StopRead?) && AtStep(s, l, c, e)
    ensures es == EventOf(l, c, x, C.Apply(x, cfg, e), e) && Legal(s, es) && Matches(Exec(s, es), c, C.Apply(x, cfg, e))
  {
    hide Inv, P.SetMask;
    InvSized(s);
    es := EventOf(l, c, x, C.Apply(x, cfg, e), e);
    if es != [] {
      NewMask(s, c, MaskOf(s, c).(read := e.StartRead?));
      OneEvent(s, UserRead(l, c, e.StartRead?));
    }
  }

  lemma ShutdownIsCovered(s: System, l: nat, c: nat, x: C.Conn, cfg: C.Settings, e: C.Step) returns (es: seq<Event>)
    requires Inv(s) && Matches(s, c, x) && e.Shutdown? && AtStep(s, l, c, e)
    ensures es == EventOf(l, c, x, C.Apply(x, cfg, e), e) && Legal(s, es) && Matches(Exec(s, es), c, C.Apply(x, cfg, e))
  {
    hide Inv;
    InvSized(s);
    es := EventOf(l, c, x, C.Apply(x, cfg, e), e);
    if es != [] { TwoEvents(s, OwnShutdown(l, c), Act(l, false)); }
  }

  // ---- steps taken by handlers and functors -----------------------------------------------

  lemma HandlerIsCovered(s: System, l: nat, c: nat, x: C.Conn, cfg: C.Settings, e: C.Step) returns (es: seq<Event>)
    requires Inv(s) && Matches(s, c, x) && e.HandleWrite? && C.Enabled(x, e) && AtStep(s, l, c, e)
    ensures es == EventOf(l, c, x, C.Apply(x, cfg, e), e) && Legal(s, es) && Matches(Exec(s, es), c, C.Apply(x, cfg, e))
  {
    hide Inv, P.SetMask, C.Drain;
    InvSized(s);
    var y := C.Apply(x, cfg, e);
    es := EventOf(l, c, x, y, e);
    DrainEffect(x, cfg, e.result);
    NewMask(s, c, MaskOf(s, c).(write := false));
    OneEvent(s, Act(l, y.mask != x.mask));
  }

  lemma EstablishIsCovered(s: System, l: nat, c: nat, x: C.Conn, cfg: C.Settings) returns (es: seq<Event>)
    requires Inv(s) && Matches(s, c, x) && C.Enabled(x, C.Establish) && AtStep(s, l, c, C.Establish)
    ensures es == [Act(l, false)] && Legal(s, es) && Matches(Exec(s, es), c, C.Apply(x, cfg, C.Establish))
  {
    hide Inv, P.SetMask;
    InvSized(s);
    es := [Act(l, false)];
    NewMask(s, c, MaskOf(s, c).(read := true));
    OneEvent(s, Act(l, false));
  }

  lemma CloseIsCovered(s: System, l: nat, c: nat, x: C.Conn, cfg: C.Settings, e: C.Step) returns (es: seq<Event>)
    requires Inv(s) && Matches(s, c, x) && (e.CloseMask? || e.Destroy?) && AtStep(s, l, c, e)
    ensures es == [Act(l, false)] && Legal(s, es) && Matches(Exec(s, es), c, C.Apply(x, cfg, e))
  {
    hide Inv, P.SetMask;
    InvSized(s);
    es := [Act(l, false)];
    NewMask(s, c, P.NO_EVENT);
    OneEvent(s, Act(l, false));
  }

  /** Every loop-thread step of a connection is one lifecycle event, or invisible to it, with the same outcome. */
  lemma StepIsCovered(s: System, l: nat, c: nat, x: C.Conn, cfg: C.Settings, e: C.Step) returns (es: seq<Event>)
    requires Inv(s) && Matches(s, c, x) && C.Enabled(x, e) && AtStep(s, l, c, e)
    ensures es == EventOf(l, c, x, C.Apply(x, cfg, e), e) && Legal(s, es)
    ensures Inv(Exec(s, es)) && Matches(Exec(s, es), c, C.Apply(x, cfg, e))
  {
    hide Inv, C.Apply, Matches, Legal, Exec;
    match e {
      case Establish => es := EstablishIsCovered(s, l, c, x, cfg);
      case Send(_, _) => es := SendIsCovered(s, l, c, x, cfg, e);
      case HandleWrite(_) => es := HandlerIsCovered(s, l, c, x, cfg, e);
      case Shutdown => es := ShutdownIsCovered(s, l, c, x, cfg, e);
      case CloseMask => es := CloseIsCovered(s, l, c, x, cfg, e);
      case Destroy => es := CloseIsCovered(s, l, c, x, cfg, e);
      case StartRead => es := ReadIsCovered(s, l, c, x, cfg, e);
      case StopRead => es := ReadIsCovered(s, l, c, x, cfg, e);
    }
    RunKeepsInv(s, es);
  }

  /** The store of another thread's shutdown() is a step of the connection and an event of the lifecycle. */
  lemma StoreIsCovered(s: System, thread: nat, c: nat, x: C.Conn, cfg: C.Settings)
    requires Inv(s) && Matches(s, c, x) && C.Enabled(x, C.MarkDisconnecting) && Store(thread, c) in s.stores
    ensures Enabled(s, ShutdownWrite(thread, c))
    ensures Matches(Apply(s, ShutdownWrite(thread, c)), c, C.Apply(x, cfg, C.MarkDisconnecting))
  {
    hide Inv;
    InvSized(s);
  }
}
