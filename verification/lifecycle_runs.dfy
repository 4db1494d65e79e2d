/** What holds over every run of the server, whatever the interleaving of its loops and other threads. */
module LifecycleRuns {
  import opened Threads
  import L = LoopSpec
  import P = PollerSpec
  import R = ServerSpec
  import C = ConnSpec
  import Naming
  import opened Lifecycle
  import opened LifecycleInv
  import opened LifecycleSteps
  import opened LifecycleEvents
  import opened LifecycleAdmission
  import Epoller

  lemma InvSized(s: System)
    requires Inv(s)
    ensures Sized(s) && |s.loops| == |s.pollers| == |s.todo| > 0
  {
  }

  lemma StepKeepsInv(s: System, e: Event)
    requires Inv(s) && Enabled(s, e)
    ensures Inv(Apply(s, e))
  {
    hide Inv, Sized, ApplyAction, ActionEnabled, P.SetMask, R.Admit, P.Attach, P.Detach, TaskActions, HandlerActions,
         ProtocolAllowed, Unheld, Admits, Live, L.Apply, L.Enabled, PushOn, WithMask, WithConn, WithTodo;
    InvSized(s);
    var t;
    match e
    case Protocol(l, pe) => t := ProtocolStep(s, l, pe);
    case Dispatch(l, revents, read) => t := Dispatched(s, l, revents, read);
    case Run(l) => t := Ran(s, l);
    case Act(l, drained) =>
      assert AboutTo(s, l, s.todo[l][0]);
      ActionStep(s, l, s.todo[l][0], drained);
    case UserSend(l, c) =>
      Homed(s, l, c);
      t := MaskedStep(s, c, MaskOf(s, c).(write := true));
    case UserRead(l, c, on) =>
      Homed(s, l, c);
      t := MaskedStep(s, c, MaskOf(s, c).(read := on));
    case OwnShutdown(l, c) => t := OwnLookStep(s, l, c);
    case ShutdownLook(thread, c) => t := LookStep(s, thread, c);
    case ShutdownWrite(thread, c) => t := WriteStateStep(s, thread, c);
    case UserForceClose(who, c) => t := BusyStep(s, who, ForceCloseTask(c), c);
    case Notify(c) => t := BusyStep(s, Owner, NoticeTask(c), c);
    case Admit(fd) => t := AdmitStep(s, fd);
    case Drop(c) => t := DropStep(s, c);
  }

  lemma Homed(s: System, l: nat, c: nat)
    requires Inv(s) && Live(s, l, c)
    ensures c in s.conns && s.conns[c].loop < |s.pollers| && c in s.pollers[s.conns[c].loop].chans
    ensures s.conns[c].phase == C.Connected ==> s.conns[c].up && !s.conns[c].gone
  {
    hide LocalOk, LocalOf, LoopOk, PollerOk, RegistryOk;
    ViewConn(s, c);
    NotGoneOwned(LocalOf(s, c));
  }

  lemma Dispatched(s: System, l: nat, revents: Epoller.Revents, read: ReadKind) returns (t: System)
    requires Inv(s) && Enabled(s, Event.Dispatch(l, revents, read))
    ensures t == Apply(s, Event.Dispatch(l, revents, read)) && Inv(t)
  {
    hide Inv, L.Apply, HandlerActions, Epoller.Callbacks;
    var acts := HandlerActions(s.loops[l].active[0].h, Epoller.Callbacks(revents), read);
    HandlersOf(s.loops[l].active[0].h, Epoller.Callbacks(revents), read);
    t := DispatchStep(s, l, acts);
  }

  lemma Ran(s: System, l: nat) returns (t: System)
    requires Inv(s) && Enabled(s, Event.Run(l))
    ensures t == Apply(s, Event.Run(l)) && Inv(t)
  {
    hide Inv, TaskActions, L.Apply;
    var k := s.loops[l].batch[0];
    if k.UserTask? { t := RunUser(s, l, k); } else { t := RunNamed(s, l, k, k.c); }
  }

  // ---- runs -------------------------------------------------------------------------------

  /** A server whose loops run and which has accepted nobody yet; user functors may be waiting. */
  ghost predicate Started(s: System) {
    && |s.loops| == |s.pollers| == |s.todo| > 0
    && s.registry == R.Open(s.registry.name, |s.loops| - 1)
    && s.conns == map[] && s.stores == {}
    && (forall l :: 0 <= l < |s.loops| ==> IdleLoop(s.loops[l]) && s.todo[l] == [])
    && (forall l :: 0 <= l < |s.loops| ==> s.pollers[l] == P.Poller(map[], map[], map[], 0))
  }

  /** loop() has been entered without work asleep in its queue. */
  ghost predicate IdleLoop(lp: L.Loop<Task, nat>) {
    L.Inv(lp) && lp.pc == L.Check && lp.active == [] && forall k :: k in Queue(lp) ==> k.UserTask?
  }

  /** Servers start with any number of loops, and with functors already waiting on them. */
  lemma ServersStart(name: string, threads: nat, waiting: L.Loop<Task, nat>) returns (s: System)
    requires IdleLoop(waiting)
    ensures Started(s) && |s.loops| == threads + 1 && s.registry.name == name
    ensures forall l :: 0 <= l < |s.loops| ==> s.loops[l] == waiting
  {
    s := System(R.Open(name, threads), seq(threads + 1, _ => waiting), seq(threads + 1, _ => P.Poller(map[], map[], map[], 0)),
                seq(threads + 1, _ => []), {}, map[]);
  }

  lemma OpenRegistry(s: System)
    requires Started(s)
    ensures RegistryOk(s)
  {
    hide IdleLoop, Naming.ConnName, Naming.Fits;
  }

  lemma StartedLoop(s: System, l: nat)
    requires Started(s) && l < |s.loops|
    ensures LoopOk(s, l)
  {
    hide L.Inv, Queue;
    forall k | k in Queue(s.loops[l]) ensures TaskOk(s, l, k) {
      UserTaskOk(s, l, k);
    }
  }

  lemma StartedPoller(s: System, l: nat)
    requires Started(s) && l < |s.loops|
    ensures PollerOk(s, l)
  {
    hide IdleLoop;
  }

  lemma StartedInv(s: System)
    requires Started(s)
    ensures Inv(s)
  {
    hide RegistryOk, LoopOk, PollerOk, LocalOk, IdleLoop;
    OpenRegistry(s);
    forall l | 0 <= l < |s.loops| ensures LoopOk(s, l) && PollerOk(s, l) {
      StartedLoop(s, l);
      StartedPoller(s, l);
    }
  }

  ghost predicate Legal(s: System, es: seq<Event>)
    decreases |es|
  {
    es == [] || (Sized(s) && Enabled(s, es[0]) && Legal(Apply(s, es[0]), es[1..]))
  }

  ghost function Exec(s: System, es: seq<Event>): System
    requires Legal(s, es)
    decreases |es|
  {
    if es == [] then s else Exec(Apply(s, es[0]), es[1..])
  }

  lemma {:induction false} RunKeepsInv(s: System, es: seq<Event>)
    requires Inv(s) && Legal(s, es)
    ensures Inv(Exec(s, es))
    decreases |es|
  {
    hide Inv, Sized, Enabled, Apply;
    if es != [] {
      StepKeepsInv(s, es[0]);
      RunKeepsInv(Apply(s, es[0]), es[1..]);
    }
  }

  /** Some run of a freshly started server leads to s. */
  ghost predicate Reachable(s: System) {
    exists s0, es :: Started(s0) && Legal(s0, es) && Exec(s0, es) == s
  }

  lemma ReachableInv(s: System)
    requires Reachable(s)
    ensures Inv(s)
  {
    hide Inv, Started, Legal, Exec;
    var s0, es :| Started(s0) && Legal(s0, es) && Exec(s0, es) == s;
    StartedInv(s0);
    RunKeepsInv(s0, es);
  }

  lemma {:induction false} ExecSnoc(s: System, es: seq<Event>, e: Event)
    requires Legal(s, es) && Sized(Exec(s, es)) && Enabled(Exec(s, es), e)
    ensures Legal(s, es + [e]) && Exec(s, es + [e]) == Apply(Exec(s, es), e)
    decreases |es|
  {
    hide Enabled, Apply, Sized;
    if es == [] {
      assert (es + [e])[0] == e && (es + [e])[1..] == [];
      assert Legal(Apply(s, e), []) && Exec(Apply(s, e), []) == Apply(s, e);
    } else {
      ExecSnoc(Apply(s, es[0]), es[1..], e);
      assert (es + [e])[0] == es[0] && (es + [e])[1..] == es[1..] + [e];
    }
  }

  lemma Next(s: System, e: Event) returns (t: System)
    requires Reachable(s) && Sized(s) && Enabled(s, e)
    ensures t == Apply(s, e) && Reachable(t)
  {
    hide Started, Legal, Exec, Enabled, Apply, Sized;
    t := Apply(s, e);
    var s0, es :| Started(s0) && Legal(s0, es) && Exec(s0, es) == s;
    ExecSnoc(s0, es, e);
    assert Started(s0) && Legal(s0, es + [e]) && Exec(s0, es + [e]) == t;
  }
}
