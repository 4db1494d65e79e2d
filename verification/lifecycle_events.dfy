/** The events of the running server that are not actions: poll, dispatch, functors, and user calls. */
module LifecycleEvents {
  import opened Threads
  import L = LoopSpec
  import P = PollerSpec
  import R = ServerSpec
  import C = ConnSpec
  import opened Lifecycle
  import opened LifecycleInv
  import opened LifecycleSteps
  import Epoller

  // ---- one loop moves ---------------------------------------------------------------------

  /** The loop's thread goes from lp to lq without touching a functor that names a connection. */
  ghost predicate Quiet(lp: L.Loop<Task, nat>, lq: L.Loop<Task, nat>) {
    && L.Inv(lq)
    && (lq.pc != L.Dispatching ==> lq.active == [])
    && (forall k :: k in Queue(lq) ==> k.UserTask? || k in Queue(lp))
  }

  lemma LoopMove(s: System, l: nat, lq: L.Loop<Task, nat>) returns (t: System)
    requires Frame(s) && l < |s.loops| && Quiet(s.loops[l], lq)
    requires s.todo[l] == [] || lq.pc == s.loops[l].pc
    requires forall c :: L.Fd(c) in lq.active ==> Live(s, l, c)
    ensures t == s.(loops := s.loops[l := lq]) && Frame(t)
  {
    hide L.Inv, Queue, RegistryOk, PollerOk, TaskOk, ActionOk, Live;
    t := s.(loops := s.loops[l := lq]);
    assert LoopOk(s, l);
    SameLive(s, t);
    forall k | k in Queue(t.loops[l]) ensures TaskOk(t, l, k) {
      if k.UserTask? { UserTaskOk(t, l, k); } else { TaskKept(s, t, l, k); }
    }
    forall a | a in t.todo[l] ensures ActionOk(t, l, a) {
      ActionKept(s, t, l, a);
    }
    LoopFrame(s, t, l, lq, t.todo[l]);
  }

  lemma UserTaskOk(s: System, l: nat, k: Task)
    requires k.UserTask?
    ensures TaskOk(s, l, k)
  {
  }

  // ---- the protocol's own events ----------------------------------------------------------

  /** Where the functors go when an event of the protocol other than RunNext happens. */
  lemma ProtocolQueue(lp: L.Loop<Task, nat>, e: L.Event<Task, nat>)
    requires L.Inv(lp) && L.Enabled(lp, e) && !e.RunNext?
    ensures Queue(L.Apply(lp, e)) == Queue(lp) + if e.Push? then [e.f] else []
  {
    NilLeft(lp.pending);
    NilLeft(Queue(lp));
    if e.Push? {
      assert lp.batch + (lp.pending + [e.f]) == lp.batch + lp.pending + [e.f];
    }
  }

  lemma AppendUser(q: seq<Task>, more: seq<Task>, d: nat)
    requires forall k :: k in more ==> k.UserTask?
    ensures SameFor(q, q + more, d)
  {
    forall k | TaskNames(k, d) ensures Count(q + more, k) == Count(q, k) {
      CountAppend(q, more, k);
      assert k !in more;
    }
  }

  lemma ProtocolActive(lp: L.Loop<Task, nat>, e: L.Event<Task, nat>, h: nat)
    requires L.Enabled(lp, e)
    ensures L.Fd(h) in L.Apply(lp, e).active ==> L.Fd(h) in lp.active || (e.PollReturns? && L.Fd(h) in e.active)
  {
  }

  lemma InterestIsLive(s: System, l: nat, c: nat)
    requires Frame(s) && l < |s.loops| && InKernel(s.pollers[l], c)
    ensures Live(s, l, c) && LocalOf(s, c).index != P.New
  {
    hide LoopOk, RegistryOk, Queue, R.Registered;
    assert PollerOk(s, l);
    P.AgreementMeaning(s.pollers[l], c);
  }

  lemma PollOnly(s: System, l: nat, e: L.Event<Task, nat>)
    requires |s.loops| == |s.todo| == |s.pollers| && l < |s.loops| && LoopOk(s, l) && ProtocolAllowed(s, l, e)
    ensures L.Enabled(s.loops[l], e) && !e.RunNext? && (e.Push? ==> e.f.UserTask?)
    ensures e.PollReturns? ==> forall c :: L.Fd(c) in e.active ==> InKernel(s.pollers[l], c)
    ensures s.todo[l] != [] ==> L.Apply(s.loops[l], e).pc == s.loops[l].pc
  {
    hide L.Inv, Queue, TaskOk, ActionOk, Live;
  }

  lemma ProtocolFrame(s: System, l: nat, e: L.Event<Task, nat>) returns (t: System)
    requires Frame(s) && l < |s.loops| && ProtocolAllowed(s, l, e)
    ensures t == s.(loops := s.loops[l := L.Apply(s.loops[l], e)]) && Frame(t)
  {
    hide RegistryOk, PollerOk, TaskOk, ActionOk, Queue, L.Inv, Live, InKernel;
    PollOnly(s, l, e);
    var lp, lq := s.loops[l], L.Apply(s.loops[l], e);
    assert LoopOk(s, l);
    L.StepInv(lp, e);
    ProtocolQueue(lp, e);
    forall c | L.Fd(c) in lq.active ensures Live(s, l, c) {
      ProtocolActive(lp, e, c);
      if L.Fd(c) !in lp.active { InterestIsLive(s, l, c); }
    }
    t := LoopMove(s, l, lq);
  }

  /** Whatever poll reports is registered, so a flag it raises is in order. */
  lemma ActiveView(v: Local, w: Local)
    requires LocalOk(v) && w == v.(active := w.active) && (w.active ==> v.active || v.index != P.New)
    ensures LocalOk(w)
  {
  }

  lemma ProtocolLocal(s: System, t: System, l: nat, e: L.Event<Task, nat>, d: nat)
    requires Inv(s) && Frame(t) && l < |s.loops| && ProtocolAllowed(s, l, e) && d in s.conns
    requires t == s.(loops := s.loops[l := L.Apply(s.loops[l], e)])
    ensures LocalOk(LocalOf(t, d))
  {
    hide LoopOk, RegistryOk, PollerOk, Queue, L.Inv, L.Enabled, L.Apply, ProtocolAllowed, InKernel, LocalOk, LocalOf,
         SameFor;
    PollOnly(s, l, e);
    LoopInv(s, l);
    ProtocolQueue(s.loops[l], e);
    AppendUser(Queue(s.loops[l]), if e.Push? then [e.f] else [], d);
    NilLeft(Queue(s.loops[l]));
    var u := QueueLocals(s, l, t.loops[l], d);
    ActiveFlag(s, d);
    ProtocolActive(s.loops[l], e, d);
    if e.PollReturns? && L.Fd(d) in e.active { InterestIsLive(s, l, d); }
    ActiveView(LocalOf(s, d), LocalOf(t, d));
  }

  lemma ProtocolStep(s: System, l: nat, e: L.Event<Task, nat>) returns (t: System)
    requires Inv(s) && l < |s.loops| && ProtocolAllowed(s, l, e)
    ensures t == s.(loops := s.loops[l := L.Apply(s.loops[l], e)]) && Inv(t)
  {
    hide RegistryOk, LoopOk, PollerOk, ProtocolAllowed, LocalOk, LocalOf;
    t := ProtocolFrame(s, l, e);
    forall d | d in t.conns ensures LocalOk(LocalOf(t, d)) {
      ProtocolLocal(s, t, l, e, d);
    }
  }

  // ---- starting a handler or a functor ----------------------------------------------------

  lemma IdleActions(d: nat)
    ensures SameActions([], [UserFree], d)
  {
    forall a | ActionNames(a, d) ensures Count([UserFree], a) == 0 && a !in [UserFree] {
    }
  }

  /** An idle thread about to do something looks to every connection like an idle thread. */
  lemma Begin(s: System, l: nat) returns (t: System)
    requires Frame(s) && l < |s.loops| && s.todo[l] == []
    requires s.loops[l].pc == L.Dispatching || s.loops[l].pc == L.Running
    ensures t == WithTodo(s, l, [UserFree]) && Frame(t) && t.conns == s.conns
    ensures forall d :: d in s.conns ==> LocalOf(t, d) == LocalOf(s, d)
  {
    hide L.Inv, Queue, RegistryOk, PollerOk, TaskOk, Live, LocalOf, SameActions;
    t := WithTodo(s, l, [UserFree]);
    assert LoopOk(s, l);
    forall k | k in Queue(t.loops[l]) ensures TaskOk(t, l, k) {
      TaskKept(s, t, l, k);
    }
    SameLive(s, t);
    LoopFrame(s, t, l, t.loops[l], t.todo[l]);
    forall d | d in s.conns ensures LocalOf(t, d) == LocalOf(s, d) {
      IdleActions(d);
      var u := TodoLocals(s, l, [UserFree], d);
    }
  }

  /** The idle thread of loop l starts on `acts`, all about connection c. */
  lemma Fill(s: System, l: nat, acts: seq<Action>, c: nat) returns (t: System)
    requires Frame(s) && l < |s.loops| && s.todo[l] == []
    requires s.loops[l].pc == L.Dispatching || s.loops[l].pc == L.Running
    requires StoresFirst(acts) && forall a :: a in acts ==> ActionOk(s, l, a) && !a.UserFree? && a.c == c
    ensures t == WithTodo(s, l, acts) && Frame(t) && OnlyTouches(s, t, c)
    ensures c in s.conns ==> TodoChange(LocalOf(s, c), LocalOf(t, c), l, UserFree, acts, c)
  {
    hide RegistryOk, LoopOk, PollerOk, ActionOk, LocalOf, TodoChange;
    var s1 := Begin(s, l);
    forall a | a in acts ensures ActionOk(s1, l, a) {
      ActionKept(s, s1, l, a);
    }
    t := TodoStep(s1, l, acts, c);
    NilLeft(acts);
    assert s1.todo[l][1..] == [];
  }

  // ---- dispatch ---------------------------------------------------------------------------

  predicate IsHandler(a: Action) {
    a.CloseBegin? || a.User? || a.WriteEvent?
  }

  lemma {:induction false} HandlersOf(c: nat, calls: seq<Epoller.Callback>, read: ReadKind)
    ensures forall a :: a in HandlerActions(c, calls, read) ==> IsHandler(a) && a.c == c
    decreases |calls|
  {
    if calls != [] { HandlersOf(c, calls[1..], read); }
  }

  /**
   What a dispatch leads to: a close if the close callback is made, or a read that finds the end of the
   stream; the user's message callback if a read finds data; and a write exactly if asked for.
   */
  lemma {:induction false} HandlersMeaning(c: nat, calls: seq<Epoller.Callback>, read: ReadKind)
    ensures var acts := HandlerActions(c, calls, read);
            && (CloseBegin(c) in acts <==> Epoller.CloseCallback in calls || (Epoller.ReadCallback in calls && read == GotEnd))
            && (User(c) in acts <==> Epoller.ReadCallback in calls && read == GotData)
            && (WriteEvent(c) in acts <==> Epoller.WriteCallback in calls)
    decreases |calls|
  {
    if calls != [] {
      HandlersMeaning(c, calls[1..], read);
      assert calls == [calls[0]] + calls[1..];
    }
  }

  /** An active, hence registered, connection may get any handler run. */
  lemma HandleView(v: Local, v1: Local, w: Local, l: nat, acts: seq<Action>, c: nat)
    requires LocalOk(v) && v.active && v1 == v.(active := v1.active)
    requires l == v.conn.loop && TodoChange(v1, w, l, UserFree, acts, c)
    requires forall a :: a in acts ==> IsHandler(a)
    ensures LocalOk(w)
  {
    CountNone(acts, Up(c));
    CountNone(acts, QueueEstablish(c));
  }

  lemma CountNone<T>(s: seq<T>, x: T)
    requires x !in s
    ensures Count(s, x) == 0
  {
  }

  lemma NextHandler(s: System, l: nat) returns (t: System, c: nat)
    requires Frame(s) && l < |s.loops| && L.Enabled(s.loops[l], L.Event<Task, nat>.HandleNext)
    requires s.loops[l].active[0].Fd?
    ensures t == s.(loops := s.loops[l := L.Apply(s.loops[l], L.Event<Task, nat>.HandleNext)]) && Frame(t)
    ensures c == s.loops[l].active[0].h && Live(s, l, c) && LocalOf(s, c).active && LocalOf(s, c).conn.loop == l
    ensures t.loops[l].pc == L.Dispatching
  {
    hide RegistryOk, PollerOk, TaskOk, ActionOk, Queue, L.Inv, R.Registered;
    var lp, lq := s.loops[l], L.Apply(s.loops[l], L.Event<Task, nat>.HandleNext);
    assert LoopOk(s, l);
    L.StepInv(lp, L.Event<Task, nat>.HandleNext);
    ProtocolQueue(lp, L.Event<Task, nat>.HandleNext);
    NilLeft(Queue(lp));
    c := lp.active[0].h;
    assert L.Fd(c) in lp.active;
    ActiveFlag(s, c);
    t := LoopMove(s, l, lq);
  }

  lemma NextHandlerLocal(s: System, t: System, l: nat, d: nat)
    requires Frame(s) && Frame(t) && l < |s.loops| && L.Enabled(s.loops[l], L.Event<Task, nat>.HandleNext)
    requires d in s.conns
    requires t == s.(loops := s.loops[l := L.Apply(s.loops[l], L.Event<Task, nat>.HandleNext)])
    ensures LocalOf(t, d) == LocalOf(s, d).(active := LocalOf(t, d).active)
    ensures LocalOf(t, d).active ==> LocalOf(s, d).active
  {
    hide LoopOk, RegistryOk, PollerOk, Queue, LocalOf, SameFor, L.Inv;
    LoopInv(s, l);
    ProtocolQueue(s.loops[l], L.Event<Task, nat>.HandleNext);
    NilLeft(Queue(s.loops[l]));
    AppendUser(Queue(s.loops[l]), [], d);
    var u := QueueLocals(s, l, t.loops[l], d);
    ActiveFlag(s, d);
  }

  /** Handlers queued up for a live connection are where they belong. */
  lemma HandlersPlaced(s: System, l: nat, c: nat, acts: seq<Action>)
    requires l < |s.loops| && Live(s, l, c) && s.loops[l].pc == L.Dispatching
    requires forall a :: a in acts ==> IsHandler(a) && a.c == c
    ensures forall a :: a in acts ==> ActionOk(s, l, a)
  {
  }

  lemma DispatchStep(s: System, l: nat, acts: seq<Action>) returns (t: System)
    requires Inv(s) && l < |s.loops| && s.todo[l] == [] && L.Enabled(s.loops[l], L.Event<Task, nat>.HandleNext)
    requires s.loops[l].active[0].Fd? && forall a :: a in acts ==> IsHandler(a) && a.c == s.loops[l].active[0].h
    ensures t == WithTodo(s.(loops := s.loops[l := L.Apply(s.loops[l], L.Event<Task, nat>.HandleNext)]), l, acts) && Inv(t)
  {
    hide RegistryOk, LoopOk, PollerOk, ActionOk, LocalOf, LocalOk, TodoChange, L.Enabled, L.Apply;
    var s1, c := NextHandler(s, l);
    assert Live(s1, l, c);
    HandlersPlaced(s1, l, c, acts);
    t := Fill(s1, l, acts, c);
    forall d | d in t.conns ensures LocalOk(LocalOf(t, d)) {
      NextHandlerLocal(s, s1, l, d);
      if d == c { HandleView(LocalOf(s, c), LocalOf(s1, c), LocalOf(t, c), l, acts, c); }
      else { ActiveView(LocalOf(s, d), LocalOf(s1, d)); }
    }
  }

  // ---- functors ---------------------------------------------------------------------------

  /** The functor that is run has left the queue. */
  ghost predicate TaskGone(v: Local, w: Local, k: Task, c: nat) {
    && w.conn == v.conn && w.inMap == v.inMap && w.index == v.index && w.active == v.active && w.calling == v.calling
    && w.opening == v.opening && w.closing == v.closing && w.erasing == v.erasing && w.posting == v.posting
    && w.downing == v.downing && w.storing == v.storing && w.leaving == v.leaving && w.handling == v.handling
    && v.starts == w.starts + (if k == EstablishTask(c) then 1 else 0)
    && Moves(v.removing, w.removing, k == RemoveTask(c), false)
    && Moves(v.destroying, w.destroying, k == DestroyTask(c), false)
    && Moves(v.busy, w.busy, k == ForceCloseTask(c) || k == NoticeTask(c), false)
  }

  lemma HeadTokens(k: Task, r: seq<Task>, c: nat)
    ensures Count([k] + r, EstablishTask(c)) == Count(r, EstablishTask(c)) + if k == EstablishTask(c) then 1 else 0
    ensures RemoveTask(c) in [k] + r <==> k == RemoveTask(c) || RemoveTask(c) in r
    ensures DestroyTask(c) in [k] + r <==> k == DestroyTask(c) || DestroyTask(c) in r
    ensures ForceCloseTask(c) in [k] + r <==> k == ForceCloseTask(c) || ForceCloseTask(c) in r
    ensures NoticeTask(c) in [k] + r <==> k == NoticeTask(c) || NoticeTask(c) in r
  {
    CountAppend([k], r, EstablishTask(c));
  }

  lemma GoneView(v: Local, w: Local, q0: seq<Task>, q: seq<Task>, r0: seq<Task>, r: seq<Task>,
                 acts0: seq<Action>, acts: seq<Action>, l: nat, k: Task, c: nat)
    requires v == View(v.conn, v.inMap, v.index, v.active, v.calling, q0, q, acts0, acts, c)
    requires w == View(v.conn, v.inMap, v.index, v.active, v.calling, r0, r, acts0, acts, c)
    requires (l == 0 ==> q0 == [k] + r0) && (l != 0 ==> q0 == r0)
    requires (l == v.conn.loop ==> q == [k] + r) && (l != v.conn.loop ==> q == r)
    requires TaskNames(k, c) && l == if k.RemoveTask? then 0 else v.conn.loop
    ensures TaskGone(v, w, k, c)
  {
    hide Count, Closing, Erasing, Leaving, Busy;
    HeadTokens(k, r, c);
    HeadTokens(k, r0, c);
  }

  lemma NextTask(s: System, l: nat) returns (t: System, k: Task)
    requires Frame(s) && l < |s.loops| && L.Enabled(s.loops[l], L.Event<Task, nat>.RunNext)
    ensures t == s.(loops := s.loops[l := L.Apply(s.loops[l], L.Event<Task, nat>.RunNext)]) && Frame(t)
    ensures k == s.loops[l].batch[0] && TaskOk(s, l, k) && t.loops[l].pc == L.Running
    ensures t.loops[l].active == s.loops[l].active && Queue(s.loops[l]) == [k] + Queue(t.loops[l])
  {
    hide RegistryOk, PollerOk, TaskOk, ActionOk, L.Inv;
    var lp, lq := s.loops[l], L.Apply(s.loops[l], L.Event<Task, nat>.RunNext);
    assert LoopOk(s, l);
    L.StepInv(lp, L.Event<Task, nat>.RunNext);
    k := lp.batch[0];
    assert lp.batch + lp.pending == [k] + (lp.batch[1..] + lp.pending);
    assert k in Queue(lp);
    t := LoopMove(s, l, lq);
  }

  lemma HeadGone(k: Task, r: seq<Task>, d: nat)
    requires !TaskNames(k, d)
    ensures SameFor([k] + r, r, d)
  {
    forall x | TaskNames(x, d) ensures Count([k] + r, x) == Count(r, x) {
      CountAppend([k], r, x);
    }
  }

  lemma NextTaskOthers(s: System, t: System, l: nat, k: Task, d: nat)
    requires Frame(s) && Frame(t) && l < |s.loops| && d in s.conns && !TaskNames(k, d)
    requires |t.loops| == |s.loops| && t == s.(loops := s.loops[l := t.loops[l]])
    requires t.loops[l].active == s.loops[l].active && Queue(s.loops[l]) == [k] + Queue(t.loops[l])
    ensures LocalOf(t, d) == LocalOf(s, d)
  {
    hide LoopOk, RegistryOk, PollerOk, Queue, LocalOf, SameFor;
    HeadGone(k, Queue(t.loops[l]), d);
    var u := QueueLocals(s, l, t.loops[l], d);
    ActiveFlag(s, d);
  }

  lemma NextTaskOwn(s: System, t: System, l: nat, k: Task, c: nat)
    requires Frame(s) && Frame(t) && l < |s.loops| && c in s.conns && TaskNames(k, c) && TaskOk(s, l, k)
    requires |t.loops| == |s.loops| && t == s.(loops := s.loops[l := t.loops[l]])
    requires t.loops[l].active == s.loops[l].active && Queue(s.loops[l]) == [k] + Queue(t.loops[l])
    ensures TaskGone(LocalOf(s, c), LocalOf(t, c), k, c)
  {
    hide LoopOk, RegistryOk, PollerOk, Queue, R.Registered, TaskGone;
    var m := s.conns[c].loop;
    GoneView(LocalOf(s, c), LocalOf(t, c), Queue(s.loops[0]), Queue(s.loops[m]), Queue(t.loops[0]), Queue(t.loops[m]),
             s.todo[0], s.todo[m], l, k, c);
  }

  /** What the functor, once off the queue, has its connection go through. */
  lemma RunView(s: System, v: Local, v1: Local, w: Local, l: nat, k: Task, c: nat)
    requires LocalOk(v) && TaskNames(k, c) && TaskGone(v, v1, k, c)
    requires l == if k.RemoveTask? then 0 else v.conn.loop
    requires TodoChange(v1, w, l, UserFree, TaskActions(s, k), c)
    requires (k.EstablishTask? ==> v.starts > 0) && (k.RemoveTask? ==> v.removing) && (k.DestroyTask? ==> v.destroying)
    requires k.ForceCloseTask? || k.NoticeTask? ==> v.busy
    ensures LocalOk(w)
  {
    var acts := TaskActions(s, k);
    assert |acts| <= 1;
    OneAction(acts, Up(c));
    OneAction(acts, QueueEstablish(c));
  }

  lemma OneAction(acts: seq<Action>, a: Action)
    requires |acts| <= 1
    ensures Count(acts, a) == if acts == [a] then 1 else 0
  {
  }

  lemma QueuedView(v: Local, q0: seq<Task>, q: seq<Task>, acts0: seq<Action>, acts: seq<Action>, k: Task, c: nat)
    requires v == View(v.conn, v.inMap, v.index, v.active, v.calling, q0, q, acts0, acts, c) && TaskNames(k, c)
    requires k in if k.RemoveTask? then q0 else q
    ensures (k.EstablishTask? ==> v.starts > 0) && (k.RemoveTask? ==> v.removing) && (k.DestroyTask? ==> v.destroying)
    ensures k.ForceCloseTask? || k.NoticeTask? ==> v.busy
  {
  }

  lemma QueuedShows(s: System, l: nat, k: Task, c: nat)
    requires Sized(s) && l < |s.loops| && c in s.conns && TaskNames(k, c) && k in Queue(s.loops[l])
    requires l == if k.RemoveTask? then 0 else s.conns[c].loop
    ensures var v := LocalOf(s, c);
            && (k.EstablishTask? ==> v.starts > 0) && (k.RemoveTask? ==> v.removing) && (k.DestroyTask? ==> v.destroying)
            && (k.ForceCloseTask? || k.NoticeTask? ==> v.busy)
  {
    hide Queue, R.Registered;
    var m := s.conns[c].loop;
    QueuedView(LocalOf(s, c), Queue(s.loops[0]), Queue(s.loops[m]), s.todo[0], s.todo[m], k, c);
  }

  lemma FunctorPlaced(s: System, s1: System, l: nat, k: Task)
    requires l < |s.loops| == |s1.loops| && TaskOk(s, l, k) && s1.conns == s.conns && s1.loops[l].pc == L.Running
    ensures forall a :: a in TaskActions(s, k) ==> ActionOk(s1, l, a) && (k.UserTask? || (!a.UserFree? && a.c == k.c))
    ensures StoresFirst(TaskActions(s, k))
  {
  }

  /** A user functor that holds no connection. */
  lemma FreeFunctor(s: System, l: nat, id: nat) returns (t: System)
    requires Frame(s) && l < |s.loops| && s.todo[l] == [] && s.loops[l].pc == L.Running
    ensures t == WithTodo(s, l, TaskActions(s, UserTask(id))) && Frame(t) && t.conns == s.conns
    ensures forall d :: d in s.conns ==> LocalOf(t, d) == LocalOf(s, d)
  {
    hide Frame, LocalOf;
    t := Begin(s, l);
  }

  lemma RunUser(s: System, l: nat, k: Task) returns (t: System)
    requires Inv(s) && l < |s.loops| && s.todo[l] == [] && L.Enabled(s.loops[l], L.Event<Task, nat>.RunNext)
    requires k == s.loops[l].batch[0] && k.UserTask?
    ensures t == WithTodo(s.(loops := s.loops[l := L.Apply(s.loops[l], L.Event<Task, nat>.RunNext)]), l, TaskActions(s, k))
    ensures Inv(t)
  {
    hide RegistryOk, LoopOk, PollerOk, LocalOf, LocalOk, Queue, L.Enabled, L.Apply;
    var s1, k1 := NextTask(s, l);
    t := FreeFunctor(s1, l, k.id);
    forall d | d in t.conns ensures LocalOk(LocalOf(t, d)) {
      NextTaskOthers(s, s1, l, k, d);
    }
  }

  lemma RunNamed(s: System, l: nat, k: Task, c: nat) returns (t: System)
    requires Inv(s) && l < |s.loops| && s.todo[l] == [] && L.Enabled(s.loops[l], L.Event<Task, nat>.RunNext)
    requires k == s.loops[l].batch[0] && TaskNames(k, c)
    ensures t == WithTodo(s.(loops := s.loops[l := L.Apply(s.loops[l], L.Event<Task, nat>.RunNext)]), l, TaskActions(s, k))
    ensures Inv(t)
  {
    hide RegistryOk, LoopOk, PollerOk, LocalOf, LocalOk, Queue, L.Enabled, L.Apply, TaskActions, ActionOk, TaskGone,
         TodoChange;
    var s1, k1 := NextTask(s, l);
    assert k in Queue(s.loops[l]);
    QueuedShows(s, l, k, c);
    FunctorPlaced(s, s1, l, k);
    t := Fill(s1, l, TaskActions(s, k), c);
    NextTaskOwn(s, s1, l, k, c);
    ViewConn(s, c);
    RunView(s, LocalOf(s, c), LocalOf(s1, c), LocalOf(t, c), l, k, c);
    forall d | d in t.conns ensures LocalOk(LocalOf(t, d)) {
      if d != c { NextTaskOthers(s, s1, l, k, d); }
    }
  }

  // ---- the user's calls -------------------------------------------------------------------

  lemma MaskedStep(s: System, c: nat, mask: P.Mask) returns (t: System)
    requires Inv(s) && c in s.conns && s.conns[c].up && !s.conns[c].gone
    ensures t == WithMask(s, c, mask) && Inv(t)
  {
    hide RegistryOk, LoopOk, PollerOk, LocalOf, LocalOk, Owned, P.SetMask, OnlyTouches;
    t := MaskStep(s, c, mask);
    ViewConn(s, c);
    NotGoneOwned(LocalOf(s, c));
    OwnedMask(LocalOf(s, c), LocalOf(t, c));
    Concludes(s, t, c);
  }

  lemma NotGoneOwned(v: Local)
    requires LocalOk(v)
    ensures !v.conn.gone ==> Owned(v)
    ensures v.conn.phase == C.Connected ==> v.conn.up && !v.conn.gone
  {
  }

  lemma StoreView(v: Local, v1: Local, w: Local)
    requires LocalOk(v) && v.calling && w == v1.(conn := v.conn.(phase := C.Disconnecting)) && v1 == v.(calling := v1.calling)
    ensures LocalOk(w)
  {
  }

  lemma CallingView(v: Local, w: Local)
    requires LocalOk(v) && v.conn.up && w == v.(calling := w.calling)
    ensures LocalOk(w)
  {
  }

  lemma StoresFrame(s: System, stores: set<Store>, c: nat) returns (t: System)
    requires Frame(s) && c in s.conns && forall st :: st in stores ==> st in s.stores || st.c == c
    ensures t == s.(stores := stores) && Frame(t)
  {
    hide LoopOk, PollerOk, R.Faithful, R.Registered;
    t := s.(stores := stores);
    LoopsKept(s, t);
    PollersKept(s, t);
  }

  /** A caller on some other thread has come into, or out of, shutdown() of connection c. */
  lemma StoresStep(s: System, stores: set<Store>, c: nat) returns (t: System)
    requires Frame(s) && c in s.conns
    requires forall st: Store :: st.c != c ==> (st in stores <==> st in s.stores)
    ensures t == s.(stores := stores) && Frame(t) && OnlyTouches(s, t, c)
    ensures LocalOf(t, c) == LocalOf(s, c).(calling := LocalOf(t, c).calling)
  {
    hide LoopOk, PollerOk, RegistryOk, Queue, R.Registered;
    t := StoresFrame(s, stores, c);
    forall d | d in s.conns && d != c ensures Calling(stores, d) == Calling(s.stores, d) {
      SameCallers(s.stores, stores, c, d);
    }
  }

  lemma SameCallers(before: set<Store>, after: set<Store>, c: nat, d: nat)
    requires d != c && forall st: Store :: st.c != c ==> (st in after <==> st in before)
    ensures Calling(after, d) == Calling(before, d)
  {
    if Calling(before, d) { var st :| st in before && st.c == d; assert st in after; }
  }

  lemma LookStep(s: System, thread: nat, c: nat) returns (t: System)
    requires Inv(s) && c in s.conns && s.conns[c].phase == C.Connected
    ensures t == s.(stores := s.stores + {Store(thread, c)}) && Inv(t)
  {
    hide RegistryOk, LoopOk, PollerOk, LocalOf, LocalOk, OnlyTouches;
    t := StoresStep(s, s.stores + {Store(thread, c)}, c);
    ViewConn(s, c);
    NotGoneOwned(LocalOf(s, c));
    CallingView(LocalOf(s, c), LocalOf(t, c));
    Concludes(s, t, c);
  }

  lemma CallerShows(s: System, thread: nat, c: nat)
    requires Sized(s) && c in s.conns && Store(thread, c) in s.stores
    ensures LocalOf(s, c).calling
  {
    hide Queue, R.Registered, Count;
    var st := Store(thread, c);
    assert st in s.stores && st.c == c;
  }

  lemma WriteStateStep(s: System, thread: nat, c: nat) returns (t: System)
    requires Inv(s) && c in s.conns && Store(thread, c) in s.stores
    ensures t == WithConn(s.(stores := s.stores - {Store(thread, c)}), c, s.conns[c].(phase := C.Disconnecting)) && Inv(t)
  {
    hide RegistryOk, LoopOk, PollerOk, LocalOf, LocalOk, OnlyTouches;
    CallerShows(s, thread, c);
    ViewConn(s, c);
    var s1 := StoresStep(s, s.stores - {Store(thread, c)}, c);
    t := ConnStep(s1, c, s.conns[c].(phase := C.Disconnecting));
    Touches(s, s1, t, c);
    StoreView(LocalOf(s, c), LocalOf(s1, c), LocalOf(t, c));
    Concludes(s, t, c);
  }

  lemma FrontActions(todo: seq<Action>, c: nat)
    ensures forall d :: d != c ==> SameActions(todo, [ShutdownStore(c)] + todo, d)
  {
    forall d, a | d != c && ActionNames(a, d) ensures Count([ShutdownStore(c)] + todo, a) == Count(todo, a) {
      CountAppend([ShutdownStore(c)], todo, a);
      assert a !in [ShutdownStore(c)];
    }
  }

  lemma FrontView(v: Local, w: Local, q0: seq<Task>, q: seq<Task>, acts0: seq<Action>, r0: seq<Action>, acts: seq<Action>, c: nat)
    requires v == View(v.conn, v.inMap, v.index, v.active, v.calling, q0, q, acts0, acts, c)
    requires w == View(v.conn, v.inMap, v.index, v.active, v.calling, q0, q, r0, [ShutdownStore(c)] + acts, c)
    requires r0 == acts0 || r0 == [ShutdownStore(c)] + acts0
    ensures w == v.(busy := true)
  {
    CountAppend([ShutdownStore(c)], acts, Up(c));
    CountAppend([ShutdownStore(c)], acts0, QueueEstablish(c));
  }

  lemma FrontLoop(s: System, l: nat, c: nat) returns (t: System)
    requires Frame(s) && InUser(s, l) && Live(s, l, c)
    ensures t == WithTodo(s, l, [ShutdownStore(c)] + s.todo[l]) && Frame(t)
  {
    hide L.Inv, Queue, RegistryOk, PollerOk, TaskOk;
    t := WithTodo(s, l, [ShutdownStore(c)] + s.todo[l]);
    assert LoopOk(s, l);
    forall k | k in Queue(t.loops[l]) ensures TaskOk(t, l, k) {
      TaskKept(s, t, l, k);
    }
    LoopFrame(s, t, l, t.loops[l], t.todo[l]);
  }

  lemma BusyNow(v: Local, w: Local)
    requires LocalOk(v) && v.conn.up && w == v.(busy := true)
    ensures LocalOk(w)
  {
  }

  /** shutdown() called by the loop's own thread: its store comes before anything else that thread does. */
  lemma OwnLookStep(s: System, l: nat, c: nat) returns (t: System)
    requires Inv(s) && InUser(s, l) && Live(s, l, c) && s.conns[c].phase == C.Connected
    ensures t == WithTodo(s, l, [ShutdownStore(c)] + s.todo[l]) && Inv(t)
  {
    hide RegistryOk, LoopOk, PollerOk, LocalOk, Queue, R.Registered, SameActions, Count, Closing, Erasing, Leaving,
         Busy, InUser;
    t := FrontLoop(s, l, c);
    var m := s.conns[c].loop;
    FrontView(LocalOf(s, c), LocalOf(t, c), Queue(s.loops[0]), Queue(s.loops[m]), s.todo[0], t.todo[0], s.todo[m], c);
    NotGoneOwned(LocalOf(s, c));
    BusyNow(LocalOf(s, c), LocalOf(t, c));
    FrontActions(s.todo[l], c);
    forall d | d in t.conns ensures LocalOk(LocalOf(t, d)) {
      if d != c { var u := TodoLocals(s, l, [ShutdownStore(c)] + s.todo[l], d); }
    }
  }

  lemma BusyView(v: Local, w: Local, l: nat, k: Task, c: nat)
    requires LocalOk(v) && v.conn.up && (k == ForceCloseTask(c) || k == NoticeTask(c))
    requires PushChange(v, w, l, k, c)
    ensures LocalOk(w)
  {
  }

  lemma BusyStep(s: System, who: Who, k: Task, c: nat) returns (t: System)
    requires Inv(s) && c in s.conns && s.conns[c].up && (k == ForceCloseTask(c) || k == NoticeTask(c))
    requires L.Enabled(s.loops[s.conns[c].loop], L.Event<Task, nat>.Push(who, k))
    ensures t == PushOn(s, s.conns[c].loop, who, k) && Inv(t)
  {
    hide RegistryOk, LoopOk, PollerOk, LocalOf, LocalOk, OnlyTouches, PushChange, L.Enabled;
    t := PushStep(s, s.conns[c].loop, who, k, c);
    ViewConn(s, c);
    BusyView(LocalOf(s, c), LocalOf(t, c), s.conns[c].loop, k, c);
    Concludes(s, t, c);
  }
}
