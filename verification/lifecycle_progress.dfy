/**
 What the loops' own threads bring to an end by themselves. As long as no loop is told to quit, a close
 that has begun can be carried through by the next steps of the loops: the map entry is erased and the
 channel unregistered. No timeout is needed for it: a loop with work to do is woken.
 */
module LifecycleProgress {
  import opened Bytes
  import opened Threads
  import L = LoopSpec
  import P = PollerSpec
  import R = ServerSpec
  import C = ConnSpec
  import Epoller
  import Naming
  import opened Lifecycle
  import opened LifecycleInv
  import opened LifecycleSteps
  import opened LifecycleEvents
  import opened LifecycleRuns
  import opened LifecycleSafety

  /** A step of the loops' threads, or of a thread leaving a critical section; nobody calls anything. */
  predicate Unaided(e: Event) {
    match e
    case Protocol(_, pe) => !pe.Push? && !pe.SetQuit? && !pe.QuitWake?
    case Dispatch(_, _, _) => true
    case Run(_) => true
    case Act(_, _) => true
    case _ => false
  }

  ghost predicate Alive(s: System) {
    forall k :: 0 <= k < |s.loops| ==> !s.loops[k].quit && s.loops[k].pc != L.Stopped
  }

  ghost predicate Good(s: System) {
    Inv(s) && Alive(s)
  }

  /** The loops' own steps can lead from s to t. */
  ghost predicate Leads(s: System, t: System) {
    exists es :: Legal(s, es) && Exec(s, es) == t && forall e :: e in es ==> Unaided(e)
  }

  lemma {:induction false} LegalAppend(s: System, es: seq<Event>, more: seq<Event>)
    requires Legal(s, es) && Legal(Exec(s, es), more)
    ensures Legal(s, es + more) && Exec(s, es + more) == Exec(Exec(s, es), more)
    decreases |es|
  {
    hide Enabled, Apply, Sized;
    if es == [] {
      assert es + more == more;
    } else {
      LegalAppend(Apply(s, es[0]), es[1..], more);
      assert (es + more)[0] == es[0] && (es + more)[1..] == es[1..] + more;
    }
  }

  lemma Here(s: System)
    ensures Leads(s, s)
  {
    assert Legal(s, []) && Exec(s, []) == s;
  }

  lemma Onward(s: System, t: System, u: System)
    requires Leads(s, t) && Leads(t, u)
    ensures Leads(s, u)
  {
    hide Legal, Exec, Unaided;
    var es :| Legal(s, es) && Exec(s, es) == t && forall e :: e in es ==> Unaided(e);
    var more :| Legal(t, more) && Exec(t, more) == u && forall e :: e in more ==> Unaided(e);
    LegalAppend(s, es, more);
    assert forall e :: e in es + more ==> Unaided(e);
  }

  /** Nobody comes and nobody goes while the loops work on their own. */
  ghost predicate SameCast(s: System, t: System) {
    && |t.loops| == |s.loops| && t.conns.Keys == s.conns.Keys
    && forall c :: c in s.conns ==> c in t.conns && t.conns[c].loop == s.conns[c].loop
  }

  lemma ActCast(s: System, l: nat, a: Action, drained: bool)
    requires AboutTo(s, l, a)
    ensures SameCast(s, ApplyAction(s, l, drained))
  {
    hide Inv, Sized, P.SetMask, P.RemoveChannel, R.Registered, L.Apply, L.Enabled;
    Ready(s, l, a);
  }

  lemma ActQuits(s: System, l: nat, a: Action, drained: bool)
    requires AboutTo(s, l, a) && Alive(s)
    ensures Alive(ApplyAction(s, l, drained))
  {
    hide Inv, Sized, P.SetMask, P.RemoveChannel, R.Registered;
    Ready(s, l, a);
  }

  lemma StepCast(s: System, e: Event)
    requires Good(s) && Enabled(s, e) && Unaided(e)
    ensures SameCast(s, Apply(s, e)) && Alive(Apply(s, e))
  {
    hide Inv, Sized, ApplyAction, ActionEnabled, TaskActions, HandlerActions;
    InvSized(s);
    match e
    case Act(l, drained) =>
      assert AboutTo(s, l, s.todo[l][0]);
      ActCast(s, l, s.todo[l][0], drained);
      ActQuits(s, l, s.todo[l][0], drained);
    case _ =>
  }

  lemma One(s: System, e: Event) returns (t: System)
    requires Good(s) && Sized(s) && Enabled(s, e) && Unaided(e)
    ensures t == Apply(s, e) && Good(t) && Sized(t) && Leads(s, t) && SameCast(s, t)
  {
    hide Inv, Sized, Enabled, Apply, Unaided, SameCast, Alive;
    t := Apply(s, e);
    StepKeepsInv(s, e);
    StepCast(s, e);
    InvSized(t);
    var es := [e];
    assert es[0] == e && es[1..] == [] && Legal(t, []) && Exec(t, []) == t;
    assert Legal(s, es) && Exec(s, es) == t;
  }

  // ---- one thread's work ------------------------------------------------------------------

  /** How many actions an action can still lead to on its own thread, itself included. */
  function Weight(a: Action): nat {
    match a
    case CloseBegin(_) => 5
    case CloseUser(_) => 4
    case CloseEnd(_) => 3
    case EraseEntry(_) => 2
    case Up(_) => 2
    case Down(_) => 4
    case DownStore(_) => 3
    case DownUser(_) => 2
    case _ => 1
  }

  function Weights(acts: seq<Action>): nat {
    if acts == [] then 0 else Weight(acts[0]) + Weights(acts[1..])
  }

  function NextActs(s: System, k: nat, a: Action): seq<Action> {
    match a
    case Up(c) => [User(c)]
    case CloseBegin(c) => [CloseUser(c)]
    case CloseUser(c) => [CloseEnd(c)]
    case CloseEnd(c) => if k == 0 then [EraseEntry(c)] else []
    case EraseEntry(c) => [QueueDestroy(c)]
    case Down(c) => if c in s.conns && s.conns[c].phase == C.Connected then [DownStore(c)] else [Unregister(c)]
    case DownStore(c) => [DownUser(c)]
    case DownUser(c) => [Unregister(c)]
    case _ => []
  }

  lemma {:induction false} WeightsAppend(a: seq<Action>, b: seq<Action>)
    ensures Weights(a + b) == Weights(a) + Weights(b)
  {
    if a == [] {
      assert a + b == b;
    } else {
      WeightsAppend(a[1..], b);
      assert (a + b)[0] == a[0] && (a + b)[1..] == a[1..] + b;
    }
  }

  lemma NextIsLighter(s: System, k: nat, a: Action)
    ensures Weights(NextActs(s, k, a)) < Weight(a)
  {
    var acts := NextActs(s, k, a);
    assert acts != [] ==> Weights(acts) == Weight(acts[0]) + Weights(acts[1..]) && acts[1..] == [];
  }

  /** Other loops and other threads go on queueing, but nothing that is queued goes away. */
  ghost predicate OnlyQueues(s: System, t: System) {
    && |t.loops| == |s.loops| && |t.todo| == |s.todo|
    && forall j :: 0 <= j < |s.loops| ==> LoopQueues(s.loops[j], t.loops[j])
  }

  ghost predicate LoopQueues(lp: L.Loop<Task, nat>, lq: L.Loop<Task, nat>) {
    lq.pc == lp.pc && lq.active == lp.active && lq.batch == lp.batch && lp.pending <= lq.pending
  }

  lemma ActEffect(s: System, k: nat, a: Action)
    requires AboutTo(s, k, a)
    ensures var t := ApplyAction(s, k, false);
            && OnlyQueues(s, t) && k < |s.todo| && s.todo[k] != []
            && t.todo == s.todo[k := NextActs(s, k, a) + s.todo[k][1..]]
  {
    hide Inv, Sized, P.SetMask, P.RemoveChannel, R.Registered;
    Ready(s, k, a);
    NilLeft(s.todo[k][1..]);
  }

  /** The loop whose mutex loop k's thread needs next. */
  function Target(s: System, k: nat): nat
    requires k < |s.todo|
  {
    if s.todo[k] == [] then k
    else
      match s.todo[k][0]
      case QueueEstablish(c) => if c in s.conns then s.conns[c].loop else k
      case QueueDestroy(c) => if c in s.conns then s.conns[c].loop else k
      case CloseEnd(_) => 0
      case _ => k
  }

  predicate Locked(s: System, m: nat) {
    m < |s.loops| && s.loops[m].lock.Held?
  }

  function Locks(s: System, k: nat): nat
    requires k < |s.todo|
  {
    (if Locked(s, k) then 1 else 0) + (if Locked(s, Target(s, k)) then 1 else 0)
  }

  lemma TargetExists(s: System, k: nat)
    requires Inv(s) && k < |s.todo|
    ensures |s.todo| == |s.loops| && Target(s, k) < |s.loops|
  {
    hide RegistryOk, LoopOk, PollerOk, LocalOk, LocalOf;
  }

  /** Whoever holds the mutex leaves its critical section. */
  lemma ReleaseMove(s: System, m: nat) returns (t: System)
    requires Good(s) && Sized(s) && Locked(s, m)
    ensures Good(t) && Sized(t) && Leads(s, t) && SameCast(s, t) && OnlyQueues(s, t)
    ensures t.todo == s.todo && t.conns == s.conns && !Locked(t, m)
    ensures forall j :: j != m ==> Locked(t, j) == Locked(s, j)
    ensures t.registry == s.registry
  {
    hide Inv, Good, Leads, SameCast;
    var e := Protocol(m, L.Event<Task, nat>.Release(s.loops[m].lock.holder));
    t := One(s, e);
  }

  /** The head action of a thread can be done as soon as the mutexes are free. */
  lemma HeadEnabled(s: System, k: nat)
    requires Inv(s) && k < |s.todo| && s.todo[k] != [] && !Locked(s, k) && !Locked(s, Target(s, k))
    ensures AboutTo(s, k, s.todo[k][0])
  {
    hide RegistryOk, PollerOk, LocalOk, LocalOf, L.Inv, Queue, TaskOk, Live;
    assert LoopOk(s, k);
    InPlace(s, k, s.todo[k][0]);
  }

  lemma ActMove(s: System, k: nat) returns (t: System)
    requires Good(s) && Sized(s) && k < |s.todo| && s.todo[k] != [] && !Locked(s, k) && !Locked(s, Target(s, k))
    ensures AboutTo(s, k, s.todo[k][0]) && t == ApplyAction(s, k, false)
    ensures Good(t) && Sized(t) && Leads(s, t) && SameCast(s, t) && OnlyQueues(s, t)
    ensures t.todo == s.todo[k := NextActs(s, k, s.todo[k][0]) + s.todo[k][1..]]
  {
    hide Inv, Leads, SameCast, ApplyAction, OnlyQueues, Alive, ActionEnabled;
    HeadEnabled(s, k);
    ActEffect(s, k, s.todo[k][0]);
    t := One(s, Act(k, false));
  }

  /** A thread gets to any point of what it has left to do. */
  lemma {:induction false} WorkUpTo(s: System, k: nat, before: seq<Action>, rest: seq<Action>) returns (t: System)
    requires Good(s) && Sized(s) && k < |s.todo| && s.todo[k] == before + rest
    ensures Good(t) && Sized(t) && Leads(s, t) && SameCast(s, t) && OnlyQueues(s, t)
    ensures k < |t.todo| && t.todo[k] == rest && forall j :: 0 <= j < |s.todo| && j != k ==> t.todo[j] == s.todo[j]
    decreases Weights(before), Locks(s, k)
  {
    hide Inv, Good, Sized, Leads, SameCast, OnlyQueues, Locked;
    if before == [] {
      NilLeft(rest);
      Here(s);
      Unmoved(s);
      t := s;
    } else {
      var u := UnlockOrAct(s, k, before, rest);
      if Locked(s, k) || Locked(s, Target(s, k)) {
        t := WorkUpTo(u, k, before, rest);
      } else {
        WeightsAppend(NextActs(s, k, before[0]), before[1..]);
        NextIsLighter(s, k, before[0]);
        t := WorkUpTo(u, k, NextActs(s, k, before[0]) + before[1..], rest);
      }
      Onward(s, u, t);
      Further(s, u, t);
    }
  }

  lemma Unmoved(s: System)
    ensures SameCast(s, s) && OnlyQueues(s, s)
  {
  }

  lemma Further(s: System, t: System, u: System)
    requires SameCast(s, t) && SameCast(t, u) && OnlyQueues(s, t) && OnlyQueues(t, u)
    ensures SameCast(s, u) && OnlyQueues(s, u)
  {
  }

  /** The next step of a thread with work at hand. */
  lemma UnlockOrAct(s: System, k: nat, before: seq<Action>, rest: seq<Action>) returns (t: System)
    requires Good(s) && Sized(s) && k < |s.todo| && before != [] && s.todo[k] == before + rest
    ensures Good(t) && Sized(t) && Leads(s, t) && SameCast(s, t) && OnlyQueues(s, t) && |t.todo| == |s.todo|
    ensures forall j :: 0 <= j < |s.todo| && j != k ==> t.todo[j] == s.todo[j]
    ensures if Locked(s, k) || Locked(s, Target(s, k)) then t.todo[k] == s.todo[k] && Locks(t, k) < Locks(s, k)
            else t.todo[k] == (NextActs(s, k, before[0]) + before[1..]) + rest
  {
    hide Inv, Good, Leads, SameCast;
    if Locked(s, k) {
      t := ReleaseMove(s, k);
    } else if Locked(s, Target(s, k)) {
      t := ReleaseMove(s, Target(s, k));
    } else {
      t := ActMove(s, k);
      assert s.todo[k][0] == before[0] && s.todo[k][1..] == before[1..] + rest;
      Associative(NextActs(s, k, before[0]), before[1..], rest);
    }
  }

  // ---- one loop's progress ----------------------------------------------------------------

  predicate Idle(s: System, k: nat) {
    k < |s.todo| && s.todo[k] == [] && !Locked(s, k)
  }

  /** The thread finishes what it is doing, and its mutex is free. */
  lemma MakeIdle(s: System, k: nat) returns (t: System)
    requires Good(s) && Sized(s) && k < |s.todo|
    ensures Good(t) && Sized(t) && Leads(s, t) && SameCast(s, t) && OnlyQueues(s, t) && Idle(t, k)
  {
    hide Inv, Good, Sized, Leads, SameCast, OnlyQueues, Locked;
    NilLeft(s.todo[k]);
    t := WorkUpTo(s, k, s.todo[k], []);
    if Locked(t, k) {
      var u := ReleaseMove(t, k);
      Onward(s, t, u);
      Further(s, t, u);
      t := u;
    }
  }

  /** Where a functor stands in the queue. */
  function Position(q: seq<Task>, task: Task): nat
    requires task in q
  {
    if q[0] == task then 0 else 1 + Position(q[1..], task)
  }

  lemma {:induction false} PositionKept(q: seq<Task>, r: seq<Task>, task: Task)
    requires task in q && q <= r
    ensures task in r && Position(r, task) == Position(q, task)
  {
    if q[0] != task {
      PositionKept(q[1..], r[1..], task);
    }
  }

  /** How far the loop's program counter is from running the batch the functor is in. */
  function Stage(lp: L.Loop<Task, nat>, task: Task): nat {
    match lp.pc
    case Running => if task in lp.batch then 0 else 5
    case Calling => 1
    case Dispatching => 2
    case Polling => 3
    case Check => 4
    case _ => 6
  }

  /** The functor is the next to be run. */
  predicate Due(s: System, k: nat, task: Task) {
    Idle(s, k) && k < |s.loops| && s.loops[k].pc == L.Running && s.loops[k].batch != [] && s.loops[k].batch[0] == task
  }

  predicate Nearer(lp: L.Loop<Task, nat>, lq: L.Loop<Task, nat>, task: Task)
    requires task in Queue(lp) && task in Queue(lq)
  {
    var p, q := Position(Queue(lp), task), Position(Queue(lq), task);
    q < p || (q == p && (Stage(lq, task) < Stage(lp, task) || (Stage(lq, task) == Stage(lp, task) && |lq.active| < |lp.active|)))
  }

  /** The loop's next step, when it is not to run the functor itself. */
  function NextStep(lp: L.Loop<Task, nat>): L.Event<Task, nat> {
    match lp.pc
    case Check => L.Event<Task, nat>.Test
    case Polling => L.Event<Task, nat>.PollReturns([L.WakeFd])
    case Dispatching => if lp.active != [] then L.Event<Task, nat>.HandleNext else L.Event<Task, nat>.BeginCalling
    case Calling => L.Event<Task, nat>.SwapOut
    case _ => if lp.batch != [] then L.Event<Task, nat>.RunNext else L.Event<Task, nat>.EndCalling
  }

  lemma RunNearer(lp: L.Loop<Task, nat>, task: Task)
    requires lp.pc == L.Running && lp.batch != [] && lp.batch[0] != task && task in Queue(lp)
    requires L.Enabled(lp, L.Event<Task, nat>.RunNext)
    ensures var lq := L.Apply(lp, L.Event<Task, nat>.RunNext); task in Queue(lq) && Nearer(lp, lq, task)
  {
    var lq := L.Apply(lp, L.Event<Task, nat>.RunNext);
    assert Queue(lp) == [lp.batch[0]] + Queue(lq);
    assert Queue(lp)[1..] == Queue(lq);
  }

  lemma StepNearer(lp: L.Loop<Task, nat>, task: Task)
    requires L.Inv(lp) && task in Queue(lp) && lp.lock == L.Free && !lp.quit && lp.pc != L.Stopped
    requires lp.pc == L.Running && lp.batch != [] ==> lp.batch[0] != task
    ensures L.Enabled(lp, NextStep(lp))
    ensures var lq := L.Apply(lp, NextStep(lp)); task in Queue(lq) && Nearer(lp, lq, task)
  {
    hide Position;
    assert lp.pc == L.Polling ==> lp.pending != [] && lp.counter > 0;
    if NextStep(lp).RunNext? {
      RunNearer(lp, task);
    } else {
      ProtocolQueue(lp, NextStep(lp));
      NilLeft(Queue(lp));
    }
  }

  const NO_EVENTS := Epoller.Revents(false, false, false, false, false, false, false)

  /** The same step as an event of the whole system. */
  function StepEvent(lp: L.Loop<Task, nat>, k: nat): Event {
    var e := NextStep(lp);
    if e.RunNext? then Run(k)
    else if e.HandleNext? && lp.active[0].Fd? then Dispatch(k, NO_EVENTS, GotData)
    else Protocol(k, e)
  }

  lemma LoopMove1(s: System, k: nat, task: Task) returns (t: System)
    requires Good(s) && Sized(s) && Idle(s, k) && task in Queue(s.loops[k]) && !Due(s, k, task)
    ensures Good(t) && Sized(t) && Leads(s, t) && SameCast(s, t) && |t.loops| == |s.loops|
    ensures task in Queue(t.loops[k]) && Nearer(s.loops[k], t.loops[k], task)
  {
    hide Inv, Leads, SameCast, L.Apply, Queue, Nearer, L.Inv;
    InvFrame(s);
    LoopInv(s, k);
    StepNearer(s.loops[k], task);
    t := One(s, StepEvent(s.loops[k], k));
  }

  /** Whatever is queued on a loop comes to its turn. */
  lemma {:induction false} ComesToTurn(s: System, k: nat, task: Task) returns (t: System)
    requires Good(s) && Sized(s) && k < |s.loops| && task in Queue(s.loops[k])
    ensures Good(t) && Sized(t) && Leads(s, t) && SameCast(s, t) && Due(t, k, task)
    decreases Position(Queue(s.loops[k]), task), Stage(s.loops[k], task), |s.loops[k].active|
  {
    hide Inv, Good, Leads, SameCast, Position, Idle, Stage;
    var u := MakeIdle(s, k);
    QueueKept(s, u, k, task);
    if Due(u, k, task) {
      t := u;
    } else {
      var v := LoopMove1(u, k, task);
      t := ComesToTurn(v, k, task);
      Onward(u, v, t);
      CastOnward(u, v, t);
      Onward(s, u, t);
      CastOnward(s, u, t);
    }
  }

  lemma CastOnward(s: System, t: System, u: System)
    requires SameCast(s, t) && SameCast(t, u)
    ensures SameCast(s, u)
  {
  }

  lemma QueueKept(s: System, t: System, k: nat, task: Task)
    requires OnlyQueues(s, t) && k < |s.loops| && task in Queue(s.loops[k])
    ensures task in Queue(t.loops[k]) && Position(Queue(t.loops[k]), task) == Position(Queue(s.loops[k]), task)
    ensures Stage(t.loops[k], task) == Stage(s.loops[k], task) && t.loops[k].active == s.loops[k].active
  {
    hide Position;
    assert LoopQueues(s.loops[k], t.loops[k]);
    assert Queue(s.loops[k]) <= Queue(t.loops[k]);
    PositionKept(Queue(s.loops[k]), Queue(t.loops[k]), task);
  }

  // ---- carrying a removal through ---------------------------------------------------------

  /** Out of the map, destroyed, and unknown to its poller. */
  ghost predicate Removed(s: System, c: nat) {
    c in s.conns && !R.Registered(s.registry, c) && s.conns[c].gone && !InPoller(s, c)
  }

  /** A thread comes to an action it has to do, and can do it. */
  lemma ComesToAction(s: System, k: nat, a: Action) returns (t: System)
    requires Good(s) && Sized(s) && k < |s.todo| && a in s.todo[k]
    ensures Good(t) && Sized(t) && Leads(s, t) && SameCast(s, t) && k < |t.todo| && t.todo[k] != [] && t.todo[k][0] == a
    ensures !Locked(t, k) && !Locked(t, Target(t, k)) && t.conns.Keys == s.conns.Keys
  {
    hide Inv, Good, Sized, Leads, OnlyQueues, Locked;
    var i :| 0 <= i < |s.todo[k]| && s.todo[k][i] == a;
    assert s.todo[k] == s.todo[k][..i] + s.todo[k][i..];
    t := WorkUpTo(s, k, s.todo[k][..i], s.todo[k][i..]);
    t := Unlock(s, t, k);
    t := Unlock(s, t, Target(t, k));
  }

  lemma Unlock(s: System, t: System, m: nat) returns (u: System)
    requires Good(t) && Sized(t) && Leads(s, t) && SameCast(s, t)
    ensures Good(u) && Sized(u) && Leads(s, u) && SameCast(s, u) && !Locked(u, m) && u.todo == t.todo && u.conns == t.conns
    ensures forall j :: !Locked(t, j) ==> !Locked(u, j)
  {
    hide Inv, Good, Sized, Leads, SameCast, OnlyQueues, Locked;
    u := t;
    if Locked(t, m) {
      u := ReleaseMove(t, m);
      Onward(s, t, u);
      CastOnward(s, t, u);
    }
  }

  /** The action done, with what it leads to on its own thread. */
  lemma DoesAction(s: System, k: nat, a: Action) returns (b: System, t: System)
    requires Good(s) && Sized(s) && k < |s.todo| && a in s.todo[k]
    ensures Good(b) && Sized(b) && SameCast(s, b) && AboutTo(b, k, a) && t == ApplyAction(b, k, false)
    ensures Good(t) && Sized(t) && Leads(s, t) && SameCast(s, t) && k < |t.todo|
    ensures forall d :: d in NextActs(b, k, a) ==> d in t.todo[k]
  {
    hide Inv, Leads, SameCast, OnlyQueues, Locked, ApplyAction, Alive, AboutTo, ActionEnabled, NextActs;
    b := ComesToAction(s, k, a);
    t := ActMove(b, k);
    Onward(s, b, t);
    CastOnward(s, b, t);
  }

  /** The connections are where they were, and all their loops exist. */
  lemma Home(s: System, t: System, c: nat)
    requires Sized(t) && SameCast(s, t) && c in s.conns
    ensures c in t.conns && t.conns[c].loop == s.conns[c].loop && t.conns[c].loop < |t.loops| == |t.todo|
  {
  }

  lemma Homely(s: System, k: nat, a: Action)
    requires AboutTo(s, k, a) && !a.UserFree?
    ensures a.c in s.conns && k == if OnServerLoop(a) then 0 else s.conns[a.c].loop
  {
    hide Inv, LocalOf, LocalOk, ActionEnabled;
    AboutToMeans(s, k, a);
  }

  lemma UnregisterRemoves(s: System, m: nat, c: nat)
    requires AboutTo(s, m, Unregister(c))
    ensures var t := ApplyAction(s, m, false); c in t.conns && t.conns[c].gone && !InPoller(t, c)
  {
    hide Inv, P.RemoveChannel, P.Agree, P.HasChannel;
    Ready(s, m, Unregister(c));
    Homely(s, m, Unregister(c));
    PollerAgrees(s, s.conns[c].loop);
    P.RemoveChannelAgrees(s.pollers[s.conns[c].loop], c);
  }

  lemma PollerAgrees(s: System, l: nat)
    requires Inv(s) && l < |s.pollers|
    ensures P.Agree(s.pollers[l])
  {
    hide RegistryOk, LoopOk, LocalOk, LocalOf, P.Agree;
    assert PollerOk(s, l);
  }

  /** A connectDestroyed that is running comes to its end. */
  lemma {:induction false} FinishTeardown(s: System, m: nat, a: Action) returns (t: System)
    requires Good(s) && Sized(s) && m < |s.todo| && a in s.todo[m] && TearsDown(a)
    ensures Good(t) && Leads(s, t) && Removed(t, a.c)
    decreases Weight(a)
  {
    hide Inv, Sized, Leads, SameCast, Alive, AboutTo, ActionEnabled, ApplyAction, R.Registered, InPoller;
    var b, u := DoesAction(s, m, a);
    if a.Unregister? {
      UnregisterRemoves(b, m, a.c);
      GoneIsErased(u, a.c);
      t := u;
    } else {
      Homely(b, m, a);
      var next := if a.Down? then (if b.conns[a.c].phase == C.Connected then DownStore(a.c) else Unregister(a.c))
                  else if a.DownStore? then DownUser(a.c) else Unregister(a.c);
      assert next in NextActs(b, m, a);
      t := FinishTeardown(u, m, next);
      Onward(s, u, t);
    }
  }

  lemma RunsTask(s: System, k: nat, task: Task) returns (t: System)
    requires Good(s) && Sized(s) && k < |s.loops| && task in Queue(s.loops[k])
    ensures Good(t) && Sized(t) && Leads(s, t) && SameCast(s, t) && k < |t.todo|
    ensures task.DestroyTask? ==> t.todo[k] == [Down(task.c)]
    ensures task.RemoveTask? ==> t.todo[k] == [EraseEntry(task.c)]
    ensures task.EstablishTask? ==> t.todo[k] == [Up(task.c)]
  {
    hide Inv, Leads, SameCast, L.Apply, Queue, Alive;
    var u := ComesToTurn(s, k, task);
    t := One(u, Run(k));
    Onward(s, u, t);
    CastOnward(s, u, t);
  }

  lemma FinishDestroy(s: System, m: nat, c: nat) returns (t: System)
    requires Good(s) && Sized(s) && m < |s.loops| && DestroyTask(c) in Queue(s.loops[m])
    ensures Good(t) && Leads(s, t) && Removed(t, c)
  {
    hide Good, Sized, Leads, SameCast, Queue, Removed;
    var u := RunsTask(s, m, DestroyTask(c));
    t := FinishTeardown(u, m, Down(c));
    Onward(s, u, t);
  }

  lemma Queues(s: System, k: nat, a: Action)
    requires AboutTo(s, k, a)
    ensures var t := ApplyAction(s, k, false);
            && (a.QueueDestroy? ==> a.c in s.conns && s.conns[a.c].loop < |t.loops| && DestroyTask(a.c) in Queue(t.loops[s.conns[a.c].loop]))
            && (a.QueueEstablish? ==> a.c in s.conns && s.conns[a.c].loop < |t.loops| && EstablishTask(a.c) in Queue(t.loops[s.conns[a.c].loop]))
            && (a.CloseEnd? && k != 0 ==> 0 < |t.loops| && RemoveTask(a.c) in Queue(t.loops[0]))
  {
    hide Inv, Sized;
    Ready(s, k, a);
  }

  /** So does a removeConnectionInLoop. */
  lemma {:induction false} FinishErase(s: System, a: Action) returns (t: System)
    requires Good(s) && Sized(s) && 0 < |s.todo| && a in s.todo[0] && (a.EraseEntry? || a.QueueDestroy?)
    ensures Good(t) && Leads(s, t) && Removed(t, a.c)
    decreases Weight(a)
  {
    hide Inv, Sized, Leads, SameCast, Alive, AboutTo, ActionEnabled, ApplyAction, Removed, Queue;
    var b, u := DoesAction(s, 0, a);
    if a.EraseEntry? {
      assert QueueDestroy(a.c) in NextActs(b, 0, a);
      t := FinishErase(u, QueueDestroy(a.c));
    } else {
      Queues(b, 0, a);
      t := FinishDestroy(u, b.conns[a.c].loop, a.c);
    }
    Onward(s, u, t);
  }

  lemma FinishRemove(s: System, c: nat) returns (t: System)
    requires Good(s) && Sized(s) && 0 < |s.loops| && RemoveTask(c) in Queue(s.loops[0])
    ensures Good(t) && Leads(s, t) && Removed(t, c)
  {
    hide Good, Sized, Leads, SameCast, Queue, Removed;
    var u := RunsTask(s, 0, RemoveTask(c));
    t := FinishErase(u, EraseEntry(c));
    Onward(s, u, t);
  }

  /** And so does a handleClose. */
  lemma {:induction false} FinishClose(s: System, m: nat, a: Action) returns (t: System)
    requires Good(s) && Sized(s) && m < |s.todo| && a in s.todo[m] && (a.CloseBegin? || a.CloseUser? || a.CloseEnd?)
    ensures Good(t) && Leads(s, t) && Removed(t, a.c)
    decreases Weight(a)
  {
    hide Inv, Sized, Leads, SameCast, Alive, AboutTo, ActionEnabled, ApplyAction, Removed, Queue;
    var b, u := DoesAction(s, m, a);
    if a.CloseEnd? && m == 0 {
      assert EraseEntry(a.c) in NextActs(b, m, a);
      t := FinishErase(u, EraseEntry(a.c));
    } else if a.CloseEnd? {
      Queues(b, m, a);
      t := FinishRemove(u, a.c);
    } else {
      var next := if a.CloseBegin? then CloseUser(a.c) else CloseEnd(a.c);
      assert next in NextActs(b, m, a);
      t := FinishClose(u, m, next);
    }
    Onward(s, u, t);
  }

  /** Every removal on its way can be carried through by the loops themselves. */
  lemma RemovalCompletes(s: System, c: nat) returns (t: System)
    requires Good(s) && c in s.conns && RemovalOnItsWay(s, c)
    ensures Good(t) && Leads(s, t) && Removed(t, c)
  {
    hide Inv, Leads, Removed, Queue;
    InvSized(s);
    Homes(s, c);
    var m := s.conns[c].loop;
    if CloseUnderWay(s, c) {
      t := FinishClose(s, m, if CloseUser(c) in s.todo[m] then CloseUser(c) else CloseEnd(c));
    } else if RemoveTask(c) in Queue(s.loops[0]) {
      t := FinishRemove(s, c);
    } else if Erasing(s.todo[0], c) {
      t := FinishErase(s, if EraseEntry(c) in s.todo[0] then EraseEntry(c) else QueueDestroy(c));
    } else if DestroyTask(c) in Queue(s.loops[m]) {
      t := FinishDestroy(s, m, c);
    } else {
      t := FinishTeardown(s, m, if Down(c) in s.todo[m] then Down(c) else if DownStore(c) in s.todo[m] then DownStore(c)
                                else if DownUser(c) in s.todo[m] then DownUser(c) else Unregister(c));
    }
  }

  lemma Homes(s: System, c: nat)
    requires Inv(s) && c in s.conns
    ensures s.conns[c].loop < |s.loops|
  {
    hide RegistryOk, LoopOk, PollerOk, LocalOk, LocalOf;
  }

  // ---- what sets a removal off ------------------------------------------------------------

  /** Whether a dispatch finds the connection closed: hung up with nothing to read, or at the end of the stream. */
  predicate FindsClosed(revents: Epoller.Revents, read: ReadKind) {
    (revents.hup && !revents.pollin) || ((revents.pollin || revents.pri || revents.rdhup) && read == GotEnd)
  }

  /** The handlers of one dispatch, read off the returned events: a hang-up, then what the read finds, then a write. */
  function Handlers(c: nat, r: Epoller.Revents, read: ReadKind): seq<Action> {
    (if r.hup && !r.pollin then [CloseBegin(c)] else [])
    + (if !(r.pollin || r.pri || r.rdhup) || read == GotError then [] else if read == GotEnd then [CloseBegin(c)] else [User(c)])
    + (if r.pollout then [WriteEvent(c)] else [])
  }

  lemma {:induction false} HandlersOfBoth(c: nat, a: seq<Epoller.Callback>, b: seq<Epoller.Callback>, read: ReadKind)
    ensures HandlerActions(c, a + b, read) == HandlerActions(c, a, read) + HandlerActions(c, b, read)
    decreases |a|
  {
    hide HandlerAction;
    if a == [] {
      assert a + b == b;
      NilLeft(HandlerActions(c, b, read));
    } else {
      HandlersOfBoth(c, a[1..], b, read);
      assert (a + b)[0] == a[0] && (a + b)[1..] == a[1..] + b;
      Associative(HandlerAction(c, a[0], read), HandlerActions(c, a[1..], read), HandlerActions(c, b, read));
    }
  }

  lemma HandlersOfOne(c: nat, call: Epoller.Callback, asked: bool, read: ReadKind)
    ensures HandlerActions(c, if asked then [call] else [], read) == if asked then HandlerAction(c, call, read) else []
  {
    assert [call][1..] == [];
    NilLeft(HandlerAction(c, call, read));
  }

  lemma HandlersAre(c: nat, r: Epoller.Revents, read: ReadKind)
    ensures HandlerActions(c, Epoller.Callbacks(r), read) == Handlers(c, r, read)
  {
    hide HandlerActions;
    var a := if r.hup && !r.pollin then [Epoller.CloseCallback] else [];
    var b := if r.err || r.nval then [Epoller.ErrorCallback] else [];
    var d := if r.pollin || r.pri || r.rdhup then [Epoller.ReadCallback] else [];
    var e := if r.pollout then [Epoller.WriteCallback] else [];
    HandlersOfBoth(c, a + b + d, e, read);
    HandlersOfBoth(c, a + b, d, read);
    HandlersOfBoth(c, a, b, read);
    HandlersOfOne(c, Epoller.CloseCallback, r.hup && !r.pollin, read);
    HandlersOfOne(c, Epoller.ErrorCallback, r.err || r.nval, read);
    HandlersOfOne(c, Epoller.ReadCallback, r.pollin || r.pri || r.rdhup, read);
    HandlersOfOne(c, Epoller.WriteCallback, r.pollout, read);
  }

  /** What the thread has to do after it has taken up an active channel. */
  lemma DispatchBegins(s: System, l: nat, revents: Epoller.Revents, read: ReadKind, c: nat)
    requires Sized(s) && Enabled(s, Event.Dispatch(l, revents, read)) && s.loops[l].active[0] == L.Fd(c)
    ensures var t := Apply(s, Event.Dispatch(l, revents, read)); l < |t.todo| && t.todo[l] == Handlers(c, revents, read)
  {
    hide L.Apply, Epoller.Callbacks, HandlerActions, Handlers;
    HandlersAre(c, revents, read);
  }

  lemma ClosedIsHandled(c: nat, r: Epoller.Revents, read: ReadKind)
    ensures CloseBegin(c) in Handlers(c, r, read) <==> FindsClosed(r, read)
  {
  }

  /** A dispatch that finds the connection closed leads to its removal. */
  lemma DispatchCloses(s: System, l: nat, revents: Epoller.Revents, read: ReadKind, c: nat) returns (t: System)
    requires Good(s) && Sized(s) && Enabled(s, Event.Dispatch(l, revents, read)) && s.loops[l].active[0] == L.Fd(c)
    requires FindsClosed(revents, read)
    ensures Leads(Apply(s, Event.Dispatch(l, revents, read)), t) && Good(t) && Removed(t, c)
  {
    hide Inv, Leads, Removed, Alive, HandlerActions, FindsClosed, Handlers;
    DispatchBegins(s, l, revents, read, c);
    ClosedIsHandled(c, revents, read);
    var u := One(s, Event.Dispatch(l, revents, read));
    t := FinishClose(u, l, CloseBegin(c));
  }

  /** The loop's poll reports the connection's channel. */
  function Reports(l: nat, c: nat): Event {
    Protocol(l, L.Event<Task, nat>.PollReturns([L.Fd(c)]))
  }

  /** A channel in the kernel's list can be reported by its loop's poll, and is dispatched next. */
  lemma PolledThenDispatched(s: System, l: nat, c: nat, revents: Epoller.Revents, read: ReadKind) returns (t: System)
    requires Good(s) && Sized(s) && Live(s, l, c) && l < |s.loops| == |s.pollers| && s.loops[l].pc == L.Polling
    requires c in s.pollers[l].chans && s.pollers[l].chans[c].index == P.Added
    ensures Enabled(s, Reports(l, c)) && Leads(s, t) && Good(t) && Sized(t)
    ensures Enabled(t, Event.Dispatch(l, revents, read)) && l < |t.loops| && t.loops[l].active == [L.Fd(c)]
  {
    hide Inv, Leads, P.Agree, P.HasChannel, L.Inv, Alive;
    PollerAgrees(s, l);
    AddedInKernel(s.pollers[l], c);
    PollingIdle(s, l);
    t := One(s, Reports(l, c));
  }

  lemma AddedInKernel(p: P.Poller<nat>, c: nat)
    requires P.Agree(p) && c in p.chans && p.chans[c].index == P.Added
    ensures InKernel(p, c)
  {
    P.AgreementMeaning(p, c);
  }

  lemma PollingIdle(s: System, l: nat)
    requires Inv(s) && l < |s.loops| && s.loops[l].pc == L.Polling
    ensures l < |s.todo| && s.todo[l] == [] && s.loops[l].lock != L.Held(Owner)
  {
    hide RegistryOk, PollerOk, LocalOk, LocalOf, Queue, TaskOk, ActionOk;
    assert LoopOk(s, l);
  }

  /**
   The peer closes: as long as the channel is in the kernel's list, its loop's poll reports it, the read
   finds the end of the stream, and the loops' own steps take the connection out of the map and the poller.
   */
  lemma EndOfStreamRemoves(s: System, l: nat, c: nat, revents: Epoller.Revents, read: ReadKind) returns (t: System)
    requires Good(s) && Live(s, l, c) && l < |s.loops| == |s.pollers| && s.loops[l].pc == L.Polling
    requires c in s.pollers[l].chans && s.pollers[l].chans[c].index == P.Added && FindsClosed(revents, read)
    ensures Leads(s, t) && Good(t) && Removed(t, c)
  {
    hide Inv, Leads, Removed, Alive, FindsClosed, Enabled, Apply;
    InvSized(s);
    var u := PolledThenDispatched(s, l, c, revents, read);
    var v := One(u, Event.Dispatch(l, revents, read));
    t := DispatchCloses(u, l, revents, read, c);
    Onward(s, u, v);
    Onward(s, v, t);
  }

  // ---- forced close -----------------------------------------------------------------------

  lemma LeadsAdvances(s: System, t: System, c: nat)
    requires Inv(s) && Leads(s, t) && c in s.conns && c in t.conns
    ensures Advances(s.conns[c], t.conns[c])
  {
    hide Inv, Legal, Exec, Unaided, Advances;
    var es :| Legal(s, es) && Exec(s, es) == t && forall e :: e in es ==> Unaided(e);
    KnownIds(s, c);
    PhaseIsFinal(s, es, c);
  }

  /** A connection that has been reported down is removed, or its removal is on its way. */
  lemma DownMeans(s: System, c: nat)
    requires Inv(s) && c in s.conns && s.conns[c].up && s.conns[c].phase == C.Disconnected
    ensures Removed(s, c) || RemovalOnItsWay(s, c)
  {
    hide Inv, R.Registered, InPoller, RemovalOnItsWay, LocalOf;
    var v := Record(s, c);
  }

  lemma NeverConnecting(s: System, c: nat)
    requires Inv(s) && c in s.conns
    ensures s.conns[c].phase != C.Connecting
  {
    hide Inv, LocalOf, Kept, InPoller;
    var v := Record(s, c);
  }

  lemma ForceCloseBegins(s: System, l: nat, c: nat) returns (t: System)
    requires Good(s) && Sized(s) && Due(s, l, ForceCloseTask(c)) && c in s.conns
    requires s.conns[c].phase == C.Connected || s.conns[c].phase == C.Disconnecting
    ensures Good(t) && Sized(t) && Leads(s, t) && l < |t.todo| && CloseBegin(c) in t.todo[l]
  {
    hide Inv, Leads, SameCast, L.Apply, Queue, Alive;
    t := One(s, Run(l));
  }

  /** forceCloseInLoop looks at the state again: a connection that is down by then is left alone, any other is closed. */
  lemma ForceCloseLooksAgain(s: System, l: nat, c: nat)
    requires Good(s) && Sized(s) && Due(s, l, ForceCloseTask(c)) && c in s.conns
    ensures Enabled(s, Run(l))
    ensures Apply(s, Run(l)).todo == s.todo[l := if s.conns[c].phase == C.Disconnected then [] else [CloseBegin(c)]]
  {
    hide Inv, L.Apply;
    NeverConnecting(s, c);
  }

  /** A queued forceCloseInLoop leads to the removal of its connection, whatever becomes of it before its turn. */
  lemma ForceCloseCompletes(s: System, l: nat, c: nat) returns (t: System)
    requires Good(s) && c in s.conns && s.conns[c].up && l < |s.loops| && ForceCloseTask(c) in Queue(s.loops[l])
    ensures Leads(s, t) && Good(t) && Removed(t, c)
  {
    hide Inv, Leads, Removed, Alive, Due, Queue, RemovalOnItsWay;
    InvSized(s);
    var u := ComesToTurn(s, l, ForceCloseTask(c));
    LeadsAdvances(s, u, c);
    NeverConnecting(u, c);
    if u.conns[c].phase == C.Disconnected {
      DownMeans(u, c);
      if RemovalOnItsWay(u, c) {
        t := RemovalCompletes(u, c);
        Onward(s, u, t);
      } else {
        t := u;
      }
    } else {
      var v := ForceCloseBegins(u, l, c);
      t := FinishClose(v, l, CloseBegin(c));
      Onward(s, u, v);
      Onward(s, v, t);
    }
  }

  /** What others may do at any time: nothing but the mutex and the state keeps a thread from calling. */
  lemma AnyoneMayCall(s: System, thread: nat, c: nat)
    requires Inv(s) && Sized(s) && c in s.conns && s.conns[c].loop < |s.loops|
    ensures s.conns[c].up && s.loops[s.conns[c].loop].lock == L.Free ==> Enabled(s, UserForceClose(Foreign(thread), c))
    ensures s.conns[c].phase == C.Connected && thread != s.conns[c].loop && Store(thread, c) !in s.stores ==>
              Enabled(s, ShutdownLook(thread, c))
    ensures Store(thread, c) in s.stores ==> Enabled(s, ShutdownWrite(thread, c))
  {
  }

  /** A connection may be accepted whenever the server's thread dispatches, whichever loop's turn it is. */
  lemma AcceptIsPossible(s: System, fd: int)
    requires Inv(s) && Sized(s) && s.loops[0].pc == L.Dispatching && s.todo[0] == []
    requires (forall l :: 0 <= l < |s.pollers| ==> P.FdFree(s.pollers[l], fd)) && Naming.Fits(s.registry.name, s.registry.nextId)
    ensures Enabled(s, Admit(fd)) && R.NextLoop(s.registry.pool) < |s.pollers|
  {
    hide LoopOk, PollerOk, LocalOk, LocalOf, R.Faithful, Naming.Fits, P.FdFree;
  }

  /** It is then on that loop, with a channel of its own that is not registered yet. */
  lemma AcceptedOn(s: System, fd: int, c: nat, m: nat)
    requires m == R.NextLoop(s.registry.pool) && m < |s.pollers| && c == s.registry.nextId
    ensures var t := WithNew(s, fd);
            && c in t.conns && t.conns[c].loop == m && !t.conns[c].up && t.conns[c].phase == C.Disconnected
            && |t.pollers| == |s.pollers| && c in t.pollers[m].chans && t.pollers[m].chans[c] == P.Chan(fd, P.NO_EVENT, P.New)
            && t.registry == R.Admit(s.registry)
  {
    hide R.Admit;
  }

  /** forceClose() by any thread, once it has queued its functor, leads to the removal of the connection. */
  lemma ForceCloseRemoves(s: System, who: Who, c: nat) returns (t: System)
    requires Good(s) && Sized(s) && Enabled(s, UserForceClose(who, c))
    ensures Leads(Apply(s, UserForceClose(who, c)), t) && Good(t) && Removed(t, c)
  {
    hide Inv, Leads, Removed;
    StepKeepsInv(s, UserForceClose(who, c));
    t := ForceCloseCompletes(Apply(s, UserForceClose(who, c)), s.conns[c].loop, c);
  }

  // ---- establishment ----------------------------------------------------------------------

  lemma UpIsUp(s: System, l: nat, c: nat)
    requires AboutTo(s, l, Up(c))
    ensures var t := ApplyAction(s, l, false);
            && c in t.conns && t.conns[c].up && t.conns[c].phase == C.Connected && User(c) in t.todo[l]
  {
    hide Inv, Sized, P.SetMask;
    Ready(s, l, Up(c));
  }

  lemma FinishUp(s: System, m: nat, c: nat) returns (t: System)
    requires Good(s) && Sized(s) && m < |s.todo| && Up(c) in s.todo[m]
    ensures Good(t) && Leads(s, t) && c in t.conns && t.conns[c].up && t.conns[c].phase == C.Connected
  {
    hide Inv, Sized, Leads, SameCast, Alive, AboutTo, ActionEnabled, ApplyAction;
    var b, u := DoesAction(s, m, Up(c));
    UpIsUp(b, m, c);
    t := u;
  }

  lemma FinishEstablish(s: System, m: nat, c: nat) returns (t: System)
    requires Good(s) && Sized(s) && m < |s.loops| && EstablishTask(c) in Queue(s.loops[m])
    ensures Good(t) && Leads(s, t) && c in t.conns && t.conns[c].up && t.conns[c].phase == C.Connected
  {
    hide Good, Sized, Leads, SameCast, Queue;
    var u := RunsTask(s, m, EstablishTask(c));
    t := FinishUp(u, m, c);
    Onward(s, u, t);
  }

  lemma FinishOpen(s: System, c: nat) returns (t: System)
    requires Good(s) && Sized(s) && 0 < |s.todo| && QueueEstablish(c) in s.todo[0]
    ensures Good(t) && Leads(s, t) && c in t.conns && t.conns[c].up && t.conns[c].phase == C.Connected
  {
    hide Inv, Sized, Leads, SameCast, Alive, AboutTo, ActionEnabled, ApplyAction, Queue;
    var b, u := DoesAction(s, 0, QueueEstablish(c));
    Queues(b, 0, QueueEstablish(c));
    t := FinishEstablish(u, b.conns[c].loop, c);
    Onward(s, u, t);
  }

  lemma StillToOpen(s: System, c: nat)
    requires Inv(s) && c in s.conns && !s.conns[c].up
    ensures Sized(s)
    ensures var m := s.conns[c].loop;
            QueueEstablish(c) in s.todo[0] || EstablishTask(c) in Queue(s.loops[m]) || Up(c) in s.todo[m]
  {
    hide LoopOk, RegistryOk, PollerOk, Queue, R.Registered;
    var v := LocalOf(s, c);
    assert LocalOk(v);
  }

  /** An accepted connection, whichever loop it is for, can be established by the loops' own steps. */
  lemma AcceptedIsEstablished(s: System, c: nat) returns (t: System)
    requires Good(s) && c in s.conns && !s.conns[c].up
    ensures Good(t) && Leads(s, t) && c in t.conns && t.conns[c].up && t.conns[c].phase == C.Connected
  {
    hide Inv, Leads, Queue, Alive;
    InvSized(s);
    StillToOpen(s, c);
    Homes(s, c);
    var m := s.conns[c].loop;
    if Up(c) in s.todo[m] {
      t := FinishUp(s, m, c);
    } else if EstablishTask(c) in Queue(s.loops[m]) {
      t := FinishEstablish(s, m, c);
    } else {
      t := FinishOpen(s, c);
    }
  }
}
