/** Every step of the running server keeps the lifecycle invariant. */
module LifecycleSteps {
  import opened Threads
  import L = LoopSpec
  import P = PollerSpec
  import R = ServerSpec
  import C = ConnSpec
  import Naming
  import opened Lifecycle
  import opened LifecycleInv

  /** The thread of loop l is about to do `a`, and may. */
  ghost predicate AboutTo(s: System, l: nat, a: Action) {
    Inv(s) && l < |s.loops| && s.todo[l] != [] && s.todo[l][0] == a && ActionEnabled(s, l, a)
  }

  /** The action at hand shows in its connection's view. */
  ghost predicate Shows(a: Action, v: Local) {
    match a
    case QueueEstablish(c) => v.opening > 0
    case Up(c) => v.starts > 0
    case User(c) => v.busy
    case ShutdownStore(c) => v.busy
    case CloseBegin(c) => v.busy
    case CloseUser(c) => v.closing
    case CloseEnd(c) => v.closing
    case EraseEntry(c) => v.erasing
    case QueueDestroy(c) => v.erasing && v.posting
    case Down(c) => v.downing
    case DownStore(c) => v.storing
    case DownUser(c) => v.leaving
    case Unregister(c) => v.leaving && !v.active && !v.handling
    case WriteEvent(c) => v.handling
    case UserFree => true
  }

  lemma Kinds(c: nat)
    ensures !OnServerLoop(User(c)) && !OnServerLoop(CloseUser(c)) && !OnServerLoop(CloseEnd(c))
    ensures !TearsDown(User(c)) && !TearsDown(CloseUser(c)) && !TearsDown(CloseEnd(c))
    ensures OnServerLoop(EraseEntry(c)) && OnServerLoop(QueueDestroy(c))
    ensures !TearsDown(EraseEntry(c)) && !TearsDown(QueueDestroy(c))
    ensures !OnServerLoop(DownUser(c)) && !OnServerLoop(Unregister(c)) && !OnServerLoop(Down(c))
    ensures !OnServerLoop(ShutdownStore(c)) && !TearsDown(ShutdownStore(c))
    ensures !OnServerLoop(DownStore(c)) && TearsDown(DownStore(c))
    ensures TearsDown(DownUser(c)) && TearsDown(Unregister(c)) && TearsDown(Down(c))
    ensures !OnServerLoop(Up(c)) && !OnServerLoop(CloseBegin(c)) && !OnServerLoop(WriteEvent(c))
    ensures OnServerLoop(QueueEstablish(c))
  {
  }

  lemma InPlace(s: System, l: nat, a: Action)
    requires l < |s.loops| == |s.todo| && LoopOk(s, l) && a in s.todo[l]
    ensures ActionOk(s, l, a)
  {
    hide L.Inv, TaskOk, ActionOk, Live;
  }

  /** A thread about to unregister c runs functors: it has no channel left to dispatch, least of all c's. */
  lemma Functors(s: System, l: nat, c: nat)
    requires l < |s.loops| == |s.todo| && LoopOk(s, l) && Unregister(c) in s.todo[l]
    ensures s.loops[l].active == [] && WriteEvent(c) !in s.todo[l]
  {
    InPlace(s, l, Unregister(c));
    if WriteEvent(c) in s.todo[l] {
      InPlace(s, l, WriteEvent(c));
      assert false;
    }
    hide L.Inv, TaskOk, Live;
  }

  lemma ViewShows(v: Local, q0: seq<Task>, q: seq<Task>, acts0: seq<Action>, acts: seq<Action>, a: Action)
    requires !a.UserFree? && v == View(v.conn, v.inMap, v.index, v.active, v.calling, q0, q, acts0, acts, a.c)
    requires a in if OnServerLoop(a) then acts0 else acts
    requires a.Unregister? ==> !v.active && WriteEvent(a.c) !in acts
    ensures Shows(a, v)
  {
  }

  lemma AboutToShows(s: System, l: nat, a: Action)
    requires AboutTo(s, l, a) && !a.UserFree?
    requires a.c in s.conns && l == (if OnServerLoop(a) then 0 else s.conns[a.c].loop)
    ensures Shows(a, LocalOf(s, a.c))
  {
    if a.Unregister? { Functors(s, l, a.c); }
    var m := s.conns[a.c].loop;
    hide Shows, ActionEnabled, LoopOk, PollerOk, RegistryOk, LocalOk, Queue, R.Registered;
    ViewShows(LocalOf(s, a.c), Queue(s.loops[0]), Queue(s.loops[m]), s.todo[0], s.todo[m], a);
  }

  lemma ViewConn(s: System, c: nat)
    requires Sized(s) && c in s.conns
    ensures LocalOf(s, c).conn == s.conns[c]
    ensures LocalOf(s, c).inMap == R.Registered(s.registry, c)
  {
    hide Queue, R.Registered;
  }

  lemma AboutToMeans(s: System, l: nat, a: Action)
    requires AboutTo(s, l, a) && !a.UserFree?
    ensures a.c in s.conns && LocalOk(LocalOf(s, a.c)) && Shows(a, LocalOf(s, a.c))
    ensures l == (if OnServerLoop(a) then 0 else s.conns[a.c].loop)
    ensures LocalOf(s, a.c).conn == s.conns[a.c] && Frame(s)
    ensures TearsDown(a) ==> s.loops[l].pc == L.Running
  {
    ViewConn(s, a.c);
    hide LoopOk, PollerOk, RegistryOk, LocalOk, LocalOf, Shows, ActionEnabled, OnServerLoop, TearsDown;
    InPlace(s, l, a);
    AboutToShows(s, l, a);
  }

  // ---- what each action does to the view of its connection --------------------------------

  lemma OpenView(v: Local, v1: Local, w: Local, c: nat)
    requires LocalOk(v) && v.opening > 0
    requires PushChange(v, v1, v.conn.loop, EstablishTask(c), c) && TodoChange(v1, w, 0, QueueEstablish(c), [], c)
    ensures LocalOk(w)
  {
  }

  lemma UpView(v: Local, v1: Local, w: Local, c: nat)
    requires LocalOk(v) && v.starts > 0 && v1.index != P.New
    requires v1 == v.(index := v1.index, conn := v.conn.(phase := C.Connected, up := true))
    requires TodoChange(v1, w, v.conn.loop, Up(c), [User(c)], c)
    ensures LocalOk(w)
  {
  }

  lemma IdleView(v: Local, w: Local, l: nat, a: Action, c: nat)
    requires LocalOk(v) && TodoChange(v, w, l, a, [], c) && (a == User(c) || a == UserFree || a == WriteEvent(c))
    ensures LocalOk(w)
  {
  }

  lemma CloseBeginView(v: Local, v1: Local, w: Local, c: nat)
    requires LocalOk(v) && v.busy && v1.index != P.New
    requires v1 == v.(index := v1.index)
    requires TodoChange(v1, w, v.conn.loop, CloseBegin(c), [CloseUser(c)], c)
    ensures LocalOk(w)
  {
  }

  lemma CloseUserView(v: Local, w: Local, c: nat)
    requires LocalOk(v) && v.closing && TodoChange(v, w, v.conn.loop, CloseUser(c), [CloseEnd(c)], c)
    ensures LocalOk(w)
  {
  }

  lemma CloseInlineView(v: Local, w: Local, c: nat)
    requires LocalOk(v) && v.closing && v.conn.loop == 0 && TodoChange(v, w, 0, CloseEnd(c), [EraseEntry(c)], c)
    ensures LocalOk(w)
  {
  }

  lemma CloseQueuedView(v: Local, v1: Local, w: Local, c: nat)
    requires LocalOk(v) && v.closing
    requires PushChange(v, v1, 0, RemoveTask(c), c) && TodoChange(v1, w, v.conn.loop, CloseEnd(c), [], c)
    ensures LocalOk(w)
  {
  }

  lemma EraseView(v: Local, v1: Local, v2: Local, w: Local, c: nat)
    requires LocalOk(v) && v.erasing && v1 == v.(inMap := false)
    requires v2 == v1.(conn := v.conn.(erased := v.conn.erased + if v.inMap then 1 else 0))
    requires TodoChange(v2, w, 0, EraseEntry(c), [QueueDestroy(c)], c)
    ensures LocalOk(w)
  {
  }

  lemma QueueDestroyView(v: Local, v1: Local, w: Local, c: nat)
    requires LocalOk(v) && v.erasing && v.posting
    requires PushChange(v, v1, v.conn.loop, DestroyTask(c), c) && TodoChange(v1, w, 0, QueueDestroy(c), [], c)
    ensures LocalOk(w)
  {
  }

  lemma DownLookView(v: Local, w: Local, c: nat)
    requires LocalOk(v) && v.downing && v.conn.phase == C.Connected
    requires TodoChange(v, w, v.conn.loop, Down(c), [DownStore(c)], c)
    ensures LocalOk(w)
  {
  }

  lemma DownStoreView(v: Local, v1: Local, w: Local, c: nat)
    requires LocalOk(v) && v.storing && v1.index != P.New
    requires v1 == v.(index := v1.index, conn := v.conn.(phase := C.Disconnected, downs := v.conn.downs + 1))
    requires TodoChange(v1, w, v.conn.loop, DownStore(c), [DownUser(c)], c) && !w.storing
    ensures LocalOk(w)
  {
  }

  lemma ShutdownStoreView(v: Local, v1: Local, w: Local, c: nat)
    requires LocalOk(v) && v.busy && v1 == v.(conn := v.conn.(phase := C.Disconnecting))
    requires TodoChange(v1, w, v.conn.loop, ShutdownStore(c), [], c)
    ensures LocalOk(w)
  {
  }

  lemma LeaveView(v: Local, w: Local, a: Action, c: nat)
    requires LocalOk(v) && TodoChange(v, w, v.conn.loop, a, [Unregister(c)], c)
    requires (a == Down(c) && v.downing && v.conn.phase != C.Connected) || (a == DownUser(c) && v.leaving)
    ensures LocalOk(w)
  {
  }

  lemma UnregisterView(v: Local, v1: Local, v2: Local, w: Local, c: nat)
    requires LocalOk(v) && v.leaving && !v.active && !v.handling && v1 == v.(index := P.New)
    requires v2 == v1.(conn := v.conn.(gone := true))
    requires TodoChange(v2, w, v.conn.loop, Unregister(c), [], c)
    ensures LocalOk(w)
  {
  }

  // ---- the actions: what each does, and that it keeps the invariant -------------------------

  /** The thread of loop l queues a functor on loop m and is done with its current action. */
  lemma PushDone(s: System, l: nat, m: nat, task: Task, c: nat) returns (s1: System, t: System)
    requires Frame(s) && l < |s.loops| && m < |s.loops| && CanPush(s, l, m, task) && TaskOk(s, m, task)
    requires !task.UserTask? && task.c == c && c in s.conns
    requires s.todo[l] != [] && (s.todo[l][0].UserFree? || s.todo[l][0].c == c)
    ensures t == WithTodo(PushOn(s, m, As(l, m), task), l, s.todo[l][1..])
    ensures Frame(s1) && c in s1.conns && Frame(t) && OnlyTouches(s, t, c)
    ensures PushChange(LocalOf(s, c), LocalOf(s1, c), m, task, c)
    ensures TodoChange(LocalOf(s1, c), LocalOf(t, c), l, s.todo[l][0], [], c)
  {
    hide TaskOk, LoopOk, PollerOk, RegistryOk, LocalOf, OnlyTouches, TodoChange, PushChange, L.Apply, L.Enabled, As;
    s1 := PushStep(s, m, As(l, m), task, c);
    assert c in s1.conns by { assert OnlyTouches(s, s1, c); PushKeeps(s, m, As(l, m), task); }
    t := TodoDone(s1, l, c);
    Touches(s, s1, t, c);
  }

  lemma PushKeeps(s: System, l: nat, who: Who, task: Task)
    requires l < |s.loops| && L.Enabled(s.loops[l], L.Event<Task, nat>.Push(who, task))
    ensures PushOn(s, l, who, task).conns == s.conns && PushOn(s, l, who, task).todo == s.todo
  {
  }

  lemma OpenStep(s: System, l: nat, c: nat, m: nat) returns (t: System)
    requires AboutTo(s, l, QueueEstablish(c)) && c in s.conns && m == s.conns[c].loop && m < |s.loops|
    requires CanPush(s, l, m, EstablishTask(c))
    ensures Inv(t) && t == WithTodo(PushOn(s, m, As(l, m), EstablishTask(c)), l, s.todo[l][1..])
  {
    hide Inv, ActionEnabled, ActionOk, OnServerLoop, TearsDown, LoopOk, PollerOk, RegistryOk, LocalOf, LocalOk,
         OnlyTouches, TodoChange, PushChange, CanPush;
    AboutToMeans(s, l, QueueEstablish(c));
    Kinds(c);
    var s1;
    s1, t := PushDone(s, l, m, EstablishTask(c), c);
    OpenView(LocalOf(s, c), LocalOf(s1, c), LocalOf(t, c), c);
    Concludes(s, t, c);
  }

  lemma MaskConnStep(s: System, c: nat, mask: P.Mask, conn: Conn) returns (t: System)
    requires Frame(s) && c in s.conns && conn.loop == s.conns[c].loop
    ensures t == WithConn(WithMask(s, c, mask), c, conn) && Frame(t) && OnlyTouches(s, t, c)
    ensures t.loops == s.loops && t.todo == s.todo
    ensures LocalOf(t, c).index != P.New && LocalOf(t, c) == LocalOf(s, c).(index := LocalOf(t, c).index, conn := conn)
  {
    hide LoopOk, PollerOk, RegistryOk, P.SetMask, LocalOf, OnlyTouches;
    var s1 := MaskStep(s, c, mask);
    t := ConnStep(s1, c, conn);
    Touches(s, s1, t, c);
  }

  lemma UpStep(s: System, l: nat, c: nat) returns (t: System)
    requires AboutTo(s, l, Up(c))
    ensures Inv(t) && t == WithTodo(WithConn(WithMask(s, c, MaskOf(s, c).(read := true)), c,
      s.conns[c].(phase := C.Connected, up := true)), l, [User(c)] + s.todo[l][1..])
  {
    hide Inv, ActionEnabled, ActionOk, OnServerLoop, TearsDown, LoopOk, PollerOk, RegistryOk, LocalOf, LocalOk,
         OnlyTouches, TodoChange, P.SetMask;
    AboutToMeans(s, l, Up(c));
    Kinds(c);
    var s1 := MaskConnStep(s, c, MaskOf(s, c).(read := true), s.conns[c].(phase := C.Connected, up := true));
    t := TodoNext(s1, l, User(c), c);
    Touches(s, s1, t, c);
    UpView(LocalOf(s, c), LocalOf(s1, c), LocalOf(t, c), c);
    Concludes(s, t, c);
  }

  lemma IdleStep(s: System, l: nat, a: Action, c: nat) returns (t: System)
    requires AboutTo(s, l, a) && (a == User(c) || a == UserFree)
    ensures Inv(t) && t == WithTodo(s, l, s.todo[l][1..])
  {
    Kinds(c);
    hide Shows, ActionEnabled, ActionOk, OnServerLoop, TearsDown, LoopOk, PollerOk, RegistryOk, LocalOf, LocalOk,
         OnlyTouches, TodoChange;
    t := TodoDone(s, l, c);
    if c in s.conns { IdleView(LocalOf(s, c), LocalOf(t, c), l, a, c); }
    Concludes(s, t, c);
  }

  lemma CloseBeginStep(s: System, l: nat, c: nat) returns (t: System)
    requires AboutTo(s, l, CloseBegin(c))
    ensures Inv(t) && t == WithTodo(WithMask(s, c, P.NO_EVENT), l, [CloseUser(c)] + s.todo[l][1..])
  {
    hide Inv, ActionEnabled, ActionOk, OnServerLoop, TearsDown, LoopOk, PollerOk, RegistryOk, LocalOf, LocalOk,
         OnlyTouches, TodoChange, P.SetMask;
    AboutToMeans(s, l, CloseBegin(c));
    Kinds(c);
    var s1 := MaskStep(s, c, P.NO_EVENT);
    t := TodoNext(s1, l, CloseUser(c), c);
    Touches(s, s1, t, c);
    CloseBeginView(LocalOf(s, c), LocalOf(s1, c), LocalOf(t, c), c);
    Concludes(s, t, c);
  }

  lemma CloseUserStep(s: System, l: nat, c: nat) returns (t: System)
    requires AboutTo(s, l, CloseUser(c))
    ensures Inv(t) && t == WithTodo(s, l, [CloseEnd(c)] + s.todo[l][1..])
  {
    hide Inv, ActionEnabled, ActionOk, OnServerLoop, TearsDown, LoopOk, PollerOk, RegistryOk, LocalOf, LocalOk,
         OnlyTouches, TodoChange;
    AboutToMeans(s, l, CloseUser(c));
    Kinds(c);
    t := TodoNext(s, l, CloseEnd(c), c);
    CloseUserView(LocalOf(s, c), LocalOf(t, c), c);
    Concludes(s, t, c);
  }

  lemma CloseInlineStep(s: System, l: nat, c: nat) returns (t: System)
    requires AboutTo(s, l, CloseEnd(c)) && l == 0
    ensures Inv(t) && t == WithTodo(s, l, [EraseEntry(c)] + s.todo[l][1..])
  {
    hide Inv, ActionEnabled, ActionOk, OnServerLoop, TearsDown, LoopOk, PollerOk, RegistryOk, LocalOf, LocalOk,
         OnlyTouches, TodoChange;
    AboutToMeans(s, l, CloseEnd(c));
    Kinds(c);
    t := TodoNext(s, l, EraseEntry(c), c);
    CloseInlineView(LocalOf(s, c), LocalOf(t, c), c);
    Concludes(s, t, c);
  }

  lemma CloseQueuedStep(s: System, l: nat, c: nat, m: nat) returns (t: System)
    requires AboutTo(s, l, CloseEnd(c)) && m == 0 && l != 0 && m < |s.loops| && CanPush(s, l, m, RemoveTask(c))
    ensures Inv(t) && t == WithTodo(PushOn(s, m, As(l, m), RemoveTask(c)), l, s.todo[l][1..])
  {
    hide Inv, ActionEnabled, ActionOk, OnServerLoop, TearsDown, LoopOk, PollerOk, RegistryOk, LocalOf, LocalOk,
         OnlyTouches, TodoChange, PushChange, CanPush;
    AboutToMeans(s, l, CloseEnd(c));
    Kinds(c);
    var s1;
    s1, t := PushDone(s, l, m, RemoveTask(c), c);
    CloseQueuedView(LocalOf(s, c), LocalOf(s1, c), LocalOf(t, c), c);
    Concludes(s, t, c);
  }

  /** Erasing one connection's name leaves every other connection's entry alone. */
  lemma OtherEntriesStay(r: R.Registry, c: nat, d: nat)
    requires R.Faithful(r) && 1 <= c < r.nextId && c != d
    ensures R.Registered(R.Erase(r, c), d) == R.Registered(r, d)
  {
    R.EraseFaithful(r, c);
    hide Naming.ConnName;
  }

  lemma EraseRegistryOk(s: System, c: nat) returns (t: System)
    requires RegistryOk(s) && c in s.conns
    ensures t == s.(registry := R.Erase(s.registry, c)) && RegistryOk(t) && !R.Registered(t.registry, c)
  {
    t := s.(registry := R.Erase(s.registry, c));
    R.EraseFaithful(s.registry, c);
    hide R.Faithful, R.Registered, Naming.ConnName;
  }

  lemma EraseRegistry(s: System, c: nat) returns (t: System)
    requires Frame(s) && c in s.conns
    ensures t == s.(registry := R.Erase(s.registry, c)) && Frame(t)
  {
    hide LoopOk, PollerOk, RegistryOk, R.Erase, R.Registered;
    t := EraseRegistryOk(s, c);
    LoopsKept(s, t);
    PollersKept(s, t);
  }

  lemma EraseLocals(s: System, t: System, c: nat, d: nat)
    requires Frame(s) && Frame(t) && c in s.conns && d in s.conns && t == s.(registry := R.Erase(s.registry, c))
    ensures LocalOf(t, d) == if d == c then LocalOf(s, c).(inMap := false) else LocalOf(s, d)
  {
    hide LoopOk, PollerOk, R.Faithful, R.Registered, Queue, R.Erase;
    if d != c { OtherEntriesStay(s.registry, c, d); }
    else { R.EraseFaithful(s.registry, c); }
  }

  lemma EraseFrame(s: System, c: nat) returns (t: System)
    requires Frame(s) && c in s.conns
    ensures t == s.(registry := R.Erase(s.registry, c)) && Frame(t) && OnlyTouches(s, t, c)
    ensures LocalOf(t, c) == LocalOf(s, c).(inMap := false)
  {
    hide LoopOk, PollerOk, RegistryOk, R.Erase, LocalOf;
    t := EraseRegistry(s, c);
    EraseLocals(s, t, c, c);
    forall d | d in s.conns && d != c ensures LocalOf(t, d) == LocalOf(s, d) {
      EraseLocals(s, t, c, d);
    }
  }

  lemma EraseStep(s: System, l: nat, c: nat) returns (t: System)
    requires AboutTo(s, l, EraseEntry(c))
    ensures Inv(t) && t == WithTodo(WithConn(s.(registry := R.Erase(s.registry, c)), c,
      s.conns[c].(erased := s.conns[c].erased + if R.Registered(s.registry, c) then 1 else 0)), l,
      [QueueDestroy(c)] + s.todo[l][1..])
  {
    assert LocalOf(s, c).inMap == R.Registered(s.registry, c);
    hide Inv, ActionEnabled, ActionOk, OnServerLoop, TearsDown, LoopOk, PollerOk, RegistryOk, LocalOf, LocalOk,
         OnlyTouches, TodoChange, R.Registered, R.Erase;
    AboutToMeans(s, l, EraseEntry(c));
    Kinds(c);
    var s1 := EraseFrame(s, c);
    var s2 := ConnStep(s1, c, s.conns[c].(erased := s.conns[c].erased + if R.Registered(s.registry, c) then 1 else 0));
    t := TodoNext(s2, l, QueueDestroy(c), c);
    Touches(s, s1, s2, c);
    Touches(s, s2, t, c);
    EraseView(LocalOf(s, c), LocalOf(s1, c), LocalOf(s2, c), LocalOf(t, c), c);
    Concludes(s, t, c);
  }

  lemma QueueDestroyStep(s: System, l: nat, c: nat, m: nat) returns (t: System)
    requires AboutTo(s, l, QueueDestroy(c)) && c in s.conns && m == s.conns[c].loop && m < |s.loops|
    requires CanPush(s, l, m, DestroyTask(c))
    ensures Inv(t) && t == WithTodo(PushOn(s, m, As(l, m), DestroyTask(c)), l, s.todo[l][1..])
  {
    hide Inv, ActionEnabled, ActionOk, OnServerLoop, TearsDown, LoopOk, PollerOk, RegistryOk, LocalOf, LocalOk,
         OnlyTouches, TodoChange, PushChange, CanPush;
    AboutToMeans(s, l, QueueDestroy(c));
    Kinds(c);
    var s1;
    s1, t := PushDone(s, l, m, DestroyTask(c), c);
    QueueDestroyView(LocalOf(s, c), LocalOf(s1, c), LocalOf(t, c), c);
    Concludes(s, t, c);
  }

  lemma DownStep(s: System, l: nat, c: nat) returns (t: System)
    requires AboutTo(s, l, Down(c)) && s.conns[c].phase == C.Connected
    ensures Inv(t) && t == WithTodo(s, l, [DownStore(c)] + s.todo[l][1..])
  {
    hide Inv, ActionEnabled, ActionOk, OnServerLoop, TearsDown, LoopOk, PollerOk, RegistryOk, LocalOf, LocalOk,
         OnlyTouches, TodoChange, P.SetMask;
    AboutToMeans(s, l, Down(c));
    Kinds(c);
    t := TodoNext(s, l, DownStore(c), c);
    DownLookView(LocalOf(s, c), LocalOf(t, c), c);
    Concludes(s, t, c);
  }

  /** A thread about to make connectDestroyed's store has no other to make. */
  lemma OnlyStore(s: System, t: System, l: nat, c: nat)
    requires Sized(s) && Sized(t) && l < |s.loops| == |t.loops| && LoopOk(s, l)
    requires c in t.conns && t.conns[c].loop == l && s.todo[l] != [] && t.todo[l] == [DownUser(c)] + s.todo[l][1..]
    ensures !LocalOf(t, c).storing
  {
    hide L.Inv, Queue, TaskOk, ActionOk, R.Registered, Live;
  }

  lemma DownStoreStep(s: System, l: nat, c: nat) returns (t: System)
    requires AboutTo(s, l, DownStore(c))
    ensures Inv(t) && t == WithTodo(WithConn(WithMask(s, c, P.NO_EVENT), c,
      s.conns[c].(phase := C.Disconnected, downs := s.conns[c].downs + 1)), l, [DownUser(c)] + s.todo[l][1..])
  {
    hide Inv, ActionEnabled, ActionOk, OnServerLoop, TearsDown, LoopOk, PollerOk, RegistryOk, LocalOf, LocalOk,
         OnlyTouches, TodoChange, P.SetMask;
    AboutToMeans(s, l, DownStore(c));
    Kinds(c);
    var s1 := MaskConnStep(s, c, P.NO_EVENT, s.conns[c].(phase := C.Disconnected, downs := s.conns[c].downs + 1));
    t := TodoNext(s1, l, DownUser(c), c);
    Touches(s, s1, t, c);
    OnlyStore(s, t, l, c);
    DownStoreView(LocalOf(s, c), LocalOf(s1, c), LocalOf(t, c), c);
    Concludes(s, t, c);
  }

  lemma ShutdownStoreStep(s: System, l: nat, c: nat) returns (t: System)
    requires AboutTo(s, l, ShutdownStore(c))
    ensures Inv(t) && t == WithTodo(WithConn(s, c, s.conns[c].(phase := C.Disconnecting)), l, s.todo[l][1..])
  {
    hide Inv, ActionEnabled, ActionOk, OnServerLoop, TearsDown, LoopOk, PollerOk, RegistryOk, LocalOf, LocalOk,
         OnlyTouches, TodoChange, P.SetMask;
    AboutToMeans(s, l, ShutdownStore(c));
    Kinds(c);
    var s1 := ConnStep(s, c, s.conns[c].(phase := C.Disconnecting));
    t := TodoDone(s1, l, c);
    Touches(s, s1, t, c);
    ShutdownStoreView(LocalOf(s, c), LocalOf(s1, c), LocalOf(t, c), c);
    Concludes(s, t, c);
  }

  lemma DownQuietStep(s: System, l: nat, c: nat) returns (t: System)
    requires AboutTo(s, l, Down(c)) && s.conns[c].phase != C.Connected
    ensures Inv(t) && t == WithTodo(s, l, [Unregister(c)] + s.todo[l][1..])
  {
    hide Inv, ActionEnabled, ActionOk, OnServerLoop, TearsDown, LoopOk, PollerOk, RegistryOk, LocalOf, LocalOk,
         OnlyTouches, TodoChange;
    AboutToMeans(s, l, Down(c));
    Kinds(c);
    t := TodoNext(s, l, Unregister(c), c);
    LeaveView(LocalOf(s, c), LocalOf(t, c), Down(c), c);
    Concludes(s, t, c);
  }

  lemma DownUserStep(s: System, l: nat, c: nat) returns (t: System)
    requires AboutTo(s, l, DownUser(c))
    ensures Inv(t) && t == WithTodo(s, l, [Unregister(c)] + s.todo[l][1..])
  {
    hide Inv, ActionEnabled, ActionOk, OnServerLoop, TearsDown, LoopOk, PollerOk, RegistryOk, LocalOf, LocalOk,
         OnlyTouches, TodoChange;
    AboutToMeans(s, l, DownUser(c));
    Kinds(c);
    t := TodoNext(s, l, Unregister(c), c);
    LeaveView(LocalOf(s, c), LocalOf(t, c), DownUser(c), c);
    Concludes(s, t, c);
  }

  /** connectDestroyed takes the channel out of the poller. */
  lemma RemoveStep(s: System, c: nat) returns (t: System)
    requires Frame(s) && c in s.conns
    ensures var m := s.conns[c].loop;
            t == s.(pollers := s.pollers[m := P.RemoveChannel(s.pollers[m], c)])
    ensures Frame(t) && OnlyTouches(s, t, c) && LocalOf(t, c) == LocalOf(s, c).(index := P.New)
  {
    var m := s.conns[c].loop;
    assert PollerOk(s, m);
    P.RemoveChannelAgrees(s.pollers[m], c);
    t := s.(pollers := s.pollers[m := P.RemoveChannel(s.pollers[m], c)]);
    hide P.RemoveChannel, P.Agree, P.HasChannel, LoopOk, PollerOk, RegistryOk, LocalOf;
    var t1 := PollerFrame(s, t.pollers[m], m);
    var t2 := PollerLocals(s, t.pollers[m], m, c);
  }

  lemma UnregisterStep(s: System, l: nat, c: nat) returns (t: System)
    requires AboutTo(s, l, Unregister(c))
    ensures Inv(t) && t == WithTodo(WithConn(
      s.(pollers := s.pollers[s.conns[c].loop := P.RemoveChannel(s.pollers[s.conns[c].loop], c)]), c,
      s.conns[c].(gone := true)), l, s.todo[l][1..])
  {
    hide Inv, ActionEnabled, ActionOk, OnServerLoop, TearsDown, LoopOk, PollerOk, RegistryOk, LocalOf, LocalOk,
         OnlyTouches, TodoChange, P.RemoveChannel;
    AboutToMeans(s, l, Unregister(c));
    Kinds(c);
    var s1 := RemoveStep(s, c);
    var s2 := ConnStep(s1, c, s.conns[c].(gone := true));
    t := TodoDone(s2, l, c);
    Touches(s, s1, s2, c);
    Touches(s, s2, t, c);
    UnregisterView(LocalOf(s, c), LocalOf(s1, c), LocalOf(s2, c), LocalOf(t, c), c);
    Concludes(s, t, c);
  }

  /** An interest change of a connection that is owned, and already up, keeps it in order. */
  lemma OwnedMask(v: Local, w: Local)
    requires LocalOk(v) && v.conn.up && (Owned(v) || v.index != P.New) && w.index != P.New && w == v.(index := w.index)
    ensures LocalOk(w)
  {
  }

  lemma HandlingMeans(v: Local)
    requires LocalOk(v) && v.handling
    ensures v.conn.up && v.index != P.New
  {
  }

  lemma WriteDrainedStep(s: System, l: nat, c: nat) returns (t: System)
    requires AboutTo(s, l, WriteEvent(c))
    ensures Inv(t) && t == WithTodo(WithMask(s, c, MaskOf(s, c).(write := false)), l, s.todo[l][1..])
  {
    hide Inv, ActionEnabled, ActionOk, OnServerLoop, TearsDown, LoopOk, PollerOk, RegistryOk, LocalOf, LocalOk,
         OnlyTouches, TodoChange, P.SetMask;
    AboutToMeans(s, l, WriteEvent(c));
    Kinds(c);
    HandlingMeans(LocalOf(s, c));
    var s1 := MaskStep(s, c, MaskOf(s, c).(write := false));
    OwnedMask(LocalOf(s, c), LocalOf(s1, c));
    t := TodoDone(s1, l, c);
    Touches(s, s1, t, c);
    IdleView(LocalOf(s1, c), LocalOf(t, c), l, WriteEvent(c), c);
    Concludes(s, t, c);
  }

  lemma WriteStep(s: System, l: nat, c: nat) returns (t: System)
    requires AboutTo(s, l, WriteEvent(c))
    ensures Inv(t) && t == WithTodo(s, l, s.todo[l][1..])
  {
    hide Inv, ActionEnabled, ActionOk, OnServerLoop, TearsDown, LoopOk, PollerOk, RegistryOk, LocalOf, LocalOk,
         OnlyTouches, TodoChange;
    AboutToMeans(s, l, WriteEvent(c));
    Kinds(c);
    t := TodoDone(s, l, c);
    IdleView(LocalOf(s, c), LocalOf(t, c), l, WriteEvent(c), c);
    Concludes(s, t, c);
  }

  lemma Ready(s: System, l: nat, a: Action)
    requires AboutTo(s, l, a)
    ensures Sized(s) && |s.loops| == |s.pollers| == |s.todo|
    ensures !a.UserFree? ==>
              a.c in s.conns && s.conns[a.c].loop < |s.loops| == |s.pollers| && a.c in s.pollers[s.conns[a.c].loop].chans
  {
    hide RegistryOk, LoopOk, PollerOk, LocalOk, LocalOf;
  }

  lemma ActionStep(s: System, l: nat, a: Action, drained: bool)
    requires AboutTo(s, l, a)
    ensures Inv(ApplyAction(s, l, drained))
  {
    hide Inv, Sized, P.SetMask, P.RemoveChannel, R.Erase, R.Registered, PushOn, WithTodo, WithMask, WithConn;
    Ready(s, l, a);
    var t;
    match a
    case QueueEstablish(c) => t := OpenStep(s, l, c, s.conns[c].loop);
    case Up(c) => t := UpStep(s, l, c);
    case User(c) => t := IdleStep(s, l, a, c);
    case CloseBegin(c) => t := CloseBeginStep(s, l, c);
    case CloseUser(c) => t := CloseUserStep(s, l, c);
    case CloseEnd(c) => if l == 0 { t := CloseInlineStep(s, l, c); } else { t := CloseQueuedStep(s, l, c, 0); }
    case EraseEntry(c) => t := EraseStep(s, l, c);
    case QueueDestroy(c) => t := QueueDestroyStep(s, l, c, s.conns[c].loop);
    case Down(c) => if s.conns[c].phase == C.Connected { t := DownStep(s, l, c); } else { t := DownQuietStep(s, l, c); }
    case DownStore(c) => t := DownStoreStep(s, l, c);
    case ShutdownStore(c) => t := ShutdownStoreStep(s, l, c);
    case DownUser(c) => t := DownUserStep(s, l, c);
    case Unregister(c) => t := UnregisterStep(s, l, c);
    case WriteEvent(c) =>
      if drained && MaskOf(s, c).write { t := WriteDrainedStep(s, l, c); } else { t := WriteStep(s, l, c); }
    case UserFree => t := IdleStep(s, l, a, 0);
  }
}
