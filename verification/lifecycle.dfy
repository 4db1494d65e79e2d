/**
 The life of connections on a running server: the server's own loop (loop 0), the pool's loops, one
 poller per loop, the connection map, and every functor and handler that carries a connection from
 one of them to another. A loop's thread does its work one action at a time, so anything other
 threads do may come in between; all queueing goes through LoopSpec and all registration through
 PollerSpec. Connections are named by the number the server gave them.
 */
module Lifecycle {
  import opened Threads
  import L = LoopSpec
  import P = PollerSpec
  import R = ServerSpec
  import C = ConnSpec
  import Epoller
  import Naming

  /** Functors that hold a connection, and user functors that do not. */
  datatype Task =
    | EstablishTask(c: nat)
    | RemoveTask(c: nat)
    | DestroyTask(c: nat)
    | ForceCloseTask(c: nat)
    | NoticeTask(c: nat)
    | UserTask(id: nat)

  /** What a loop's thread has left to do in the handler or functor it is running. */
  datatype Action =
    | QueueEstablish(c: nat)
    | Up(c: nat)
    | User(c: nat)
      /** shutdown() on the connection's own thread, past its look at the state. */
    | ShutdownStore(c: nat)
    | CloseBegin(c: nat)
    | CloseUser(c: nat)
    | CloseEnd(c: nat)
    | EraseEntry(c: nat)
    | QueueDestroy(c: nat)
    | Down(c: nat)
      /** connectDestroyed, past its look at the state. */
    | DownStore(c: nat)
    | DownUser(c: nat)
    | Unregister(c: nat)
    | WriteEvent(c: nat)
    | UserFree

  datatype Conn = Conn(
    loop: nat,
    phase: C.Phase,
    /** connectEstablished has run; connectDestroyed has run. */
    up: bool,
    gone: bool,
    /** How often the user was told of the disconnection, and how often a map entry was erased. */
    downs: nat,
    erased: nat)

  /** A thread other than the connection's own, inside shutdown() and past its look at the state. */
  datatype Store = Store(thread: nat, c: nat)

  datatype System = System(
    registry: R.Registry,
    loops: seq<L.Loop<Task, nat>>,
    pollers: seq<P.Poller<nat>>,
    todo: seq<seq<Action>>,
    stores: set<Store>,
    /** The connection objects that exist. */
    conns: map<nat, Conn>)

  datatype ReadKind = GotData | GotEnd | GotError

  datatype Event =
    | Protocol(l: nat, e: L.Event<Task, nat>)
    | Dispatch(l: nat, revents: Epoller.Revents, read: ReadKind)
    | Run(l: nat)
    | Act(l: nat, drained: bool)
    | UserSend(l: nat, c: nat)
    | UserRead(l: nat, c: nat, on: bool)
    | OwnShutdown(l: nat, c: nat)
    | ShutdownLook(thread: nat, c: nat)
    | ShutdownWrite(thread: nat, c: nat)
    | UserForceClose(who: Who, c: nat)
    | Notify(c: nat)
    | Admit(fd: int)
    | Drop(c: nat)

  // ---- what holds a connection ------------------------------------------------------------

  function Queue(lp: L.Loop<Task, nat>): seq<Task> {
    lp.batch + lp.pending
  }

  predicate TaskNames(t: Task, c: nat) {
    !t.UserTask? && t.c == c
  }

  predicate ActionNames(a: Action, c: nat) {
    !a.UserFree? && a.c == c
  }

  /** No shared pointer to the connection is left in the map, in a functor, in a running handler or with a caller. */
  ghost predicate Unheld(s: System, c: nat) {
    && !R.Registered(s.registry, c)
    && (forall l, t :: 0 <= l < |s.loops| && t in Queue(s.loops[l]) ==> !TaskNames(t, c))
    && (forall l, a :: 0 <= l < |s.todo| && a in s.todo[l] ==> !ActionNames(a, c))
    && (forall st :: st in s.stores ==> st.c != c)
  }

  // ---- steps ------------------------------------------------------------------------------

  ghost predicate Sized(s: System) {
    && |s.loops| == |s.pollers| == |s.todo| > 0
    && (forall c :: c in s.conns ==> s.conns[c].loop < |s.loops| && c in s.pollers[s.conns[c].loop].chans)
  }

  predicate Live(s: System, l: nat, c: nat) {
    c in s.conns && s.conns[c].loop == l
  }

  function PushOn(s: System, l: nat, who: Who, t: Task): System
    requires l < |s.loops| && L.Enabled(s.loops[l], L.Event<Task, nat>.Push(who, t))
  {
    s.(loops := s.loops[l := L.Apply(s.loops[l], L.Event<Task, nat>.Push(who, t))])
  }

  function WithTodo(s: System, l: nat, acts: seq<Action>): System
    requires l < |s.todo|
  {
    s.(todo := s.todo[l := acts])
  }

  function WithMask(s: System, c: nat, mask: P.Mask): System
    requires c in s.conns && s.conns[c].loop < |s.pollers| && c in s.pollers[s.conns[c].loop].chans
  {
    var l := s.conns[c].loop;
    s.(pollers := s.pollers[l := P.SetMask(s.pollers[l], c, mask)])
  }

  function MaskOf(s: System, c: nat): P.Mask
    requires c in s.conns && s.conns[c].loop < |s.pollers| && c in s.pollers[s.conns[c].loop].chans
  {
    s.pollers[s.conns[c].loop].chans[c].mask
  }

  function WithConn(s: System, c: nat, conn: Conn): System {
    s.(conns := s.conns[c := conn])
  }

  /** A thread is the owner of its own loop and foreign to every other. */
  function As(l: nat, target: nat): Who {
    if l == target then Owner else Foreign(l)
  }

  predicate InUser(s: System, l: nat) {
    l < |s.todo| && s.todo[l] != [] &&
    (s.todo[l][0].User? || s.todo[l][0].CloseUser? || s.todo[l][0].DownUser? || s.todo[l][0].UserFree?)
  }

  /** What one callback of the channel sets its connection to do. */
  function HandlerAction(c: nat, call: Epoller.Callback, read: ReadKind): seq<Action> {
    match call
    case CloseCallback => [CloseBegin(c)]
    case ErrorCallback => []
    case ReadCallback =>
      (match read
       case GotData => [User(c)]
       case GotEnd => [CloseBegin(c)]
       case GotError => [])
    case WriteCallback => [WriteEvent(c)]
  }

  /** The handlers one dispatch runs, in the order of the callbacks. */
  function HandlerActions(c: nat, calls: seq<Epoller.Callback>, read: ReadKind): seq<Action> {
    if calls == [] then [] else HandlerAction(c, calls[0], read) + HandlerActions(c, calls[1..], read)
  }

  function TaskActions(s: System, t: Task): seq<Action> {
    match t
    case EstablishTask(c) => [Up(c)]
    case RemoveTask(c) => [EraseEntry(c)]
    case DestroyTask(c) => [Down(c)]
    case ForceCloseTask(c) =>
      if c in s.conns && (s.conns[c].phase == C.Connected || s.conns[c].phase == C.Disconnecting) then [CloseBegin(c)] else []
    case NoticeTask(c) => [User(c)]
    case UserTask(_) => [UserFree]
  }

  /** Events of the protocol that are not about a particular functor or channel handler. */
  ghost predicate ProtocolAllowed(s: System, l: nat, e: L.Event<Task, nat>)
    requires l < |s.loops| == |s.todo| == |s.pollers|
  {
    && L.Enabled(s.loops[l], e)
    && match e
       case Push(_, t) => t.UserTask?
       case Release(_) => true
       case SetQuit(_) => true
       case QuitWake(_) => true
       case Enter => false
       case RunNext => false
       case HandleNext => s.todo[l] == [] && s.loops[l].active[0] == L.WakeFd
       case PollReturns(active) => forall c :: L.Fd(c) in active ==> InKernel(s.pollers[l], c)
       case _ => s.todo[l] == []
  }

  /** epoll_wait hands out only channels of the kernel's interest list. */
  predicate InKernel(p: P.Poller<nat>, c: nat) {
    c in p.chans && p.chans[c].fd in p.kernel && p.kernel[p.chans[c].fd].key == c
  }

  /** The acceptor's handler, on the server's own thread, has accepted a descriptor no channel holds. */
  ghost predicate Admits(s: System, fd: int)
    requires Sized(s)
  {
    && s.loops[0].pc == L.Dispatching && s.todo[0] == []
    && (forall l :: 0 <= l < |s.pollers| ==> P.FdFree(s.pollers[l], fd))
    && R.NextLoop(s.registry.pool) < |s.loops|
    && Naming.Fits(s.registry.name, s.registry.nextId)
  }

  /** The new connection and its record in its poller, before anybody acts on it. */
  function WithNew(s: System, fd: int): System
    requires R.NextLoop(s.registry.pool) < |s.pollers|
  {
    var c, m := s.registry.nextId, R.NextLoop(s.registry.pool);
    var s1 := s.(registry := R.Admit(s.registry), pollers := s.pollers[m := P.Attach(s.pollers[m], c, fd)]);
    WithConn(s1, c, Conn(m, C.Disconnected, false, false, 0, 0))
  }

  function FirstAction(s: System): Action {
    if R.NextLoop(s.registry.pool) == 0 then Up(s.registry.nextId) else QueueEstablish(s.registry.nextId)
  }

  function WithoutConn(s: System, c: nat): System
    requires c in s.conns && s.conns[c].loop < |s.pollers|
  {
    var m := s.conns[c].loop;
    s.(conns := s.conns - {c}, pollers := s.pollers[m := P.Detach(s.pollers[m], c)])
  }

  ghost predicate Enabled(s: System, e: Event)
    requires Sized(s)
  {
    match e
    case Protocol(l, pe) => l < |s.loops| && ProtocolAllowed(s, l, pe)
    case Dispatch(l, _, _) =>
      && l < |s.loops| && s.todo[l] == [] && L.Enabled(s.loops[l], L.Event<Task, nat>.HandleNext)
      && s.loops[l].active[0].Fd?
    case Run(l) => l < |s.loops| && s.todo[l] == [] && L.Enabled(s.loops[l], L.Event<Task, nat>.RunNext)
    case Act(l, _) => l < |s.loops| && s.todo[l] != [] && ActionEnabled(s, l, s.todo[l][0])
    case UserSend(l, c) =>
      InUser(s, l) && Live(s, l, c) && s.conns[c].phase == C.Connected && !MaskOf(s, c).write
    case UserRead(l, c, _) => InUser(s, l) && Live(s, l, c) && s.conns[c].up && !s.conns[c].gone
    case OwnShutdown(l, c) => InUser(s, l) && Live(s, l, c) && s.conns[c].phase == C.Connected
    case ShutdownLook(t, c) =>
      c in s.conns && s.conns[c].phase == C.Connected && t != s.conns[c].loop && Store(t, c) !in s.stores
    case ShutdownWrite(t, c) => Store(t, c) in s.stores && c in s.conns
    // forceClose() looks at state_ before it takes the lock, so by now it may say anything
    case UserForceClose(who, c) =>
      && c in s.conns && s.conns[c].up
      && L.Enabled(s.loops[s.conns[c].loop], L.Event<Task, nat>.Push(who, ForceCloseTask(c)))
    case Notify(c) =>
      && c in s.conns && s.conns[c].up
      && L.Enabled(s.loops[s.conns[c].loop], L.Event<Task, nat>.Push(Owner, NoticeTask(c)))
    case Admit(fd) => Admits(s, fd)
    case Drop(c) => c in s.conns && Unheld(s, c)
  }

  /** An action that queues a functor waits for the target's mutex. */
  ghost predicate ActionEnabled(s: System, l: nat, a: Action)
    requires Sized(s) && l < |s.loops|
  {
    (a.UserFree? || a.c in s.conns) &&
    match a
    case QueueEstablish(c) => CanPush(s, l, s.conns[c].loop, EstablishTask(c))
    case CloseEnd(c) => l == 0 || CanPush(s, l, 0, RemoveTask(c))
    case QueueDestroy(c) => CanPush(s, l, s.conns[c].loop, DestroyTask(c))
    case _ => true
  }

  predicate CanPush(s: System, l: nat, target: nat, t: Task)
    requires target < |s.loops|
  {
    L.Enabled(s.loops[target], L.Event<Task, nat>.Push(As(l, target), t))
  }

  ghost function ApplyAction(s: System, l: nat, drained: bool): System
    requires Sized(s) && l < |s.loops| && s.todo[l] != [] && ActionEnabled(s, l, s.todo[l][0])
  {
    var a, rest := s.todo[l][0], s.todo[l][1..];
    match a
    case QueueEstablish(c) => WithTodo(PushOn(s, s.conns[c].loop, As(l, s.conns[c].loop), EstablishTask(c)), l, rest)
    case Up(c) =>
      var s1 := WithMask(s, c, MaskOf(s, c).(read := true));
      WithTodo(WithConn(s1, c, s.conns[c].(phase := C.Connected, up := true)), l, [User(c)] + rest)
    case User(c) => WithTodo(s, l, rest)
    case ShutdownStore(c) => WithTodo(WithConn(s, c, s.conns[c].(phase := C.Disconnecting)), l, rest)
    case CloseBegin(c) =>
      WithTodo(WithMask(s, c, P.NO_EVENT), l, [CloseUser(c)] + rest)
    case CloseUser(c) => WithTodo(s, l, [CloseEnd(c)] + rest)
    case CloseEnd(c) =>
      if l == 0 then WithTodo(s, l, [EraseEntry(c)] + rest)
      else WithTodo(PushOn(s, 0, As(l, 0), RemoveTask(c)), l, rest)
    case EraseEntry(c) =>
      var n := if R.Registered(s.registry, c) then 1 else 0;
      var s1 := s.(registry := R.Erase(s.registry, c));
      WithTodo(WithConn(s1, c, s.conns[c].(erased := s.conns[c].erased + n)), l, [QueueDestroy(c)] + rest)
    case QueueDestroy(c) => WithTodo(PushOn(s, s.conns[c].loop, As(l, s.conns[c].loop), DestroyTask(c)), l, rest)
    case Down(c) => WithTodo(s, l, [if s.conns[c].phase == C.Connected then DownStore(c) else Unregister(c)] + rest)
    case DownStore(c) =>
      var s1 := WithMask(s, c, P.NO_EVENT);
      var conn := s.conns[c].(phase := C.Disconnected, downs := s.conns[c].downs + 1);
      WithTodo(WithConn(s1, c, conn), l, [DownUser(c)] + rest)
    case DownUser(c) => WithTodo(s, l, [Unregister(c)] + rest)
    case Unregister(c) =>
      var m := s.conns[c].loop;
      var s1 := s.(pollers := s.pollers[m := P.RemoveChannel(s.pollers[m], c)]);
      WithTodo(WithConn(s1, c, s.conns[c].(gone := true)), l, rest)
    case WriteEvent(c) =>
      var s1 := if drained && MaskOf(s, c).write then WithMask(s, c, MaskOf(s, c).(write := false)) else s;
      WithTodo(s1, l, rest)
    case UserFree => WithTodo(s, l, rest)
  }

  ghost function Apply(s: System, e: Event): System
    requires Sized(s) && Enabled(s, e)
  {
    match e
    case Protocol(l, pe) => s.(loops := s.loops[l := L.Apply(s.loops[l], pe)])
    case Dispatch(l, revents, read) =>
      var acts := HandlerActions(s.loops[l].active[0].h, Epoller.Callbacks(revents), read);
      WithTodo(s.(loops := s.loops[l := L.Apply(s.loops[l], L.Event<Task, nat>.HandleNext)]), l, acts)
    case Run(l) =>
      var acts := TaskActions(s, s.loops[l].batch[0]);
      WithTodo(s.(loops := s.loops[l := L.Apply(s.loops[l], L.Event<Task, nat>.RunNext)]), l, acts)
    case Act(l, drained) => ApplyAction(s, l, drained)
    case UserSend(l, c) => WithMask(s, c, MaskOf(s, c).(write := true))
    case UserRead(l, c, on) => WithMask(s, c, MaskOf(s, c).(read := on))
    case OwnShutdown(l, c) => WithTodo(s, l, [ShutdownStore(c)] + s.todo[l])
    case ShutdownLook(t, c) => s.(stores := s.stores + {Store(t, c)})
    case ShutdownWrite(t, c) => WithConn(s.(stores := s.stores - {Store(t, c)}), c, s.conns[c].(phase := C.Disconnecting))
    case UserForceClose(who, c) => PushOn(s, s.conns[c].loop, who, ForceCloseTask(c))
    case Notify(c) => PushOn(s, s.conns[c].loop, Owner, NoticeTask(c))
    case Admit(fd) => WithTodo(WithNew(s, fd), 0, [FirstAction(s)])
    case Drop(c) => WithoutConn(s, c)
  }
}
