/**
 One run of a server with a single loop, showing that what LifecycleSafety allows for does happen: a
 connection is force-closed while another thread is inside shutdown(), and a callback that the user's
 own functor caused runs after connectDestroyed.
 */
module LifecycleWitness {
  import opened Threads
  import L = LoopSpec
  import P = PollerSpec
  import R = ServerSpec
  import C = ConnSpec
  import Naming
  import opened Lifecycle
  import opened LifecycleInv
  import opened LifecycleRuns
  import opened LifecycleSafety

  const FD := 7
  const CALLER: nat := 5
  const READING := P.Mask(true, false)

  /** A server with one loop and one connection, its poller's three records in agreement. */
  datatype Snap = Snap(reg: R.Registry, lp: L.Loop<Task, nat>, mask: P.Mask, index: P.Index,
                       acts: seq<Action>, stores: set<Store>, conn: Conn)

  function OneChannel(mask: P.Mask, index: P.Index): P.Poller<nat> {
    P.Poller(map[1 := P.Chan(FD, mask, index)], if index == P.New then map[] else map[FD := 1],
             if index == P.Added then map[FD := P.Reg(mask, 1)] else map[], 0)
  }

  function Of(x: Snap): System {
    System(x.reg, [x.lp], [OneChannel(x.mask, x.index)], [x.acts], x.stores, map[1 := x.conn])
  }

  ghost predicate Hit(x: Snap) {
    x.conn.loop == 0 && Reachable(Of(x))
  }

  // ---- single events ----------------------------------------------------------------------

  lemma SnapSized(x: Snap)
    requires x.conn.loop == 0
    ensures Sized(Of(x))
  {
  }

  function IndexAfter(index: P.Index, to: P.Mask): P.Index {
    if index == P.Added && to == P.NO_EVENT then P.Deleted else P.Added
  }

  lemma SetOneChannel(mask: P.Mask, index: P.Index, to: P.Mask)
    ensures P.SetMask(OneChannel(mask, index), 1, to) == OneChannel(to, IndexAfter(index, to))
  {
    var now, want := P.SetMask(OneChannel(mask, index), 1, to), OneChannel(to, IndexAfter(index, to));
    assert now.chans == want.chans && now.table == want.table && now.kernel == want.kernel;
  }

  lemma RemoveOneChannel(mask: P.Mask, index: P.Index)
    ensures P.RemoveChannel(OneChannel(mask, index), 1) == OneChannel(mask, P.New)
  {
    var now, want := P.RemoveChannel(OneChannel(mask, index), 1), OneChannel(mask, P.New);
    assert now.chans == want.chans && now.table == want.table && now.kernel == want.kernel;
  }

  lemma Goes(x: Snap, e: Event, y: Snap)
    requires Hit(x) && Sized(Of(x)) && Enabled(Of(x), e) && Apply(Of(x), e) == Of(y) && y.conn.loop == 0
    ensures Hit(y)
  {
    hide Reachable, Sized, Enabled, Apply;
    var t := Next(Of(x), e);
  }

  lemma LoopGoes(x: Snap, e: L.Event<Task, nat>) returns (y: Snap)
    requires Hit(x) && |Of(x).loops| == |Of(x).todo| == |Of(x).pollers| && ProtocolAllowed(Of(x), 0, e)
    ensures y == x.(lp := L.Apply(x.lp, e)) && Hit(y)
  {
    hide Reachable, L.Apply;
    SnapSized(x);
    y := x.(lp := L.Apply(x.lp, e));
    Goes(x, Protocol(0, e), y);
  }

  lemma ForceCloseGoes(x: Snap) returns (y: Snap)
    requires Hit(x) && x.conn.up && L.Enabled(x.lp, L.Event<Task, nat>.Push(Owner, ForceCloseTask(1)))
    ensures y == x.(lp := L.Apply(x.lp, L.Event<Task, nat>.Push(Owner, ForceCloseTask(1)))) && Hit(y)
  {
    hide Reachable, L.Apply, L.Enabled;
    SnapSized(x);
    y := x.(lp := L.Apply(x.lp, L.Event<Task, nat>.Push(Owner, ForceCloseTask(1))));
    Goes(x, UserForceClose(Owner, 1), y);
  }

  lemma NotifyGoes(x: Snap) returns (y: Snap)
    requires Hit(x) && x.conn.up && L.Enabled(x.lp, L.Event<Task, nat>.Push(Owner, NoticeTask(1)))
    ensures y == x.(lp := L.Apply(x.lp, L.Event<Task, nat>.Push(Owner, NoticeTask(1)))) && Hit(y)
  {
    hide Reachable, L.Apply, L.Enabled;
    SnapSized(x);
    y := x.(lp := L.Apply(x.lp, L.Event<Task, nat>.Push(Owner, NoticeTask(1))));
    Goes(x, Notify(1), y);
  }

  lemma RunGoes(x: Snap) returns (y: Snap)
    requires Hit(x) && x.acts == [] && L.Enabled(x.lp, L.Event<Task, nat>.RunNext)
    ensures y == x.(lp := L.Apply(x.lp, L.Event<Task, nat>.RunNext), acts := TaskActions(Of(x), x.lp.batch[0])) && Hit(y)
  {
    hide Reachable, L.Apply, TaskActions;
    SnapSized(x);
    y := x.(lp := L.Apply(x.lp, L.Event<Task, nat>.RunNext), acts := TaskActions(Of(x), x.lp.batch[0]));
    Goes(x, Run(0), y);
  }

  lemma LookGoes(x: Snap) returns (y: Snap)
    requires Hit(x) && x.conn.phase == C.Connected && x.stores == {}
    ensures y == x.(stores := {Store(CALLER, 1)}) && Hit(y)
  {
    hide Reachable;
    SnapSized(x);
    y := x.(stores := {Store(CALLER, 1)});
    assert {} + {Store(CALLER, 1)} == {Store(CALLER, 1)};
    Goes(x, ShutdownLook(CALLER, 1), y);
  }

  lemma WriteGoes(x: Snap) returns (y: Snap)
    requires Hit(x) && x.stores == {Store(CALLER, 1)}
    ensures y == x.(stores := {}, conn := x.conn.(phase := C.Disconnecting)) && Hit(y)
  {
    hide Reachable;
    SnapSized(x);
    y := x.(stores := {}, conn := x.conn.(phase := C.Disconnecting));
    assert {Store(CALLER, 1)} - {Store(CALLER, 1)} == {};
    Goes(x, ShutdownWrite(CALLER, 1), y);
  }

  /** What the one action at hand makes of the snapshot, when it neither queues a functor nor needs one. */
  function Done(x: Snap, a: Action): Snap
    requires !a.QueueEstablish? && !a.QueueDestroy? && !a.WriteEvent?
  {
    match a
    case Up(_) =>
      x.(mask := x.mask.(read := true), index := IndexAfter(x.index, x.mask.(read := true)),
         conn := x.conn.(phase := C.Connected, up := true), acts := [User(1)])
    case CloseBegin(_) => x.(mask := P.NO_EVENT, index := IndexAfter(x.index, P.NO_EVENT), acts := [CloseUser(1)])
    case CloseUser(_) => x.(acts := [CloseEnd(1)])
    case CloseEnd(_) => x.(acts := [EraseEntry(1)])
    case EraseEntry(_) =>
      x.(reg := R.Erase(x.reg, 1), acts := [QueueDestroy(1)],
         conn := x.conn.(erased := x.conn.erased + if R.Registered(x.reg, 1) then 1 else 0))
    case Down(_) => x.(acts := [if x.conn.phase == C.Connected then DownStore(1) else Unregister(1)])
    case DownStore(_) =>
      x.(mask := P.NO_EVENT, index := IndexAfter(x.index, P.NO_EVENT), acts := [DownUser(1)],
         conn := x.conn.(phase := C.Disconnected, downs := x.conn.downs + 1))
    case DownUser(_) => x.(acts := [Unregister(1)])
    case Unregister(_) => x.(index := P.New, conn := x.conn.(gone := true), acts := [])
    case ShutdownStore(_) => x.(conn := x.conn.(phase := C.Disconnecting), acts := [])
    case _ => x.(acts := [])
  }

  lemma ActGoes(x: Snap, a: Action) returns (y: Snap)
    requires Hit(x) && x.acts == [a] && (a.UserFree? || a.c == 1) && !a.QueueEstablish? && !a.QueueDestroy?
    requires !a.WriteEvent?
    ensures y == Done(x, a) && Hit(y)
  {
    hide Reachable, P.SetMask, P.RemoveChannel, R.Erase, R.Registered;
    SnapSized(x);
    y := Done(x, a);
    SetOneChannel(x.mask, x.index, x.mask.(read := true));
    SetOneChannel(x.mask, x.index, P.NO_EVENT);
    RemoveOneChannel(x.mask, x.index);
    assert map[1 := x.conn][1 := y.conn] == map[1 := y.conn];
    assert [a][1..] == [] && y.acts + [] == y.acts;
    assert [OneChannel(x.mask, x.index)][0 := OneChannel(y.mask, y.index)] == [OneChannel(y.mask, y.index)];
    var t := ApplyAction(Of(x), 0, false);
    assert t.todo == Of(y).todo;
    assert t.conns == Of(y).conns;
    assert t.pollers == Of(y).pollers;
    assert t.registry == Of(y).registry;
    Goes(x, Act(0, false), y);
  }

  lemma QueueDestroyGoes(x: Snap) returns (y: Snap)
    requires Hit(x) && x.acts == [QueueDestroy(1)] && L.Enabled(x.lp, L.Event<Task, nat>.Push(Owner, DestroyTask(1)))
    ensures y == x.(lp := L.Apply(x.lp, L.Event<Task, nat>.Push(Owner, DestroyTask(1))), acts := []) && Hit(y)
  {
    hide Reachable, L.Apply, L.Enabled;
    SnapSized(x);
    y := x.(lp := L.Apply(x.lp, L.Event<Task, nat>.Push(Owner, DestroyTask(1))), acts := []);
    assert [QueueDestroy(1)][1..] == [];
    Goes(x, Act(0, false), y);
  }

  // ---- the run ----------------------------------------------------------------------------

  /** The loop between events: nobody holds the mutex. */
  function Quiet(pc: L.Pc, batch: seq<Task>, pending: seq<Task>, counter: nat, executed: seq<Task>): L.Loop<Task, nat> {
    L.Loop(pc, [], pending, batch, counter, false, pc == L.Calling || pc == L.Running, L.Free, {},
           executed + batch + pending, executed)
  }

  function Opened(): R.Registry { R.Open("s", 0) }

  function Admitted(): R.Registry { R.Admit(Opened()) }

  function Erased(): R.Registry { R.Erase(Admitted(), 1) }

  lemma Entries()
    ensures Opened().nextId == 1 && R.NextLoop(Opened().pool) == 0 && Naming.Fits(Opened().name, 1)
    ensures R.Registered(Admitted(), 1) && !R.Registered(Erased(), 1)
  {
  }

  lemma Polled() returns (s: System)
    ensures Reachable(s)
    ensures s == System(Opened(), [Quiet(L.Dispatching, [], [], 0, [])], [P.Poller(map[], map[], map[], 0)], [[]], {}, map[])
  {
    hide Naming.ConnName, Reachable;
    var s0 := Fresh();
    var s1 := Next(s0, Protocol(0, L.Event<Task, nat>.Test));
    s := Next(s1, Protocol(0, L.Event<Task, nat>.PollReturns([])));
  }

  lemma Fresh() returns (s: System)
    ensures Reachable(s)
    ensures s == System(Opened(), [Quiet(L.Check, [], [], 0, [])], [P.Poller(map[], map[], map[], 0)], [[]], {}, map[])
  {
    s := System(Opened(), [Quiet(L.Check, [], [], 0, [])], [P.Poller(map[], map[], map[], 0)], [[]], {}, map[]);
    assert Started(s) && Legal(s, []) && Exec(s, []) == s;
  }

  /** Accepted and established: the thread is in the user's connection callback. */
  lemma Established() returns (x: Snap)
    ensures x == Snap(Admitted(), Quiet(L.Dispatching, [], [], 0, []), READING, P.Added, [User(1)], {},
                      Conn(0, C.Connected, true, false, 0, 0)) && Hit(x)
  {
    hide Reachable, R.Admit, Naming.Fits;
    var s := Polled();
    Entries();
    var t := Next(s, Admit(FD));
    var y := Snap(Admitted(), Quiet(L.Dispatching, [], [], 0, []), P.NO_EVENT, P.New, [Up(1)], {},
                  Conn(0, C.Disconnected, false, false, 0, 0));
    assert t == Of(y);
    x := ActGoes(y, Up(1));
  }

  /** The user force-closes, leaves a functor for later, and returns; another thread is inside shutdown(). */
  lemma Requested() returns (x: Snap)
    ensures x == Snap(Admitted(), Quiet(L.Dispatching, [], [ForceCloseTask(1), UserTask(0)], 0, []), READING, P.Added, [],
                      {Store(CALLER, 1)}, Conn(0, C.Connected, true, false, 0, 0)) && Hit(x)
  {
    hide Hit, TaskActions, R.Admit;
    x := Established();
    x := ForceCloseGoes(x);
    x := LoopGoes(x, L.Event<Task, nat>.Release(Owner));
    x := LoopGoes(x, L.Event<Task, nat>.Push(Owner, UserTask(0)));
    x := LoopGoes(x, L.Event<Task, nat>.Release(Owner));
    x := LookGoes(x);
    x := ActGoes(x, User(1));
  }

  /** The forced close goes all the way to the queued connectDestroyed. */
  lemma Closed() returns (x: Snap)
    ensures x == Snap(Erased(), Quiet(L.Running, [UserTask(0)], [DestroyTask(1)], 1, [ForceCloseTask(1)]), P.NO_EVENT, P.Deleted,
                      [], {Store(CALLER, 1)}, Conn(0, C.Connected, true, false, 0, 1)) && Hit(x)
  {
    hide Hit, R.Admit, R.Erase, R.Registered;
    x := Requested();
    Entries();
    x := LoopGoes(x, L.Event<Task, nat>.BeginCalling);
    x := LoopGoes(x, L.Event<Task, nat>.SwapOut);
    x := RunGoes(x);
    x := ActGoes(x, CloseBegin(1));
    x := ActGoes(x, CloseUser(1));
    x := ActGoes(x, CloseEnd(1));
    x := ActGoes(x, EraseEntry(1));
    x := QueueDestroyGoes(x);
    x := LoopGoes(x, L.Event<Task, nat>.Release(Owner));
  }

  /** The user's functor sends, as the connection still counts as connected: a callback is queued behind connectDestroyed. */
  lemma Noticed() returns (x: Snap)
    ensures x == Snap(Erased(), Quiet(L.Running, [], [DestroyTask(1), NoticeTask(1)], 2, [ForceCloseTask(1), UserTask(0)]),
                      P.NO_EVENT, P.Deleted, [], {Store(CALLER, 1)}, Conn(0, C.Connected, true, false, 0, 1)) && Hit(x)
  {
    hide Hit, R.Admit, R.Erase;
    x := Closed();
    x := RunGoes(x);
    x := NotifyGoes(x);
    x := LoopGoes(x, L.Event<Task, nat>.Release(Owner));
    x := ActGoes(x, UserFree);
  }

  /** The next batch begins: connectDestroyed has looked and seen kConnected. */
  lemma Looked() returns (x: Snap)
    ensures x == Snap(Erased(), Quiet(L.Running, [NoticeTask(1)], [], 2, [ForceCloseTask(1), UserTask(0), DestroyTask(1)]),
                      P.NO_EVENT, P.Deleted, [DownStore(1)], {Store(CALLER, 1)}, Conn(0, C.Connected, true, false, 0, 1)) && Hit(x)
  {
    hide Hit, R.Admit, R.Erase;
    x := Noticed();
    x := LoopGoes(x, L.Event<Task, nat>.EndCalling);
    x := LoopGoes(x, L.Event<Task, nat>.Test);
    x := LoopGoes(x, L.Event<Task, nat>.PollReturns([]));
    x := LoopGoes(x, L.Event<Task, nat>.BeginCalling);
    x := LoopGoes(x, L.Event<Task, nat>.SwapOut);
    x := RunGoes(x);
    x := ActGoes(x, Down(1));
  }

  /**
   A report after a completed shutdown(): its store falls between connectDestroyed's look and store. The
   state goes from disconnecting to disconnected, and the user is told, though shutdown() came first.
   */
  lemma ReportedAfterShutdown() returns (r: System, s: System, t: System)
    ensures Reachable(r) && Sized(r) && Enabled(r, ShutdownWrite(CALLER, 1)) && s == Apply(r, ShutdownWrite(CALLER, 1))
    ensures Reachable(s) && 1 in s.conns && s.conns[1].phase == C.Disconnecting && s.conns[1].downs == 0
    ensures s.stores == {}
    ensures Reachable(t) && 1 in t.conns && t.conns[1].phase == C.Disconnected && t.conns[1].downs == 1
  {
    hide Reachable, R.Admit, R.Erase, P.SetMask;
    var x := Looked();
    var y := WriteGoes(x);
    var z := ActGoes(y, DownStore(1));
    r, s, t := Of(x), Of(y), Of(z);
    SnapSized(x);
    assert {Store(CALLER, 1)} - {Store(CALLER, 1)} == {};
  }

  /** The other way round: the store of shutdown() comes last, and hides that the user has been told. */
  lemma ShutdownStoresLast() returns (s: System)
    ensures Reachable(s) && 1 in s.conns && s.conns[1].phase == C.Disconnecting && s.conns[1].downs == 1
    ensures s.stores == {}
  {
    hide Reachable, R.Admit, R.Erase, P.SetMask;
    var x := Looked();
    var y := ActGoes(x, DownStore(1));
    var z := WriteGoes(y);
    s := Of(z);
  }

  /** The queued callback runs, in user code, when connectDestroyed is over and done with. */
  lemma CalledBackLate() returns (x: Snap)
    ensures x == Snap(Erased(), Quiet(L.Running, [], [], 2, [ForceCloseTask(1), UserTask(0), DestroyTask(1), NoticeTask(1)]),
                      P.NO_EVENT, P.New, [User(1)], {}, Conn(0, C.Disconnecting, true, true, 1, 1)) && Hit(x)
  {
    hide Hit, R.Admit, R.Erase;
    x := Looked();
    x := ActGoes(x, DownStore(1));
    x := WriteGoes(x);
    x := ActGoes(x, DownUser(1));
    x := ActGoes(x, Unregister(1));
    x := RunGoes(x);
  }

  /** startRead in that callback: the channel is registered again, and nothing is left that would take it out. */
  lemma StartReadAfterDestruction() returns (s: System, t: System)
    ensures Reachable(s) && Sized(s) && InUser(s, 0) && Live(s, 0, 1)
    ensures s.conns[1].up && s.conns[1].gone && !RemovalOnItsWay(s, 1)
    ensures t == WithTodo(WithMask(s, 1, MaskOf(s, 1).(read := true)), 0, [])
    ensures InPoller(t, 1) && Unheld(t, 1)
  {
    hide Reachable, R.Admit, R.Erase, P.SetMask, R.Registered;
    var x := CalledBackLate();
    Entries();
    s := Of(x);
    SnapSized(x);
    SetOneChannel(x.mask, x.index, READING);
    t := WithTodo(WithMask(s, 1, MaskOf(s, 1).(read := true)), 0, []);
    assert t == Of(x.(mask := READING, index := P.Added, acts := []));
  }
}
