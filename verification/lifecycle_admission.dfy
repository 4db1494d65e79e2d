/** Where connections come from and where they go: newConnection, and the last shared pointer dropped. */
module LifecycleAdmission {
  import L = LoopSpec
  import P = PollerSpec
  import R = ServerSpec
  import C = ConnSpec
  import Naming
  import opened Lifecycle
  import opened LifecycleInv
  import opened LifecycleSteps
  import opened LifecycleEvents

  /** Connections may come, but those that are there stay as they are. */
  ghost predicate Grows(s: System, t: System) {
    forall c :: c in s.conns ==> c in t.conns && t.conns[c] == s.conns[c]
  }

  lemma RegisteredIffPresent(r: R.Registry, c: nat)
    requires R.Faithful(r)
    ensures R.Registered(r, c) <==> c in r.present
  {
    hide Naming.ConnName;
  }

  // ---- newConnection ----------------------------------------------------------------------

  lemma FreshId(s: System)
    requires RegistryOk(s)
    ensures s.registry.nextId !in s.conns
  {
    hide R.Faithful;
  }

  lemma AdmitRegistry(s: System, t: System, fd: int)
    requires Sized(s) && RegistryOk(s) && Admits(s, fd) && t == WithTodo(WithNew(s, fd), 0, [FirstAction(s)])
    ensures RegistryOk(t) && R.Registered(t.registry, s.registry.nextId)
    ensures forall d :: d in s.conns ==> R.Registered(t.registry, d) == R.Registered(s.registry, d)
  {
    hide R.Faithful, R.Registered, Naming.ConnName, Naming.Fits, P.Attach;
    R.AdmitFaithful(s.registry);
    RegisteredIffPresent(t.registry, s.registry.nextId);
    forall d | d in s.conns ensures R.Registered(t.registry, d) == R.Registered(s.registry, d) {
      RegisteredIffPresent(t.registry, d);
      RegisteredIffPresent(s.registry, d);
    }
  }

  lemma NewGrows(s: System, t: System, fd: int)
    requires Sized(s) && RegistryOk(s) && Admits(s, fd) && t == WithTodo(WithNew(s, fd), 0, [FirstAction(s)])
    ensures Grows(s, t) && s.registry.nextId !in s.conns
    ensures forall l, c :: Live(t, l, c) <==> Live(s, l, c) || (c == s.registry.nextId && l == R.NextLoop(s.registry.pool))
  {
    hide R.Admit, P.Attach, R.Faithful, Naming.Fits;
  }

  lemma NotLive(s: System, l: nat, c: nat)
    requires c !in s.conns
    ensures !Live(s, l, c)
  {
  }

  lemma AdmitPoller(s: System, t: System, fd: int, l: nat)
    requires Frame(s) && l < |s.pollers| && Admits(s, fd) && t == WithTodo(WithNew(s, fd), 0, [FirstAction(s)])
    ensures PollerOk(t, l)
  {
    hide LoopOk, RegistryOk, P.Agree, R.Admit, Naming.Fits, Live;
    assert PollerOk(s, l);
    NewGrows(s, t, fd);
    if l == R.NextLoop(s.registry.pool) {
      NotLive(s, l, s.registry.nextId);
      P.AttachAgrees(s.pollers[l], s.registry.nextId, fd);
    }
  }

  lemma TasksGrow(s: System, t: System, l: nat, k: Task)
    requires Grows(s, t) && TaskOk(s, l, k)
    ensures TaskOk(t, l, k)
  {
  }

  lemma ActionsGrow(s: System, t: System, l: nat, a: Action)
    requires Grows(s, t) && l < |s.loops| && t.loops == s.loops && ActionOk(s, l, a)
    ensures ActionOk(t, l, a)
  {
  }

  lemma FirstPlaced(s: System, t: System, fd: int)
    requires Sized(s) && Admits(s, fd) && t == WithTodo(WithNew(s, fd), 0, [FirstAction(s)])
    ensures ActionOk(t, 0, FirstAction(s))
  {
    hide R.Admit, P.Attach, Naming.Fits;
  }

  lemma AdmitLoop(s: System, t: System, fd: int, l: nat)
    requires Frame(s) && l < |s.loops| && Admits(s, fd) && t == WithTodo(WithNew(s, fd), 0, [FirstAction(s)])
    ensures LoopOk(t, l)
  {
    hide L.Inv, Queue, RegistryOk, PollerOk, TaskOk, ActionOk, Live, Grows, R.Admit, P.Attach, Naming.Fits;
    assert LoopOk(s, l);
    NewGrows(s, t, fd);
    FirstPlaced(s, t, fd);
    forall k | k in Queue(t.loops[l]) ensures TaskOk(t, l, k) {
      TasksGrow(s, t, l, k);
    }
    forall a | a in t.todo[l] ensures ActionOk(t, l, a) {
      if a in s.todo[l] { ActionsGrow(s, t, l, a); }
    }
  }

  lemma AdmitFrame(s: System, fd: int) returns (t: System)
    requires Frame(s) && Admits(s, fd)
    ensures t == WithTodo(WithNew(s, fd), 0, [FirstAction(s)]) && Frame(t)
  {
    hide LoopOk, RegistryOk, PollerOk, R.Admit, Naming.Fits, FirstAction;
    t := WithTodo(WithNew(s, fd), 0, [FirstAction(s)]);
    AdmitRegistry(s, t, fd);
    forall l | 0 <= l < |t.loops| ensures LoopOk(t, l) {
      AdmitLoop(s, t, fd, l);
    }
    forall l | 0 <= l < |t.pollers| ensures PollerOk(t, l) {
      AdmitPoller(s, t, fd, l);
    }
  }

  lemma FirstUnnamed(a: Action, d: nat)
    requires !ActionNames(a, d)
    ensures SameActions([], [a], d)
  {
    forall b | ActionNames(b, d) ensures Count([a], b) == 0 && b !in [a] {
    }
  }

  lemma AdmitOthers(s: System, t: System, fd: int, d: nat)
    requires Frame(s) && Frame(t) && Admits(s, fd) && t == WithTodo(WithNew(s, fd), 0, [FirstAction(s)]) && d in s.conns
    ensures LocalOf(t, d) == LocalOf(s, d)
  {
    hide LoopOk, PollerOk, RegistryOk, Queue, R.Registered, R.Admit, Naming.Fits, SameActions, Count, Closing,
         Erasing, Leaving, Busy;
    AdmitRegistry(s, t, fd);
    FreshId(s);
    FirstUnnamed(FirstAction(s), d);
    SameFlags([], [FirstAction(s)], d);
  }

  /** No functor and no action yet knows a connection that does not exist. */
  lemma Unknown(s: System, l: nat, c: nat)
    requires Frame(s) && l < |s.loops| && c !in s.conns
    ensures forall k :: k in Queue(s.loops[l]) ==> !TaskNames(k, c)
    ensures forall a :: a in s.todo[l] ==> !ActionNames(a, c)
    ensures L.Fd(c) !in s.loops[l].active && !Calling(s.stores, c)
  {
    hide L.Inv, Queue, R.Faithful, PollerOk;
    assert LoopOk(s, l);
    forall k | k in Queue(s.loops[l]) ensures !TaskNames(k, c) {
      assert TaskOk(s, l, k);
    }
    forall a | a in s.todo[l] ensures !ActionNames(a, c) {
      assert ActionOk(s, l, a);
    }
  }

  lemma NewView(v: Local, q0: seq<Task>, q: seq<Task>, acts0: seq<Action>, acts: seq<Action>, m: nat, c: nat)
    requires v == View(Conn(m, C.Disconnected, false, false, 0, 0), true, P.New, false, false, q0, q, acts0, acts, c)
    requires (forall k :: k in q0 ==> !TaskNames(k, c)) && (forall k :: k in q ==> !TaskNames(k, c))
    requires acts0 == [if m == 0 then Up(c) else QueueEstablish(c)]
    requires if m == 0 then acts == acts0 else forall a :: a in acts ==> !ActionNames(a, c)
    ensures LocalOk(v)
  {
    CountNone(q, EstablishTask(c));
    if m == 0 {
      CountNone(acts0, QueueEstablish(c));
    } else {
      CountNone(acts, Up(c));
    }
  }

  lemma AdmitOwn(s: System, t: System, fd: int)
    requires Frame(s) && Frame(t) && Admits(s, fd) && t == WithTodo(WithNew(s, fd), 0, [FirstAction(s)])
    ensures LocalOk(LocalOf(t, s.registry.nextId))
  {
    hide LoopOk, PollerOk, RegistryOk, Queue, R.Registered, R.Admit, Naming.Fits, LocalOk;
    var c, m := s.registry.nextId, R.NextLoop(s.registry.pool);
    AdmitRegistry(s, t, fd);
    FreshId(s);
    Unknown(s, 0, c);
    Unknown(s, m, c);
    NewView(LocalOf(t, c), Queue(t.loops[0]), Queue(t.loops[m]), t.todo[0], t.todo[m], m, c);
  }

  lemma AdmitStep(s: System, fd: int) returns (t: System)
    requires Inv(s) && Admits(s, fd)
    ensures t == WithTodo(WithNew(s, fd), 0, [FirstAction(s)]) && Inv(t)
  {
    hide LoopOk, RegistryOk, PollerOk, LocalOf, LocalOk, R.Admit, Naming.Fits, FirstAction;
    t := AdmitFrame(s, fd);
    AdmitOwn(s, t, fd);
    forall d | d in t.conns ensures LocalOk(LocalOf(t, d)) {
      if d != s.registry.nextId { AdmitOthers(s, t, fd, d); }
    }
  }

  // ---- the last reference goes ------------------------------------------------------------

  lemma NothingOwns(v: Local, q0: seq<Task>, q: seq<Task>, acts0: seq<Action>, acts: seq<Action>, c: nat)
    requires v == View(v.conn, v.inMap, v.index, v.active, v.calling, q0, q, acts0, acts, c) && !v.inMap
    requires (forall k :: k in q0 ==> !TaskNames(k, c)) && (forall k :: k in q ==> !TaskNames(k, c))
    requires (forall a :: a in acts0 ==> !ActionNames(a, c)) && (forall a :: a in acts ==> !ActionNames(a, c))
    ensures !Owned(v)
  {
  }

  /** What no shared pointer holds is out of its poller: Channel's destructor may run. */
  lemma UnheldIsUnregistered(s: System, c: nat)
    requires Inv(s) && c in s.conns && Unheld(s, c)
    ensures LocalOf(s, c).index == P.New && !LocalOf(s, c).active
    ensures !P.HasChannel(s.pollers[s.conns[c].loop], c)
  {
    hide LoopOk, RegistryOk, Queue, R.Registered, LocalOk, TaskNames, ActionNames;
    var m, v := s.conns[c].loop, LocalOf(s, c);
    NothingOwns(v, Queue(s.loops[0]), Queue(s.loops[m]), s.todo[0], s.todo[m], c);
    UnownedIsNew(v);
    assert PollerOk(s, m);
    P.AgreementMeaning(s.pollers[m], c);
  }

  lemma UnownedIsNew(v: Local)
    requires LocalOk(v) && !Owned(v)
    ensures v.index == P.New && !v.active && v.conn.gone
  {
  }

  lemma DropRegistry(s: System, t: System, c: nat)
    requires RegistryOk(s) && c in s.conns && s.conns[c].loop < |s.pollers| && Unheld(s, c) && t == WithoutConn(s, c)
    ensures RegistryOk(t)
  {
    hide R.Faithful, R.Registered, P.Detach;
    RegisteredIffPresent(s.registry, c);
  }

  lemma DropPoller(s: System, t: System, c: nat, l: nat)
    requires Inv(s) && c in s.conns && Unheld(s, c) && t == WithoutConn(s, c) && l < |s.pollers|
    ensures PollerOk(t, l)
  {
    hide LoopOk, RegistryOk, LocalOk, LocalOf, Unheld, P.Agree;
    assert PollerOk(s, l);
    if l == s.conns[c].loop {
      UnheldIsUnregistered(s, c);
      P.DetachAgrees(s.pollers[l], c);
    }
  }

  lemma DropLoop(s: System, t: System, c: nat, l: nat)
    requires Inv(s) && c in s.conns && Unheld(s, c) && t == WithoutConn(s, c) && l < |s.loops|
    ensures LoopOk(t, l)
  {
    hide L.Inv, Queue, RegistryOk, PollerOk, LocalOk, LocalOf, P.Detach;
    assert LoopOk(s, l);
    UnheldIsUnregistered(s, c);
    ActiveFlag(s, c);
    forall k | k in Queue(t.loops[l]) ensures TaskOk(t, l, k) {
      assert TaskOk(s, l, k) && !TaskNames(k, c);
    }
    forall a | a in t.todo[l] ensures ActionOk(t, l, a) {
      assert ActionOk(s, l, a) && !ActionNames(a, c);
    }
    forall d | L.Fd(d) in t.loops[l].active ensures Live(t, l, d) {
      assert Live(s, l, d);
    }
  }

  lemma DropFrame(s: System, c: nat) returns (t: System)
    requires Inv(s) && c in s.conns && Unheld(s, c)
    ensures t == WithoutConn(s, c) && Frame(t)
  {
    hide LoopOk, RegistryOk, PollerOk, LocalOk, LocalOf, Unheld;
    t := WithoutConn(s, c);
    DropRegistry(s, t, c);
    forall l | 0 <= l < |t.loops| ensures LoopOk(t, l) {
      DropLoop(s, t, c, l);
    }
    forall l | 0 <= l < |t.pollers| ensures PollerOk(t, l) {
      DropPoller(s, t, c, l);
    }
  }

  lemma DropOthers(s: System, t: System, c: nat, d: nat)
    requires Sized(s) && Sized(t) && c in s.conns && t == WithoutConn(s, c) && d in t.conns
    ensures LocalOf(t, d) == LocalOf(s, d)
  {
    hide Queue, R.Registered, Count, Closing, Erasing, Leaving, Busy;
  }

  lemma DropStep(s: System, c: nat) returns (t: System)
    requires Inv(s) && c in s.conns && Unheld(s, c)
    ensures t == WithoutConn(s, c) && Inv(t)
  {
    hide LoopOk, RegistryOk, PollerOk, LocalOk, LocalOf, Unheld, P.Detach;
    t := DropFrame(s, c);
    forall d | d in t.conns ensures LocalOk(LocalOf(t, d)) {
      DropOthers(s, t, c, d);
    }
  }
}
