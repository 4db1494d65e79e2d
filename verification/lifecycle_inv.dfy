/** The invariant of the connection lifecycle, and its preservation by every step. */
module LifecycleInv {
  import opened Threads
  import L = LoopSpec
  import P = PollerSpec
  import R = ServerSpec
  import C = ConnSpec
  import opened Lifecycle

  ghost function Count<T>(s: seq<T>, x: T): nat {
    multiset(s)[x]
  }

  /** Everything about the system that one connection's fate depends on. */
  datatype Local = Local(
    conn: Conn,
    inMap: bool,
    index: P.Index,
    /** Its connectEstablished still to be queued, or queued and not yet run. */
    opening: nat,
    starts: nat,
    removing: bool,
    destroying: bool,
    closing: bool,
    erasing: bool,
    posting: bool,
    downing: bool,
    storing: bool,
    leaving: bool,
    handling: bool,
    busy: bool,
    calling: bool,
    active: bool)

  ghost predicate Closing(acts: seq<Action>, c: nat) {
    CloseUser(c) in acts || CloseEnd(c) in acts
  }

  ghost predicate Erasing(acts: seq<Action>, c: nat) {
    EraseEntry(c) in acts || QueueDestroy(c) in acts
  }

  ghost predicate Leaving(acts: seq<Action>, c: nat) {
    DownUser(c) in acts || Unregister(c) in acts
  }

  ghost predicate Busy(acts: seq<Action>, c: nat) {
    User(c) in acts || CloseBegin(c) in acts || ShutdownStore(c) in acts
  }

  /** Another thread is in the middle of shutdown(). */
  ghost predicate Calling(stores: set<Store>, c: nat) {
    exists st :: st in stores && st.c == c
  }

  /** The view of c: q and acts are those of the loop it lives on, q0 and acts0 those of the server's loop. */
  ghost function View(conn: Conn, inMap: bool, index: P.Index, active: bool, calling: bool,
                      q0: seq<Task>, q: seq<Task>, acts0: seq<Action>, acts: seq<Action>, c: nat): Local
  {
    Local(conn, inMap, index,
          Count(acts0, QueueEstablish(c)), Count(q, EstablishTask(c)) + Count(acts, Up(c)),
          RemoveTask(c) in q0, DestroyTask(c) in q,
          Closing(acts, c), Erasing(acts0, c), QueueDestroy(c) in acts0,
          Down(c) in acts, DownStore(c) in acts, Leaving(acts, c), WriteEvent(c) in acts,
          ForceCloseTask(c) in q || NoticeTask(c) in q || Busy(acts, c), calling,
          active)
  }

  ghost function LocalOf(s: System, c: nat): Local
    requires Sized(s) && c in s.conns
  {
    var m := s.conns[c].loop;
    View(s.conns[c], R.Registered(s.registry, c), s.pollers[m].chans[c].index, L.Fd(c) in s.loops[m].active,
         Calling(s.stores, c), Queue(s.loops[0]), Queue(s.loops[m]), s.todo[0], s.todo[m], c)
  }

  /** Held by the map, by a removeConnectionInLoop or by a connectDestroyed, pending or running. */
  ghost predicate Owned(v: Local) {
    v.inMap || v.removing || v.destroying || v.closing || v.erasing || v.downing || v.storing || v.leaving
  }

  ghost predicate LocalOk(v: Local) {
    && (v.conn.up ==> v.opening + v.starts == 0)
    && (!v.conn.up ==>
          && v.opening + v.starts == 1 && v.inMap && v.index == P.New && v.conn.phase == C.Disconnected
          && !v.removing && !v.destroying && !v.closing && !v.erasing && !v.downing && !v.storing && !v.leaving
          && !v.handling && !v.busy && !v.calling && !v.active
          && !v.conn.gone && v.conn.downs == 0)
    && (!v.conn.gone ==> Owned(v))
    && (v.conn.gone ==> v.conn.phase != C.Connected)
    && (v.index != P.New ==> Owned(v))
    && (v.active || v.handling ==> v.index != P.New)
    && (v.leaving ==> v.conn.phase != C.Connected)
    && v.conn.phase != C.Connecting
    && v.conn.downs <= 1
    && (v.conn.phase == C.Connected || v.storing ==> v.conn.downs == 0)
    && (v.conn.up && v.conn.phase == C.Disconnected ==> v.conn.downs == 1)
    && (v.posting || v.destroying || v.downing || v.storing || v.leaving || v.conn.gone || v.conn.downs > 0 ==> !v.inMap)
    && v.conn.erased == (if v.inMap then 0 else 1)
  }

  /** Every functor that names a connection names an existing one, and waits in the right queue. */
  ghost predicate TaskOk(s: System, l: nat, t: Task) {
    t.UserTask? || (t.c in s.conns && l == if t.RemoveTask? then 0 else s.conns[t.c].loop)
  }

  predicate OnServerLoop(a: Action) {
    a.QueueEstablish? || a.EraseEntry? || a.QueueDestroy?
  }

  predicate TearsDown(a: Action) {
    a.Down? || a.DownStore? || a.DownUser? || a.Unregister?
  }

  /** So does every action at hand; and channels leave a poller only in its loop's functor phase. */
  ghost predicate ActionOk(s: System, l: nat, a: Action)
    requires l < |s.loops|
  {
    || a.UserFree?
    || (a.c in s.conns
        && l == (if OnServerLoop(a) then 0 else s.conns[a.c].loop)
        && (TearsDown(a) ==> s.loops[l].pc == L.Running)
        && (a.WriteEvent? ==> s.loops[l].pc == L.Dispatching))
  }

  ghost predicate RegistryOk(s: System) {
    && R.Faithful(s.registry) && 1 <= s.registry.nextId
    && s.registry.pool.threads + 1 == |s.loops|
    && (s.registry.pool.next < s.registry.pool.threads || s.registry.pool == R.Pool(0, 0))
    && (forall c :: c in s.registry.present ==> c in s.conns)
    && (forall c :: c in s.conns ==> 1 <= c < s.registry.nextId)
    && (forall st :: st in s.stores ==> st.c in s.conns)
  }

  /** Nothing is ever put before connectDestroyed's store. */
  predicate StoresFirst(acts: seq<Action>) {
    forall i :: 1 <= i < |acts| ==> !acts[i].DownStore?
  }

  ghost predicate LoopOk(s: System, l: nat)
    requires l < |s.loops| == |s.todo|
  {
    && L.Inv(s.loops[l])
    && (s.todo[l] != [] ==> s.loops[l].pc == L.Dispatching || s.loops[l].pc == L.Running)
    && (s.loops[l].pc != L.Dispatching ==> s.loops[l].active == [])
    && (forall t :: t in Queue(s.loops[l]) ==> TaskOk(s, l, t))
    && (forall a :: a in s.todo[l] ==> ActionOk(s, l, a))
    && StoresFirst(s.todo[l])
    && (forall c :: L.Fd(c) in s.loops[l].active ==> Live(s, l, c))
  }

  ghost predicate PollerOk(s: System, l: nat)
    requires l < |s.pollers|
  {
    && P.Agree(s.pollers[l]) && s.pollers[l].faults == 0
    && (forall c :: c in s.pollers[l].chans <==> Live(s, l, c))
  }

  /** All of the invariant but the claims about single connections. */
  ghost predicate Frame(s: System) {
    && Sized(s) && RegistryOk(s)
    && (forall l :: 0 <= l < |s.loops| ==> LoopOk(s, l))
    && (forall l :: 0 <= l < |s.loops| ==> PollerOk(s, l))
  }

  ghost predicate Inv(s: System) {
    && Frame(s)
    && (forall c :: c in s.conns ==> LocalOk(LocalOf(s, c)))
  }

  // ---- how one connection's view changes --------------------------------------------------

  /** A flag after some tokens were dropped and others added. */
  ghost predicate Moves(was: bool, now: bool, dropped: bool, added: bool) {
    (now ==> was || added) && (added ==> now) && (was && !dropped ==> now)
  }

  /** The thread of its own loop has replaced action a by acts. */
  ghost predicate HomeChange(v: Local, w: Local, a: Action, acts: seq<Action>, c: nat) {
    && w.starts == v.starts + Count(acts, Up(c)) - (if a == Up(c) then 1 else 0)
    && Moves(v.closing, w.closing, a == CloseUser(c) || a == CloseEnd(c), Closing(acts, c))
    && Moves(v.downing, w.downing, a == Down(c), Down(c) in acts)
    && Moves(v.storing, w.storing, a == DownStore(c), DownStore(c) in acts)
    && Moves(v.leaving, w.leaving, a == DownUser(c) || a == Unregister(c), Leaving(acts, c))
    && Moves(v.handling, w.handling, a == WriteEvent(c), WriteEvent(c) in acts)
    && Moves(v.busy, w.busy, a == User(c) || a == CloseBegin(c) || a == ShutdownStore(c), Busy(acts, c))
  }

  ghost predicate HomeSame(v: Local, w: Local) {
    && w.starts == v.starts && w.closing == v.closing && w.downing == v.downing && w.storing == v.storing
    && w.leaving == v.leaving && w.handling == v.handling && w.busy == v.busy
  }

  /** The server's own thread has replaced action a by acts. */
  ghost predicate ServerChange(v: Local, w: Local, a: Action, acts: seq<Action>, c: nat) {
    && w.opening == v.opening + Count(acts, QueueEstablish(c)) - (if a == QueueEstablish(c) then 1 else 0)
    && Moves(v.erasing, w.erasing, a == EraseEntry(c) || a == QueueDestroy(c), Erasing(acts, c))
    && Moves(v.posting, w.posting, a == QueueDestroy(c), QueueDestroy(c) in acts)
  }

  /** The thread of loop l has replaced action a by acts. */
  ghost predicate TodoChange(v: Local, w: Local, l: nat, a: Action, acts: seq<Action>, c: nat) {
    && w.conn == v.conn && w.inMap == v.inMap && w.index == v.index && w.active == v.active && w.calling == v.calling
    && w.removing == v.removing && w.destroying == v.destroying
    && (if l == v.conn.loop then HomeChange(v, w, a, acts, c) else HomeSame(v, w))
    && (if l == 0 then ServerChange(v, w, a, acts, c) else w.opening == v.opening && w.erasing == v.erasing && w.posting == v.posting)
  }

  /** A functor has been queued on loop l. */
  ghost predicate PushChange(v: Local, w: Local, l: nat, task: Task, c: nat) {
    var home := l == v.conn.loop;
    && w.conn == v.conn && w.inMap == v.inMap && w.index == v.index && w.active == v.active && w.calling == v.calling
    && w.closing == v.closing && w.erasing == v.erasing && w.posting == v.posting
    && w.downing == v.downing && w.storing == v.storing && w.leaving == v.leaving && w.handling == v.handling && w.opening == v.opening
    && w.starts == v.starts + (if home && task == EstablishTask(c) then 1 else 0)
    && w.removing == (v.removing || (l == 0 && task == RemoveTask(c)))
    && w.destroying == (v.destroying || (home && task == DestroyTask(c)))
    && w.busy == (v.busy || (home && (task == ForceCloseTask(c) || task == NoticeTask(c))))
  }

  /** What replacing the first action does to what c can see of a thread's work. */
  lemma TodoEffect(todo: seq<Action>, acts: seq<Action>, c: nat)
    requires todo != []
    ensures var r, a := acts + todo[1..], todo[0];
            && Moves(Closing(todo, c), Closing(r, c), a == CloseUser(c) || a == CloseEnd(c), Closing(acts, c))
            && Moves(Erasing(todo, c), Erasing(r, c), a == EraseEntry(c) || a == QueueDestroy(c), Erasing(acts, c))
            && Moves(Down(c) in todo, Down(c) in r, a == Down(c), Down(c) in acts)
            && Moves(DownStore(c) in todo, DownStore(c) in r, a == DownStore(c), DownStore(c) in acts)
            && Moves(QueueDestroy(c) in todo, QueueDestroy(c) in r, a == QueueDestroy(c), QueueDestroy(c) in acts)
            && Moves(Leaving(todo, c), Leaving(r, c), a == DownUser(c) || a == Unregister(c), Leaving(acts, c))
            && Moves(WriteEvent(c) in todo, WriteEvent(c) in r, a == WriteEvent(c), WriteEvent(c) in acts)
            && Moves(Busy(todo, c), Busy(r, c), a == User(c) || a == CloseBegin(c) || a == ShutdownStore(c), Busy(acts, c))
            && Count(r, Up(c)) == Count(todo, Up(c)) + Count(acts, Up(c)) - (if a == Up(c) then 1 else 0)
            && Count(r, QueueEstablish(c)) ==
               Count(todo, QueueEstablish(c)) + Count(acts, QueueEstablish(c)) - (if a == QueueEstablish(c) then 1 else 0)
  {
    assert todo == [todo[0]] + todo[1..];
    CountCons(todo, Up(c));
    CountCons(todo, QueueEstablish(c));
    CountAppend(acts, todo[1..], Up(c));
    CountAppend(acts, todo[1..], QueueEstablish(c));
  }

  // ---- building blocks --------------------------------------------------------------------

  lemma CountSnoc<T>(s: seq<T>, x: T, y: T)
    ensures Count(s + [x], y) == Count(s, y) + if x == y then 1 else 0
  {
  }

  lemma CountCons<T>(s: seq<T>, y: T)
    requires s != []
    ensures Count(s, y) == Count(s[1..], y) + if s[0] == y then 1 else 0
  {
    assert s == [s[0]] + s[1..];
  }

  lemma CountAppend<T>(a: seq<T>, b: seq<T>, y: T)
    ensures Count(a + b, y) == Count(a, y) + Count(b, y)
  {
  }

  /** Nobody but c, if anybody, sees a difference between s and t. */
  ghost predicate OnlyTouches(s: System, t: System, c: nat)
    requires Sized(s) && Sized(t)
  {
    && t.conns.Keys == s.conns.Keys
    && (forall d :: d in s.conns && d != c ==> LocalOf(t, d) == LocalOf(s, d))
  }

  lemma Touches(s: System, t: System, u: System, c: nat)
    requires Sized(s) && Sized(t) && Sized(u) && OnlyTouches(s, t, c) && OnlyTouches(t, u, c)
    ensures OnlyTouches(s, u, c)
  {
    hide LocalOf, Sized;
  }

  lemma Concludes(s: System, t: System, c: nat)
    requires Inv(s) && Frame(t) && OnlyTouches(s, t, c)
    requires c in s.conns ==> LocalOk(LocalOf(t, c))
    ensures Inv(t)
  {
    hide LocalOf, LocalOk, RegistryOk, LoopOk, PollerOk;
    forall d | d in t.conns ensures LocalOk(LocalOf(t, d)) {
      if d != c { assert LocalOk(LocalOf(s, d)); }
    }
  }

  /** The connections exist and live where they did. */
  ghost predicate SameHomes(s: System, t: System) {
    && t.conns.Keys == s.conns.Keys
    && (forall c :: c in s.conns ==> t.conns[c].loop == s.conns[c].loop)
  }

  lemma TaskKept(s: System, t: System, l: nat, k: Task)
    requires SameHomes(s, t) && TaskOk(s, l, k)
    ensures TaskOk(t, l, k)
  {
  }

  lemma ActionKept(s: System, t: System, l: nat, a: Action)
    requires SameHomes(s, t) && l < |s.loops| && l < |t.loops| && t.loops[l].pc == s.loops[l].pc && ActionOk(s, l, a)
    ensures ActionOk(t, l, a)
  {
  }

  lemma RegistryKept(s: System, t: System)
    requires RegistryOk(s) && t.registry == s.registry && |t.loops| == |s.loops| && t.conns.Keys == s.conns.Keys
    requires t.stores <= s.stores
    ensures RegistryOk(t)
  {
    hide R.Faithful;
  }

  lemma SameLive(s: System, t: System)
    requires SameHomes(s, t)
    ensures forall l, c :: Live(t, l, c) <==> Live(s, l, c)
  {
  }

  lemma PollerKept(s: System, t: System, l: nat)
    requires l < |s.pollers| && l < |t.pollers| && t.pollers[l] == s.pollers[l] && SameHomes(s, t) && PollerOk(s, l)
    ensures PollerOk(t, l)
  {
    hide P.Agree, Live;
    SameLive(s, t);
  }

  lemma LoopKept(s: System, t: System, l: nat)
    requires l < |s.loops| == |s.todo| && l < |t.loops| == |t.todo| && LoopOk(s, l)
    requires t.loops[l] == s.loops[l] && t.todo[l] == s.todo[l] && SameHomes(s, t)
    ensures LoopOk(t, l)
  {
    hide L.Inv, Queue, TaskOk, ActionOk;
    forall k | k in Queue(t.loops[l]) ensures TaskOk(t, l, k) {
      TaskKept(s, t, l, k);
    }
    forall a | a in t.todo[l] ensures ActionOk(t, l, a) {
      ActionKept(s, t, l, a);
    }
  }

  lemma LoopsKept(s: System, t: System)
    requires Frame(s) && |t.loops| == |s.loops| == |t.todo| && t.loops == s.loops && t.todo == s.todo && SameHomes(s, t)
    ensures forall l :: 0 <= l < |t.loops| ==> LoopOk(t, l)
  {
    hide LoopOk, PollerOk, RegistryOk;
    forall l | 0 <= l < |t.loops| ensures LoopOk(t, l) {
      LoopKept(s, t, l);
    }
  }

  lemma PollersKept(s: System, t: System)
    requires Frame(s) && |t.pollers| == |s.pollers| && t.pollers == s.pollers && SameHomes(s, t)
    ensures forall l :: 0 <= l < |t.pollers| ==> PollerOk(t, l)
  {
    hide LoopOk, RegistryOk, PollerOk;
    forall l | 0 <= l < |t.pollers| ensures PollerOk(t, l) {
      PollerKept(s, t, l);
    }
  }

  /** Only the poller of loop m moves, and in it only the record of c. */
  lemma PollerLocals(s: System, p: P.Poller<nat>, m: nat, c: nat) returns (t: System)
    requires Sized(s) && m < |s.pollers| && Live(s, m, c) && c in p.chans
    requires forall d :: d in s.pollers[m].chans && d != c ==> d in p.chans && p.chans[d] == s.pollers[m].chans[d]
    ensures t == s.(pollers := s.pollers[m := p]) && Sized(t) && OnlyTouches(s, t, c)
    ensures LocalOf(t, c) == LocalOf(s, c).(index := p.chans[c].index)
  {
    t := s.(pollers := s.pollers[m := p]);
    hide Queue, R.Registered;
  }

  lemma NewPoller(s: System, t: System, m: nat)
    requires m < |s.pollers| && m < |t.pollers| && PollerOk(s, m) && SameHomes(s, t)
    requires P.Agree(t.pollers[m]) && t.pollers[m].chans.Keys == s.pollers[m].chans.Keys
    requires t.pollers[m].faults == s.pollers[m].faults
    ensures PollerOk(t, m)
  {
    hide P.Agree, Live;
    SameLive(s, t);
    forall c ensures c in t.pollers[m].chans <==> Live(t, m, c) {
      assert c in t.pollers[m].chans.Keys <==> c in s.pollers[m].chans.Keys;
    }
  }

  lemma PollerFrame(s: System, p: P.Poller<nat>, m: nat) returns (t: System)
    requires Frame(s) && m < |s.pollers| && P.Agree(p) && p.chans.Keys == s.pollers[m].chans.Keys
    requires p.faults == s.pollers[m].faults
    ensures t == s.(pollers := s.pollers[m := p]) && Frame(t)
  {
    hide P.Agree, LoopOk, RegistryOk, PollerOk, Live;
    t := s.(pollers := s.pollers[m := p]);
    RegistryKept(s, t);
    LoopsKept(s, t);
    NewPoller(s, t, m);
    forall l | 0 <= l < |t.pollers| ensures PollerOk(t, l) {
      if l != m { PollerKept(s, t, l); }
    }
    forall c | c in t.conns ensures c in t.pollers[t.conns[c].loop].chans {
      assert c in p.chans.Keys <==> c in s.pollers[m].chans.Keys;
    }
  }

  /** Interest changes: only the poller of one loop moves, and there only one channel. */
  lemma MaskStep(s: System, c: nat, mask: P.Mask) returns (t: System)
    requires Frame(s) && c in s.conns
    ensures t == WithMask(s, c, mask) && Frame(t) && OnlyTouches(s, t, c)
    ensures LocalOf(t, c).index != P.New && LocalOf(t, c) == LocalOf(s, c).(index := LocalOf(t, c).index)
  {
    var m := s.conns[c].loop;
    assert PollerOk(s, m);
    P.SetMaskAgrees(s.pollers[m], c, mask);
    t := WithMask(s, c, mask);
    P.AgreementMeaning(t.pollers[m], c);
    hide P.SetMask, P.Agree, P.HasChannel, LoopOk, PollerOk, RegistryOk, LocalOf;
    var t1 := PollerFrame(s, t.pollers[m], m);
    var t2 := PollerLocals(s, t.pollers[m], m, c);
  }

  lemma ConnStep(s: System, c: nat, conn: Conn) returns (t: System)
    requires Frame(s) && c in s.conns && conn.loop == s.conns[c].loop
    ensures t == WithConn(s, c, conn) && Frame(t) && OnlyTouches(s, t, c)
    ensures LocalOf(t, c) == LocalOf(s, c).(conn := conn)
  {
    t := WithConn(s, c, conn);
    hide LoopOk, PollerOk, RegistryOk, Queue, R.Registered;
    RegistryKept(s, t);
    LoopsKept(s, t);
    PollersKept(s, t);
  }

  /** Only the thread or the queue of loop l moves. */
  lemma LoopFrame(s: System, t: System, l: nat, lp: L.Loop<Task, nat>, acts: seq<Action>)
    requires Frame(s) && l < |s.loops| && t == s.(loops := s.loops[l := lp], todo := s.todo[l := acts])
    requires LoopOk(t, l)
    ensures Frame(t)
  {
    hide LoopOk, PollerOk, RegistryOk;
    RegistryKept(s, t);
    PollersKept(s, t);
    forall k | 0 <= k < |t.loops| ensures LoopOk(t, k) {
      if k != l { LoopKept(s, t, k); }
    }
  }

  /** Two queues that agree on all functors naming d look the same to d. */
  ghost predicate SameFor(q: seq<Task>, r: seq<Task>, d: nat) {
    forall t :: TaskNames(t, d) ==> (t in r <==> t in q) && Count(r, t) == Count(q, t)
  }

  lemma QueueLocals(s: System, l: nat, lp: L.Loop<Task, nat>, d: nat) returns (t: System)
    requires Sized(s) && l < |s.loops| && d in s.conns
    requires SameFor(Queue(s.loops[l]), Queue(lp), d)
    ensures t == s.(loops := s.loops[l := lp]) && Sized(t)
    ensures LocalOf(t, d) == LocalOf(s, d).(active := L.Fd(d) in t.loops[s.conns[d].loop].active)
  {
    hide SameFor, Queue, Count, R.Registered;
    t := s.(loops := s.loops[l := lp]);
    SameTokens(Queue(s.loops[l]), Queue(lp), d);
  }

  lemma SameTokens(q: seq<Task>, r: seq<Task>, d: nat)
    requires SameFor(q, r, d)
    ensures Count(q, EstablishTask(d)) == Count(r, EstablishTask(d))
    ensures (RemoveTask(d) in q <==> RemoveTask(d) in r) && (DestroyTask(d) in q <==> DestroyTask(d) in r)
    ensures (ForceCloseTask(d) in q <==> ForceCloseTask(d) in r) && (NoticeTask(d) in q <==> NoticeTask(d) in r)
  {
  }

  lemma ActiveFlag(s: System, d: nat)
    requires Sized(s) && d in s.conns
    ensures LocalOf(s, d).active == (L.Fd(d) in s.loops[s.conns[d].loop].active)
  {
    hide Queue, Count, R.Registered;
  }

  lemma PushQueue(lp: L.Loop<Task, nat>, who: Who, task: Task)
    requires L.Inv(lp) && L.Enabled(lp, L.Event<Task, nat>.Push(who, task))
    ensures var lq := L.Apply(lp, L.Event<Task, nat>.Push(who, task));
            && L.Inv(lq) && lq.pc == lp.pc && lq.active == lp.active && Queue(lq) == Queue(lp) + [task]
            && forall d :: !TaskNames(task, d) ==> SameFor(Queue(lp), Queue(lq), d)
  {
    var lq := L.Apply(lp, L.Event<Task, nat>.Push(who, task));
    L.StepInv(lp, L.Event<Task, nat>.Push(who, task));
    assert Queue(lq) == Queue(lp) + [task];
    hide Queue, L.Inv, L.Apply;
    forall d | !TaskNames(task, d) ensures SameFor(Queue(lp), Queue(lq), d) {
      forall t | TaskNames(t, d) ensures Count(Queue(lq), t) == Count(Queue(lp), t) {
        CountSnoc(Queue(lp), task, t);
      }
    }
  }

  lemma PushLoop(s: System, l: nat, who: Who, task: Task) returns (t: System)
    requires Frame(s) && l < |s.loops| && L.Enabled(s.loops[l], L.Event<Task, nat>.Push(who, task))
    requires TaskOk(s, l, task)
    ensures t == PushOn(s, l, who, task) && LoopOk(t, l)
  {
    hide L.Inv, L.Apply, Queue, RegistryOk, PollerOk, SameFor, L.Enabled, TaskOk, ActionOk;
    t := PushOn(s, l, who, task);
    assert LoopOk(s, l);
    PushQueue(s.loops[l], who, task);
    forall k | k in Queue(t.loops[l]) ensures TaskOk(t, l, k) {
      if k != task { assert k in Queue(s.loops[l]); }
      TaskKept(s, t, l, k);
    }
    forall a | a in t.todo[l] ensures ActionOk(t, l, a) {
      ActionKept(s, t, l, a);
    }
  }

  lemma PushView(v: Local, w: Local, q0: seq<Task>, q: seq<Task>, r0: seq<Task>, r: seq<Task>,
                 acts0: seq<Action>, acts: seq<Action>, l: nat, task: Task, c: nat)
    requires v == View(v.conn, v.inMap, v.index, v.active, v.calling, q0, q, acts0, acts, c)
    requires w == View(v.conn, v.inMap, v.index, v.active, v.calling, r0, r, acts0, acts, c)
    requires (l == 0 ==> r0 == q0 + [task]) && (l != 0 ==> r0 == q0)
    requires (l == v.conn.loop ==> r == q + [task]) && (l != v.conn.loop ==> r == q)
    ensures PushChange(v, w, l, task, c)
  {
    hide Count, Closing, Erasing, Leaving, Busy;
    LastToken(q, task, c);
    LastToken(q0, task, c);
  }

  lemma LastToken(q: seq<Task>, k: Task, c: nat)
    ensures Count(q + [k], EstablishTask(c)) == Count(q, EstablishTask(c)) + if k == EstablishTask(c) then 1 else 0
    ensures RemoveTask(c) in q + [k] <==> RemoveTask(c) in q || k == RemoveTask(c)
    ensures DestroyTask(c) in q + [k] <==> DestroyTask(c) in q || k == DestroyTask(c)
    ensures ForceCloseTask(c) in q + [k] <==> ForceCloseTask(c) in q || k == ForceCloseTask(c)
    ensures NoticeTask(c) in q + [k] <==> NoticeTask(c) in q || k == NoticeTask(c)
  {
    CountSnoc(q, k, EstablishTask(c));
  }

  lemma PushLocal(s: System, t: System, l: nat, lp: L.Loop<Task, nat>, task: Task, c: nat)
    requires Sized(s) && Sized(t) && l < |s.loops| && c in s.conns && t == s.(loops := s.loops[l := lp])
    requires Queue(lp) == Queue(s.loops[l]) + [task] && lp.active == s.loops[l].active
    ensures PushChange(LocalOf(s, c), LocalOf(t, c), l, task, c)
  {
    var m := s.conns[c].loop;
    hide Queue, R.Registered, PushChange;
    PushView(LocalOf(s, c), LocalOf(t, c), Queue(s.loops[0]), Queue(s.loops[m]), Queue(t.loops[0]), Queue(t.loops[m]),
             s.todo[0], s.todo[m], l, task, c);
    hide View;
  }

  lemma PushStep(s: System, l: nat, who: Who, task: Task, c: nat) returns (t: System)
    requires Frame(s) && l < |s.loops| && L.Enabled(s.loops[l], L.Event<Task, nat>.Push(who, task))
    requires TaskOk(s, l, task) && (task.UserTask? || task.c == c)
    ensures t == PushOn(s, l, who, task) && Frame(t) && OnlyTouches(s, t, c)
    ensures t.loops[l].pc == s.loops[l].pc && (c in s.conns ==> PushChange(LocalOf(s, c), LocalOf(t, c), l, task, c))
  {
    hide LoopOk, PollerOk, RegistryOk, Queue, L.Inv, L.Enabled, TaskOk, L.Apply, LocalOf, SameFor, PushChange;
    t := PushLoop(s, l, who, task);
    LoopInv(s, l);
    PushQueue(s.loops[l], who, task);
    LoopFrame(s, t, l, t.loops[l], t.todo[l]);
    if c in s.conns { PushLocal(s, t, l, t.loops[l], task, c); }
    forall d | d in s.conns && d != c ensures LocalOf(t, d) == LocalOf(s, d) {
      var u := QueueLocals(s, l, t.loops[l], d);
      ActiveFlag(s, d);
    }
  }

  lemma LoopInv(s: System, l: nat)
    requires Frame(s) && l < |s.loops|
    ensures L.Inv(s.loops[l])
  {
    assert LoopOk(s, l);
  }

  lemma TodoLoop(s: System, l: nat, acts: seq<Action>) returns (t: System)
    requires Frame(s) && l < |s.loops| && s.todo[l] != []
    requires StoresFirst(acts) && forall a :: a in acts ==> ActionOk(s, l, a)
    ensures t == WithTodo(s, l, acts + s.todo[l][1..]) && LoopOk(t, l)
  {
    var rest := s.todo[l][1..];
    t := WithTodo(s, l, acts + rest);
    assert s.todo[l] == [s.todo[l][0]] + rest;
    assert LoopOk(s, l);
    hide L.Inv, Queue, RegistryOk, PollerOk, TaskOk, ActionOk;
    forall k | k in Queue(t.loops[l]) ensures TaskOk(t, l, k) {
      TaskKept(s, t, l, k);
    }
    forall a | a in t.todo[l] ensures ActionOk(t, l, a) {
      if a !in acts { assert a in s.todo[l]; }
      ActionKept(s, t, l, a);
    }
  }

  lemma HomeView(v: Local, w: Local, q0: seq<Task>, q: seq<Task>, acts0: seq<Action>, r0: seq<Action>,
                 todo: seq<Action>, news: seq<Action>, c: nat)
    requires todo != []
    requires v == View(v.conn, v.inMap, v.index, v.active, v.calling, q0, q, acts0, todo, c)
    requires w == View(v.conn, v.inMap, v.index, v.active, v.calling, q0, q, r0, news + todo[1..], c)
    ensures HomeChange(v, w, todo[0], news, c)
  {
    TodoEffect(todo, news, c);
    hide Count, Closing, Erasing, Leaving, Busy;
  }

  lemma ServerView(v: Local, w: Local, q0: seq<Task>, q: seq<Task>, acts: seq<Action>, r: seq<Action>,
                   todo: seq<Action>, news: seq<Action>, c: nat)
    requires todo != []
    requires v == View(v.conn, v.inMap, v.index, v.active, v.calling, q0, q, todo, acts, c)
    requires w == View(v.conn, v.inMap, v.index, v.active, v.calling, q0, q, news + todo[1..], r, c)
    ensures ServerChange(v, w, todo[0], news, c)
  {
    TodoEffect(todo, news, c);
    hide Count, Closing, Erasing, Leaving, Busy;
  }

  lemma TodoLocal(s: System, t: System, l: nat, acts: seq<Action>, c: nat)
    requires Sized(s) && Sized(t) && l < |s.loops| && c in s.conns && s.todo[l] != []
    requires t == WithTodo(s, l, acts + s.todo[l][1..])
    ensures TodoChange(LocalOf(s, c), LocalOf(t, c), l, s.todo[l][0], acts, c)
  {
    var m := s.conns[c].loop;
    var v, w := LocalOf(s, c), LocalOf(t, c);
    hide Queue, R.Registered, HomeChange, ServerChange;
    if l == m {
      HomeView(v, w, Queue(s.loops[0]), Queue(s.loops[m]), s.todo[0], t.todo[0], s.todo[l], acts, c);
    }
    if l == 0 {
      ServerView(v, w, Queue(s.loops[0]), Queue(s.loops[m]), s.todo[m], t.todo[m], s.todo[l], acts, c);
    }
    hide Count, Closing, Erasing, Leaving, Busy;
  }

  /** The thread of loop l finishes its current action and goes on with `acts` before the rest. */
  lemma TodoStep(s: System, l: nat, acts: seq<Action>, c: nat) returns (t: System)
    requires Frame(s) && l < |s.loops| && s.todo[l] != []
    requires s.todo[l][0].UserFree? || s.todo[l][0].c == c
    requires StoresFirst(acts) && forall a :: a in acts ==> ActionOk(s, l, a) && !a.UserFree? && a.c == c
    ensures t == WithTodo(s, l, acts + s.todo[l][1..]) && Frame(t) && OnlyTouches(s, t, c)
    ensures c in s.conns ==> TodoChange(LocalOf(s, c), LocalOf(t, c), l, s.todo[l][0], acts, c)
  {
    hide LoopOk, PollerOk, RegistryOk, Queue, LocalOf, TodoChange, SameActions, ActionOk;
    t := TodoLoop(s, l, acts);
    if c in s.conns { TodoLocal(s, t, l, acts, c); }
    LoopFrame(s, t, l, t.loops[l], t.todo[l]);
    forall d | d in s.conns && d != c ensures LocalOf(t, d) == LocalOf(s, d) {
      TodoUnnamed(s.todo[l], acts, d);
      var u := TodoLocals(s, l, acts + s.todo[l][1..], d);
    }
  }

  lemma TodoNext(s: System, l: nat, b: Action, c: nat) returns (t: System)
    requires Frame(s) && l < |s.loops| && s.todo[l] != [] && (s.todo[l][0].UserFree? || s.todo[l][0].c == c)
    requires !b.UserFree? && b.c == c && c in s.conns && l == (if OnServerLoop(b) then 0 else s.conns[c].loop)
    requires (TearsDown(b) ==> s.loops[l].pc == L.Running) && !b.WriteEvent?
    ensures t == WithTodo(s, l, [b] + s.todo[l][1..]) && Frame(t) && OnlyTouches(s, t, c)
    ensures TodoChange(LocalOf(s, c), LocalOf(t, c), l, s.todo[l][0], [b], c)
  {
    assert ActionOk(s, l, b);
    hide RegistryOk, LoopOk, PollerOk, ActionOk, LocalOf, OnlyTouches, TodoChange;
    t := TodoStep(s, l, [b], c);
  }

  lemma NilLeft<T>(a: seq<T>)
    ensures [] + a == a && a + [] == a
  {
  }

  lemma TodoDone(s: System, l: nat, c: nat) returns (t: System)
    requires Frame(s) && l < |s.loops| && s.todo[l] != [] && (s.todo[l][0].UserFree? || s.todo[l][0].c == c)
    ensures t == WithTodo(s, l, s.todo[l][1..]) && Frame(t) && OnlyTouches(s, t, c)
    ensures c in s.conns ==> TodoChange(LocalOf(s, c), LocalOf(t, c), l, s.todo[l][0], [], c)
  {
    hide RegistryOk, LoopOk, PollerOk, ActionOk, LocalOf, OnlyTouches, TodoChange;
    t := TodoStep(s, l, [], c);
    NilLeft(s.todo[l][1..]);
  }

  ghost predicate SameActions(q: seq<Action>, r: seq<Action>, d: nat) {
    forall a :: ActionNames(a, d) ==> (a in r <==> a in q) && Count(r, a) == Count(q, a)
  }

  lemma TodoLocals(s: System, l: nat, todo: seq<Action>, d: nat) returns (t: System)
    requires Sized(s) && l < |s.loops| && d in s.conns
    requires SameActions(s.todo[l], todo, d)
    ensures t == WithTodo(s, l, todo) && Sized(t) && LocalOf(t, d) == LocalOf(s, d)
  {
    hide SameActions, Queue, Count, R.Registered, Closing, Erasing, Leaving, Busy;
    t := WithTodo(s, l, todo);
    SameFlags(s.todo[l], todo, d);
  }

  lemma SameFlags(q: seq<Action>, r: seq<Action>, d: nat)
    requires SameActions(q, r, d)
    ensures Closing(q, d) == Closing(r, d) && Erasing(q, d) == Erasing(r, d)
    ensures (Down(d) in q) == (Down(d) in r) && Leaving(q, d) == Leaving(r, d)
    ensures (DownStore(d) in q) == (DownStore(d) in r) && (QueueDestroy(d) in q) == (QueueDestroy(d) in r)
    ensures (WriteEvent(d) in q) == (WriteEvent(d) in r) && Busy(q, d) == Busy(r, d)
    ensures Count(q, Up(d)) == Count(r, Up(d)) && Count(q, QueueEstablish(d)) == Count(r, QueueEstablish(d))
  {
    assert User(d) in q <==> User(d) in r;
    assert CloseBegin(d) in q <==> CloseBegin(d) in r;
    assert WriteEvent(d) in q <==> WriteEvent(d) in r;
    assert CloseUser(d) in q <==> CloseUser(d) in r;
    assert CloseEnd(d) in q <==> CloseEnd(d) in r;
    assert EraseEntry(d) in q <==> EraseEntry(d) in r;
    assert QueueDestroy(d) in q <==> QueueDestroy(d) in r;
    assert Down(d) in q <==> Down(d) in r;
    assert DownStore(d) in q <==> DownStore(d) in r;
    assert ShutdownStore(d) in q <==> ShutdownStore(d) in r;
    assert DownUser(d) in q <==> DownUser(d) in r;
    assert Unregister(d) in q <==> Unregister(d) in r;
  }

  /** Replacing actions that do not name d by others that do not is invisible to d. */
  lemma TodoUnnamed(todo: seq<Action>, acts: seq<Action>, d: nat)
    requires todo != [] && !ActionNames(todo[0], d)
    requires forall a :: a in acts ==> !ActionNames(a, d)
    ensures SameActions(todo, acts + todo[1..], d)
  {
    assert todo == [todo[0]] + todo[1..];
    forall a | ActionNames(a, d) ensures Count(acts + todo[1..], a) == Count(todo, a) {
      CountCons(todo, a);
      CountAppend(acts, todo[1..], a);
      assert a !in acts;
    }
  }
}
