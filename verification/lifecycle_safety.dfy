/** The claims about connections, channels and wakeups on a running server, over every reachable state and run. */
module LifecycleSafety {
  import opened Threads
  import L = LoopSpec
  import P = PollerSpec
  import R = ServerSpec
  import C = ConnSpec
  import Naming
  import opened Lifecycle
  import opened LifecycleInv
  import opened LifecycleSteps
  import opened LifecycleEvents
  import opened LifecycleAdmission
  import opened LifecycleRuns
  import Epoller

  /** Poller::hasChannel, asked of the loop the connection lives on. */
  predicate InPoller(s: System, c: nat) {
    && c in s.conns && s.conns[c].loop < |s.pollers| && c in s.pollers[s.conns[c].loop].chans
    && P.HasChannel(s.pollers[s.conns[c].loop], c)
  }

  /** handleClose is under way and guards the connection. */
  ghost predicate CloseUnderWay(s: System, c: nat) {
    c in s.conns && s.conns[c].loop < |s.todo| && Closing(s.todo[s.conns[c].loop], c)
  }

  /** removeConnectionInLoop is pending or running. */
  ghost predicate RemovalUnderWay(s: System, c: nat) {
    |s.loops| == |s.todo| > 0 && (RemoveTask(c) in Queue(s.loops[0]) || Erasing(s.todo[0], c))
  }

  /** connectDestroyed is pending or running. */
  ghost predicate DestructionUnderWay(s: System, c: nat) {
    c in s.conns && s.conns[c].loop < |s.loops| == |s.todo| &&
    var m := s.conns[c].loop;
    DestroyTask(c) in Queue(s.loops[m]) || Down(c) in s.todo[m] || DownStore(c) in s.todo[m] || Leaving(s.todo[m], c)
  }

  /** Some removal of the connection has begun and not yet run to its end. */
  ghost predicate RemovalOnItsWay(s: System, c: nat) {
    CloseUnderWay(s, c) || RemovalUnderWay(s, c) || DestructionUnderWay(s, c)
  }

  ghost predicate Kept(s: System, c: nat) {
    R.Registered(s.registry, c) || RemovalOnItsWay(s, c)
  }

  /** A connection's own record: its view, what the view says of the poller, and what of its keepers. */
  lemma Record(s: System, c: nat) returns (v: Local)
    requires Inv(s) && c in s.conns
    ensures Sized(s) && v == LocalOf(s, c) && LocalOk(v) && v.conn == s.conns[c]
    ensures Owned(v) <==> Kept(s, c)
    ensures v.index != P.New <==> InPoller(s, c)
    ensures v.inMap == R.Registered(s.registry, c)
  {
    hide LoopOk, RegistryOk, LocalOk, Queue, R.Registered;
    v := LocalOf(s, c);
    assert PollerOk(s, s.conns[c].loop);
    P.AgreementMeaning(s.pollers[s.conns[c].loop], c);
  }

  /** Whatever a poller still knows is kept by the map, by a removal or by a destruction on its way. */
  lemma Ownership(s: System, c: nat)
    requires Reachable(s) && InPoller(s, c)
    ensures Kept(s, c)
  {
    hide Inv, Reachable, InPoller, Kept;
    ReachableInv(s);
    InPollerExists(s, c);
    var v := Record(s, c);
  }

  lemma InPollerExists(s: System, c: nat)
    requires InPoller(s, c)
    ensures c in s.conns
  {
  }

  /** No poller's table and no kernel interest list mentions the connection's channel. */
  ghost predicate NoTrace(p: P.Poller<nat>, c: nat) {
    && (forall fd :: fd in p.table ==> p.table[fd] != c)
    && (forall fd :: fd in p.kernel ==> p.kernel[fd].key != c)
  }

  lemma PollerTrace(p: P.Poller<nat>, c: nat)
    requires P.Agree(p) && (c in p.chans ==> !P.HasChannel(p, c))
    ensures NoTrace(p, c)
  {
    forall fd | fd in p.table ensures p.table[fd] != c {
      assert P.ChanAgrees(p, p.table[fd]);
    }
    forall fd | fd in p.kernel ensures p.kernel[fd].key != c {
      assert P.ChanAgrees(p, p.table[fd]);
    }
  }

  lemma Traceless(s: System, c: nat, l: nat)
    requires Inv(s) && l < |s.pollers| && !InPoller(s, c)
    ensures NoTrace(s.pollers[l], c)
  {
    hide LoopOk, RegistryOk, LocalOk, LocalOf, NoTrace, P.Agree;
    assert PollerOk(s, l);
    PollerTrace(s.pollers[l], c);
  }

  /** When the last shared pointer goes, the assertion in Channel's destructor holds, and epoll has forgotten the channel. */
  lemma DropIsSafe(s: System, c: nat)
    requires Reachable(s) && c in s.conns && Unheld(s, c)
    ensures !InPoller(s, c) && s.conns[c].gone && Sized(s) && Enabled(s, Drop(c))
    ensures forall l :: 0 <= l < |s.pollers| ==> NoTrace(s.pollers[l], c)
  {
    hide Inv, Reachable, InPoller, Unheld, NoTrace, LocalOk, LocalOf;
    ReachableInv(s);
    var v := Record(s, c);
    UnheldIsUnregistered(s, c);
    NotKept(s, c);
    UnownedIsNew(v);
    forall l | 0 <= l < |s.pollers| ensures NoTrace(s.pollers[l], c) {
      Traceless(s, c, l);
    }
  }

  lemma NotKept(s: System, c: nat)
    requires Inv(s) && c in s.conns && Unheld(s, c)
    ensures !Owned(LocalOf(s, c))
  {
    hide LoopOk, PollerOk, RegistryOk, LocalOk, Queue, R.Registered, TaskNames, ActionNames;
    var m := s.conns[c].loop;
    NothingOwns(LocalOf(s, c), Queue(s.loops[0]), Queue(s.loops[m]), s.todo[0], s.todo[m], c);
  }

  /** Every channel in a loop's list of active channels is alive and registered when its turn comes. */
  lemma NoDanglingDispatch(s: System, l: nat, c: nat)
    requires Reachable(s) && l < |s.loops| && L.Fd(c) in s.loops[l].active
    ensures Live(s, l, c) && InPoller(s, c) && Kept(s, c) && !Unheld(s, c) && s.conns[c].up
  {
    hide Inv, Reachable, InPoller, Unheld, Kept, LocalOf, Owned, P.HasChannel;
    ReachableInv(s);
    ActiveLives(s, l, c);
    var v := Record(s, c);
    ActiveFlag(s, c);
    ActiveMeans(v);
    if Unheld(s, c) { UnheldIsUnregistered(s, c); }
  }

  lemma ActiveLives(s: System, l: nat, c: nat)
    requires Inv(s) && l < |s.loops| && L.Fd(c) in s.loops[l].active
    ensures Live(s, l, c)
  {
    hide RegistryOk, PollerOk, LocalOk, LocalOf, L.Inv, Queue;
    assert LoopOk(s, l);
  }

  lemma ActiveMeans(v: Local)
    requires LocalOk(v) && v.active
    ensures v.index != P.New && Owned(v) && v.conn.up
  {
  }

  /**
   However often a close is triggered: the map entry is erased at most once and the user hears of the
   disconnection at most once, and not while the connection counts as connected; and a connection
   nothing keeps any more has been destroyed and is unknown to its poller.
   */
  lemma TeardownIsIdempotent(s: System, c: nat)
    requires Reachable(s) && c in s.conns
    ensures s.conns[c].erased == (if R.Registered(s.registry, c) then 0 else 1)
    ensures s.conns[c].downs <= 1 && (s.conns[c].phase == C.Connected || !s.conns[c].up ==> s.conns[c].downs == 0)
    ensures s.conns[c].up && s.conns[c].phase == C.Disconnected ==> s.conns[c].downs == 1
    ensures !s.conns[c].gone ==> Kept(s, c)
    ensures !Kept(s, c) ==> !InPoller(s, c)
  {
    hide Inv, Reachable, InPoller, Kept, LocalOf, R.Registered;
    ReachableInv(s);
    var v := Record(s, c);
  }

  /** How many times connectEstablished is still to run for a connection. */
  ghost function Establishments(s: System, c: nat): nat
    requires Sized(s) && c in s.conns
  {
    var m := s.conns[c].loop;
    Count(s.todo[0], QueueEstablish(c)) + Count(Queue(s.loops[m]), EstablishTask(c)) + Count(s.todo[m], Up(c))
  }

  /** connectEstablished runs exactly once: one call is on its way until it has run, and none after. */
  lemma EstablishedOnce(s: System, c: nat)
    requires Reachable(s) && Sized(s) && c in s.conns
    ensures Establishments(s, c) == if s.conns[c].up then 0 else 1
    ensures !s.conns[c].up ==> R.Registered(s.registry, c) && !InPoller(s, c)
  {
    hide Inv, Reachable, InPoller, Kept, Sized, R.Registered, Count, Queue;
    ReachableInv(s);
    var v := Record(s, c);
  }

  /** Work queued on any loop of the server wakes its poll. */
  lemma NoLoopSleepsOnWork(s: System, l: nat)
    requires Reachable(s) && l < |s.loops| && s.loops[l].pc == L.Polling && s.loops[l].pending != []
    ensures s.loops[l].counter > 0 || (s.loops[l].lock.Held? && s.loops[l].lock.holder.Foreign?)
  {
    hide Reachable;
    ReachableInv(s);
    assert LoopOk(s, l);
  }

  /** On the running server no epoll_ctl call is ever refused: the three registration records agree throughout. */
  lemma NoRefusedCalls(s: System, l: nat)
    requires Reachable(s) && l < |s.pollers|
    ensures P.Agree(s.pollers[l]) && s.pollers[l].faults == 0
  {
    hide Reachable, P.Agree, LoopOk;
    ReachableInv(s);
    assert PollerOk(s, l);
  }

  /** The map's entries are live connections, one each. */
  lemma MapEntriesLive(s: System, n: string)
    requires Reachable(s) && n in s.registry.connections
    ensures s.registry.connections[n] in s.conns && n == Naming.ConnName(s.registry.name, s.registry.connections[n])
    ensures |s.registry.connections| == |s.registry.present|
  {
    hide Reachable, LoopOk, PollerOk, LocalOk, LocalOf, Naming.ConnName, Naming.Fits;
    ReachableInv(s);
  }

  /** connectDestroyed runs only for a connection whose map entry is gone. */
  lemma GoneIsErased(s: System, c: nat)
    requires Inv(s) && c in s.conns && s.conns[c].gone
    ensures !R.Registered(s.registry, c)
  {
    hide Inv, LocalOf, R.Registered, Kept, InPoller;
    var v := Record(s, c);
  }

  /**
   Neither startRead nor a late sendInLoop asks whether the connection has been destroyed. Changing its
   interest set always puts the channel into the poller, and the server stays in order exactly when
   connectDestroyed has not run, or another removal is on its way that will run it again.
   LifecycleWitness shows that the bad case is reached.
   */
  lemma InterestChangeIsSafeIff(s: System, c: nat, mask: P.Mask)
    requires Inv(s) && c in s.conns && s.conns[c].up
    requires s.conns[c].loop < |s.pollers| && c in s.pollers[s.conns[c].loop].chans
    ensures InPoller(WithMask(s, c, mask), c)
    ensures Kept(WithMask(s, c, mask), c) <==> !s.conns[c].gone || RemovalOnItsWay(s, c)
    ensures Inv(WithMask(s, c, mask)) <==> !s.conns[c].gone || RemovalOnItsWay(s, c)
  {
    hide Inv, RegistryOk, LoopOk, PollerOk, LocalOf, LocalOk, Owned, P.SetMask, OnlyTouches, InPoller,
         RemovalOnItsWay, R.Registered;
    MaskedKept(s, c, mask);
    var v := Record(s, c);
    InvFrame(s);
    var t := MaskStep(s, c, mask);
    NotGoneOwned(v);
    if s.conns[c].gone { GoneIsErased(s, c); }
    if Owned(v) {
      OwnedMask(v, LocalOf(t, c));
      Concludes(s, t, c);
    } else {
      UnownedMask(v, LocalOf(t, c));
      Touched(s, t, c);
    }
  }

  lemma InvFrame(s: System)
    requires Inv(s)
    ensures Frame(s) && Sized(s)
  {
    hide RegistryOk, LoopOk, PollerOk, LocalOk, LocalOf;
  }

  lemma MaskedKept(s: System, c: nat, mask: P.Mask)
    requires Inv(s) && c in s.conns
    requires s.conns[c].loop < |s.pollers| && c in s.pollers[s.conns[c].loop].chans
    ensures InPoller(WithMask(s, c, mask), c) && (Kept(WithMask(s, c, mask), c) <==> Kept(s, c))
  {
    hide RegistryOk, LoopOk, LocalOf, LocalOk, R.Registered, Queue, P.Agree, P.SetMask, Closing, Erasing, Leaving;
    assert PollerOk(s, s.conns[c].loop);
    P.SetMaskAgrees(s.pollers[s.conns[c].loop], c, mask);
  }

  lemma Touched(s: System, t: System, c: nat)
    requires Sized(s) && Sized(t) && OnlyTouches(s, t, c) && c in s.conns
    ensures c in t.conns && (Inv(t) ==> LocalOk(LocalOf(t, c)))
  {
    hide Frame, LocalOk, LocalOf;
  }

  lemma UnownedMask(v: Local, w: Local)
    requires !Owned(v) && w.index != P.New && w == v.(index := w.index)
    ensures !LocalOk(w)
  {
  }

  // ---- a connection's phases over a run ---------------------------------------------------

  /** What a step may do to a connection's record. */
  predicate Advances(a: Conn, b: Conn) {
    && b.loop == a.loop && (a.up ==> b.up) && (a.gone ==> b.gone) && a.erased <= b.erased && a.downs <= b.downs
    && (a.up && a.phase != C.Connected ==> b.phase != C.Connected)
  }

  lemma AdvancesTransitively(a: Conn, b: Conn, c: Conn)
    requires Advances(a, b) && Advances(b, c)
    ensures Advances(a, c)
  {
  }

  lemma EstablishingIsNotUp(s: System, l: nat, c: nat)
    requires AboutTo(s, l, Up(c))
    ensures c in s.conns && !s.conns[c].up
  {
    hide Inv, LocalOf, ActionEnabled;
    AboutToMeans(s, l, Up(c));
  }

  lemma ActAdvances(s: System, l: nat, a: Action, drained: bool, c: nat)
    requires AboutTo(s, l, a) && c in s.conns
    ensures c in ApplyAction(s, l, drained).conns && Advances(s.conns[c], ApplyAction(s, l, drained).conns[c])
  {
    hide Inv, Sized, P.SetMask, P.RemoveChannel, R.Registered, Naming.ConnName, L.Apply, L.Enabled;
    Ready(s, l, a);
    if a == Up(c) { EstablishingIsNotUp(s, l, c); }
  }

  /** Connections only come with fresh ids, and what is there advances. */
  lemma StepAdvances(s: System, e: Event, c: nat)
    requires Inv(s) && Enabled(s, e) && c < s.registry.nextId
    ensures s.registry.nextId <= Apply(s, e).registry.nextId
    ensures c in Apply(s, e).conns ==> c in s.conns && Advances(s.conns[c], Apply(s, e).conns[c])
  {
    hide Inv, Sized, ApplyAction, ActionEnabled, Advances, P.SetMask, P.Attach, P.Detach, TaskActions,
         HandlerActions, ProtocolAllowed, Unheld, Admits, Live, L.Apply, L.Enabled;
    InvSized(s);
    match e
    case Act(l, drained) =>
      assert AboutTo(s, l, s.todo[l][0]);
      ActKeys(s, l, s.todo[l][0], drained);
      if c in s.conns { ActAdvances(s, l, s.todo[l][0], drained, c); }
    case ShutdownWrite(_, d) => ShutdownAdvances(s, d);
      if c in s.conns { Unchanged(s.conns[c]); }
    case _ => if c in s.conns { Unchanged(s.conns[c]); }
  }

  lemma Unchanged(a: Conn)
    ensures Advances(a, a)
  {
  }

  lemma ShutdownAdvances(s: System, d: nat)
    requires d in s.conns
    ensures Advances(s.conns[d], s.conns[d].(phase := C.Disconnecting))
  {
  }

  lemma ActKeys(s: System, l: nat, a: Action, drained: bool)
    requires AboutTo(s, l, a)
    ensures ApplyAction(s, l, drained).conns.Keys == s.conns.Keys
    ensures ApplyAction(s, l, drained).registry.nextId == s.registry.nextId
  {
    hide Inv, Sized, P.SetMask, P.RemoveChannel, R.Registered, Naming.ConnName, L.Apply, L.Enabled;
    Ready(s, l, a);
  }

  /**
   Once the connection has left kConnected it never comes back to it, whatever runs: closes,
   destructions, shutdowns by any thread and late calls included.
   */
  lemma {:induction false} PhaseIsFinal(s: System, es: seq<Event>, c: nat)
    requires Inv(s) && Legal(s, es) && c < s.registry.nextId
    ensures c in Exec(s, es).conns ==> c in s.conns && Advances(s.conns[c], Exec(s, es).conns[c])
    decreases |es|
  {
    hide Inv, Sized, Enabled, Apply, Advances;
    if es == [] {
      if c in s.conns { Unchanged(s.conns[c]); }
    } else {
      var t := Apply(s, es[0]);
      StepKeepsInv(s, es[0]);
      StepAdvances(s, es[0], c);
      PhaseIsFinal(t, es[1..], c);
      if c in Exec(s, es).conns {
        AdvancesTransitively(s.conns[c], t.conns[c], Exec(s, es).conns[c]);
      }
    }
  }

  // ---- a report after a shutdown ----------------------------------------------------------

  /** connectDestroyed stands between its look at the state and its store. */
  predicate MidDestruction(s: System, c: nat) {
    c in s.conns && s.conns[c].loop < |s.todo| && DownStore(c) in s.todo[s.conns[c].loop]
  }

  /** The connection has left kConnected, and connectDestroyed is not about to report it down. */
  predicate Settled(s: System, c: nat) {
    c in s.conns && s.conns[c].up && s.conns[c].phase != C.Connected && !MidDestruction(s, c)
  }

  lemma StoreIsNext(s: System, l: nat, c: nat)
    requires Inv(s) && l < |s.todo| && DownStore(c) in s.todo[l]
    ensures s.todo[l][0] == DownStore(c)
  {
    hide RegistryOk, PollerOk, LocalOk, LocalOf, L.Inv, Queue, TaskOk, ActionOk, Live;
    assert LoopOk(s, l);
  }

  lemma ActSettles(s: System, l: nat, a: Action, drained: bool, c: nat)
    requires AboutTo(s, l, a) && Settled(s, c)
    ensures Settled(ApplyAction(s, l, drained), c)
    ensures ApplyAction(s, l, drained).conns[c].downs == s.conns[c].downs
  {
    hide Inv, Sized, P.SetMask, P.RemoveChannel, R.Registered, Naming.ConnName, L.Apply, L.Enabled;
    Ready(s, l, a);
    if a == Up(c) { EstablishingIsNotUp(s, l, c); }
    assert s.todo[l] == [a] + s.todo[l][1..];
    if a == DownStore(c) { Placed(s, l, c); }
  }

  lemma Placed(s: System, l: nat, c: nat)
    requires AboutTo(s, l, DownStore(c))
    ensures MidDestruction(s, c)
  {
    hide Inv, LocalOf, LocalOk, ActionEnabled;
    AboutToMeans(s, l, DownStore(c));
    Kinds(c);
  }

  lemma TodoSettles(s: System, t: System, l: nat, c: nat)
    requires Settled(s, c) && |t.todo| == |s.todo| && l < |s.todo| && t.todo == s.todo[l := t.todo[l]]
    requires DownStore(c) in t.todo[l] ==> DownStore(c) in s.todo[l]
    requires c in t.conns && t.conns[c] == s.conns[c]
    ensures Settled(t, c)
  {
  }

  lemma DispatchSettles(s: System, l: nat, revents: Epoller.Revents, read: ReadKind, c: nat)
    requires Inv(s) && Enabled(s, Event.Dispatch(l, revents, read)) && Settled(s, c)
    ensures Settled(Apply(s, Event.Dispatch(l, revents, read)), c)
  {
    hide Inv, L.Apply, HandlerActions, Epoller.Callbacks, Settled;
    InvSized(s);
    HandlersOf(s.loops[l].active[0].h, Epoller.Callbacks(revents), read);
    SettledExists(s, c);
    TodoSettles(s, Apply(s, Event.Dispatch(l, revents, read)), l, c);
  }

  lemma SettledExists(s: System, c: nat)
    requires Settled(s, c)
    ensures c in s.conns
  {
  }

  lemma RunSettles(s: System, l: nat, c: nat)
    requires Inv(s) && Enabled(s, Event.Run(l)) && Settled(s, c)
    ensures Settled(Apply(s, Event.Run(l)), c)
  {
    hide Inv, L.Apply, Settled;
    InvSized(s);
    SettledExists(s, c);
    TodoSettles(s, Apply(s, Event.Run(l)), l, c);
  }

  lemma AdmitSettles(s: System, fd: int, c: nat)
    requires Inv(s) && Enabled(s, Admit(fd)) && Settled(s, c) && c < s.registry.nextId
    ensures Settled(Apply(s, Admit(fd)), c) && Apply(s, Admit(fd)).conns[c] == s.conns[c]
  {
    hide Inv, R.Admit, P.Attach, Settled;
    InvSized(s);
    SettledExists(s, c);
    TodoSettles(s, Apply(s, Admit(fd)), 0, c);
  }

  lemma StepSettles(s: System, e: Event, c: nat)
    requires Inv(s) && Enabled(s, e) && Settled(s, c) && c < s.registry.nextId && c in Apply(s, e).conns
    ensures Settled(Apply(s, e), c) && Apply(s, e).conns[c].downs == s.conns[c].downs
  {
    hide Inv, Sized, ApplyAction, ActionEnabled, P.SetMask, R.Admit, P.Attach, P.Detach, TaskActions, HandlerActions,
         ProtocolAllowed, Unheld, Admits, Live, L.Apply, L.Enabled;
    InvSized(s);
    match e
    case Act(l, drained) =>
      assert AboutTo(s, l, s.todo[l][0]);
      ActSettles(s, l, s.todo[l][0], drained, c);
    case Dispatch(l, revents, read) => DispatchSettles(s, l, revents, read, c);
    case Run(l) => RunSettles(s, l, c);
    case Admit(fd) => AdmitSettles(s, fd, c);
    case _ =>
  }

  lemma {:induction false} RunSettlesAll(s: System, es: seq<Event>, c: nat)
    requires Inv(s) && Legal(s, es) && Settled(s, c) && c < s.registry.nextId && c in Exec(s, es).conns
    ensures Exec(s, es).conns[c].downs == s.conns[c].downs
    decreases |es|
  {
    hide Inv, Sized, Enabled, Apply, Settled, Advances;
    if es != [] {
      var t := Apply(s, es[0]);
      StepKeepsInv(s, es[0]);
      StepAdvances(s, es[0], c);
      PhaseIsFinal(t, es[1..], c);
      StepSettles(s, es[0], c);
      RunSettlesAll(t, es[1..], c);
    }
  }

  lemma KnownIds(s: System, c: nat)
    requires Inv(s) && c in s.conns
    ensures c < s.registry.nextId
  {
    hide LoopOk, PollerOk, LocalOk, LocalOf, R.Faithful;
  }

  /** A report of the disconnection still to come. */
  ghost predicate MayBeReported(s: System, c: nat) {
    exists es :: Legal(s, es) && c in s.conns && c in Exec(s, es).conns && Exec(s, es).conns[c].downs > s.conns[c].downs
  }

  lemma ReportIsNext(s: System, c: nat) returns (es: seq<Event>)
    requires Inv(s) && MidDestruction(s, c)
    ensures Legal(s, es) && c in Exec(s, es).conns && Exec(s, es).conns[c].downs == s.conns[c].downs + 1
  {
    hide Inv, P.SetMask;
    InvSized(s);
    var l := s.conns[c].loop;
    StoreIsNext(s, l, c);
    Homed(s, l, c);
    es := [Act(l, false)];
    assert es[1..] == [] && Legal(Apply(s, es[0]), []) && Exec(Apply(s, es[0]), []) == Apply(s, es[0]);
  }

  /**
   A connection that has left kConnected, be it by shutdown(), is reported down later exactly when
   connectDestroyed had looked at the state before that and has not yet stored its own.
   */
  lemma ReportAfterShutdownIff(s: System, c: nat)
    requires Inv(s) && c in s.conns && s.conns[c].up && s.conns[c].phase != C.Connected
    ensures MayBeReported(s, c) <==> MidDestruction(s, c)
  {
    hide Inv, Legal, Exec, MidDestruction;
    KnownIds(s, c);
    if MidDestruction(s, c) {
      var es := ReportIsNext(s, c);
    } else {
      forall es | Legal(s, es) && c in Exec(s, es).conns ensures Exec(s, es).conns[c].downs == s.conns[c].downs {
        RunSettlesAll(s, es, c);
      }
    }
  }

  lemma CallerIsUp(s: System, thread: nat, c: nat)
    requires Inv(s) && c in s.conns && Store(thread, c) in s.stores
    ensures s.conns[c].up
  {
    hide Inv, LocalOf;
    var v := Record(s, c);
    CallerShows(s, thread, c);
  }

  /** The store of another thread's shutdown() is followed by a report exactly if it falls between that look and that store. */
  lemma ForeignShutdownReportedIff(s: System, thread: nat, c: nat)
    requires Inv(s) && Enabled(s, ShutdownWrite(thread, c))
    ensures MayBeReported(Apply(s, ShutdownWrite(thread, c)), c) <==> MidDestruction(s, c)
  {
    hide Inv, MayBeReported;
    InvSized(s);
    CallerIsUp(s, thread, c);
    StepKeepsInv(s, ShutdownWrite(thread, c));
    ReportAfterShutdownIff(Apply(s, ShutdownWrite(thread, c)), c);
  }

  /** After shutdown() on the connection's own thread there is no report: connectDestroyed runs on that thread too. */
  lemma OwnShutdownIsNeverReported(s: System, l: nat, c: nat)
    requires AboutTo(s, l, ShutdownStore(c))
    ensures !MayBeReported(ApplyAction(s, l, false), c)
  {
    hide Inv, Legal, Exec, ActionEnabled, ApplyAction, LocalOf, LocalOk, MidDestruction, MayBeReported;
    ActionStep(s, l, ShutdownStore(c), false);
    AboutToMeans(s, l, ShutdownStore(c));
    StoredByOwner(s, l, c);
    ReportAfterShutdownIff(ApplyAction(s, l, false), c);
  }

  lemma StoredByOwner(s: System, l: nat, c: nat)
    requires AboutTo(s, l, ShutdownStore(c))
    ensures var t := ApplyAction(s, l, false);
            c in t.conns && t.conns[c].up && t.conns[c].phase == C.Disconnecting && !MidDestruction(t, c)
  {
    hide RegistryOk, PollerOk, LocalOk, LocalOf, L.Inv, Queue, TaskOk, ActionOk;
    assert LoopOk(s, l);
    BusyIsUp(s, l, c);
  }

  lemma BusyIsUp(s: System, l: nat, c: nat)
    requires AboutTo(s, l, ShutdownStore(c))
    ensures c in s.conns && s.conns[c].up && s.conns[c].loop == l
  {
    hide Inv, LocalOf, ActionEnabled;
    AboutToMeans(s, l, ShutdownStore(c));
  }
}
