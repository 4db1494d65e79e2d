/**
 The event loop as an object. Every method reports, as a ghost list, the protocol events it went
 through, and its fields end up where LoopSpec says those events lead. Foreign threads act at the
 points where Interfere is called: its contract allows any legal foreign events, and callers learn
 nothing more about it. UserCode stands in the same way for handlers and functors.
 */
module EventLoops {
  import opened LoopSpec
  import opened Threads

  ghost predicate Ran<F, H>(s: Loop<F, H>, es: seq<Event<F, H>>, t: Loop<F, H>) {
    Legal(s, es) && Exec(s, es) == t
  }

  lemma RanStep<F, H>(s: Loop<F, H>, e: Event<F, H>)
    requires Enabled(s, e)
    ensures Ran(s, [e], Apply(s, e))
  {
    assert [e][1..] == [];
    assert Legal(Apply(s, e), []) && Exec(Apply(s, e), []) == Apply(s, e);
  }

  lemma RanThen<F, H>(s: Loop<F, H>, es: seq<Event<F, H>>, t: Loop<F, H>, more: seq<Event<F, H>>, u: Loop<F, H>)
    requires Ran(s, es, t) && Ran(t, more, u)
    ensures Ran(s, es + more, u)
  {
    ExecAppend(s, es, more);
  }

  lemma RanNothing<F, H>(s: Loop<F, H>)
    ensures Ran(s, [], s)
  {
  }

  lemma Entered<F, H>(s: Loop<F, H>)
    requires Consistent(s) && Enabled(s, Event<F, H>.Enter)
    ensures Consistent(Apply(s, Event<F, H>.Enter)) && (Armed(s) ==> Inv(Apply(s, Event<F, H>.Enter)))
  {
  }

  function Fds<H>(ready: seq<H>): seq<Ready<H>> {
    if ready == [] then [] else Fds(ready[..|ready| - 1]) + [Fd(ready[|ready| - 1])]
  }

  lemma {:induction false} FdsAreFds<H>(ready: seq<H>)
    ensures WakeFd !in Fds(ready)
  {
    if ready != [] { FdsAreFds(ready[..|ready| - 1]); }
  }

  lemma FdsSnoc<H>(ready: seq<H>, i: nat)
    requires i < |ready|
    ensures Fds(ready[..i + 1]) == Fds(ready[..i]) + [Fd(ready[i])]
  {
    assert ready[..i + 1][..i] == ready[..i];
  }

  lemma NoFds<H>()
    ensures Fds<H>([]) == []
  {
  }

  lemma Polled<F, H>(s: Loop<F, H>, active: seq<Ready<H>>)
    requires Enabled(s, Event<F, H>.PollReturns(active))
    ensures Apply(s, Event<F, H>.PollReturns(active)) == s.(pc := Dispatching, active := active)
  {
  }

  lemma SilentParts<F, H>(a: seq<Event<F, H>>, b: seq<Event<F, H>>)
    requires Silent(a + b)
    ensures Silent(b)
  {
    forall e | e in b ensures !e.Release? && !e.QuitWake? {
      assert e in a + b;
    }
  }

  lemma OwnerAway<F, H>(s: Loop<F, H>)
    requires Consistent(s) && s.pc == Polling
    ensures s.lock != Held(Owner)
  {
  }

  /** An event some foreign thread can perform at any time. */
  ghost predicate ByForeign<F, H>(e: Event<F, H>) {
    match e
    case Push(who, _) => who.Foreign?
    case Release(who) => who.Foreign?
    case SetQuit(who) => who.Foreign?
    case QuitWake(_) => true
    case _ => false
  }

  /** An event of a foreign thread, or of the owner while it runs user code. */
  ghost predicate ByUser<F, H>(e: Event<F, H>) {
    e.Push? || e.Release? || e.SetQuit? || e.QuitWake?
  }

  /** Neither foreign threads nor user code move the owner's own bookkeeping. */
  ghost predicate OwnerUnmoved<F, H>(s: Loop<F, H>, t: Loop<F, H>) {
    t.pc == s.pc && t.active == s.active && t.batch == s.batch && t.executed == s.executed && t.calling == s.calling
  }

  lemma {:induction false} UserEventsLeaveOwner<F, H>(s: Loop<F, H>, es: seq<Event<F, H>>)
    requires Legal(s, es) && forall e :: e in es ==> ByUser(e)
    ensures OwnerUnmoved(s, Exec(s, es)) && (s.quit ==> Exec(s, es).quit)
    decreases |es|
  {
    if es != [] {
      assert es[0] in es;
      UserEventsLeaveOwner(Apply(s, es[0]), es[1..]);
    }
  }

  class EventLoop<F(0), H> {
    var pendingFunctors: seq<F>
    var quit: bool
    var callingPendingFunctors: bool
    var activeChannels: seq<Ready<H>>
    /** The kernel's eventfd counter. */
    var wakeupCounter: nat
    var mutex: Lock
    ghost var pc: Pc
    ghost var batch: seq<F>
    ghost var quitting: set<nat>
    ghost var queued: seq<F>
    ghost var executed: seq<F>
    /** Functors runInloop has run at once on the owner's thread, in order. */
    ghost var ranInline: seq<F>

    ghost function View(): Loop<F, H>
      reads this
    {
      Loop(pc, activeChannels, pendingFunctors, batch, wakeupCounter, quit, callingPendingFunctors, mutex,
           quitting, queued, executed)
    }

    constructor ()
      ensures View() == New<F, H>()
    {
      pendingFunctors, quit, callingPendingFunctors, activeChannels := [], false, false, [];
      wakeupCounter, mutex := 0, Free;
      pc, batch, quitting, queued, executed, ranInline := Before, [], {}, [], [], [];
    }

    /** Other threads run for a while. */
    method Interfere() returns (ghost es: seq<Event<F, H>>)
      modifies this
      ensures Ran(old(View()), es, View()) && forall e :: e in es ==> ByForeign(e)
      ensures ranInline == old(ranInline)
    {
      es := [];
    }

    /** Handlers and functors run for a while, and other threads with them. */
    method UserCode() returns (ghost es: seq<Event<F, H>>)
      requires InUserCode(pc) && mutex != Held(Owner)
      modifies this
      ensures Ran(old(View()), es, View()) && mutex != Held(Owner)
      ensures forall e :: e in es ==> ByUser(e)
      ensures old(ranInline) <= ranInline
    {
      es := [];
    }

    /** Block until the mutex is free: whoever else holds it finishes its critical section. */
    method AwaitMutex(who: Who) returns (ghost es: seq<Event<F, H>>)
      requires mutex != Held(who)
      modifies this
      ensures Ran(old(View()), es, View()) && mutex == Free && ranInline == old(ranInline)
      ensures forall e :: e in es ==> ByUser(e)
    {
      es := [];
      if mutex.Held? {
        RanStep(View(), Event<F, H>.Release(mutex.holder));
        es := [Release(mutex.holder)];
        if mutex.holder != Owner || callingPendingFunctors {
          Wakeup();
        }
        mutex := Free;
      }
    }

    method Wakeup()
      modifies this`wakeupCounter
      ensures wakeupCounter == Bump(old(wakeupCounter)) && wakeupCounter > 0
    {
      if wakeupCounter < COUNTER_MAX {
        wakeupCounter := wakeupCounter + 1;
      }
    }

    method HandleRead()
      modifies this`wakeupCounter
      ensures wakeupCounter == 0
    {
      wakeupCounter := 0;
    }

    method QueueInLoop(who: Who, f: F) returns (ghost es: seq<Event<F, H>>)
      requires mutex != Held(who) && (who == Owner ==> InUserCode(pc))
      modifies this
      ensures Ran(old(View()), es, View()) && mutex == Free && ranInline == old(ranInline)
      ensures Push(who, f) in es && Release(who) in es && forall e :: e in es ==> ByUser(e)
      ensures OwnerUnmoved(old(View()), View())
    {
      hide Ran, Consistent, Legal, Exec;
      ghost var start := View();
      ghost var waited := AwaitMutex(who);
      UserEventsLeaveOwner(start, waited);
      RanStep(View(), Event<F, H>.Push(who, f));
      RanThen(start, waited, View(), [Push(who, f)], Apply(View(), Event<F, H>.Push(who, f)));
      mutex := Held(who);
      pendingFunctors := pendingFunctors + [f];
      queued := queued + [f];
      RanStep(View(), Event<F, H>.Release(who));
      RanThen(start, waited + [Push(who, f)], View(), [Release(who)], Apply(View(), Event<F, H>.Release(who)));
      if who != Owner || callingPendingFunctors {
        Wakeup();
      }
      mutex := Free;
      es := waited + [Push(who, f)] + [Release(who)];
    }

    /** Run a functor on the owner's thread. */
    method Call(f: F) returns (ghost es: seq<Event<F, H>>)
      requires InUserCode(pc) && mutex != Held(Owner)
      modifies this
      ensures Ran(old(View()), es, View()) && mutex != Held(Owner)
      ensures old(ranInline) + [f] <= ranInline && OwnerUnmoved(old(View()), View())
    {
      ranInline := ranInline + [f];
      es := UserCode();
      UserEventsLeaveOwner(old(View()), es);
    }

    /** On the owner's thread the functor runs at once and nothing before it; from elsewhere it is queued. */
    method RunInLoop(who: Who, f: F) returns (ghost es: seq<Event<F, H>>)
      requires mutex != Held(who) && (who == Owner ==> InUserCode(pc))
      modifies this
      ensures Ran(old(View()), es, View()) && OwnerUnmoved(old(View()), View())
      ensures who == Owner ==> old(ranInline) + [f] <= ranInline && mutex != Held(Owner)
      ensures who != Owner ==> Push(who, f) in es && Release(who) in es && ranInline == old(ranInline)
    {
      if who == Owner {
        es := Call(f);
      } else {
        es := QueueInLoop(who, f);
      }
    }

    method Quit(who: Who) returns (ghost es: seq<Event<F, H>>)
      requires Enabled(View(), Event<F, H>.SetQuit(who))
      modifies this
      ensures Ran(old(View()), es, View()) && quit
      ensures who.Foreign? ==> wakeupCounter > 0
    {
      ghost var start := View();
      RanStep(start, Event<F, H>.SetQuit(who));
      quit := true;
      es := [SetQuit(who)];
      if who.Foreign? {
        quitting := quitting + {who.thread};
        RanStep(View(), Event<F, H>.QuitWake(who.thread));
        RanThen(start, es, View(), [QuitWake(who.thread)], Apply(View(), Event<F, H>.QuitWake(who.thread)));
        Wakeup();
        quitting := quitting - {who.thread};
        es := es + [QuitWake(who.thread)];
      }
    }

    /** The critical section of doPendingFunctors: take the whole queue, leave it empty. */
    method TakeQueue() returns (functors: seq<F>, ghost es: seq<Event<F, H>>)
      requires pc == Calling && mutex == Free && Consistent(View())
      modifies this`pendingFunctors, this`batch, this`pc
      ensures Ran(old(View()), es, View()) && es == [SwapOut] && pc == Running
      ensures functors == batch == old(pendingFunctors) && pendingFunctors == [] && queued == executed + functors
    {
      RanStep(View(), Event<F, H>.SwapOut);
      functors := pendingFunctors;
      pendingFunctors, batch, pc := [], functors, Running;
      es := [SwapOut];
      assert queued == executed + [] + functors;
    }

    /** Wait for the mutex, whatever others do meanwhile, and take the queue. */
    method SwapFunctors() returns (functors: seq<F>, ghost es: seq<Event<F, H>>)
      requires pc == Calling && mutex != Held(Owner) && Consistent(View())
      modifies this
      ensures Ran(old(View()), es, View()) && pc == Running && mutex == Free
      ensures functors == batch && pendingFunctors == [] && queued == executed + functors
    {
      ghost var start := View();
      ghost var more := Interfere();
      UserEventsLeaveOwner(start, more);
      RunConsistent(start, more);
      ghost var mid := View();
      es := AwaitMutex(Owner);
      UserEventsLeaveOwner(mid, es);
      RunConsistent(mid, es);
      es := Joined(start, more, mid, es, View());
      mid := View();
      functors, more := TakeQueue();
      es := Joined(start, es, mid, more, View());
    }

    /** The functors of one batch, in order; what they or others queue meanwhile is not among them. */
    method RunFunctors(functors: seq<F>) returns (ghost es: seq<Event<F, H>>)
      requires pc == Running && batch == functors && mutex != Held(Owner)
      modifies this
      ensures Ran(old(View()), es, View()) && pc == Running && mutex != Held(Owner)
      ensures batch == [] && executed == old(executed) + functors
    {
      ghost var start := View();
      es := [];
      var i := 0;
      while i < |functors|
        invariant i <= |functors| && batch == functors[i..] && executed == old(executed) + functors[..i]
        invariant pc == Running && Ran(start, es, View()) && mutex != Held(Owner)
      {
        ghost var mid := View();
        RanStep(mid, Event<F, H>.RunNext);
        executed, batch := executed + [functors[i]], batch[1..];
        es := Joined(start, es, mid, [RunNext], View());
        mid := View();
        ghost var more := UserCode();
        UserEventsLeaveOwner(mid, more);
        es := Joined(start, es, mid, more, View());
        i := i + 1;
      }
    }

    method DoPendingFunctors() returns (ghost es: seq<Event<F, H>>)
      requires pc == Dispatching && activeChannels == [] && mutex != Held(Owner) && Consistent(View())
      modifies this
      ensures Ran(old(View()), es, View()) && pc == Check && mutex != Held(Owner)
      ensures EndCalling in es && old(queued) <= executed
    {
      ghost var start := View();
      RanStep(start, Event<F, H>.BeginCalling);
      StepConsistent(start, Event<F, H>.BeginCalling);
      callingPendingFunctors, pc := true, Calling;
      ghost var mid, more := View(), [];
      var functors;
      functors, more := SwapFunctors();
      ExecutedGrows(mid, more);
      es := Joined(start, [BeginCalling], mid, more, View());
      mid := View();
      more := RunFunctors(functors);
      es := Joined(start, es, mid, more, View());
      RunConsistent(start, es);
      mid := View();
      more := DoneCalling();
      es := Joined(start, es, mid, more, View());
    }

    method DoneCalling() returns (ghost es: seq<Event<F, H>>)
      requires pc == Running && batch == [] && mutex != Held(Owner)
      modifies this`callingPendingFunctors, this`pc
      ensures Ran(old(View()), es, View()) && es == [EndCalling] && pc == Check && !callingPendingFunctors
    {
      RanStep(View(), Event<F, H>.EndCalling);
      callingPendingFunctors, pc := false, Check;
      es := [EndCalling];
    }

    /** epoll_wait returns the wakeup channel if its counter is positive, and whatever other channels are ready. */
    method Poll(ready: seq<H>) returns (ghost es: seq<Event<F, H>>)
      requires pc == Polling && mutex != Held(Owner)
      modifies this`activeChannels, this`pc
      ensures Ran(old(View()), es, View()) && es == [PollReturns(activeChannels)] && pc == Dispatching
      ensures activeChannels == (if wakeupCounter > 0 then [WakeFd] else []) + Fds(ready)
    {
      hide Legal, Exec, Fds, Apply, Ran;
      activeChannels := if wakeupCounter > 0 then [WakeFd] else [];
      FdsAreFds(ready);
      NoFds<H>();
      var i := 0;
      while i < |ready|
        invariant i <= |ready| && activeChannels == (if wakeupCounter > 0 then [WakeFd] else []) + Fds(ready[..i])
      {
        activeChannels := activeChannels + [Fd(ready[i])];
        FdsSnoc(ready, i);
        i := i + 1;
      }
      assert ready[..i] == ready;
      ghost var e := Event<F, H>.PollReturns(activeChannels);
      RanStep(old(View()), e);
      Polled(old(View()), activeChannels);
      pc := Dispatching;
      es := [PollReturns(activeChannels)];
    }

    /** The dispatch loop: every active channel's handler, in order; the wakeup channel's reads the eventfd. */
    method DispatchActive() returns (ghost es: seq<Event<F, H>>)
      requires pc == Dispatching && mutex != Held(Owner)
      modifies this
      ensures Ran(old(View()), es, View()) && pc == Dispatching && activeChannels == [] && mutex != Held(Owner)
    {
      ghost var start := View();
      es := [];
      RanNothing(start);
      while activeChannels != []
        invariant pc == Dispatching && Ran(start, es, View()) && mutex != Held(Owner)
        decreases |activeChannels|
      {
        ghost var mid := View();
        RanStep(mid, Event<F, H>.HandleNext);
        var channel := activeChannels[0];
        activeChannels := activeChannels[1..];
        if channel == WakeFd {
          HandleRead();
        }
        es := Joined(start, es, mid, [HandleNext], View());
        mid := View();
        ghost var more := UserCode();
        UserEventsLeaveOwner(mid, more);
        es := Joined(start, es, mid, more, View());
      }
    }

    /**
     One round of the while loop. Everything queued before the poll has been started at its end, and the
     eventfd has been read: if the next poll is woken, somebody has written it meanwhile.
     */
    method Round(ready: seq<H>) returns (ghost es: seq<Event<F, H>>)
      requires pc == Polling && Consistent(View())
      modifies this
      ensures Ran(old(View()), es, View()) && pc == Check && mutex != Held(Owner)
      ensures old(queued) <= executed && (Silent(es) ==> wakeupCounter == 0)
    {
      hide Consistent, Legal, Exec;
      ghost var start := View();
      ghost var before := Interfere();
      UserEventsLeaveOwner(start, before);
      RunConsistent(start, before);
      ExecutedGrows(start, before);
      OwnerAway(View());
      ghost var mid := View();
      ghost var poll := Poll(ready);
      before := Joined(start, before, mid, poll, View());
      ghost var polled := View();
      RunConsistent(start, before);
      ghost var rest := DispatchActive();
      RunConsistent(polled, rest);
      ExecutedGrows(polled, rest);
      mid := View();
      ghost var last := DoPendingFunctors();
      rest := Joined(polled, rest, mid, last, View());
      es := Joined(start, before, polled, rest, View());
      if Silent(es) {
        SilentParts(before, rest);
        WakeupIsRead(polled, rest);
      }
    }

    /** The while test: leave the loop, or clear the active list and poll. */
    method TestQuit() returns (ghost es: seq<Event<F, H>>)
      requires pc == Check
      modifies this`pc, this`activeChannels
      ensures Ran(old(View()), es, View()) && es == [Test] && pc == if quit then Stopped else Polling
    {
      RanStep(View(), Event<F, H>.Test);
      if quit {
        pc := Stopped;
      } else {
        activeChannels, pc := [], Polling;
      }
      es := [Test];
    }

    /** loop(), cut off when `polls` gives out if nobody has asked it to quit by then; polls[i] is what the i-th poll finds ready. */
    method RunLoop(polls: seq<seq<H>>) returns (ghost es: seq<Event<F, H>>)
      requires pc == Before && mutex != Held(Owner) && Consistent(View())
      modifies this
      ensures Ran(old(View()), es, View())
      ensures pc == if quit then Stopped else Polling
      ensures old(Armed(View())) ==> Inv(View())
    {
      hide Legal, Exec, Consistent, Inv, Armed;
      ghost var start := View();
      RanStep(start, Event<F, H>.Enter);
      Entered(start);
      quit, pc := false, Check;
      ghost var entered := View();
      var i := 0;
      ghost var rest: seq<Event<F, H>> := [];
      RanNothing(entered);
      while !quit && i < |polls|
        invariant i <= |polls| && pc == Check && mutex != Held(Owner) && Ran(entered, rest, View())
        decreases |polls| - i
      {
        ghost var mid := View();
        ghost var more := TestQuit();
        rest := Joined(entered, rest, mid, more, View());
        RunConsistent(entered, rest);
        mid := View();
        more := Round(polls[i]);
        rest := Joined(entered, rest, mid, more, View());
        i := i + 1;
      }
      ghost var mid := View();
      ghost var last := TestQuit();
      rest := Joined(entered, rest, mid, last, View());
      es := Joined(start, [Enter], entered, rest, View());
      if Armed(start) { RunInv(entered, rest); }
    }
  }

  ghost function Joined<F, H>(s: Loop<F, H>, es: seq<Event<F, H>>, t: Loop<F, H>, more: seq<Event<F, H>>, u: Loop<F, H>)
    : (r: seq<Event<F, H>>)
    requires Ran(s, es, t) && Ran(t, more, u)
    ensures Ran(s, r, u) && r == es + more
  {
    RanThen(s, es, t, more, u);
    es + more
  }
}
