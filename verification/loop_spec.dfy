/**
 The event loop's task queue and wakeup protocol as a step system. The owner thread goes round
 poll, dispatch, swap, run; any number of foreign threads push functors under the mutex, and may
 stop between the push and the wakeup while they hold it, or between setting quit_ and its wakeup.
 F is the type of functors, H names the channels other than the wakeup channel.
 */
module LoopSpec {
  import opened Threads

  datatype Lock = Free | Held(holder: Who)

  /** Where the owner thread is: before loop(), at the while test, in poll, dispatching, before the swap, ... */
  datatype Pc = Before | Check | Polling | Dispatching | Calling | Running | Stopped

  datatype Ready<H> = WakeFd | Fd(h: H)

  /** An eventfd write that would go past this value fails and leaves the counter alone. */
  const COUNTER_MAX: nat := 0xffff_ffff_ffff_fffe

  datatype Loop<F, H> = Loop(
    pc: Pc,
    active: seq<Ready<H>>,
    pending: seq<F>,
    batch: seq<F>,
    counter: nat,
    quit: bool,
    calling: bool,
    lock: Lock,
    /** Foreign threads that have set quit_ and not yet written the eventfd. */
    quitting: set<nat>,
    /** Every functor ever queued, in lock order, and every functor started, in order. */
    queued: seq<F>,
    executed: seq<F>)

  datatype Event<F, H> =
    | Push(who: Who, f: F)
    | Release(who: Who)
    | SetQuit(who: Who)
    | QuitWake(thread: nat)
    | Enter
    | Test
    | PollReturns(active: seq<Ready<H>>)
    | HandleNext
    | BeginCalling
    | SwapOut
    | RunNext
    | EndCalling

  function Bump(counter: nat): nat {
    if counter < COUNTER_MAX then counter + 1 else counter
  }

  function New<F, H>(): Loop<F, H> {
    Loop(Before, [], [], [], 0, false, false, Free, {}, [], [])
  }

  /** The owner thread is in user code: it may queue functors and call quit. */
  predicate InUserCode(pc: Pc) {
    pc == Before || pc == Dispatching || pc == Running
  }

  predicate Enabled<F, H(==)>(s: Loop<F, H>, e: Event<F, H>) {
    match e
    case Push(who, _) => s.lock == Free && (who == Owner ==> InUserCode(s.pc))
    case Release(who) => s.lock == Held(who)
    case SetQuit(who) =>
      s.lock != Held(who) && if who.Owner? then InUserCode(s.pc) else who.thread !in s.quitting
    case QuitWake(t) => t in s.quitting
    case Enter => s.pc == Before && s.lock != Held(Owner)
    case Test => s.pc == Check
    case PollReturns(active) => s.pc == Polling && (WakeFd in active ==> s.counter > 0)
    case HandleNext => s.pc == Dispatching && s.active != [] && s.lock != Held(Owner)
    case BeginCalling => s.pc == Dispatching && s.active == [] && s.lock != Held(Owner)
    case SwapOut => s.pc == Calling && s.lock == Free
    case RunNext => s.pc == Running && s.batch != [] && s.lock != Held(Owner)
    case EndCalling => s.pc == Running && s.batch == [] && s.lock != Held(Owner)
  }

  function Apply<F, H(==)>(s: Loop<F, H>, e: Event<F, H>): Loop<F, H>
    requires Enabled(s, e)
  {
    match e
    case Push(who, f) => s.(pending := s.pending + [f], queued := s.queued + [f], lock := Held(who))
    case Release(who) =>
      s.(lock := Free, counter := if who != Owner || s.calling then Bump(s.counter) else s.counter)
    case SetQuit(who) =>
      s.(quit := true, quitting := if who.Owner? then s.quitting else s.quitting + {who.thread})
    case QuitWake(t) => s.(counter := Bump(s.counter), quitting := s.quitting - {t})
    case Enter => s.(pc := Check, quit := false)
    case Test => if s.quit then s.(pc := Stopped) else s.(pc := Polling, active := [])
    case PollReturns(active) => s.(pc := Dispatching, active := active)
    case HandleNext => s.(active := s.active[1..], counter := if s.active[0] == WakeFd then 0 else s.counter)
    case BeginCalling => s.(pc := Calling, calling := true)
    case SwapOut => s.(pc := Running, batch := s.pending, pending := s.batch)
    case RunNext => s.(batch := s.batch[1..], executed := s.executed + [s.batch[0]])
    case EndCalling => s.(pc := Check, calling := false)
  }

  ghost predicate Legal<F, H>(s: Loop<F, H>, es: seq<Event<F, H>>)
    decreases |es|
  {
    es == [] || (Enabled(s, es[0]) && Legal(Apply(s, es[0]), es[1..]))
  }

  ghost function Exec<F, H>(s: Loop<F, H>, es: seq<Event<F, H>>): Loop<F, H>
    requires Legal(s, es)
    decreases |es|
  {
    if es == [] then s else Exec(Apply(s, es[0]), es[1..])
  }

  lemma {:induction false} ExecAppend<F, H>(s: Loop<F, H>, es: seq<Event<F, H>>, more: seq<Event<F, H>>)
    requires Legal(s, es) && Legal(Exec(s, es), more)
    ensures Legal(s, es + more) && Exec(s, es + more) == Exec(Exec(s, es), more)
    decreases |es|
  {
    if es == [] {
      assert es + more == more;
    } else {
      ExecAppend(Apply(s, es[0]), es[1..], more);
      assert (es + more)[1..] == es[1..] + more;
    }
  }

  // ---- invariants -------------------------------------------------------------------------

  /** Nothing is waiting, or the poll will return, or a foreign thread is about to make it return. */
  ghost predicate Armed<F, H>(s: Loop<F, H>) {
    s.pending == [] || s.counter > 0 || (s.lock.Held? && s.lock.holder.Foreign?)
  }

  /** What holds of a loop whether or not loop() has been entered. */
  ghost predicate Consistent<F, H>(s: Loop<F, H>) {
    && (s.calling <==> s.pc == Calling || s.pc == Running)
    && s.executed + s.batch + s.pending == s.queued
    && (s.batch != [] ==> s.pc == Running)
    && (s.lock == Held(Owner) ==> InUserCode(s.pc))
  }

  ghost predicate Inv<F, H>(s: Loop<F, H>) {
    && Consistent(s)
    && s.pc != Before
    && (s.pc == Check || s.pc == Polling ==> Armed(s))
    && (s.pc == Running && s.lock == Free ==> Armed(s))
    && (s.pc == Polling && s.quit ==> s.counter > 0 || s.quitting != {})
  }

  lemma StepConsistent<F, H>(s: Loop<F, H>, e: Event<F, H>)
    requires Consistent(s) && Enabled(s, e)
    ensures Consistent(Apply(s, e))
  {
    var t := Apply(s, e);
    match e
    case Push(who, f) => assert t.executed + t.batch + t.pending == s.executed + s.batch + s.pending + [f];
    case RunNext =>
      assert s.batch == [s.batch[0]] + s.batch[1..];
      assert t.executed + t.batch == s.executed + s.batch;
    case _ =>
  }

  lemma StepInv<F, H>(s: Loop<F, H>, e: Event<F, H>)
    requires Inv(s) && Enabled(s, e)
    ensures Inv(Apply(s, e))
  {
    StepConsistent(s, e);
  }

  lemma {:induction false} RunInv<F, H>(s: Loop<F, H>, es: seq<Event<F, H>>)
    requires Inv(s) && Legal(s, es)
    ensures Inv(Exec(s, es))
    decreases |es|
  {
    if es != [] {
      StepInv(s, es[0]);
      RunInv(Apply(s, es[0]), es[1..]);
    }
  }

  lemma {:induction false} RunConsistent<F, H>(s: Loop<F, H>, es: seq<Event<F, H>>)
    requires Consistent(s) && Legal(s, es)
    ensures Consistent(Exec(s, es))
    decreases |es|
  {
    if es != [] {
      StepConsistent(s, es[0]);
      RunConsistent(Apply(s, es[0]), es[1..]);
    }
  }

  /** Exactly once, first in first out: nothing queued is lost, repeated or overtaken. */
  lemma ExactlyOnceInOrder<F, H>(es: seq<Event<F, H>>)
    requires Legal(New<F, H>(), es)
    ensures var t := Exec(New<F, H>(), es); t.executed + t.batch + t.pending == t.queued
  {
    RunConsistent(New<F, H>(), es);
  }

  // ---- no lost wakeup ---------------------------------------------------------------------

  /** A poll about to block with work waiting has been, or is just about to be, woken. */
  lemma NoLostWakeup<F, H>(s: Loop<F, H>, es: seq<Event<F, H>>)
    requires Inv(s) && Legal(s, es)
    ensures var t := Exec(s, es);
            t.pc == Polling && t.pending != [] ==>
              t.counter > 0 ||
              (t.lock.Held? && t.lock.holder.Foreign? &&
               Enabled(t, Release(t.lock.holder)) && Apply(t, Release(t.lock.holder)).counter > 0)
  {
    RunInv(s, es);
  }

  ghost predicate NeverLost<F(!new), H(!new)>(s: Loop<F, H>) {
    forall es :: Legal(s, es) && Exec(s, es).pc == Polling ==> Armed(Exec(s, es))
  }

  /** loop() may be entered with a sleeping queue: it stays safe exactly when it is armed at entry. */
  lemma SafeIffArmedAtEntry<F(!new), H(!new)>(s: Loop<F, H>)
    requires Consistent(s) && Enabled(s, Event<F, H>.Enter)
    ensures NeverLost(Apply(s, Event<F, H>.Enter)) <==> Armed(s)
  {
    var t := Apply(s, Event<F, H>.Enter);
    if Armed(s) {
      assert Inv(t);
      forall es | Legal(t, es) && Exec(t, es).pc == Polling ensures Armed(Exec(t, es)) {
        RunInv(t, es);
      }
    } else {
      var es := [Event<F, H>.Test];
      assert es[1..] == [];
      assert Legal(Apply(t, es[0]), []) && Exec(Apply(t, es[0]), []) == Apply(t, es[0]);
      assert Legal(t, es) && Exec(t, es).pc == Polling && !Armed(Exec(t, es));
    }
  }

  /** The unarmed entry exists: the owner queues before loop(), which wakes nobody. */
  lemma OwnerPushBeforeLoopSleeps<F, H>(f: F) returns (es: seq<Event<F, H>>)
    ensures Legal(New<F, H>(), es)
    ensures var t := Exec(New<F, H>(), es); t.pc == Polling && t.pending == [f] && t.counter == 0 && t.lock == Free
  {
    var s0 := New<F, H>();
    var s1 := Apply(s0, Push(Owner, f));
    var s2 := Apply(s1, Release(Owner));
    var s3 := Apply(s2, Event<F, H>.Enter);
    var s4 := Apply(s3, Event<F, H>.Test);
    es := [Push(Owner, f), Release(Owner), Enter, Test];
    var e1, e2, e3 := es[1..], es[1..][1..], es[1..][1..][1..];
    assert e1[0] == Release(Owner) && e2[0] == Enter && e3[0] == Test && e3[1..] == [];
    assert Legal(s4, e3[1..]) && Exec(s4, e3[1..]) == s4;
    assert Legal(s3, e3) && Exec(s3, e3) == s4;
    assert Legal(s2, e2) && Exec(s2, e2) == s4;
    assert Legal(s1, e1) && Exec(s1, e1) == s4;
  }

  // ---- the eventfd ------------------------------------------------------------------------

  /** A step that writes the eventfd: a foreign thread, or a running functor, has queued something; or a quit. */
  predicate Wakes<F, H(==)>(s: Loop<F, H>, e: Event<F, H>) {
    (e.Release? && (e.who != Owner || s.pc == Calling || s.pc == Running)) || e.QuitWake?
  }

  /** A step that reads it. */
  predicate Drains<F, H(==)>(s: Loop<F, H>, e: Event<F, H>) {
    e.HandleNext? && s.active != [] && s.active[0] == WakeFd
  }

  /** How often it has been written since it was last read, starting from `before`. */
  ghost function Unread<F, H>(s: Loop<F, H>, es: seq<Event<F, H>>, before: nat): nat
    requires Legal(s, es)
    decreases |es|
  {
    if es == [] then before
    else Unread(Apply(s, es[0]), es[1..], if Drains(s, es[0]) then 0 else if Wakes(s, es[0]) then before + 1 else before)
  }

  function AtMost(n: nat, most: nat): nat {
    if n < most then n else most
  }

  /** The counter is the number of wakeups nobody has read yet, as far as it can count. */
  lemma {:induction false} CounterIsUnread<F, H>(s: Loop<F, H>, es: seq<Event<F, H>>, before: nat)
    requires Consistent(s) && Legal(s, es) && s.counter == AtMost(before, COUNTER_MAX)
    ensures Exec(s, es).counter == AtMost(Unread(s, es, before), COUNTER_MAX)
    decreases |es|
  {
    if es != [] {
      StepConsistent(s, es[0]);
      hide Consistent;
      CounterIsUnread(Apply(s, es[0]), es[1..], if Drains(s, es[0]) then 0 else if Wakes(s, es[0]) then before + 1 else before);
    }
  }

  /** Nobody writes the eventfd along the run. */
  ghost predicate Silent<F, H>(es: seq<Event<F, H>>) {
    forall e :: e in es ==> !e.Release? && !e.QuitWake?
  }

  /** Once poll has reported the wakeup channel, it is read in this very dispatch: only a wakeup written since wakes a later poll. */
  lemma {:induction false} WakeupIsRead<F, H>(s: Loop<F, H>, es: seq<Event<F, H>>)
    requires Legal(s, es) && Silent(es) && (s.counter == 0 || (s.pc == Dispatching && WakeFd in s.active))
    ensures var t := Exec(s, es); t.counter == 0 || (t.pc == Dispatching && WakeFd in t.active)
    decreases |es|
  {
    if es != [] {
      assert es[0] in es;
      WakeupIsRead(Apply(s, es[0]), es[1..]);
    }
  }

  // ---- what one iteration does ------------------------------------------------------------

  /** q has been queued and the current or next batch contains whatever of q has not run. */
  ghost predicate WillServe<F, H>(q: seq<F>, s: Loop<F, H>) {
    && Consistent(s) && q <= s.queued
    && (s.pc == Polling || s.pc == Dispatching || s.pc == Calling || (s.pc == Running && |q| <= |s.executed| + |s.batch|))
  }

  lemma {:induction false} ExecutedGrows<F, H>(s: Loop<F, H>, es: seq<Event<F, H>>)
    requires Legal(s, es)
    ensures s.executed <= Exec(s, es).executed && s.queued <= Exec(s, es).queued
    decreases |es|
  {
    if es != [] {
      ExecutedGrows(Apply(s, es[0]), es[1..]);
    }
  }

  lemma {:induction false} Serves<F, H>(q: seq<F>, s: Loop<F, H>, es: seq<Event<F, H>>)
    requires WillServe(q, s) && Legal(s, es) && EndCalling in es
    ensures q <= Exec(s, es).executed
    decreases |es|
  {
    var t := Apply(s, es[0]);
    StepConsistent(s, es[0]);
    if es[0] == EndCalling {
      assert s.executed <= s.queued;
      ExecutedGrows(t, es[1..]);
    } else {
      Serves(q, t, es[1..]);
    }
  }

  /** Whatever is queued when the loop polls has been started when the iteration's functor phase ends. */
  lemma ServedWithinOneIteration<F, H>(s: Loop<F, H>, es: seq<Event<F, H>>)
    requires Consistent(s) && s.pc == Polling && Legal(s, es) && EndCalling in es
    ensures s.queued <= Exec(s, es).executed
  {
    Serves(s.queued, s, es);
  }

  /** A running batch is fixed: functors queued meanwhile, by anyone, wait for the next one. */
  lemma {:induction false} BatchIsFixed<F, H>(s: Loop<F, H>, es: seq<Event<F, H>>)
    requires s.pc == Running && Legal(s, es) && EndCalling !in es
    ensures var t := Exec(s, es);
            t.pc == Running && t.executed + t.batch == s.executed + s.batch && |t.batch| <= |s.batch|
    decreases |es|
  {
    if es != [] {
      var t := Apply(s, es[0]);
      if es[0] == RunNext {
        assert s.batch == [s.batch[0]] + s.batch[1..];
        assert t.executed + t.batch == s.executed + s.batch;
      }
      BatchIsFixed(t, es[1..]);
    }
  }

  // ---- quit -------------------------------------------------------------------------------

  function Polls<F, H>(es: seq<Event<F, H>>): nat {
    if es == [] then 0 else (if es[0].PollReturns? then 1 else 0) + Polls(es[1..])
  }

  /** Once quit_ is set inside loop(), the loop polls at most once more and stops at its next test. */
  lemma {:induction false} QuitIsNotMissed<F, H>(s: Loop<F, H>, es: seq<Event<F, H>>)
    requires s.quit && s.pc != Before && Legal(s, es)
    ensures var t := Exec(s, es);
            && t.quit && t.pc != Before
            && (Test in es || s.pc == Stopped ==> t.pc == Stopped)
            && Polls(es) <= if s.pc == Polling then 1 else 0
    decreases |es|
  {
    if es != [] {
      QuitIsNotMissed(Apply(s, es[0]), es[1..]);
    }
  }

  /** And the poll it may be blocked in is woken, or about to be, by whoever set the flag. */
  lemma QuitWakesThePoll<F, H>(s: Loop<F, H>, es: seq<Event<F, H>>)
    requires Inv(s) && Legal(s, es)
    ensures var t := Exec(s, es);
            t.pc == Polling && t.quit ==> t.counter > 0 || exists i :: i in t.quitting && Enabled(t, QuitWake(i))
  {
    RunInv(s, es);
    var t := Exec(s, es);
    if t.pc == Polling && t.quit && t.counter == 0 {
      var i :| i in t.quitting;
      assert Enabled(t, QuitWake(i));
    }
  }

  /** Whatever happens next, the loop is left at its next test of the flag. */
  ghost predicate QuitHonoured<F(!new), H(!new)>(s: Loop<F, H>) {
    forall es :: Legal(s, es) && Test in es ==> Exec(s, es).pc == Stopped
  }

  lemma ExecCons<F, H>(s: Loop<F, H>, e: Event<F, H>, rest: seq<Event<F, H>>)
    requires Enabled(s, e) && Legal(Apply(s, e), rest)
    ensures Legal(s, [e] + rest) && Exec(s, [e] + rest) == Exec(Apply(s, e), rest)
  {
    hide Apply, Enabled;
    assert ([e] + rest)[0] == e && ([e] + rest)[1..] == rest;
  }

  /** Any quit still pending when loop() is entered is forgotten there: the loop enters, tests the flag and polls. */
  lemma EntryForgetsQuit<F, H>(s: Loop<F, H>) returns (es: seq<Event<F, H>>)
    requires s.pc == Before && s.lock != Held(Owner)
    ensures Legal(s, es) && Test in es && Exec(s, es).pc == Polling && !Exec(s, es).quit
  {
    var entered := Apply(s, Event<F, H>.Enter);
    var last := [Event<F, H>.Test] + [];
    ExecCons(entered, Event<F, H>.Test, []);
    ExecCons(s, Event<F, H>.Enter, last);
    es := [Event<F, H>.Enter] + last;
    assert es[1] == Test;
  }

  /** A quit that has been asked for is honoured exactly when loop() has been entered. */
  lemma QuitHonouredIffEntered<F(!new), H(!new)>(s: Loop<F, H>)
    requires s.quit && s.lock != Held(Owner)
    ensures QuitHonoured(s) <==> s.pc != Before
  {
    if s.pc == Before {
      var es := EntryForgetsQuit(s);
    } else {
      forall es | Legal(s, es) && Test in es ensures Exec(s, es).pc == Stopped {
        QuitIsNotMissed(s, es);
      }
    }
  }

  /** A quit issued before loop() resets the flag is forgotten. */
  lemma QuitBeforeLoopIsLost<F, H>(thread: nat) returns (es: seq<Event<F, H>>)
    ensures Legal(New<F, H>(), es) && SetQuit(Foreign(thread)) in es
    ensures var t := Exec(New<F, H>(), es); t.pc == Polling && !t.quit && t.quitting == {}
  {
    var s0 := New<F, H>();
    var s1 := Apply(s0, SetQuit(Foreign(thread)));
    var s2 := Apply(s1, QuitWake(thread));
    var s3 := Apply(s2, Event<F, H>.Enter);
    var s4 := Apply(s3, Event<F, H>.Test);
    es := [SetQuit(Foreign(thread)), QuitWake(thread), Enter, Test];
    assert es[0] == SetQuit(Foreign(thread));
    var e1, e2, e3 := es[1..], es[1..][1..], es[1..][1..][1..];
    assert e1[0] == QuitWake(thread) && e2[0] == Enter && e3[0] == Test && e3[1..] == [];
    assert Legal(s4, e3[1..]) && Exec(s4, e3[1..]) == s4;
    assert Legal(s3, e3) && Exec(s3, e3) == s4;
    assert Legal(s2, e2) && Exec(s2, e2) == s4;
    assert Legal(s1, e1) && Exec(s1, e1) == s4;
  }
}
