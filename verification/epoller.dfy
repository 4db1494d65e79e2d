/** Channels and the epoll-backed poller as objects, proved against PollerSpec. */
module Epoller {
  import opened PollerSpec

  /** The returned events the dispatcher looks at. */
  datatype Revents = Revents(hup: bool, nval: bool, err: bool, pollin: bool, pri: bool, rdhup: bool, pollout: bool)

  datatype Callback = CloseCallback | ErrorCallback | ReadCallback | WriteCallback

  /** The callbacks one dispatch makes, in order. */
  function Callbacks(r: Revents): seq<Callback> {
    (if r.hup && !r.pollin then [CloseCallback] else [])
    + (if r.err || r.nval then [ErrorCallback] else [])
    + (if r.pollin || r.pri || r.rdhup then [ReadCallback] else [])
    + (if r.pollout then [WriteCallback] else [])
  }

  /** Which callbacks the returned events ask for. */
  predicate AskedFor(r: Revents, c: Callback) {
    match c
    case CloseCallback => r.hup && !r.pollin
    case ErrorCallback => r.err || r.nval
    case ReadCallback => r.pollin || r.pri || r.rdhup
    case WriteCallback => r.pollout
  }

  /** Each callback asked for is made, once and in this order, and no other. */
  lemma CallbacksMeaning(r: Revents)
    ensures CloseCallback in Callbacks(r) <==> r.hup && !r.pollin
    ensures ErrorCallback in Callbacks(r) <==> r.err || r.nval
    ensures ReadCallback in Callbacks(r) <==> r.pollin || r.pri || r.rdhup
    ensures WriteCallback in Callbacks(r) <==> r.pollout
    ensures forall i, j :: 0 <= i < j < |Callbacks(r)| ==> Rank(Callbacks(r)[i]) < Rank(Callbacks(r)[j])
  {
  }

  /** A close and a read may well come out of the same dispatch. */
  lemma CloseAndRead(r: Revents)
    ensures CloseCallback in Callbacks(r) && ReadCallback in Callbacks(r) <==> r.hup && !r.pollin && (r.pri || r.rdhup)
  {
  }

  function Rank(c: Callback): nat {
    match c
    case CloseCallback => 0
    case ErrorCallback => 1
    case ReadCallback => 2
    case WriteCallback => 3
  }

  class Channel {
    const fd: int
    const poller: Eepoller
    var mask: Mask
    var index: Index
    var revents: Revents
    var tied: bool

    constructor (poller: Eepoller, fd: int)
      requires poller.Valid() && FdFree(poller.View(), fd)
      modifies poller`live
      ensures this.poller == poller && this.fd == fd && !tied && mask == NO_EVENT
      ensures poller.Valid() && poller.live == old(poller.live) + {this}
      ensures poller.View() == Attach(old(poller.View()), this, fd)
    {
      this.poller, this.fd := poller, fd;
      mask, index := NO_EVENT, New;
      tied := false;
      new;
      poller.live := poller.live + {this};
      assert poller.View().chans == Attach(old(poller.View()), this, fd).chans;
      AttachAgrees(old(poller.View()), this, fd);
    }

    /** Attached to its poller, whose records agree. */
    ghost predicate Valid()
      reads this, poller, poller.live
    {
      this in poller.live && poller.Valid()
    }

    method Tie()
      requires Valid()
      modifies this`tied
      ensures tied && Valid() && poller.View() == old(poller.View())
    {
      tied := true;
      assert poller.View().chans == old(poller.View()).chans;
    }

    method SetEvents(m: Mask)
      requires Valid()
      modifies this`mask, this`index, poller
      ensures Valid() && poller.live == old(poller.live) && mask == m
      ensures poller.View() == SetMask(old(poller.View()), this, m) && poller.faults == old(poller.faults)
      ensures HasChannel(poller.View(), this)
    {
      SetMaskAgrees(poller.View(), this, m);
      mask := m;
      assert poller.View().chans == old(poller.View()).chans[this := old(poller.View()).chans[this].(mask := m)];
      poller.UpdateChannel(this);
    }

    method EnableReading()
      requires Valid()
      modifies this`mask, this`index, poller
      ensures Valid() && poller.live == old(poller.live) && mask == old(mask).(read := true)
      ensures poller.View() == SetMask(old(poller.View()), this, mask) && poller.faults == old(poller.faults)
    {
      SetEvents(mask.(read := true));
    }

    method DisableReading()
      requires Valid()
      modifies this`mask, this`index, poller
      ensures Valid() && poller.live == old(poller.live) && mask == old(mask).(read := false)
      ensures poller.View() == SetMask(old(poller.View()), this, mask) && poller.faults == old(poller.faults)
    {
      SetEvents(mask.(read := false));
    }

    method EnableWriting()
      requires Valid()
      modifies this`mask, this`index, poller
      ensures Valid() && poller.live == old(poller.live) && mask == old(mask).(write := true)
      ensures poller.View() == SetMask(old(poller.View()), this, mask) && poller.faults == old(poller.faults)
    {
      SetEvents(mask.(write := true));
    }

    method DisableWriting()
      requires Valid()
      modifies this`mask, this`index, poller
      ensures Valid() && poller.live == old(poller.live) && mask == old(mask).(write := false)
      ensures poller.View() == SetMask(old(poller.View()), this, mask) && poller.faults == old(poller.faults)
    {
      SetEvents(mask.(write := false));
    }

    method DisableAll()
      requires Valid()
      modifies this`mask, this`index, poller
      ensures Valid() && poller.live == old(poller.live) && mask == NO_EVENT
      ensures poller.View() == SetMask(old(poller.View()), this, NO_EVENT) && poller.faults == old(poller.faults)
    {
      SetEvents(NO_EVENT);
    }

    method Remove()
      requires Valid()
      modifies this`index, poller
      ensures Valid() && poller.live == old(poller.live) && index == New && !HasChannel(poller.View(), this)
      ensures poller.View() == RemoveChannel(old(poller.View()), this) && poller.faults == old(poller.faults)
    {
      RemoveChannelAgrees(poller.View(), this);
      poller.RemoveChannel(this);
    }

    /** `alive` is the outcome of locking the weak reference to the owning connection. */
    method HandleEvent(alive: bool) returns (calls: seq<Callback>)
      ensures tied && !alive ==> calls == []
      ensures !tied || alive ==> calls == Callbacks(revents) && forall c :: c in calls <==> AskedFor(revents, c)
    {
      if tied {
        if alive {
          calls := HandleEventWithGuard();
        } else {
          calls := [];
        }
      } else {
        calls := HandleEventWithGuard();
      }
    }

    method HandleEventWithGuard() returns (calls: seq<Callback>)
      ensures calls == Callbacks(revents)
      ensures forall c :: c in calls <==> AskedFor(revents, c)
    {
      calls := [];
      if revents.hup && !revents.pollin { calls := calls + [CloseCallback]; }
      if revents.err || revents.nval { calls := calls + [ErrorCallback]; }
      if revents.pollin || revents.pri || revents.rdhup { calls := calls + [ReadCallback]; }
      if revents.pollout { calls := calls + [WriteCallback]; }
    }
  }

  class Eepoller {
    var channels: map<int, Channel>
    /** The kernel's interest list behind the epoll descriptor, and how many epoll_ctl calls it refused. */
    var kernel: map<int, Reg<Channel>>
    var faults: nat
    /** The channel objects that exist for this poller's loop. */
    ghost var live: set<Channel>

    ghost function View(): Poller<Channel>
      reads this, live
    {
      Poller(map c | c in live :: Chan(c.fd, c.mask, c.index), channels, kernel, faults)
    }

    ghost predicate Linked()
      reads this
    {
      forall c :: c in live ==> c.poller == this
    }

    ghost predicate Valid()
      reads this, live
    {
      Linked() && Agree(View())
    }

    constructor ()
      ensures Valid() && live == {} && faults == 0 && View() == Poller(map[], map[], map[], 0)
    {
      channels, kernel, faults, live := map[], map[], 0, {};
    }

    method Update(op: CtlOp, c: Channel)
      requires c in live
      modifies this`kernel, this`faults
      ensures View() == Control(old(View()), op, c)
    {
      var r := Ctl(kernel, op, c.fd, Reg(c.mask, c));
      kernel := r.kernel;
      if !r.ok {
        faults := faults + 1;
      }
    }

    method UpdateChannel(c: Channel)
      requires c in live
      modifies this`channels, this`kernel, this`faults, c`index
      ensures View() == PollerSpec.UpdateChannel(old(View()), c)
    {
      ghost var before := View();
      if c.index == New || c.index == Deleted {
        if c.index == New {
          channels := channels[c.fd := c];
        }
        c.index := Added;
        assert View().chans == before.chans[c := before.chans[c].(index := Added)];
        Update(CtlAdd, c);
      } else if c.mask == NO_EVENT {
        Update(CtlDel, c);
        c.index := Deleted;
        assert View().chans == before.chans[c := before.chans[c].(index := Deleted)];
      } else {
        Update(CtlMod, c);
      }
    }

    method RemoveChannel(c: Channel)
      requires c in live
      modifies this`channels, this`kernel, this`faults, c`index
      ensures View() == PollerSpec.RemoveChannel(old(View()), c)
    {
      ghost var before := View();
      channels := channels - {c.fd};
      if c.index == Added {
        Update(CtlDel, c);
      }
      c.index := New;
      assert View().chans == before.chans[c := before.chans[c].(index := New)];
    }

    method HasChannel(c: Channel) returns (b: bool)
      requires c in live
      ensures b == PollerSpec.HasChannel(View(), c)
      ensures b <==> exists fd :: fd in channels && fd == c.fd && channels[fd] == c
    {
      b := c.fd in channels && channels[c.fd] == c;
    }

    /** Copy the ready events of one epoll_wait into the channels and the active list. */
    method FillActiveChannels(events: seq<(Channel, Revents)>, active: seq<Channel>) returns (r: seq<Channel>)
      requires Valid()
      requires forall i :: 0 <= i < |events| ==> events[i].0 in live && events[i].0.fd in kernel
      requires forall i, j :: 0 <= i < j < |events| ==> events[i].0 != events[j].0
      modifies live`revents
      ensures View() == old(View())
      ensures |r| == |active| + |events| && r[..|active|] == active
      ensures forall i :: 0 <= i < |events| ==> r[|active| + i] == events[i].0 && events[i].0.revents == events[i].1
      ensures forall c :: c in r[|active|..] ==> c in live && PollerSpec.HasChannel(View(), c)
    {
      r := active;
      var i := 0;
      while i < |events|
        invariant i <= |events| && View() == old(View())
        invariant |r| == |active| + i && r[..|active|] == active
        invariant forall k :: 0 <= k < i ==> r[|active| + k] == events[k].0 && events[k].0.revents == events[k].1
      {
        var c := events[i].0;
        c.revents := events[i].1;
        r := r + [c];
        i := i + 1;
      }
      forall c | c in r[|active|..] ensures c in live && PollerSpec.HasChannel(View(), c) {
        var j :| 0 <= j < |r[|active|..]| && r[|active|..][j] == c;
        assert r[|active| + j] == events[j].0;
        AgreementMeaning(View(), events[j].0);
      }
    }
  }
}
