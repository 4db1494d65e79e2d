/** The thread pool and the server's side of connection setup and teardown, as objects. */
module Servers {
  import opened Naming
  import opened ServerSpec

  class EventLoopThreadPool<L> {
    const baseLoop: L
    const loops: seq<L>
    var next: nat

    ghost predicate Valid()
      reads this
    {
      next < |loops| || (loops == [] && next == 0)
    }

    ghost function View(): Pool
      reads this
    {
      Pool(|loops|, next)
    }

    constructor (baseLoop: L, loops: seq<L>)
      ensures Valid() && View() == Pool(|loops|, 0) && this.baseLoop == baseLoop && this.loops == loops
    {
      this.baseLoop, this.loops, next := baseLoop, loops, 0;
    }

    /** Loop number n as an object: 0 is the base loop. */
    ghost function Numbered(n: nat): L
      requires n <= |loops|
    {
      if n == 0 then baseLoop else loops[n - 1]
    }

    method GetNextLoop() returns (loop: L, ghost n: nat)
      requires Valid()
      modifies this`next
      ensures Valid() && View() == Advance(old(View()))
      ensures n == NextLoop(old(View())) && loop == Numbered(n)
      ensures loop == if loops == [] then baseLoop else loops[old(next)]
    {
      n := NextLoop(View());
      loop := baseLoop;
      if loops != [] {
        loop := loops[next];
        next := next + 1;
        if next >= |loops| {
          next := 0;
        }
      }
    }

    /** One of the pool's loops, or the base loop only if there are none; which one, HashSpread tells. */
    method GetLoopForHash(hash: nat) returns (loop: L, ghost n: nat)
      ensures loop in loops || (loops == [] && loop == baseLoop)
      ensures n == LoopForHash(|loops|, hash) && loop == Numbered(n)
      ensures forall k :: 0 <= k < |loops| && k == hash % |loops| ==> loop == loops[k]
    {
      n := LoopForHash(|loops|, hash);
      loop := if loops != [] then loops[hash % |loops|] else baseLoop;
    }
  }

  class TcpServer<L> {
    const name: string
    const pool: EventLoopThreadPool<L>
    var nextConnId: nat
    var connections: map<string, nat>
    ghost var present: set<nat>

    ghost function View(): Registry
      reads this, pool
    {
      Registry(name, nextConnId, pool.View(), connections, present)
    }

    constructor (name: string, pool: EventLoopThreadPool<L>)
      requires pool.Valid() && pool.next == 0
      ensures View() == Open(name, |pool.loops|)
      ensures Faithful(View()) && this.pool == pool
    {
      this.name, this.pool, nextConnId, connections, present := name, pool, 1, map[], {};
    }

    /** The connection object is represented by its id; its Establish functor goes to `loop`. */
    method NewConnection() returns (id: nat, loop: L)
      requires pool.Valid()
      modifies this, pool`next
      ensures pool.Valid() && View() == Admit(old(View()))
      ensures id == old(nextConnId) && loop == pool.Numbered(NextLoop(old(pool.View())))
      ensures loop == if pool.loops == [] then pool.baseLoop else pool.loops[old(pool.next)]
      ensures old(Faithful(View())) && 1 <= id && Fits(name, id) ==> Faithful(View()) && Registered(View(), id)
    {
      if Faithful(View()) && 1 <= nextConnId && Fits(name, nextConnId) {
        AdmitFaithful(View());
      }
      ghost var n;
      loop, n := pool.GetNextLoop();
      id := nextConnId;
      nextConnId := nextConnId + 1;
      connections := connections[ConnName(name, id) := id];
      present := present + {id};
    }

    /** Returns how many entries went: one the first time, none afterwards. */
    method RemoveConnectionInLoop(id: nat) returns (n: nat)
      modifies this`connections, this`present
      ensures View() == Erase(old(View()), id)
      ensures n == if ConnName(name, id) in old(connections) then 1 else 0
      ensures old(Faithful(View())) && 1 <= id < nextConnId ==> Faithful(View()) && (n == 1 <==> id in old(present))
    {
      if Faithful(View()) && 1 <= id < nextConnId {
        EraseFaithful(View(), id);
        if id !in present && ConnName(name, id) in connections {
          FittingNamesDiffer(name, id, connections[ConnName(name, id)]);
        }
      }
      n := if ConnName(name, id) in connections then 1 else 0;
      connections := connections - {ConnName(name, id)};
      present := present - {id};
    }
  }

  lemma TurnStep(turn: nat, start: nat, j: nat, n: nat)
    requires n > 0 && turn == (start + j) % n
    ensures (if turn + 1 >= n then 0 else turn + 1) == (start + j + 1) % n
  {
    DivStep(start + j, n);
  }

  /** Asking k times in a row: the pool's loops are taken in turn, starting anew after the last. */
  method LoopsInTurn<L>(pool: EventLoopThreadPool<L>, k: nat) returns (given: seq<L>)
    requires pool.Valid()
    modifies pool`next
    ensures pool.Valid() && |given| == k
    ensures pool.loops == [] ==> forall i :: 0 <= i < k ==> given[i] == pool.baseLoop
    ensures pool.loops != [] ==> forall i :: 0 <= i < k ==> given[i] == pool.loops[(old(pool.next) + i) % |pool.loops|]
  {
    given := [];
    ghost var n := |pool.loops|;
    ghost var turns: seq<nat> := [];
    while |given| < k
      invariant |turns| == |given| <= k && pool.Valid()
      invariant n > 0 ==> pool.next == (old(pool.next) + |given|) % n
      invariant n > 0 ==> forall i :: 0 <= i < |given| ==> turns[i] == (old(pool.next) + i) % n
      invariant n > 0 ==> forall i :: 0 <= i < |given| ==> turns[i] < n && given[i] == pool.loops[turns[i]]
      invariant n == 0 ==> forall i :: 0 <= i < |given| ==> given[i] == pool.baseLoop
      decreases k - |given|
    {
      if n > 0 { TurnStep(pool.next, old(pool.next), |given|, n); }
      turns := turns + [pool.next];
      var loop, _ := pool.GetNextLoop();
      given := given + [loop];
    }
  }
}
