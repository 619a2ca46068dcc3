/** The request queue and the four scheduling policies on top of it. */
module Queue {
  import opened Rounds
  import Slice

  // ------------------------------------------------------------------ which request is next

  /** The first position of the least value. */
  function FirstMin(s: seq<nat>): (i: nat)
    requires s != []
    ensures i < |s|
  {
    var n := |s| - 1;
    if n == 0 then 0 else
    var b := FirstMin(s[..n]);
    if s[n] < s[b] then n else b
  }

  lemma {:induction false} FirstMinMeaning(s: seq<nat>)
    requires s != []
    ensures var i := FirstMin(s);
            && (forall j :: 0 <= j < |s| ==> s[i] <= s[j])
            && (forall j :: 0 <= j < i ==> s[i] < s[j])
  {
    var n := |s| - 1;
    if n > 0 {
      FirstMinMeaning(s[..n]);
      assert forall j :: 0 <= j < n ==> s[..n][j] == s[j];
    }
  }

  function PickIndex(p: Policy, sizes: seq<nat>): (i: nat)
    requires sizes != []
    ensures i < |sizes|
  {
    if p.Sjf? then FirstMin(sizes) else 0
  }

  function Without<T>(s: seq<T>, i: nat): seq<T>
    requires i < |s|
  {
    s[..i] + s[i + 1..]
  }

  // ------------------------------------------------------------------ the shared queue

  function Sizes(items: seq<Slice.Request>): (s: seq<nat>)
    ensures |s| == |items| && forall i :: 0 <= i < |s| ==> s[i] == items[i].bytes
  {
    if items == [] then [] else Sizes(items[..|items| - 1]) + [items[|items| - 1].bytes]
  }

  class RequestQueue {
    var items: seq<Slice.Request>
    var shuttingDown: bool

    constructor ()
      ensures items == [] && !shuttingDown
    {
      items, shuttingDown := [], false;
    }

    method Push(req: Slice.Request)
      modifies this`items
      ensures items == old(items) + [req]
    {
      items := items + [req];
    }

    /** The sjf scan: the first of the smallest requests. */
    method PickSmallest() returns (best: nat)
      requires items != []
      ensures best == FirstMin(Sizes(items))
    {
      ghost var sizes := Sizes(items);
      best := 0;
      var i := 1;
      while i < |items|
        invariant 1 <= i <= |items|
        invariant best == FirstMin(sizes[..i])
      {
        assert sizes[..i + 1][..i] == sizes[..i];
        if items[i].bytes < items[best].bytes {
          best := i;
        }
        i := i + 1;
      }
      assert sizes[..i] == sizes;
    }

    /** Runs once the wait is over: something is queued, or the queue is shutting down. */
    method PopPick(policy: Policy) returns (req: Slice.Request?)
      requires items != [] || shuttingDown
      modifies this`items
      ensures req == null <==> old(items) == []
      ensures req == null ==> items == []
      ensures req != null ==>
                var k := PickIndex(policy, old(Sizes(items)));
                req == old(items)[k] && items == Without(old(items), k)
    {
      if |items| == 0 {
        return null;
      }
      var idx: nat := 0;
      if policy.Sjf? {
        idx := PickSmallest();
      }
      req := items[idx];
      items := items[..idx] + items[idx + 1..];
    }

    method Shutdown()
      modifies this`shuttingDown
      ensures shuttingDown
    {
      shuttingDown := true;
    }
  }

  lemma HeadFirst<T>(s: seq<T>)
    requires s != []
    ensures [s[0]] + Without(s, 0) == s
  {
  }

  lemma PickMeaning(policy: Policy, items: seq<Slice.Request>)
    requires items != []
    ensures var k := PickIndex(policy, Sizes(items));
            && (policy.Sjf? ==> forall r :: r in items ==> items[k].bytes <= r.bytes)
            && (!policy.Sjf? ==> [items[k]] + Without(items, k) == items)
  {
    FirstMinMeaning(Sizes(items));
    HeadFirst(items);
    hide FirstMin, Sizes, Without;
    forall r | policy.Sjf? && r in items
      ensures items[PickIndex(policy, Sizes(items))].bytes <= r.bytes
    {
      var i :| 0 <= i < |items| && items[i] == r;
      assert Sizes(items)[i] == r.bytes;
    }
  }

  /** The four schedulers differ in nothing but which position they pick. */
  class Scheduler {
    const policy: Policy
    const queue: RequestQueue

    constructor (policy: Policy)
      ensures this.policy == policy && fresh(queue) && queue.items == [] && !queue.shuttingDown
    {
      this.policy := policy;
      this.queue := new RequestQueue();
    }

    method Enqueue(req: Slice.Request)
      modifies queue`items
      ensures queue.items == old(queue.items) + [req]
    {
      queue.Push(req);
    }

    /** The first pick of a request stamps its start time; later picks leave it. */
    method Next(now: nat) returns (req: Slice.Request?)
      requires queue.items != [] || queue.shuttingDown
      modifies queue`items, (set r | r in queue.items)`startNs
      ensures req == null <==> old(queue.items) == []
      ensures req != null ==>
                var k := PickIndex(policy, old(Sizes(queue.items)));
                && req == old(queue.items)[k] && queue.items == Without(old(queue.items), k)
                && req.startNs == (if old(queue.items)[k].startNs == 0 then now else old(queue.items)[k].startNs)
      ensures forall r :: r in old(queue.items) && r != req ==> r.startNs == old(r.startNs)
      ensures req != null && policy.Sjf? ==> forall r :: r in old(queue.items) ==> req.bytes <= r.bytes
      ensures req != null && !policy.Sjf? ==> [req] + queue.items == old(queue.items)
    {
      if queue.items != [] {
        PickMeaning(policy, queue.items);
      }
      hide PickIndex, Sizes, Without;
      req := queue.PopPick(policy);
      if req != null && req.startNs == 0 {
        req.startNs := now;
      }
    }

    method Shutdown()
      modifies queue`shuttingDown
      ensures queue.shuttingDown
    {
      queue.Shutdown();
    }

    method Requeue(req: Slice.Request)
      modifies queue`items
      ensures queue.items == old(queue.items) + [req]
    {
      queue.Push(req);
    }
  }

  // ------------------------------------------------------------------ runs of pushes and pops

  /** A queued request: its place in the order of pushes, its size, and its arrival stamp. */
  datatype Item = Item(ticket: nat, size: nat, stamp: nat)

  datatype Event = Pushed(size: nat, stamp: nat) | Popped

  datatype History = History(queue: seq<Item>, popped: seq<Item>, tickets: nat)

  function ItemSizes(q: seq<Item>): (s: seq<nat>)
    ensures |s| == |q| && forall i :: 0 <= i < |s| ==> s[i] == q[i].size
  {
    if q == [] then [] else ItemSizes(q[..|q| - 1]) + [q[|q| - 1].size]
  }

  /** A pop on an empty queue waits, which changes nothing. */
  function Apply(p: Policy, h: History, e: Event): History {
    match e
    case Pushed(size, stamp) => History(h.queue + [Item(h.tickets, size, stamp)], h.popped, h.tickets + 1)
    case Popped =>
      if h.queue == [] then h
      else
        var k := PickIndex(p, ItemSizes(h.queue));
        History(Without(h.queue, k), h.popped + [h.queue[k]], h.tickets)
  }

  function Play(p: Policy, h: History, es: seq<Event>): History {
    if es == [] then h else Apply(p, Play(p, h, es[..|es| - 1]), es[|es| - 1])
  }

  const EMPTY: History := History([], [], 0)

  // ------------------------------------------------------------------ fifo

  ghost predicate FifoInv(h: History) {
    && |h.popped| + |h.queue| == h.tickets
    && (forall i :: 0 <= i < |h.popped| ==> h.popped[i].ticket == i)
    && (forall i :: 0 <= i < |h.queue| ==> h.queue[i].ticket == |h.popped| + i)
  }

  lemma FifoStep(p: Policy, h: History, e: Event)
    requires !p.Sjf? && FifoInv(h)
    ensures FifoInv(Apply(p, h, e))
  {
  }

  /** Whatever was pushed comes out in that order: popped and queued together are the pushes. */
  lemma {:induction false} FifoOrder(p: Policy, es: seq<Event>)
    requires !p.Sjf?
    ensures FifoInv(Play(p, EMPTY, es))
  {
    if es != [] {
      FifoOrder(p, es[..|es| - 1]);
      FifoStep(p, Play(p, EMPTY, es[..|es| - 1]), es[|es| - 1]);
    }
  }

  lemma {:induction false} PlayAppend(p: Policy, h: History, a: seq<Event>, b: seq<Event>)
    ensures Play(p, h, a + b) == Play(p, Play(p, h, a), b)
  {
    if b == [] {
      assert a + b == a;
    } else {
      var n := |b| - 1;
      PlayAppend(p, h, a, b[..n]);
      assert (a + b)[..|a + b| - 1] == a + b[..n];
    }
  }

  /** Everything that has been in the queue, in the order it came out or will come out. */
  function Line(h: History): seq<Item> {
    h.popped + h.queue
  }

  lemma {:induction false} FifoLine(p: Policy, h: History, es: seq<Event>)
    requires !p.Sjf?
    ensures Line(h) <= Line(Play(p, h, es))
    ensures h.popped <= Play(p, h, es).popped
  {
    if es != [] {
      var h1 := Play(p, h, es[..|es| - 1]);
      FifoLine(p, h, es[..|es| - 1]);
      if h1.queue != [] && es[|es| - 1].Popped? {
        assert Without(h1.queue, 0) == h1.queue[1..];
        assert h1.popped + [h1.queue[0]] + h1.queue[1..] == Line(h1);
      } else if es[|es| - 1].Pushed? {
        var x := Item(h1.tickets, es[|es| - 1].size, es[|es| - 1].stamp);
        assert h1.popped + (h1.queue + [x]) == Line(h1) + [x];
      }
    }
  }

  lemma PlayOne(p: Policy, h: History, e: Event)
    ensures Play(p, h, [e]) == Apply(p, h, e)
  {
    assert [e][..0] == [];
  }

  /** A request pushed when `d` others are queued is returned by exactly the `d + 1`-st later
      successful pop, whatever is pushed meanwhile. */
  lemma FifoBoundedWaiting(p: Policy, before: seq<Event>, size: nat, stamp: nat, after: seq<Event>)
    requires !p.Sjf?
    ensures var h := Play(p, EMPTY, before);
            var h' := Play(p, EMPTY, before + [Pushed(size, stamp)] + after);
            var slot := |h.popped| + |h.queue|;
            && h.popped <= h'.popped && slot < |Line(h')|
            && (forall i :: 0 <= i < |Line(h')| ==> (Line(h')[i] == Item(h.tickets, size, stamp) <==> i == slot))
  {
    var h := Play(p, EMPTY, before);
    var h1 := Apply(p, h, Pushed(size, stamp));
    PlayAppend(p, EMPTY, before, [Pushed(size, stamp)]);
    PlayOne(p, h, Pushed(size, stamp));
    PlayAppend(p, EMPTY, before + [Pushed(size, stamp)], after);
    FifoOrder(p, before);
    FifoOrder(p, before + [Pushed(size, stamp)] + after);
    FifoLine(p, h1, after);
    assert Line(h1)[|h.popped| + |h.queue|] == Item(h.tickets, size, stamp);
  }

  // ------------------------------------------------------------------ sjf

  predicate Increasing(q: seq<Item>) {
    forall i, j :: 0 <= i < j < |q| ==> q[i].ticket < q[j].ticket
  }

  /** `b` may come out after `a`: it is not smaller, and not an earlier request of the same size. */
  predicate Ordered(a: Item, b: Item) {
    a.size < b.size || (a.size == b.size && a.ticket < b.ticket)
  }

  /** `a` may come out before `b`: it is not a later request of at least the same size. */
  predicate MayPass(a: Item, b: Item) {
    b.ticket < a.ticket ==> a.size < b.size
  }

  ghost predicate SjfInv(h: History) {
    && Increasing(h.queue)
    && (forall x :: x in h.queue || x in h.popped ==> x.ticket < h.tickets)
    && (forall x, y :: x in h.popped && y in h.queue ==> MayPass(x, y))
    && (forall i, j :: 0 <= i < j < |h.popped| ==> MayPass(h.popped[i], h.popped[j]))
  }

  lemma WithoutAt<T>(q: seq<T>, k: nat)
    requires k < |q|
    ensures |Without(q, k)| == |q| - 1
    ensures forall m :: 0 <= m < |q| - 1 ==> Without(q, k)[m] == q[if m < k then m else m + 1]
  {
  }

  lemma WithoutIncreasing(q: seq<Item>, k: nat)
    requires Increasing(q) && k < |q|
    ensures Increasing(Without(q, k))
  {
    WithoutAt(q, k);
    hide Without;
  }

  /** The picked request precedes all that stay queued. */
  lemma PickPrecedes(q: seq<Item>)
    requires q != [] && Increasing(q)
    ensures var k := PickIndex(Sjf, ItemSizes(q));
            && Increasing(Without(q, k))
            && forall y :: y in Without(q, k) ==> y in q && Ordered(q[k], y)
  {
    var sizes := ItemSizes(q);
    var k := PickIndex(Sjf, sizes);
    FirstMinMeaning(sizes);
    hide FirstMin, ItemSizes;
    WithoutIncreasing(q, k);
    WithoutAt(q, k);
    hide Without;
    forall n | 0 <= n < |q| && n != k
      ensures Ordered(q[k], q[n])
    {
      assert sizes[n] == q[n].size && sizes[k] == q[k].size;
    }
  }

  lemma SjfStep(h: History, e: Event)
    requires SjfInv(h)
    ensures SjfInv(Apply(Sjf, h, e))
  {
    hide PickIndex, ItemSizes;
    if e.Popped? && h.queue != [] {
      var k := PickIndex(Sjf, ItemSizes(h.queue));
      PickPrecedes(h.queue);
      assert h.queue[k] in h.queue;
      hide Without;
      assert SjfInv(Apply(Sjf, h, e));
    }
  }

  lemma {:induction false} SjfAlways(es: seq<Event>)
    ensures SjfInv(Play(Sjf, EMPTY, es))
  {
    if es != [] {
      SjfAlways(es[..|es| - 1]);
      SjfStep(Play(Sjf, EMPTY, es[..|es| - 1]), es[|es| - 1]);
    }
  }

  /** In any run, a request comes out before one pushed earlier only if it is strictly smaller. */
  lemma SjfOvertaking(es: seq<Event>, i: nat, j: nat)
    requires i < j < |Play(Sjf, EMPTY, es).popped|
    ensures var out := Play(Sjf, EMPTY, es).popped;
            out[j].ticket < out[i].ticket ==> out[i].size < out[j].size
  {
    SjfAlways(es);
  }

  /** The order in which a queue empties when nothing more is pushed. */
  function Drain(q: seq<Item>): seq<Item>
    decreases |q|
  {
    if q == [] then []
    else
      var k := PickIndex(Sjf, ItemSizes(q));
      [q[k]] + Drain(Without(q, k))
  }

  lemma WithoutMultiset(q: seq<Item>, k: nat)
    requires k < |q|
    ensures multiset(Without(q, k)) + multiset{q[k]} == multiset(q)
  {
    assert q == q[..k] + [q[k]] + q[k + 1..];
  }

  /** Draining an sjf queue is the stable sort by size of what was pushed. */
  lemma {:induction false} DrainSorts(q: seq<Item>)
    requires Increasing(q)
    ensures multiset(Drain(q)) == multiset(q)
    ensures forall i, j :: 0 <= i < j < |Drain(q)| ==> Ordered(Drain(q)[i], Drain(q)[j])
    decreases |q|
  {
    if q != [] {
      var k := PickIndex(Sjf, ItemSizes(q));
      var rest := Without(q, k);
      WithoutMultiset(q, k);
      PickPrecedes(q);
      DrainSorts(rest);
      SortedCons(q[k], Drain(rest), rest);
    }
  }

  lemma SortedCons(x: Item, d: seq<Item>, rest: seq<Item>)
    requires multiset(d) == multiset(rest)
    requires forall y :: y in rest ==> Ordered(x, y)
    requires forall i, j :: 0 <= i < j < |d| ==> Ordered(d[i], d[j])
    ensures multiset([x] + d) == multiset{x} + multiset(rest)
    ensures forall i, j :: 0 <= i < j < |[x] + d| ==> Ordered(([x] + d)[i], ([x] + d)[j])
  {
    forall j | 0 <= j < |d|
      ensures Ordered(x, d[j])
    {
      assert d[j] in multiset(d);
    }
  }

  function Pops(n: nat): seq<Event> {
    if n == 0 then [] else [Popped] + Pops(n - 1)
  }

  lemma DrainStep(h: History)
    requires h.queue != []
    ensures var h1 := Apply(Sjf, h, Popped);
            && |h1.queue| == |h.queue| - 1 && h1.tickets == h.tickets
            && h1.popped + Drain(h1.queue) == h.popped + Drain(h.queue)
  {
    var k := PickIndex(Sjf, ItemSizes(h.queue));
    var d := Drain(Without(h.queue, k));
    assert h.popped + [h.queue[k]] + d == h.popped + ([h.queue[k]] + d);
  }

  /** `Drain` is what a run of pops from a queue actually returns. */
  lemma {:induction false} DrainIsPlayed(h: History)
    ensures Play(Sjf, h, Pops(|h.queue|)) == History([], h.popped + Drain(h.queue), h.tickets)
    decreases |h.queue|
  {
    if h.queue != [] {
      var h1 := Apply(Sjf, h, Popped);
      DrainStep(h);
      hide Play, Apply, Drain;
      PlayAppend(Sjf, h, [Popped], Pops(|h1.queue|));
      PlayOne(Sjf, h, Popped);
      DrainIsPlayed(h1);
    }
  }

  // ------------------------------------------------------------------ sjf and arrival order

  /** Requests of equal size come in the order of their arrival stamps. */
  predicate StampOrder(q: seq<Item>) {
    forall i, j :: 0 <= i < j < |q| && q[i].size == q[j].size ==> q[i].stamp <= q[j].stamp
  }

  /** Requests of equal size come in the order in which they were pushed. */
  predicate TicketOrder(q: seq<Item>) {
    forall i, j :: 0 <= i < j < |q| && q[i].size == q[j].size ==> q[i].ticket <= q[j].ticket
  }

  /** The same of a collection: among equal sizes a lower ticket has no later stamp. */
  ghost predicate Agreeing(m: multiset<Item>) {
    forall x, y :: x in m && y in m && x.size == y.size && x.ticket < y.ticket ==> x.stamp <= y.stamp
  }

  ghost predicate UniqueTickets(m: multiset<Item>) {
    forall x, y :: x in m && y in m && x.ticket == y.ticket ==> x == y
  }

  lemma OrderIsAgreement(q: seq<Item>)
    requires TicketOrder(q) && UniqueTickets(multiset(q))
    ensures StampOrder(q) <==> Agreeing(multiset(q))
  {
    if StampOrder(q) {
      forall x, y | x in multiset(q) && y in multiset(q) && x.size == y.size && x.ticket < y.ticket
        ensures x.stamp <= y.stamp
      {
        var i :| 0 <= i < |q| && q[i] == x;
        var j :| 0 <= j < |q| && q[j] == y;
      }
    } else {
      var i, j :| 0 <= i < j < |q| && q[i].size == q[j].size && q[i].stamp > q[j].stamp;
      assert q[i] in multiset(q) && q[j] in multiset(q);
    }
  }

  lemma IncreasingIsUnique(q: seq<Item>)
    requires Increasing(q)
    ensures TicketOrder(q) && UniqueTickets(multiset(q))
  {
    forall x, y | x in multiset(q) && y in multiset(q) && x.ticket == y.ticket
      ensures x == y
    {
      var i :| 0 <= i < |q| && q[i] == x;
      var j :| 0 <= j < |q| && q[j] == y;
    }
  }

  /** An sjf queue empties in arrival order among equal sizes if and only if requests of equal size
      are queued in arrival order. */
  lemma SjfTies(q: seq<Item>)
    requires Increasing(q)
    ensures StampOrder(Drain(q)) <==> StampOrder(q)
  {
    DrainSorts(q);
    IncreasingIsUnique(q);
    OrderIsAgreement(q);
    OrderIsAgreement(Drain(q));
  }

  /** What was pushed, in the order of the pushes. */
  function Pushes(es: seq<Event>): seq<Item> {
    if es == [] then []
    else
      var before, e := Pushes(es[..|es| - 1]), es[|es| - 1];
      if e.Pushed? then before + [Item(|before|, e.size, e.stamp)] else before
  }

  lemma {:induction false} PushesIncrease(es: seq<Event>)
    ensures Increasing(Pushes(es))
    ensures forall i :: 0 <= i < |Pushes(es)| ==> Pushes(es)[i].ticket == i
  {
    if es != [] {
      PushesIncrease(es[..|es| - 1]);
    }
  }

  /** Queued and popped together are what was pushed. */
  lemma {:induction false} PushesAreKept(p: Policy, es: seq<Event>)
    ensures var h := Play(p, EMPTY, es);
            multiset(h.popped) + multiset(h.queue) == multiset(Pushes(es)) && h.tickets == |Pushes(es)|
  {
    if es != [] {
      var before := es[..|es| - 1];
      PushesAreKept(p, before);
      KeptOneMore(p, Play(p, EMPTY, before), es[|es| - 1]);
      hide Apply;
    }
  }

  lemma KeptOneMore(p: Policy, h: History, e: Event)
    ensures var h', more := Apply(p, h, e), if e.Pushed? then [Item(h.tickets, e.size, e.stamp)] else [];
            && multiset(h'.popped) + multiset(h'.queue) == multiset(h.popped) + multiset(h.queue) + multiset(more)
            && h'.tickets == h.tickets + |more|
  {
    hide PickIndex, Without;
    if e.Popped? && h.queue != [] {
      WithoutMultiset(h.queue, PickIndex(p, ItemSizes(h.queue)));
    }
  }

  /** The whole output of a run: what has come out, and what comes out if nothing more is pushed. */
  function Output(es: seq<Event>): seq<Item> {
    Play(Sjf, EMPTY, es + Pops(|Play(Sjf, EMPTY, es).queue|)).popped
  }

  lemma OutputIsPlayed(es: seq<Event>)
    ensures var h := Play(Sjf, EMPTY, es);
            Output(es) == h.popped + Drain(h.queue)
  {
    var h := Play(Sjf, EMPTY, es);
    PlayAppend(Sjf, EMPTY, es, Pops(|h.queue|));
    DrainIsPlayed(h);
  }

  lemma JoinedInOrder(popped: seq<Item>, queue: seq<Item>, d: seq<Item>)
    requires multiset(d) == multiset(queue)
    requires forall i, j :: 0 <= i < j < |popped| ==> MayPass(popped[i], popped[j])
    requires forall x, y :: x in popped && y in queue ==> MayPass(x, y)
    requires forall i, j :: 0 <= i < j < |d| ==> Ordered(d[i], d[j])
    ensures TicketOrder(popped + d)
  {
    forall y | y in d
      ensures y in queue
    {
      assert y in multiset(d);
    }
    forall i, j | 0 <= i < j < |popped + d| && (popped + d)[i].size == (popped + d)[j].size
      ensures (popped + d)[i].ticket <= (popped + d)[j].ticket
    {
      var k := |popped|;
      if j < k {
        assert MayPass(popped[i], popped[j]);
      } else if i < k {
        assert d[j - k] in d;
        assert MayPass(popped[i], d[j - k]);
      } else {
        assert Ordered(d[i - k], d[j - k]);
      }
    }
  }

  lemma OutputInTicketOrder(es: seq<Event>)
    ensures TicketOrder(Output(es)) && multiset(Output(es)) == multiset(Pushes(es))
  {
    var h := Play(Sjf, EMPTY, es);
    SjfAlways(es);
    OutputIsPlayed(es);
    PushesAreKept(Sjf, es);
    DrainSorts(h.queue);
    hide Play, Drain, Output, Pushes, TicketOrder;
    JoinedInOrder(h.popped, h.queue, Drain(h.queue));
  }

  /** In every run, with pushes and pops interleaved in any way, requests of equal size come out in
      arrival order if and only if they are pushed in arrival order. */
  lemma SjfArrivalOrder(es: seq<Event>)
    ensures StampOrder(Output(es)) <==> StampOrder(Pushes(es))
  {
    OutputInTicketOrder(es);
    PushesIncrease(es);
    IncreasingIsUnique(Pushes(es));
    hide Output, Pushes;
    OrderIsAgreement(Output(es));
    OrderIsAgreement(Pushes(es));
  }
}
