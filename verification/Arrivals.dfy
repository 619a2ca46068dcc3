/** Admission threads stamp a request with its arrival time and push it later. Between the two steps
    another admission can overtake them, and then sjf serves equal sizes against their stamps. */
module Arrivals {
  import opened Rounds
  import opened Queue

  datatype Stamped = Stamped(size: nat, stamp: nat)

  /** `clock` is the latest reading; `events` is what has happened to the queue. */
  datatype State = State(clock: nat, admitting: seq<Stamped>, events: seq<Event>)

  datatype Step =
    | Stamp(size: nat, ticks: nat)     // an admission reads the clock
    | Enqueue(i: nat)                  // an admission pushes its request
    | Pop                              // a worker takes one

  const INIT: State := State(0, [], [])

  predicate Enabled(s: State, e: Step) {
    e.Enqueue? ==> e.i < |s.admitting|
  }

  function Do(s: State, e: Step): State
    requires Enabled(s, e)
  {
    match e
    case Stamp(size, ticks) =>
      State(s.clock + ticks, s.admitting + [Stamped(size, s.clock + ticks)], s.events)
    case Enqueue(i) =>
      State(s.clock, Without(s.admitting, i), s.events + [Pushed(s.admitting[i].size, s.admitting[i].stamp)])
    case Pop => s.(events := s.events + [Popped])
  }

  predicate Runs(s: State, run: seq<Step>)
    decreases |run|
  {
    run == [] || (Enabled(s, run[0]) && Runs(Do(s, run[0]), run[1..]))
  }

  function End(s: State, run: seq<Step>): State
    requires Runs(s, run)
    decreases |run|
  {
    if run == [] then s else End(Do(s, run[0]), run[1..])
  }

  /** The push of a request while one of the same size and an earlier stamp is still being admitted. */
  predicate Overtakes(s: State, e: Step)
    requires Enabled(s, e)
  {
    e.Enqueue? && exists j :: 0 <= j < |s.admitting| && Ahead(s.admitting[j], s.admitting[e.i])
  }

  predicate Ahead(a: Stamped, b: Stamped) {
    a.size == b.size && a.stamp < b.stamp
  }

  predicate NobodyOvertakes(s: State, run: seq<Step>)
    requires Runs(s, run)
    decreases |run|
  {
    run == [] || (!Overtakes(s, run[0]) && NobodyOvertakes(Do(s, run[0]), run[1..]))
  }

  // ------------------------------------------------------------------ without overtaking

  /** Nobody still being admitted is ahead of anybody pushed. */
  ghost predicate Orderly(s: State) {
    && StampOrder(Pushes(s.events))
    && (forall a :: a in s.admitting ==> a.stamp <= s.clock)
    && (forall p :: p in Pushes(s.events) ==> p.stamp <= s.clock)
    && (forall a, p :: a in s.admitting && p in Pushes(s.events) && a.size == p.size ==> p.stamp <= a.stamp)
  }

  lemma PushesOfOneMore(es: seq<Event>, e: Event)
    ensures Pushes(es + [e]) ==
            if e.Pushed? then Pushes(es) + [Item(|Pushes(es)|, e.size, e.stamp)] else Pushes(es)
  {
    assert (es + [e])[..|es|] == es;
  }

  lemma AppendInOrder(q: seq<Item>, x: Item)
    requires StampOrder(q) && forall p :: p in q && p.size == x.size ==> p.stamp <= x.stamp
    ensures StampOrder(q + [x])
  {
  }

  lemma OrderlyEnqueue(s: State, i: nat)
    requires Orderly(s) && Enabled(s, Enqueue(i)) && !Overtakes(s, Enqueue(i))
    ensures Orderly(Do(s, Enqueue(i)))
  {
    var x, q, t := s.admitting[i], Pushes(s.events), Do(s, Enqueue(i));
    var y := Item(|q|, x.size, x.stamp);
    PushesOfOneMore(s.events, Pushed(x.size, x.stamp));
    WithoutAt(s.admitting, i);
    hide Pushes, Without, StampOrder;
    AppendInOrder(q, y);
    forall a | a in t.admitting
      ensures a in s.admitting && (a.size == x.size ==> x.stamp <= a.stamp)
    {
      var m :| 0 <= m < |t.admitting| && t.admitting[m] == a;
      var j := if m < i then m else m + 1;
      assert s.admitting[j] == a;
      assert !Ahead(s.admitting[j], x);
    }
  }

  lemma OrderlyStamp(s: State, size: nat, ticks: nat)
    requires Orderly(s)
    ensures Orderly(Do(s, Stamp(size, ticks)))
  {
    hide Pushes, StampOrder;
    var t := Do(s, Stamp(size, ticks));
    assert t.events == s.events;
    forall a | a in t.admitting
      ensures a in s.admitting || a.stamp == t.clock
    {
    }
  }

  lemma OrderlyStep(s: State, e: Step)
    requires Orderly(s) && Enabled(s, e) && !Overtakes(s, e)
    ensures Orderly(Do(s, e))
  {
    hide Overtakes, Pushes;
    match e
    case Stamp(size, ticks) =>
      hide *;
      OrderlyStamp(s, size, ticks);
    case Enqueue(i) =>
      hide *;
      OrderlyEnqueue(s, i);
    case Pop =>
      PushesOfOneMore(s.events, Popped);
      hide StampOrder;
  }

  lemma {:induction false} OrderlyRun(s: State, run: seq<Step>)
    requires Orderly(s) && Runs(s, run) && NobodyOvertakes(s, run)
    ensures StampOrder(Pushes(End(s, run).events))
    decreases |run|
  {
    hide Do, Enabled, Overtakes;
    if run == [] {
      assert Orderly(s);
    } else {
      OrderlyStep(s, run[0]);
      hide Orderly;
      OrderlyRun(Do(s, run[0]), run[1..]);
    }
  }

  // ------------------------------------------------------------------ after overtaking

  /** The order of stamps is broken, or will be when the overtaken request is pushed. */
  ghost predicate Upset(s: State) {
    || !StampOrder(Pushes(s.events))
    || exists a, p :: a in s.admitting && p in Pushes(s.events) && a.size == p.size && a.stamp < p.stamp
  }

  lemma LastIsBehind(q: seq<Item>, x: Item, p: Item)
    requires p in q && p.size == x.size && x.stamp < p.stamp
    ensures !StampOrder(q + [x])
  {
    var i :| 0 <= i < |q| && q[i] == p;
    assert (q + [x])[i] == p && (q + [x])[|q|] == x;
  }

  lemma StillUnordered(q: seq<Item>, x: Item)
    requires !StampOrder(q)
    ensures !StampOrder(q + [x])
  {
    var i, j :| 0 <= i < j < |q| && q[i].size == q[j].size && q[i].stamp > q[j].stamp;
    assert (q + [x])[i] == q[i] && (q + [x])[j] == q[j];
  }

  lemma UpsetStep(s: State, e: Step)
    requires Enabled(s, e) && (Upset(s) || Overtakes(s, e))
    ensures Upset(Do(s, e))
  {
    var t := Do(s, e);
    match e
    case Stamp(_, _) => assert forall a :: a in s.admitting ==> a in t.admitting;
    case Pop => PushesOfOneMore(s.events, Popped);
    case Enqueue(i) =>
      var x, q := s.admitting[i], Pushes(s.events);
      var y := Item(|q|, x.size, x.stamp);
      PushesOfOneMore(s.events, Pushed(x.size, x.stamp));
      hide Pushes;
      assert y in Pushes(t.events);
      if !StampOrder(q) {
        StillUnordered(q, y);
      } else if Upset(s) {
        var a, p :| a in s.admitting && p in q && a.size == p.size && a.stamp < p.stamp;
        if a == x {
          LastIsBehind(q, y, p);
        } else {
          OthersStay(s.admitting, i, a);
        }
      } else {
        var j :| 0 <= j < |s.admitting| && Ahead(s.admitting[j], x);
        OthersStay(s.admitting, i, s.admitting[j]);
      }
  }

  lemma OthersStay(q: seq<Stamped>, i: nat, a: Stamped)
    requires i < |q| && a in q && a != q[i]
    ensures a in Without(q, i)
  {
    var j :| 0 <= j < |q| && q[j] == a;
    WithoutAt(q, i);
    assert Without(q, i)[if j < i then j else j - 1] == a;
  }

  lemma {:induction false} UpsetRun(s: State, run: seq<Step>)
    requires Runs(s, run) && (Upset(s) || !NobodyOvertakes(s, run)) && End(s, run).admitting == []
    ensures !StampOrder(Pushes(End(s, run).events))
    decreases |run|
  {
    if run != [] {
      if Upset(s) || Overtakes(s, run[0]) {
        UpsetStep(s, run[0]);
      }
      hide Upset, Do, Enabled, Overtakes, Pushes;
      UpsetRun(Do(s, run[0]), run[1..]);
    }
  }

  // ------------------------------------------------------------------ the theorem

  /** In every run in which each stamped request is pushed in the end, sjf serves requests of equal
      size in arrival order if and only if no push overtakes an earlier request of the same size. */
  lemma ArrivalOrderKeptExactly(run: seq<Step>)
    requires Runs(INIT, run) && End(INIT, run).admitting == []
    ensures StampOrder(Output(End(INIT, run).events)) <==> NobodyOvertakes(INIT, run)
  {
    hide Output, Runs, NobodyOvertakes, End;
    SjfArrivalOrder(End(INIT, run).events);
    if NobodyOvertakes(INIT, run) {
      OrderlyRun(INIT, run);
    } else {
      UpsetRun(INIT, run);
    }
  }

  lemma RunsCons(s: State, e: Step, rest: seq<Step>)
    requires Enabled(s, e) && Runs(Do(s, e), rest)
    ensures Runs(s, [e] + rest) && End(s, [e] + rest) == End(Do(s, e), rest)
  {
    hide Enabled, Do;
    assert ([e] + rest)[1..] == rest;
  }

  lemma PlayMore(es: seq<Event>, e: Event)
    ensures Play(Sjf, EMPTY, es + [e]) == Apply(Sjf, Play(Sjf, EMPTY, es), e)
  {
    assert (es + [e])[..|es|] == es;
  }

  lemma FirstOfTwo(a: Item, b: Item)
    requires a.size == b.size
    ensures PickIndex(Sjf, ItemSizes([a, b])) == 0 && PickIndex(Sjf, ItemSizes([b])) == 0
    ensures Without([a, b], 0) == [b] && Without([b], 0) == []
  {
    FirstMinMeaning(ItemSizes([a, b]));
  }

  lemma PopFromTwo(a: Item, b: Item, n: nat)
    requires a.size == b.size
    ensures Apply(Sjf, History([a, b], [], n), Popped) == History([b], [a], n)
    ensures Apply(Sjf, History([b], [a], n), Popped) == History([], [a, b], n)
  {
    FirstOfTwo(a, b);
    hide PickIndex, Without;
  }

  /** Two requests of one size, pushed against their stamps, leave against their stamps. */
  lemma ServedAgainstStamps(size: nat, e1: seq<Event>, e2: seq<Event>, e3: seq<Event>)
    requires e1 == [] + [Pushed(size, 2)] && e2 == e1 + [Pushed(size, 1)] && e3 == e2 + [Popped]
    ensures Play(Sjf, EMPTY, e3 + [Popped]) == History([], [Item(0, size, 2), Item(1, size, 1)], 2)
  {
    var a, b := Item(0, size, 2), Item(1, size, 1);
    PlayMore([], Pushed(size, 2));
    PlayMore(e1, Pushed(size, 1));
    PlayMore(e2, Popped);
    PlayMore(e3, Popped);
    hide Play, PickIndex, Without;
    PushTwo(a, b);
    PopFromTwo(a, b, 2);
    hide Apply;
  }

  lemma PushTwo(a: Item, b: Item)
    requires a.ticket == 0 && b.ticket == 1
    ensures Play(Sjf, EMPTY, []) == EMPTY
    ensures Apply(Sjf, EMPTY, Pushed(a.size, a.stamp)) == History([a], [], 1)
    ensures Apply(Sjf, History([a], [], 1), Pushed(b.size, b.stamp)) == History([a, b], [], 2)
  {
  }

  lemma Admitting(a: Stamped, b: Stamped)
    ensures [] + [a] == [a] && [a] + [b] == [a, b]
    ensures Without([a, b], 1) == [a] && Without([a], 0) == []
  {
  }

  /** Two admissions of one size: the second stamped is pushed first, and both are served against
      their stamps. */
  lemma OvertakenAdmission(size: nat) returns (run: seq<Step>)
    ensures Runs(INIT, run) && End(INIT, run).admitting == []
    ensures Play(Sjf, EMPTY, End(INIT, run).events) == History([], [Item(0, size, 2), Item(1, size, 1)], 2)
  {
    var a, b := Stamped(size, 1), Stamped(size, 2);
    Admitting(a, b);
    hide Without;
    var s1 := Do(INIT, Stamp(size, 1));
    var s2 := Do(s1, Stamp(size, 1));
    assert s2 == State(2, [a, b], []);
    var s3 := Do(s2, Enqueue(1));
    var s4 := Do(s3, Enqueue(0));
    var s5 := Do(s4, Pop);
    ServedAgainstStamps(size, s3.events, s4.events, s5.events);
    hide Do, Play;
    RunsCons(s5, Pop, []);
    var r5 := [Pop] + [];
    RunsCons(s4, Pop, r5);
    var r4 := [Pop] + r5;
    RunsCons(s3, Enqueue(0), r4);
    var r3 := [Enqueue(0)] + r4;
    RunsCons(s2, Enqueue(1), r3);
    var r2 := [Enqueue(1)] + r3;
    RunsCons(s1, Stamp(size, 1), r2);
    var r1 := [Stamp(size, 1)] + r2;
    RunsCons(INIT, Stamp(size, 1), r1);
    run := [Stamp(size, 1)] + r1;
  }
}
