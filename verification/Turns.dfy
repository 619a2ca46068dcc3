/** Whose turn it is: which queued request a worker takes, and in what order a run of the server
    serves the requests it has queued. */
module Turns {
  import opened Rounds
  import opened Queue
  import opened Server
  import opened Safety

  /** How large the request behind a queue entry is. */
  function SizeOf(s: State, e: nat): nat {
    if e < |s.entries| then s.entries[e].job.Bytes() else 0
  }

  /** What a `Pop` does: a worker takes one request out of the queue and the others keep their order.
      Under sjf nothing queued is smaller and everything ahead of it is larger; under any other policy
      it is the head. */
  lemma PopTakes(c: Config, s: State, w: nat) returns (k: nat)
    requires Enabled(c, s, Pop(w))
    ensures k < |s.queue|
    ensures Do(c, s, Pop(w))
         == s.(workers := s.workers[w := Serving(s.queue[k])], queue := s.queue[..k] + s.queue[k + 1..])
    ensures c.policy.Sjf? ==>
              && (forall i :: 0 <= i < |s.queue| ==> SizeOf(s, s.queue[k]) <= SizeOf(s, s.queue[i]))
              && (forall i :: 0 <= i < k ==> SizeOf(s, s.queue[k]) < SizeOf(s, s.queue[i]))
    ensures !c.policy.Sjf? ==> k == 0
  {
    var sizes := QueueSizes(s.entries, s.queue);
    k := PickIndex(c.policy, sizes);
    FirstMinMeaning(sizes);
    hide FirstMin;
    assert forall i :: 0 <= i < |s.queue| ==> sizes[i] == SizeOf(s, s.queue[i]);
  }

  // ------------------------------------------------------------------ runs

  /** What a step does to the queue; the stamp of a push is the request that is pushed. */
  function EventOf(s: State, e: Step): seq<Event> {
    match e
    case Enqueue(a) =>
      if a < |s.admissions| && s.admissions[a].Built? then
        [Pushed(SizeOf(s, s.admissions[a].entry), s.admissions[a].entry)]
      else []
    case Requeue(w) =>
      if w < |s.workers| && s.workers[w].Requeueing? then
        [Pushed(SizeOf(s, s.workers[w].entry), s.workers[w].entry)]
      else []
    case Pop(_) => [Popped]
    case _ => []
  }

  ghost function Events(c: Config, s: State, es: seq<Step>): seq<Event>
    requires Runs(c, s, es)
    decreases |es|
  {
    if es == [] then [] else EventOf(s, es[0]) + Events(c, Do(c, s, es[0]), es[1..])
  }

  /** The requests the workers take, in order. */
  ghost function Taken(c: Config, s: State, es: seq<Step>): seq<nat>
    requires Runs(c, s, es)
    decreases |es|
  {
    if es == [] then []
    else
      var t := Do(c, s, es[0]);
      (if es[0].Pop? && t.workers[es[0].w].Serving? then [t.workers[es[0].w].entry] else []) + Taken(c, t, es[1..])
  }

  function Stamps(q: seq<Item>): (s: seq<nat>)
    ensures |s| == |q| && forall i :: 0 <= i < |s| ==> s[i] == q[i].stamp
  {
    if q == [] then [] else Stamps(q[..|q| - 1]) + [q[|q| - 1].stamp]
  }

  ghost predicate IsOf(s: State, x: Item) {
    x.stamp < |s.entries| && x.size == SizeOf(s, x.stamp)
  }

  /** The history is that of the server's queue. */
  ghost predicate Mirrors(s: State, h: History) {
    && Stamps(h.queue) == s.queue
    && (forall x :: x in h.queue ==> IsOf(s, x))
    && (forall x :: x in h.popped ==> IsOf(s, x))
  }

  /** No step changes the size of a request. */
  lemma SizesKept(c: Config, s: State, e: Step)
    requires Enabled(c, s, e)
    ensures var t := Do(c, s, e);
            |s.entries| <= |t.entries| && forall i: nat :: i < |s.entries| ==> SizeOf(t, i) == SizeOf(s, i)
  {
    if e.Slice? {
      ServeStep(c, s.entries[s.workers[e.w].entry].job);
    }
    hide Serve, JobInv, PickIndex, QueueSizes;
  }

  lemma SizesStay(s: State, t: State, q: seq<Item>)
    requires |s.entries| <= |t.entries| && forall i: nat :: i < |s.entries| ==> SizeOf(t, i) == SizeOf(s, i)
    requires forall x :: x in q ==> IsOf(s, x)
    ensures forall x :: x in q ==> IsOf(t, x)
  {
    hide SizeOf;
  }

  lemma StampsAppend(q: seq<Item>, x: Item)
    ensures Stamps(q + [x]) == Stamps(q) + [x.stamp]
  {
    assert (q + [x])[..|q|] == q;
  }

  lemma StampsWithout(q: seq<Item>, k: nat)
    requires k < |q|
    ensures Stamps(Without(q, k)) == Without(Stamps(q), k)
  {
    var a, b := Stamps(Without(q, k)), Without(Stamps(q), k);
    WithoutAt(q, k);
    WithoutAt(Stamps(q), k);
    hide Stamps, Without;
    assert |a| == |b|;
    forall i | 0 <= i < |a|
      ensures a[i] == b[i]
    {
      assert a[i] == Without(q, k)[i].stamp;
    }
  }

  lemma SameSizes(s: State, q: seq<Item>)
    requires Stamps(q) == s.queue && forall x :: x in q ==> IsOf(s, x)
    requires forall i :: 0 <= i < |s.queue| ==> s.queue[i] < |s.entries|
    ensures ItemSizes(q) == QueueSizes(s.entries, s.queue)
  {
    hide Stamps, ItemSizes;
    var a, b := ItemSizes(q), QueueSizes(s.entries, s.queue);
    forall i | 0 <= i < |a|
      ensures a[i] == b[i]
    {
      assert IsOf(s, q[i]) && s.queue[i] == q[i].stamp;
    }
  }

  lemma {:induction false} PushMirrors(s: State, t: State, h: History, p: Policy, e: nat)
    requires Mirrors(s, h) && t.entries == s.entries && e < |s.entries| && t.queue == s.queue + [e]
    ensures Mirrors(t, Apply(p, h, Pushed(SizeOf(s, e), e)))
  {
    hide Stamps;
    StampsAppend(h.queue, Item(h.tickets, SizeOf(s, e), e));
  }

  /** The position the history picks is the position the server picks. */
  lemma PopMirrors(c: Config, s: State, h: History, w: nat)
    requires Mirrors(s, h) && Enabled(c, s, Pop(w))
    ensures var t, h' := Do(c, s, Pop(w)), Apply(c.policy, h, Popped);
            && Mirrors(t, h') && t.workers[w].Serving? && |h'.popped| == |h.popped| + 1
            && h'.popped == h.popped + [h'.popped[|h.popped|]]
            && h'.popped[|h.popped|].stamp == t.workers[w].entry
  {
    hide Stamps, QueueSizes, ItemSizes, PickIndex;
    SameSizes(s, h.queue);
    var k := PickIndex(c.policy, ItemSizes(h.queue));
    StampsWithout(h.queue, k);
    WithoutIsPart(h.queue, k);
    hide Without, Stamps;
    assert h.queue != [] && h.queue[k] in h.queue;
    var t, h' := Do(c, s, Pop(w)), Apply(c.policy, h, Popped);
    assert h'.queue == Without(h.queue, k) && h'.popped == h.popped + [h.queue[k]];
    assert t.entries == s.entries && t.queue == Without(s.queue, k);
    SizesStay(s, t, h'.queue);
    SizesStay(s, t, h'.popped);
  }

  lemma WithoutIsPart(q: seq<Item>, k: nat)
    requires k < |q|
    ensures forall x :: x in Without(q, k) ==> x in q
  {
  }

  lemma PlayNothing(p: Policy, h: History)
    ensures Play(p, h, []) == h
  {
  }

  lemma StepMirrors(c: Config, s: State, h: History, e: Step)
    requires Inv(c, s) && Mirrors(s, h) && Enabled(c, s, e)
    ensures var t, h' := Do(c, s, e), Play(c.policy, h, EventOf(s, e));
            && Mirrors(t, h')
            && Stamps(h'.popped)
               == Stamps(h.popped) + if e.Pop? && t.workers[e.w].Serving? then [t.workers[e.w].entry] else []
  {
    hide Control, Logged, Entries, Play, Apply, Stamps, SizeOf, Serve, JobInv, PickIndex, QueueSizes;
    SizesKept(c, s, e);
    var t := Do(c, s, e);
    PlayNothing(c.policy, h);
    match e
    case Enqueue(a) =>
      BuiltIsUnfinished(s, a);
      PlayOne(c.policy, h, EventOf(s, e)[0]);
      PushMirrors(s, t, h, c.policy, s.admissions[a].entry);
      PushPopsNothing(c.policy, h, EventOf(s, e)[0]);
    case Requeue(w) =>
      HeldIsUnfinished(s, w);
      PlayOne(c.policy, h, EventOf(s, e)[0]);
      PushMirrors(s, t, h, c.policy, s.workers[w].entry);
      PushPopsNothing(c.policy, h, EventOf(s, e)[0]);
    case Pop(w) =>
      PlayOne(c.policy, h, Popped);
      PopMirrors(c, s, h, w);
      var h' := Apply(c.policy, h, Popped);
      StampsAppend(h.popped, h'.popped[|h.popped|]);
    case _ =>
      SizesStay(s, t, h.queue);
      SizesStay(s, t, h.popped);
  }

  lemma PushPopsNothing(p: Policy, h: History, e: Event)
    requires e.Pushed?
    ensures Apply(p, h, e).popped == h.popped
  {
  }

  lemma BuiltIsUnfinished(s: State, a: nat)
    requires Placed(s) && a < |s.admissions| && s.admissions[a].Built?
    ensures Unfinished(s, s.admissions[a].entry)
  {
    BuildingAtLeast(s.admissions, a, s.admissions[a].entry);
    assert PlacedAt(s, s.admissions[a].entry);
  }

  lemma {:induction false} RunMirrors(c: Config, s: State, h: History, es: seq<Step>)
    requires Inv(c, s) && Mirrors(s, h) && Runs(c, s, es)
    ensures var h' := Play(c.policy, h, Events(c, s, es));
            Mirrors(End(c, s, es), h') && Stamps(h'.popped) == Stamps(h.popped) + Taken(c, s, es)
    decreases |es|
  {
    hide Inv, Do, Enabled, Mirrors, Stamps, EventOf, Play;
    if es == [] {
      PlayNothing(c.policy, h);
    } else {
      var t, first := Do(c, s, es[0]), EventOf(s, es[0]);
      StepMirrors(c, s, h, es[0]);
      StepKeepsInv(c, s, es[0]);
      RunMirrors(c, t, Play(c.policy, h, first), es[1..]);
      PlayAppend(c.policy, h, first, Events(c, t, es[1..]));
    }
  }

  /** The stays of requests in the queue over a run: the server's queue and the requests taken are
      those of the history, each with the size of its request. */
  ghost function Stays(c: Config, n: nat, es: seq<Step>): History
    requires c.Valid() && n >= 1 && Runs(c, Init(n), es)
  {
    Play(c.policy, EMPTY, Events(c, Init(n), es))
  }

  lemma StaysMirror(c: Config, n: nat, es: seq<Step>)
    requires c.Valid() && n >= 1 && Runs(c, Init(n), es)
    ensures Mirrors(End(c, Init(n), es), Stays(c, n, es))
    ensures Stamps(Stays(c, n, es).popped) == Taken(c, Init(n), es)
  {
    InitInv(c, n);
    RunMirrors(c, Init(n), EMPTY, es);
  }

  /** In every run under sjf a request is taken before one that was queued earlier, be that one taken
      later or still queued at the end, only if it is strictly smaller. */
  lemma SjfTurns(c: Config, n: nat, es: seq<Step>)
    requires c.Valid() && n >= 1 && Runs(c, Init(n), es) && c.policy.Sjf?
    ensures var h, s := Stays(c, n, es), End(c, Init(n), es);
            && Stamps(h.popped) == Taken(c, Init(n), es) && Stamps(h.queue) == s.queue
            && (forall i, j :: 0 <= i < j < |h.popped| && h.popped[j].ticket < h.popped[i].ticket ==>
                                 SizeOf(s, h.popped[i].stamp) < SizeOf(s, h.popped[j].stamp))
            && (forall i, j :: 0 <= i < |h.popped| && 0 <= j < |h.queue| && h.queue[j].ticket < h.popped[i].ticket ==>
                                 SizeOf(s, h.popped[i].stamp) < SizeOf(s, h.queue[j].stamp))
  {
    hide Stamps, SizeOf, Play, End, Runs, Events, Taken, Mirrors, SjfInv;
    StaysMirror(c, n, es);
    SjfAlways(Events(c, Init(n), es));
    NobodyPassesUnlessSmaller(End(c, Init(n), es), Stays(c, n, es));
  }

  lemma NobodyPassesUnlessSmaller(s: State, h: History)
    requires Mirrors(s, h) && SjfInv(h)
    ensures Stamps(h.queue) == s.queue
    ensures forall i, j :: 0 <= i < j < |h.popped| && h.popped[j].ticket < h.popped[i].ticket ==>
                             SizeOf(s, h.popped[i].stamp) < SizeOf(s, h.popped[j].stamp)
    ensures forall i, j :: 0 <= i < |h.popped| && 0 <= j < |h.queue| && h.queue[j].ticket < h.popped[i].ticket ==>
                             SizeOf(s, h.popped[i].stamp) < SizeOf(s, h.queue[j].stamp)
  {
    hide Stamps, SizeOf;
    forall i, j | 0 <= i < j < |h.popped| && h.popped[j].ticket < h.popped[i].ticket
      ensures SizeOf(s, h.popped[i].stamp) < SizeOf(s, h.popped[j].stamp)
    {
      assert IsOf(s, h.popped[i]) && IsOf(s, h.popped[j]) && MayPass(h.popped[i], h.popped[j]);
    }
    forall i, j | 0 <= i < |h.popped| && 0 <= j < |h.queue| && h.queue[j].ticket < h.popped[i].ticket
      ensures SizeOf(s, h.popped[i].stamp) < SizeOf(s, h.queue[j].stamp)
    {
      assert h.popped[i] in h.popped && h.queue[j] in h.queue;
      assert IsOf(s, h.popped[i]) && IsOf(s, h.queue[j]) && MayPass(h.popped[i], h.queue[j]);
    }
  }

  /** In every run under any other policy requests are taken in the order in which they were queued. */
  lemma FifoTurns(c: Config, n: nat, es: seq<Step>)
    requires c.Valid() && n >= 1 && Runs(c, Init(n), es) && !c.policy.Sjf?
    ensures var h, s := Stays(c, n, es), End(c, Init(n), es);
            && Stamps(h.popped) == Taken(c, Init(n), es) && Stamps(h.queue) == s.queue
            && (forall i :: 0 <= i < |h.popped| ==> h.popped[i].ticket == i)
            && (forall i :: 0 <= i < |h.queue| ==> h.queue[i].ticket == |h.popped| + i)
  {
    hide Stamps, SizeOf, Play, End, Runs, Events, Taken;
    StaysMirror(c, n, es);
    FifoOrder(c.policy, Events(c, Init(n), es));
  }

  // ------------------------------------------------------------------ a request that is served

  lemma RunsCons(c: Config, s: State, e: Step, es: seq<Step>)
    requires Enabled(c, s, e) && Runs(c, Do(c, s, e), es)
    ensures Runs(c, s, [e] + es) && End(c, s, [e] + es) == End(c, Do(c, s, e), es)
  {
    hide Enabled, Do;
    assert ([e] + es)[1..] == es;
  }

  /** What worker `w` does with the only queued request, up to where it requeues it, if it does. */
  lemma OneTurn(c: Config, s: State, w: nat, e: nat)
    requires Inv(c, s) && s.queue == [e] && w < |s.workers| && s.workers[w].Ready?
    ensures e < |s.entries| && s.entries[e].status.Live? && JobInv(c, s.entries[e].job) && Enabled(c, s, Pop(w))
    ensures var s1 := Do(c, s, Pop(w));
            && Enabled(c, s1, Slice(w))
            && var s2 := Do(c, s1, Slice(w));
            if Serve(c, s.entries[e].job).1.Done? then
              && s2.entries == s.entries[e := Entry(s.entries[e].id, Serve(c, s.entries[e].job).0, Succeeded)]
              && s2.queue == [] && s2.finished == s.finished + [e]
              && |s2.csv| == |s.csv| + 1 && s2.csv[|s.csv|].entry == e
            else
              && Enabled(c, s2, Requeue(w))
              && var s3 := Do(c, s2, Requeue(w));
              && s3.queue == [e] && s3.workers == s.workers && s3.csv == s.csv && s3.finished == s.finished
              && s3.entries == s.entries[e := s.entries[e].(job := Serve(c, s.entries[e].job).0)]
  {
    hide Serve, JobInv, QueueSizes, PickIndex, Logged, Control;
    QueuedIsUnfinished(s, 0);
    assert EntryInv(c, s.entries[e]);
    var k := PopTakes(c, s, w);
    assert k == 0;
    assert s.workers == s.workers[w := Ready];
  }

  /** From every reachable state in which one request is queued and a worker is free, there is a run in
      which that request is served to its end, released and logged. */
  lemma {:induction false} LoneRequestIsServed(c: Config, s: State, w: nat, e: nat) returns (es: seq<Step>)
    requires Inv(c, s) && s.queue == [e] && w < |s.workers| && s.workers[w].Ready?
    ensures e < |s.entries| && Runs(c, s, es)
    ensures var t := End(c, s, es);
            && |t.entries| == |s.entries| && t.entries[e].status.Succeeded? && t.finished == s.finished + [e]
            && |t.csv| == |s.csv| + 1 && t.csv[|s.csv|].entry == e
    decreases if e < |s.entries| && JobInv(c, s.entries[e].job) then JobLeft(c, s.entries[e].job) else 0
  {
    OneTurn(c, s, w, e);
    var job := s.entries[e].job;
    ServeStep(c, job);
    hide Inv, Do, Enabled, Serve, JobInv, JobLeft;
    var s1 := Do(c, s, Pop(w));
    StepKeepsInv(c, s, Pop(w));
    var s2 := Do(c, s1, Slice(w));
    StepKeepsInv(c, s1, Slice(w));
    if Serve(c, job).1.Done? {
      es := [];
    } else {
      var s3 := Do(c, s2, Requeue(w));
      StepKeepsInv(c, s2, Requeue(w));
      var rest := LoneRequestIsServed(c, s3, w, e);
      RunsCons(c, s2, Requeue(w), rest);
      es := [Requeue(w)] + rest;
    }
    RunsCons(c, s1, Slice(w), es);
    es := [Slice(w)] + es;
    RunsCons(c, s, Pop(w), es);
    es := [Pop(w)] + es;
  }

  /** An accepted connection whose request is queued, on a server that has just started. */
  lemma Admitted(c: Config, n: nat, job: Job) returns (es: seq<Step>)
    requires c.Valid() && n >= 1 && NewJob(job)
    ensures Runs(c, Init(n), es)
    ensures var t := End(c, Init(n), es);
            && Inv(c, t) && t.queue == [0] && t.workers == Init(n).workers && t.csv == [] && t.finished == []
            && t.entries == [Entry(1, job, Live)]
  {
    hide NewJob, Inv, JobInv, AllReady;
    InitInv(c, n);
    var s := Init(n);
    var s1 := Do(c, s, Accept);
    var s2 := Do(c, s1, CountUp);
    var s3 := Do(c, s2, Spawn);
    assert s3.admissions == [Reading];
    var s4 := Do(c, s3, Build(0, job));
    var s5 := Do(c, s4, Enqueue(0));
    es := [Accept, CountUp, Spawn, Build(0, job), Enqueue(0)];
    assert es == [Accept] + ([CountUp] + ([Spawn] + ([Build(0, job)] + ([Enqueue(0)] + []))));
    RunsCons(c, s4, Enqueue(0), []);
    RunsCons(c, s3, Build(0, job), [Enqueue(0)] + []);
    RunsCons(c, s2, Spawn, [Build(0, job)] + ([Enqueue(0)] + []));
    RunsCons(c, s1, CountUp, [Spawn] + ([Build(0, job)] + ([Enqueue(0)] + [])));
    RunsCons(c, s, Accept, [CountUp] + ([Spawn] + ([Build(0, job)] + ([Enqueue(0)] + []))));
    RunKeepsInv(c, s, es);
  }

  lemma {:induction false} RunsAppend(c: Config, s: State, a: seq<Step>, b: seq<Step>)
    requires Runs(c, s, a) && Runs(c, End(c, s, a), b)
    ensures Runs(c, s, a + b) && End(c, s, a + b) == End(c, End(c, s, a), b)
    decreases |a|
  {
    hide Enabled, Do;
    if a == [] {
      assert a + b == b;
    } else {
      RunsAppend(c, Do(c, s, a[0]), a[1..], b);
      RunsCons(c, s, a[0], a[1..] + b);
      assert [a[0]] + (a[1..] + b) == a + b;
    }
  }

  /** Under every policy and quantum, whatever a client may request, there is a run of the server, from
      its start, that serves the request to its end and logs it as its one row. */
  lemma EveryRequestCanBeServed(c: Config, n: nat, job: Job) returns (es: seq<Step>)
    requires c.Valid() && n >= 1 && NewJob(job)
    ensures Runs(c, Init(n), es)
    ensures var t := End(c, Init(n), es);
            && |t.entries| == 1 && t.entries[0].status.Succeeded? && t.finished == [0]
            && |t.csv| == 1 && t.csv[0].entry == 0
  {
    hide NewJob, Inv, AllReady, Runs, End;
    var before := Admitted(c, n, job);
    AllReadyHold(n);
    var after := LoneRequestIsServed(c, End(c, Init(n), before), 0, 0);
    RunsAppend(c, Init(n), before, after);
    es := before + after;
  }
}
