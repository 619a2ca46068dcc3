/** One worker and a first-in-first-out policy: requests take turns, and under drr the turns are
    worth almost the same number of bytes. */
module Fairness {
  import opened Bytes
  import opened Lines
  import opened Rounds
  import opened Queue
  import opened Server
  import opened Safety

  // ------------------------------------------------------------------ the order of service

  function IndexIn(q: seq<nat>, a: nat): (i: nat)
    ensures i <= |q|
  {
    if q == [] then 0 else if q[0] == a then 0 else 1 + IndexIn(q[1..], a)
  }

  lemma {:induction false} IndexInMember(q: seq<nat>, a: nat)
    ensures IndexIn(q, a) < |q| <==> a in q
  {
    if q != [] && q[0] != a {
      IndexInMember(q[1..], a);
      assert q == [q[0]] + q[1..];
    }
  }

  lemma {:induction false} IndexInAppend(q: seq<nat>, x: nat, a: nat)
    ensures IndexIn(q + [x], a) == if a in q then IndexIn(q, a) else if x == a then |q| else |q| + 1
  {
    if q == [] {
      assert q + [x] == [x];
      assert [x][1..] == [];
    } else {
      assert (q + [x])[1..] == q[1..] + [x];
      assert q == [q[0]] + q[1..];
      IndexInAppend(q[1..], x, a);
    }
  }

  lemma IndexInPop(q: seq<nat>, a: nat)
    requires q != []
    ensures Without(q, 0) == q[1..]
    ensures a in q <==> a == q[0] || a in q[1..]
    ensures IndexIn(q, a) == if a == q[0] then 0 else 1 + IndexIn(q[1..], a)
  {
    assert q == [q[0]] + q[1..];
  }

  lemma {:induction false} IndexInDistinct(q: seq<nat>, a: nat, b: nat)
    requires a != b && a in q
    ensures IndexIn(q, a) != IndexIn(q, b)
  {
    if q[0] != a {
      assert q == [q[0]] + q[1..];
      if q[0] != b {
        IndexInDistinct(q[1..], a, b);
      }
    }
  }

  predicate Alone(c: Config, s: State) {
    !c.policy.Sjf? && |s.workers| == 1
  }

  /** Admitted, enqueued and not finished. */
  predicate Waiting(s: State, a: nat)
    requires |s.workers| == 1
  {
    a in s.queue || WorkerHas(s.workers[0], a) == 1
  }

  /** How many requests are served before `a` is: the one in service comes first, a preempted one on
      its way back to the queue comes last. */
  function Place(s: State, a: nat): nat
    requires |s.workers| == 1
  {
    match s.workers[0]
    case Serving(e) => if e == a then 0 else 1 + IndexIn(s.queue, a)
    case Requeueing(e) => if e == a then |s.queue| else IndexIn(s.queue, a)
    case _ => IndexIn(s.queue, a)
  }

  lemma WaitingOnce(s: State, a: nat)
    requires Placed(s) && |s.workers| == 1 && WorkerHas(s.workers[0], a) == 1
    ensures a !in s.queue
  {
    assert PlacedAt(s, a);
    assert Held(s.workers[..0], a) == 0;
    assert Held(s.workers, a) == 1;
  }

  /** The request a slice step works on. */
  function Served(s: State, e: Step): int
    requires |s.workers| == 1
  {
    if (e.Slice? || e.SliceFails?) && s.workers[0].Serving? then s.workers[0].entry else -1
  }

  /** How one step moves a waiting request in the order of service. */
  ghost predicate Moves(s: State, t: State, e: Step, a: nat)
    requires |s.workers| == 1
  {
    && |t.workers| == 1
    && (Unfinished(t, a) ==> Waiting(t, a))
    && (t.workers[0] == Requeueing(a) ==> Served(s, e) == a || s.workers[0] == Requeueing(a))
    && (Waiting(t, a) ==>
          if Served(s, e) == a then s.workers[0] == Serving(a) && t.workers[0] == Requeueing(a)
          else if Served(s, e) >= 0 then Place(t, a) == Place(s, a) - 1
          else Place(t, a) == Place(s, a) || (s.workers[0] == Requeueing(a) && t.workers == s.workers))
  }

  lemma PlaceSlice(c: Config, s: State, e: Step, a: nat)
    requires Placed(s) && Alone(c, s) && Enabled(c, s, e) && Waiting(s, a) && (e.Slice? || e.SliceFails?)
    ensures Moves(s, Do(c, s, e), e, a)
  {
    if WorkerHas(s.workers[0], a) == 1 {
      WaitingOnce(s, a);
    }
    hide Serve, Places, Placed, JobInv;
  }

  lemma PlaceEnqueue(c: Config, s: State, e: Step, a: nat)
    requires Placed(s) && Alone(c, s) && Enabled(c, s, e) && Waiting(s, a) && e.Enqueue?
    ensures Moves(s, Do(c, s, e), e, a)
  {
    if WorkerHas(s.workers[0], a) == 1 {
      WaitingOnce(s, a);
    }
    hide Places, Placed;
    IndexInAppend(s.queue, s.admissions[e.a].entry, a);
  }

  lemma PlaceWorker(c: Config, s: State, e: Step, a: nat)
    requires Placed(s) && Alone(c, s) && Enabled(c, s, e) && Waiting(s, a) && (e.Pop? || e.Requeue? || e.Exit?)
    ensures Moves(s, Do(c, s, e), e, a)
  {
    if e.Requeue? {
      PlaceRequeue(c, s, a);
    } else if e.Pop? {
      PlacePop(c, s, a);
    } else {
      hide Placed;
    }
  }

  lemma PlaceRequeue(c: Config, s: State, a: nat)
    requires Placed(s) && Alone(c, s) && Enabled(c, s, Requeue(0)) && Waiting(s, a)
    ensures Moves(s, Do(c, s, Requeue(0)), Requeue(0), a)
  {
    if WorkerHas(s.workers[0], a) == 1 {
      WaitingOnce(s, a);
    }
    hide Placed, Places;
    IndexInAppend(s.queue, s.workers[0].entry, a);
  }

  lemma PlacePop(c: Config, s: State, a: nat)
    requires Placed(s) && Alone(c, s) && Enabled(c, s, Pop(0)) && Waiting(s, a)
    ensures Moves(s, Do(c, s, Pop(0)), Pop(0), a)
  {
    IndexInPop(s.queue, a);
    assert PickIndex(c.policy, QueueSizes(s.entries, s.queue)) == 0;
    hide Placed, Places, QueueSizes, PickIndex, Without, IndexIn;
  }

  lemma PlaceStep(c: Config, s: State, e: Step, a: nat)
    requires Placed(s) && Alone(c, s) && Enabled(c, s, e) && Waiting(s, a)
    ensures Moves(s, Do(c, s, e), e, a)
  {
    hide Placed, Serve, JobInv, PickIndex, QueueSizes;
    if e.Slice? || e.SliceFails? {
      PlaceSlice(c, s, e, a);
    } else if e.Enqueue? {
      PlaceEnqueue(c, s, e, a);
    } else if WorkerStep(e) {
      PlaceWorker(c, s, e, a);
    }
  }

  /** `a` is served before `b`. */
  predicate Before(s: State, a: nat, b: nat)
    requires |s.workers| == 1
  {
    Place(s, a) < Place(s, b)
  }

  lemma PlacesDiffer(s: State, a: nat, b: nat)
    requires Placed(s) && |s.workers| == 1 && a != b && Waiting(s, a) && Waiting(s, b)
    ensures Place(s, a) != Place(s, b)
  {
    IndexInMember(s.queue, a);
    IndexInMember(s.queue, b);
    if a in s.queue {
      IndexInDistinct(s.queue, a, b);
    }
  }

  /** The rounds a request has had. */
  function Had(s: State, a: nat): nat {
    if a < |s.entries| then s.entries[a].job.Rounds() else 0
  }

  lemma {:induction false} HadStep(c: Config, s: State, e: Step, a: nat)
    requires Placed(s) && |s.workers| == 1 && Enabled(c, s, e) && a < |s.entries|
    ensures var t := Do(c, s, e);
            && a < |t.entries|
            && Had(t, a) == Had(s, a) + (if Served(s, e) == a then 1 else 0)
            && (Unfinished(t, a) ==> Unfinished(s, a))
            && t.slices == s.slices + (if Served(s, e) >= 0 then 1 else 0)
            && t.entries[a].job.Bytes() == s.entries[a].job.Bytes()
            && (s.entries[a].job.GetJob? <==> t.entries[a].job.GetJob?)
            && (s.entries[a].job.GetJob? ==> t.entries[a].job.content == s.entries[a].job.content)
  {
    hide Placed, JobInv, JobLeft, JobTotal, PickIndex, QueueSizes;
    if e.Slice? || e.SliceFails? {
      HeldIsUnfinished(s, e.w);
      if e.Slice? {
        ServeStep(c, s.entries[s.workers[e.w].entry].job);
      }
    }
  }

  lemma BeforeStep(s: State, t: State, e: Step, a: nat, b: nat)
    requires |s.workers| == 1 && a != b && Moves(s, t, e, a) && Moves(s, t, e, b)
    requires Waiting(s, a) && Waiting(s, b) && Waiting(t, a) && Waiting(t, b)
    requires Place(s, a) != Place(s, b) && Place(t, a) != Place(t, b)
    ensures if Served(s, e) == a then Before(s, a, b) && !Before(t, a, b)
            else if Served(s, e) == b then !Before(s, a, b) && Before(t, a, b)
            else Before(s, a, b) == Before(t, a, b)
  {
    LastPlace(s, a, b);
    LastPlace(t, a, b);
    LastPlace(s, b, a);
    LastPlace(t, b, a);
    hide Place, Waiting;
  }

  /** Being ahead is used up by exactly one turn. */
  lemma TurnStep(c: Config, s: State, e: Step, a: nat, b: nat)
    requires Inv(c, s) && Alone(c, s) && Enabled(c, s, e) && a != b && a < |s.entries| && b < |s.entries|
    requires Waiting(s, a) && Waiting(s, b) && Unfinished(Do(c, s, e), a) && Unfinished(Do(c, s, e), b)
    ensures var t := Do(c, s, e);
            && |t.workers| == 1 && Waiting(t, a) && Waiting(t, b)
            && Had(t, a) - Had(s, a) - (Had(t, b) - Had(s, b))
               == (if Before(s, a, b) then 1 else 0) - (if Before(t, a, b) then 1 else 0)
  {
    hide Do, Enabled, Placed, Control, Logged, Entries, Place, Waiting, Served, Unfinished;
    StepKeepsInv(c, s, e);
    PlaceStep(c, s, e, a);
    PlaceStep(c, s, e, b);
    HadStep(c, s, e, a);
    HadStep(c, s, e, b);
    PlacesDiffer(s, a, b);
    PlacesDiffer(Do(c, s, e), a, b);
    BeforeStep(s, Do(c, s, e), e, a, b);
  }

  /** The request on its way back to the queue is behind every other. */
  lemma LastPlace(s: State, a: nat, b: nat)
    requires |s.workers| == 1 && a != b && Waiting(s, b)
    ensures s.workers[0] == Requeueing(a) ==> Place(s, b) < Place(s, a)
    ensures s.workers[0] == Serving(a) ==> Place(s, a) < Place(s, b)
  {
    IndexInMember(s.queue, b);
  }

  // ------------------------------------------------------------------ windows of a run

  lemma {:induction false} LiveBackwards(c: Config, s: State, es: seq<Step>, a: nat)
    requires Inv(c, s) && Alone(c, s) && Runs(c, s, es) && a < |s.entries| && Unfinished(End(c, s, es), a)
    ensures Unfinished(s, a)
    decreases |es|
  {
    if es != [] {
      OneWorker(c, s, es[0]);
      StepKeepsInv(c, s, es[0]);
      HadStep(c, s, es[0], a);
      LiveBackwards(c, Do(c, s, es[0]), es[1..], a);
    }
  }

  lemma OneWorker(c: Config, s: State, e: Step)
    requires Enabled(c, s, e)
    ensures |Do(c, s, e).workers| == |s.workers|
  {
  }

  /** Turns alternate: over any window in which two requests both stay unfinished, one gets at most
      one round more than the other. */
  lemma {:induction false} TurnsAlternate(c: Config, s: State, es: seq<Step>, a: nat, b: nat)
    requires Inv(c, s) && Alone(c, s) && Runs(c, s, es) && a != b
    requires a < |s.entries| && b < |s.entries| && Waiting(s, a) && Waiting(s, b)
    requires Unfinished(End(c, s, es), a) && Unfinished(End(c, s, es), b)
    ensures var t := End(c, s, es);
            && |t.workers| == 1 && Inv(c, t) && a < |t.entries| && b < |t.entries|
            && Had(t, a) >= Had(s, a) && Had(t, b) >= Had(s, b)
            && (Had(t, a) - Had(s, a)) - (Had(t, b) - Had(s, b))
               == (if Before(s, a, b) then 1 else 0) - (if Before(t, a, b) then 1 else 0)
    decreases |es|
  {
    if es != [] {
      var u := Do(c, s, es[0]);
      OneWorker(c, s, es[0]);
      StepKeepsInv(c, s, es[0]);
      HadStep(c, s, es[0], a);
      HadStep(c, s, es[0], b);
      LiveBackwards(c, u, es[1..], a);
      LiveBackwards(c, u, es[1..], b);
      TurnStep(c, s, es[0], a, b);
      hide Inv, Do, Enabled, Before, Waiting;
      TurnsAlternate(c, u, es[1..], a, b);
    }
  }

  // ------------------------------------------------------------------ drr

  /** The deficit of a non-empty GET waiting for a round is less than its longest line. */
  lemma DeficitBelowLine(c: Config, f: string, g: GetState)
    requires GetInv(c, f, g) && c.policy.Drr? && f != ""
    ensures g.off + g.deficit == Times(g.rounds, c.quantum)
    ensures g.deficit <= MaxLine(f, 0) - 1
  {
    if g.rounds > 0 {
      MaxLineBounds(f, 0, g.off);
    } else {
      MaxLineBounds(f, 0, 0);
    }
  }

  predicate IsGet(s: State, a: nat) {
    a < |s.entries| && s.entries[a].job.GetJob? && s.entries[a].job.content != ""
  }

  lemma {:induction false} ContentKept(c: Config, s: State, es: seq<Step>, a: nat)
    requires Inv(c, s) && Alone(c, s) && Runs(c, s, es) && IsGet(s, a)
    ensures IsGet(End(c, s, es), a) && End(c, s, es).entries[a].job.content == s.entries[a].job.content
    decreases |es|
  {
    if es != [] {
      OneWorker(c, s, es[0]);
      StepKeepsInv(c, s, es[0]);
      HadStep(c, s, es[0], a);
      hide Inv, Do, Enabled;
      ContentKept(c, Do(c, s, es[0]), es[1..], a);
    }
  }

  /** Bytes of request `a` on the wire. */
  function SentBytes(s: State, a: nat): nat
    requires a < |s.entries|
  {
    s.entries[a].job.Offset()
  }

  /** Drr is fair between GETs: with one worker, over any window in which two non-empty GETs both stay
      unfinished, the bytes sent to each differ by at most `Q + (LA - 1) + (LB - 1)`, where `LA` and
      `LB` are the lengths of the longest lines of their files. */
  lemma DrrFairness(c: Config, s: State, es: seq<Step>, a: nat, b: nat)
    requires Inv(c, s) && c.policy.Drr? && |s.workers| == 1 && Runs(c, s, es) && a != b
    requires IsGet(s, a) && IsGet(s, b) && Waiting(s, a) && Waiting(s, b)
    requires Unfinished(End(c, s, es), a) && Unfinished(End(c, s, es), b)
    ensures var t := End(c, s, es);
            && a < |t.entries| && b < |t.entries|
            && var sentA, sentB := SentBytes(t, a) - SentBytes(s, a), SentBytes(t, b) - SentBytes(s, b);
            var slack := (MaxLine(s.entries[a].job.content, 0) - 1) + (MaxLine(s.entries[b].job.content, 0) - 1);
            -(c.quantum + slack) <= sentA - sentB <= c.quantum + slack
  {
    var t := End(c, s, es);
    TurnsAlternate(c, s, es, a, b);
    LiveBackwards(c, s, es, a);
    LiveBackwards(c, s, es, b);
    ContentKept(c, s, es, a);
    ContentKept(c, s, es, b);
    hide Runs, End, Control, Placed, Logged, Waiting, Before;
    assert EntryInv(c, s.entries[a]) && EntryInv(c, s.entries[b]);
    assert EntryInv(c, t.entries[a]) && EntryInv(c, t.entries[b]);
    var ja, jb, ka, kb := s.entries[a].job, s.entries[b].job, t.entries[a].job, t.entries[b].job;
    DeficitBelowLine(c, ja.content, ja.g);
    DeficitBelowLine(c, jb.content, jb.g);
    DeficitBelowLine(c, ka.content, ka.g);
    DeficitBelowLine(c, kb.content, kb.g);
    QuantaApart(ja.g.rounds, ka.g.rounds, jb.g.rounds, kb.g.rounds, c.quantum);
  }

  lemma {:induction false} QuantaApart(a: nat, a': nat, b: nat, b': nat, q: nat)
    requires a <= a' && b <= b' && -1 <= (a' - a) - (b' - b) <= 1
    ensures (Times(a', q) - Times(a, q)) - (Times(b', q) - Times(b, q)) <= q
    ensures (Times(b', q) - Times(b, q)) - (Times(a', q) - Times(a, q)) <= q
  {
    hide Times;
    TimesAdd(a, a' - a, q);
    TimesAdd(b, b' - b, q);
    TimesClose(a' - a, b' - b, q);
  }

  lemma TimesClose(m: nat, n: nat, q: nat)
    requires -1 <= m - n <= 1
    ensures Times(m, q) - Times(n, q) <= q && Times(n, q) - Times(m, q) <= q
  {
    if m == n + 1 {
      assert Times(m, q) == Times(n, q) + q;
    } else if n == m + 1 {
      assert Times(n, q) == Times(m, q) + q;
    }
  }

  // ------------------------------------------------------------------ bounded waiting

  /** At most `n` requests are enqueued and unfinished at every point of the run. */
  ghost predicate Crowd(c: Config, s: State, es: seq<Step>, n: nat)
    requires |s.workers| == 1 && Runs(c, s, es)
    decreases |es|
  {
    && |s.queue| + (if s.workers[0].Serving? || s.workers[0].Requeueing? then 1 else 0) <= n
    && (es != [] ==> |Do(c, s, es[0]).workers| == 1 && Crowd(c, Do(c, s, es[0]), es[1..], n))
  }

  /** The slices that can still pass before `a`, needing `left` rounds, is finished. */
  function Patience(s: State, a: nat, left: nat, n: nat): nat
    requires |s.workers| == 1 && left >= 1
  {
    (if s.workers[0] == Requeueing(a) then n else Place(s, a) + 1) + Times(left - 1, n)
  }

  ghost function RoundsToGo(c: Config, s: State, a: nat): (k: nat)
    requires Inv(c, s) && Unfinished(s, a)
    ensures k >= 1
  {
    assert EntryInv(c, s.entries[a]);
    JobLeft(c, s.entries[a].job)
  }

  lemma PatienceStep(c: Config, s: State, e: Step, a: nat, n: nat)
    requires Inv(c, s) && Alone(c, s) && Enabled(c, s, e) && Waiting(s, a) && a < |s.entries|
    requires Unfinished(Do(c, s, e), a)
    requires |s.queue| + (if s.workers[0].Serving? || s.workers[0].Requeueing? then 1 else 0) <= n
    ensures var t := Do(c, s, e);
            && Unfinished(s, a) && Inv(c, t) && |t.workers| == 1 && Waiting(t, a)
            && Patience(t, a, RoundsToGo(c, t, a), n) + (t.slices - s.slices) <= Patience(s, a, RoundsToGo(c, s, a), n)
  {
    var t := Do(c, s, e);
    StepKeepsInv(c, s, e);
    PlaceStep(c, s, e, a);
    HadStep(c, s, e, a);
    LeftStep(c, s, e, a);
    IndexInMember(s.queue, a);
    hide Do, Enabled, Inv, RoundsToGo;
    PatienceCore(s, t, e, a, RoundsToGo(c, s, a), RoundsToGo(c, t, a), n);
  }

  lemma PatienceCore(s: State, t: State, e: Step, a: nat, left: nat, left': nat, n: nat)
    requires |s.workers| == 1 && Moves(s, t, e, a) && Waiting(s, a) && Waiting(t, a) && left' >= 1
    requires left == left' + (if Served(s, e) == a then 1 else 0)
    requires t.slices == s.slices + (if Served(s, e) >= 0 then 1 else 0)
    requires |s.queue| + (if s.workers[0].Serving? || s.workers[0].Requeueing? then 1 else 0) <= n
    ensures Patience(t, a, left', n) + (t.slices - s.slices) <= Patience(s, a, left, n)
  {
    IndexInMember(s.queue, a);
  }

  /** The rounds to go drop by one with each round. */
  lemma {:induction false} LeftStep(c: Config, s: State, e: Step, a: nat)
    requires Inv(c, s) && |s.workers| == 1 && Enabled(c, s, e) && Inv(c, Do(c, s, e)) && a < |s.entries|
    requires Unfinished(Do(c, s, e), a) && Unfinished(s, a)
    ensures RoundsToGo(c, s, a) == RoundsToGo(c, Do(c, s, e), a) + (if Served(s, e) == a then 1 else 0)
  {
    var t := Do(c, s, e);
    assert EntryInv(c, s.entries[a]) && EntryInv(c, t.entries[a]);
    HadStep(c, s, e, a);
    hide Do, Enabled, Served, Placed, Places, Logged;
    TotalStep(c, s.entries[a].job, t.entries[a].job);
  }

  lemma TotalStep(c: Config, j: Job, k: Job)
    requires c.Valid() && j.Bytes() == k.Bytes() <= U64_MAX
    requires j.GetJob? ==> k.GetJob? && k.content == j.content
    requires k.GetJob? ==> j.GetJob?
    ensures JobTotal(c, j) == JobTotal(c, k)
  {
  }

  /** A waiting request that needs `R` rounds is finished before `R * N` more slices have passed, if
      at most `N` requests are enqueued at any time. */
  lemma {:induction false} BoundedWaiting(c: Config, s: State, es: seq<Step>, a: nat, n: nat)
    requires Inv(c, s) && Alone(c, s) && Runs(c, s, es) && Crowd(c, s, es, n)
    requires a < |s.entries| && Unfinished(s, a) && Waiting(s, a) && Unfinished(End(c, s, es), a)
    ensures End(c, s, es).slices - s.slices < Times(RoundsToGo(c, s, a), n)
    decreases |es|
  {
    WaitsBelowPatience(c, s, es, a, n);
    IndexInMember(s.queue, a);
    hide Inv, Runs, End, Crowd, RoundsToGo;
  }

  lemma {:induction false} WaitsBelowPatience(c: Config, s: State, es: seq<Step>, a: nat, n: nat)
    requires Inv(c, s) && Alone(c, s) && Runs(c, s, es) && Crowd(c, s, es, n)
    requires a < |s.entries| && Unfinished(s, a) && Waiting(s, a) && Unfinished(End(c, s, es), a)
    ensures End(c, s, es).slices - s.slices < Patience(s, a, RoundsToGo(c, s, a), n)
    decreases |es|
  {
    if es != [] {
      var u := Do(c, s, es[0]);
      OneWorker(c, s, es[0]);
      StepKeepsInv(c, s, es[0]);
      HadStep(c, s, es[0], a);
      LiveBackwards(c, u, es[1..], a);
      PatienceStep(c, s, es[0], a, n);
      hide Inv, Do, Enabled, Patience, RoundsToGo, Waiting;
      WaitsBelowPatience(c, u, es[1..], a, n);
    } else {
      hide Inv;
      IndexInMember(s.queue, a);
    }
  }
}
