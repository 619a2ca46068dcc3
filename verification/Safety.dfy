/** What every step of the server keeps, and what that means when shutdown is over. */
module Safety {
  import opened Bytes
  import opened Rounds
  import opened Queue
  import opened Server

  // ------------------------------------------------------------------ one step

  lemma {:induction false} HeldAtLeast(ws: seq<Worker>, i: nat, e: nat)
    requires i < |ws|
    ensures WorkerHas(ws[i], e) <= Held(ws, e)
  {
    if i < |ws| - 1 {
      HeldAtLeast(ws[..|ws| - 1], i, e);
    }
  }

  lemma {:induction false} BuildingAtLeast(ads: seq<Admission>, i: nat, e: nat)
    requires i < |ads|
    ensures AdmissionHas(ads[i], e) <= Building(ads, e)
  {
    if i < |ads| - 1 {
      BuildingAtLeast(ads[..|ads| - 1], i, e);
    }
  }

  /** Whatever a thread holds or the queue holds is an unfinished request. */
  lemma HeldIsUnfinished(s: State, w: nat)
    requires Placed(s) && w < |s.workers| && (s.workers[w].Serving? || s.workers[w].Requeueing?)
    ensures Unfinished(s, s.workers[w].entry)
  {
    HeldAtLeast(s.workers, w, s.workers[w].entry);
    assert PlacedAt(s, s.workers[w].entry);
  }

  lemma QueuedIsUnfinished(s: State, i: nat)
    requires Placed(s) && i < |s.queue|
    ensures Unfinished(s, s.queue[i])
  {
    assert s.queue[i] in multiset(s.queue);
    assert PlacedAt(s, s.queue[i]);
  }

  lemma QueuedAppend(q: seq<nat>, x: nat, e: nat)
    ensures Queued(q + [x], e) == Queued(q, e) + (if x == e then 1 else 0)
  {
  }

  lemma QueuedWithout(q: seq<nat>, k: nat, e: nat)
    requires k < |q|
    ensures Queued(Without(q, k), e) == Queued(q, e) - (if q[k] == e then 1 else 0)
  {
    assert q == q[..k] + [q[k]] + q[k + 1..];
  }

  predicate WorkerStep(e: Step) {
    e.Pop? || e.Exit? || e.Slice? || e.SliceFails? || e.Requeue?
  }

  predicate AdmissionStep(e: Step) {
    e.Spawn? || e.Reject? || e.Build? || e.Enqueue? || e.Leave?
  }

  lemma RemainingPositive(ws: seq<Worker>, w: nat)
    requires w < |ws| && !ws[w].Exited?
    ensures Remaining(ws) > 0
  {
    RemainingAll(ws);
  }

  lemma ControlAdmission(c: Config, s: State, e: Step)
    requires Control(s) && Enabled(c, s, e) && AdmissionStep(e)
    ensures Control(Do(c, s, e))
  {
    hide Ongoing, Remaining;
    match e
    case Spawn => AdmissionAppend(s.admissions);
    case Reject(a, _) => AdmissionUpdate(s.admissions, a, Leaving);
    case Build(a, _) => AdmissionUpdate(s.admissions, a, Built(|s.entries|));
    case Enqueue(a) =>
      AdmissionUpdate(s.admissions, a, Leaving);
      OngoingPositive(s.admissions, a);
      RemainingAll(s.workers);
    case Leave(a) =>
      AdmissionUpdate(s.admissions, a, Gone);
      OngoingPositive(s.admissions, a);
  }

  lemma ControlWorker(c: Config, s: State, e: Step)
    requires Control(s) && Enabled(c, s, e) && WorkerStep(e)
    ensures Control(Do(c, s, e))
  {
    hide Ongoing, Remaining, Serve, QueueSizes, PickIndex, Without;
    var t := Do(c, s, e);
    WorkerUpdate(s.workers, e.w, t.workers[e.w]);
    RemainingPositive(s.workers, e.w);
  }

  lemma ControlStep(c: Config, s: State, e: Step)
    requires Control(s) && Enabled(c, s, e)
    ensures Control(Do(c, s, e))
  {
    if AdmissionStep(e) {
      ControlAdmission(c, s, e);
    } else if WorkerStep(e) {
      ControlWorker(c, s, e);
    } else {
      hide Ongoing, Remaining;
      RemainingAll(s.workers);
    }
  }

  lemma PlacedAdmission(c: Config, s: State, e: Step, x: nat)
    requires PlacedAt(s, x) && PlacedAt(s, |s.entries|) && Enabled(c, s, e) && AdmissionStep(e)
    ensures PlacedAt(Do(c, s, e), x)
  {
    hide Held, Building, Ongoing, Queued;
    match e
    case Spawn => AdmissionAppend(s.admissions);
    case Reject(a, _) => BuildingUpdate(s.admissions, a, Leaving, x);
    case Build(a, _) => BuildingUpdate(s.admissions, a, Built(|s.entries|), x);
    case Enqueue(a) =>
      BuildingUpdate(s.admissions, a, Leaving, x);
      QueuedAppend(s.queue, s.admissions[a].entry, x);
    case Leave(a) => BuildingUpdate(s.admissions, a, Gone, x);
  }

  /** A worker moves a request between the queue and its hands. */
  lemma PlacedMove(c: Config, s: State, e: Step, x: nat)
    requires PlacedAt(s, x) && Enabled(c, s, e) && (e.Pop? || e.Exit? || e.Requeue?)
    ensures PlacedAt(Do(c, s, e), x)
  {
    if e.Pop? {
      PlacedPop(c, s, e.w, x);
    } else {
      hide Held, Building, Remaining, Queued;
      HeldUpdate(s.workers, e.w, Do(c, s, e).workers[e.w], x);
      if e.Requeue? {
        QueuedAppend(s.queue, s.workers[e.w].entry, x);
      }
    }
  }

  lemma PlacedPop(c: Config, s: State, w: nat, x: nat)
    requires PlacedAt(s, x) && Enabled(c, s, Pop(w))
    ensures PlacedAt(Do(c, s, Pop(w)), x)
  {
    hide Held, Building, Remaining, QueueSizes, PickIndex, Queued, Without;
    var k := PickIndex(c.policy, QueueSizes(s.entries, s.queue));
    HeldUpdate(s.workers, w, Serving(s.queue[k]), x);
    QueuedWithout(s.queue, k, x);
  }

  /** A slice keeps its request in the worker's hands, or finishes it. */
  lemma PlacedSlice(s: State, t: State, w: nat, y: nat, x: nat)
    requires PlacedAt(s, x) && Unfinished(s, y) && w < |s.workers| && s.workers[w] == Serving(y)
    requires t.queue == s.queue && t.admissions == s.admissions && |t.entries| == |s.entries|
    requires forall i :: 0 <= i < |s.entries| && i != y ==> t.entries[i] == s.entries[i]
    requires if t.entries[y].status.Live? then t.workers == s.workers[w := Requeueing(y)] && t.finished == s.finished
             else t.workers == s.workers[w := Ready] && t.finished == s.finished + [y]
    ensures PlacedAt(t, x)
  {
    hide Held, Building, Queued;
    HeldUpdate(s.workers, w, t.workers[w], x);
  }

  lemma PlacedWorker(c: Config, s: State, e: Step, x: nat)
    requires Placed(s) && Enabled(c, s, e) && WorkerStep(e)
    ensures PlacedAt(Do(c, s, e), x)
  {
    assert PlacedAt(s, x);
    if e.Slice? || e.SliceFails? {
      HeldIsUnfinished(s, e.w);
      hide Placed, PlacedAt, Serve, JobInv;
      PlacedSlice(s, Do(c, s, e), e.w, s.workers[e.w].entry, x);
    } else {
      PlacedMove(c, s, e, x);
    }
  }

  lemma PlacedStep(c: Config, s: State, e: Step)
    requires Placed(s) && Enabled(c, s, e)
    ensures Placed(Do(c, s, e))
  {
    forall x: nat
      ensures PlacedAt(Do(c, s, e), x)
    {
      assert PlacedAt(s, x);
      if AdmissionStep(e) {
        assert PlacedAt(s, |s.entries|);
        PlacedAdmission(c, s, e, x);
      } else if WorkerStep(e) {
        PlacedWorker(c, s, e, x);
      }
    }
  }

  lemma ServedEntry(c: Config, x: Entry)
    requires EntryInv(c, x) && x.status.Live?
    ensures var (job, o) := Serve(c, x.job);
            EntryInv(c, x.(job := job, status := if o.Done? then Succeeded else Live))
  {
    ServeStep(c, x.job);
  }

  lemma FailedEntry(c: Config, x: Entry)
    requires EntryInv(c, x) && x.status.Live?
    ensures EntryInv(c, x.(job := CountRound(x.job), status := Failed))
  {
    var j := x.job;
    assert JobLeft(c, j) >= 1;
    assert JobTotal(c, CountRound(j)) == JobTotal(c, j);
  }

  lemma EntriesUpdate(c: Config, xs: seq<Entry>, nextId: nat, x: nat, v: Entry)
    requires Entries(c, xs, nextId) && x < |xs| && EntryInv(c, v) && v.id == xs[x].id
    ensures Entries(c, xs[x := v], nextId)
  {
    hide EntryInv;
  }

  lemma EntriesAppend(c: Config, xs: seq<Entry>, nextId: nat, v: Entry)
    requires Entries(c, xs, nextId) && EntryInv(c, v) && v.id == nextId
    ensures Entries(c, xs + [v], nextId + 1)
  {
    hide EntryInv;
  }

  lemma EntriesSlice(c: Config, s: State, w: nat)
    requires Entries(c, s.entries, s.nextId) && Enabled(c, s, Slice(w)) && Unfinished(s, s.workers[w].entry)
    ensures var t := Do(c, s, Slice(w)); Entries(c, t.entries, t.nextId)
  {
    var x := s.workers[w].entry;
    ServedEntry(c, s.entries[x]);
    var t := Do(c, s, Slice(w));
    EntriesUpdate(c, s.entries, s.nextId, x, t.entries[x]);
  }

  lemma EntriesStep(c: Config, s: State, e: Step)
    requires c.Valid() && Placed(s) && Entries(c, s.entries, s.nextId) && Enabled(c, s, e)
    ensures var t := Do(c, s, e); Entries(c, t.entries, t.nextId)
  {
    hide Placed, Serve, JobInv, PickIndex, QueueSizes;
    match e
    case Build(_, job) =>
      NewJobInv(c, job);
      EntriesAppend(c, s.entries, s.nextId, Entry(s.nextId, job, Live));
    case Slice(w) =>
      HeldIsUnfinished(s, w);
      EntriesSlice(c, s, w);
    case SliceFails(w) =>
      HeldIsUnfinished(s, w);
      var x := s.workers[w].entry;
      FailedEntry(c, s.entries[x]);
      EntriesUpdate(c, s.entries, s.nextId, x, s.entries[x].(job := CountRound(s.entries[x].job), status := Failed));
    case _ => hide EntryInv;
  }

  lemma SumsAppend(s: State, v: Entry)
    ensures SumOf(s.entries + [v], SERVED_COUNT) == SumOf(s.entries, SERVED_COUNT) + SERVED_COUNT(v)
    ensures SumOf(s.entries + [v], SERVED_BYTES) == SumOf(s.entries, SERVED_BYTES) + SERVED_BYTES(v)
    ensures SumOf(s.entries + [v], ROUNDS_TAKEN) == SumOf(s.entries, ROUNDS_TAKEN) + ROUNDS_TAKEN(v)
  {
    SumOfAppend(s.entries, SERVED_COUNT, v);
    SumOfAppend(s.entries, SERVED_BYTES, v);
    SumOfAppend(s.entries, ROUNDS_TAKEN, v);
  }

  lemma SumsUpdate(s: State, i: nat, v: Entry)
    requires i < |s.entries|
    ensures SumOf(s.entries[i := v], SERVED_COUNT)
         == SumOf(s.entries, SERVED_COUNT) - SERVED_COUNT(s.entries[i]) + SERVED_COUNT(v)
    ensures SumOf(s.entries[i := v], SERVED_BYTES)
         == SumOf(s.entries, SERVED_BYTES) - SERVED_BYTES(s.entries[i]) + SERVED_BYTES(v)
    ensures SumOf(s.entries[i := v], ROUNDS_TAKEN)
         == SumOf(s.entries, ROUNDS_TAKEN) - ROUNDS_TAKEN(s.entries[i]) + ROUNDS_TAKEN(v)
  {
    SumOfUpdate(s.entries, SERVED_COUNT, i, v);
    SumOfUpdate(s.entries, SERVED_BYTES, i, v);
    SumOfUpdate(s.entries, ROUNDS_TAKEN, i, v);
  }

  lemma RowAppend(csv: seq<Row>, r: Row)
    ensures RowEntries(csv + [r]) == RowEntries(csv) + [r.entry]
  {
    assert (csv + [r])[..|csv|] == csv;
  }

  /** A slice rewrites the entry of an unfinished request, which no row mentions. */
  lemma LoggedRewrite(s: State, t: State, x: nat, v: Entry)
    requires Logged(s) && Unfinished(s, x) && !v.status.Succeeded?
    requires t.entries == s.entries[x := v] && t.csv == s.csv
    requires v.job.Rounds() == s.entries[x].job.Rounds() + 1
    requires t.requestsServed == s.requestsServed && t.bytesServed == s.bytesServed && t.slices == s.slices + 1
    ensures Logged(t)
  {
    hide SumOf, RowEntries;
    SumsUpdate(s, x, v);
    forall e: nat
      ensures LoggedAt(t, e)
    {
      assert LoggedAt(s, e);
    }
    forall i | 0 <= i < |t.csv|
      ensures RowTrue(t, t.csv[i])
    {
      assert RowTrue(s, s.csv[i]);
      NotYetLogged(s, x, i);
    }
  }

  lemma LoggedFinish(s: State, t: State, x: nat, v: Entry, r: Row)
    requires Logged(s) && Unfinished(s, x) && v.status.Succeeded? && v.id == s.entries[x].id
    requires r == Row(x, v.id, v.job.Bytes(), v.job.Rounds(), v.job.Forfeited())
    requires t.entries == s.entries[x := v] && t.csv == s.csv + [r]
    requires v.job.Rounds() == s.entries[x].job.Rounds() + 1
    requires t.requestsServed == s.requestsServed + 1 && t.bytesServed == s.bytesServed + v.job.Bytes()
    requires t.slices == s.slices + 1
    ensures Logged(t)
  {
    hide SumOf, RowEntries;
    SumsUpdate(s, x, v);
    RowAppend(s.csv, r);
    forall e: nat
      ensures LoggedAt(t, e)
    {
      assert LoggedAt(s, e);
    }
    forall i | 0 <= i < |t.csv|
      ensures RowTrue(t, t.csv[i])
    {
      if i < |s.csv| {
        assert RowTrue(s, s.csv[i]);
        NotYetLogged(s, x, i);
      }
    }
  }

  lemma {:induction false} RowInEntries(csv: seq<Row>, i: nat)
    requires i < |csv|
    ensures csv[i].entry in multiset(RowEntries(csv))
  {
    if i < |csv| - 1 {
      RowInEntries(csv[..|csv| - 1], i);
    }
  }

  lemma NotYetLogged(s: State, x: nat, i: nat)
    requires LoggedAt(s, x) && Unfinished(s, x) && i < |s.csv|
    ensures s.csv[i].entry != x
  {
    RowInEntries(s.csv, i);
  }

  lemma LoggedBuild(s: State, t: State, v: Entry)
    requires Logged(s) && v.status.Live? && v.job.Rounds() == 0
    requires t.entries == s.entries + [v] && t.csv == s.csv
    requires t.requestsServed == s.requestsServed && t.bytesServed == s.bytesServed && t.slices == s.slices
    ensures Logged(t)
  {
    hide SumOf, RowEntries;
    SumsAppend(s, v);
    forall e: nat
      ensures LoggedAt(t, e)
    {
      assert LoggedAt(s, e);
    }
    forall i | 0 <= i < |t.csv|
      ensures RowTrue(t, t.csv[i])
    {
      assert RowTrue(s, s.csv[i]);
    }
  }

  lemma LoggedSlice(c: Config, s: State, w: nat)
    requires Logged(s) && Enabled(c, s, Slice(w)) && Unfinished(s, s.workers[w].entry)
    ensures Logged(Do(c, s, Slice(w)))
  {
    var x := s.workers[w].entry;
    ServeStep(c, s.entries[x].job);
    hide Logged, Serve, JobInv;
    var t := Do(c, s, Slice(w));
    if t.entries[x].status.Succeeded? {
      LoggedFinish(s, t, x, t.entries[x], t.csv[|s.csv|]);
    } else {
      LoggedRewrite(s, t, x, t.entries[x]);
    }
  }

  lemma LoggedUnchanged(s: State, t: State)
    requires Logged(s) && t.entries == s.entries && t.csv == s.csv
    requires t.requestsServed == s.requestsServed && t.bytesServed == s.bytesServed && t.slices == s.slices
    ensures Logged(t)
  {
    forall x: nat
      ensures LoggedAt(t, x)
    {
      assert LoggedAt(s, x);
    }
    forall i | 0 <= i < |t.csv|
      ensures RowTrue(t, t.csv[i])
    {
      assert RowTrue(s, s.csv[i]);
    }
  }

  lemma LoggedStep(c: Config, s: State, e: Step)
    requires Logged(s) && Placed(s) && Enabled(c, s, e)
    ensures Logged(Do(c, s, e))
  {
    hide Logged, Placed, Serve, JobInv, PickIndex, QueueSizes;
    var t := Do(c, s, e);
    if e.Slice? || e.SliceFails? {
      HeldIsUnfinished(s, e.w);
    }
    match e
    case Build(_, job) => LoggedBuild(s, t, Entry(s.nextId, job, Live));
    case Slice(w) => LoggedSlice(c, s, w);
    case SliceFails(w) => LoggedRewrite(s, t, s.workers[w].entry, t.entries[s.workers[w].entry]);
    case _ => LoggedUnchanged(s, t);
  }

  lemma StepKeepsInv(c: Config, s: State, e: Step)
    requires Inv(c, s) && Enabled(c, s, e)
    ensures Inv(c, Do(c, s, e))
  {
    hide Control, Placed, Logged, Entries, Do, Enabled;
    ControlStep(c, s, e);
    PlacedStep(c, s, e);
    LoggedStep(c, s, e);
    EntriesStep(c, s, e);
  }

  // ------------------------------------------------------------------ whole runs

  ghost predicate Runs(c: Config, s: State, es: seq<Step>)
    decreases |es|
  {
    es == [] || (Enabled(c, s, es[0]) && Runs(c, Do(c, s, es[0]), es[1..]))
  }

  ghost function End(c: Config, s: State, es: seq<Step>): State
    requires Runs(c, s, es)
    decreases |es|
  {
    if es == [] then s else End(c, Do(c, s, es[0]), es[1..])
  }

  lemma {:induction false} RunKeepsInv(c: Config, s: State, es: seq<Step>)
    requires Inv(c, s) && Runs(c, s, es)
    ensures Inv(c, End(c, s, es))
    decreases |es|
  {
    hide Inv, Do, Enabled;
    if es != [] {
      StepKeepsInv(c, s, es[0]);
      RunKeepsInv(c, Do(c, s, es[0]), es[1..]);
    }
  }

  /** In every reachable state an unfinished request is in exactly one place, a finished one in none
      and released exactly once. */
  lemma NothingLostOrDuplicated(c: Config, n: nat, es: seq<Step>)
    requires c.Valid() && n >= 1 && Runs(c, Init(n), es)
    ensures Placed(End(c, Init(n), es))
  {
    InitInv(c, n);
    RunKeepsInv(c, Init(n), es);
  }

  /** When every join has returned: the queue is empty, no thread holds a request, each request ever
      built has been released exactly once as succeeded or failed, and the log and the two counters
      are those of the succeeded requests. */
  lemma ShutdownLosesNothing(c: Config, n: nat, es: seq<Step>)
    requires c.Valid() && n >= 1 && Runs(c, Init(n), es) && End(c, Init(n), es).main.Stopped?
    ensures var s := End(c, Init(n), es);
            && s.queue == []
            && (forall e: nat :: Held(s.workers, e) == 0 && Building(s.admissions, e) == 0)
            && (forall e: nat :: multiset(s.finished)[e] == if e < |s.entries| then 1 else 0)
            && (forall e :: 0 <= e < |s.entries| ==> s.entries[e].status.Succeeded? || s.entries[e].status.Failed?)
            && Logged(s)
  {
    InitInv(c, n);
    RunKeepsInv(c, Init(n), es);
    var s := End(c, Init(n), es);
    hide Held, Building, Ongoing, Remaining, Logged, End, Runs;
    assert s.queue == [];
    forall e: nat
      ensures Held(s.workers, e) == 0 && Building(s.admissions, e) == 0 && Places(s, e) == 0
    {
      NobodyHolds(s.workers, e);
      NobodyBuilds(s.admissions, e);
      assert Queued(s.queue, e) == 0;
      assert PlacedAt(s, e);
    }
    forall e | 0 <= e < |s.entries|
      ensures !s.entries[e].status.Live?
    {
      assert PlacedAt(s, e);
    }
    forall e: nat
      ensures multiset(s.finished)[e] == if e < |s.entries| then 1 else 0
    {
      assert PlacedAt(s, e);
    }
  }

  /** In every reachable state each row of the log carries the id, the size, the number of rounds that
      the policy, the quantum and the lines call for, and exactly the bytes that this request forfeits
      under rr when it runs alone: no interleaving with other requests changes a figure. */
  lemma RowsAreExact(c: Config, n: nat, es: seq<Step>, i: nat)
    requires c.Valid() && n >= 1 && Runs(c, Init(n), es) && i < |End(c, Init(n), es).csv|
    ensures var s := End(c, Init(n), es);
            var r := s.csv[i];
            && r.entry < |s.entries| && s.entries[r.entry].status.Succeeded?
            && r.id == s.entries[r.entry].id
            && match s.entries[r.entry].job
               case GetJob(content, _) =>
                 && r.bytes == |content| <= U64_MAX && r.rounds == TotalRounds(c, content)
                 && r.forfeited == if c.policy.Rr? then Unused(c, content, r.rounds) else 0
               case PutJob(size, _, _) =>
                 && r.bytes == size && r.forfeited == 0
                 && r.rounds == if Bounded(c.policy) then Max(1, CeilDiv(size, c.quantum)) else 1
  {
    hide Runs, End, Control, Placed, SumOf, Entries, RowEntries, After, TotalRounds, Unused, JobInv;
    InitInv(c, n);
    RunKeepsInv(c, Init(n), es);
    var s := End(c, Init(n), es);
    assert RowTrue(s, s.csv[i]);
    RowInEntries(s.csv, i);
    var e := s.csv[i].entry;
    assert LoggedAt(s, e);
    EntryOf(c, s, e);
    var x := s.entries[e];
    if x.job.GetJob? {
      FinalState(c, x.job.content);
    } else {
      PutRounds(c, x.job.size);
    }
  }

  lemma EntryOf(c: Config, s: State, e: nat)
    requires Entries(c, s.entries, s.nextId) && e < |s.entries|
    ensures EntryInv(c, s.entries[e])
  {
    hide EntryInv;
  }
}
