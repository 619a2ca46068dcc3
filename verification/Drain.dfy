/** How much work a run does, and why the shutdown sequence always comes to its end. */
module Drain {
  import opened Bytes
  import opened Rounds
  import opened Queue
  import opened Server
  import opened Safety

  // ------------------------------------------------------------------ total work

  /** The rounds each request needs, finished or not. */
  ghost function Needed(c: Config): Entry -> nat {
    (x: Entry) => if c.Valid() && x.job.Bytes() <= U64_MAX then JobTotal(c, x.job) else 0
  }

  /** The rounds a request of that size needs whenever lines play no part. */
  function RoundsForSize(c: Config, bytes: nat): nat {
    if Bounded(c.policy) && c.quantum > 0 then Max(1, CeilDiv(bytes, c.quantum)) else 1
  }

  function BySize(c: Config): Entry -> nat {
    (x: Entry) => RoundsForSize(c, x.job.Bytes())
  }

  lemma {:induction false} SumOfAtMost(xs: seq<Entry>, f: Entry -> nat, g: Entry -> nat)
    requires forall i :: 0 <= i < |xs| ==> f(xs[i]) <= g(xs[i])
    ensures SumOf(xs, f) <= SumOf(xs, g)
  {
    if xs != [] {
      SumOfAtMost(xs[..|xs| - 1], f, g);
    }
  }

  /** When the server has stopped, the rounds given are at most the sum of what the requests need,
      and exactly that sum if no request failed. */
  lemma TotalWork(c: Config, n: nat, es: seq<Step>)
    requires c.Valid() && n >= 1 && Runs(c, Init(n), es) && End(c, Init(n), es).main.Stopped?
    ensures var s := End(c, Init(n), es);
            var needed := SumOf(s.entries, Needed(c));
            && s.slices <= needed
            && ((forall e :: 0 <= e < |s.entries| ==> !s.entries[e].status.Failed?) ==> s.slices == needed)
  {
    InitInv(c, n);
    RunKeepsInv(c, Init(n), es);
    ShutdownLosesNothing(c, n, es);
    var s := End(c, Init(n), es);
    hide Runs, End, JobInv;
    SumOfAtMost(s.entries, ROUNDS_TAKEN, Needed(c));
    if forall e :: 0 <= e < |s.entries| ==> !s.entries[e].status.Failed? {
      SumOfAtMost(s.entries, Needed(c), ROUNDS_TAKEN);
    }
  }

  /** Under drr, fcfs and sjf the line structure of the files plays no part: a failure-free run gives
      each GET and each PUT `max(1, ceil(bytes / Q))` rounds under drr, and one otherwise,
      whatever the interleaving of the workers. */
  lemma TotalWorkBySize(c: Config, n: nat, es: seq<Step>)
    requires c.Valid() && !c.policy.Rr? && n >= 1 && Runs(c, Init(n), es) && End(c, Init(n), es).main.Stopped?
    requires forall e :: 0 <= e < |End(c, Init(n), es).entries| ==> !End(c, Init(n), es).entries[e].status.Failed?
    ensures var s := End(c, Init(n), es);
            s.slices == SumOf(s.entries, BySize(c))
  {
    InitInv(c, n);
    RunKeepsInv(c, Init(n), es);
    TotalWork(c, n, es);
    var s := End(c, Init(n), es);
    hide Runs, End;
    forall i | 0 <= i < |s.entries|
      ensures Needed(c)(s.entries[i]) == BySize(c)(s.entries[i])
    {
      assert EntryInv(c, s.entries[i]);
      JobTotalBySize(c, s.entries[i].job);
    }
    SumOfAtMost(s.entries, Needed(c), BySize(c));
    SumOfAtMost(s.entries, BySize(c), Needed(c));
  }

  lemma JobTotalBySize(c: Config, j: Job)
    requires c.Valid() && !c.policy.Rr? && j.Bytes() <= U64_MAX
    ensures JobTotal(c, j) == RoundsForSize(c, j.Bytes())
  {
    if c.policy.Drr? {
      DrrJobTotal(c, j);
    } else if j.GetJob? {
      UnboundedTotal(c, j.content);
    } else {
      PutRounds(c, j.size);
    }
  }

  // ------------------------------------------------------------------ the drain ends

  /** Rounds still to be given to an unfinished request. */
  ghost function Left(c: Config): Entry -> nat {
    (x: Entry) => if x.status.Live? && JobInv(c, x.job) then JobLeft(c, x.job) else 0
  }

  function Rank(w: Worker): nat {
    match w
    case Exited => 0
    case Serving(_) => 1
    case Ready => 2
    case Requeueing(_) => 3
  }

  function Ranks(ws: seq<Worker>): nat {
    if ws == [] then 0 else Ranks(ws[..|ws| - 1]) + Rank(ws[|ws| - 1])
  }

  lemma {:induction false} RanksUpdate(ws: seq<Worker>, i: nat, v: Worker)
    requires i < |ws|
    ensures Ranks(ws[i := v]) == Ranks(ws) - Rank(ws[i]) + Rank(v)
  {
    var n := |ws| - 1;
    if i == n {
      assert ws[i := v][..n] == ws[..n];
    } else {
      RanksUpdate(ws[..n], i, v);
      assert ws[i := v][..n] == ws[..n][i := v];
    }
  }

  /** Every step of a draining server makes this smaller, whether or not its round sends anything. */
  ghost function Measure(c: Config, s: State): nat {
    4 * SumOf(s.entries, Left(c)) + Ranks(s.workers) + (if s.main.JoiningWorkers? then 1 else 0)
  }

  lemma SliceShrinks(c: Config, s: State, w: nat)
    requires Enabled(c, s, Slice(w)) && Unfinished(s, s.workers[w].entry)
    ensures Measure(c, Do(c, s, Slice(w))) < Measure(c, s)
  {
    hide SumOf, Ranks, Serve, JobLeft, JobTotal, Rank, JobInv;
    var x := s.workers[w].entry;
    var t := Do(c, s, Slice(w));
    ServeStep(c, s.entries[x].job);
    SumOfUpdate(s.entries, Left(c), x, t.entries[x]);
    RanksUpdate(s.workers, w, t.workers[w]);
    RankValues(x);
  }

  lemma RankValues(x: nat)
    ensures Rank(Exited) == 0 && Rank(Serving(x)) == 1 && Rank(Ready) == 2 && Rank(Requeueing(x)) == 3
  {
  }

  lemma FailureShrinks(c: Config, s: State, w: nat)
    requires Enabled(c, s, SliceFails(w)) && Unfinished(s, s.workers[w].entry)
    requires JobInv(c, s.entries[s.workers[w].entry].job)
    ensures Measure(c, Do(c, s, SliceFails(w))) < Measure(c, s)
  {
    var x := s.workers[w].entry;
    var t := Do(c, s, SliceFails(w));
    SumOfUpdate(s.entries, Left(c), x, t.entries[x]);
    RanksUpdate(s.workers, w, t.workers[w]);
  }

  lemma WorkerShrinks(c: Config, s: State, e: Step)
    requires Enabled(c, s, e) && (e.Pop? || e.Exit? || e.Requeue?)
    ensures Measure(c, Do(c, s, e)) < Measure(c, s) && Do(c, s, e).shuttingDown == s.shuttingDown
  {
    hide SumOf, Serve, PickIndex, QueueSizes, Without;
    RanksUpdate(s.workers, e.w, Do(c, s, e).workers[e.w]);
  }

  function AcceptorRank(a: Acceptor): nat {
    match a
    case Returned => 0
    case Waiting => 1
    case Counted => 6
    case Accepted => 7
  }

  function AdmissionRank(a: Admission): nat {
    match a
    case Gone => 0
    case Leaving => 1
    case Built(_) => 2
    case Reading => 3
  }

  function AdmissionRanks(ads: seq<Admission>): nat {
    if ads == [] then 0 else AdmissionRanks(ads[..|ads| - 1]) + AdmissionRank(ads[|ads| - 1])
  }

  function MainRank(m: MainPhase): nat {
    match m
    case Polling => 4
    case JoiningAcceptor => 3
    case AwaitingAdmissions => 2
    case JoiningWorkers => 1
    case Stopped => 0
  }

  /** What is left of the acceptor's, the admissions' and main's own work. */
  function Opening(s: State): nat {
    AcceptorRank(s.acceptor) + AdmissionRanks(s.admissions) + MainRank(s.main)
  }

  lemma {:induction false} AdmissionRanksUpdate(ads: seq<Admission>, i: nat, v: Admission)
    requires i < |ads|
    ensures AdmissionRanks(ads[i := v]) == AdmissionRanks(ads) - AdmissionRank(ads[i]) + AdmissionRank(v)
  {
    var n := |ads| - 1;
    if i == n {
      assert ads[i := v][..n] == ads[..n];
    } else {
      AdmissionRanksUpdate(ads[..n], i, v);
      assert ads[i := v][..n] == ads[..n][i := v];
    }
  }

  /** Either some thread other than a worker is nearer its end, or a worker is nearer its own. */
  ghost predicate Nearer(c: Config, s: State, t: State) {
    Opening(t) < Opening(s) || (Opening(t) == Opening(s) && Measure(c, t) < Measure(c, s))
  }

  lemma OpeningKept(c: Config, s: State, e: Step)
    requires Enabled(c, s, e) && WorkerStep(e)
    ensures Opening(Do(c, s, e)) == Opening(s)
    ensures Do(c, s, e).main == s.main && Do(c, s, e).shuttingDown == s.shuttingDown
  {
    hide Serve, SumOf;
  }

  lemma ServiceStep(c: Config, s: State, e: Step)
    requires Inv(c, s) && Enabled(c, s, e) && WorkerStep(e)
    ensures Nearer(c, s, Do(c, s, e)) && Opening(Do(c, s, e)) == Opening(s)
    ensures Do(c, s, e).main == s.main && Do(c, s, e).shuttingDown == s.shuttingDown
  {
    OpeningKept(c, s, e);
    if e.Slice? || e.SliceFails? {
      HeldIsUnfinished(s, e.w);
      assert EntryInv(c, s.entries[s.workers[e.w].entry]);
      hide Placed, Logged, Control, Measure, Do, Opening;
      if e.Slice? { SliceShrinks(c, s, e.w); } else { FailureShrinks(c, s, e.w); }
    } else {
      hide Inv, Measure, Do, Opening;
      WorkerShrinks(c, s, e);
    }
  }

  lemma DrainStep(c: Config, s: State, e: Step)
    requires Inv(c, s) && s.shuttingDown && Enabled(c, s, e)
    ensures Do(c, s, e).shuttingDown
    ensures if e.Signal? then Measure(c, Do(c, s, e)) == Measure(c, s) else Measure(c, Do(c, s, e)) < Measure(c, s)
  {
    if WorkerStep(e) {
      hide Control, Placed, Logged, Measure, Do, Opening;
      ServiceStep(c, s, e);
    } else {
      hide Placed, Logged, Entries;
      if AdmissionStep(e) && !e.Spawn? {
        OngoingPositive(s.admissions, e.a);
      }
    }
  }

  function Events(es: seq<Step>): nat
    decreases |es|
  {
    if es == [] then 0 else (if es[0].Signal? then 0 else 1) + Events(es[1..])
  }

  /** No execution of a draining server is longer than its measure. */
  lemma {:induction false} DrainIsBounded(c: Config, s: State, es: seq<Step>)
    requires Inv(c, s) && s.shuttingDown && Runs(c, s, es)
    ensures Events(es) + Measure(c, End(c, s, es)) <= Measure(c, s)
    decreases |es|
  {
    hide Inv, Do, Enabled, Measure;
    if es != [] {
      StepKeepsInv(c, s, es[0]);
      DrainStep(c, s, es[0]);
      DrainIsBounded(c, Do(c, s, es[0]), es[1..]);
    }
  }

  lemma {:induction false} SomeoneAdmitting(ads: seq<Admission>) returns (a: nat)
    requires Ongoing(ads) > 0
    ensures a < |ads| && !ads[a].Gone?
  {
    var n := |ads| - 1;
    if ads[n].Gone? {
      a := SomeoneAdmitting(ads[..n]);
    } else {
      a := n;
    }
  }

  lemma SomeoneWorking(ws: seq<Worker>) returns (w: nat)
    requires Remaining(ws) > 0
    ensures w < |ws| && !ws[w].Exited?
  {
    RemainingAll(ws);
    w :| 0 <= w < |ws| && !ws[w].Exited?;
  }

  /** Shutdown never gets stuck: once the signal is in and until the server has stopped, some thread
      can take a step that is neither another signal nor a new connection. */
  lemma ShutdownNeverStuck(c: Config, s: State) returns (e: Step)
    requires Inv(c, s) && s.signalled && !s.main.Stopped?
    ensures Enabled(c, s, e) && !e.Signal? && !e.Accept?
    ensures WorkerStep(e) ==> s.main.JoiningWorkers? && Remaining(s.workers) > 0
  {
    match s.main
    case Polling => e := MainSeesSignal;
    case JoiningAcceptor =>
      e := match s.acceptor
        case Waiting => AcceptFails
        case Accepted => CountUp
        case Counted => Spawn
        case Returned => JoinAcceptor;
    case AwaitingAdmissions =>
      if s.active == 0 {
        e := CloseQueue;
      } else {
        var a := SomeoneAdmitting(s.admissions);
        e := match s.admissions[a]
          case Reading => Reject(a, false)
          case Built(_) => Enqueue(a)
          case _ => Leave(a);
      }
    case JoiningWorkers =>
      if Remaining(s.workers) == 0 {
        RemainingAll(s.workers);
        e := JoinWorkers;
      } else {
        var w := SomeoneWorking(s.workers);
        e := WorkersNext(c, s, w);
      }
  }

  lemma WorkersNext(c: Config, s: State, w: nat) returns (e: Step)
    requires Inv(c, s) && s.shuttingDown && w < |s.workers| && !s.workers[w].Exited?
    ensures Enabled(c, s, e) && (e == Pop(w) || e == Exit(w) || e == Slice(w) || e == Requeue(w))
  {
    match s.workers[w]
    case Ready =>
      if s.queue == [] {
        e := Exit(w);
      } else {
        forall i | 0 <= i < |s.queue|
          ensures s.queue[i] < |s.entries|
        {
          QueuedIsUnfinished(s, i);
        }
        e := Pop(w);
      }
    case Serving(x) =>
      HeldIsUnfinished(s, w);
      assert EntryInv(c, s.entries[x]);
      e := Slice(w);
    case Requeueing(_) => e := Requeue(w);
  }

  /** So an execution that cannot go on has reached the last join. */
  lemma DrainEndsStopped(c: Config, n: nat, es: seq<Step>)
    requires c.Valid() && n >= 1 && Runs(c, Init(n), es) && End(c, Init(n), es).signalled
    requires forall e :: Enabled(c, End(c, Init(n), es), e) ==> e.Signal? || e.Accept?
    ensures End(c, Init(n), es).main.Stopped?
  {
    InitInv(c, n);
    RunKeepsInv(c, Init(n), es);
    if !End(c, Init(n), es).main.Stopped? {
      var e := ShutdownNeverStuck(c, End(c, Init(n), es));
    }
  }

  // ------------------------------------------------------------------ the whole shutdown

  lemma OpeningStep(c: Config, s: State, e: Step)
    requires !s.main.Polling? && Enabled(c, s, e) && !e.Signal?
    requires !WorkerStep(e)
    ensures Opening(Do(c, s, e)) < Opening(s) && !Do(c, s, e).main.Polling?
  {
    if AdmissionStep(e) && !e.Spawn? {
      AdmissionRanksUpdate(s.admissions, e.a, Do(c, s, e).admissions[e.a]);
    } else if e.Spawn? {
      assert (s.admissions + [Reading])[..|s.admissions|] == s.admissions;
    }
  }

  /** From the moment main has seen the signal, every step but another signal brings the stop nearer. */
  lemma ShutdownStep(c: Config, s: State, e: Step)
    requires Inv(c, s) && !s.main.Polling? && Enabled(c, s, e) && !e.Signal?
    ensures Nearer(c, s, Do(c, s, e)) && !Do(c, s, e).main.Polling?
  {
    hide Inv, Enabled, Do, Measure;
    if WorkerStep(e) {
      ServiceStep(c, s, e);
    } else {
      OpeningStep(c, s, e);
    }
  }

  /** No shutdown goes on for ever: in every endless run in which main has seen the signal, another
      signal arrives sooner or later. With `ShutdownNeverStuck`, a server that gets one signal stops. */
  lemma {:induction false} ShutdownEnds(c: Config, run: nat -> State, step: nat -> Step, k: nat)
    requires forall i: nat :: Enabled(c, run(i), step(i)) && run(i + 1) == Do(c, run(i), step(i))
    requires Inv(c, run(k)) && !run(k).main.Polling?
    ensures exists i: nat :: k <= i && step(i).Signal?
    decreases Opening(run(k)), Measure(c, run(k))
  {
    hide Inv, Enabled, Do, Measure, Opening;
    if !step(k).Signal? {
      assert Enabled(c, run(k), step(k));
      StepKeepsInv(c, run(k), step(k));
      ShutdownStep(c, run(k), step(k));
      ShutdownEnds(c, run, step, k + 1);
    }
  }
}
