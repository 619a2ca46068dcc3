/** The life cycle of the server: acceptor, admissions, workers, the queue and shutdown, as a
    transition system over any number of threads. A worker's step on a request is the round
    that `Rounds` defines, and the next request is the one the policy picks. */
module Server {
  import opened Bytes
  import opened Rounds
  import opened Queue

  const PUT_MAX: nat := 0x4000_0000

  // ------------------------------------------------------------------ requests

  datatype Job =
    | GetJob(content: string, g: GetState)
    | PutJob(size: nat, off: nat, rounds: nat)
  {
    function Bytes(): nat {
      if GetJob? then |content| else size
    }

    function Rounds(): nat {
      if GetJob? then g.rounds else rounds
    }

    function Offset(): nat {
      if GetJob? then g.off else off
    }

    /** Only a GET can forfeit bytes. */
    function Forfeited(): nat {
      if GetJob? then g.forfeited else 0
    }
  }

  /** What admission hands to the queue. */
  predicate NewJob(j: Job) {
    match j
    case GetJob(content, g) => |content| <= U64_MAX && g == START
    case PutJob(size, off, rounds) => size <= PUT_MAX && off == 0 && rounds == 0
  }

  /** A request that is waiting for a round. */
  ghost predicate JobInv(c: Config, j: Job) {
    match j
    case GetJob(content, g) => GetInv(c, content, g)
    case PutJob(size, off, _) => c.Valid() && off <= size && size <= PUT_MAX
  }

  function JobLeft(c: Config, j: Job): (n: nat)
    requires JobInv(c, j)
    ensures n >= 1
  {
    match j
    case GetJob(content, g) => RoundsLeft(c, content, g)
    case PutJob(size, off, _) => PutLeft(c, size - off)
  }

  /** The rounds a request needs from start to end. */
  function JobTotal(c: Config, j: Job): nat
    requires c.Valid() && j.Bytes() <= U64_MAX
  {
    match j
    case GetJob(content, _) => TotalRounds(c, content)
    case PutJob(size, _, _) => PutLeft(c, size)
  }

  function Serve(c: Config, j: Job): (Job, Outcome)
    requires JobInv(c, j)
  {
    match j
    case GetJob(content, g) =>
      var (g', o) := GetRound(c, content, g);
      (GetJob(content, g'), o)
    case PutJob(size, off, rounds) =>
      var off' := off + PutTake(c, size - off);
      (PutJob(size, off', rounds + 1), if off' < size then Preempted else Done)
  }

  lemma NewJobInv(c: Config, j: Job)
    requires c.Valid() && NewJob(j)
    ensures JobInv(c, j) && JobLeft(c, j) == JobTotal(c, j) && j.Rounds() == 0 && OnCourse(c, j)
  {
    if j.GetJob? {
      StartInv(c, j.content);
    }
  }

  lemma ServeStep(c: Config, j: Job)
    requires JobInv(c, j)
    ensures var (j', o) := Serve(c, j);
            && j'.Bytes() == j.Bytes() <= U64_MAX && j'.Rounds() == j.Rounds() + 1
            && JobTotal(c, j') == JobTotal(c, j)
            && (OnCourse(c, j) ==> OnCourse(c, j'))
            && (o.Preempted? ==> JobInv(c, j') && JobLeft(c, j') == JobLeft(c, j) - 1)
            && (o.Done? ==> JobLeft(c, j) == 1 && j'.Offset() == j.Bytes())
  {
    hide After, GetRound, TotalRounds;
    if j.GetJob? {
      GetRoundKeepsInv(c, j.content, j.g);
      OneMoreRound(c, j.content, j.g.rounds);
    }
  }

  /** Under drr the work a request needs depends on its size alone. */
  lemma DrrJobTotal(c: Config, j: Job)
    requires c.Valid() && c.policy.Drr? && j.Bytes() <= U64_MAX
    ensures JobTotal(c, j) == Max(1, CeilDiv(j.Bytes(), c.quantum))
  {
    if j.GetJob? {
      DrrTotal(c, j.content);
    } else {
      PutRounds(c, j.size);
    }
  }

  // ------------------------------------------------------------------ state

  datatype Status = Live | Succeeded | Failed

  datatype Entry = Entry(id: nat, job: Job, status: Status)

  /** The acceptor thread: it counts an admission before it starts the admission's thread. */
  datatype Acceptor = Waiting | Accepted | Counted | Returned

  datatype Admission = Reading | Built(entry: nat) | Leaving | Gone

  datatype Worker = Ready | Serving(entry: nat) | Requeueing(entry: nat) | Exited

  datatype MainPhase = Polling | JoiningAcceptor | AwaitingAdmissions | JoiningWorkers | Stopped

  datatype Row = Row(entry: nat, id: nat, bytes: nat, rounds: nat, forfeited: nat)

  datatype State = State(
    signalled: bool,
    main: MainPhase,
    acceptor: Acceptor,
    admissions: seq<Admission>,
    active: int,              // g_active_admissions
    nextId: nat,
    entries: seq<Entry>,      // every request ever built; the other fields refer to it by index
    queue: seq<nat>,
    shuttingDown: bool,
    workers: seq<Worker>,
    finished: seq<nat>,       // requests released, in order
    csv: seq<Row>,
    requestsServed: nat,
    bytesServed: nat,
    slices: nat)              // rounds given so far

  datatype Step =
    | Signal
    | MainSeesSignal
    | JoinAcceptor
    | CloseQueue
    | JoinWorkers
    | Accept
    | AcceptFails
    | CountUp
    | Spawn
    | SpawnFails
    | Reject(a: nat, takesId: bool)
    | Build(a: nat, job: Job)
    | Enqueue(a: nat)
    | Leave(a: nat)
    | Pop(w: nat)
    | Exit(w: nat)
    | Slice(w: nat)
    | SliceFails(w: nat)
    | Requeue(w: nat)

  function QueueSizes(entries: seq<Entry>, q: seq<nat>): (s: seq<nat>)
    requires forall i :: 0 <= i < |q| ==> q[i] < |entries|
    ensures |s| == |q|
  {
    seq(|q|, (i: nat) requires i < |q| => entries[q[i]].job.Bytes())
  }

  ghost predicate Enabled(c: Config, s: State, e: Step) {
    match e
    case Signal => true
    case MainSeesSignal => s.main.Polling? && s.signalled
    case JoinAcceptor => s.main.JoiningAcceptor? && s.acceptor.Returned?
    case CloseQueue => s.main.AwaitingAdmissions? && s.active == 0
    case JoinWorkers => s.main.JoiningWorkers? && forall w :: 0 <= w < |s.workers| ==> s.workers[w].Exited?
    case Accept => s.acceptor.Waiting? && s.main.Polling?
    case AcceptFails => s.acceptor.Waiting? && s.signalled
    case CountUp => s.acceptor.Accepted?
    case Spawn => s.acceptor.Counted?
    case SpawnFails => s.acceptor.Counted?
    case Reject(a, _) => a < |s.admissions| && s.admissions[a].Reading?
    case Build(a, job) => a < |s.admissions| && s.admissions[a].Reading? && NewJob(job)
    case Enqueue(a) => a < |s.admissions| && s.admissions[a].Built?
    case Leave(a) => a < |s.admissions| && s.admissions[a].Leaving?
    case Pop(w) => w < |s.workers| && s.workers[w].Ready? && s.queue != []
                   && forall i :: 0 <= i < |s.queue| ==> s.queue[i] < |s.entries|
    case Exit(w) => w < |s.workers| && s.workers[w].Ready? && s.queue == [] && s.shuttingDown
    case Slice(w) => w < |s.workers| && s.workers[w].Serving? && s.workers[w].entry < |s.entries|
                     && JobInv(c, s.entries[s.workers[w].entry].job)
    case SliceFails(w) => w < |s.workers| && s.workers[w].Serving? && s.workers[w].entry < |s.entries|
    case Requeue(w) => w < |s.workers| && s.workers[w].Requeueing?
  }

  /** The round of a failed slice is counted; the request keeps the rest of its state. */
  function CountRound(j: Job): Job {
    match j
    case GetJob(f, g) => GetJob(f, g.(rounds := g.rounds + 1))
    case PutJob(size, off, rounds) => PutJob(size, off, rounds + 1)
  }

  /** A request leaves the server: released, and if it succeeded logged and counted. */
  function Finish(s: State, w: nat, e: nat, job: Job, status: Status): State
    requires w < |s.workers| && e < |s.entries|
  {
    var t := s.(entries := s.entries[e := s.entries[e].(job := job, status := status)],
             workers := s.workers[w := Ready], finished := s.finished + [e], slices := s.slices + 1);
    if status.Succeeded? then
      t.(csv := s.csv + [Row(e, s.entries[e].id, job.Bytes(), job.Rounds(), job.Forfeited())],
      requestsServed := s.requestsServed + 1, bytesServed := s.bytesServed + job.Bytes())
    else t
  }

  function Do(c: Config, s: State, e: Step): State
    requires Enabled(c, s, e)
  {
    match e
    case Signal => s.(signalled := true)
    case MainSeesSignal => s.(main := JoiningAcceptor)
    case JoinAcceptor => s.(main := AwaitingAdmissions)
    case CloseQueue => s.(main := JoiningWorkers, shuttingDown := true)
    case JoinWorkers => s.(main := Stopped)
    case Accept => s.(acceptor := Accepted)
    case AcceptFails => s.(acceptor := Returned)
    case CountUp => s.(acceptor := Counted, active := s.active + 1)
    case Spawn => s.(acceptor := Waiting, admissions := s.admissions + [Reading])
    case SpawnFails => s.(acceptor := Waiting, active := s.active - 1)
    case Reject(a, takesId) =>
      s.(admissions := s.admissions[a := Leaving], nextId := if takesId then s.nextId + 1 else s.nextId)
    case Build(a, job) =>
      s.(admissions := s.admissions[a := Built(|s.entries|)], nextId := s.nextId + 1,
      entries := s.entries + [Entry(s.nextId, job, Live)])
    case Enqueue(a) =>
      s.(admissions := s.admissions[a := Leaving], queue := s.queue + [s.admissions[a].entry])
    case Leave(a) => s.(admissions := s.admissions[a := Gone], active := s.active - 1)
    case Pop(w) =>
      var k := PickIndex(c.policy, QueueSizes(s.entries, s.queue));
      s.(workers := s.workers[w := Serving(s.queue[k])], queue := Without(s.queue, k))
    case Exit(w) => s.(workers := s.workers[w := Exited])
    case Slice(w) =>
      var e := s.workers[w].entry;
      var (job, o) := Serve(c, s.entries[e].job);
      if o.Preempted? then
        s.(entries := s.entries[e := s.entries[e].(job := job)],
        workers := s.workers[w := Requeueing(e)], slices := s.slices + 1)
      else Finish(s, w, e, job, Succeeded)
    case SliceFails(w) =>
      var e := s.workers[w].entry;
      Finish(s, w, e, CountRound(s.entries[e].job), Failed)
    case Requeue(w) =>
      s.(workers := s.workers[w := Ready], queue := s.queue + [s.workers[w].entry])
  }

  // ------------------------------------------------------------------ counting threads and places

  /** Whether a thread holds request `e`. */
  function WorkerHas(w: Worker, e: nat): nat {
    if (w.Serving? || w.Requeueing?) && w.entry == e then 1 else 0
  }

  function AdmissionHas(a: Admission, e: nat): nat {
    if a.Built? && a.entry == e then 1 else 0
  }

  function Held(ws: seq<Worker>, e: nat): nat {
    if ws == [] then 0 else Held(ws[..|ws| - 1], e) + WorkerHas(ws[|ws| - 1], e)
  }

  function Building(ads: seq<Admission>, e: nat): nat {
    if ads == [] then 0 else Building(ads[..|ads| - 1], e) + AdmissionHas(ads[|ads| - 1], e)
  }

  function Ongoing(ads: seq<Admission>): nat {
    if ads == [] then 0 else Ongoing(ads[..|ads| - 1]) + (if ads[|ads| - 1].Gone? then 0 else 1)
  }

  function Remaining(ws: seq<Worker>): nat {
    if ws == [] then 0 else Remaining(ws[..|ws| - 1]) + (if ws[|ws| - 1].Exited? then 0 else 1)
  }

  lemma {:induction false} HeldUpdate(ws: seq<Worker>, i: nat, v: Worker, e: nat)
    requires i < |ws|
    ensures Held(ws[i := v], e) == Held(ws, e) - WorkerHas(ws[i], e) + WorkerHas(v, e)
  {
    var n := |ws| - 1;
    if i == n {
      assert ws[i := v][..n] == ws[..n];
    } else {
      HeldUpdate(ws[..n], i, v, e);
      assert ws[i := v][..n] == ws[..n][i := v];
    }
  }

  lemma {:induction false} RemainingUpdate(ws: seq<Worker>, i: nat, v: Worker)
    requires i < |ws|
    ensures Remaining(ws[i := v]) == Remaining(ws) - (if ws[i].Exited? then 0 else 1) + (if v.Exited? then 0 else 1)
  {
    var n := |ws| - 1;
    if i == n {
      assert ws[i := v][..n] == ws[..n];
    } else {
      RemainingUpdate(ws[..n], i, v);
      assert ws[i := v][..n] == ws[..n][i := v];
    }
  }

  lemma WorkerUpdate(ws: seq<Worker>, i: nat, v: Worker)
    requires i < |ws|
    ensures forall e: nat :: Held(ws[i := v], e) == Held(ws, e) - WorkerHas(ws[i], e) + WorkerHas(v, e)
    ensures Remaining(ws[i := v]) == Remaining(ws) - (if ws[i].Exited? then 0 else 1) + (if v.Exited? then 0 else 1)
  {
    RemainingUpdate(ws, i, v);
    forall e: nat
      ensures Held(ws[i := v], e) == Held(ws, e) - WorkerHas(ws[i], e) + WorkerHas(v, e)
    {
      HeldUpdate(ws, i, v, e);
    }
  }

  lemma {:induction false} BuildingUpdate(ads: seq<Admission>, i: nat, v: Admission, e: nat)
    requires i < |ads|
    ensures Building(ads[i := v], e) == Building(ads, e) - AdmissionHas(ads[i], e) + AdmissionHas(v, e)
  {
    var n := |ads| - 1;
    if i == n {
      assert ads[i := v][..n] == ads[..n];
    } else {
      BuildingUpdate(ads[..n], i, v, e);
      assert ads[i := v][..n] == ads[..n][i := v];
    }
  }

  lemma {:induction false} OngoingUpdate(ads: seq<Admission>, i: nat, v: Admission)
    requires i < |ads|
    ensures Ongoing(ads[i := v]) == Ongoing(ads) - (if ads[i].Gone? then 0 else 1) + (if v.Gone? then 0 else 1)
  {
    var n := |ads| - 1;
    if i == n {
      assert ads[i := v][..n] == ads[..n];
    } else {
      OngoingUpdate(ads[..n], i, v);
      assert ads[i := v][..n] == ads[..n][i := v];
    }
  }

  lemma AdmissionUpdate(ads: seq<Admission>, i: nat, v: Admission)
    requires i < |ads|
    ensures forall e: nat :: Building(ads[i := v], e) == Building(ads, e) - AdmissionHas(ads[i], e) + AdmissionHas(v, e)
    ensures Ongoing(ads[i := v]) == Ongoing(ads) - (if ads[i].Gone? then 0 else 1) + (if v.Gone? then 0 else 1)
  {
    OngoingUpdate(ads, i, v);
    forall e: nat
      ensures Building(ads[i := v], e) == Building(ads, e) - AdmissionHas(ads[i], e) + AdmissionHas(v, e)
    {
      BuildingUpdate(ads, i, v, e);
    }
  }

  lemma AdmissionAppend(ads: seq<Admission>)
    ensures forall e: nat :: Building(ads + [Reading], e) == Building(ads, e)
    ensures Ongoing(ads + [Reading]) == Ongoing(ads) + 1
  {
    assert (ads + [Reading])[..|ads|] == ads;
  }

  lemma {:induction false} RemainingAll(ws: seq<Worker>)
    ensures (forall i :: 0 <= i < |ws| ==> !ws[i].Exited?) ==> Remaining(ws) == |ws|
    ensures (forall i :: 0 <= i < |ws| ==> ws[i].Exited?) ==> Remaining(ws) == 0
    ensures Remaining(ws) == 0 ==> forall i :: 0 <= i < |ws| ==> ws[i].Exited?
  {
    if ws != [] {
      RemainingAll(ws[..|ws| - 1]);
    }
  }

  lemma {:induction false} NobodyHolds(ws: seq<Worker>, e: nat)
    requires Remaining(ws) == 0
    ensures Held(ws, e) == 0
  {
    if ws != [] {
      NobodyHolds(ws[..|ws| - 1], e);
    }
  }

  lemma {:induction false} NobodyBuilds(ads: seq<Admission>, e: nat)
    requires Ongoing(ads) == 0
    ensures Building(ads, e) == 0
  {
    if ads != [] {
      NobodyBuilds(ads[..|ads| - 1], e);
    }
  }

  lemma {:induction false} OngoingPositive(ads: seq<Admission>, i: nat)
    requires i < |ads| && !ads[i].Gone?
    ensures Ongoing(ads) > 0
  {
    if i < |ads| - 1 {
      OngoingPositive(ads[..|ads| - 1], i);
    }
  }

  function Queued(q: seq<nat>, e: nat): nat {
    multiset(q)[e]
  }

  /** In how many places request `e` is: the queue, a worker's hands, an admission's hands. */
  function Places(s: State, e: nat): nat {
    Queued(s.queue, e) + Held(s.workers, e) + Building(s.admissions, e)
  }

  // ------------------------------------------------------------------ the invariant

  predicate Unfinished(s: State, e: nat) {
    e < |s.entries| && s.entries[e].status.Live?
  }

  /** The counters and phases that the drain protocol rests on. */
  ghost predicate Control(s: State) {
    && s.active == Ongoing(s.admissions) + (if s.acceptor.Counted? then 1 else 0)
    && (s.main.AwaitingAdmissions? || s.main.JoiningWorkers? || s.main.Stopped? ==> s.acceptor.Returned?)
    && (s.shuttingDown <==> s.main.JoiningWorkers? || s.main.Stopped?)
    && (s.shuttingDown ==> s.active == 0)
    && (forall w :: 0 <= w < |s.workers| && s.workers[w].Exited? ==> s.shuttingDown)
    && (s.main.Stopped? ==> Remaining(s.workers) == 0)
    && |s.workers| > 0
    && (s.queue != [] ==> Remaining(s.workers) > 0)
  }

  /** An unfinished request is in exactly one place; a finished one has been released exactly once
      and is in none. */
  ghost predicate PlacedAt(s: State, e: nat) {
    && Places(s, e) == (if Unfinished(s, e) then 1 else 0)
    && multiset(s.finished)[e] == (if e < |s.entries| && !Unfinished(s, e) then 1 else 0)
  }

  ghost predicate Placed(s: State) {
    forall e: nat :: PlacedAt(s, e)
  }

  /** A GET that has not failed is where its rounds have brought it. */
  predicate OnCourse(c: Config, j: Job) {
    j.GetJob? ==> j.g == After(c, j.content, j.g.rounds)
  }

  /** A finished or failed request accounts for its rounds. */
  ghost predicate EntryInv(c: Config, x: Entry) {
    && c.Valid() && x.job.Bytes() <= U64_MAX
    && (x.status.Failed? || OnCourse(c, x.job))
    && match x.status
       case Live => JobInv(c, x.job) && x.job.Rounds() + JobLeft(c, x.job) == JobTotal(c, x.job)
       case Succeeded => x.job.Rounds() == JobTotal(c, x.job) && x.job.Offset() == x.job.Bytes()
       case Failed => 1 <= x.job.Rounds() <= JobTotal(c, x.job)
  }

  function SumOf(xs: seq<Entry>, f: Entry -> nat): nat {
    if xs == [] then 0 else SumOf(xs[..|xs| - 1], f) + f(xs[|xs| - 1])
  }

  lemma {:induction false} SumOfUpdate(xs: seq<Entry>, f: Entry -> nat, i: nat, v: Entry)
    requires i < |xs|
    ensures SumOf(xs[i := v], f) == SumOf(xs, f) - f(xs[i]) + f(v)
  {
    var n := |xs| - 1;
    if i == n {
      assert xs[i := v][..n] == xs[..n];
    } else {
      SumOfUpdate(xs[..n], f, i, v);
      assert xs[i := v][..n] == xs[..n][i := v];
    }
  }

  lemma SumOfAppend(xs: seq<Entry>, f: Entry -> nat, v: Entry)
    ensures SumOf(xs + [v], f) == SumOf(xs, f) + f(v)
  {
    assert (xs + [v])[..|xs|] == xs;
  }

  const ROUNDS_TAKEN: Entry -> nat := (x: Entry) => x.job.Rounds()
  const SERVED_COUNT: Entry -> nat := (x: Entry) => if x.status.Succeeded? then 1 else 0
  const SERVED_BYTES: Entry -> nat := (x: Entry) => if x.status.Succeeded? then x.job.Bytes() else 0

  function RowEntries(csv: seq<Row>): seq<nat> {
    if csv == [] then [] else RowEntries(csv[..|csv| - 1]) + [csv[|csv| - 1].entry]
  }

  /** The log holds each succeeded request once, and no other. */
  ghost predicate LoggedAt(s: State, e: nat) {
    multiset(RowEntries(s.csv))[e] == if e < |s.entries| && s.entries[e].status.Succeeded? then 1 else 0
  }

  /** A row carries the figures the request finished with. */
  ghost predicate RowTrue(s: State, r: Row) {
    && r.entry < |s.entries|
    && var x := s.entries[r.entry];
    r == Row(r.entry, x.id, x.job.Bytes(), x.job.Rounds(), x.job.Forfeited())
  }

  ghost predicate Counters(s: State) {
    && s.requestsServed == SumOf(s.entries, SERVED_COUNT) == |s.csv|
    && s.bytesServed == SumOf(s.entries, SERVED_BYTES)
    && s.slices == SumOf(s.entries, ROUNDS_TAKEN)
  }

  ghost predicate Logged(s: State) {
    && (forall e: nat :: LoggedAt(s, e))
    && (forall i :: 0 <= i < |s.csv| ==> RowTrue(s, s.csv[i]))
    && Counters(s)
  }

  ghost predicate Entries(c: Config, xs: seq<Entry>, nextId: nat) {
    && (forall e :: 0 <= e < |xs| ==> EntryInv(c, xs[e]) && xs[e].id < nextId)
    && (forall d, e :: 0 <= d < e < |xs| ==> xs[d].id < xs[e].id)
  }

  ghost predicate Inv(c: Config, s: State) {
    c.Valid() && Control(s) && Placed(s) && Logged(s) && Entries(c, s.entries, s.nextId)
  }

  function AllReady(n: nat): (ws: seq<Worker>)
    ensures |ws| == n
  {
    if n == 0 then [] else AllReady(n - 1) + [Ready]
  }

  lemma {:induction false} AllReadyHold(n: nat)
    ensures (forall e: nat :: Held(AllReady(n), e) == 0) && Remaining(AllReady(n)) == n
    ensures forall i :: 0 <= i < n ==> AllReady(n)[i].Ready?
  {
    if n > 0 {
      AllReadyHold(n - 1);
    }
  }

  /** A server just started with `n` workers. */
  function Init(n: nat): State {
    State(false, Polling, Waiting, [], 0, 1, [], [], false, AllReady(n), [], [], 0, 0, 0)
  }

  lemma InitInv(c: Config, n: nat)
    requires c.Valid() && n >= 1
    ensures Inv(c, Init(n))
  {
    AllReadyHold(n);
  }
}
