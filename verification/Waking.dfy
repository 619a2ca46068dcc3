/** The life cycle together with the mutex and condition variable of its queue: workers fall asleep in
    `next()` and are woken, and the drain still never sticks. */
module Waking {
  import opened Rounds
  import opened Queue
  import Server
  import opened Safety
  import Drain
  import M = Monitor

  /** `m.threads` holds the phase of each worker, and after the workers one thread for each push by an
      admission and one for the call that closes the queue. */
  datatype Both = Both(s: Server.State, m: M.State)

  datatype Move =
    | Quiet(e: Server.Step)       // a step outside the queue's methods
    | Take(w: nat)                // the wait condition holds and a request is picked
    | Quit(w: nat)                // the wait condition holds and the queue is empty and closed
    | Doze(w: nat)                // the wait condition does not hold
    | Back(w: nat)                // requeue
    | Arrive(a: nat)              // enqueue by an admission
    | Close                       // main closes the queue
    | Wake(call: M.Step)          // a notification, or a spurious wake-up

  predicate IsQuiet(e: Server.Step) {
    !e.Pop? && !e.Exit? && !e.Requeue? && !e.Enqueue? && !e.CloseQueue?
  }

  function Picked(c: Config, s: Server.State): (i: nat)
    requires s.queue != [] && forall i :: 0 <= i < |s.queue| ==> s.queue[i] < |s.entries|
    ensures i < |s.queue|
  {
    PickIndex(c.policy, Server.QueueSizes(s.entries, s.queue))
  }

  ghost predicate Enabled(c: Config, b: Both, v: Move) {
    match v
    case Quiet(e) => IsQuiet(e) && Server.Enabled(c, b.s, e)
    case Take(w) =>
      Server.Enabled(c, b.s, Server.Pop(w)) && b.m.items != [] && CanTest(b.m, w) && Picked(c, b.s) < |b.m.items|
    case Quit(w) => Server.Enabled(c, b.s, Server.Exit(w)) && b.m.items == [] && b.m.shuttingDown && CanTest(b.m, w)
    case Doze(w) =>
      w < |b.s.workers| && b.s.workers[w].Ready? && b.m.items == [] && !b.m.shuttingDown && CanTest(b.m, w)
    case Back(w) => Server.Enabled(c, b.s, Server.Requeue(w)) && w < |b.m.threads| && b.m.threads[w].Outside?
    case Arrive(a) => Server.Enabled(c, b.s, Server.Enqueue(a))
    case Close => Server.Enabled(c, b.s, Server.CloseQueue)
    case Wake(e) => (e.NotifyOne? || e.NotifyNone? || e.Spurious? || e.NotifyAll?) && M.Enabled(b.m, e)
  }

  predicate CanTest(m: M.State, w: nat) {
    w < |m.threads| && (m.threads[w].Outside? || m.threads[w].Woken?)
  }

  function Newcomer(m: M.State): M.State {
    m.(threads := m.threads + [M.Outside])
  }

  ghost function Do(c: Config, b: Both, v: Move): Both
    requires Enabled(c, b, v)
  {
    match v
    case Quiet(e) => b.(s := Server.Do(c, b.s, e))
    case Take(w) => Both(Server.Do(c, b.s, Server.Pop(w)), M.Do(b.m, M.Test(w, Picked(c, b.s))))
    case Quit(w) => Both(Server.Do(c, b.s, Server.Exit(w)), M.Do(b.m, M.Test(w, 0)))
    case Doze(w) => b.(m := M.Do(b.m, M.Test(w, 0)))
    case Back(w) => Both(Server.Do(c, b.s, Server.Requeue(w)), M.Do(b.m, M.Push(w, b.s.workers[w].entry)))
    case Arrive(a) =>
      Both(Server.Do(c, b.s, Server.Enqueue(a)), M.Do(Newcomer(b.m), M.Push(|b.m.threads|, b.s.admissions[a].entry)))
    case Close => Both(Server.Do(c, b.s, Server.CloseQueue), M.Do(Newcomer(b.m), M.SetFlag(|b.m.threads|)))
    case Wake(e) => b.(m := M.Do(b.m, e))
  }

  /** Both sides see the same queue, and a worker that is in one of its methods is between requests. */
  ghost predicate Linked(b: Both) {
    && b.m.items == b.s.queue && b.m.shuttingDown == b.s.shuttingDown
    && |b.s.workers| <= |b.m.threads|
    && forall w :: 0 <= w < |b.s.workers| && !b.m.threads[w].Outside? ==> b.s.workers[w].Ready?
  }

  ghost predicate Inv(c: Config, b: Both) {
    Server.Inv(c, b.s) && M.Inv(b.m) && Linked(b)
  }

  // ------------------------------------------------------------------ what every move keeps

  lemma NewcomerInv(m: M.State)
    requires M.Inv(m)
    ensures M.Inv(Newcomer(m))
  {
    var ps := m.threads + [M.Outside];
    assert ps[..|m.threads|] == m.threads;
  }

  /** The step of the life cycle in a move, if there is one. */
  function ServerPart(v: Move): (e: Server.Step)
    requires !v.Doze? && !v.Wake?
  {
    match v
    case Quiet(e) => e
    case Take(w) => Server.Pop(w)
    case Quit(w) => Server.Exit(w)
    case Back(w) => Server.Requeue(w)
    case Arrive(a) => Server.Enqueue(a)
    case Close => Server.CloseQueue
  }

  lemma ServerKept(c: Config, b: Both, v: Move)
    requires Server.Inv(c, b.s) && Enabled(c, b, v)
    ensures Server.Inv(c, Do(c, b, v).s)
  {
    if !v.Doze? && !v.Wake? {
      var e := ServerPart(v);
      assert Server.Enabled(c, b.s, e) && Do(c, b, v).s == Server.Do(c, b.s, e) by {
        hide Server.Inv, Server.Enabled, Server.Do, M.Do, M.Enabled;
      }
      hide *;
      StepKeepsInv(c, b.s, e);
    }
  }

  /** The step of the queue's monitor in a move, and the monitor it starts from. */
  ghost function MonitorPart(c: Config, b: Both, v: Move): (r: (M.State, M.Step))
    requires Enabled(c, b, v) && !v.Quiet?
  {
    match v
    case Take(w) => (b.m, M.Test(w, Picked(c, b.s)))
    case Quit(w) => (b.m, M.Test(w, 0))
    case Doze(w) => (b.m, M.Test(w, 0))
    case Back(w) => (b.m, M.Push(w, b.s.workers[w].entry))
    case Arrive(a) => (Newcomer(b.m), M.Push(|b.m.threads|, b.s.admissions[a].entry))
    case Close => (Newcomer(b.m), M.SetFlag(|b.m.threads|))
    case Wake(e) => (b.m, e)
  }

  lemma PartIsStep(c: Config, b: Both, v: Move)
    requires Enabled(c, b, v) && !v.Quiet?
    ensures var (m, e) := MonitorPart(c, b, v);
            (m == b.m || m == Newcomer(b.m)) && M.Enabled(m, e) && Do(c, b, v).m == M.Do(m, e)
  {
    hide Server.Do, Server.Serve, Server.JobInv, Picked, M.Count, M.WakeAll, M.Do;
  }

  lemma MonitorKept(c: Config, b: Both, v: Move)
    requires M.Inv(b.m) && Enabled(c, b, v)
    ensures M.Inv(Do(c, b, v).m)
  {
    if !v.Quiet? {
      var (m, e) := MonitorPart(c, b, v);
      NewcomerInv(b.m);
      PartIsStep(c, b, v);
      hide *;
      M.StepKeepsInv(m, e);
    } else {
      hide M.Inv, Server.Do, Server.Enabled;
    }
  }

  lemma {:induction false} AwakeStayOutside(ps: seq<M.Phase>)
    ensures forall i :: 0 <= i < |ps| ==> (M.WakeAll(ps)[i].Outside? <==> ps[i].Outside?)
  {
    if ps != [] {
      AwakeStayOutside(ps[..|ps| - 1]);
    }
  }

  lemma QuietLinked(c: Config, b: Both, e: Server.Step)
    requires Linked(b) && Enabled(c, b, Quiet(e))
    ensures Linked(Do(c, b, Quiet(e)))
  {
    hide Server.Serve, Server.JobInv, Picked;
  }

  lemma QueueLinked(c: Config, b: Both, v: Move)
    requires Linked(b) && Enabled(c, b, v) && (v.Take? || v.Quit? || v.Doze? || v.Back? || v.Arrive? || v.Close?)
    ensures Linked(Do(c, b, v))
  {
    hide Server.Serve, Server.JobInv, Server.QueueSizes, PickIndex;
  }

  lemma WakeLinked(c: Config, b: Both, e: M.Step)
    requires Linked(b) && Enabled(c, b, Wake(e))
    ensures Linked(Do(c, b, Wake(e)))
  {
    if e.NotifyAll? {
      AwakeStayOutside(b.m.threads[e.t := M.Outside]);
    }
    hide M.Count, M.WakeAll, Server.Enabled;
  }

  lemma MoveKeepsInv(c: Config, b: Both, v: Move)
    requires Inv(c, b) && Enabled(c, b, v)
    ensures Inv(c, Do(c, b, v))
  {
    ServerKept(c, b, v);
    MonitorKept(c, b, v);
    hide Server.Inv, M.Inv, Linked, Enabled, Do;
    match v
    case Quiet(e) => QuietLinked(c, b, e);
    case Wake(e) => WakeLinked(c, b, e);
    case _ => QueueLinked(c, b, v);
  }

  ghost predicate Runs(c: Config, b: Both, run: seq<Move>)
    decreases |run|
  {
    run == [] || (Enabled(c, b, run[0]) && Runs(c, Do(c, b, run[0]), run[1..]))
  }

  ghost function End(c: Config, b: Both, run: seq<Move>): Both
    requires Runs(c, b, run)
    decreases |run|
  {
    if run == [] then b else End(c, Do(c, b, run[0]), run[1..])
  }

  function Begin(n: nat): Both {
    Both(Server.Init(n), M.Init(n))
  }

  lemma {:induction false} FreshOutside(n: nat)
    ensures |M.Fresh(n)| == n && forall i :: 0 <= i < n ==> M.Fresh(n)[i].Outside?
  {
    if n > 0 {
      FreshOutside(n - 1);
    }
  }

  lemma BeginInv(c: Config, n: nat)
    requires c.Valid() && n >= 1
    ensures Inv(c, Begin(n))
  {
    Server.InitInv(c, n);
    M.FreshNotAsleep(n);
    FreshOutside(n);
    hide Server.Inv;
  }

  lemma {:induction false} RunKeepsInv(c: Config, b: Both, run: seq<Move>)
    requires Inv(c, b) && Runs(c, b, run)
    ensures Inv(c, End(c, b, run))
    decreases |run|
  {
    hide Inv, Enabled, Do;
    if run != [] {
      MoveKeepsInv(c, b, run[0]);
      RunKeepsInv(c, Do(c, b, run[0]), run[1..]);
    }
  }

  // ------------------------------------------------------------------ the drain never sticks

  /** Moves that the drain can wait for: not another signal or connection, not a spurious wake-up, not
      a worker falling asleep. */
  predicate Counts(v: Move) {
    match v
    case Quiet(e) => !e.Signal? && !e.Accept?
    case Wake(e) => !e.Spurious?
    case Doze(_) => false
    case _ => true
  }

  /** After the flag is set no worker sleeps unless a `notify_all` is still to come. */
  lemma WorkerMoves(c: Config, b: Both, w: nat) returns (v: Move)
    requires Inv(c, b) && b.s.shuttingDown && w < |b.s.workers| && !b.s.workers[w].Exited?
    ensures Enabled(c, b, v) && Counts(v)
  {
    var e := Drain.WorkersNext(c, b.s, w);
    hide Server.Inv, Server.Enabled, PickIndex, Server.QueueSizes, M.Inv, Linked, Enabled;
    assert w < |b.m.threads| by { LinkedLength(b); }
    if e.Slice? {
      v := QuietEnabled(c, b, e);
    } else if !CanTest(b.m, w) && !e.Requeue? {
      v := SleeperWakes(c, b, w);
    } else if e.Pop? {
      v := TakeEnabled(c, b, w);
    } else if e.Exit? {
      v := QuitEnabled(c, b, w);
    } else {
      v := BackEnabled(c, b, w);
    }
  }

  lemma LinkedLength(b: Both)
    requires Linked(b)
    ensures |b.s.workers| <= |b.m.threads|
  {
  }

  lemma QuietEnabled(c: Config, b: Both, e: Server.Step) returns (v: Move)
    requires Server.Enabled(c, b.s, e) && e.Slice?
    ensures v == Quiet(e) && Enabled(c, b, v)
  {
    v := Quiet(e);
  }

  /** A thread in one of the queue's methods is woken, or has its notification still to make. */
  lemma SleeperWakes(c: Config, b: Both, w: nat) returns (v: Move)
    requires M.Inv(b.m) && b.m.shuttingDown && w < |b.m.threads| && !CanTest(b.m, w)
    ensures v.Wake? && Enabled(c, b, v) && Counts(v)
  {
    var ps := b.m.threads;
    M.CountPositive(ps, w);
    hide M.Count;
    if ps[w].Asleep? {
      var t := M.CountWitness(ps, M.Announcing);
      v := Wake(M.NotifyAll(t));
    } else if ps[w].Announcing? {
      v := Wake(M.NotifyAll(w));
    } else if M.Count(ps, M.Asleep) == 0 {
      v := Wake(M.NotifyNone(w));
    } else {
      var t := M.CountWitness(ps, M.Asleep);
      v := Wake(M.NotifyOne(w, t));
    }
  }

  lemma TakeEnabled(c: Config, b: Both, w: nat) returns (v: Move)
    requires Linked(b) && Server.Enabled(c, b.s, Server.Pop(w)) && CanTest(b.m, w)
    ensures v == Take(w) && Enabled(c, b, v)
  {
    v := Take(w);
  }

  lemma QuitEnabled(c: Config, b: Both, w: nat) returns (v: Move)
    requires Linked(b) && Server.Enabled(c, b.s, Server.Exit(w)) && CanTest(b.m, w)
    ensures v == Quit(w) && Enabled(c, b, v)
  {
    v := Quit(w);
  }

  lemma BackEnabled(c: Config, b: Both, w: nat) returns (v: Move)
    requires Linked(b) && Server.Enabled(c, b.s, Server.Requeue(w))
    ensures v == Back(w) && Enabled(c, b, v)
  {
    v := Back(w);
  }

  /** With workers that sleep in the queue and are woken by its notifications, the shutdown sequence
      never sticks: in every reachable state between the signal and the last join some thread can make
      a move other than falling asleep or waking up by itself. */
  lemma DrainNeverSleepsThrough(c: Config, n: nat, run: seq<Move>) returns (v: Move)
    requires c.Valid() && n >= 1 && Runs(c, Begin(n), run)
    requires End(c, Begin(n), run).s.signalled && !End(c, Begin(n), run).s.main.Stopped?
    ensures Enabled(c, End(c, Begin(n), run), v) && Counts(v)
  {
    BeginInv(c, n);
    RunKeepsInv(c, Begin(n), run);
    hide Runs, End, Begin;
    var b := End(c, Begin(n), run);
    v := SomebodyMoves(c, b);
  }

  lemma SomebodyMoves(c: Config, b: Both) returns (v: Move)
    requires Inv(c, b) && b.s.signalled && !b.s.main.Stopped?
    ensures Enabled(c, b, v) && Counts(v)
  {
    if b.s.main.JoiningWorkers? && Server.Remaining(b.s.workers) > 0 {
      var w := Drain.SomeoneWorking(b.s.workers);
      assert b.s.shuttingDown;
      hide Inv;
      v := WorkerMoves(c, b, w);
    } else {
      var e := Drain.ShutdownNeverStuck(c, b.s);
      assert IsQuiet(e) || e.Enqueue? || e.CloseQueue?;
      hide Server.Inv, Server.Enabled, M.Inv, Linked;
      v := match e
        case Enqueue(a) => Arrive(a)
        case CloseQueue => Close
        case _ => Quiet(e);
    }
  }
}
