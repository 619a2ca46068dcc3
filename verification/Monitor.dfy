/** The queue's mutex and condition variable as a transition system over any number of threads,
    one step for each stretch of code that runs under the lock or between two lock operations. */
module Monitor {

  datatype Phase =
    | Outside      // not in a queue operation
    | Asleep       // waiting in `pop_pick`
    | Woken        // signalled, has not yet run again
    | Notifying    // has pushed and released the lock, `notify_one` is still to come
    | Announcing   // has set the flag and released the lock, `notify_all` is still to come

  datatype State = State(items: seq<nat>, shuttingDown: bool, threads: seq<Phase>)

  datatype Step =
    | Push(t: nat, item: nat)
    | NotifyOne(t: nat, sleeper: nat)
    | NotifyNone(t: nat)
    | Test(t: nat, idx: nat)      // takes the lock and evaluates the wait condition
    | Spurious(t: nat)
    | SetFlag(t: nat)
    | NotifyAll(t: nat)

  predicate Enabled(s: State, e: Step) {
    && e.t < |s.threads|
    && match e
       case Push(t, _) => s.threads[t].Outside?
       case NotifyOne(t, w) => s.threads[t].Notifying? && w < |s.threads| && s.threads[w].Asleep?
       case NotifyNone(t) => s.threads[t].Notifying? && Count(s.threads, Asleep) == 0
       case Test(t, idx) => (s.threads[t].Outside? || s.threads[t].Woken?) && (s.items != [] ==> idx < |s.items|)
       case Spurious(t) => s.threads[t].Asleep?
       case SetFlag(t) => s.threads[t].Outside?
       case NotifyAll(t) => s.threads[t].Announcing?
  }

  function Do(s: State, e: Step): State
    requires Enabled(s, e)
  {
    match e
    case Push(t, x) => s.(items := s.items + [x], threads := s.threads[t := Notifying])
    case NotifyOne(t, w) => s.(threads := s.threads[t := Outside][w := Woken])
    case NotifyNone(t) => s.(threads := s.threads[t := Outside])
    case Test(t, idx) =>
      if s.items != [] then s.(items := s.items[..idx] + s.items[idx + 1..], threads := s.threads[t := Outside])
      else if s.shuttingDown then s.(threads := s.threads[t := Outside])
      else s.(threads := s.threads[t := Asleep])
    case Spurious(t) => s.(threads := s.threads[t := Woken])
    case SetFlag(t) => s.(shuttingDown := true, threads := s.threads[t := Announcing])
    case NotifyAll(t) => s.(threads := WakeAll(s.threads[t := Outside]))
  }

  function WakeAll(ps: seq<Phase>): (r: seq<Phase>)
    ensures |r| == |ps|
  {
    if ps == [] then [] else WakeAll(ps[..|ps| - 1]) + [if ps[|ps| - 1].Asleep? then Woken else ps[|ps| - 1]]
  }

  function Count(ps: seq<Phase>, p: Phase): nat {
    if ps == [] then 0 else Count(ps[..|ps| - 1], p) + (if ps[|ps| - 1] == p then 1 else 0)
  }

  lemma {:induction false} CountUpdate(ps: seq<Phase>, i: nat, v: Phase, p: Phase)
    requires i < |ps|
    ensures Count(ps[i := v], p) == Count(ps, p) - (if ps[i] == p then 1 else 0) + (if v == p then 1 else 0)
  {
    var n := |ps| - 1;
    if i == n {
      assert ps[i := v][..n] == ps[..n];
    } else {
      CountUpdate(ps[..n], i, v, p);
      assert ps[i := v][..n] == ps[..n][i := v];
    }
  }

  lemma {:induction false} CountPositive(ps: seq<Phase>, i: nat)
    requires i < |ps|
    ensures Count(ps, ps[i]) > 0
  {
    if i < |ps| - 1 {
      CountPositive(ps[..|ps| - 1], i);
    }
  }

  lemma {:induction false} NoneAsleep(ps: seq<Phase>)
    ensures Count(WakeAll(ps), Asleep) == 0
  {
    if ps != [] {
      NoneAsleep(ps[..|ps| - 1]);
    }
  }

  /** A sleeper is owed a wake-up for every queued request, and for the shutdown flag. */
  predicate Inv(s: State) {
    Count(s.threads, Asleep) > 0 ==>
      && |s.items| <= Count(s.threads, Woken) + Count(s.threads, Notifying)
      && (s.shuttingDown ==> Count(s.threads, Announcing) > 0)
  }

  lemma CountsUpdate(ps: seq<Phase>, i: nat, v: Phase)
    requires i < |ps|
    ensures forall p :: Count(ps[i := v], p) == Count(ps, p) - (if ps[i] == p then 1 else 0) + (if v == p then 1 else 0)
  {
    forall p
      ensures Count(ps[i := v], p) == Count(ps, p) - (if ps[i] == p then 1 else 0) + (if v == p then 1 else 0)
    {
      CountUpdate(ps, i, v, p);
    }
  }

  lemma StepKeepsInv(s: State, e: Step)
    requires Inv(s) && Enabled(s, e)
    ensures Inv(Do(s, e))
  {
    hide Count;
    var ps, t := s.threads, e.t;
    CountPositive(ps, t);
    CountsUpdate(ps, t, Outside);
    match e
    case Push(_, _) => CountsUpdate(ps, t, Notifying);
    case NotifyOne(_, w) =>
      CountsUpdate(ps[t := Outside], w, Woken);
      CountPositive(ps, w);
    case NotifyNone(_) =>
    case Test(_, _) => CountsUpdate(ps, t, Asleep);
    case Spurious(_) => CountsUpdate(ps, t, Woken);
    case SetFlag(_) => CountsUpdate(ps, t, Announcing);
    case NotifyAll(_) => NoneAsleep(ps[t := Outside]);
  }

  // ------------------------------------------------------------------ runs

  predicate Runs(s: State, es: seq<Step>)
    decreases |es|
  {
    es == [] || (Enabled(s, es[0]) && Runs(Do(s, es[0]), es[1..]))
  }

  function End(s: State, es: seq<Step>): State
    requires Runs(s, es)
    decreases |es|
  {
    if es == [] then s else End(Do(s, es[0]), es[1..])
  }

  function Fresh(n: nat): seq<Phase> {
    if n == 0 then [] else Fresh(n - 1) + [Outside]
  }

  function Init(n: nat): State {
    State([], false, Fresh(n))
  }

  lemma {:induction false} FreshNotAsleep(n: nat)
    ensures Count(Fresh(n), Asleep) == 0
  {
    if n > 0 {
      FreshNotAsleep(n - 1);
    }
  }

  lemma {:induction false} RunKeepsInv(s: State, es: seq<Step>)
    requires Inv(s) && Runs(s, es)
    ensures Inv(End(s, es))
    decreases |es|
  {
    if es != [] {
      StepKeepsInv(s, es[0]);
      RunKeepsInv(Do(s, es[0]), es[1..]);
    }
  }

  /** No lost wake-up: in every reachable state with a thread asleep, the queued requests are no more
      than the woken threads and the notifications still to come, and once shutdown is set a
      `notify_all` is still to come. */
  lemma NoLostWakeUp(n: nat, es: seq<Step>)
    requires Runs(Init(n), es)
    ensures var s := End(Init(n), es);
            Count(s.threads, Asleep) > 0 ==>
              && |s.items| <= Count(s.threads, Woken) + Count(s.threads, Notifying)
              && (s.shuttingDown ==> Count(s.threads, Announcing) > 0)
  {
    FreshNotAsleep(n);
    RunKeepsInv(Init(n), es);
  }

  /** When nothing more will happen by itself, sleepers mean an empty queue that is still open. */
  lemma QuietSleepersMeanIdle(n: nat, es: seq<Step>)
    requires Runs(Init(n), es)
    requires var s := End(Init(n), es);
             && Count(s.threads, Woken) == 0 && Count(s.threads, Notifying) == 0 && Count(s.threads, Announcing) == 0
             && Count(s.threads, Asleep) > 0
    ensures var s := End(Init(n), es);
            s.items == [] && !s.shuttingDown
  {
    NoLostWakeUp(n, es);
  }

  lemma {:induction false} CountWitness(ps: seq<Phase>, p: Phase) returns (i: nat)
    requires Count(ps, p) > 0
    ensures i < |ps| && ps[i] == p
  {
    var n := |ps| - 1;
    if ps[n] == p {
      i := n;
    } else {
      i := CountWitness(ps[..n], p);
    }
  }

  /** While a request is queued and a thread sleeps, some other thread has a step to take that
      either signals a sleeper or takes a request. */
  lemma QueuedWorkMoves(n: nat, es: seq<Step>) returns (t: nat)
    requires Runs(Init(n), es)
    requires var s := End(Init(n), es); s.items != [] && Count(s.threads, Asleep) > 0
    ensures var s := End(Init(n), es);
            && t < |s.threads|
            && ((s.threads[t].Notifying? && exists w :: Enabled(s, NotifyOne(t, w)))
                || (s.threads[t].Woken? && Enabled(s, Test(t, 0)) && |Do(s, Test(t, 0)).items| == |s.items| - 1))
  {
    NoLostWakeUp(n, es);
    var s := End(Init(n), es);
    if Count(s.threads, Woken) > 0 {
      t := CountWitness(s.threads, Woken);
    } else {
      t := CountWitness(s.threads, Notifying);
      var w := CountWitness(s.threads, Asleep);
      assert Enabled(s, NotifyOne(t, w));
    }
  }
}
