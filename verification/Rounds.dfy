/** What one scheduling round does to a GET, and what whole runs of rounds add up to.
    Everything here is a function of the file and of the counters kept in the request;
    `Slice` proves that the imperative round computes exactly these functions. */
module Rounds {
  import opened Bytes
  import opened Lines

  datatype Policy = Fcfs | Sjf | Rr | Drr

  predicate Bounded(p: Policy) {
    p.Rr? || p.Drr?
  }

  /** The policy and the quantum; the command line rejects a quantum of zero. */
  datatype Config = Config(policy: Policy, quantum: nat) {
    predicate Valid() {
      quantum <= U64_MAX && (Bounded(policy) ==> quantum >= 1)
    }
  }

  /** Byte allowance of one round; the sum saturates at the largest `uint64_t`. */
  function Allowance(c: Config, deficit: nat): nat {
    if !Bounded(c.policy) then U64_MAX
    else
      var carried := if c.policy.Drr? then deficit else 0;
      if carried + c.quantum > U64_MAX then U64_MAX else carried + c.quantum
  }

  datatype Stop =
    | Finished            // every byte of the file is out
    | Cut(left: nat)      // the next line does not fit in what is left
    | Escaped             // an over-long line started the round and went out whole

  datatype Pass = Pass(off: nat, how: Stop)

  /** The lines a round sends, starting at `off` with `left` bytes of allowance
      and `sent` bytes already sent in this round. */
  function Sweep(c: Config, f: string, off: nat, left: nat, sent: nat): (r: Pass)
    requires off <= |f|
    ensures off <= r.off <= |f|
    decreases |f| - off
  {
    if off >= |f| then Pass(off, Finished)
    else
      var len := LineLen(f, off);
      if c.policy.Rr? && sent == 0 && len > c.quantum then Pass(off + len, Escaped)
      else if Bounded(c.policy) && len > left then Pass(off, Cut(left))
      else Sweep(c, f, off + len, if Bounded(c.policy) then left - len else left, sent + len)
  }

  /** The accounting fields of a GET; `escapes` holds the lengths of the lines
      for which the over-long-line escape fired, in order. */
  datatype GetState = GetState(off: nat, deficit: nat, forfeited: nat, rounds: nat, escapes: seq<nat>)

  const START: GetState := GetState(0, 0, 0, 0, [])

  datatype Outcome = Done | Preempted

  /** How a round that stopped there leaves the request. */
  function Settle(c: Config, f: string, g: GetState, p: Pass): (r: (GetState, Outcome))
    requires g.off <= p.off
    ensures r.0.off == p.off
  {
    var n := g.(off := p.off);
    match p.how
    case Finished => (n.(deficit := 0), Done)
    case Cut(left) =>
      (if c.policy.Rr? then n.(forfeited := g.forfeited + left) else n.(deficit := left), Preempted)
    case Escaped =>
      (n.(escapes := g.escapes + [p.off - g.off]), if p.off >= |f| then Done else Preempted)
  }

  function GetRound(c: Config, f: string, g: GetState): (r: (GetState, Outcome))
    requires g.off <= |f|
    ensures g.off <= r.0.off <= |f|
  {
    Settle(c, f, g.(rounds := g.rounds + 1), Sweep(c, f, g.off, Allowance(c, g.deficit), 0))
  }

  // ------------------------------------------------------------------ one round

  /** Where a bounded round stops and what it leaves unused. */
  lemma {:induction false} SweepStops(c: Config, f: string, off: nat, left: nat, sent: nat)
    requires Bounded(c.policy) && Boundary(f, off)
    requires c.policy.Rr? && sent == 0 ==> left == c.quantum
    ensures var r := Sweep(c, f, off, left, sent);
            && Boundary(f, r.off)
            && (r.how.Finished? ==> r.off == |f| && |f| <= off + left)
            && (r.how.Cut? ==> r.off < |f| && r.off + r.how.left == off + left && r.how.left < LineLen(f, r.off))
            && (r.how.Cut? && c.policy.Rr? ==> sent + r.off - off > 0)
            && (r.how.Escaped? ==> c.policy.Rr? && sent == 0 && off < |f| && r.off == off + LineLen(f, off)
                                   && LineLen(f, off) > c.quantum)
    decreases |f| - off
  {
    if off < |f| {
      var len := LineLen(f, off);
      BoundaryNext(f, off);
      if !(c.policy.Rr? && sent == 0 && len > c.quantum) && len <= left {
        SweepStops(c, f, off + len, left - len, sent + len);
      }
    }
  }

  /** A round that sends anything sends at least the line it starts with. */
  lemma RrFirstLine(c: Config, f: string, off: nat)
    requires c.policy.Rr? && Boundary(f, off) && off < |f|
    ensures Sweep(c, f, off, c.quantum, 0).off >= off + LineLen(f, off)
  {
    var r := Sweep(c, f, off, c.quantum, 0);
    SweepStops(c, f, off, c.quantum, 0);
    if r.off > off {
      NoBoundaryInside(f, off, r.off);
    }
  }

  /** Over-long lines leave only through the escape. */
  lemma {:induction false} SweepLong(c: Config, f: string, off: nat, left: nat, sent: nat)
    requires c.policy.Rr? && off <= |f| && left <= c.quantum && (sent == 0 ==> left == c.quantum)
    ensures var r := Sweep(c, f, off, left, sent);
            CountLong(f, c.quantum, off) == CountLong(f, c.quantum, r.off) + (if r.how.Escaped? then 1 else 0)
    decreases |f| - off
  {
    if off < |f| {
      var len := LineLen(f, off);
      if !(sent == 0 && len > c.quantum) && len <= left {
        SweepLong(c, f, off + len, left - len, sent + len);
      }
    }
  }

  /** An unbounded policy never stops before the end of the file. */
  lemma {:induction false} SweepUnbounded(c: Config, f: string, off: nat, left: nat, sent: nat)
    requires !Bounded(c.policy) && off <= |f|
    ensures Sweep(c, f, off, left, sent) == Pass(|f|, Finished)
    decreases |f| - off
  {
    if off < |f| {
      SweepUnbounded(c, f, off + LineLen(f, off), left, sent + LineLen(f, off));
    }
  }

  // ------------------------------------------------------------------ the invariant between rounds

  ghost predicate DrrInv(c: Config, f: string, g: GetState) {
    && g.off + g.deficit == Times(g.rounds, c.quantum)
    && (g.rounds > 0 ==> g.off < |f| && g.deficit < LineLen(f, g.off))
    && g.forfeited == 0 && g.escapes == []
  }

  ghost predicate RrInv(c: Config, f: string, g: GetState) {
    && g.deficit == 0 && g.off <= |f|
    && |g.escapes| <= g.rounds
    && g.off + g.forfeited == Times(g.rounds - |g.escapes|, c.quantum) + Sum(g.escapes)
    && g.forfeited <= g.off + LineLen(f, g.off)
    && |g.escapes| + CountLong(f, c.quantum, g.off) == CountLong(f, c.quantum, 0)
    && (g.rounds > 0 ==> 0 < g.off < |f|)
  }

  /** What holds of a GET that is waiting for its next round. */
  ghost predicate GetInv(c: Config, f: string, g: GetState) {
    && c.Valid() && |f| <= U64_MAX
    && Boundary(f, g.off)
    && match c.policy
       case Drr => DrrInv(c, f, g)
       case Rr => RrInv(c, f, g)
       case _ => g == START
  }

  lemma StartInv(c: Config, f: string)
    requires c.Valid() && |f| <= U64_MAX
    ensures GetInv(c, f, START)
  {
  }

  /** The saturated allowance is never the one a round is cut at. */
  lemma DrrRound(c: Config, f: string, g: GetState)
    requires c.policy.Drr? && GetInv(c, f, g)
    ensures var (g', o) := GetRound(c, f, g);
            && (o.Preempted? ==>
                  DrrInv(c, f, g') && Boundary(f, g'.off) && Allowance(c, g.deficit) == g.deficit + c.quantum)
            && (o.Preempted? <==> Times(g.rounds + 1, c.quantum) < |f|)
            && (o.Done? ==> g'.off == |f| && g'.deficit == 0 && g'.forfeited == 0 && g'.escapes == [])
  {
    SweepStops(c, f, g.off, Allowance(c, g.deficit), 0);
  }

  lemma RrCount(c: Config, f: string, g: GetState)
    requires c.policy.Rr? && GetInv(c, f, g)
    ensures var g' := GetRound(c, f, g).0;
            |g'.escapes| + CountLong(f, c.quantum, g'.off) == CountLong(f, c.quantum, 0)
  {
    SweepLong(c, f, g.off, c.quantum, 0);
  }

  lemma RrCut(c: Config, f: string, g: GetState)
    requires c.policy.Rr? && GetInv(c, f, g)
    requires Sweep(c, f, g.off, c.quantum, 0).how.Cut?
    ensures var g' := GetRound(c, f, g).0;
            && g'.off + g'.forfeited == Times(g'.rounds - |g'.escapes|, c.quantum) + Sum(g'.escapes)
            && g'.forfeited <= g'.off + LineLen(f, g'.off)
            && g.off < g'.off < |f|
  {
    SweepStops(c, f, g.off, c.quantum, 0);
    RrFirstLine(c, f, g.off);
  }

  lemma RrEscape(c: Config, f: string, g: GetState)
    requires c.policy.Rr? && GetInv(c, f, g)
    requires Sweep(c, f, g.off, c.quantum, 0).how.Escaped?
    ensures var g' := GetRound(c, f, g).0;
            && g'.off + g'.forfeited == Times(g'.rounds - |g'.escapes|, c.quantum) + Sum(g'.escapes)
            && g'.forfeited <= g'.off + LineLen(f, g'.off)
            && g.off < g'.off
  {
    var len := LineLen(f, g.off);
    SweepStops(c, f, g.off, c.quantum, 0);
    SumAppend(g.escapes, len);
    assert Allowance(c, g.deficit) == c.quantum;
    hide Sweep, Times, Sum, LineLen, CountLong;
    assert GetRound(c, f, g).0 == g.(off := g.off + len, rounds := g.rounds + 1, escapes := g.escapes + [len]);
  }

  lemma {:induction false} RrRound(c: Config, f: string, g: GetState)
    requires c.policy.Rr? && GetInv(c, f, g)
    ensures var (g', o) := GetRound(c, f, g);
            && |g'.escapes| + CountLong(f, c.quantum, g'.off) == CountLong(f, c.quantum, 0)
            && (o.Preempted? ==> RrInv(c, f, g') && Boundary(f, g'.off) && g.off < g'.off)
            && (o.Done? ==> g'.off == |f|)
  {
    RrCount(c, f, g);
    SweepStops(c, f, g.off, c.quantum, 0);
    if Sweep(c, f, g.off, c.quantum, 0).how.Cut? {
      RrCut(c, f, g);
    } else if Sweep(c, f, g.off, c.quantum, 0).how.Escaped? {
      RrEscape(c, f, g);
    }
  }

  lemma {:induction false} GetRoundKeepsInv(c: Config, f: string, g: GetState)
    requires GetInv(c, f, g)
    ensures var (g', o) := GetRound(c, f, g);
            && g'.rounds == g.rounds + 1
            && (o.Preempted? ==> Bounded(c.policy) && GetInv(c, f, g') && g'.off + g'.deficit > g.off + g.deficit
                                 && g'.off + g'.deficit <= |f|)
            && (o.Done? ==> g'.off == |f|)
  {
    if c.policy.Drr? {
      DrrRound(c, f, g);
    } else if c.policy.Rr? {
      RrRound(c, f, g);
    } else {
      SweepUnbounded(c, f, g.off, U64_MAX, 0);
    }
  }

  // ------------------------------------------------------------------ whole runs

  /** The state after `k` rounds from admission. */
  function After(c: Config, f: string, k: nat): (g: GetState)
    ensures g.off <= |f|
  {
    if k == 0 then START else GetRound(c, f, After(c, f, k - 1)).0
  }

  /** The request is still unfinished after `k` rounds. */
  predicate Live(c: Config, f: string, k: nat) {
    k == 0 || (Live(c, f, k - 1) && GetRound(c, f, After(c, f, k - 1)).1.Preempted?)
  }

  /** Rounds that are still to come. */
  function RoundsLeft(c: Config, f: string, g: GetState): (n: nat)
    requires GetInv(c, f, g)
    ensures n >= 1
    decreases |f| - (g.off + g.deficit)
  {
    GetRoundKeepsInv(c, f, g);
    var (g', o) := GetRound(c, f, g);
    if o.Done? then 1 else 1 + RoundsLeft(c, f, g')
  }

  /** The `rounds` column of a completed GET. */
  function TotalRounds(c: Config, f: string): nat
    requires c.Valid() && |f| <= U64_MAX
  {
    StartInv(c, f);
    RoundsLeft(c, f, START)
  }

  lemma {:induction false} LiveInv(c: Config, f: string, k: nat)
    requires c.Valid() && |f| <= U64_MAX && Live(c, f, k)
    ensures GetInv(c, f, After(c, f, k)) && After(c, f, k).rounds == k
  {
    if k == 0 {
      StartInv(c, f);
    } else {
      LiveInv(c, f, k - 1);
      GetRoundKeepsInv(c, f, After(c, f, k - 1));
    }
  }

  lemma {:induction false} LeftAfter(c: Config, f: string, k: nat)
    requires c.Valid() && |f| <= U64_MAX
    ensures Live(c, f, k) ==> GetInv(c, f, After(c, f, k)) && RoundsLeft(c, f, After(c, f, k)) + k == TotalRounds(c, f)
  {
    if k > 0 && Live(c, f, k) {
      LeftAfter(c, f, k - 1);
      LiveInv(c, f, k);
    } else if k == 0 {
      StartInv(c, f);
    }
  }

  lemma {:induction false} LiveBelow(c: Config, f: string, k: nat)
    requires c.Valid() && |f| <= U64_MAX && k < TotalRounds(c, f)
    ensures Live(c, f, k)
  {
    if k > 0 {
      LiveBelow(c, f, k - 1);
      LeftAfter(c, f, k - 1);
    }
  }

  /** `TotalRounds` counts the rounds of the run: the last one finishes, all before are preempted. */
  lemma TotalIsExact(c: Config, f: string, k: nat)
    requires c.Valid() && |f| <= U64_MAX
    ensures Live(c, f, k) <==> k < TotalRounds(c, f)
    ensures k == TotalRounds(c, f) ==> After(c, f, k).off == |f| && GetRound(c, f, After(c, f, k - 1)).1.Done?
  {
    hide GetRound, After, Live;
    LeftAfter(c, f, k);
    var n := TotalRounds(c, f);
    if k < n {
      LiveBelow(c, f, k);
    }
    if k == n {
      LastRound(c, f, n);
    }
  }

  lemma LastRound(c: Config, f: string, n: nat)
    requires c.Valid() && |f| <= U64_MAX && n == TotalRounds(c, f)
    ensures After(c, f, n).off == |f| && GetRound(c, f, After(c, f, n - 1)).1.Done?
  {
    hide GetRound;
    LiveBelow(c, f, n - 1);
    LeftAfter(c, f, n - 1);
    GetRoundKeepsInv(c, f, After(c, f, n - 1));
  }

  lemma OneMoreRound(c: Config, f: string, k: nat)
    ensures After(c, f, k + 1) == GetRound(c, f, After(c, f, k)).0
    ensures Live(c, f, k) ==> (Live(c, f, k + 1) <==> GetRound(c, f, After(c, f, k)).1.Preempted?)
  {
    hide GetRound;
  }

  /** The next round of an unfinished GET. */
  lemma LiveStep(c: Config, f: string, k: nat)
    requires c.Valid() && |f| <= U64_MAX && Live(c, f, k)
    ensures After(c, f, k + 1) == GetRound(c, f, After(c, f, k)).0 && After(c, f, k + 1).rounds == k + 1
    ensures if GetRound(c, f, After(c, f, k)).1.Preempted? then Live(c, f, k + 1)
            else k + 1 == TotalRounds(c, f) && After(c, f, k + 1).off == |f|
  {
    hide *;
    LiveInv(c, f, k);
    OneMoreRound(c, f, k);
    var g := After(c, f, k);
    GetRoundKeepsInv(c, f, g);
    TotalIsExact(c, f, k);
    TotalIsExact(c, f, k + 1);
  }

  // ------------------------------------------------------------------ fcfs and sjf

  lemma UnboundedTotal(c: Config, f: string)
    requires c.Valid() && |f| <= U64_MAX && !Bounded(c.policy)
    ensures TotalRounds(c, f) == 1
    ensures After(c, f, 1) == GetState(|f|, 0, 0, 1, [])
  {
    StartInv(c, f);
    SweepUnbounded(c, f, 0, U64_MAX, 0);
    assert After(c, f, 1) == GetRound(c, f, After(c, f, 0)).0;
  }

  // ------------------------------------------------------------------ drr

  /** After `k` preempted rounds the offset is the last line boundary not past `k * Q`,
      and the rest of the `k * Q` bytes is the deficit. */
  lemma DrrClosedForm(c: Config, f: string, k: nat)
    requires c.Valid() && |f| <= U64_MAX && c.policy.Drr?
    ensures Live(c, f, k) <==> k == 0 || Times(k, c.quantum) < |f|
    ensures Live(c, f, k) ==>
              var g := After(c, f, k);
              && g.off + g.deficit == Times(k, c.quantum)
              && g.forfeited == 0 && g.escapes == []
              && Boundary(f, g.off)
              && (g.off < |f| ==> g.deficit < LineLen(f, g.off))
              && (forall b: nat :: Boundary(f, b) && b <= Times(k, c.quantum) ==> b <= g.off)
  {
    hide GetRound;
    DrrLive(c, f, k);
    if Live(c, f, k) {
      LiveInv(c, f, k);
      var g := After(c, f, k);
      forall b: nat | Boundary(f, b) && b <= Times(k, c.quantum)
        ensures b <= g.off
      {
        LastBoundary(f, g.off, Times(k, c.quantum), b);
      }
    }
  }

  lemma {:induction false} DrrLive(c: Config, f: string, k: nat)
    requires c.Valid() && |f| <= U64_MAX && c.policy.Drr?
    ensures Live(c, f, k) <==> k == 0 || Times(k, c.quantum) < |f|
  {
    if k > 0 {
      DrrLive(c, f, k - 1);
      if Live(c, f, k - 1) {
        LiveInv(c, f, k - 1);
        DrrRound(c, f, After(c, f, k - 1));
      }
    }
  }

  /** Under drr the number of rounds depends on the size alone, not on the lines. */
  lemma DrrTotal(c: Config, f: string)
    requires c.Valid() && |f| <= U64_MAX && c.policy.Drr?
    ensures TotalRounds(c, f) == Max(1, CeilDiv(|f|, c.quantum))
  {
    hide GetRound;
    var n := TotalRounds(c, f);
    TotalIsExact(c, f, n);
    TotalIsExact(c, f, n - 1);
    DrrLive(c, f, n);
    DrrLive(c, f, n - 1);
    if |f| == 0 {
      DivUnique(c.quantum - 1, c.quantum, 0, c.quantum - 1);
    } else {
      TimesIsProduct(n, c.quantum);
      TimesIsProduct(n - 1, c.quantum);
      CeilDivUnique(|f|, c.quantum, n);
    }
  }

  /** A line ending at `e` is out after `k` rounds exactly when `k` quanta cover `e`:
      it leaves in round `ceil(e / Q)`. */
  lemma DrrLineLeavesInRound(c: Config, f: string, k: nat, e: nat)
    requires c.Valid() && |f| <= U64_MAX && c.policy.Drr?
    requires Boundary(f, e) && k <= TotalRounds(c, f)
    ensures e <= After(c, f, k).off <==> e <= k * c.quantum
  {
    hide GetRound;
    TimesIsProduct(k, c.quantum);
    TotalIsExact(c, f, k);
    DrrClosedForm(c, f, k);
  }

  // ------------------------------------------------------------------ rr

  /** The offsets before and after one rr round. */
  ghost predicate RrProgress(c: Config, f: string, g: GetState, h: GetState, last: bool)
    requires g.off <= |f| && h.off <= |f|
  {
    && Boundary(f, g.off) && Boundary(f, h.off)
    && g.off + LineLen(f, g.off) <= h.off
    && (h.off - g.off <= c.quantum || h.off == g.off + LineLen(f, g.off))
    && (h.escapes == g.escapes ==> h.off - g.off <= c.quantum)
    && (last ==> h.off == |f|)
    && (!last ==> g.off < h.off < |f| && g.off + c.quantum < h.off + LineLen(f, h.off))
  }

  lemma RrRoundProgress(c: Config, f: string, g: GetState)
    requires c.policy.Rr? && GetInv(c, f, g)
    ensures var (h, o) := GetRound(c, f, g);
            RrProgress(c, f, g, h, o.Done?)
  {
    SweepStops(c, f, g.off, c.quantum, 0);
    if g.off < |f| {
      RrFirstLine(c, f, g.off);
    }
  }

  lemma RrStep(c: Config, f: string, k: nat)
    requires c.Valid() && |f| <= U64_MAX && c.policy.Rr? && Live(c, f, k)
    ensures var g, h := After(c, f, k), After(c, f, k + 1);
            && RrProgress(c, f, g, h, !Live(c, f, k + 1))
            && |h.escapes| + CountLong(f, c.quantum, h.off) == CountLong(f, c.quantum, 0)
            && |g.escapes| + CountLong(f, c.quantum, g.off) == CountLong(f, c.quantum, 0)
            && (k > 0 ==> 0 < g.off < |f|)
  {
    hide GetRound;
    LiveInv(c, f, k);
    RrRound(c, f, After(c, f, k));
    RrRoundProgress(c, f, After(c, f, k));
  }

  /** Every byte of allowance of an unfinished rr GET is sent or forfeited, except that an
      escaping line takes the place of its round's allowance. No counter can wrap. */
  lemma RrAccounting(c: Config, f: string, k: nat)
    requires c.Valid() && |f| <= U64_MAX && c.policy.Rr? && Live(c, f, k)
    ensures var g := After(c, f, k);
            && |g.escapes| <= k
            && g.off + g.forfeited == (k - |g.escapes|) * c.quantum + Sum(g.escapes)
            && g.forfeited <= |f|
            && (k > 0 ==> After(c, f, k - 1).off < g.off)
  {
    hide GetRound;
    LiveInv(c, f, k);
    TimesIsProduct(k - |After(c, f, k).escapes|, c.quantum);
    if k > 0 {
      RrStep(c, f, k - 1);
    }
  }

  /** Over a completed rr GET the escape fires once for each line longer than the quantum. */
  lemma RrEscapesCount(c: Config, f: string)
    requires c.Valid() && |f| <= U64_MAX && c.policy.Rr?
    ensures |After(c, f, TotalRounds(c, f)).escapes| == CountLong(f, c.quantum, 0)
  {
    hide GetRound;
    var n := TotalRounds(c, f);
    TotalIsExact(c, f, n - 1);
    TotalIsExact(c, f, n);
    RrStep(c, f, n - 1);
  }

  /** What a round that goes from `off` to `off'` and is followed by another leaves of its quantum; the
      round of an over-long line leaves nothing. */
  function Remainder(c: Config, f: string, off: nat, off': nat): nat
    requires off <= |f|
  {
    if LineLen(f, off) <= c.quantum && off' <= off + c.quantum then c.quantum - (off' - off) else 0
  }

  /** The remainders of the first `k` rounds, except that the round that completes the file has none. */
  function Unused(c: Config, f: string, k: nat): nat
    requires c.Valid() && |f| <= U64_MAX
  {
    if k == 0 then 0
    else
      Unused(c, f, k - 1)
      + if k < TotalRounds(c, f) then Remainder(c, f, After(c, f, k - 1).off, After(c, f, k).off) else 0
  }

  /** What one rr round adds to the forfeited bytes. */
  lemma RrRoundForfeits(c: Config, f: string, g: GetState)
    requires c.policy.Rr? && GetInv(c, f, g)
    ensures var (h, o) := GetRound(c, f, g);
            && h.deficit == 0
            && h.forfeited == g.forfeited + (if o.Preempted? then Remainder(c, f, g.off, h.off) else 0)
  {
    SweepStops(c, f, g.off, c.quantum, 0);
  }

  lemma UnusedStart(c: Config, f: string)
    requires c.Valid() && |f| <= U64_MAX
    ensures Unused(c, f, 0) == 0 && After(c, f, 0) == GetState(0, 0, 0, 0, []) && TotalRounds(c, f) >= 1
  {
    hide GetRound;
  }

  lemma UnusedStep(c: Config, f: string, k: nat)
    requires c.Valid() && |f| <= U64_MAX
    ensures Unused(c, f, k + 1)
         == Unused(c, f, k)
            + if k + 1 < TotalRounds(c, f) then Remainder(c, f, After(c, f, k).off, After(c, f, k + 1).off) else 0
  {
    hide Remainder, TotalRounds, After;
  }

  /** An rr GET forfeits exactly what its preempted rounds leave of their quanta: nothing for the round
      of an over-long line, and nothing for the round that completes the file. */
  lemma {:induction false} RrForfeits(c: Config, f: string, k: nat)
    requires c.Valid() && |f| <= U64_MAX && c.policy.Rr? && k <= TotalRounds(c, f)
    ensures After(c, f, k).forfeited == Unused(c, f, k) && After(c, f, k).deficit == 0
  {
    hide *;
    UnusedStart(c, f);
    if k > 0 {
      RrForfeits(c, f, k - 1);
      RrForfeitsStep(c, f, k - 1);
      UnusedStep(c, f, k - 1);
    }
  }

  lemma RrForfeitsStep(c: Config, f: string, k: nat)
    requires c.Valid() && |f| <= U64_MAX && c.policy.Rr? && k < TotalRounds(c, f)
    ensures var g, h := After(c, f, k), After(c, f, k + 1);
            && h.deficit == 0
            && h.forfeited
               == g.forfeited + if k + 1 < TotalRounds(c, f) then Remainder(c, f, g.off, h.off) else 0
  {
    hide *;
    TotalIsExact(c, f, k);
    LiveInv(c, f, k);
    LiveStep(c, f, k);
    TotalIsExact(c, f, k + 1);
    RrRoundForfeits(c, f, After(c, f, k));
  }

  lemma LongStep(f: string, q: nat, off: nat)
    requires off < |f|
    ensures var len := LineLen(f, off);
            LongFrom(f, q, off) == if len > q then [len] + LongFrom(f, q, off + len) else LongFrom(f, q, off + len)
  {
    hide LineLen;
  }

  /** The over-long lines behind a sweep have left through the escape, in order. */
  lemma {:induction false} SweepLongLines(c: Config, f: string, off: nat, left: nat, sent: nat)
    requires c.policy.Rr? && off <= |f| && left <= c.quantum && (sent == 0 ==> left == c.quantum)
    ensures var r := Sweep(c, f, off, left, sent);
            LongFrom(f, c.quantum, off)
            == if r.how.Escaped? then [r.off - off] + LongFrom(f, c.quantum, r.off) else LongFrom(f, c.quantum, r.off)
    ensures Sweep(c, f, off, left, sent).how.Escaped? ==> sent == 0
    decreases |f| - off
  {
    hide LongFrom, LineLen;
    if off < |f| {
      var len := LineLen(f, off);
      LongStep(f, c.quantum, off);
      if !(sent == 0 && len > c.quantum) && len <= left {
        SweepLongLines(c, f, off + len, left - len, sent + len);
      }
    }
  }

  lemma RrRoundEscapes(c: Config, f: string, g: GetState)
    requires c.policy.Rr? && GetInv(c, f, g)
    ensures var h := GetRound(c, f, g).0;
            h.escapes + LongFrom(f, c.quantum, h.off) == g.escapes + LongFrom(f, c.quantum, g.off)
  {
    hide LongFrom, Sweep;
    SweepLongLines(c, f, g.off, c.quantum, 0);
  }

  /** At every point of an rr GET the logged lengths are those of the over-long lines sent so far. */
  lemma {:induction false} RrEscapes(c: Config, f: string, k: nat)
    requires c.Valid() && |f| <= U64_MAX && c.policy.Rr? && k <= TotalRounds(c, f)
    ensures var g := After(c, f, k);
            g.escapes + LongFrom(f, c.quantum, g.off) == LongFrom(f, c.quantum, 0)
  {
    if k > 0 {
      hide GetRound, LongFrom, TotalRounds, Live, GetInv;
      RrEscapes(c, f, k - 1);
      TotalIsExact(c, f, k - 1);
      LiveInv(c, f, k - 1);
      RrRoundEscapes(c, f, After(c, f, k - 1));
    }
  }

  /** What every counter of a completed GET says. */
  ghost predicate Accounted(c: Config, f: string, g: GetState)
    requires c.Valid() && |f| <= U64_MAX
  {
    && g.off == |f| && g.deficit == 0 && g.rounds == TotalRounds(c, f)
    && g.forfeited == (if c.policy.Rr? then Unused(c, f, g.rounds) else 0)
    && g.escapes == (if c.policy.Rr? then LongFrom(f, c.quantum, 0) else [])
  }

  lemma FinalRr(c: Config, f: string, n: nat)
    requires c.Valid() && |f| <= U64_MAX && c.policy.Rr? && n == TotalRounds(c, f)
    ensures var g := After(c, f, n);
            && g.off == |f| && g.deficit == 0 && g.rounds == n
            && g.forfeited == Unused(c, f, n) && g.escapes == LongFrom(f, c.quantum, 0)
  {
    hide *;
    LastOfRun(c, f);
    RrForfeits(c, f, n);
    RrEscapes(c, f, n);
    NothingAfterEnd(f, c.quantum);
  }

  lemma FinalDrr(c: Config, f: string, n: nat)
    requires c.Valid() && |f| <= U64_MAX && c.policy.Drr? && n == TotalRounds(c, f)
    ensures After(c, f, n) == GetState(|f|, 0, 0, n, [])
  {
    hide *;
    LastOfRun(c, f);
    LiveInv(c, f, n - 1);
    DrrRound(c, f, After(c, f, n - 1));
  }

  lemma LastOfRun(c: Config, f: string)
    requires c.Valid() && |f| <= U64_MAX
    ensures var n := TotalRounds(c, f);
            && n >= 1 && Live(c, f, n - 1) && After(c, f, n).off == |f| && After(c, f, n).rounds == n
            && After(c, f, n) == GetRound(c, f, After(c, f, n - 1)).0
            && GetRound(c, f, After(c, f, n - 1)).1.Done?
  {
    hide *;
    UnusedStart(c, f);
    var n := TotalRounds(c, f);
    TotalIsExact(c, f, n);
    TotalIsExact(c, f, n - 1);
    LiveStep(c, f, n - 1);
  }

  /** What a completed GET leaves in its row: no deficit, and under rr exactly the bytes and the escapes
      the file and the quantum call for. */
  lemma FinalState(c: Config, f: string)
    requires c.Valid() && |f| <= U64_MAX
    ensures Accounted(c, f, After(c, f, TotalRounds(c, f)))
  {
    hide GetRound, TotalRounds, Live, GetInv, Unused, After, LongFrom;
    var n := TotalRounds(c, f);
    match c.policy
    case Rr => FinalRr(c, f, n);
    case Drr => FinalDrr(c, f, n);
    case _ => UnboundedTotal(c, f);
  }

  lemma NothingAfterEnd(f: string, q: nat)
    ensures LongFrom(f, q, |f|) == []
  {
  }

  /** Consecutive bytes that one rr round could take: at most a quantum, or one line. */
  predicate Group(f: string, q: nat, b: nat, e: nat) {
    && Boundary(f, b) && Boundary(f, e) && b < e
    && (e - b <= q || e == b + LineLen(f, b))
  }

  /** A way of cutting the whole file into such groups, given by its cut points. */
  predicate Cutting(f: string, q: nat, cuts: seq<nat>) {
    && |cuts| >= 1 && cuts[0] == 0 && cuts[|cuts| - 1] == |f|
    && forall i :: 0 <= i < |cuts| - 1 ==> Group(f, q, cuts[i], cuts[i + 1])
  }

  lemma RrRoundReaches(c: Config, f: string, g: GetState, b: nat, e: nat)
    requires c.policy.Rr? && GetInv(c, f, g) && g.off < |f|
    requires b <= g.off && Group(f, c.quantum, b, e)
    ensures e <= GetRound(c, f, g).0.off
  {
    var off := g.off;
    var o := Sweep(c, f, off, c.quantum, 0).off;
    SweepStops(c, f, off, c.quantum, 0);
    RrFirstLine(c, f, off);
    if off < e {
      NoBoundaryInside(f, off, e);
      if b < off {
        NoBoundaryInside(f, b, off);
      }
      if o < e {
        NoBoundaryInside(f, o, e);
      }
    }
  }

  /** The greedy rounds are never behind any other cutting. */
  lemma {:induction false} RrStaysAhead(c: Config, f: string, cuts: seq<nat>, k: nat)
    requires c.Valid() && |f| <= U64_MAX && c.policy.Rr?
    requires Cutting(f, c.quantum, cuts) && k < |cuts| && Live(c, f, k)
    ensures cuts[k] <= After(c, f, k).off
  {
    if k > 0 {
      RrStaysAhead(c, f, cuts, k - 1);
      LiveInv(c, f, k - 1);
      assert Group(f, c.quantum, cuts[k - 1], cuts[k]);
      RrRoundReaches(c, f, After(c, f, k - 1), cuts[k - 1], cuts[k]);
    }
  }

  /** No cutting of the file has fewer groups than an rr GET has rounds. */
  lemma RrOptimal(c: Config, f: string, cuts: seq<nat>)
    requires c.Valid() && |f| <= U64_MAX && c.policy.Rr?
    requires Cutting(f, c.quantum, cuts)
    ensures TotalRounds(c, f) <= Max(1, |cuts| - 1)
  {
    hide GetRound;
    var n, m := TotalRounds(c, f), |cuts| - 1;
    if n > 1 && m < n {
      TotalIsExact(c, f, m);
      RrStaysAhead(c, f, cuts, m);
      LiveInv(c, f, m);
      TotalIsExact(c, f, n - 1);
      LiveInv(c, f, n - 1);
    }
  }

  /** The rounds themselves are a cutting with that many groups. */
  lemma {:induction false} RrAttains(c: Config, f: string) returns (cuts: seq<nat>)
    requires c.Valid() && |f| <= U64_MAX && c.policy.Rr?
    ensures Cutting(f, c.quantum, cuts)
    ensures TotalRounds(c, f) == Max(1, |cuts| - 1)
  {
    hide GetRound, GetInv, RoundsLeft, CountLong, Sum;
    var n := TotalRounds(c, f);
    TotalIsExact(c, f, n);
    if f == "" {
      cuts := [0];
      TotalIsExact(c, f, n - 1);
      RrStep(c, f, n - 1);
    } else {
      cuts := seq(n + 1, (k: nat) => After(c, f, k).off);
      forall i | 0 <= i < n
        ensures Group(f, c.quantum, cuts[i], cuts[i + 1])
      {
        TotalIsExact(c, f, i);
        RrStep(c, f, i);
      }
    }
  }

  /** Two consecutive rr rounds always send more than a quantum. */
  lemma RrTwoRounds(c: Config, f: string, k: nat)
    requires c.Valid() && |f| <= U64_MAX && c.policy.Rr? && Live(c, f, k + 1)
    ensures After(c, f, k + 2).off - After(c, f, k).off > c.quantum
  {
    hide GetRound;
    RrStep(c, f, k);
    RrStep(c, f, k + 1);
  }

  lemma {:induction false} RrPairsOfRounds(c: Config, f: string, m: nat)
    requires c.Valid() && |f| <= U64_MAX && c.policy.Rr? && 2 * m <= TotalRounds(c, f)
    ensures Times(m, c.quantum + 1) <= After(c, f, 2 * m).off
  {
    hide GetRound;
    if m > 0 {
      RrPairsOfRounds(c, f, m - 1);
      var k := 2 * (m - 1);
      TotalIsExact(c, f, k + 1);
      RrTwoRounds(c, f, k);
    }
  }

  /** However long the lines are, rr needs at most `2 * floor(bytes / (Q + 1)) + 1` rounds. */
  lemma RrWorstCase(c: Config, f: string)
    requires c.Valid() && |f| <= U64_MAX && c.policy.Rr?
    ensures TotalRounds(c, f) <= 2 * (|f| / (c.quantum + 1)) + 1
  {
    var m := TotalRounds(c, f) / 2;
    RrPairsOfRounds(c, f, m);
    TimesIsProduct(m, c.quantum + 1);
    DivAtLeast(|f|, c.quantum + 1, m);
  }

  // ------------------------------------------------------------------ rr against drr

  lemma {:induction false} RrWithinQuanta(c: Config, f: string, k: nat)
    requires c.Valid() && |f| <= U64_MAX && c.policy.Rr? && CountLong(f, c.quantum, 0) == 0
    requires k <= TotalRounds(c, f)
    ensures var g := After(c, f, k);
            g.off <= Times(k, c.quantum) && Boundary(f, g.off) && g.escapes == []
  {
    hide GetRound;
    if k > 0 {
      RrWithinQuanta(c, f, k - 1);
      TotalIsExact(c, f, k - 1);
      RrStep(c, f, k - 1);
    }
  }

  /** If no line exceeds the quantum, drr is never behind rr and never needs more rounds. */
  lemma DrrAheadOfRr(rr: Config, drr: Config, f: string, k: nat)
    requires rr.Valid() && rr.policy.Rr? && drr == rr.(policy := Drr) && |f| <= U64_MAX
    requires CountLong(f, rr.quantum, 0) == 0
    ensures TotalRounds(drr, f) <= TotalRounds(rr, f)
    ensures k <= TotalRounds(drr, f) ==> After(rr, f, k).off <= After(drr, f, k).off
  {
    hide GetRound;
    var n, m := TotalRounds(rr, f), TotalRounds(drr, f);
    TotalIsExact(rr, f, n);
    RrWithinQuanta(rr, f, n);
    TimesIsProduct(n, rr.quantum);
    TimesIsProduct(k, rr.quantum);
    if n < m {
      TotalIsExact(drr, f, n);
      DrrClosedForm(drr, f, n);
    }
    if k <= m {
      RrWithinQuanta(rr, f, k);
      DrrLineLeavesInRound(drr, f, k, After(rr, f, k).off);
    }
  }

  // ------------------------------------------------------------------ PUT

  /** Bytes a PUT takes in one round. */
  function PutTake(c: Config, remaining: nat): nat {
    if Bounded(c.policy) then Min(c.quantum, remaining) else remaining
  }

  function PutLeft(c: Config, remaining: nat): (n: nat)
    requires c.Valid()
    ensures n >= 1
    decreases remaining
  {
    var after := remaining - PutTake(c, remaining);
    if after == 0 then 1 else 1 + PutLeft(c, after)
  }

  lemma CeilDivStep(n: nat, q: nat)
    requires 0 < q < n
    ensures CeilDiv(n, q) == CeilDiv(n - q, q) + 1 && CeilDiv(n - q, q) >= 1
  {
    var a := n - 1;
    assert n + q - 1 == a + q && (n - q) + q - 1 == a;
    DivUnique(a + q, q, a / q + 1, a % q);
    DivAtLeast(a, q, 1);
  }

  lemma {:induction false} PutRounds(c: Config, n: nat)
    requires c.Valid()
    ensures PutLeft(c, n) == if Bounded(c.policy) then Max(1, CeilDiv(n, c.quantum)) else 1
    decreases n
  {
    if Bounded(c.policy) {
      var q := c.quantum;
      if n > q {
        PutRounds(c, n - q);
        CeilDivStep(n, q);
        hide CeilDiv;
      } else if n > 0 {
        CeilDivUnique(n, q, 1);
        hide CeilDiv;
      } else {
        DivUnique(q - 1, q, 0, q - 1);
      }
    }
  }
}
