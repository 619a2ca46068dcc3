/** What a line of a file is: the bytes up to and including the next newline,
    or the rest of the file when no newline follows. */
module Lines {
  import opened Bytes

  const NL := '\n'

  /** Length of the line that starts at `off`; zero only at the end of the file. */
  function LineLen(f: string, off: nat): (len: nat)
    requires off <= |f|
    ensures off + len <= |f|
    ensures off < |f| ==> len > 0
    decreases |f| - off
  {
    if off == |f| then 0
    else if f[off] == NL then 1
    else 1 + LineLen(f, off + 1)
  }

  predicate Boundary(f: string, off: nat) {
    off <= |f| && (off == 0 || off == |f| || f[off - 1] == NL)
  }

  lemma {:induction false} LineLenMeaning(f: string, off: nat)
    requires off < |f|
    ensures var e := off + LineLen(f, off);
            && (forall i :: off <= i < e - 1 ==> f[i] != NL)
            && (f[e - 1] == NL || e == |f|)
    decreases |f| - off
  {
    if f[off] != NL && off + 1 < |f| {
      LineLenMeaning(f, off + 1);
    }
  }

  /** Scanning forward over bytes that are not newlines. */
  lemma {:induction false} LineLenSkip(f: string, off: nat, pos: nat)
    requires off <= pos <= |f|
    requires forall i :: off <= i < pos ==> f[i] != NL
    ensures LineLen(f, off) == pos - off + LineLen(f, pos)
    decreases pos - off
  {
    if off < pos {
      LineLenSkip(f, off + 1, pos);
    }
  }

  lemma BoundaryNext(f: string, off: nat)
    requires off < |f|
    ensures Boundary(f, off + LineLen(f, off))
  {
    LineLenMeaning(f, off);
  }

  lemma NoBoundaryInside(f: string, off: nat, b: nat)
    requires off < b <= |f| && Boundary(f, b)
    ensures off + LineLen(f, off) <= b
  {
    LineLenMeaning(f, off);
  }

  /** The line containing the byte at `x` starts at the last boundary not after it. */
  lemma LastBoundary(f: string, off: nat, x: nat, b: nat)
    requires off <= x && off <= |f| && (off < |f| ==> x < off + LineLen(f, off))
    requires Boundary(f, b)
    ensures b <= x && b <= |f| ==> b <= off
  {
    if off < b <= |f| {
      NoBoundaryInside(f, off, b);
    }
  }

  /** The lines from `off` on, as the round loop meets them. */
  function LinesFrom(f: string, off: nat): seq<string>
    requires off <= |f|
    decreases |f| - off
  {
    if off == |f| then []
    else [f[off..off + LineLen(f, off)]] + LinesFrom(f, off + LineLen(f, off))
  }

  /** A line holds no newline except as its last byte. */
  predicate IsLine(l: string) {
    l != "" && forall i :: 0 <= i < |l| - 1 ==> l[i] != NL
  }

  lemma {:induction false} LinesPartitionFile(f: string, off: nat)
    requires off <= |f|
    ensures Concat(LinesFrom(f, off)) == f[off..]
    ensures forall l :: l in LinesFrom(f, off) ==> IsLine(l)
    ensures forall i :: 0 <= i < |LinesFrom(f, off)| - 1 ==>
                          LinesFrom(f, off)[i] != "" && LinesFrom(f, off)[i][|LinesFrom(f, off)[i]| - 1] == NL
    decreases |f| - off
  {
    if off < |f| {
      var e := off + LineLen(f, off);
      LineLenMeaning(f, off);
      LinesPartitionFile(f, e);
      var ls, rest := LinesFrom(f, off), LinesFrom(f, e);
      assert f[off..] == f[off..e] + f[e..];
      assert ls[1..] == rest;
      forall i | 0 <= i < |ls| - 1
        ensures ls[i] != "" && ls[i][|ls[i]| - 1] == NL
      {
        if i == 0 {
          assert rest != [] && e < |f|;
        } else {
          assert ls[i] == rest[i - 1];
        }
      }
    }
  }

  /** Where the `n`-th line from `off` ends. */
  function SkipLines(f: string, off: nat, n: nat): (e: nat)
    requires off <= |f|
    ensures off <= e <= |f|
  {
    if n == 0 then off
    else
      var m := SkipLines(f, off, n - 1);
      m + LineLen(f, m)
  }

  /** How many of the lines from `off` on are longer than `q`. */
  function CountLong(f: string, q: nat, off: nat): nat
    requires off <= |f|
    decreases |f| - off
  {
    if off == |f| then 0
    else (if LineLen(f, off) > q then 1 else 0) + CountLong(f, q, off + LineLen(f, off))
  }

  /** The lengths of the lines from `off` on that are longer than `q`, in order. */
  function LongFrom(f: string, q: nat, off: nat): seq<nat>
    requires off <= |f|
    decreases |f| - off
  {
    if off == |f| then []
    else (if LineLen(f, off) > q then [LineLen(f, off)] else []) + LongFrom(f, q, off + LineLen(f, off))
  }

  /** Length of the longest line from `off` on. */
  function MaxLine(f: string, off: nat): nat
    requires off <= |f|
    decreases |f| - off
  {
    if off == |f| then 0 else Max(LineLen(f, off), MaxLine(f, off + LineLen(f, off)))
  }

  lemma {:induction false} MaxLineBounds(f: string, from: nat, off: nat)
    requires from <= off <= |f| && Boundary(f, off) && off < |f|
    ensures LineLen(f, off) <= MaxLine(f, from)
    decreases |f| - from
  {
    if from < off {
      NoBoundaryInside(f, from, off);
      MaxLineBounds(f, from + LineLen(f, from), off);
    }
  }
}
