/** One end of a connection, and the loops that frame lines and exact-length bodies on it. */
module Net {
  import opened Bytes
  import opened Protocol

  const HEADER_RECV_MAX: nat := 512
  const HEADER_LINE_MAX: nat := 8192

  const HEADER_TOO_LONG := "header line too long"

  datatype RecvResult = Received(data: string) | PeerClosed | TimedOut | RecvBroken

  /** What the header reader reports when a call brings nothing. */
  function NoHeader(r: RecvResult): (error: string)
    requires !r.Received?
    ensures '\n' !in error
  {
    match r
    case PeerClosed => "peer closed before header line completed"
    case TimedOut => "header read timeout"
    case RecvBroken => "recv error"
  }

  datatype SendResult = Sent(n: nat) | Interrupted | SendFailed

  /** A connected socket. `unread` is what the peer sends and this end has not received;
      `wire` is what this end has handed to the kernel, in order. A call may come back short,
      or fail; on a `reliable` socket a call fails only when it could make no progress. */
  class Socket {
    var unread: string
    var wire: string
    var interrupts: nat      // signals that will still interrupt a call
    const reliable: bool

    constructor (unread: string, interrupts: nat, reliable: bool)
      ensures this.unread == unread && this.wire == "" && this.interrupts == interrupts
      ensures this.reliable == reliable
    {
      this.unread, this.wire, this.interrupts, this.reliable := unread, "", interrupts, reliable;
    }

    /** `recv` under its deadline: the next bytes, at least one and at most `max` of them, or none. */
    method Recv(max: nat) returns (r: RecvResult)
      requires max > 0
      modifies this`unread
      ensures r.Received? ==> 1 <= |r.data| <= max && r.data + unread == old(unread)
      ensures !r.Received? ==> unread == old(unread)
      ensures reliable && old(unread) != "" ==> r.Received?
    {
      var least := if reliable && unread != "" then 1 else 0;
      var most := if |unread| < max then |unread| else max;
      var n :| least <= n <= most;
      if n == 0 {
        var late: bool, broken: bool := *, *;
        return if late then TimedOut else if broken then RecvBroken else PeerClosed;
      }
      r := Received(unread[..n]);
      unread := unread[n..];
    }

    /** `send`: the kernel takes at least one byte, or the call is interrupted, or it fails. */
    method Send(data: string) returns (r: SendResult)
      requires data != ""
      modifies this`wire, this`interrupts
      ensures r.Sent? ==> 1 <= r.n <= |data| && wire == old(wire) + data[..r.n] && interrupts == old(interrupts)
      ensures r.Interrupted? ==> wire == old(wire) && interrupts < old(interrupts)
      ensures r.SendFailed? ==> !reliable && wire == old(wire) && interrupts == old(interrupts)
    {
      var stop: bool := *;
      if stop && interrupts > 0 {
        interrupts := interrupts - 1;
        return Interrupted;
      }
      if stop && !reliable {
        return SendFailed;
      }
      var n :| 1 <= n <= |data|;
      wire := wire + data[..n];
      return Sent(n);
    }

    /** Either all of `data` is out, or less than all of it and the connection has failed. */
    method SendAll(data: string) returns (ok: bool)
      modifies this`wire, this`interrupts
      ensures ok ==> wire == old(wire) + data
      ensures !ok ==> !reliable && old(wire) <= wire < old(wire) + data
    {
      var sent := 0;
      while sent < |data|
        invariant 0 <= sent <= |data|
        invariant wire == old(wire) + data[..sent]
        decreases |data| - sent, interrupts
      {
        var s := Send(data[sent..]);
        if s.Interrupted? {
          continue;
        }
        if s.SendFailed? {
          return false;
        }
        assert data[..sent] + data[sent..][..s.n] == data[..sent + s.n];
        sent := sent + s.n;
      }
      assert data[..sent] == data;
      return true;
    }

    /** Reads one header line; bytes received past its newline are handed back. */
    method ReadHeaderLine() returns (r: HeaderRead, ghost chunks: seq<string>)
      modifies this`unread
      ensures Pieces(chunks)
      ensures Concat(chunks) + unread == old(unread)
      ensures match r
              case Line(line, leftover) => Feed(chunks) == Got(line, leftover)
              case HeaderError(e) =>
                && '\n' !in e
                && (|| (Feed(chunks) == TooLong && e == HEADER_TOO_LONG)
                    || (Feed(chunks).More? && (reliable ==> unread == "")
                        && exists n: RecvResult :: !n.Received? && e == NoHeader(n)))
    {
      var line := "";
      chunks := [];
      hide ScanPiece;
      while true
        invariant Pieces(chunks) && Feed(chunks) == More(line)
        invariant Concat(chunks) + unread == old(unread)
        decreases |unread|
      {
        var n := Recv(HEADER_RECV_MAX);
        if !n.Received? {
          return HeaderError(NoHeader(n)), chunks;
        }
        var buf := n.data;
        PieceReceived(chunks, buf);
        ScanOfPiece(line, buf);
        hide Feed, Pieces, Concat;
        assert Concat(chunks) + buf + unread == Concat(chunks) + (buf + unread);
        chunks := chunks + [buf];
        var nl := IndexOf(buf, '\n');
        if nl < |buf| {
          return Line(line + buf[..nl], buf[nl + 1..]), chunks;
        }
        line := line + buf;
        if |line| > HEADER_LINE_MAX {
          return HeaderError(HEADER_TOO_LONG), chunks;
        }
      }
    }

    /** Takes exactly `n` bytes, first from `leftover`, then from the connection. */
    method ReadExact(leftover: string, n: nat) returns (ok: bool, out: string, rest: string)
      modifies this`unread
      ensures ok ==> |out| == n && out + rest + unread == leftover + old(unread)
      ensures ok && rest != "" ==> unread == old(unread)
      ensures reliable ==> (ok <==> n <= |leftover| + |old(unread)|)
    {
      var take := Min(|leftover|, n);
      out, rest := leftover[..take], leftover[take..];
      while |out| < n
        invariant |out| <= n
        invariant |out| < n ==> rest == ""
        invariant out + rest + unread == leftover + old(unread)
        invariant rest != "" ==> unread == old(unread)
        decreases n - |out|
      {
        var r := Recv(n - |out|);
        if !r.Received? {
          assert reliable ==> unread == "" && |leftover + old(unread)| == |out|;
          return false, out, rest;
        }
        assert out + r.data + unread == out + (r.data + unread);
        out := out + r.data;
      }
      assert |out + rest + unread| == |leftover| + |old(unread)|;
      return true, out, rest;
    }
  }

  // ------------------------------------------------------------------ framing

  datatype HeaderRead = Line(line: string, leftover: string) | HeaderError(error: string)

  datatype Scan = More(line: string) | Got(line: string, leftover: string) | TooLong

  /** What the header loop makes of one received piece. */
  function ScanPiece(line: string, buf: string): Scan {
    var nl := IndexOf(buf, '\n');
    if nl < |buf| then Got(line + buf[..nl], buf[nl + 1..])
    else if |line + buf| > HEADER_LINE_MAX then TooLong
    else More(line + buf)
  }

  function Feed(chunks: seq<string>): Scan {
    if chunks == [] then More("")
    else match Feed(chunks[..|chunks| - 1])
         case More(line) => ScanPiece(line, chunks[|chunks| - 1])
         case r => r
  }

  /** Pieces as `recv` delivers them, none received after the loop has its answer. */
  predicate Pieces(chunks: seq<string>) {
    && (forall i :: 0 <= i < |chunks| ==> 1 <= |chunks[i]| <= HEADER_RECV_MAX)
    && (chunks != [] ==> Feed(chunks[..|chunks| - 1]).More?)
  }

  lemma ScanOfPiece(line: string, buf: string)
    ensures var nl := IndexOf(buf, '\n');
            ScanPiece(line, buf) == if nl < |buf| then Got(line + buf[..nl], buf[nl + 1..])
            else if |line + buf| > HEADER_LINE_MAX then TooLong else More(line + buf)
  {
  }

  lemma PieceReceived(chunks: seq<string>, buf: string)
    requires Pieces(chunks) && Feed(chunks).More? && 1 <= |buf| <= HEADER_RECV_MAX
    ensures Pieces(chunks + [buf])
    ensures Feed(chunks + [buf]) == ScanPiece(Feed(chunks).line, buf)
    ensures Concat(chunks + [buf]) == Concat(chunks) + buf
  {
    assert (chunks + [buf])[..|chunks|] == chunks;
    ConcatAppend(chunks, buf);
  }

  lemma PiecesPrefix(init: seq<string>)
    requires forall i :: 0 <= i < |init| ==> 1 <= |init[i]| <= HEADER_RECV_MAX
    requires Feed(init).More?
    ensures Pieces(init)
  {
  }

  lemma {:induction false} FeedMeaning(chunks: seq<string>)
    requires Pieces(chunks)
    ensures match Feed(chunks)
            case More(l) => l == Concat(chunks) && '\n' !in l && |l| <= HEADER_LINE_MAX
            case Got(l, rest) =>
              l + "\n" + rest == Concat(chunks) && '\n' !in l && |l| < HEADER_LINE_MAX + HEADER_RECV_MAX
            case TooLong => '\n' !in Concat(chunks) && |Concat(chunks)| > HEADER_LINE_MAX
  {
    if chunks != [] {
      var n := |chunks| - 1;
      var init, last := chunks[..n], chunks[n];
      assert chunks == init + [last];
      PiecesPrefix(init);
      FeedMeaning(init);
      PieceReceived(init, last);
      PieceMeaning(Feed(init).line, last);
    }
  }

  lemma PieceMeaning(line: string, buf: string)
    requires '\n' !in line && |line| <= HEADER_LINE_MAX && 1 <= |buf| <= HEADER_RECV_MAX
    ensures match ScanPiece(line, buf)
            case More(l) => l == line + buf && '\n' !in l && |l| <= HEADER_LINE_MAX
            case Got(l, rest) => l + "\n" + rest == line + buf && '\n' !in l && |l| < HEADER_LINE_MAX + HEADER_RECV_MAX
            case TooLong => '\n' !in line + buf && |line + buf| > HEADER_LINE_MAX
  {
    var nl := IndexOf(buf, '\n');
    IndexOfFirst(buf, '\n');
    if nl < |buf| {
      assert buf == buf[..nl] + "\n" + buf[nl + 1..];
    } else {
      assert buf[..nl] == buf;
    }
  }

  /** However the stream is chopped up, the reader that succeeds returns the bytes before the
      first newline, and what it hands back continues with the rest of the stream. A first
      newline at index 8192 or less is never refused, one past index 8703 never accepted. */
  lemma Framing(stream: string, chunks: seq<string>, rest: string)
    requires Pieces(chunks) && Concat(chunks) + rest == stream
    ensures var k := IndexOf(stream, '\n');
            && (Feed(chunks).Got? ==> k < |stream| && Feed(chunks).line == stream[..k]
                                      && Feed(chunks).leftover + rest == stream[k + 1..])
            && (k < |stream| && k <= HEADER_LINE_MAX ==> !Feed(chunks).TooLong?)
            && (k > HEADER_LINE_MAX + HEADER_RECV_MAX - 1 ==> !Feed(chunks).Got?)
  {
    hide *;
    FeedMeaning(chunks);
    var s := Concat(chunks);
    if Feed(chunks).Got? {
      var line, leftover := Feed(chunks).line, Feed(chunks).leftover;
      assert line + "\n" + leftover + rest == line + "\n" + (leftover + rest);
      GotFirstLine(stream, line, leftover + rest);
    } else if Feed(chunks).TooLong? {
      IndexOfAt(s, rest, '\n');
    }
  }

  lemma GotFirstLine(stream: string, line: string, tail: string)
    requires '\n' !in line && stream == line + "\n" + tail
    ensures IndexOf(stream, '\n') == |line|
    ensures stream[..|line|] == line && stream[|line| + 1..] == tail
  {
    assert stream == line + ("\n" + tail);
    IndexOfAt(line, "\n" + tail, '\n');
  }

  /** `n` full pieces of the stream. */
  function FullPieces(stream: string, n: nat): (c: seq<string>)
    requires n * HEADER_RECV_MAX <= |stream|
    ensures |c| == n
  {
    if n == 0 then []
    else FullPieces(stream, n - 1) + [stream[(n - 1) * HEADER_RECV_MAX..n * HEADER_RECV_MAX]]
  }

  lemma {:induction false} FeedFullPieces(stream: string, n: nat)
    requires n <= 16 && n * HEADER_RECV_MAX <= |stream|
    requires '\n' !in stream[..n * HEADER_RECV_MAX]
    ensures var c, m := FullPieces(stream, n), n * HEADER_RECV_MAX;
            Pieces(c) && Feed(c) == More(stream[..m]) && Concat(c) == stream[..m]
  {
    if n > 0 {
      var m, m' := n * HEADER_RECV_MAX, (n - 1) * HEADER_RECV_MAX;
      var last := stream[m'..m];
      assert stream[..m] == stream[..m'] + last;
      FeedFullPieces(stream, n - 1);
      PieceReceived(FullPieces(stream, n - 1), last);
      PieceMeaning(stream[..m'], last);
      GotHasNewline(stream[..m'], last);
    }
  }

  lemma GotHasNewline(line: string, buf: string)
    ensures ScanPiece(line, buf).Got? <==> '\n' in buf
  {
    IndexOfFirst(buf, '\n');
    var nl := IndexOf(buf, '\n');
    if nl == |buf| {
      assert buf[..nl] == buf;
    }
  }

  /** Between the two bounds the answer depends on how the stream is chopped:
      every such line is accepted in one way and refused in another. */
  lemma FramingBetweenBounds(stream: string) returns (good: seq<string>, bad: seq<string>)
    requires var k := IndexOf(stream, '\n');
             k < |stream| && HEADER_LINE_MAX < k < HEADER_LINE_MAX + HEADER_RECV_MAX
    ensures Pieces(good) && Concat(good) <= stream && Feed(good).Got?
    ensures Pieces(bad) && Concat(bad) <= stream && Feed(bad).TooLong?
  {
    var k, m := IndexOf(stream, '\n'), HEADER_LINE_MAX;
    IndexOfFirst(stream, '\n');
    assert stream[..m] == stream[..k][..m];
    assert 16 * HEADER_RECV_MAX == m;
    var full := FullPieces(stream, 16);
    FeedFullPieces(stream, 16);
    var a, b := stream[m..k + 1], stream[m..m + 1];
    assert a[k - m] == '\n';
    assert b[0] == stream[..k][m];
    PieceReceived(full, a);
    GotHasNewline(stream[..m], a);
    PieceReceived(full, b);
    GotHasNewline(stream[..m], b);
    good, bad := full + [a], full + [b];
    assert stream[..m] + a == stream[..k + 1] && stream[..m] + b == stream[..m + 1];
  }
}
