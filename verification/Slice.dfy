/** One scheduling round of one request. */
module Slice {
  import opened Bytes
  import opened Lines
  import opened Protocol
  import opened Net
  import opened Files
  import opened Rounds

  const CHUNK: nat := 64 * 1024
  const SCAN_BUFFER: nat := 16 * 1024

  datatype Op = OpGet | OpPut

  datatype SliceResult = SliceDone | SlicePreempted | SliceFailed

  /** Which call of a failed PUT round it was that failed. */
  datatype PutFault = NoFault | OpenFault | FirstOkFault | ReadFault | WriteFault | RenameFault | LastOkFault

  const SHORT_BODY := "body shorter than declared"
  const CANNOT_WRITE := "cannot write file"

  /** The policy and quantum, and how many whole lines go into one write. */
  datatype SliceParams = SliceParams(config: Config, pLines: int)

  /** An admitted request; everything that survives a preemption lives here. */
  class Request {
    const id: nat
    const op: Op
    const filename: string
    const bytes: nat
    const arrivalNs: nat
    const path: string

    var startNs: nat
    var rounds: nat
    var forfeited: nat
    var deficit: nat
    var byteOffset: nat
    var leftover: string
    var tmpPath: string
    var file: Inode?
    var started: bool
    var escapes: seq<nat>     // line lengths logged by the over-long-line escape
    ghost const pinned: string   // the file when its size was taken

    constructor (id: nat, op: Op, filename: string, bytes: nat, arrivalNs: nat, path: string, leftover: string,
                 file: Inode?)
      ensures this.id == id && this.op == op && this.filename == filename && this.bytes == bytes
      ensures this.arrivalNs == arrivalNs && this.path == path && this.leftover == leftover && this.file == file
      ensures tmpPath == "" && !started && State() == START && startNs == 0
      ensures op.OpGet? && file != null && bytes == |file.data| ==> pinned == file.data
    {
      this.id, this.op, this.filename, this.bytes, this.path := id, op, filename, bytes, path;
      this.arrivalNs := arrivalNs;
      this.leftover, this.file, this.pinned := leftover, file, if file == null then "" else file.data;
      startNs := 0;
      rounds, forfeited, deficit, byteOffset, tmpPath, started, escapes := 0, 0, 0, 0, "", false, [];
    }

    function State(): GetState
      reads this
    {
      GetState(byteOffset, deficit, forfeited, rounds, escapes)
    }

    /** A GET that can take a round: its descriptor is open, and its size was the file's size. The file
        may have been cut short since. */
    ghost predicate GetReady()
      reads this, file
    {
      && op.OpGet? && file != null
      && |pinned| == bytes <= U64_MAX && byteOffset <= bytes && Agrees(file, pinned)
    }

    /** The version of the file this GET was sized on. */
    ghost function Content(): string
      requires GetReady()
      reads this, file
    {
      pinned
    }

    /** The `OK` line a round owes before anything else. */
    function Greeting(): string
      reads this
    {
      if started then "" else FormatOk(if op.OpGet? then bytes else 0)
    }

    /** A PUT that can take a round: once started, its temporary name still leads to its descriptor. */
    ghost predicate PutReady(fs: FileSystem)
      reads this, fs, file
    {
      && op.OpPut? && byteOffset <= bytes
      && (started ==> file != null && tmpPath == TempPath() && tmpPath in fs.names && fs.names[tmpPath] == file
                      && |file.data| == byteOffset)
      && (!started ==> file == null && tmpPath == "" && byteOffset == 0)
    }

    /** What a PUT has written so far. */
    ghost function Written(): string
      reads this, file
    {
      if started && file != null then file.data else ""
    }

    function TempPath(): string {
      TempOf(path, id)
    }
  }

  // ------------------------------------------------------------------ reading the file

  /** What is still there of the contents `f` is as it was. */
  ghost predicate Agrees(file: Inode, f: string)
    reads file
  {
    forall i :: 0 <= i < |f| && i < |file.data| ==> file.data[i] == f[i]
  }

  /** Every read of the contents `f` can succeed: none fails by itself, and the file has not been cut. */
  ghost predicate Serves(file: Inode, f: string)
    reads file
  {
    file.reliable && |f| <= |file.data|
  }

  /** What one read of the scan says about the contents. */
  lemma Scanned(f: string, file: Inode, pos: nat, buf: string)
    requires Agrees(file, f) && pos + |buf| <= |f| && pos + |buf| <= |file.data|
    requires buf == file.data[pos..pos + |buf|]
    ensures var nl := IndexOf(buf, NL);
            && (forall i :: pos <= i < pos + nl ==> f[i] != NL)
            && (nl < |buf| ==> f[pos + nl] == NL)
  {
    hide *;
    var nl := IndexOf(buf, NL);
    forall i | pos <= i < pos + nl
      ensures f[i] != NL
    {
      NoneBefore(buf, NL, i - pos);
      SameByte(f, file, pos, buf, i - pos);
    }
    if nl < |buf| {
      SameByte(f, file, pos, buf, nl);
    }
  }

  lemma SameByte(f: string, file: Inode, pos: nat, buf: string, i: nat)
    requires Agrees(file, f) && pos + |buf| <= |f| && pos + |buf| <= |file.data|
    requires buf == file.data[pos..pos + |buf|] && i < |buf|
    ensures f[pos + i] == buf[i]
  {
    assert file.data[pos + i] == f[pos + i];
  }

  /** Scans for the newline in buffered reads; 0 means a read failed or found the file cut short. */
  method LineLengthAt(file: Inode, offset: nat, fileSize: nat, ghost f: string) returns (len: nat)
    requires offset <= fileSize == |f| && Agrees(file, f)
    ensures len == LineLen(f, offset) || (len == 0 && !Serves(file, f))
  {
    var pos := offset;
    while pos < fileSize
      invariant offset <= pos <= fileSize
      invariant forall i :: offset <= i < pos ==> f[i] != NL
    {
      var buf := file.Pread(Min(SCAN_BUFFER, fileSize - pos), pos);
      if buf == "" {
        return 0;
      }
      var nl := IndexOf(buf, NL);
      Scanned(f, file, pos, buf);
      hide Agrees, IndexOf;
      if nl < |buf| {
        LineLenSkip(f, offset, pos + nl);
        return (pos - offset) + nl + 1;
      }
      pos := pos + |buf|;
    }
    LineLenSkip(f, offset, pos);
    return fileSize - offset;
  }

  /** Copies a range of the file to the socket through a bounded buffer. */
  method StreamRange(file: Inode, sock: Socket, offset: nat, len: nat, ghost f: string) returns (ok: bool)
    requires Agrees(file, f) && offset + len <= |f|
    modifies sock`wire, sock`interrupts
    ensures ok ==> sock.wire == old(sock.wire) + f[offset..offset + len]
    ensures !ok ==> !(sock.reliable && Serves(file, f))
    ensures !ok ==> old(sock.wire) <= sock.wire <= old(sock.wire) + f[offset..offset + len]
  {
    ghost var data := f[offset..offset + len];
    var done := 0;
    while done < len
      invariant 0 <= done <= len
      invariant sock.wire == old(sock.wire) + data[..done]
    {
      var buf := file.Pread(Min(CHUNK, len - done), offset + done);
      if buf == "" {
        return false;
      }
      SameBytes(f, file, offset, len, done, buf);
      var sent := sock.SendAll(buf);
      if !sent {
        PrefixStep(old(sock.wire), data, done, buf, sock.wire);
        return false;
      }
      done := done + |buf|;
    }
    assert data[..done] == data;
    return true;
  }

  /** What was read is what the contents hold there. */
  lemma SameBytes(f: string, file: Inode, offset: nat, len: nat, done: nat, buf: string)
    requires Agrees(file, f) && offset + len <= |f| && done + |buf| <= len
    requires offset + done + |buf| <= |file.data| && buf == file.data[offset + done..offset + done + |buf|]
    ensures var d := f[offset..offset + len]; d[..done] + buf == d[..done + |buf|]
    ensures f[offset..offset + done] + buf == f[offset..offset + done + |buf|]
  {
    forall i | 0 <= i < |buf| ensures buf[i] == f[offset + done + i] {
      assert file.data[offset + done + i] == f[offset + done + i];
    }
  }

  lemma PrefixStep(w0: string, data: string, done: nat, buf: string, w: string)
    requires done + |buf| <= |data| && data[..done] + buf == data[..done + |buf|]
    requires w0 + data[..done] <= w <= w0 + data[..done] + buf
    ensures w0 <= w <= w0 + data
  {
    assert w0 + data[..done] + buf == w0 + data[..done + |buf|];
    assert w0 + data == w0 + data[..done + |buf|] + data[done + |buf|..];
  }

  /** Whole lines collected for one write. */
  class Batch {
    var data: string
    var lines: nat

    constructor ()
      ensures data == "" && lines == 0
    {
      data, lines := "", 0;
    }

    method Flush(sock: Socket) returns (ok: bool)
      modifies this, sock`wire, sock`interrupts
      ensures data == "" && lines == 0
      ensures ok ==> sock.wire == old(sock.wire) + old(data)
      ensures !ok ==> !sock.reliable && old(sock.wire) <= sock.wire <= old(sock.wire) + old(data)
    {
      ok := true;
      if data != "" {
        ok := sock.SendAll(data);
      }
      data, lines := "", 0;
    }

    /** Appends a range of the file, or leaves the batch as it was. */
    method AppendRange(file: Inode, offset: nat, len: nat, ghost f: string) returns (ok: bool)
      requires Agrees(file, f) && offset + len <= |f|
      modifies this`data
      ensures ok ==> data == old(data) + f[offset..offset + len]
      ensures !ok ==> data == old(data) && !Serves(file, f)
    {
      var done := 0;
      while done < len
        invariant 0 <= done <= len
        invariant data == old(data) + f[offset..offset + done]
      {
        var buf := file.Pread(len - done, offset + done);
        if buf == "" {
          data := data[..|data| - done];
          return false;
        }
        SameBytes(f, file, offset, len, done, buf);
        data := data + buf;
        done := done + |buf|;
      }
      return true;
    }
  }

  // ------------------------------------------------------------------ GET

  /** The wire and the pending batch together hold exactly the bytes of the file from `off0` up to
      `off`, after what was on the wire before. */
  ghost predicate InStep(wire: string, pending: string, w: string, f: string, off0: nat, off: nat) {
    off0 <= off <= |f| && wire + pending == w + f[off0..off] && w <= wire
  }

  /** The wire holds a prefix of what it will hold when the rest of the file is out. */
  ghost predicate Partial(wire: string, w: string, f: string, off0: nat) {
    off0 <= |f| && w <= wire <= w + f[off0..]
  }

  lemma InStepIsPartial(wire: string, pending: string, w: string, f: string, off0: nat, off: nat, cut: string)
    requires InStep(wire, pending, w, f, off0, off) && wire <= cut <= wire + pending
    ensures Partial(cut, w, f, off0)
  {
    assert f[off0..] == f[off0..off] + f[off..];
    assert w + f[off0..] == w + f[off0..off] + f[off..];
  }

  lemma InStepGrows(wire: string, pending: string, w: string, f: string, off0: nat, off: nat, len: nat)
    requires InStep(wire, pending, w, f, off0, off) && off + len <= |f|
    ensures InStep(wire, pending + f[off..off + len], w, f, off0, off + len)
  {
    assert f[off0..off] + f[off..off + len] == f[off0..off + len];
    assert wire + (pending + f[off..off + len]) == w + f[off0..off] + f[off..off + len];
  }

  method FlushBatch(sock: Socket, batch: Batch, ghost w: string, ghost f: string, ghost off0: nat, ghost off: nat)
    returns (ok: bool)
    requires InStep(sock.wire, batch.data, w, f, off0, off)
    modifies batch, sock`wire, sock`interrupts
    ensures ok ==> batch.data == "" && batch.lines == 0 && InStep(sock.wire, "", w, f, off0, off)
    ensures !ok ==> !sock.reliable && Partial(sock.wire, w, f, off0)
  {
    ok := batch.Flush(sock);
    if !ok {
      InStepIsPartial(old(sock.wire), old(batch.data), w, f, off0, off, sock.wire);
    }
  }

  method StreamLine(file: Inode, sock: Socket, off: nat, len: nat, ghost w: string, ghost f: string, ghost off0: nat)
    returns (ok: bool)
    requires Agrees(file, f) && off + len <= |f| && InStep(sock.wire, "", w, f, off0, off)
    modifies sock`wire, sock`interrupts
    ensures ok ==> InStep(sock.wire, "", w, f, off0, off + len)
    ensures !ok ==> !(sock.reliable && Serves(file, f)) && Partial(sock.wire, w, f, off0)
  {
    InStepGrows(sock.wire, "", w, f, off0, off, len);
    ok := StreamRange(file, sock, off, len, f);
    assert "" + f[off..off + len] == f[off..off + len];
    if !ok {
      InStepIsPartial(old(sock.wire), f[off..off + len], w, f, off0, off + len, sock.wire);
    }
  }

  /** The batch holds the last `lines` whole lines before `off`, fewer than go into one write. */
  ghost predicate Grouped(f: string, off: nat, data: string, lines: nat, p: nat) {
    && lines < p && |data| <= off <= |f|
    && data == f[off - |data|..off] && off == SkipLines(f, off - |data|, lines)
  }

  lemma NoGroup(f: string, off: nat, p: nat)
    requires off <= |f| && p >= 1
    ensures Grouped(f, off, "", 0, p)
  {
  }

  lemma GroupSize(f: string, off: nat, data: string, lines: nat, p: nat)
    requires Grouped(f, off, data, lines, p)
    ensures lines < p && off <= |f| && (lines == 0 ==> data == "")
  {
  }

  lemma SlicesMeet(f: string, a: nat, b: nat, c: nat)
    requires a <= b <= c <= |f|
    ensures f[a..b] + f[b..c] == f[a..c]
  {
  }

  lemma OneMoreLine(f: string, off: nat, n: nat)
    requires off <= |f|
    ensures SkipLines(f, off, n + 1) == SkipLines(f, off, n) + LineLen(f, SkipLines(f, off, n))
  {
    hide LineLen;
  }

  lemma GroupGrows(f: string, off: nat, data: string, lines: nat, p: nat)
    requires Grouped(f, off, data, lines, p) && lines + 1 < p
    ensures Grouped(f, off + LineLen(f, off), data + f[off..off + LineLen(f, off)], lines + 1, p)
  {
    hide LineLen, SkipLines;
    OneMoreLine(f, off - |data|, lines);
    SlicesMeet(f, off - |data|, off, off + LineLen(f, off));
  }

  /** A line goes out: directly when it is longer than the chunk, else through the batch, which is
      written as soon as it has `p` lines. Every write of the batch carries whole lines, `p` of them
      unless a longer line follows or the round ends. */
  method EmitLine(file: Inode, sock: Socket, batch: Batch, off: nat, len: nat, p: nat,
                  ghost w: string, ghost f: string, ghost off0: nat)
    returns (ok: bool)
    requires Agrees(file, f) && off <= |f| && len == LineLen(f, off) && InStep(sock.wire, batch.data, w, f, off0, off)
    requires Grouped(f, off, batch.data, batch.lines, p)
    modifies batch, sock`wire, sock`interrupts
    ensures ok ==> InStep(sock.wire, batch.data, w, f, off0, off + len)
    ensures ok ==> Grouped(f, off + len, batch.data, batch.lines, p)
    ensures ok ==> batch.lines == if len > CHUNK || old(batch.lines) + 1 == p then 0 else old(batch.lines) + 1
    ensures ok && batch.lines > 0 ==> sock.wire == old(sock.wire)
    ensures ok && batch.lines == 0 ==> batch.data == ""
    ensures !ok ==> !(sock.reliable && Serves(file, f)) && Partial(sock.wire, w, f, off0)
  {
    GroupSize(f, off, batch.data, batch.lines, p);
    NoGroup(f, off + len, p);
    hide InStep, Partial, Grouped, SkipLines;
    if len > CHUNK {
      ok := FlushBatch(sock, batch, w, f, off0, off);
      if ok {
        ok := StreamLine(file, sock, off, len, w, f, off0);
      }
    } else {
      InStepIsPartial(sock.wire, batch.data, w, f, off0, off, sock.wire);
      InStepGrows(sock.wire, batch.data, w, f, off0, off, len);
      if batch.lines + 1 < p {
        GroupGrows(f, off, batch.data, batch.lines, p);
      }
      ok := batch.AppendRange(file, off, len, f);
      if ok {
        batch.lines := batch.lines + 1;
        if batch.lines >= p {
          ok := FlushBatch(sock, batch, w, f, off0, off + len);
        }
      }
    }
  }

  /** The request and the result of its round are those of the model's round. */
  ghost predicate Settled(r: Request, res: SliceResult, round: (GetState, Outcome))
    reads r
  {
    r.State() == round.0 && res == if round.1.Done? then SliceDone else SlicePreempted
  }

  /** The round ends with an over-long line sent whole. */
  method EscapeRound(r: Request, sock: Socket, batch: Batch, len: nat,
                     ghost w: string, ghost f: string, ghost off0: nat)
    returns (res: SliceResult)
    requires r.GetReady() && f == r.Content() && r.byteOffset + len <= |f|
    requires InStep(sock.wire, batch.data, w, f, off0, r.byteOffset)
    modifies r`byteOffset, r`escapes, batch, sock`wire, sock`interrupts
    ensures res.SliceFailed? ==>
              && r.byteOffset == old(r.byteOffset)
              && !(sock.reliable && Serves(r.file, f)) && Partial(sock.wire, w, f, off0)
    ensures !res.SliceFailed? ==>
              && r.State() == old(r.State()).(off := old(r.byteOffset) + len, escapes := old(r.escapes) + [len])
              && res == (if r.byteOffset >= |f| then SliceDone else SlicePreempted)
              && InStep(sock.wire, "", w, f, off0, r.byteOffset)
  {
    var flushed := FlushBatch(sock, batch, w, f, off0, r.byteOffset);
    if !flushed {
      return SliceFailed;
    }
    var streamed := StreamLine(r.file, sock, r.byteOffset, len, w, f, off0);
    if !streamed {
      return SliceFailed;
    }
    r.byteOffset := r.byteOffset + len;
    r.escapes := r.escapes + [len];
    return if r.byteOffset >= r.bytes then SliceDone else SlicePreempted;
  }

  /** The round ends because the next line does not fit in what is left. */
  method CutRound(r: Request, sock: Socket, batch: Batch, c: Config, left: nat,
                  ghost w: string, ghost f: string, ghost off0: nat)
    returns (res: SliceResult)
    requires r.file != null
    requires InStep(sock.wire, batch.data, w, f, off0, r.byteOffset)
    modifies r`forfeited, r`deficit, batch, sock`wire, sock`interrupts
    ensures res.SliceFailed? ==> !(sock.reliable && Serves(r.file, f)) && Partial(sock.wire, w, f, off0)
    ensures !res.SliceFailed? ==>
              && res.SlicePreempted?
              && r.State() == (if c.policy.Rr? then old(r.State()).(forfeited := old(r.forfeited) + left)
                               else old(r.State()).(deficit := left))
              && InStep(sock.wire, "", w, f, off0, r.byteOffset)
  {
    var flushed := FlushBatch(sock, batch, w, f, off0, r.byteOffset);
    if !flushed {
      return SliceFailed;
    }
    if c.policy.Rr? {
      r.forfeited := r.forfeited + left;
    } else {
      r.deficit := left;
    }
    return SlicePreempted;
  }

  /** The round ends because every byte of the file is out. */
  method FinishRound(r: Request, sock: Socket, batch: Batch, ghost w: string, ghost f: string, ghost off0: nat)
    returns (res: SliceResult)
    requires r.file != null
    requires InStep(sock.wire, batch.data, w, f, off0, r.byteOffset)
    modifies r`deficit, batch, sock`wire, sock`interrupts
    ensures res.SliceFailed? ==> !(sock.reliable && Serves(r.file, f)) && Partial(sock.wire, w, f, off0)
    ensures !res.SliceFailed? ==>
              && res.SliceDone? && r.State() == old(r.State()).(deficit := 0)
              && InStep(sock.wire, "", w, f, off0, r.byteOffset)
  {
    var flushed := FlushBatch(sock, batch, w, f, off0, r.byteOffset);
    if !flushed {
      return SliceFailed;
    }
    r.deficit := 0;
    return SliceDone;
  }

  /** One pass through the line loop: the next line goes out, or the round ends.
      `g` is the request's state when the loop was entered. */
  method NextLine(r: Request, sock: Socket, batch: Batch, c: Config, p: nat, left: nat, sent: nat,
                  ghost g: GetState, ghost w: string, ghost f: string)
    returns (over: bool, res: SliceResult, left': nat, sent': nat)
    requires r.GetReady() && f == r.Content() && r.byteOffset < r.bytes
    requires g.off <= r.byteOffset && r.State() == g.(off := r.byteOffset) && sent == r.byteOffset - g.off
    requires InStep(sock.wire, batch.data, w, f, g.off, r.byteOffset)
    requires Grouped(f, r.byteOffset, batch.data, batch.lines, p)
    modifies r`byteOffset, r`forfeited, r`deficit, r`escapes, batch, sock`wire, sock`interrupts
    ensures old(r.byteOffset) <= r.byteOffset <= r.bytes
    ensures !over ==>
              && r.State() == g.(off := r.byteOffset) && old(r.byteOffset) < r.byteOffset
              && sent' == r.byteOffset - g.off
              && Sweep(c, f, r.byteOffset, left', sent') == Sweep(c, f, old(r.byteOffset), left, sent)
              && InStep(sock.wire, batch.data, w, f, g.off, r.byteOffset)
              && Grouped(f, r.byteOffset, batch.data, batch.lines, p)
    ensures over && !res.SliceFailed? ==>
              && Settled(r, res, Settle(c, f, g, Sweep(c, f, old(r.byteOffset), left, sent)))
              && InStep(sock.wire, "", w, f, g.off, r.byteOffset)
    ensures over && res.SliceFailed? ==>
              !(sock.reliable && Serves(r.file, f)) && Partial(sock.wire, w, f, g.off)
  {
    hide InStep, Partial, LineLen, Grouped;
    over, res, left', sent' := true, SliceFailed, left, sent;
    var bnd := Bounded(c.policy);
    var off := r.byteOffset;
    var len := LineLengthAt(r.file, off, r.bytes, f);
    if len == 0 {
      InStepIsPartial(sock.wire, batch.data, w, f, g.off, off, sock.wire);
      return;
    }
    if bnd {
      if c.policy.Rr? && sent == 0 && len > c.quantum {
        res := EscapeRound(r, sock, batch, len, w, f, g.off);
        return;
      }
      if len > left {
        res := CutRound(r, sock, batch, c, left, w, f, g.off);
        return;
      }
    }
    var emitted := EmitLine(r.file, sock, batch, off, len, p, w, f, g.off);
    if !emitted {
      return;
    }
    over := false;
    r.byteOffset := off + len;
    sent' := sent + len;
    if bnd {
      left' := left - len;
    }
  }

  /** The line loop of a round with the given allowance. */
  method SendLines(r: Request, sock: Socket, c: Config, p: nat, allowance: nat, ghost f: string)
    returns (res: SliceResult)
    requires r.GetReady() && f == r.Content() && p >= 1
    modifies r`byteOffset, r`forfeited, r`deficit, r`escapes, sock`wire, sock`interrupts
    ensures r.GetReady()
    ensures !res.SliceFailed? ==>
              && Settled(r, res, Settle(c, f, old(r.State()), Sweep(c, f, old(r.byteOffset), allowance, 0)))
              && InStep(sock.wire, "", old(sock.wire), f, old(r.byteOffset), r.byteOffset)
    ensures res.SliceFailed? ==>
              !(sock.reliable && Serves(r.file, f)) && Partial(sock.wire, old(sock.wire), f, old(r.byteOffset))
  {
    ghost var g, w := r.State(), sock.wire;
    var left, sentThisRound := allowance, 0;
    var batch := new Batch();
    assert InStep(sock.wire, "", w, f, g.off, g.off);
    assert Grouped(f, g.off, "", 0, p);
    hide InStep, Partial, Grouped;

    while r.byteOffset < r.bytes
      invariant g.off <= r.byteOffset <= r.bytes
      invariant r.State() == g.(off := r.byteOffset)
      invariant InStep(sock.wire, batch.data, w, f, g.off, r.byteOffset)
      invariant Grouped(f, r.byteOffset, batch.data, batch.lines, p)
      invariant 0 <= left && sentThisRound == r.byteOffset - g.off
      invariant Sweep(c, f, r.byteOffset, left, sentThisRound) == Sweep(c, f, g.off, allowance, 0)
      decreases r.bytes - r.byteOffset
    {
      var over;
      over, res, left, sentThisRound := NextLine(r, sock, batch, c, p, left, sentThisRound, g, w, f);
      if over {
        return;
      }
    }
    res := FinishRound(r, sock, batch, w, f, g.off);
  }

  /** The wire has grown from `w` by the owed line and the bytes of the file from `a` to `b`. */
  ghost predicate Grown(w: string, w': string, owed: string, f: string, a: nat, b: nat) {
    a <= b <= |f| && w' == w + owed + f[a..b]
  }

  /** The wire has grown from `w` by a prefix of the owed line and the bytes of the file from `a`. */
  ghost predicate CutOff(w: string, w': string, owed: string, f: string, a: nat) {
    a <= |f| && w <= w' <= w + owed + f[a..]
  }

  /** One round of a GET. Unless it fails, it leaves the request in the state `GetRound` gives,
      and the wire has grown by the owed `OK` line and exactly the lines of the round;
      `pLines` has no influence on either. A failed round leaves a prefix of what was owed. */
  method ServeGet(r: Request, sock: Socket, sp: SliceParams) returns (res: SliceResult)
    requires r.GetReady() && sp.config.Valid()
    modifies r`rounds, r`started, r`byteOffset, r`forfeited, r`deficit, r`escapes, sock`wire, sock`interrupts
    ensures r.file == old(r.file) && r.GetReady() && r.rounds == old(r.rounds) + 1
    ensures !res.SliceFailed? ==>
              var (g, o) := GetRound(sp.config, old(r.Content()), old(r.State()));
              && r.State() == g && (res.SliceDone? <==> o.Done?)
              && r.started
              && Grown(old(sock.wire), sock.wire, old(r.Greeting()), old(r.Content()), old(r.byteOffset), r.byteOffset)
    ensures res.SliceFailed? ==>
              && !(sock.reliable && old(Serves(r.file, r.Content())))
              && CutOff(old(sock.wire), sock.wire, old(r.Greeting()), old(r.Content()), old(r.byteOffset))
  {
    ghost var f, off0, w0, hdr, g := r.Content(), r.byteOffset, sock.wire, r.Greeting(), r.State();
    r.rounds := r.rounds + 1;

    if !r.started {
      var greeted := sock.SendAll(FormatOk(r.bytes));
      if !greeted {
        assert w0 + hdr <= w0 + hdr + f[off0..];
        return SliceFailed;
      }
      r.started := true;
    }
    ghost var w1 := sock.wire;
    assert w1 == w0 + hdr;

    var c := sp.config;
    var left: nat := U64_MAX;
    if Bounded(c.policy) {
      var carried := if c.policy.Drr? then r.deficit else 0;
      left := if carried > U64_MAX - c.quantum then U64_MAX else carried + c.quantum;
    }
    assert left == Allowance(c, g.deficit);
    hide GetRound, Settle, Sweep, FormatOk, Allowance;
    var p := if sp.pLines < 1 then 1 else sp.pLines;
    res := SendLines(r, sock, c, p, left, f);
    assert w0 <= w1 <= sock.wire;
  }

  // ------------------------------------------------------------------ PUT

  /** The wire has grown by the error line, or by part of it if the connection has failed. */
  ghost predicate ErrorSent(w: string, reason: string, reliable: bool, w': string) {
    w <= w' <= w + FormatErr(reason) && (reliable ==> w' == w + FormatErr(reason))
  }

  method SendError(sock: Socket, reason: string)
    modifies sock`wire, sock`interrupts
    ensures ErrorSent(old(sock.wire), reason, sock.reliable, sock.wire)
  {
    var _ := sock.SendAll(FormatErr(reason));
  }

  /** What a failed PUT has told the client, when the wire has grown from `w` to `w'`: the line it owed,
      unless the temporary file could not be opened, and then part of one error line, or all of it if
      the connection works; or a part, never the whole, of the `OK` line whose send failed. */
  ghost predicate Failed(fault: PutFault, w: string, owed: string, reliable: bool, w': string) {
    match fault
    case NoFault => false
    case OpenFault => owed != "" && ErrorSent(w, CANNOT_WRITE, reliable, w')
    case FirstOkFault => w <= w' < w + owed
    case ReadFault => ErrorSent(w + owed, SHORT_BODY, reliable, w')
    case WriteFault => ErrorSent(w + owed, CANNOT_WRITE, reliable, w')
    case RenameFault => ErrorSent(w + owed, CANNOT_WRITE, reliable, w')
    case LastOkFault => w + owed <= w' < w + owed + FormatOk(0)
  }

  /** A round after the first owes nothing; over the run the first `OK` has gone out before it. */
  lemma FailedInRun(fault: PutFault, w0: string, hdr: string, started: bool, reliable: bool, w': string)
    requires Failed(fault, if started then w0 + hdr else w0, if started then "" else hdr, reliable, w')
    ensures Failed(fault, w0, hdr, reliable, w')
  {
    hide FormatOk, FormatErr, SHORT_BODY, CANNOT_WRITE;
    assert (w0 + hdr) + "" == w0 + hdr;
  }

  lemma OwesNothing(fault: PutFault, w: string, owed: string, reliable: bool, w': string)
    requires Failed(fault, w + owed, "", reliable, w')
    ensures Failed(fault, w, owed, reliable, w')
  {
    FailedInRun(fault, w, owed, true, reliable, w');
  }

  /** Opens the temporary file on the first round and tells the client to go on. */
  method StartPut(r: Request, sock: Socket, fs: FileSystem) returns (ok: bool, ghost fault: PutFault)
    requires r.PutReady(fs)
    modifies r`tmpPath, r`file, r`started, sock`wire, sock`interrupts, fs`names, fs.At(r.TempPath())
    ensures fs.names - {r.TempPath()} == old(fs.names) - {r.TempPath()}
    ensures old(sock.wire) <= sock.wire
    ensures ok ==> r.started && r.PutReady(fs) && sock.wire == old(sock.wire + r.Greeting())
    ensures ok ==> r.Written() == old(r.Written())
    ensures ok && !old(r.started) && r.TempPath() !in old(fs.names) ==> fresh(r.file)
    ensures ok && (old(r.started) || r.TempPath() in old(fs.names)) ==> r.file == old(fs.names)[r.TempPath()]
    ensures ok && fresh(r.file) ==> r.file.reliable == fs.reliable
    ensures sock.reliable && fs.reliable ==> ok
    ensures ok <==> fault.NoFault?
    ensures !ok ==> fault.OpenFault? || fault.FirstOkFault?
    ensures !ok && fs.reliable ==> fault.FirstOkFault? && !sock.reliable
    ensures !ok ==> Failed(fault, old(sock.wire), old(r.Greeting()), sock.reliable, sock.wire)
    ensures r.tmpPath == if fault.OpenFault? then "" else r.TempPath()
    ensures fault.OpenFault? ==> !old(r.started) && fs.names == old(fs.names)
  {
    fault := NoFault;
    if r.started {
      return true, fault;
    }
    r.tmpPath := r.TempPath();
    r.file := fs.Create(r.tmpPath);
    if r.file == null {
      r.tmpPath := "";
      SendError(sock, CANNOT_WRITE);
      return false, OpenFault;
    }
    ok := sock.SendAll(FormatOk(0));
    if ok {
      r.started := true;
    } else {
      fault := FirstOkFault;
    }
  }

  /** Moves the bytes of one round from the connection to the temporary file. */
  method TakeBody(r: Request, sock: Socket, take: nat) returns (ok: bool, ghost fault: PutFault)
    requires r.op.OpPut? && r.file != null && r.started && |r.file.data| == r.byteOffset
    requires take <= r.bytes - r.byteOffset
    modifies r`leftover, r`byteOffset, sock, r.file
    ensures old(sock.wire) <= sock.wire
    ensures ok ==> sock.wire == old(sock.wire)
    ensures ok ==> r.byteOffset == old(r.byteOffset) + take && |r.file.data| == r.byteOffset
    ensures ok ==> r.file.data + (r.leftover + sock.unread) == old(r.file.data + (r.leftover + sock.unread))
    ensures sock.reliable && r.file.reliable && take <= old(|r.leftover| + |sock.unread|) ==> ok
    ensures !ok ==> r.byteOffset < r.bytes
    ensures !ok ==> Failed(fault, old(sock.wire), "", sock.reliable, sock.wire)
    ensures if ok then fault.NoFault? else fault.ReadFault? || fault.WriteFault?
    ensures fault.ReadFault? && sock.reliable ==> old(|r.leftover| + |sock.unread|) < take
    ensures fault.WriteFault? ==> !r.file.reliable
  {
    var done := 0;
    assert sock.wire + "" == sock.wire;
    hide SHORT_BODY, CANNOT_WRITE, FormatErr, FormatOk;
    while done < take
      invariant 0 <= done <= take && r.byteOffset == old(r.byteOffset) + done
      invariant |r.file.data| == r.byteOffset
      invariant sock.wire == old(sock.wire)
      invariant r.file.data + (r.leftover + sock.unread) == old(r.file.data + (r.leftover + sock.unread))
    {
      ghost var data, rest := r.file.data, r.leftover + sock.unread;
      var n := Min(CHUNK, take - done);
      var got, buf, left := sock.ReadExact(r.leftover, n);
      r.leftover := left;
      if !got {
        SendError(sock, SHORT_BODY);
        return false, ReadFault;
      }
      var wrote := r.file.WriteAll(buf);
      if !wrote {
        SendError(sock, CANNOT_WRITE);
        return false, WriteFault;
      }
      assert buf + left + sock.unread == buf + (left + sock.unread);
      assert data + buf + (left + sock.unread) == data + (buf + (left + sock.unread));
      r.byteOffset := r.byteOffset + n;
      done := done + n;
    }
    return true, NoFault;
  }

  /** The last byte has arrived: close, rename onto the destination, confirm. Only a failed last send
      leaves a failed PUT installed; a failed rename leaves everything as it was. */
  method InstallPut(r: Request, sock: Socket, fs: FileSystem) returns (res: SliceResult, ghost fault: PutFault)
    requires r.PutReady(fs) && r.started && r.byteOffset == r.bytes
    modifies r`tmpPath, r`file, sock`wire, sock`interrupts, fs`names
    ensures !res.SlicePreempted? && (res.SliceDone? <==> fault.NoFault?)
    ensures old(sock.wire) <= sock.wire
    ensures fs.names == if fault.RenameFault? then old(fs.names)
                        else (old(fs.names) - {r.TempPath()})[r.path := old(r.file)]
    ensures res.SliceDone? ==> sock.wire == old(sock.wire) + FormatOk(0) && r.tmpPath == "" && r.file == null
    ensures res.SliceFailed? ==> (fault.RenameFault? && !fs.reliable) || (fault.LastOkFault? && !sock.reliable)
    ensures res.SliceFailed? ==> Failed(fault, old(sock.wire), "", sock.reliable, sock.wire)
    ensures r.tmpPath == if fault.RenameFault? then old(r.tmpPath) else ""
  {
    assert sock.wire + "" == sock.wire;
    hide CANNOT_WRITE, FormatErr, FormatOk;
    fault := NoFault;
    r.file := null;
    var renamed := fs.Rename(r.tmpPath, r.path);
    if !renamed {
      SendError(sock, CANNOT_WRITE);
      return SliceFailed, RenameFault;
    }
    r.tmpPath := "";
    var sent := sock.SendAll(FormatOk(0));
    return if sent then SliceDone else SliceFailed, if sent then NoFault else LastOkFault;
  }

  /** Where the bytes of this PUT are, once it has a temporary file: in the file that was under its
      temporary name before, if any, else in a new one. */
  ghost predicate Collects(ino: Inode, temp: string, before: map<string, Inode>) {
    temp in before ==> ino == before[temp]
  }

  /** The bytes of one round, and the installation if they are the last. */
  method TakeTurn(r: Request, sock: Socket, fs: FileSystem, c: Config)
    returns (res: SliceResult, ghost fault: PutFault)
    requires r.PutReady(fs) && r.started && r.file != null
    modifies r`tmpPath, r`file, r`leftover, r`byteOffset, sock, fs`names, r.file
    ensures old(sock.wire) <= sock.wire
    ensures res.SliceFailed? <==> !fault.NoFault?
    ensures !res.SliceFailed? ==>
              && r.byteOffset == (if Bounded(c.policy) then Min(old(r.byteOffset) + c.quantum, r.bytes) else r.bytes)
              && (res.SliceDone? <==> r.byteOffset == r.bytes)
    ensures res.SlicePreempted? ==>
              && r.PutReady(fs) && r.file == old(r.file) && sock.wire == old(sock.wire)
              && r.file.data + (r.leftover + sock.unread) == old(r.file.data + (r.leftover + sock.unread))
    ensures res.SliceDone? || fault.LastOkFault? ==>
              && Installed(r, fs, old(fs.names)) && fs.names[r.path] == old(r.file)
              && fs.names[r.path].data + (r.leftover + sock.unread) == old(r.file.data + (r.leftover + sock.unread))
    ensures res.SliceDone? ==> sock.wire == old(sock.wire) + FormatOk(0)
    ensures !(res.SliceDone? || fault.LastOkFault?) ==> fs.names == old(fs.names)
    ensures res.SliceFailed? ==> Failed(fault, old(sock.wire), "", sock.reliable, sock.wire) && !fault.OpenFault?
    ensures r.tmpPath == if res.SliceDone? || fault.LastOkFault? then "" else r.TempPath()
    ensures fault.LastOkFault? ==> !sock.reliable
    ensures sock.reliable && fs.reliable && old(r.file).reliable
            && PutTake(c, r.bytes - old(r.byteOffset)) <= old(|r.leftover| + |sock.unread|)
            ==> !res.SliceFailed?
  {
    hide FormatOk, Failed;
    var ok;
    var remaining := r.bytes - r.byteOffset;
    var take := if Bounded(c.policy) then Min(c.quantum, remaining) else remaining;
    ok, fault := TakeBody(r, sock, take);
    if !ok {
      return SliceFailed, fault;
    }
    if r.byteOffset < r.bytes {
      return SlicePreempted, NoFault;
    }
    res, fault := InstallPut(r, sock, fs);
  }

  /** One round of a PUT. Bytes only move, in order, from the connection to the temporary file;
      the destination changes only when the whole body is in place, and then in one step. A failed
      round has installed the body if and only if the call that failed is the send of the last `OK`. */
  method ServePut(r: Request, sock: Socket, fs: FileSystem, sp: SliceParams)
    returns (res: SliceResult, ghost fault: PutFault)
    requires r.PutReady(fs) && sp.config.Valid()
    modifies r`rounds, r`started, r`tmpPath, r`file, r`leftover, r`byteOffset, sock, fs`names, fs.At(r.TempPath())
    ensures r.rounds == old(r.rounds) + 1 && old(sock.wire) <= sock.wire
    ensures res.SliceFailed? <==> !fault.NoFault?
    ensures !res.SliceFailed? ==>
              && r.byteOffset == (if Bounded(sp.config.policy) then Min(old(r.byteOffset) + sp.config.quantum, r.bytes)
                                  else r.bytes)
              && (res.SliceDone? <==> r.byteOffset == r.bytes)
    ensures res.SlicePreempted? ==>
              && r.PutReady(fs) && r.started
              && sock.wire == old(sock.wire + r.Greeting())
              && r.Written() + (r.leftover + sock.unread) == old(r.Written() + (r.leftover + sock.unread))
              && fs.names - {r.TempPath()} == old(fs.names) - {r.TempPath()}
              && Collects(r.file, r.TempPath(), old(fs.names))
              && (r.TempPath() !in old(fs.names) ==> fresh(r.file) && r.file.reliable == fs.reliable)
    ensures res.SliceDone? || fault.LastOkFault? ==>
              && Installed(r, fs, old(fs.names))
              && fs.names[r.path].data + (r.leftover + sock.unread) == old(r.Written() + (r.leftover + sock.unread))
              && Collects(fs.names[r.path], r.TempPath(), old(fs.names))
              && (r.TempPath() !in old(fs.names) ==>
                    fresh(fs.names[r.path]) && fs.names[r.path].reliable == fs.reliable)
    ensures res.SliceDone? ==> sock.wire == old(sock.wire + r.Greeting()) + FormatOk(0)
    ensures res.SliceFailed? && !fault.LastOkFault? ==> fs.names - {r.TempPath()} == old(fs.names) - {r.TempPath()}
    ensures res.SliceFailed? ==> Failed(fault, old(sock.wire), old(r.Greeting()), sock.reliable, sock.wire)
    ensures fault.OpenFault? ==> !old(r.started) && fs.names == old(fs.names)
    ensures r.tmpPath == if res.SliceDone? || fault.LastOkFault? || fault.OpenFault? then "" else r.TempPath()
    ensures fault.LastOkFault? ==> !sock.reliable
    ensures sock.reliable && fs.reliable && (forall i :: i in old(fs.At(r.TempPath())) ==> i.reliable)
            && PutTake(sp.config, r.bytes - old(r.byteOffset)) <= old(|r.leftover| + |sock.unread|)
            ==> !res.SliceFailed?
  {
    ghost var w0, owed := sock.wire, r.Greeting();
    hide FormatOk, Failed, Installed, TempOf, PutTake;
    r.rounds := r.rounds + 1;
    var ok;
    ok, fault := StartPut(r, sock, fs);
    if !ok {
      return SliceFailed, fault;
    }
    ghost var names := fs.names;
    res, fault := TakeTurn(r, sock, fs, sp.config);
    if res.SliceDone? || fault.LastOkFault? {
      InstalledOver(r, fs, names, old(fs.names));
    }
    if res.SliceFailed? {
      OwesNothing(fault, w0, owed, sock.reliable, sock.wire);
    }
  }

  /** The destination leads to a complete body of the declared size, and the temporary name is gone. */
  ghost predicate Installed(r: Request, fs: FileSystem, before: map<string, Inode>)
    reads r, fs, if r.path in fs.names then {fs.names[r.path]} else {}
  {
    && r.path in fs.names && |fs.names[r.path].data| == r.bytes
    && fs.names == (before - {r.TempPath()})[r.path := fs.names[r.path]]
  }

  // ------------------------------------------------------------------ every round of a request

  /** Closing a request also removes the temporary file of an unfinished PUT. */
  method ReleaseRequest(r: Request, fs: FileSystem)
    modifies r`file, r`tmpPath, fs`names
    ensures r.file == null && r.tmpPath == ""
    ensures fs.names == if old(r.tmpPath) == "" then old(fs.names) else old(fs.names) - {old(r.tmpPath)}
  {
    r.file := null;
    if r.tmpPath != "" {
      fs.Unlink(r.tmpPath);
      r.tmpPath := "";
    }
  }

  /** All rounds of a GET, as the worker gives them: the client receives the `OK` line and the
      whole file, in `TotalRounds` rounds, whatever the policy, the quantum and the write grouping. No
      deficit is left; rr has forfeited what its preempted rounds left of their quanta, and logged the
      length of each line longer than the quantum. */
  method ServeGetToEnd(r: Request, sock: Socket, sp: SliceParams) returns (res: SliceResult)
    requires r.GetReady() && sp.config.Valid() && r.State() == START && !r.started
    modifies r`rounds, r`started, r`byteOffset, r`forfeited, r`deficit, r`escapes, sock`wire, sock`interrupts
    ensures !res.SlicePreempted?
    ensures res.SliceDone? ==>
              && sock.wire == old(sock.wire) + FormatOk(r.bytes) + old(r.Content())
              && r.rounds == TotalRounds(sp.config, old(r.Content()))
              && r.State() == After(sp.config, old(r.Content()), r.rounds)
              && r.byteOffset == r.bytes && r.deficit == 0
              && r.forfeited == (if sp.config.policy.Rr? then Unused(sp.config, old(r.Content()), r.rounds) else 0)
              && r.escapes == if sp.config.policy.Rr? then LongFrom(old(r.Content()), sp.config.quantum, 0) else []
    ensures res.SliceFailed? ==>
              && old(sock.wire) <= sock.wire <= old(sock.wire) + FormatOk(r.bytes) + old(r.Content())
              && !(sock.reliable && old(Serves(r.file, r.Content())))
  {
    ghost var f, w0, ino := r.Content(), sock.wire, r.file;
    ghost var k := 0;
    res := SlicePreempted;
    assert InRun(r, sock.wire, sp.config, f, w0, k) by { assert w0 + "" + f[..0] == w0; }
    FinalState(sp.config, f);
    hide OnTrack, TotalRounds, After, FormatOk, Unused, LongFrom;
    while res.SlicePreempted?
      invariant r.file == ino
      invariant res.SlicePreempted? ==> InRun(r, sock.wire, sp.config, f, w0, k)
      invariant res.SliceDone? ==> Delivered(sp.config, f, w0, r.State(), sock.wire)
      invariant res.SliceFailed? ==>
                  !(sock.reliable && Serves(ino, f)) && CutOff(w0, sock.wire, FormatOk(|f|), f, 0)
      decreases res.SlicePreempted?, U64_MAX - r.byteOffset - r.deficit
    {
      res := RoundOfRun(r, sock, sp, f, w0, k);
      k := k + 1;
    }
    assert f[0..] == f;
  }

  /** A GET that has had `k` rounds and is waiting for the next, on values. */
  ghost predicate OnTrack(c: Config, f: string, w0: string, k: nat, g: GetState, wire: string) {
    && c.Valid() && |f| <= U64_MAX && Live(c, f, k) && g == After(c, f, k)
    && WireAfter(w0, FormatOk(|f|), f, k, g.off, wire)
  }

  /** A GET that has had its last round, on values. */
  ghost predicate Delivered(c: Config, f: string, w0: string, g: GetState, wire: string) {
    && c.Valid() && |f| <= U64_MAX && g.rounds == TotalRounds(c, f) && g == After(c, f, g.rounds)
    && wire == w0 + FormatOk(|f|) + f
  }

  ghost predicate InRun(r: Request, wire: string, c: Config, f: string, w0: string, k: nat)
    reads r, r.file
  {
    && r.GetReady() && r.Content() == f && r.started == (k > 0)
    && OnTrack(c, f, w0, k, r.State(), wire)
  }

  method RoundOfRun(r: Request, sock: Socket, sp: SliceParams, ghost f: string, ghost w0: string, ghost k: nat)
    returns (res: SliceResult)
    requires InRun(r, sock.wire, sp.config, f, w0, k)
    modifies r`rounds, r`started, r`byteOffset, r`forfeited, r`deficit, r`escapes, sock`wire, sock`interrupts
    ensures r.file == old(r.file)
    ensures res.SlicePreempted? ==> InRun(r, sock.wire, sp.config, f, w0, k + 1)
    ensures res.SlicePreempted? ==> old(r.byteOffset + r.deficit) < r.byteOffset + r.deficit <= U64_MAX
    ensures res.SliceDone? ==> Delivered(sp.config, f, w0, r.State(), sock.wire)
    ensures res.SliceFailed? ==> !(sock.reliable && Serves(r.file, f)) && CutOff(w0, sock.wire, FormatOk(|f|), f, 0)
  {
    ghost var c, g, w := sp.config, r.State(), sock.wire;
    hide OnTrack, Delivered, GetRound, FormatOk, Agrees, Serves, Grown, CutOff;
    OnTrackFacts(c, f, w0, k, g, w);
    res := ServeGet(r, sock, sp);
    if res.SliceFailed? {
      FailureOnTrack(c, f, w0, k, g, w, sock.wire);
    } else {
      RoundOnTrack(c, f, w0, k, g, w, sock.wire);
    }
  }

  lemma OnTrackFacts(c: Config, f: string, w0: string, k: nat, g: GetState, w: string)
    requires OnTrack(c, f, w0, k, g, w)
    ensures c.Valid() && |f| <= U64_MAX && g.off <= |f|
    ensures Live(c, f, k) && g == After(c, f, k) && WireAfter(w0, FormatOk(|f|), f, k, g.off, w)
  {
    hide Live, After, FormatOk;
  }

  /** The wire when `off` bytes of the file are out after `k` rounds. */
  ghost predicate WireAfter(w0: string, hdr: string, f: string, k: nat, off: nat, w: string) {
    off <= |f| && (k == 0 ==> off == 0) && w == w0 + (if k == 0 then "" else hdr) + f[..off]
  }

  lemma WireOfRound(w0: string, hdr: string, f: string, k: nat, off: nat, off': nat, w: string, w': string)
    requires WireAfter(w0, hdr, f, k, off, w) && Grown(w, w', if k == 0 then hdr else "", f, off, off')
    ensures WireAfter(w0, hdr, f, k + 1, off', w')
  {
    assert f[..off] + f[off..off'] == f[..off'];
    if k == 0 {
      assert f[..off] == "";
      assert w' == w0 + hdr + f[..off'];
    } else {
      assert w' == w0 + hdr + (f[..off] + f[off..off']);
    }
  }

  /** One round of a run. */
  lemma RoundOnTrack(c: Config, f: string, w0: string, k: nat, g: GetState, w: string, w': string)
    requires OnTrack(c, f, w0, k, g, w) && g.off <= |f|
    requires Grown(w, w', if k > 0 then "" else FormatOk(|f|), f, g.off, GetRound(c, f, g).0.off)
    ensures var (g', o) := GetRound(c, f, g);
            if o.Done? then Delivered(c, f, w0, g', w')
            else OnTrack(c, f, w0, k + 1, g', w') && g.off + g.deficit < g'.off + g'.deficit <= U64_MAX
  {
    hide *;
    OnTrackFacts(c, f, w0, k, g, w);
    var hdr, round := FormatOk(|f|), GetRound(c, f, g);
    LiveInv(c, f, k);
    GetRoundKeepsInv(c, f, g);
    LiveStep(c, f, k);
    WireOfRound(w0, hdr, f, k, g.off, round.0.off, w, w');
    if round.1.Done? {
      WireAtEnd(w0, hdr, f, k + 1, w');
      DeliveredFrom(c, f, w0, round.0, w');
    } else {
      OnTrackFrom(c, f, w0, k + 1, round.0, w');
    }
  }

  lemma OnTrackFrom(c: Config, f: string, w0: string, k: nat, g: GetState, w: string)
    requires c.Valid() && |f| <= U64_MAX && g.off <= |f|
    requires Live(c, f, k) && g == After(c, f, k) && WireAfter(w0, FormatOk(|f|), f, k, g.off, w)
    ensures OnTrack(c, f, w0, k, g, w)
  {
    hide Live, After, FormatOk, WireAfter;
  }

  lemma DeliveredFrom(c: Config, f: string, w0: string, g: GetState, w: string)
    requires c.Valid() && |f| <= U64_MAX && g.rounds == TotalRounds(c, f) && g == After(c, f, g.rounds)
    requires w == w0 + FormatOk(|f|) + f
    ensures Delivered(c, f, w0, g, w)
  {
    hide After, FormatOk, TotalRounds;
  }

  lemma FailureOnTrack(c: Config, f: string, w0: string, k: nat, g: GetState, w: string, w': string)
    requires OnTrack(c, f, w0, k, g, w) && CutOff(w, w', if k > 0 then "" else FormatOk(|f|), f, g.off)
    ensures CutOff(w0, w', FormatOk(|f|), f, 0)
  {
    hide Live, After, FormatOk, WireAfter, CutOff;
    WireOfFailure(w0, FormatOk(|f|), f, k, g.off, w, w');
  }

  lemma WireAtEnd(w0: string, hdr: string, f: string, k: nat, w: string)
    requires WireAfter(w0, hdr, f, k, |f|, w) && k > 0
    ensures w == w0 + hdr + f
  {
    assert f[..|f|] == f;
  }

  lemma WireOfFailure(w0: string, hdr: string, f: string, k: nat, off: nat, w: string, w': string)
    requires WireAfter(w0, hdr, f, k, off, w) && CutOff(w, w', if k == 0 then hdr else "", f, off)
    ensures CutOff(w0, w', hdr, f, 0)
  {
    var all := w + (if k == 0 then hdr else "") + f[off..];
    WireOfRound(w0, hdr, f, k, off, |f|, w, all);
    WireAtEnd(w0, hdr, f, k + 1, all);
    assert w0 <= w && f[0..] == f;
  }

  /** A PUT part-way through its rounds: no byte of the stream is lost, and only its own temporary
      name has changed in the directory. */
  ghost predicate PutInRun(r: Request, sock: Socket, fs: FileSystem, c: Config,
                           names0: map<string, Inode>, stream: string, w0: string)
    reads r, r.file, sock, fs
  {
    && r.PutReady(fs) && c.Valid() && |r.Written()| == r.byteOffset
    && r.Written() + (r.leftover + sock.unread) == stream
    && r.rounds + PutLeft(c, r.bytes - r.byteOffset) == PutLeft(c, r.bytes)
    && fs.names - {r.TempPath()} == names0 - {r.TempPath()}
    && (!r.started ==> fs.names == names0)
    && (r.started && r.TempPath() in names0 ==> r.file == names0[r.TempPath()])
    && sock.wire == if r.started then w0 + FormatOk(0) else w0
  }

  /** A PUT whose body is in place, whatever became of its last `OK`. */
  ghost predicate PutInstalled(r: Request, sock: Socket, fs: FileSystem, names0: map<string, Inode>, stream: string)
    reads r, sock, fs, if r.path in fs.names then {fs.names[r.path]} else {}
  {
    && Installed(r, fs, names0) && r.path in fs.names
    && fs.names[r.path].data + (r.leftover + sock.unread) == stream
    && Collects(fs.names[r.path], r.TempPath(), names0)
  }

  /** What one round leaves of a PUT of `n` bytes that has `off`. */
  lemma PutLeftStep(c: Config, n: nat, off: nat)
    requires c.Valid() && off <= n
    ensures var off' := if Bounded(c.policy) then Min(off + c.quantum, n) else n;
            && off <= off' <= n && PutTake(c, n - off) == off' - off
            && (off < n ==> off < off')
            && PutLeft(c, n - off) == if off' == n then 1 else 1 + PutLeft(c, n - off')
  {
  }

  /** One round of a PUT in its run. */
  method PutRoundOfRun(r: Request, sock: Socket, fs: FileSystem, sp: SliceParams,
                       ghost names0: map<string, Inode>, ghost stream: string, ghost w0: string)
    returns (res: SliceResult, ghost fault: PutFault)
    requires PutInRun(r, sock, fs, sp.config, names0, stream, w0)
    modifies r`rounds, r`started, r`tmpPath, r`file, r`leftover, r`byteOffset, sock, fs`names, fs.At(r.TempPath())
    ensures res.SliceFailed? <==> !fault.NoFault?
    ensures res.SlicePreempted? ==> PutInRun(r, sock, fs, sp.config, names0, stream, w0)
    ensures res.SlicePreempted? ==> r.started && r.byteOffset > old(r.byteOffset)
    ensures res.SlicePreempted? && r.TempPath() !in old(fs.names) ==> fresh(r.file) && r.file.reliable == fs.reliable
    ensures res.SlicePreempted? && r.TempPath() in old(fs.names) ==> r.file == old(fs.names)[r.TempPath()]
    ensures res.SliceDone? ==> r.rounds == PutLeft(sp.config, r.bytes) && sock.wire == w0 + FormatOk(0) + FormatOk(0)
    ensures res.SliceDone? || fault.LastOkFault? ==> PutInstalled(r, sock, fs, names0, stream)
    ensures (res.SliceDone? || fault.LastOkFault?) && r.TempPath() !in old(fs.names) ==>
              fresh(fs.names[r.path]) && fs.names[r.path].reliable == fs.reliable
    ensures (res.SliceDone? || fault.LastOkFault?) && r.TempPath() in old(fs.names) ==>
              fs.names[r.path] == old(fs.names)[r.TempPath()]
    ensures res.SliceFailed? && !fault.LastOkFault? ==> fs.names - {r.TempPath()} == names0 - {r.TempPath()}
    ensures fault.OpenFault? ==> fs.names == names0
    ensures res.SliceFailed? ==> Failed(fault, w0, FormatOk(0), sock.reliable, sock.wire)
    ensures r.tmpPath == if res.SliceDone? || fault.LastOkFault? || fault.OpenFault? then "" else r.TempPath()
    ensures fault.LastOkFault? ==> !sock.reliable
    ensures sock.reliable && fs.reliable && (forall i :: i in old(fs.At(r.TempPath())) ==> i.reliable)
            && r.bytes <= |stream|
            ==> !res.SliceFailed?
  {
    assert |r.Written() + (r.leftover + sock.unread)| == |stream|;
    PutLeftStep(sp.config, r.bytes, r.byteOffset);
    ghost var names, w, started := fs.names, sock.wire, r.started;
    assert w == if started then w0 + FormatOk(0) else w0;
    assert w + r.Greeting() == w0 + FormatOk(0);
    assert r.Greeting() == if started then "" else FormatOk(0);
    hide PutTake, PutLeft, FormatOk, Installed, Failed, TempOf;
    res, fault := ServePut(r, sock, fs, sp);
    if res.SliceFailed? {
      FailedInRun(fault, w0, FormatOk(0), started, sock.reliable, sock.wire);
    }
    if res.SliceDone? || fault.LastOkFault? {
      InstalledOver(r, fs, names, names0);
    }
  }

  lemma InstalledOver(r: Request, fs: FileSystem, before: map<string, Inode>, other: map<string, Inode>)
    requires Installed(r, fs, before) && before - {r.TempPath()} == other - {r.TempPath()}
    ensures Installed(r, fs, other)
  {
  }

  /** All rounds of a PUT: the destination ends up leading to exactly the first `bytes` bytes of the
      body stream, the connection is left at the byte after them, and no round count depends on
      how the stream arrives. A failed PUT is installed exactly when the last `OK` is what failed. */
  method ServePutToEnd(r: Request, sock: Socket, fs: FileSystem, sp: SliceParams)
    returns (res: SliceResult, ghost fault: PutFault)
    requires r.PutReady(fs) && sp.config.Valid() && r.rounds == 0 && !r.started
    modifies r`rounds, r`started, r`tmpPath, r`file, r`leftover, r`byteOffset, sock, fs`names, fs.At(r.TempPath())
    ensures !res.SlicePreempted? && (res.SliceFailed? <==> !fault.NoFault?)
    ensures res.SliceDone? || fault.LastOkFault? ==>
              && Installed(r, fs, old(fs.names))
              && fs.names[r.path].data + (r.leftover + sock.unread) == old(r.leftover + sock.unread)
              && Collects(fs.names[r.path], r.TempPath(), old(fs.names))
              && (r.TempPath() !in old(fs.names) ==>
                    fresh(fs.names[r.path]) && fs.names[r.path].reliable == fs.reliable)
    ensures res.SliceDone? ==>
              r.rounds == PutLeft(sp.config, r.bytes) && sock.wire == old(sock.wire) + FormatOk(0) + FormatOk(0)
    ensures res.SliceFailed? && !fault.LastOkFault? ==> fs.names - {r.TempPath()} == old(fs.names) - {r.TempPath()}
    ensures fault.OpenFault? ==> fs.names == old(fs.names)
    ensures res.SliceFailed? ==> Failed(fault, old(sock.wire), FormatOk(0), sock.reliable, sock.wire)
    ensures r.tmpPath == if res.SliceDone? || fault.LastOkFault? || fault.OpenFault? then "" else r.TempPath()
    ensures fault.LastOkFault? ==> !sock.reliable
    ensures (sock.reliable && fs.reliable && (forall i :: i in old(fs.At(r.TempPath())) ==> i.reliable)
             && r.bytes <= old(|r.leftover| + |sock.unread|))
            ==> res.SliceDone?
  {
    ghost var stream, names0, w0, temp := r.leftover + sock.unread, fs.names, sock.wire, r.TempPath();
    ghost var oldAt := fs.At(temp);
    ghost var good := sock.reliable && fs.reliable && (forall i :: i in oldAt ==> i.reliable) && r.bytes <= |stream|;
    assert "" + stream == stream;
    res, fault := SlicePreempted, NoFault;
    hide PutLeft, PutTake, FormatOk, Installed, Failed, TempOf;
    while res.SlicePreempted?
      invariant res.SliceFailed? <==> !fault.NoFault?
      invariant res.SlicePreempted? ==> PutInRun(r, sock, fs, sp.config, names0, stream, w0)
      invariant res.SlicePreempted? && r.started && temp !in names0 ==> fresh(r.file) && r.file.reliable == fs.reliable
      invariant res.SliceDone? ==>
                  r.rounds == PutLeft(sp.config, r.bytes) && sock.wire == w0 + FormatOk(0) + FormatOk(0)
      invariant res.SliceDone? || fault.LastOkFault? ==> PutInstalled(r, sock, fs, names0, stream)
      invariant (res.SliceDone? || fault.LastOkFault?) && temp !in names0 ==>
                  r.path in fs.names && fresh(fs.names[r.path]) && fs.names[r.path].reliable == fs.reliable
      invariant res.SliceFailed? && !fault.LastOkFault? ==> fs.names - {temp} == names0 - {temp}
      invariant fault.OpenFault? ==> fs.names == names0
      invariant res.SliceFailed? ==> Failed(fault, w0, FormatOk(0), sock.reliable, sock.wire)
      invariant !res.SlicePreempted? ==>
                  r.tmpPath == if res.SliceDone? || fault.LastOkFault? || fault.OpenFault? then "" else temp
      invariant fault.LastOkFault? ==> !sock.reliable
      invariant good ==> !res.SliceFailed?
      decreases res.SlicePreempted?, r.bytes - r.byteOffset
    {
      res, fault := PutRoundOfRun(r, sock, fs, sp, names0, stream, w0);
    }
  }
}
