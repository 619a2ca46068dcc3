/** What one connection's admission thread does, up to the point where it enqueues the request. */
module Admission {
  import opened Bytes
  import opened Protocol
  import opened Net
  import opened Files
  import opened Rounds
  import opened Slice
  import Server

  const UNSAFE_NAME := "unsafe filename"
  const TOO_LARGE := "declared size too large"
  const NOT_FOUND := "file not found"

  lemma RefusalsAreLines()
    ensures '\n' !in UNSAFE_NAME && '\n' !in TOO_LARGE && '\n' !in NOT_FOUND
  {
  }

  /** What the header line asks for and how the server answers, before any file is opened. */
  datatype Verdict =
    | Refuse(reason: string)
    | Answer(depth: nat)
    | TakeGet(name: string)
    | TakePut(name: string, size: nat)

  function Decide(line: string, queueDepth: nat): Verdict {
    match RequestOf(Tokens(line, 0))
    case Malformed(error) => Refuse(error)
    case Health => Answer(queueDepth)
    case Get(name) => if IsFilenameSafe(name) then TakeGet(name) else Refuse(UNSAFE_NAME)
    case Put(name, size) =>
      if !IsFilenameSafe(name) then Refuse(UNSAFE_NAME)
      else if size > Server.PUT_MAX then Refuse(TOO_LARGE)
      else TakePut(name, size)
  }

  predicate AsksGet(tok: seq<string>) {
    |tok| == 2 && tok[0] == "GET"
  }

  predicate AsksPut(tok: seq<string>) {
    |tok| == 3 && tok[0] == "PUT" && IsCount(tok[2])
  }

  /** What becomes of a header line with these tokens: a request for a name outside the directory and an
      upload of more than a gibibyte are refused, `HEALTH` is answered, and so is every other line. */
  predicate Judged(dir: string, tok: seq<string>, queueDepth: nat, v: Verdict) {
    if AsksGet(tok) then
      v == if StaysIn(dir, tok[1]) then TakeGet(tok[1]) else Refuse(UNSAFE_NAME)
    else if AsksPut(tok) then
      v == if !StaysIn(dir, tok[1]) then Refuse(UNSAFE_NAME)
      else if Val(tok[2]) > 0x4000_0000 then Refuse(TOO_LARGE)
      else TakePut(tok[1], Val(tok[2]))
    else if tok == ["HEALTH"] then v == Answer(queueDepth)
    else v.Refuse? && '\n' !in v.reason
  }

  lemma DecideMeaning(dir: string, line: string, queueDepth: nat)
    ensures Judged(dir, Tokens(line, 0), queueDepth, Decide(line, queueDepth))
  {
    var tok := Tokens(line, 0);
    RequestMeaning(tok);
    ComplaintsAreLines(tok);
    hide Tokens, RequestOf, IsFilenameSafe, StaysIn, IsCount, Val, UNSAFE_NAME, TOO_LARGE;
    hide BAD_LINE, BAD_GET, BAD_PUT, BAD_COUNT, UNKNOWN_LINE;
    if AsksGet(tok) || AsksPut(tok) {
      SafeStaysIn(dir, tok[1]);
    }
  }

  lemma SafeStaysIn(dir: string, name: string)
    ensures IsFilenameSafe(name) <==> StaysIn(dir, name)
  {
    SafeNamesAreEntries(Components(dir), name);
  }

  /** A connection that is taken asks for a name that stays in the served directory, and for no more
      than a gibibyte. On a reliable connection whose header line is at most 8192 bytes, the tokens of
      the line alone decide the outcome, and a request takes over the stream right after the newline.
      A connection that is not taken gets exactly one reply line, never a silent close. */
  method AdmitConnection(sock: Socket, fs: FileSystem, dir: string, nextId: nat, queueDepth: nat, now: nat)
    returns (req: Request?, nextId': nat)
    requires forall p :: p in fs.names ==> |fs.names[p].data| <= U64_MAX
    modifies sock
    ensures req != null ==> fresh(req) && req.id == nextId && nextId' == nextId + 1 && req.arrivalNs == now
    ensures req != null ==> StaysIn(dir, req.filename) && req.path == dir + "/" + req.filename
    ensures req != null ==> !req.started && req.startNs == 0 && req.State() == START && sock.wire == old(sock.wire)
    ensures req != null && req.op.OpPut? ==> req.PutReady(fs) && req.bytes <= 0x4000_0000
    ensures req != null && req.op.OpGet? ==>
              && req.GetReady() && req.path in fs.names && req.file == fs.names[req.path]
              && req.bytes == |req.file.data|
    ensures nextId' == nextId || nextId' == nextId + 1
    ensures var k := IndexOf(old(sock.unread), '\n');
            var tok := Tokens(old(sock.unread)[..k], 0);
            sock.reliable && k < |old(sock.unread)| && k <= 8192 ==>
              (nextId' == nextId + 1 <==>
               (AsksGet(tok) || (AsksPut(tok) && Val(tok[2]) <= 0x4000_0000)) && StaysIn(dir, tok[1]))
    ensures req == null ==>
              || (old(sock.wire) <= sock.wire <= old(sock.wire) + FormatOk(queueDepth)
                  && (sock.reliable ==> sock.wire == old(sock.wire) + FormatOk(queueDepth)))
              || exists reason :: '\n' !in reason && ErrorSent(old(sock.wire), reason, sock.reliable, sock.wire)
    ensures var k := IndexOf(old(sock.unread), '\n');
            var tok := Tokens(old(sock.unread)[..k], 0);
            sock.reliable && k < |old(sock.unread)| && k <= 8192 ==>
              if AsksGet(tok) then
                if !StaysIn(dir, tok[1]) then req == null && sock.wire == old(sock.wire) + FormatErr(UNSAFE_NAME)
                else if req == null then
                  && sock.wire == old(sock.wire) + FormatErr(NOT_FOUND)
                  && (fs.reliable ==> dir + "/" + tok[1] !in fs.names)
                else req.op.OpGet? && req.filename == tok[1]
              else if AsksPut(tok) then
                if !StaysIn(dir, tok[1]) then req == null && sock.wire == old(sock.wire) + FormatErr(UNSAFE_NAME)
                else if Val(tok[2]) > 0x4000_0000 then
                  req == null && sock.wire == old(sock.wire) + FormatErr(TOO_LARGE)
                else
                  && req != null && req.op.OpPut? && req.filename == tok[1] && req.bytes == Val(tok[2])
                  && req.leftover + sock.unread == old(sock.unread)[k + 1..]
              else if tok == ["HEALTH"] then req == null && sock.wire == old(sock.wire) + FormatOk(queueDepth)
              else req == null && exists reason :: '\n' !in reason && sock.wire == old(sock.wire) + FormatErr(reason)
    ensures sock.reliable && IndexOf(old(sock.unread), '\n') > 8703 ==>
              req == null && sock.wire == old(sock.wire) + FormatErr("header line too long")
  {
    req, nextId' := null, nextId;
    RefusalsAreLines();
    hide UNSAFE_NAME, TOO_LARGE, NOT_FOUND, BAD_LINE, BAD_GET, BAD_PUT, BAD_COUNT, UNKNOWN_LINE;
    hide Tokens, RequestOf, IsFilenameSafe, StaysIn, IsCount, Val, FormatErr, FormatOk, Feed, Pieces, Concat, IndexOf;
    ghost var stream := sock.unread;
    var hdr, chunks := sock.ReadHeaderLine();
    Framing(stream, chunks, sock.unread);
    if hdr.HeaderError? {
      HeaderMustEnd(stream, chunks);
      if IndexOf(stream, '\n') > 8703 {
        LongHeaderRefused(stream, chunks);
      }
      SendError(sock, hdr.error);
      return;
    }
    var parsed := ParseRequestLine(hdr.line);
    if parsed.Malformed? {
      ComplaintsAreLines(Tokens(hdr.line, 0));
      SendError(sock, parsed.error);
      return;
    }
    if parsed.Health? {
      var _ := sock.SendAll(FormatOk(queueDepth));
      return;
    }
    SafeStaysIn(dir, parsed.filename);
    if !IsFilenameSafe(parsed.filename) {
      SendError(sock, UNSAFE_NAME);
      return;
    }
    if parsed.Put? && parsed.byteCount > Server.PUT_MAX {
      SendError(sock, TOO_LARGE);
      return;
    }
    var path := dir + "/" + parsed.filename;
    nextId' := nextId + 1;
    if parsed.Get? {
      var file := fs.Open(path);
      if file == null {
        SendError(sock, NOT_FOUND);
        return;
      }
      req := new Request(nextId, OpGet, parsed.filename, |file.data|, now, path, hdr.leftover, file);
    } else {
      req := new Request(nextId, OpPut, parsed.filename, parsed.byteCount, now, path, hdr.leftover, null);
    }
  }

  /** A complete header line that is short enough is never given up on. */
  lemma HeaderMustEnd(stream: string, chunks: seq<string>)
    requires Pieces(chunks) && Concat(chunks) <= stream
    ensures var k := IndexOf(stream, '\n');
            k < |stream| && k <= HEADER_LINE_MAX && Concat(chunks) == stream ==> Feed(chunks).Got?
  {
    Framing(stream, chunks, stream[|Concat(chunks)|..]);
    FeedMeaning(chunks);
    var k := IndexOf(stream, '\n');
    if Concat(chunks) == stream && k < |stream| {
      assert stream[k] == '\n';
    }
  }

  /** A stream with no newline in its first 8704 bytes is given up on as too long. */
  lemma LongHeaderRefused(stream: string, chunks: seq<string>)
    requires Pieces(chunks) && Concat(chunks) <= stream && IndexOf(stream, '\n') > 8703
    ensures !Feed(chunks).Got?
    ensures Concat(chunks) == stream ==> Feed(chunks).TooLong?
  {
    Framing(stream, chunks, stream[|Concat(chunks)|..]);
    FeedMeaning(chunks);
  }
}
