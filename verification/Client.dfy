/** The client's half of an exchange, after the connection is made. */
module Client {
  import opened Bytes
  import opened Protocol
  import opened Net
  import opened Files

  const GET_NOT_SENT := "connection error sending GET header"
  const GET_UNANSWERED := "no response to GET: "
  const MALFORMED_RESPONSE := "malformed response"
  const BODY_CUT_SHORT := "connection closed before full body received"
  const PUT_NOT_SENT := "connection error sending PUT header"
  const PUT_UNANSWERED := "no response to PUT header: "
  const BODY_NOT_SENT := "connection error sending body"
  const PUT_UNCONFIRMED := "no final confirmation: "
  const NO_INPUT := "cannot open local file '"
  const NO_OUTPUT := "cannot open output file '"

  datatype ExchangeResult = ExchangeResult(ok: bool, bytes: nat, error: string)

  /** The part of a path after its last slash. */
  function BaseName(path: string): (name: string)
    ensures '/' !in name
    ensures '/' !in path ==> name == path
  {
    if path == "" then ""
    else if path[|path| - 1] == '/' then ""
    else
      var init := path[..|path| - 1];
      assert path == init + [path[|path| - 1]];
      BaseName(init) + [path[|path| - 1]]
  }

  /** What comes before the base name is empty or ends in a slash. */
  lemma {:induction false} BaseNameIsSuffix(path: string) returns (front: string)
    ensures path == front + BaseName(path)
    ensures front == "" || front[|front| - 1] == '/'
  {
    if path == "" || path[|path| - 1] == '/' {
      assert path + "" == path;
      front := path;
    } else {
      var init, last := path[..|path| - 1], [path[|path| - 1]];
      front := BaseNameIsSuffix(init);
      Associative(front, BaseName(init), last);
      assert path == init + last;
    }
  }

  /** Reads a local file of known size in one stream read, which nobody checks: what a failed read did
      not bring stays zero. */
  method ReadLocal(file: Inode) returns (body: string)
    ensures |body| == |file.data|
    ensures file.reliable ==> body == file.data
  {
    body := "";
    while |body| < |file.data|
      invariant |body| <= |file.data| && body == file.data[..|body|]
      decreases |file.data| - |body|
    {
      var buf := file.Pread(|file.data| - |body|, |body|);
      if buf == "" {
        return body + seq(|file.data| - |body|, _ => '\0');
      }
      body := body + buf;
    }
  }

  /** The stream begins with an `OK` line that the client is sure to read whole. */
  ghost predicate Confirmed(stream: string) {
    var k := IndexOf(stream, '\n');
    k < |stream| && k <= HEADER_LINE_MAX && ResponseOf(stream[..k]).Ok?
  }

  /** The stream begins with an `OK` line announcing `|body|` bytes, and `body` comes next. */
  ghost predicate Answers(stream: string, body: string) {
    var k := IndexOf(stream, '\n');
    k < |stream| && ResponseOf(stream[..k]) == Ok(|body|) && body <= stream[k + 1..]
  }

  /** The stream holds such an answer behind a line the client is sure to read whole. */
  ghost predicate Answered(stream: string) {
    Confirmed(stream) && exists body :: Answers(stream, body)
  }

  /** The client's `get`: whatever the server sends, and however it arrives, a reported success means
      the `OK` count and exactly that many bytes after it, written to the output file. Nobody checks
      the writes: on a failing disk a prefix of the bytes is there. */
  method GetFile(sock: Socket, name: string, local: FileSystem, outPath: string)
    returns (r: ExchangeResult, ghost body: string)
    modifies sock, local`names, local.At(outPath)
    ensures old(sock.wire) <= sock.wire <= old(sock.wire) + (GetLine(name) + "\n")
    ensures sock.reliable ==> sock.wire == old(sock.wire) + (GetLine(name) + "\n")
    ensures r.ok ==> r.bytes == |body| && Answers(old(sock.unread), body)
    ensures r.ok ==> outPath in local.names && local.names == old(local.names)[outPath := local.names[outPath]]
                     && local.names[outPath].data <= body
                     && (local.names[outPath].reliable ==> local.names[outPath].data == body)
                     && (if outPath in old(local.names) then local.names[outPath] == old(local.names)[outPath]
                         else fresh(local.names[outPath]) && local.names[outPath].reliable == local.reliable)
    ensures !r.ok ==> local.names == old(local.names)
    ensures var k := IndexOf(old(sock.unread), '\n');
            sock.reliable && k < |old(sock.unread)| && k <= 8192 && ResponseOf(old(sock.unread)[..k]).Err? ==>
              !r.ok && r.error == ResponseOf(old(sock.unread)[..k]).reason
    ensures sock.reliable && local.reliable && Answered(old(sock.unread)) ==> r.ok
  {
    var received;
    r, received := Fetch(sock, name);
    body := received;
    if !r.ok {
      return;
    }
    var out := local.Create(outPath);
    if out == null {
      return ExchangeResult(false, 0, NO_OUTPUT + outPath + "'"), body;
    }
    if |received| > 0 {
      var _ := out.WriteAll(received);
    }
    assert "" + received == received;
  }

  /** The part of a `get` on the connection. */
  method Fetch(sock: Socket, name: string) returns (r: ExchangeResult, body: string)
    modifies sock
    ensures old(sock.wire) <= sock.wire <= old(sock.wire) + (GetLine(name) + "\n")
    ensures sock.reliable ==> sock.wire == old(sock.wire) + (GetLine(name) + "\n")
    ensures r.ok ==> r.bytes == |body| && Answers(old(sock.unread), body)
    ensures var k := IndexOf(old(sock.unread), '\n');
            sock.reliable && k < |old(sock.unread)| && k <= 8192 && ResponseOf(old(sock.unread)[..k]).Err? ==>
              !r.ok && r.error == ResponseOf(old(sock.unread)[..k]).reason
    ensures sock.reliable && Answered(old(sock.unread)) ==> r.ok
  {
    body := "";
    ghost var stream := sock.unread;
    var header := "GET " + name + "\n";
    assert GetLine(name) + "\n" == header;
    hide *;
    var sent := sock.SendAll(header);
    if !sent {
      return ExchangeResult(false, 0, GET_NOT_SENT), "";
    }
    var hdr, chunks := sock.ReadHeaderLine();
    if hdr.HeaderError? {
      if sock.reliable {
        LineMustCome(stream, chunks, sock.unread);
      }
      return ExchangeResult(false, 0, GET_UNANSWERED + hdr.error), "";
    }
    ghost var after := hdr.leftover + sock.unread;
    LineHasCome(stream, chunks, sock.unread);
    var resp := ParseResponseLine(hdr.line);
    if resp.BadResponse? {
      return ExchangeResult(false, 0, MALFORMED_RESPONSE), "";
    }
    if resp.Err? {
      return ExchangeResult(false, 0, resp.reason), "";
    }
    var size := resp.n;
    if size > 0 {
      var ok, out, rest := sock.ReadExact(hdr.leftover, size);
      if !ok {
        return ExchangeResult(false, 0, BODY_CUT_SHORT), "";
      }
      body := out;
      IsPrefix(out, rest, sock.unread, after);
    }
    return ExchangeResult(true, size, ""), body;
  }

  lemma IsPrefix(a: string, b: string, c: string, all: string)
    requires a + b + c == all
    ensures a <= all
  {
    assert a + b + c == a + (b + c);
  }

  lemma LineHasCome(stream: string, chunks: seq<string>, rest: string)
    requires Pieces(chunks) && Concat(chunks) + rest == stream && Feed(chunks).Got?
    ensures var after := Feed(chunks).leftover + rest;
            && (forall body :: ResponseOf(Feed(chunks).line) == Ok(|body|) && body <= after ==> Answers(stream, body))
            && (Confirmed(stream) ==> ResponseOf(Feed(chunks).line).Ok?)
            && Feed(chunks).line == stream[..IndexOf(stream, '\n')]
            && (Answered(stream) ==> ResponseOf(Feed(chunks).line).n <= |after|)
  {
    Framing(stream, chunks, rest);
  }

  lemma LineMustCome(stream: string, chunks: seq<string>, rest: string)
    requires Pieces(chunks) && Concat(chunks) + rest == stream
    requires Feed(chunks) == TooLong || (Feed(chunks).More? && rest == "")
    ensures !Confirmed(stream) && !Answered(stream)
    ensures IndexOf(stream, '\n') == |stream| || IndexOf(stream, '\n') > HEADER_LINE_MAX
  {
    Framing(stream, chunks, rest);
    assert rest == "" ==> Concat(chunks) == stream;
    EndsInGot(stream, chunks);
  }

  lemma EndsInGot(stream: string, chunks: seq<string>)
    requires Pieces(chunks) && Concat(chunks) <= stream
    ensures Concat(chunks) == stream && IndexOf(stream, '\n') < |stream| ==> !Feed(chunks).More?
  {
    FeedMeaning(chunks);
    var k := IndexOf(stream, '\n');
    if Concat(chunks) == stream && k < |stream| {
      assert stream[k] == '\n';
    }
  }

  /** The client's `put`: the body goes out only after a first `OK`, and a reported success means the
      whole body went out and a second `OK` came back. Bytes received together with the first
      answer and past its newline are dropped; if what is left after that still begins with an `OK`,
      the upload is reported a success. */
  method PutFile(sock: Socket, local: FileSystem, path: string)
    returns (r: ExchangeResult, ghost body: string, ghost first: seq<string>, ghost second: seq<string>)
    modifies sock
    ensures path in local.names && local.names[path].reliable && (r.ok || local.reliable) ==>
              body == local.names[path].data
    ensures old(sock.wire) <= sock.wire <= old(sock.wire) + (PutLine(BaseName(path), |body|) + "\n" + body)
    ensures r.ok ==>
              && path in local.names && r.bytes == |body| == |local.names[path].data|
              && sock.wire == old(sock.wire) + (PutLine(BaseName(path), |body|) + "\n" + body)
              && Pieces(first) && Feed(first).Got? && ResponseOf(Feed(first).line).Ok?
              && Pieces(second) && Feed(second).Got? && ResponseOf(Feed(second).line).Ok?
    ensures !(Feed(first).Got? && ResponseOf(Feed(first).line).Ok?) ==>
              !r.ok && sock.wire <= old(sock.wire) + (PutLine(BaseName(path), |body|) + "\n") && second == []
    ensures Feed(first).Got? && ResponseOf(Feed(first).line).Err? ==> r.error == ResponseOf(Feed(first).line).reason
    ensures Feed(second).Got? && ResponseOf(Feed(second).line).Err? ==>
              !r.ok && r.error == ResponseOf(Feed(second).line).reason
    ensures Concat(first) + (Concat(second) + sock.unread) == old(sock.unread)
    ensures (local.reliable && path in local.names && sock.reliable
             && Confirmed(old(sock.unread)) && Confirmed(Concat(second) + sock.unread)) ==> r.ok
  {
    body, first, second := "", [], [];
    assert "" + ("" + sock.unread) == sock.unread;
    var file := local.Open(path);
    if file == null {
      return ExchangeResult(false, 0, NO_INPUT + path + "'"), body, first, second;
    }
    var data := ReadLocal(file);
    body := data;
    r, first, second := Store(sock, BaseName(path), data);
  }

  /** The part of a `put` on the connection. */
  method Store(sock: Socket, name: string, body: string)
    returns (r: ExchangeResult, ghost first: seq<string>, ghost second: seq<string>)
    modifies sock
    ensures old(sock.wire) <= sock.wire <= old(sock.wire) + (PutLine(name, |body|) + "\n" + body)
    ensures r.ok ==>
              && r.bytes == |body|
              && sock.wire == old(sock.wire) + (PutLine(name, |body|) + "\n" + body)
              && Pieces(first) && Feed(first).Got? && ResponseOf(Feed(first).line).Ok?
              && Pieces(second) && Feed(second).Got? && ResponseOf(Feed(second).line).Ok?
    ensures !(Feed(first).Got? && ResponseOf(Feed(first).line).Ok?) ==>
              !r.ok && sock.wire <= old(sock.wire) + (PutLine(name, |body|) + "\n") && second == []
    ensures Feed(first).Got? && ResponseOf(Feed(first).line).Err? ==> r.error == ResponseOf(Feed(first).line).reason
    ensures Feed(second).Got? && ResponseOf(Feed(second).line).Err? ==>
              !r.ok && r.error == ResponseOf(Feed(second).line).reason
    ensures Concat(first) + (Concat(second) + sock.unread) == old(sock.unread)
    ensures sock.reliable && Confirmed(old(sock.unread)) && Confirmed(Concat(second) + sock.unread) ==> r.ok
  {
    first, second := [], [];
    ghost var stream := sock.unread;
    assert "" + ("" + sock.unread) == sock.unread;
    var header := "PUT " + name + " " + Dec(|body|) + "\n";
    ghost var w0 := sock.wire;
    assert header == PutLine(name, |body|) + "\n";
    assert w0 + (header + body) == w0 + header + body;
    assert forall s: string :: Concat([]) + s == s;
    hide *;
    var sent := sock.SendAll(header);
    assert w0 <= sock.wire <= w0 + header <= w0 + header + body;
    if !sent {
      return ExchangeResult(false, 0, PUT_NOT_SENT), first, second;
    }
    var hdr1, hdr2;
    hdr1, first := sock.ReadHeaderLine();
    if hdr1.HeaderError? {
      if sock.reliable {
        LineMustCome(stream, first, sock.unread);
      }
      return ExchangeResult(false, 0, PUT_UNANSWERED + hdr1.error), first, second;
    }
    LineHasCome(stream, first, sock.unread);
    var resp1 := ParseResponseLine(hdr1.line);
    if resp1.BadResponse? {
      return ExchangeResult(false, 0, MALFORMED_RESPONSE), first, second;
    }
    if resp1.Err? {
      return ExchangeResult(false, 0, resp1.reason), first, second;
    }
    if |body| > 0 {
      sent := sock.SendAll(body);
      if !sent {
        return ExchangeResult(false, 0, BODY_NOT_SENT), first, second;
      }
    }
    ghost var mid := sock.unread;
    hdr2, second := sock.ReadHeaderLine();
    if hdr2.HeaderError? {
      if sock.reliable {
        LineMustCome(mid, second, sock.unread);
      }
      return ExchangeResult(false, 0, PUT_UNCONFIRMED + hdr2.error), first, second;
    }
    LineHasCome(mid, second, sock.unread);
    var resp2 := ParseResponseLine(hdr2.line);
    if resp2.BadResponse? {
      return ExchangeResult(false, 0, MALFORMED_RESPONSE), first, second;
    }
    if resp2.Err? {
      return ExchangeResult(false, 0, resp2.reason), first, second;
    }
    return ExchangeResult(true, |body|, ""), first, second;
  }
}
