/** A file put and then fetched again, through both halves of the program. */
module EndToEnd {
  import opened Bytes
  import opened Protocol
  import opened Net
  import opened Files
  import opened Rounds
  import opened Slice
  import opened Admission
  import opened Client
  import opened Exchange
  import Faults

  /** What the header of a legal upload, and of the download of the same name, is taken for. */
  lemma HeadersAreTaken(u: Upload)
    requires Legal(u)
    ensures var p := PutLine(u.name, |u.body|);
            Decide(p, 0) == TakePut(u.name, |u.body|) && IndexOf(p + "\n" + u.body, '\n') == |p| <= HEADER_LINE_MAX
    ensures var g := GetLine(u.name);
            Decide(g, 0) == TakeGet(u.name) && IndexOf(g + "\n", '\n') == |g| <= HEADER_LINE_MAX
  {
    var p, g := PutLine(u.name, |u.body|), GetLine(u.name);
    LegalHeader(u);
    RequestRoundTrip(u.name, 0);
    assert |g| <= |p|;
    assert '\n' !in g;
    hide PutLine, GetLine, IsToken, IsFilenameSafe, Tokens;
    assert g + "\n" == g + "\n" + "";
    GotFirstLine(p + "\n" + u.body, p, u.body);
    GotFirstLine(g + "\n", g, "");
  }

  /** The same, on the tokens of the two lines. */
  lemma HeaderTokens(u: Upload, dir: string)
    requires Legal(u)
    ensures var tok := Tokens(PutLine(u.name, |u.body|), 0);
            && AsksPut(tok) && StaysIn(dir, tok[1]) && tok[1] == u.name
            && Val(tok[2]) == |u.body| <= 0x4000_0000
    ensures var tok := Tokens(GetLine(u.name), 0);
            AsksGet(tok) && StaysIn(dir, tok[1]) && tok[1] == u.name
  {
    hide PutLine, GetLine, IsToken, IsFilenameSafe, Tokens, StaysIn, RequestOf, Val, IsCount;
    RequestRoundTrip(u.name, |u.body|);
    RequestMeaning(Tokens(PutLine(u.name, |u.body|), 0));
    RequestMeaning(Tokens(GetLine(u.name), 0));
    SafeStaysIn(dir, u.name);
  }

  function PathOf(dir: string, name: string): string {
    dir + "/" + name
  }

  /** No call on the directory or on its files fails. */
  ghost predicate Healthy(fs: FileSystem)
    reads fs, fs.names.Values
  {
    fs.reliable && forall p :: p in fs.names ==> fs.names[p].reliable && |fs.names[p].data| <= U64_MAX
  }

  /** The server's half of an upload: admission, then every round, on the stream the client sent. */
  method ServeUpload(ghost u: Upload, stream: string, fs: FileSystem, dir: string, id: nat, sp: SliceParams,
                     interrupts: nat)
    returns (answers: string)
    requires Legal(u) && Healthy(fs) && stream == u.Header() + u.body && sp.config == u.config
    modifies fs`names, fs.At(TempOf(PathOf(dir, u.name), id))
    ensures Healthy(fs) && PathOf(dir, u.name) in fs.names && fs.names[PathOf(dir, u.name)].data == u.body
    ensures answers == FormatOk(0) + FormatOk(0)
  {
    var sock, req := AdmitUpload(u, stream, fs, dir, id, interrupts);
    hide Legal, FormatOk, OK_LINE;
    assert req.TempPath() == TempOf(PathOf(dir, u.name), id);
    var res, _ := ServePutToEnd(req, sock, fs, sp);
    WholeBody(fs.names[req.path].data, req.leftover + sock.unread, u.body);
    assert "" + FormatOk(0) == FormatOk(0);
    answers := sock.wire;
  }

  lemma WholeBody(a: string, rest: string, body: string)
    requires a + rest == body && |a| == |body|
    ensures a == body
  {
    assert a == (a + rest)[..|a|];
  }

  lemma SplitAtNewline(p: string, rest: string)
    ensures (p + "\n" + rest)[..|p|] == p && (p + "\n" + rest)[|p| + 1..] == rest
  {
  }

  method AdmitUpload(ghost u: Upload, stream: string, fs: FileSystem, dir: string, id: nat, interrupts: nat)
    returns (sock: Socket, req: Request)
    requires Legal(u) && Healthy(fs) && stream == u.Header() + u.body
    ensures fresh(sock) && fresh(req) && sock.reliable && sock.wire == ""
    ensures req.PutReady(fs) && !req.started && req.rounds == 0
    ensures req.id == id && req.path == PathOf(dir, u.name) && req.bytes == |u.body|
    ensures req.leftover + sock.unread == u.body
  {
    hide PutLine, Legal, IndexOf, Decide, Tokens, StaysIn, Val, IsCount, FormatErr, FormatOk, TempOf;
    ghost var p := PutLine(u.name, |u.body|);
    HeadersAreTaken(u);
    HeaderTokens(u, dir);
    SplitAtNewline(p, u.body);
    sock := new Socket(stream, interrupts, true);
    var admitted, _ := AdmitConnection(sock, fs, dir, id, 0, 0);
    req := admitted;
  }

  /** An upload during which any call of either side may fail: every round of an admitted PUT on any
      connection and any directory, the release of the request, and a client that then reads what the
      server has sent, however it is cut up. A client that reports a success has its file installed, no
      temporary name is left behind, and nothing else in the directory has changed. */
  method UploadWithFailures(req: Request, sock: Socket, fs: FileSystem, sp: SliceParams,
                            source: FileSystem, path: string, reliable: bool, interrupts: nat)
    returns (put: ExchangeResult, res: SliceResult, ghost fault: PutFault)
    requires req.PutReady(fs) && sp.config.Valid() && req.rounds == 0 && !req.started && sock.wire == ""
    modifies req`rounds, req`started, req`tmpPath, req`file, req`leftover, req`byteOffset
    modifies sock, fs`names, fs.At(req.TempPath())
    ensures put.ok ==> res.SliceDone?
    ensures res.SliceDone? || fault.LastOkFault? ==>
              && req.path in fs.names && |fs.names[req.path].data| == req.bytes
              && fs.names[req.path].data <= old(req.leftover + sock.unread)
    ensures fs.names == if res.SliceDone? || fault.LastOkFault? then
                          (old(fs.names) - {req.TempPath()})[req.path := fs.names[req.path]]
                        else if fault.OpenFault? then old(fs.names)
                        else old(fs.names) - {req.TempPath()}
  {
    ghost var stream, temp := req.leftover + sock.unread, req.TempPath();
    hide FormatOk, Failed, TempOf;
    res, fault := ServePutToEnd(req, sock, fs, sp);
    ReleaseRequest(req, fs);
    var client := new Socket(sock.wire, interrupts, reliable);
    ghost var body, first, second;
    put, body, first, second := PutFile(client, source, path);
    if put.ok && res.SliceFailed? {
      Faults.FailureGivesNoSecondOk(fault, sock.reliable, sock.wire, first, second, client.unread);
    }
  }

  /** A download: the server's admission and rounds, and the client reading what they send. */
  method Download(name: string, fs: FileSystem, dir: string, id: nat, sp: SliceParams,
                  local: FileSystem, outPath: string, interrupts: nat)
    returns (r: ExchangeResult)
    requires Healthy(fs) && PathOf(dir, name) in fs.names && sp.config.Valid()
    requires Legal(Upload(name, "", sp.config)) && Healthy(local)
    modifies local`names, local.At(outPath)
    ensures r.ok && outPath in local.names && local.names[outPath].data == old(fs.names[PathOf(dir, name)].data)
    ensures r.bytes == |local.names[outPath].data|
  {
    ghost var data := fs.names[PathOf(dir, name)].data;
    var wire := ServeDownload(name, fs, dir, id, sp, interrupts);
    hide Legal, FormatOk, GetLine, IndexOf, ResponseOf, Answers, Answered;
    var peer := new Socket(wire, interrupts, true);
    OkAnswer(data);
    ghost var got;
    r, got := GetFile(peer, name, local, outPath);
    AnswerIs(data, got);
  }

  method ServeDownload(name: string, fs: FileSystem, dir: string, id: nat, sp: SliceParams, interrupts: nat)
    returns (wire: string)
    requires Healthy(fs) && PathOf(dir, name) in fs.names && sp.config.Valid()
    requires Legal(Upload(name, "", sp.config))
    ensures var data := fs.names[PathOf(dir, name)].data;
            |data| <= U64_MAX && wire == FormatOk(|data|) + data
  {
    ghost var data := fs.names[PathOf(dir, name)].data;
    var sock, req := AdmitDownload(name, fs, dir, id, sp.config, interrupts);
    hide Legal, FormatOk;
    assert req.Content() == data;
    var res := ServeGetToEnd(req, sock, sp);
    assert "" + FormatOk(|data|) == FormatOk(|data|);
    wire := sock.wire;
  }

  method AdmitDownload(name: string, fs: FileSystem, dir: string, id: nat, ghost config: Config, interrupts: nat)
    returns (sock: Socket, req: Request)
    requires Healthy(fs) && PathOf(dir, name) in fs.names
    requires Legal(Upload(name, "", config))
    ensures fresh(sock) && fresh(req) && sock.reliable && sock.wire == ""
    ensures req.GetReady() && !req.started && req.State() == START
    ensures req.file == fs.names[PathOf(dir, name)] && req.bytes == |req.file.data|
  {
    var g := GetLine(name);
    HeadersAreTaken(Upload(name, "", config));
    HeaderTokens(Upload(name, "", config), dir);
    assert (g + "\n")[..|g|] == g;
    hide GetLine, Legal, IndexOf, Decide, Tokens, StaysIn, Val, IsCount, FormatErr, FormatOk;
    sock := new Socket(g + "\n", interrupts, true);
    var admitted, _ := AdmitConnection(sock, fs, dir, id, 0, 0);
    req := admitted;
  }

  /** The wire of a served GET is an answer the client reads whole, and it can be read in one way only. */
  lemma OkAnswer(data: string)
    requires |data| <= U64_MAX
    ensures Answered(FormatOk(|data|) + data)
  {
    OkLineFirst(data);
    hide FormatOk, ResponseOf;
    assert Answers(FormatOk(|data|) + data, data);
  }

  lemma AnswerIs(data: string, got: string)
    requires |data| <= U64_MAX && Answers(FormatOk(|data|) + data, got)
    ensures got == data
  {
    OkLineFirst(data);
    hide FormatOk, ResponseOf;
    WholeBody(got, data[|got|..], data);
  }

  lemma OkLineFirst(data: string)
    requires |data| <= U64_MAX
    ensures var s, k := FormatOk(|data|) + data, IndexOf(FormatOk(|data|) + data, '\n');
            k < |s| && k <= HEADER_LINE_MAX && ResponseOf(s[..k]) == Ok(|data|) && s[k + 1..] == data
  {
    var n := |data|;
    ResponseRoundTrip(n, "");
    PrintedLinesHaveOneNewline(n, "");
    assert Pow10(7) == 10_000_000 && Pow10(14) == 100_000_000_000_000;
    DecLength(n, 20);
    var line := FormatOk(n);
    assert line == Chop(line) + "\n" && |line| == |Dec(n)| + 4;
    hide FormatOk, ResponseOf;
    GotFirstLine(line + data, Chop(line), data);
  }

  lemma SmallerUpload(u: Upload, config: Config)
    requires Legal(u) && config.Valid()
    ensures Legal(Upload(u.name, "", config))
  {
    assert Dec(0) == "0";
  }

  /** After any whole run of the two-sided upload, a directory whose entry holds what that run
      installed gives the uploaded body back. */
  method GetAfterUpload(ghost u: Upload, ghost run: seq<Step>, name: string, fs: FileSystem, dir: string, id: nat,
                        sp: SliceParams, local: FileSystem, outPath: string, interrupts: nat)
    returns (got: ExchangeResult)
    requires Legal(u) && WholeRun(u, run) && name == u.name && sp.config.Valid()
    requires Healthy(fs) && Healthy(local) && PathOf(dir, name) in fs.names
    requires End(u, Init(u), run).installed == Some(fs.names[PathOf(dir, name)].data)
    modifies local`names, local.At(outPath)
    ensures got.ok && got.bytes == |u.body| && outPath in local.names && local.names[outPath].data == u.body
  {
    UploadInstalls(u, run);
    SmallerUpload(u, sp.config);
    hide Legal, WholeRun, Runs, End;
    got := Download(name, fs, dir, id, sp, local, outPath, interrupts);
  }

  /** What the client has sent is served, and the name is fetched again. */
  method ServeThenGet(ghost u: Upload, name: string, wire: string, fs: FileSystem, dir: string, ids: (nat, nat),
                      first: SliceParams, second: SliceParams, local: FileSystem, outPath: string, interrupts: nat)
    returns (got: ExchangeResult)
    requires Legal(u) && name == u.name && first.config == u.config && second.config.Valid()
    requires wire == u.Header() + u.body && Healthy(fs) && Healthy(local)
    requires fs != local && fs.names.Values !! local.names.Values
    modifies fs`names, fs.At(TempOf(PathOf(dir, name), ids.0)), local`names, local.At(outPath)
    ensures got.ok && got.bytes == |u.body| && outPath in local.names && local.names[outPath].data == u.body
  {
    SmallerUpload(u, second.config);
    hide Legal, PathOf, TempOf, PutLine;
    assert fs.At(TempOf(PathOf(dir, name), ids.0)) <= fs.names.Values;
    hide *;
    var _ := ServeUpload(u, wire, fs, dir, ids.0, first, interrupts);
    got := Download(name, fs, dir, ids.1, second, local, outPath, interrupts);
  }

  /** Put a local file, then get it back under another local name. Whatever the server's answers were
      and however either stream is cut up: if the client reports that the put succeeded, then the
      server's half, run on exactly what the client sent, and a later get bring the same bytes back,
      for every pair of policies and quanta and every write grouping. */
  method PutThenGet(source: FileSystem, path: string, answers: string, fs: FileSystem, dir: string, ids: (nat, nat),
                    first: SliceParams, second: SliceParams, local: FileSystem, outPath: string, interrupts: nat)
    returns (put: ExchangeResult, got: ExchangeResult, client: Socket)
    requires Healthy(source) && path in source.names && Healthy(fs) && Healthy(local)
    requires first.config.Valid() && second.config.Valid()
    requires Legal(Upload(BaseName(path), source.names[path].data, first.config))
    requires fs != local && fs.names.Values !! local.names.Values
    modifies fs`names, fs.At(TempOf(PathOf(dir, BaseName(path)), ids.0)), local`names, local.At(outPath)
    ensures put.ok ==>
              && got.ok && put.bytes == got.bytes == old(|source.names[path].data|)
              && outPath in local.names && local.names[outPath].data == old(source.names[path].data)
  {
    ghost var u := Upload(BaseName(path), source.names[path].data, first.config);
    hide Legal, BaseName, PutLine, PathOf, TempOf;
    client := new Socket(answers, interrupts, true);
    ghost var sent, before, after;
    put, sent, before, after := PutFile(client, source, path);
    got := put;
    if put.ok {
      NothingBehind(u.Header() + u.body);
      got := ServeThenGet(u, BaseName(path), client.wire, fs, dir, ids, first, second, local, outPath, interrupts);
    }
  }
}
