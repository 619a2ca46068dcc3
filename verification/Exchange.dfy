/** One upload, both sides: the client's `put` and the server's header reading and PUT rounds as two
    processes joined by two byte streams, one step for each system call, every call free to come
    back short. No call fails. */
module Exchange {
  import opened Bytes
  import opened Protocol
  import opened Net
  import opened Rounds
  import opened Admission
  import Slice
  import Server

  /** The upload: the name, the body, and the policy and quantum the server runs with. */
  datatype Upload = Upload(name: string, body: string, config: Config) {
    function Header(): string {
      PutLine(name, |body|) + "\n"
    }
  }

  /** The uploads the server accepts. */
  ghost predicate Legal(u: Upload) {
    && u.config.Valid()
    && IsToken(u.name) && '\n' !in u.name && IsFilenameSafe(u.name)
    && |u.body| <= Server.PUT_MAX
    && |PutLine(u.name, |u.body|)| <= HEADER_LINE_MAX
  }

  datatype Turn = First | Second      // which of the two answers the client waits for

  datatype ClientState =
    | Sending(data: string, turn: Turn)
    | Reading(line: string, turn: Turn)
    | Ended(ok: bool)

  datatype Next = GoOn | HangUp

  datatype ServerState =
    | Header(line: string)
    | Replying(data: string, next: Next)
    | StartRound
    | Piece(todo: nat)
    | Filling(todo: nat, size: nat, buf: string)
    | Closed

  datatype State = State(
    client: ClientState,
    server: ServerState,
    toServer: string,         // sent and not yet received
    toClient: string,
    leftover: string,         // received by the server with the header line
    size: nat,                // the declared size
    temp: string,             // the temporary file
    installed: Option<string>)

  datatype Step =
    | ClientSend(k: nat)
    | ClientNext
    | ClientRecv(k: nat)
    | ClientEof
    | ServerSend(k: nat)
    | ServerNext
    | ServerRecv(k: nat)

  function Init(u: Upload): State {
    State(Sending(u.Header(), First), Header(""), "", "", "", 0, "", None)
  }

  predicate Enabled(u: Upload, s: State, e: Step) {
    match e
    case ClientSend(k) => s.client.Sending? && 1 <= k <= |s.client.data|
    case ClientNext => s.client.Sending? && s.client.data == ""
    case ClientRecv(k) => s.client.Reading? && 1 <= k <= |s.toClient| && k <= HEADER_RECV_MAX
    case ClientEof => s.client.Reading? && s.toClient == "" && s.server.Closed?
    case ServerSend(k) => s.server.Replying? && 1 <= k <= |s.server.data|
    case ServerNext =>
      || (s.server.Replying? && s.server.data == "")
      || s.server.StartRound?
      || s.server.Piece?
      || (s.server.Filling? && |s.server.buf| >= s.server.size)
    case ServerRecv(k) =>
      && 1 <= k <= |s.toServer|
      && (|| (s.server.Header? && k <= HEADER_RECV_MAX)
          || (s.server.Filling? && k <= s.server.size - |s.server.buf|))
  }

  /** The client has an answer line, or gives up. */
  function ClientAnswer(u: Upload, scan: Scan, turn: Turn): ClientState {
    match scan
    case More(line) => Reading(line, turn)
    case TooLong => Ended(false)
    case Got(line, _) =>
      if !ResponseOf(line).Ok? then Ended(false)
      else if turn.Second? then Ended(true)
      else if |u.body| > 0 then Sending(u.body, Second)
      else Reading("", Second)
  }

  /** The server has a header line, or gives up. */
  function ServerHeader(s: State, scan: Scan, rest: string): State {
    match scan
    case More(line) => s.(server := Header(line), toServer := rest)
    case TooLong => s.(server := Replying(FormatErr("header line too long"), HangUp), toServer := rest)
    case Got(line, leftover) =>
      match Decide(line, 0)
      case TakePut(_, size) =>
        s.(server := Replying(FormatOk(0), GoOn), toServer := rest, leftover := leftover, size := size)
      case Refuse(reason) => s.(server := Replying(FormatErr(reason), HangUp), toServer := rest)
      case _ => s.(server := Closed, toServer := rest)
  }

  /** The part of a PUT round between two calls on the connection. */
  function ServerInner(u: Upload, s: State): State
    requires s.server.Replying? || s.server.StartRound? || s.server.Piece? || s.server.Filling?
  {
    match s.server
    case Replying(_, next) => s.(server := if next.GoOn? then StartRound else Closed)
    case StartRound =>
      s.(server := Piece(PutTake(u.config, if |s.temp| <= s.size then s.size - |s.temp| else 0)))
    case Piece(todo) =>
      if todo == 0 then
        if |s.temp| < s.size then s.(server := StartRound)
        else s.(server := Replying(FormatOk(0), HangUp), installed := Some(s.temp))
      else
        var n := Min(Slice.CHUNK, todo);
        var take := Min(|s.leftover|, n);
        s.(server := Filling(todo, n, s.leftover[..take]), leftover := s.leftover[take..])
    case Filling(todo, n, buf) =>
      s.(server := Piece(if n <= todo then todo - n else 0), temp := s.temp + buf)
  }

  function Do(u: Upload, s: State, e: Step): State
    requires Enabled(u, s, e)
  {
    match e
    case ClientSend(k) =>
      s.(client := s.client.(data := s.client.data[k..]), toServer := s.toServer + s.client.data[..k])
    case ClientNext => s.(client := Reading("", s.client.turn))
    case ClientRecv(k) =>
      s.(client := ClientAnswer(u, ScanPiece(s.client.line, s.toClient[..k]), s.client.turn),
      toClient := s.toClient[k..])
    case ClientEof => s.(client := Ended(false))
    case ServerSend(k) =>
      s.(server := s.server.(data := s.server.data[k..]), toClient := s.toClient + s.server.data[..k])
    case ServerNext => ServerInner(u, s)
    case ServerRecv(k) =>
      if s.server.Header? then ServerHeader(s, ScanPiece(s.server.line, s.toServer[..k]), s.toServer[k..])
      else s.(server := s.server.(buf := s.server.buf + s.toServer[..k]), toServer := s.toServer[k..])
  }

  // ------------------------------------------------------------------ what is conserved

  /** What the client has still to send. */
  function ClientRest(u: Upload, s: State): string {
    match s.client
    case Sending(data, First) => data + u.body
    case Sending(data, Second) => data
    case Reading(_, First) => u.body
    case _ => ""
  }

  /** What the server has taken out of the stream. */
  function Taken(u: Upload, s: State): string {
    match s.server
    case Header(line) => line
    case Filling(_, _, buf) => u.Header() + s.temp + buf + s.leftover
    case _ => u.Header() + s.temp + s.leftover
  }

  /** Every byte of header and body is in exactly one place, in order. */
  predicate Upstream(u: Upload, s: State) {
    Taken(u, s) + s.toServer + ClientRest(u, s) == u.Header() + u.body
  }

  predicate Installing(s: State) {
    s.server.Closed? || (s.server.Replying? && s.server.next.HangUp?)
  }

  /** Where the server is in the upload. */
  predicate ServerInv(u: Upload, s: State) {
    && (s.server.Header? ==> '\n' !in s.server.line && |s.server.line| <= HEADER_LINE_MAX
                             && s.temp == "" && s.leftover == "")
    && (!s.server.Header? ==> s.size == |u.body|)
    && (s.server.Piece? ==> |s.temp| + s.server.todo <= s.size)
    && (s.server.Filling? ==> 1 <= s.server.size <= s.server.todo && |s.temp| + s.server.todo <= s.size
                              && |s.server.buf| <= s.server.size
                              && (|s.server.buf| < s.server.size ==> s.leftover == ""))
    && (Installing(s) <==> s.installed.Some?)
    && (s.installed.Some? ==> s.installed.value == u.body && s.temp == u.body && s.leftover == "")
  }

  const OK_LINE: string := FormatOk(0)

  /** What the server has still to send of its first answer, and of its second. */
  function FirstRest(s: State): string {
    match s.server
    case Header(_) => OK_LINE
    case Replying(data, GoOn) => data
    case _ => ""
  }

  function SecondRest(s: State): string {
    match s.server
    case Replying(data, HangUp) => data
    case Closed => ""
    case _ => OK_LINE
  }

  /** The answers, when the upload has a body: each is still whole, in pieces between the server, the
      channel and the client, and the second is not begun before the client has had the first. */
  predicate Downstream(u: Upload, s: State) {
    match s.client
    case Sending(_, First) => s.toClient + FirstRest(s) == OK_LINE
    case Reading(line, First) => line + s.toClient + FirstRest(s) == OK_LINE && '\n' !in line
    case Sending(_, Second) => s.toClient + SecondRest(s) == OK_LINE && FirstRest(s) == ""
    case Reading(line, Second) => line + s.toClient + SecondRest(s) == OK_LINE && FirstRest(s) == "" && '\n' !in line
    case Ended(ok) => ok && s.toClient == "" && SecondRest(s) == "" && Installing(s)
  }

  /** What the answers play no part in. */
  predicate Core(u: Upload, s: State) {
    Upstream(u, s) && ServerInv(u, s)
  }

  predicate Inv(u: Upload, s: State) {
    Core(u, s) && (u.body != "" ==> Downstream(u, s))
  }

  // ------------------------------------------------------------------ the two answer lines

  lemma OkLineShape()
    ensures OK_LINE == "OK 0" + "\n" && '\n' !in "OK 0"
    ensures ResponseOf("OK 0") == Ok(0)
  {
    ResponseRoundTrip(0, "");
    assert Dec(0) == "0";
    assert FormatOk(0) == "OK 0\n";
    assert Chop("OK 0\n") == "OK 0";
  }

  /** The reader of an `OK` line either has all of it, or has a part without its newline. */
  lemma ReadsOkLine(line: string, buf: string, rest: string)
    requires line + (buf + rest) == OK_LINE && '\n' !in line && buf != ""
    ensures match ScanPiece(line, buf)
            case More(l) => l == line + buf && '\n' !in l
            case Got(l, leftover) => l == "OK 0" && leftover == "" && rest == ""
            case TooLong => false
  {
    OkLineShape();
    IndexOfFirst(buf, '\n');
    var nl, all := IndexOf(buf, '\n'), OK_LINE;
    assert |line| + |buf| + |rest| == 5;
    assert all[4] == '\n' && forall i :: 0 <= i < 4 ==> all[i] != '\n';
    if nl < |buf| {
      assert all[|line| + nl] == buf[nl];
      assert |line| + nl == 4;
      assert line + buf[..nl] == all[..4];
    } else {
      assert buf[..nl] == buf;
    }
  }

  // ------------------------------------------------------------------ client steps

  lemma Shift(a: string, b: string, x: string, y: string, r: string)
    ensures a + b + (x + y + r) == a + (b + x) + (y + r)
    ensures a + (x + y) + r == a + x + (y + r)
    ensures a + b + (x + y) == a + (b + x) + y
  {
  }

  lemma Regroup(a: string, x: string, k: nat, r: string)
    requires k <= |x|
    ensures a + x + r == a + (x[..k] + (x[k..] + r))
    ensures a + x[..k] + x[k..] + r == a + x + r
  {
    assert x == x[..k] + x[k..];
  }

  lemma ClientSendCore(u: Upload, s: State, k: nat)
    requires Core(u, s) && Enabled(u, s, ClientSend(k))
    ensures Core(u, Do(u, s, ClientSend(k)))
  {
    var t, data := Do(u, s, ClientSend(k)), s.client.data;
    hide OK_LINE, FormatOk, PutLine;
    assert Taken(u, t) == Taken(u, s);
    assert data == data[..k] + data[k..];
    Shift(Taken(u, s), s.toServer, data[..k], data[k..], if s.client.turn.First? then u.body else "");
    assert data + "" == data && data[k..] + "" == data[k..];
    hide Taken, ServerInv;
    assert Upstream(u, t);
  }

  lemma ClientNextCore(u: Upload, s: State)
    requires Core(u, s) && Enabled(u, s, ClientNext)
    ensures Core(u, Do(u, s, ClientNext))
  {
    var t := Do(u, s, ClientNext);
    hide PutLine, FormatOk;
    assert "" + u.body == u.body;
    assert ClientRest(u, t) == ClientRest(u, s);
    assert Taken(u, t) == Taken(u, s);
  }

  lemma ClientTalkDownstream(u: Upload, s: State, e: Step)
    requires Downstream(u, s) && Enabled(u, s, e) && (e.ClientSend? || e.ClientNext?)
    ensures Downstream(u, Do(u, s, e))
  {
    hide OK_LINE, FormatOk;
    assert "" + s.toClient == s.toClient;
  }

  /** Once the server is installing, nothing of the body is anywhere else. */
  lemma InstallingMeansAllSent(u: Upload, s: State)
    requires Core(u, s) && Installing(s)
    ensures s.toServer == "" && ClientRest(u, s) == ""
  {
    assert |Taken(u, s)| == |u.Header() + u.body|;
    assert |Taken(u, s)| + |s.toServer| + |ClientRest(u, s)| == |u.Header() + u.body|;
  }

  lemma ClientRecvCore(u: Upload, s: State, k: nat)
    requires Core(u, s) && Enabled(u, s, ClientRecv(k))
    requires u.body != "" ==>
               match ScanPiece(s.client.line, s.toClient[..k])
               case More(_) => true
               case Got(l, _) => ResponseOf(l).Ok?
               case TooLong => false
    ensures Core(u, Do(u, s, ClientRecv(k)))
  {
    var t := Do(u, s, ClientRecv(k));
    hide ScanPiece, ResponseOf, OK_LINE, FormatOk, PutLine;
    assert Taken(u, t) == Taken(u, s);
    assert ClientRest(u, t) == ClientRest(u, s);
  }

  /** The client goes on with its line, or with the next thing to do. */
  lemma ClientGoesOn(u: Upload, s: State, k: nat)
    requires Enabled(u, s, ClientRecv(k))
    requires match ScanPiece(s.client.line, s.toClient[..k])
             case More(_) => true
             case Got(l, _) => ResponseOf(l).Ok?
             case TooLong => false
    ensures var t, scan, turn := Do(u, s, ClientRecv(k)), ScanPiece(s.client.line, s.toClient[..k]), s.client.turn;
            && t.toClient == s.toClient[k..] && t.server == s.server && t.installed == s.installed
            && t.client == if scan.More? then Reading(scan.line, turn)
                           else if turn.Second? then Ended(true)
                           else if u.body != "" then Sending(u.body, Second) else Reading("", Second)
  {
    hide ScanPiece, ResponseOf;
  }

  lemma ClientRecvDownstream(u: Upload, s: State, k: nat, rest: string)
    requires Inv(u, s) && u.body != "" && Enabled(u, s, ClientRecv(k))
    requires rest == if s.client.turn.First? then FirstRest(s) else SecondRest(s)
    requires match ScanPiece(s.client.line, s.toClient[..k])
             case More(l) => l == s.client.line + s.toClient[..k] && '\n' !in l
             case Got(l, _) => ResponseOf(l).Ok? && s.toClient[k..] == "" && rest == ""
             case TooLong => false
    ensures Downstream(u, Do(u, s, ClientRecv(k)))
  {
    if Installing(s) {
      InstallingMeansAllSent(u, s);
    }
    ClientGoesOn(u, s, k);
    Regroup(s.client.line, s.toClient, k, rest);
    NothingBehind(SecondRest(s));
    hide ScanPiece, OK_LINE, FormatOk, ResponseOf, Core, PutLine, Do;
  }

  lemma NothingBehind(x: string)
    ensures x + "" == x && "" + x == x
  {
  }

  lemma ClientRecvKeeps(u: Upload, s: State, k: nat)
    requires Inv(u, s) && Enabled(u, s, ClientRecv(k))
    ensures Inv(u, Do(u, s, ClientRecv(k)))
  {
    if u.body == "" {
      ClientRecvCore(u, s, k);
      return;
    }
    var line, turn, buf, later := s.client.line, s.client.turn, s.toClient[..k], s.toClient[k..];
    var rest := if turn.First? then FirstRest(s) else SecondRest(s);
    assert line + s.toClient + rest == OK_LINE && '\n' !in line;
    OkLineShape();
    hide Core, Downstream, OK_LINE, ScanPiece, ResponseOf, FirstRest, SecondRest;
    Regroup(line, s.toClient, k, rest);
    ReadsOkLine(line, buf, later + rest);
    EmptyParts(later, rest);
    ClientRecvCore(u, s, k);
    ClientRecvDownstream(u, s, k, rest);
  }

  lemma EmptyParts(a: string, b: string)
    ensures a + b == "" ==> a == "" && b == ""
  {
  }

  lemma ClientEofImpossible(u: Upload, s: State)
    requires Inv(u, s) && u.body != ""
    ensures !Enabled(u, s, ClientEof)
  {
    OkLineShape();
    assert OK_LINE[4] == '\n';
    if Installing(s) {
      InstallingMeansAllSent(u, s);
    }
    hide OK_LINE, FormatOk;
  }

  // ------------------------------------------------------------------ server steps

  lemma ServerSendCore(u: Upload, s: State, k: nat)
    requires Core(u, s) && Enabled(u, s, ServerSend(k))
    ensures Core(u, Do(u, s, ServerSend(k)))
  {
    var t := Do(u, s, ServerSend(k));
    hide PutLine, FormatOk;
    assert Taken(u, t) == Taken(u, s);
    assert ClientRest(u, t) == ClientRest(u, s);
  }

  lemma ServerSendDownstream(u: Upload, s: State, k: nat)
    requires Core(u, s) && u.body != "" && Downstream(u, s) && Enabled(u, s, ServerSend(k))
    ensures Downstream(u, Do(u, s, ServerSend(k)))
  {
    var data, line := s.server.data, if s.client.Reading? then s.client.line else "";
    if Installing(s) {
      InstallingMeansAllSent(u, s);
    }
    hide OK_LINE, FormatOk, Core, PutLine;
    MoveOver(line, s.toClient, data, k);
    MoveOver("", s.toClient, data, k);
  }

  lemma MoveOver(line: string, sent: string, data: string, k: nat)
    requires k <= |data|
    ensures line + (sent + data[..k]) + data[k..] == line + sent + data
    ensures sent + data[..k] + data[k..] == sent + data
  {
  }

  lemma ServerNextUpstream(u: Upload, s: State)
    requires Upstream(u, s) && Enabled(u, s, ServerNext)
    ensures Upstream(u, Do(u, s, ServerNext))
  {
    var t := Do(u, s, ServerNext);
    assert ClientRest(u, t) == ClientRest(u, s) && t.toServer == s.toServer && t.client == s.client;
    NextTakesNothing(u, s);
    hide *;
    SameUpstream(u, s, t);
  }

  lemma SameUpstream(u: Upload, s: State, t: State)
    requires Upstream(u, s)
    requires Taken(u, t) == Taken(u, s) && t.toServer == s.toServer && ClientRest(u, t) == ClientRest(u, s)
    ensures Upstream(u, t)
  {
    hide Taken, ClientRest;
  }

  lemma NextTakesNothing(u: Upload, s: State)
    requires Enabled(u, s, ServerNext)
    ensures Taken(u, Do(u, s, ServerNext)) == Taken(u, s)
  {
    hide OK_LINE, FormatOk, PutLine, PutTake;
    match s.server
    case Piece(todo) =>
      var take := Min(|s.leftover|, Min(Slice.CHUNK, todo));
      Rejoin(u.Header() + s.temp, s.leftover, take);
    case Filling(_, _, buf) => Rejoin(u.Header(), s.temp + buf, |s.temp|);
    case _ =>
  }

  lemma Rejoin(a: string, x: string, k: nat)
    requires k <= |x|
    ensures a + x[..k] + x[k..] == a + x
  {
  }

  lemma ServerNextCore(u: Upload, s: State)
    requires Core(u, s) && Enabled(u, s, ServerNext)
    ensures Core(u, Do(u, s, ServerNext))
  {
    ServerNextUpstream(u, s);
    hide Upstream, FormatOk;
    if s.server.Piece? && |s.temp| >= |u.body| {
      AllOfBody(u, s);
    }
    if s.server.StartRound? {
      TempBounded(u, s);
    }
    NextKeepsServer(u, s);
    hide ServerInv, Do, Enabled;
  }

  lemma TempBounded(u: Upload, s: State)
    requires Upstream(u, s) && s.server.StartRound?
    ensures |s.temp| <= |u.body|
  {
    assert |Taken(u, s) + s.toServer + ClientRest(u, s)| == |u.Header() + u.body|;
  }

  lemma NextKeepsServer(u: Upload, s: State)
    requires ServerInv(u, s) && Enabled(u, s, ServerNext)
    requires s.server.StartRound? ==> |s.temp| <= |u.body|
    requires s.server.Piece? && |s.temp| >= |u.body| ==> s.temp == u.body && s.leftover == ""
    ensures ServerInv(u, Do(u, s, ServerNext))
  {
    hide FormatOk, PutLine;
  }

  lemma NextKeepsDownstream(u: Upload, s: State)
    requires ServerInv(u, s) && Enabled(u, s, ServerNext) && Downstream(u, s)
    ensures Downstream(u, Do(u, s, ServerNext))
  {
    hide FormatOk, PutLine, PutTake;
  }

  lemma AllOfBody(u: Upload, s: State)
    requires Upstream(u, s) && s.server.Piece? && |s.temp| >= |u.body|
    ensures s.temp == u.body && s.leftover == ""
  {
    PrefixOfSame(u.Header(), s.temp, s.leftover, s.toServer + ClientRest(u, s), u.body);
    assert Taken(u, s) + s.toServer + ClientRest(u, s) == Taken(u, s) + (s.toServer + ClientRest(u, s));
  }

  lemma PrefixOfSame(h: string, a: string, b: string, c: string, body: string)
    requires h + a + b + c == h + body && |a| >= |body|
    ensures a == body && b == ""
  {
    assert h + a + b + c == h + (a + (b + c));
    assert (h + (a + (b + c)))[|h|..] == a + (b + c) && (h + body)[|h|..] == body;
  }

  lemma LegalHeader(u: Upload)
    requires Legal(u)
    ensures '\n' !in PutLine(u.name, |u.body|)
    ensures Decide(PutLine(u.name, |u.body|), 0) == TakePut(u.name, |u.body|)
  {
    hide Tokens, Dec, IsToken, IsFilenameSafe, RequestOf;
    RequestRoundTrip(u.name, |u.body|);
    DigitsHaveNo(Dec(|u.body|), '\n');
    PutLineIsLine(u.name, Dec(|u.body|));
  }

  lemma PutLineIsLine(name: string, digits: string)
    requires '\n' !in name && '\n' !in digits
    ensures '\n' !in "PUT " + name + " " + digits
  {
    assert '\n' !in "PUT " && '\n' !in " ";
  }

  /** A line that ends in the first newline of the stream, however it is cut up. */
  lemma LineArrives(p: string, body: string, line: string, buf: string, rest: string)
    requires '\n' !in p && |p| <= HEADER_LINE_MAX && '\n' !in line && buf != ""
    requires line + (buf + rest) == p + "\n" + body
    ensures match ScanPiece(line, buf)
            case More(l) => l == line + buf && '\n' !in l && |l| <= HEADER_LINE_MAX
            case Got(l, leftover) => l == p && p + "\n" + leftover == line + buf
            case TooLong => false
  {
    var all, nl := p + "\n" + body, IndexOf(buf, '\n');
    IndexOfFirst(buf, '\n');
    if nl < |buf| {
      GotLine(p, body, line, buf, rest, nl);
    } else {
      assert buf[..nl] == buf;
      assert all == line + buf + rest && all == p + ("\n" + body);
      IndexOfAt(line + buf, rest, '\n');
      IndexOfAt(p, "\n" + body, '\n');
    }
  }

  lemma GotLine(p: string, body: string, line: string, buf: string, rest: string, nl: nat)
    requires '\n' !in p && '\n' !in line
    requires line + (buf + rest) == p + "\n" + body
    requires nl < |buf| && buf[nl] == '\n' && '\n' !in buf[..nl]
    ensures line + buf[..nl] == p && p + "\n" + buf[nl + 1..] == line + buf
  {
    var l, leftover := line + buf[..nl], buf[nl + 1..];
    CutAtNewline(line, buf, rest, nl);
    hide *;
    GotFirstLine(p + "\n" + body, l, leftover + rest);
    GotFirstLine(p + "\n" + body, p, body);
  }

  lemma CutAtNewline(line: string, buf: string, rest: string, nl: nat)
    requires nl < |buf| && buf[nl] == '\n'
    ensures line + (buf + rest) == line + buf[..nl] + "\n" + (buf[nl + 1..] + rest)
    ensures line + buf[..nl] + "\n" + buf[nl + 1..] == line + buf
  {
  }

  /** The piece read is the header line's, or its beginning. */
  ghost predicate HeaderPiece(u: Upload, s: State, k: nat)
    requires Enabled(u, s, ServerRecv(k)) && s.server.Header?
  {
    match ScanPiece(s.server.line, s.toServer[..k])
    case More(l) => l == s.server.line + s.toServer[..k] && '\n' !in l && |l| <= HEADER_LINE_MAX
    case Got(l, leftover) => l == PutLine(u.name, |u.body|) && u.Header() + leftover == s.server.line + s.toServer[..k]
    case TooLong => false
  }

  lemma HeaderArrives(u: Upload, s: State, k: nat)
    requires Legal(u) && Core(u, s) && Enabled(u, s, ServerRecv(k)) && s.server.Header?
    ensures HeaderPiece(u, s, k)
  {
    var line, rest := s.server.line, ClientRest(u, s);
    LegalHeader(u);
    hide ScanPiece, Decide, PutLine, IsToken, OK_LINE, FormatOk, IsFilenameSafe, Downstream, ClientRest;
    Regroup(line, s.toServer, k, rest);
    LineArrives(PutLine(u.name, |u.body|), u.body, line, s.toServer[..k], s.toServer[k..] + rest);
  }

  lemma HeaderPieceTaken(u: Upload, s: State, k: nat)
    requires Core(u, s) && Enabled(u, s, ServerRecv(k)) && s.server.Header? && HeaderPiece(u, s, k)
    requires Decide(PutLine(u.name, |u.body|), 0) == TakePut(u.name, |u.body|)
    ensures var t := Do(u, s, ServerRecv(k));
            Taken(u, t) == s.server.line + s.toServer[..k] && t.toServer == s.toServer[k..] && t.client == s.client
  {
    var t := Do(u, s, ServerRecv(k));
    hide ScanPiece, Decide, PutLine, OK_LINE, FormatOk, Downstream, Upstream;
    NoTemp(u.Header(), t.leftover);
  }

  lemma HeaderStepUpstream(u: Upload, s: State, k: nat)
    requires Core(u, s) && Enabled(u, s, ServerRecv(k)) && s.server.Header? && HeaderPiece(u, s, k)
    requires Decide(PutLine(u.name, |u.body|), 0) == TakePut(u.name, |u.body|)
    ensures Upstream(u, Do(u, s, ServerRecv(k)))
  {
    var t, line := Do(u, s, ServerRecv(k)), s.server.line;
    HeaderPieceTaken(u, s, k);
    assert ClientRest(u, t) == ClientRest(u, s);
    hide ClientRest, Taken, Do, Enabled, HeaderPiece, ServerInv, Downstream, PutLine, Decide;
    Regroup(line, s.toServer, k, ClientRest(u, s));
  }

  lemma NoTemp(h: string, l: string)
    ensures h + "" + l == h + l
  {
    assert h + "" == h;
  }

  lemma HeaderStepServer(u: Upload, s: State, k: nat)
    requires Core(u, s) && Enabled(u, s, ServerRecv(k)) && s.server.Header? && HeaderPiece(u, s, k)
    requires Decide(PutLine(u.name, |u.body|), 0) == TakePut(u.name, |u.body|)
    ensures ServerInv(u, Do(u, s, ServerRecv(k)))
  {
    hide ScanPiece, Decide, PutLine, FormatOk, Upstream, Downstream, ClientRest;
  }

  lemma HeaderStepDownstream(u: Upload, s: State, k: nat)
    requires Core(u, s) && Enabled(u, s, ServerRecv(k)) && s.server.Header? && HeaderPiece(u, s, k)
    requires Decide(PutLine(u.name, |u.body|), 0) == TakePut(u.name, |u.body|)
    ensures Downstream(u, s) ==> Downstream(u, Do(u, s, ServerRecv(k)))
  {
    hide ScanPiece, Decide, PutLine, FormatOk, Upstream, ClientRest;
  }

  lemma ServerHeaderCore(u: Upload, s: State, k: nat)
    requires Legal(u) && Core(u, s) && Enabled(u, s, ServerRecv(k)) && s.server.Header?
    ensures Core(u, Do(u, s, ServerRecv(k)))
    ensures Downstream(u, s) ==> Downstream(u, Do(u, s, ServerRecv(k)))
  {
    HeaderArrives(u, s, k);
    LegalHeader(u);
    hide Upstream, ServerInv, Downstream, HeaderPiece, Decide, PutLine, Do, Enabled;
    HeaderStepUpstream(u, s, k);
    HeaderStepServer(u, s, k);
    HeaderStepDownstream(u, s, k);
  }

  lemma ServerFillCore(u: Upload, s: State, k: nat)
    requires Core(u, s) && Enabled(u, s, ServerRecv(k)) && s.server.Filling?
    ensures Core(u, Do(u, s, ServerRecv(k)))
    ensures Downstream(u, s) ==> Downstream(u, Do(u, s, ServerRecv(k)))
  {
    hide OK_LINE, FormatOk, PutLine;
    FillUpstream(u, s, k);
    hide Upstream;
  }

  lemma FillUpstream(u: Upload, s: State, k: nat)
    requires Core(u, s) && Enabled(u, s, ServerRecv(k)) && s.server.Filling?
    ensures Upstream(u, Do(u, s, ServerRecv(k)))
  {
    hide OK_LINE, FormatOk, PutLine;
    assert ClientRest(u, Do(u, s, ServerRecv(k))) == ClientRest(u, s);
    assert s.toServer == s.toServer[..k] + s.toServer[k..] && s.leftover == "";
    NoLeftover(u.Header() + s.temp, s.server.buf, s.toServer[..k], s.toServer[k..], ClientRest(u, s));
    hide ClientRest;
  }

  lemma NoLeftover(a: string, got: string, buf: string, later: string, rest: string)
    ensures a + got + "" + (buf + later) + rest == a + (got + buf) + "" + later + rest
  {
    assert a + got + "" == a + got && a + (got + buf) + "" == a + (got + buf);
    assert a + got + (buf + later) + rest == a + (got + buf) + later + rest;
  }

  /** No call of the server loses a byte of the stream or puts it off its track. */
  lemma ServerStepCore(u: Upload, s: State, e: Step)
    requires Legal(u) && Core(u, s) && Enabled(u, s, e) && (e.ServerSend? || e.ServerNext? || e.ServerRecv?)
    ensures Core(u, Do(u, s, e))
  {
    assert e.ServerRecv? ==> s.server.Header? || s.server.Filling?;
    hide Legal, Core, Enabled, Do;
    if e.ServerSend? {
      ServerSendCore(u, s, e.k);
    } else if e.ServerNext? {
      ServerNextCore(u, s);
    } else if s.server.Header? {
      ServerHeaderCore(u, s, e.k);
    } else {
      ServerFillCore(u, s, e.k);
    }
  }

  lemma ServerStepDownstream(u: Upload, s: State, e: Step)
    requires Legal(u) && Core(u, s) && Enabled(u, s, e) && (e.ServerSend? || e.ServerNext? || e.ServerRecv?)
    requires u.body != "" && Downstream(u, s)
    ensures Downstream(u, Do(u, s, e))
  {
    assert e.ServerRecv? ==> s.server.Header? || s.server.Filling?;
    hide Legal, Upstream, Downstream, Enabled, Do;
    if e.ServerSend? {
      ServerSendDownstream(u, s, e.k);
    } else if e.ServerNext? {
      NextKeepsDownstream(u, s);
    } else if s.server.Header? {
      ServerHeaderCore(u, s, e.k);
    } else {
      ServerFillCore(u, s, e.k);
    }
  }

  lemma ClientEofKeeps(u: Upload, s: State)
    requires Inv(u, s) && Enabled(u, s, ClientEof)
    ensures Inv(u, Do(u, s, ClientEof))
  {
    if u.body != "" {
      ClientEofImpossible(u, s);
    } else {
      hide OK_LINE, FormatOk, PutLine, Downstream;
      var t := Do(u, s, ClientEof);
      assert Taken(u, t) == Taken(u, s) && ClientRest(u, t) == ClientRest(u, s);
    }
  }

  lemma StepKeepsInv(u: Upload, s: State, e: Step)
    requires Legal(u) && Inv(u, s) && Enabled(u, s, e)
    ensures Inv(u, Do(u, s, e))
  {
    hide Legal, Core, Downstream, Enabled, Do;
    match e
    case ClientRecv(k) => ClientRecvKeeps(u, s, k);
    case ClientEof => ClientEofKeeps(u, s);
    case ClientSend(k) =>
      ClientSendCore(u, s, k);
      if u.body != "" {
        ClientTalkDownstream(u, s, e);
      }
    case ClientNext =>
      ClientNextCore(u, s);
      if u.body != "" {
        ClientTalkDownstream(u, s, e);
      }
    case _ =>
      ServerStepCore(u, s, e);
      if u.body != "" {
        ServerStepDownstream(u, s, e);
      }
  }

  lemma InitInv(u: Upload)
    ensures Inv(u, Init(u))
  {
    hide PutLine, FormatOk;
    var h := u.Header();
    assert "" + "" == "" && "" + (h + u.body) == h + u.body;
    assert "" + OK_LINE == OK_LINE;
  }

  // ------------------------------------------------------------------ runs

  predicate Runs(u: Upload, s: State, run: seq<Step>)
    decreases |run|
  {
    run == [] || (Enabled(u, s, run[0]) && Runs(u, Do(u, s, run[0]), run[1..]))
  }

  function End(u: Upload, s: State, run: seq<Step>): State
    requires Runs(u, s, run)
    decreases |run|
  {
    if run == [] then s else End(u, Do(u, s, run[0]), run[1..])
  }

  ghost predicate Stuck(u: Upload, s: State) {
    forall e :: !Enabled(u, s, e)
  }

  function ClientRank(s: State): nat {
    match s.client
    case Sending(_, First) => 4
    case Reading(_, First) => 3
    case Sending(_, Second) => 2
    case Reading(_, Second) => 1
    case Ended(_) => 0
  }

  function ServerRank(s: State): nat {
    match s.server
    case Header(_) => 5
    case Replying(_, GoOn) => 4
    case StartRound => 3
    case Piece(todo) => if todo == 0 && |s.temp| < s.size then 4 else 2
    case Filling(_, _, _) => 1
    case Replying(_, HangUp) => 1
    case Closed => 0
  }

  /** Bytes still to travel, twice while they are with their sender, and what is left of each side's program. */
  function Measure(u: Upload, s: State): nat {
    2 * |ClientRest(u, s)| + |s.toServer| + 2 * |FirstRest(s)| + 2 * |SecondRest(s)| + |s.toClient|
    + ClientRank(s) + 4 * (if |s.temp| <= |u.body| then |u.body| - |s.temp| else 0) + ServerRank(s)
  }

  lemma ClientSendMeasure(u: Upload, s: State, k: nat)
    requires Enabled(u, s, ClientSend(k))
    ensures Measure(u, Do(u, s, ClientSend(k))) < Measure(u, s)
  {
    hide ServerHeader, ServerInner, ClientAnswer, PutLine, FormatOk;
    assert |ClientRest(u, Do(u, s, ClientSend(k)))| == |ClientRest(u, s)| - k;
  }

  lemma ClientReadMeasure(u: Upload, s: State, e: Step)
    requires Enabled(u, s, e) && (e.ClientNext? || e.ClientRecv? || e.ClientEof?)
    ensures Measure(u, Do(u, s, e)) < Measure(u, s)
  {
    hide ServerHeader, ServerInner, PutLine, FormatOk, ScanPiece, ResponseOf;
    var t := Do(u, s, e);
    assert |ClientRest(u, t)| <= |ClientRest(u, s)| && ClientRank(t) <= ClientRank(s);
  }

  lemma ServerNextMeasure(u: Upload, s: State)
    requires Legal(u) && Inv(u, s) && Enabled(u, s, ServerNext)
    ensures Measure(u, Do(u, s, ServerNext)) < Measure(u, s)
  {
    hide FormatOk, PutLine, Upstream, Downstream, IsFilenameSafe;
    assert ClientRest(u, Do(u, s, ServerNext)) == ClientRest(u, s);
  }

  lemma ServerHeaderMeasure(u: Upload, s: State, k: nat)
    requires Core(u, s) && Enabled(u, s, ServerRecv(k)) && s.server.Header? && HeaderPiece(u, s, k)
    requires Decide(PutLine(u.name, |u.body|), 0) == TakePut(u.name, |u.body|)
    ensures Measure(u, Do(u, s, ServerRecv(k))) < Measure(u, s)
  {
    hide ScanPiece, Decide, FormatOk, PutLine, Upstream, Downstream, HeaderPiece;
    assert ClientRest(u, Do(u, s, ServerRecv(k))) == ClientRest(u, s);
    HeaderPieceLine(u, s, k);
  }

  lemma HeaderPieceLine(u: Upload, s: State, k: nat)
    requires Enabled(u, s, ServerRecv(k)) && s.server.Header? && HeaderPiece(u, s, k)
    ensures !ScanPiece(s.server.line, s.toServer[..k]).TooLong?
    ensures ScanPiece(s.server.line, s.toServer[..k]).Got? ==>
              ScanPiece(s.server.line, s.toServer[..k]).line == PutLine(u.name, |u.body|)
  {
    hide ScanPiece, PutLine;
  }

  lemma ServerIoMeasure(u: Upload, s: State, e: Step)
    requires Inv(u, s) && Enabled(u, s, e) && (e.ServerSend? || (e.ServerRecv? && s.server.Filling?))
    ensures Measure(u, Do(u, s, e)) < Measure(u, s)
  {
    hide ScanPiece, FormatOk, PutLine, Upstream, Downstream, ServerHeader;
    assert ClientRest(u, Do(u, s, e)) == ClientRest(u, s);
  }

  lemma StepMeasure(u: Upload, s: State, e: Step)
    requires Legal(u) && Inv(u, s) && Enabled(u, s, e)
    ensures Measure(u, Do(u, s, e)) < Measure(u, s)
  {
    assert e.ServerRecv? ==> s.server.Header? || s.server.Filling?;
    hide Legal, Inv, Enabled, Do, Measure, HeaderPiece, Decide, PutLine;
    if e.ServerNext? {
      ServerNextMeasure(u, s);
    } else if e.ServerRecv? && s.server.Header? {
      HeaderArrives(u, s, e.k);
      LegalHeader(u);
      ServerHeaderMeasure(u, s, e.k);
    } else if e.ServerSend? || e.ServerRecv? {
      ServerIoMeasure(u, s, e);
    } else if e.ClientSend? {
      ClientSendMeasure(u, s, e.k);
    } else {
      ClientReadMeasure(u, s, e);
    }
  }

  lemma {:induction false} RunKeepsInv(u: Upload, s: State, run: seq<Step>)
    requires Legal(u) && Inv(u, s) && Runs(u, s, run)
    ensures Inv(u, End(u, s, run))
    ensures |run| + Measure(u, End(u, s, run)) <= Measure(u, s)
    decreases |run|
  {
    hide Legal, Inv, Enabled, Do, Measure;
    if run != [] {
      StepKeepsInv(u, s, run[0]);
      StepMeasure(u, s, run[0]);
      RunKeepsInv(u, Do(u, s, run[0]), run[1..]);
    }
  }

  // ------------------------------------------------------------------ nobody waits for ever

  /** A server that is reading and finds nothing to read is waiting for a client that is not waiting. */
  lemma ServerWaits(u: Upload, s: State)
    requires Legal(u) && Inv(u, s) && s.toServer == ""
    requires s.server.Header? || (s.server.Filling? && |s.server.buf| < s.server.size)
    ensures ClientRest(u, s) != ""
    ensures s.client.Sending? || (s.client.Reading? && s.toClient != "")
  {
    if s.server.Header? {
      HeaderIncomplete(PutLine(u.name, |u.body|), u.body, s.server.line, ClientRest(u, s));
    }
    assert Taken(u, s) + "" + ClientRest(u, s) == u.Header() + u.body;
    OkLineShape();
    assert OK_LINE[4] == '\n';
    hide PutLine, FormatOk, OK_LINE;
  }

  lemma HeaderIncomplete(p: string, body: string, line: string, rest: string)
    requires '\n' !in line && line + "" + rest == p + "\n" + body
    ensures |rest| > |body|
  {
    assert forall i :: 0 <= i < |line| ==> (line + "" + rest)[i] == line[i] && line[i] != '\n';
    assert (p + "\n" + body)[|p|] == '\n';
  }

  /** The server's next call. */
  lemma ServerMoves(u: Upload, s: State) returns (e: Step)
    requires !s.server.Closed?
    requires s.server.Header? || (s.server.Filling? && |s.server.buf| < s.server.size) ==> s.toServer != ""
    ensures Enabled(u, s, e) && (e.ServerSend? || e.ServerNext? || e.ServerRecv?)
  {
    if s.server.Header? || (s.server.Filling? && |s.server.buf| < s.server.size) {
      return ServerRecv(1);
    }
    if s.server.Replying? && s.server.data != "" {
      return ServerSend(1);
    }
    return ServerNext;
  }

  /** An exchange comes to rest only when the client has ended and the server has hung up. */
  lemma StuckMeansOver(u: Upload, s: State)
    requires Legal(u) && Inv(u, s)
    ensures Stuck(u, s) <==> s.client.Ended? && s.server.Closed?
  {
    hide Legal, Inv;
    var waiting := s.server.Header? || (s.server.Filling? && |s.server.buf| < s.server.size);
    if s.client.Sending? {
      assert Enabled(u, s, if s.client.data == "" then ClientNext else ClientSend(1));
    } else if s.client.Reading? && s.toClient != "" {
      assert Enabled(u, s, ClientRecv(1));
    } else if s.client.Reading? && s.server.Closed? {
      assert Enabled(u, s, ClientEof);
    } else if !s.server.Closed? {
      if waiting && s.toServer == "" {
        ServerWaits(u, s);
      }
      var e := ServerMoves(u, s);
    }
  }

  // ------------------------------------------------------------------ the theorems

  ghost predicate WholeRun(u: Upload, run: seq<Step>) {
    Runs(u, Init(u), run) && Stuck(u, End(u, Init(u), run))
  }

  /** However the two sides' calls interleave and however short each comes back, an upload ends,
      within a fixed number of calls, with exactly the body installed and nothing left in between;
      and if the body is not empty the client reports success. */
  lemma UploadInstalls(u: Upload, run: seq<Step>)
    requires Legal(u) && WholeRun(u, run)
    ensures var s := End(u, Init(u), run);
            && s.installed == Some(u.body) && s.server.Closed? && s.toServer == ""
            && (u.body != "" ==> s.client == Ended(true) && s.toClient == "")
    ensures |run| <= Measure(u, Init(u))
  {
    var s := End(u, Init(u), run);
    InitInv(u);
    RunKeepsInv(u, Init(u), run);
    StuckMeansOver(u, s);
    InstallingMeansAllSent(u, s);
  }

  /** No exchange is ever cut off before that: every run can be continued to a whole one. */
  lemma {:induction false} Completes(u: Upload, s: State, run: seq<Step>) returns (more: seq<Step>)
    requires Legal(u) && Inv(u, s) && Runs(u, Init(u), run) && End(u, Init(u), run) == s
    ensures WholeRun(u, run + more)
    decreases Measure(u, s)
  {
    hide Legal, Inv, Enabled, Do, Measure;
    if Stuck(u, s) {
      assert run + [] == run;
      return [];
    }
    var e :| Enabled(u, s, e);
    StepKeepsInv(u, s, e);
    StepMeasure(u, s, e);
    RunsAppend(u, Init(u), run, [e]);
    var rest := Completes(u, Do(u, s, e), run + [e]);
    more := [e] + rest;
    assert run + more == run + [e] + rest;
  }

  lemma {:induction false} RunsAppend(u: Upload, s: State, a: seq<Step>, b: seq<Step>)
    requires Runs(u, s, a) && Runs(u, End(u, s, a), b)
    ensures Runs(u, s, a + b) && End(u, s, a + b) == End(u, End(u, s, a), b)
    decreases |a|
  {
    hide Enabled, Do;
    if a == [] {
      assert a + b == b;
    } else {
      RunsAppend(u, Do(u, s, a[0]), a[1..], b);
      assert (a + b)[1..] == a[1..] + b;
    }
  }

  lemma RunsThree(u: Upload, s: State, a: seq<Step>, b: seq<Step>, c: seq<Step>)
    requires Runs(u, s, a) && Runs(u, End(u, s, a), b) && Runs(u, End(u, End(u, s, a), b), c)
    ensures Runs(u, s, a + (b + c)) && End(u, s, a + (b + c)) == End(u, End(u, End(u, s, a), b), c)
  {
    RunsAppend(u, End(u, s, a), b, c);
    RunsAppend(u, s, a, b + c);
    hide Runs, End;
  }

  /** The server finishes while the client has not looked at its answers. */
  lemma {:induction false} ServerAlone(u: Upload, s: State) returns (run: seq<Step>)
    requires Legal(u) && Inv(u, s) && u.body == ""
    requires s.client == Reading("", First) && s.toClient + FirstRest(s) + SecondRest(s) == OK_LINE + OK_LINE
    ensures Runs(u, s, run)
    ensures var t := End(u, s, run);
            t.server.Closed? && t.client == Reading("", First) && t.toClient == OK_LINE + OK_LINE
    decreases Measure(u, s)
  {
    hide Legal, Inv, Measure, OK_LINE, FormatOk;
    if s.server.Closed? {
      assert s.toClient + "" + "" == s.toClient;
      return [];
    }
    if s.toServer == "" && (s.server.Header? || (s.server.Filling? && |s.server.buf| < s.server.size)) {
      ServerWaits(u, s);
    }
    var e := ServerMoves(u, s);
    StepKeepsInv(u, s, e);
    StepMeasure(u, s, e);
    ServerStepAnswers(u, s, e);
    var rest := ServerAlone(u, Do(u, s, e));
    run := [e] + rest;
  }

  lemma ServerStepAnswers(u: Upload, s: State, e: Step)
    requires Legal(u) && Inv(u, s) && Enabled(u, s, e) && (e.ServerSend? || e.ServerNext? || e.ServerRecv?)
    ensures SameAnswers(s, Do(u, s, e))
  {
    assert e.ServerRecv? ==> s.server.Header? || s.server.Filling?;
    hide Inv, Legal, HeaderPiece, PutLine, Decide, Do, Enabled, SameAnswers;
    if e.ServerSend? {
      ServerSendAnswers(u, s, e.k);
    } else if e.ServerRecv? && s.server.Header? {
      HeaderArrives(u, s, e.k);
      LegalHeader(u);
      HeaderAnswers(u, s, e.k);
    } else {
      ServerInnerAnswers(u, s, e);
    }
  }

  /** The server has said, or has still to say, the same as before. */
  predicate SameAnswers(s: State, t: State) {
    t.client == s.client && t.toClient + FirstRest(t) + SecondRest(t) == s.toClient + FirstRest(s) + SecondRest(s)
  }

  lemma ServerSendAnswers(u: Upload, s: State, k: nat)
    requires Enabled(u, s, ServerSend(k))
    ensures SameAnswers(s, Do(u, s, ServerSend(k)))
  {
    hide FormatOk, ServerHeader, ServerInner, ClientAnswer, ScanPiece;
    var later := if s.server.next.GoOn? then OK_LINE else "";
    Regroup(s.toClient, s.server.data, k, later);
    assert s.toClient + s.server.data[..k] + "" + s.server.data[k..] == s.toClient + "" + s.server.data;
  }

  lemma ServerInnerAnswers(u: Upload, s: State, e: Step)
    requires Enabled(u, s, e) && (e.ServerNext? || (e.ServerRecv? && s.server.Filling?))
    ensures SameAnswers(s, Do(u, s, e))
  {
    hide FormatOk, ServerHeader, ClientAnswer, ScanPiece, PutTake;
    assert s.toClient + "" + OK_LINE == s.toClient + OK_LINE;
  }

  lemma HeaderAnswers(u: Upload, s: State, k: nat)
    requires Enabled(u, s, ServerRecv(k)) && s.server.Header? && HeaderPiece(u, s, k)
    requires Decide(PutLine(u.name, |u.body|), 0) == TakePut(u.name, |u.body|)
    ensures SameAnswers(s, Do(u, s, ServerRecv(k)))
  {
    HeaderPieceLine(u, s, k);
    hide ScanPiece, Decide, FormatOk, PutLine, HeaderPiece;
  }

  /** What the client's line reader makes of both answers at once. */
  lemma ScanOfTwo()
    ensures var two := OK_LINE + OK_LINE;
            |two| == 10 && two[..10] == two && two[10..] == "" && ScanPiece("", two) == Got("OK 0", OK_LINE)
  {
    OkLineShape();
    var two := OK_LINE + OK_LINE;
    assert two == "OK 0" + ("\n" + OK_LINE);
    IndexOfAt("OK 0", "\n" + OK_LINE, '\n');
    hide OK_LINE, FormatOk, IndexOf;
    assert "" + two[..4] == "OK 0" && two[5..] == OK_LINE;
  }

  /** Two answers in one `recv`: the client keeps the first and drops the second. */
  lemma TwoAnswersAtOnce(u: Upload, s: State)
    requires u.body == "" && s.client == Reading("", First) && s.server.Closed? && s.toClient == OK_LINE + OK_LINE
    ensures Runs(u, s, [ClientRecv(10), ClientEof]) && End(u, s, [ClientRecv(10), ClientEof]).client == Ended(false)
  {
    OkLineShape();
    hide OK_LINE, FormatOk, ResponseOf, ScanPiece, Runs, End, ServerHeader, ServerInner;
    ScanOfTwo();
    TwoSteps(u, s, ClientRecv(10), ClientEof);
  }

  lemma TwoSteps(u: Upload, s: State, a: Step, b: Step)
    requires Enabled(u, s, a) && Enabled(u, Do(u, s, a), b)
    ensures Runs(u, s, [a, b]) && End(u, s, [a, b]) == Do(u, Do(u, s, a), b)
  {
    hide Enabled, Do;
    assert [a, b][1..] == [b] && [b][1..] == [];
    var t := Do(u, s, a);
    assert Runs(u, t, [b]) && End(u, t, [b]) == Do(u, t, b);
  }

  /** The client has sent its header and waits. */
  lemma Opens(u: Upload)
    requires u.body == ""
    ensures var open := [ClientSend(|u.Header()|), ClientNext];
            && Runs(u, Init(u), open)
            && var s := End(u, Init(u), open);
            s.client == Reading("", First) && s.toClient + FirstRest(s) + SecondRest(s) == OK_LINE + OK_LINE
  {
    var h := u.Header();
    hide PutLine, OK_LINE, FormatOk, Runs, End;
    assert h[|h|..] == "" && h[..|h|] == h;
    assert "" + OK_LINE + OK_LINE == OK_LINE + OK_LINE;
    TwoSteps(u, Init(u), ClientSend(|h|), ClientNext);
  }

  lemma OverMeansWhole(u: Upload, run: seq<Step>)
    requires Legal(u) && Runs(u, Init(u), run)
    requires End(u, Init(u), run).client.Ended? && End(u, Init(u), run).server.Closed?
    ensures WholeRun(u, run) && End(u, Init(u), run).installed == Some(u.body)
  {
    InitInv(u);
    RunKeepsInv(u, Init(u), run);
    hide Legal, Inv, Runs, Init;
    StuckMeansOver(u, End(u, Init(u), run));
    UploadInstalls(u, run);
  }

  /** An empty upload need not be reported as a success, although the server installs it: the server
      answers twice without waiting for anything in between. */
  lemma EmptyUploadMayFail(u: Upload) returns (run: seq<Step>)
    requires Legal(u) && u.body == ""
    ensures WholeRun(u, run)
    ensures End(u, Init(u), run).client == Ended(false) && End(u, Init(u), run).installed == Some("")
  {
    var s0, open := Init(u), [ClientSend(|u.Header()|), ClientNext];
    InitInv(u);
    Opens(u);
    hide Legal, Inv, OK_LINE, FormatOk, PutLine, Do, Enabled, Runs, End, Init;
    var s1 := End(u, s0, open);
    RunKeepsInv(u, s0, open);
    var serve := ServerAlone(u, s1);
    var finish := [ClientRecv(10), ClientEof];
    TwoAnswersAtOnce(u, End(u, s1, serve));
    hide ServerHeader, ServerInner, ClientAnswer, FirstRest, SecondRest, Measure;
    run := open + (serve + finish);
    RunsThree(u, s0, open, serve, finish);
    OverMeansWhole(u, run);
  }

  /** The client is sure to be told of its success exactly when the body is not empty. */
  lemma SuccessReportedExactlyWhenNotEmpty(u: Upload)
    requires Legal(u)
    ensures (forall run :: WholeRun(u, run) ==> End(u, Init(u), run).client == Ended(true)) <==> |u.body| > 0
  {
    hide Legal, Runs, Stuck, End;
    if u.body == "" {
      var run := EmptyUploadMayFail(u);
    } else {
      forall run | WholeRun(u, run) ensures End(u, Init(u), run).client == Ended(true) {
        UploadInstalls(u, run);
      }
    }
  }
}
