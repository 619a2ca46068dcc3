/** An upload in which any call may fail: the two sides of `Exchange`, with a step for the failure of
    each call of the server and of the client, the error line the server then sends, and the row it
    logs. What a reported success, a logged row and a failure mean for the installed file. */
module Faults {
  import opened Bytes
  import opened Protocol
  import opened Net
  import opened Rounds
  import opened Admission
  import opened Slice
  import opened Exchange

  /** The calls of the server that can fail. */
  datatype Call = HeaderRead | TempOpen | FirstOk | BodyRead | TempWrite | Rename | LastOk

  datatype Outcome = Unfinished | Logged | FailedAt(call: Call)

  /** `s` is the exchange up to the first failure of either side: a side that has failed takes no more
      steps in it. `gaveUp` is a client that has reported a failure; `errors` is what a failed server
      has still to send. */
  datatype Faulty = Faulty(s: State, gaveUp: bool, outcome: Outcome, errors: string)

  datatype Move =
    | Works(e: Step)
    | ClientFails                         // any call of the client fails, or it reads a bad answer
    | ClientSeesEnd                       // the server has hung up before the answer was complete
    | ServerFails(call: Call, how: RecvResult)
    | SendError(k: nat)
    | DropError                           // sending the error line fails

  function Begin(u: Upload): Faulty {
    Faulty(Init(u), false, Unfinished, "")
  }

  predicate ClientStep(e: Step) {
    e.ClientSend? || e.ClientNext? || e.ClientRecv?
  }

  predicate ServerStep(e: Step) {
    e.ServerSend? || e.ServerNext? || e.ServerRecv?
  }

  /** The server is about to make that call. */
  predicate At(s: State, call: Call) {
    match call
    case HeaderRead => s.server.Header?
    case TempOpen => s.server == Replying(FormatOk(0), GoOn)
    case FirstOk => s.server.Replying? && s.server.next.GoOn? && s.server.data != ""
    case BodyRead => s.server.Filling? && |s.server.buf| < s.server.size
    case TempWrite => s.server.Filling? && |s.server.buf| >= s.server.size
    case Rename => s.server.Piece? && s.server.todo == 0 && |s.temp| >= s.size
    case LastOk => s.server.Replying? && s.server.next.HangUp? && s.server.data != ""
  }

  /** What the server sends when that call has failed. */
  function Complaint(call: Call, how: RecvResult): string
    requires !how.Received?
  {
    match call
    case HeaderRead => FormatErr(NoHeader(how))
    case BodyRead => FormatErr(SHORT_BODY)
    case TempOpen => FormatErr(CANNOT_WRITE)
    case TempWrite => FormatErr(CANNOT_WRITE)
    case Rename => FormatErr(CANNOT_WRITE)
    case FirstOk => ""
    case LastOk => ""
  }

  /** A `recv` that does not leave the client waiting for more, nor going on. */
  predicate BadAnswer(u: Upload, s: State, e: Step) {
    e.ClientRecv? && Exchange.Enabled(u, s, e) && Exchange.Do(u, s, e).client == Ended(false)
  }

  predicate Enabled(u: Upload, f: Faulty, m: Move) {
    match m
    case Works(e) =>
      && Exchange.Enabled(u, f.s, e)
      && ((ClientStep(e) && !f.gaveUp && !BadAnswer(u, f.s, e)) || (ServerStep(e) && !f.outcome.FailedAt?))
    case ClientFails => !f.gaveUp && !f.s.client.Ended?
    case ClientSeesEnd =>
      && !f.gaveUp && f.s.client.Reading? && f.s.toClient == ""
      && (f.s.server.Closed? || (f.outcome.FailedAt? && f.errors == ""))
    case ServerFails(call, how) => f.outcome.Unfinished? && At(f.s, call) && !how.Received?
    case SendError(k) => f.outcome.FailedAt? && 1 <= k <= |f.errors|
    case DropError => f.outcome.FailedAt?
  }

  /** A PUT is logged when the send of its last `OK` has succeeded. */
  predicate Finishes(s: State, e: Step) {
    e.ServerNext? && s.server == Replying("", HangUp)
  }

  function Do(u: Upload, f: Faulty, m: Move): Faulty
    requires Enabled(u, f, m)
  {
    match m
    case Works(e) =>
      f.(s := Exchange.Do(u, f.s, e), outcome := if Finishes(f.s, e) then Logged else f.outcome)
    case ClientFails => f.(gaveUp := true)
    case ClientSeesEnd => f.(gaveUp := true)
    case ServerFails(call, how) => f.(outcome := FailedAt(call), errors := Complaint(call, how))
    case SendError(k) => f.(s := f.s.(toClient := f.s.toClient + f.errors[..k]), errors := f.errors[k..])
    case DropError => f.(errors := "")
  }

  /** The client has reported a success. */
  predicate Reported(f: Faulty) {
    !f.gaveUp && f.s.client == Ended(true)
  }

  // ------------------------------------------------------------------ the letter K

  /** Of all lines the server can send, only the `OK` lines have a `K`. */
  predicate NoK(z: string) {
    'K' !in z
  }

  /** Every `K` comes before the first newline. */
  predicate EarlyK(z: string) {
    forall i :: 0 <= i < |z| && z[i] == 'K' ==> '\n' !in z[..i]
  }

  lemma WordsHaveNoK()
    ensures NoK(SHORT_BODY) && NoK(CANNOT_WRITE) && NoK("ERR ")
  {
  }

  lemma NoHeaderHasNoK(how: RecvResult)
    requires !how.Received?
    ensures NoK(NoHeader(how))
  {
  }

  lemma ErrHasNoK(reason: string)
    requires NoK(reason)
    ensures NoK(FormatErr(reason))
  {
    WordsHaveNoK();
  }

  lemma ComplaintHasNoK(call: Call, how: RecvResult)
    requires !how.Received?
    ensures NoK(Complaint(call, how))
  {
    WordsHaveNoK();
    NoHeaderHasNoK(how);
    ErrHasNoK(NoHeader(how));
    ErrHasNoK(SHORT_BODY);
    ErrHasNoK(CANNOT_WRITE);
    hide FormatErr, NoHeader, SHORT_BODY, CANNOT_WRITE;
  }

  /** A line without a `K` is not an `OK` line. */
  lemma OkHasK(line: string)
    requires NoK(line)
    ensures !ResponseOf(line).Ok?
  {
    var b, e := TokensStep(line, 0);
    hide Tokens, U64Of;
    assert b < |line| ==> forall i :: b <= i < e ==> line[i] == line[b..e][i - b];
    assert "OK"[1] == 'K';
  }

  lemma EarlyThenNone(a: string, b: string)
    requires EarlyK(a + b) && '\n' in a
    ensures NoK(b)
  {
    forall i | 0 <= i < |b|
      ensures b[i] != 'K'
    {
      var z := a + b;
      var j :| 0 <= j < |a| && a[j] == '\n';
      assert z[|a| + i] == b[i] && z[..|a| + i][j] == '\n';
    }
  }

  lemma OkLineIsEarly(e: string)
    requires NoK(e)
    ensures EarlyK(OK_LINE + e) && EarlyK(OK_LINE)
  {
    OkLineShape();
    var z := OK_LINE + e;
    assert |OK_LINE| == 5 && OK_LINE[1] == 'K' && forall i :: 0 <= i < 5 && i != 1 ==> OK_LINE[i] != 'K';
    assert forall i :: 5 <= i < |z| ==> z[i] == e[i - 5];
    assert z[..1] == "O" && OK_LINE[..1] == "O";
  }

  lemma EarlyPrefix(a: string, b: string)
    requires EarlyK(a + b)
    ensures EarlyK(a)
  {
    forall i | 0 <= i < |a| && a[i] == 'K'
      ensures '\n' !in a[..i]
    {
      assert (a + b)[i] == 'K' && (a + b)[..i] == a[..i];
    }
  }

  // ------------------------------------------------------------------ what a failed PUT has told

  /** Which failure of a round is the failure of which call here. */
  function CallOf(fault: PutFault): Call
    requires !fault.NoFault?
  {
    match fault
    case OpenFault => TempOpen
    case FirstOkFault => FirstOk
    case ReadFault => BodyRead
    case WriteFault => TempWrite
    case RenameFault => Rename
    case LastOkFault => LastOk
  }

  /** On a connection that works a failed round has sent what `ServerFails` leaves to be sent. */
  lemma FailedRoundComplains(fault: PutFault, w: string, owed: string, w': string, how: RecvResult)
    requires Failed(fault, w, owed, true, w') && !how.Received? && !fault.FirstOkFault? && !fault.LastOkFault?
    ensures w' == w + (if fault.OpenFault? then "" else owed) + Complaint(CallOf(fault), how)
  {
    hide FormatErr, SHORT_BODY, CANNOT_WRITE;
    assert w + "" == w;
  }

  /** A prefix of an `OK` line short of its newline, behind a whole one. */
  lemma OnlyNewline(z: string, a: string, b: string)
    requires OK_LINE <= z < OK_LINE + OK_LINE && z == a + b && '\n' in a
    ensures '\n' !in b
  {
    OkLineShape();
    hide OK_LINE;
    assert OK_LINE + OK_LINE == "OK 0\nOK 0\n";
    var j :| 0 <= j < |a| && a[j] == '\n';
    assert z[j] == '\n' && j == 4;
    forall i | 0 <= i < |b|
      ensures b[i] != '\n'
    {
      assert b[i] == z[|a| + i];
    }
  }

  lemma EarlyOrShort(fault: PutFault, reliable: bool, z: string)
    requires Failed(fault, "", OK_LINE, reliable, z)
    ensures fault.LastOkFault? ==> OK_LINE <= z < OK_LINE + OK_LINE
    ensures !fault.LastOkFault? ==> EarlyK(z)
  {
    WordsHaveNoK();
    ErrHasNoK(SHORT_BODY);
    ErrHasNoK(CANNOT_WRITE);
    var e := if fault.ReadFault? then FormatErr(SHORT_BODY) else FormatErr(CANNOT_WRITE);
    OkLineIsEarly(e);
    hide FormatErr, OK_LINE, EarlyK, NoK, SHORT_BODY, CANNOT_WRITE;
    assert "" + OK_LINE == OK_LINE && "" + e == e;
    if fault.OpenFault? {
      NoKPrefix(z, e);
      NoKIsEarly(z);
    } else if fault.FirstOkFault? {
      EarlyPrefix(z, OK_LINE[|z|..]);
    } else if !fault.LastOkFault? {
      EarlyPrefix(z, (OK_LINE + e)[|z|..]);
    }
  }

  lemma NoKIsEarly(z: string)
    requires NoK(z)
    ensures EarlyK(z)
  {
  }

  /** Whatever call of a PUT failed and however the wire is cut up: nobody who reads it finds a second
      `OK` line. */
  lemma FailureGivesNoSecondOk(fault: PutFault, reliable: bool, wire: string,
                               first: seq<string>, second: seq<string>, rest: string)
    requires Failed(fault, "", FormatOk(0), reliable, wire)
    requires Pieces(first) && Pieces(second) && Concat(first) + (Concat(second) + rest) == wire
    ensures !(Feed(first).Got? && Feed(second).Got? && ResponseOf(Feed(second).line).Ok?)
  {
    hide Pieces, Feed, ResponseOf, Failed, EarlyK, NoK;
    assert FormatOk(0) == OK_LINE;
    hide OK_LINE, FormatOk;
    if Feed(first).Got? && Feed(second).Got? {
      EarlyOrShort(fault, reliable, wire);
      FeedMeaning(first);
      FeedMeaning(second);
      var a, b, l := Concat(first), Concat(second) + rest, Feed(second).line;
      var leftover := Feed(second).leftover;
      assert (Feed(first).line + "\n" + Feed(first).leftover)[|Feed(first).line|] == '\n';
      assert (l + "\n" + leftover)[|l|] == '\n' && b[|l|] == '\n';
      if fault.LastOkFault? {
        OnlyNewline(wire, a, b);
      } else {
        EarlyThenNone(a, b);
        assert l <= b;
        NoKPrefix(l, b);
        OkHasK(l);
      }
    }
  }

  // ------------------------------------------------------------------ the invariant

  /** What the client has of the line it is reading. */
  function LineOf(c: ClientState): string {
    if c.Reading? then c.line else ""
  }

  /** What the client has read and has still to read of a server that has not installed the body: of
      the first answer no more than its `OK` line and an error line behind it, of the second nothing
      but an error line. */
  predicate Told(f: Faulty) {
    var z := LineOf(f.s.client) + f.s.toClient;
    match f.s.client
    case Ended(_) => false
    case _ =>
      && '\n' !in LineOf(f.s.client)
      && if f.s.client.turn.First? then
           if f.outcome.FailedAt? then EarlyK(z + f.errors) else z + FirstRest(f.s) == OK_LINE
         else
         if f.outcome.FailedAt? then NoK(z + f.errors) else z == "" && FirstRest(f.s) == ""
  }

  /** What the outcome says about the server. */
  predicate Fate(f: Faulty) {
    && (f.outcome.FailedAt? ==> (f.s.installed.Some? <==> f.outcome.call.LastOk?) && !f.s.server.Closed?)
    && (!f.outcome.FailedAt? ==> (f.outcome.Logged? <==> f.s.server.Closed?))
  }

  predicate FInv(u: Upload, f: Faulty) {
    && Core(u, f.s) && Fate(f)
    && (!f.gaveUp && f.s.installed.None? ==> Told(f))
    && f.s.client != Ended(false)
  }

  lemma BeginInv(u: Upload)
    ensures FInv(u, Begin(u))
  {
    InitInv(u);
    hide Core, FormatOk, PutLine;
    assert "" + "" + OK_LINE == OK_LINE;
  }

  // ------------------------------------------------------------------ the client's moves

  lemma GoodAnswer(u: Upload, s: State, k: nat)
    requires Exchange.Enabled(u, s, ClientRecv(k)) && !BadAnswer(u, s, ClientRecv(k))
    ensures match ScanPiece(s.client.line, s.toClient[..k])
            case More(_) => true
            case Got(l, _) => ResponseOf(l).Ok?
            case TooLong => false
  {
    hide ScanPiece, ResponseOf;
  }

  lemma ClientCore(u: Upload, s: State, e: Step)
    requires Core(u, s) && Exchange.Enabled(u, s, e) && ClientStep(e) && !BadAnswer(u, s, e)
    ensures Core(u, Exchange.Do(u, s, e))
  {
    match e
    case ClientSend(k) => ClientSendCore(u, s, k);
    case ClientNext => ClientNextCore(u, s);
    case ClientRecv(k) =>
      GoodAnswer(u, s, k);
      ClientRecvCore(u, s, k);
  }

  /** One received piece is more of the line, or ends it. */
  lemma PieceRead(line: string, buf: string)
    requires '\n' !in line
    ensures match ScanPiece(line, buf)
            case More(l) => l == line + buf && '\n' !in l
            case Got(l, _) => '\n' in buf && l <= line + buf
            case TooLong => true
  {
    IndexOfFirst(buf, '\n');
    var nl := IndexOf(buf, '\n');
    if nl < |buf| {
      assert line + buf == line + buf[..nl] + buf[nl..];
      assert buf[nl] == '\n';
    } else {
      assert buf[..nl] == buf;
    }
  }

  lemma NoKPrefix(a: string, b: string)
    requires NoK(b) && a <= b
    ensures NoK(a)
  {
  }

  /** The client hears a server that has not failed. */
  lemma HearsOk(u: Upload, f: Faulty, k: nat)
    requires FInv(u, f) && Enabled(u, f, Works(ClientRecv(k))) && f.s.installed.None? && !f.outcome.FailedAt?
    ensures Told(Do(u, f, Works(ClientRecv(k))))
  {
    var line, buf, later, rest := f.s.client.line, f.s.toClient[..k], f.s.toClient[k..], FirstRest(f.s);
    hide Core, Fate, ScanPiece, ResponseOf, OK_LINE, FormatOk, Exchange.Do, FirstRest;
    GoodAnswer(u, f.s, k);
    OkLineShape();
    Regroup(line, f.s.toClient, k, rest);
    NothingBehind(later);
    if f.s.client.turn.First? {
      ReadsOkLine(line, buf, later + rest);
      EmptyParts(later, rest);
    }
    ClientGoesOn(u, f.s, k);
    FirstRestOfServer(f.s, Exchange.Do(u, f.s, ClientRecv(k)));
  }

  lemma FirstRestOfServer(s: State, t: State)
    requires s.server == t.server
    ensures FirstRest(s) == FirstRest(t)
  {
  }

  lemma PieceInStream(line: string, x: string, k: nat, e: string)
    requires k <= |x|
    ensures line + x + e == line + x[..k] + (x[k..] + e)
    ensures line + x[..k] + x[k..] + e == line + x + e
    ensures "" + x[k..] + e == x[k..] + e
  {
    assert x == x[..k] + x[k..];
  }

  /** A failed server in the first answer: at most an error line is left behind the `OK` line. */
  lemma FirstHeard(line: string, x: string, k: nat, e: string)
    requires EarlyK(line + x + e) && '\n' !in line && k <= |x|
    ensures match ScanPiece(line, x[..k])
            case More(l) => '\n' !in l && EarlyK(l + x[k..] + e)
            case Got(_, _) => NoK("" + x[k..] + e)
            case TooLong => true
  {
    PieceRead(line, x[..k]);
    PieceInStream(line, x, k, e);
    hide ScanPiece, EarlyK, NoK;
    if ScanPiece(line, x[..k]).Got? {
      EarlyThenNone(line + x[..k], x[k..] + e);
    }
  }

  /** A failed server in the second answer: what comes is no `OK` line. */
  lemma SecondHeard(line: string, x: string, k: nat, e: string)
    requires NoK(line + x + e) && '\n' !in line && k <= |x|
    ensures match ScanPiece(line, x[..k])
            case More(l) => '\n' !in l && NoK(l + x[k..] + e)
            case Got(l, _) => !ResponseOf(l).Ok?
            case TooLong => true
  {
    PieceRead(line, x[..k]);
    PieceInStream(line, x, k, e);
    var scan := ScanPiece(line, x[..k]);
    hide ScanPiece, NoK, ResponseOf;
    if scan.Got? {
      IsPrefixOf(scan.line, line + x[..k], x[k..] + e);
      NoKPrefix(scan.line, line + x + e);
      OkHasK(scan.line);
    }
  }

  lemma IsPrefixOf(a: string, b: string, c: string)
    requires a <= b
    ensures a <= b + c
  {
  }

  /** The client hears a server that has failed: it does not take what it hears for a second `OK`. */
  lemma HearsFailure(u: Upload, f: Faulty, k: nat)
    requires FInv(u, f) && Enabled(u, f, Works(ClientRecv(k))) && f.s.installed.None? && f.outcome.FailedAt?
    ensures Told(Do(u, f, Works(ClientRecv(k))))
  {
    var line, x, e := f.s.client.line, f.s.toClient, f.errors;
    GoodAnswer(u, f.s, k);
    hide Core, Fate, ScanPiece, ResponseOf, EarlyK, NoK, FirstRest;
    if f.s.client.turn.First? {
      FirstHeard(line, x, k, e);
    } else {
      SecondHeard(line, x, k, e);
    }
  }

  lemma ClientWorks(u: Upload, f: Faulty, e: Step)
    requires FInv(u, f) && Enabled(u, f, Works(e)) && ClientStep(e)
    ensures FInv(u, Do(u, f, Works(e)))
  {
    var g := Do(u, f, Works(e));
    ClientCore(u, f.s, e);
    if f.s.installed.None? && !f.gaveUp {
      if e.ClientRecv? {
        if f.outcome.FailedAt? {
          HearsFailure(u, f, e.k);
        } else {
          HearsOk(u, f, e.k);
        }
      }
    }
    hide Core, ScanPiece, ResponseOf, OK_LINE, FormatOk, EarlyK, NoK;
  }

  // ------------------------------------------------------------------ the server's moves

  lemma ServerFate(u: Upload, f: Faulty, e: Step)
    requires FInv(u, f) && Enabled(u, f, Works(e)) && ServerStep(e)
    requires Core(u, Do(u, f, Works(e)).s)
    ensures Fate(Do(u, f, Works(e)))
    ensures Do(u, f, Works(e)).s.installed.None? ==> f.s.installed.None?
  {
    hide Upstream, ScanPiece, Decide, FormatOk, PutTake, Told;
  }

  lemma SendTold(u: Upload, f: Faulty, k: nat)
    requires Fate(f) && Told(f) && Enabled(u, f, Works(ServerSend(k)))
    requires f.s.server.next.GoOn?
    ensures Told(Do(u, f, Works(ServerSend(k))))
  {
    hide FormatOk, OK_LINE;
    MoveOver(LineOf(f.s.client), f.s.toClient, f.s.server.data, k);
  }

  lemma FirstRestKept(u: Upload, s: State, e: Step)
    requires Legal(u) && Core(u, s) && Exchange.Enabled(u, s, e) && (e.ServerNext? || e.ServerRecv?)
    requires Core(u, Exchange.Do(u, s, e)) && Exchange.Do(u, s, e).installed.None?
    ensures var t := Exchange.Do(u, s, e);
            FirstRest(t) == FirstRest(s) && t.toClient == s.toClient && t.client == s.client
  {
    hide Upstream, ScanPiece, Decide, FormatOk, PutLine, PutTake, HeaderPiece, Legal;
    if e.ServerRecv? && s.server.Header? {
      HeaderArrives(u, s, e.k);
      LegalHeader(u);
      HeaderPieceLine(u, s, e.k);
    }
  }

  lemma ServerTold(u: Upload, f: Faulty, e: Step)
    requires Legal(u) && FInv(u, f) && Enabled(u, f, Works(e)) && ServerStep(e) && Told(f)
    requires f.s.installed.None? && Do(u, f, Works(e)).s.installed.None?
    requires Core(u, Do(u, f, Works(e)).s)
    ensures Told(Do(u, f, Works(e)))
  {
    if e.ServerSend? {
      assert Installing(f.s) <==> f.s.installed.Some?;
      hide Told, Upstream, Do, Legal;
      SendTold(u, f, e.k);
    } else {
      FirstRestKept(u, f.s, e);
      hide Core, Fate, Exchange.Do, FirstRest, Legal, OK_LINE, NoK, EarlyK;
    }
  }

  lemma ServerWorks(u: Upload, f: Faulty, e: Step)
    requires Legal(u) && FInv(u, f) && Enabled(u, f, Works(e)) && ServerStep(e)
    ensures FInv(u, Do(u, f, Works(e)))
  {
    hide Core, Told, Fate, Exchange.Do, Exchange.Enabled, Legal;
    ServerStepCore(u, f.s, e);
    ServerFate(u, f, e);
    ServerLeavesClient(u, f.s, e);
    if !f.gaveUp && Do(u, f, Works(e)).s.installed.None? {
      ServerTold(u, f, e);
    }
  }

  lemma ServerLeavesClient(u: Upload, s: State, e: Step)
    requires Exchange.Enabled(u, s, e) && ServerStep(e)
    ensures Exchange.Do(u, s, e).client == s.client
  {
    hide ScanPiece, Decide, FormatOk, PutTake;
  }

  // ------------------------------------------------------------------ failures

  /** Where the server fails, what the client has of the first answer decides what may follow it. */
  lemma FailureLine(u: Upload, s: State, call: Call, z: string, e: string)
    requires At(s, call) && !call.LastOk? && z + FirstRest(s) == OK_LINE && NoK(e) && (call.FirstOk? ==> e == "")
    ensures EarlyK(z + e)
  {
    OkLineIsEarly(e);
    OkLineShape();
    assert |OK_LINE| == 5 && |z| + |FirstRest(s)| == 5;
    NothingBehind(z);
    NothingBehind(e);
    if call.FirstOk? {
      hide EarlyK, FormatOk, OK_LINE;
      EarlyPrefix(z, FirstRest(s));
    } else if call.HeaderRead? || call.TempOpen? {
      assert |z| == 0;
    }
  }

  lemma FailureTold(u: Upload, f: Faulty, call: Call, how: RecvResult)
    requires FInv(u, f) && Enabled(u, f, ServerFails(call, how)) && f.s.installed.None? && Told(f)
    ensures Told(Do(u, f, ServerFails(call, how)))
  {
    var z, e := LineOf(f.s.client) + f.s.toClient, Complaint(call, how);
    ComplaintHasNoK(call, how);
    assert Installing(f.s) <==> f.s.installed.Some?;
    assert call.FirstOk? ==> e == "";
    hide Core, Fate, Complaint, EarlyK, OK_LINE, FormatOk;
    NothingBehind(e);
    if f.s.client.turn.First? {
      FailureLine(u, f.s, call, z, e);
    }
  }

  lemma ServerFailsKeeps(u: Upload, f: Faulty, call: Call, how: RecvResult)
    requires FInv(u, f) && Enabled(u, f, ServerFails(call, how))
    ensures FInv(u, Do(u, f, ServerFails(call, how)))
  {
    if f.s.installed.None? && !f.gaveUp {
      FailureTold(u, f, call, how);
    }
    hide Upstream, Told, Complaint, FormatOk;
  }

  lemma ErrorLineKeeps(u: Upload, f: Faulty, m: Move)
    requires FInv(u, f) && Enabled(u, f, m) && (m.SendError? || m.DropError?)
    ensures FInv(u, Do(u, f, m))
  {
    var g, line := Do(u, f, m), LineOf(f.s.client);
    assert Core(u, g.s) by {
      hide PutLine, FormatOk, Told;
      assert Taken(u, g.s) == Taken(u, f.s) && ClientRest(u, g.s) == ClientRest(u, f.s);
    }
    hide Core, OK_LINE, FormatOk;
    if m.SendError? {
      hide EarlyK, NoK;
      MoveOver(line, f.s.toClient, f.errors, m.k);
    } else if !f.gaveUp && f.s.installed.None? {
      var z := line + f.s.toClient;
      assert z + "" == z;
      if f.s.client.turn.First? {
        EarlyPrefix(z, f.errors);
      } else {
        NoKPrefix(z, z + f.errors);
      }
    }
  }

  lemma MoveKeepsInv(u: Upload, f: Faulty, m: Move)
    requires Legal(u) && FInv(u, f) && Enabled(u, f, m)
    ensures FInv(u, Do(u, f, m))
  {
    match m
    case Works(e) =>
      hide FInv, Legal, Do;
        if ClientStep(e) {
          ClientWorks(u, f, e);
        } else {
          ServerWorks(u, f, e);
        }
    case ServerFails(call, how) =>
      hide *;
      ServerFailsKeeps(u, f, call, how);
    case ClientFails =>
      hide Core, Told;
    case ClientSeesEnd =>
      hide Core, Told;
    case SendError(_) =>
      hide FInv, Do, Enabled;
        ErrorLineKeeps(u, f, m);
    case DropError =>
      hide FInv, Do, Enabled;
        ErrorLineKeeps(u, f, m);
  }

  // ------------------------------------------------------------------ runs

  predicate Runs(u: Upload, f: Faulty, run: seq<Move>)
    decreases |run|
  {
    run == [] || (Enabled(u, f, run[0]) && Runs(u, Do(u, f, run[0]), run[1..]))
  }

  function End(u: Upload, f: Faulty, run: seq<Move>): Faulty
    requires Runs(u, f, run)
    decreases |run|
  {
    if run == [] then f else End(u, Do(u, f, run[0]), run[1..])
  }

  lemma {:induction false} RunKeepsInv(u: Upload, f: Faulty, run: seq<Move>)
    requires Legal(u) && FInv(u, f) && Runs(u, f, run)
    ensures FInv(u, End(u, f, run))
    decreases |run|
  {
    hide Legal, FInv, Enabled, Do;
    if run != [] {
      MoveKeepsInv(u, f, run[0]);
      RunKeepsInv(u, Do(u, f, run[0]), run[1..]);
    }
  }

  // ------------------------------------------------------------------ the theorems

  /** Whatever call of either side fails and whenever: a client that reports a success has its whole
      body installed. */
  lemma SuccessMeansInstalled(u: Upload, run: seq<Move>)
    requires Legal(u) && Runs(u, Begin(u), run) && Reported(End(u, Begin(u), run))
    ensures End(u, Begin(u), run).s.installed == Some(u.body)
  {
    BeginInv(u);
    RunKeepsInv(u, Begin(u), run);
    hide Upstream, Legal, Runs, End;
  }

  /** A logged PUT is installed. A failed PUT is installed if and only if the call that failed is the
      send of the last `OK`, which the server makes only after the rename has succeeded. */
  lemma InstalledExactlyWhen(u: Upload, run: seq<Move>)
    requires Legal(u) && Runs(u, Begin(u), run)
    ensures var f := End(u, Begin(u), run);
            && (f.s.installed.Some? ==> f.s.installed.value == u.body)
            && (f.outcome.Logged? ==> f.s.installed.Some?)
            && (f.outcome.FailedAt? ==> (f.s.installed.Some? <==> f.outcome.call.LastOk?))
  {
    BeginInv(u);
    RunKeepsInv(u, Begin(u), run);
    hide Upstream, Legal, Runs, End, Told;
  }

  /** A client that has not heard of the installation is not misled by what it hears. */
  lemma HearsWell(u: Upload, f: Faulty, k: nat)
    requires Told(f) && !f.outcome.FailedAt? && Exchange.Enabled(u, f.s, ClientRecv(k))
    ensures !BadAnswer(u, f.s, ClientRecv(k))
  {
    var line, buf, later, rest := f.s.client.line, f.s.toClient[..k], f.s.toClient[k..], FirstRest(f.s);
    OkLineShape();
    hide ScanPiece, ResponseOf, OK_LINE, FormatOk;
    Regroup(line, f.s.toClient, k, rest);
    if f.s.client.turn.First? {
      ReadsOkLine(line, buf, later + rest);
    }
  }

  /** Before the body is installed somebody can make a call that works. */
  lemma SomebodyWorks(u: Upload, f: Faulty) returns (e: Step)
    requires Legal(u) && FInv(u, f) && Inv(u, f.s) && f.outcome.Unfinished? && !f.gaveUp && !Installing(f.s)
    ensures Enabled(u, f, Works(e))
  {
    var waiting := f.s.server.Header? || (f.s.server.Filling? && |f.s.server.buf| < f.s.server.size);
    if waiting && f.s.toServer == "" {
      ServerWaits(u, f.s);
      hide Inv, Core, Legal, Told;
      if f.s.client.Reading? {
        HearsWell(u, f, 1);
        e := ClientRecv(1);
      } else {
        e := if f.s.client.data == "" then ClientNext else ClientSend(1);
      }
    } else {
      e := ServerMoves(u, f.s);
    }
  }

  lemma EntersInstalling(u: Upload, s: State, e: Step)
    requires Core(u, s) && Exchange.Enabled(u, s, e) && !Installing(s)
    requires Installing(Exchange.Do(u, s, e)) && Core(u, Exchange.Do(u, s, e))
    ensures Exchange.Do(u, s, e).server == Replying(FormatOk(0), HangUp)
  {
    hide Upstream, FormatOk, ScanPiece, PutTake, Decide;
  }

  lemma {:induction false} ReachesInstall(u: Upload, f: Faulty) returns (run: seq<Move>)
    requires Legal(u) && FInv(u, f) && Inv(u, f.s) && f.outcome.Unfinished? && !f.gaveUp && !Installing(f.s)
    ensures Runs(u, f, run)
    ensures var g := End(u, f, run); g.outcome.Unfinished? && g.s.server == Replying(FormatOk(0), HangUp)
    decreases Measure(u, f.s)
  {
    var e := SomebodyWorks(u, f);
    var g := Do(u, f, Works(e));
    MoveKeepsInv(u, f, Works(e));
    StepKeepsInv(u, f.s, e);
    StepMeasure(u, f.s, e);
    if Installing(g.s) {
      EntersInstalling(u, f.s, e);
      hide Legal, FInv, Inv, Exchange.Do, Exchange.Enabled, Measure;
      run := [Works(e)];
      assert run[1..] == [];
      assert Runs(u, g, []);
    } else {
      hide Legal, FInv, Inv, Exchange.Do, Exchange.Enabled, Measure;
      var rest := ReachesInstall(u, g);
      run := [Works(e)] + rest;
      assert run[1..] == rest;
    }
  }

  lemma {:induction false} RunsOneMore(u: Upload, f: Faulty, run: seq<Move>, m: Move)
    requires Runs(u, f, run) && Enabled(u, End(u, f, run), m)
    ensures Runs(u, f, run + [m]) && End(u, f, run + [m]) == Do(u, End(u, f, run), m)
    decreases |run|
  {
    hide Enabled, Do;
    if run == [] {
      assert run + [m] == [m] && [m][1..] == [];
      assert Runs(u, Do(u, f, m), []);
    } else {
      RunsOneMore(u, Do(u, f, run[0]), run[1..], m);
      assert (run + [m])[1..] == run[1..] + [m];
    }
  }

  lemma CanFailLast(u: Upload, f: Faulty)
    requires f.outcome.Unfinished? && f.s.server == Replying(FormatOk(0), HangUp)
    ensures Enabled(u, f, ServerFails(LastOk, TimedOut))
    ensures Do(u, f, ServerFails(LastOk, TimedOut)).outcome == FailedAt(LastOk)
  {
    OkLineShape();
    hide FormatOk;
  }

  /** For every upload there is a run in which it is installed and yet fails and is not logged. */
  lemma InstalledWithoutRow(u: Upload) returns (run: seq<Move>)
    requires Legal(u)
    ensures Runs(u, Begin(u), run)
    ensures var f := End(u, Begin(u), run); f.s.installed == Some(u.body) && f.outcome == FailedAt(LastOk)
  {
    BeginInv(u);
    InitInv(u);
    assert Begin(u).outcome.Unfinished? && !Begin(u).gaveUp && !Installing(Begin(u).s);
    hide Legal, FInv, Inv, Begin, Do;
    var before := ReachesInstall(u, Begin(u));
    CanFailLast(u, End(u, Begin(u), before));
    hide Runs, End, Enabled;
    RunsOneMore(u, Begin(u), before, ServerFails(LastOk, TimedOut));
    run := before + [ServerFails(LastOk, TimedOut)];
    InstalledExactlyWhen(u, run);
  }
}
