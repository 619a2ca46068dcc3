/** Request and response lines: the tokenizer, the number parser, and the printers and
    parsers that the client and the server share. */
module Protocol {
  import opened Bytes

  const SP := ' '

  // ------------------------------------------------------------------ tokens

  predicate SpaceFree(s: string) {
    SP !in s
  }

  /** A token: a non-empty run without spaces. */
  predicate IsToken(s: string) {
    s != "" && SpaceFree(s)
  }

  function SkipSpaces(s: string, i: nat): (k: nat)
    requires i <= |s|
    ensures i <= k <= |s|
    decreases |s| - i
  {
    if i < |s| && s[i] == SP then SkipSpaces(s, i + 1) else i
  }

  function SkipToken(s: string, i: nat): (k: nat)
    requires i <= |s|
    ensures i <= k <= |s|
    ensures SpaceFree(s[i..k])
    ensures k < |s| ==> s[k] == SP
    ensures i < |s| && s[i] != SP ==> i < k
    decreases |s| - i
  {
    if i < |s| && s[i] != SP then
      var k := SkipToken(s, i + 1);
      assert s[i..k] == [s[i]] + s[i + 1..k];
      k
    else i
  }

  /** The tokens of `s` from position `i` on. */
  function Tokens(s: string, i: nat): seq<string>
    requires i <= |s|
    decreases |s| - i
  {
    var b := SkipSpaces(s, i);
    if b == |s| then [] else
    assert s[b] != SP by { SkipSpacesStops(s, i); }
    var e := SkipToken(s, b);
    [s[b..e]] + Tokens(s, e)
  }

  lemma {:induction false} SkipSpacesStops(s: string, i: nat)
    requires i <= |s|
    ensures var k := SkipSpaces(s, i);
            && (k < |s| ==> s[k] != SP)
            && (forall j :: i <= j < k ==> s[j] == SP)
    decreases |s| - i
  {
    if i < |s| && s[i] == SP {
      SkipSpacesStops(s, i + 1);
    }
  }

  /** The string with its spaces taken out. */
  function Squeeze(s: string): string {
    if s == "" then "" else (if s[0] == SP then "" else [s[0]]) + Squeeze(s[1..])
  }

  lemma Associative(a: string, b: string, c: string)
    ensures a + (b + c) == a + b + c
  {
  }

  lemma TailOfAppend(a: string, b: string)
    requires a != ""
    ensures (a + b)[0] == a[0] && (a + b)[1..] == a[1..] + b
  {
  }

  lemma {:induction false} SqueezeAppend(a: string, b: string)
    ensures Squeeze(a + b) == Squeeze(a) + Squeeze(b)
  {
    if a == "" {
      assert a + b == b;
    } else {
      TailOfAppend(a, b);
      SqueezeAppend(a[1..], b);
      Associative(if a[0] == SP then "" else [a[0]], Squeeze(a[1..]), Squeeze(b));
    }
  }

  lemma {:induction false} SqueezeSpaceFree(s: string)
    requires SpaceFree(s)
    ensures Squeeze(s) == s
  {
    if s != "" {
      assert SpaceFree(s[1..]);
      SqueezeSpaceFree(s[1..]);
    }
  }

  lemma {:induction false} SqueezeSpaces(s: string)
    requires forall i :: 0 <= i < |s| ==> s[i] == SP
    ensures Squeeze(s) == ""
  {
    if s != "" {
      SqueezeSpaces(s[1..]);
    }
  }

  lemma OneTokenMore(out: seq<string>, tok: string, rest: seq<string>)
    ensures out + ([tok] + rest) == out + [tok] + rest
  {
  }

  method SplitWs(s: string) returns (out: seq<string>)
    ensures out == Tokens(s, 0)
  {
    out := [];
    var i := 0;
    while i < |s|
      invariant 0 <= i <= |s|
      invariant out + Tokens(s, i) == Tokens(s, 0)
    {
      ghost var b, e := TokensStep(s, i);
      while i < |s| && s[i] == SP
        invariant 0 <= i <= |s|
        invariant SkipSpaces(s, i) == b
      {
        i := i + 1;
      }
      assert i == b;
      var j := i;
      while j < |s| && s[j] != SP
        invariant i <= j <= |s|
        invariant b < |s| ==> SkipToken(s, j) == e
      {
        j := j + 1;
      }
      if j > i {
        OneTokenMore(out, s[i..j], Tokens(s, j));
        out := out + [s[i..j]];
      }
      i := j;
    }
  }

  lemma SqueezeSkip(s: string, i: nat)
    requires i <= |s|
    ensures Squeeze(s[i..]) == Squeeze(s[SkipSpaces(s, i)..])
  {
    var b := SkipSpaces(s, i);
    SkipSpacesStops(s, i);
    hide SkipSpaces;
    assert s[i..] == s[i..b] + s[b..];
    SqueezeSpaces(s[i..b]);
    SqueezeAppend(s[i..b], s[b..]);
  }

  lemma SqueezeToken(s: string, b: nat, e: nat)
    requires b <= e <= |s| && SpaceFree(s[b..e])
    ensures Squeeze(s[b..]) == s[b..e] + Squeeze(s[e..])
  {
    assert s[b..] == s[b..e] + s[e..];
    SqueezeAppend(s[b..e], s[e..]);
    SqueezeSpaceFree(s[b..e]);
  }

  /** The first token, and the rest. */
  lemma TokensStep(s: string, i: nat) returns (b: nat, e: nat)
    requires i <= |s|
    ensures i <= b == SkipSpaces(s, i) <= |s|
    ensures if b == |s| then Tokens(s, i) == []
            else b < e <= |s| && e == SkipToken(s, b) && IsToken(s[b..e]) && Tokens(s, i) == [s[b..e]] + Tokens(s, e)
  {
    SkipSpacesStops(s, i);
    b, e := SkipSpaces(s, i), |s|;
    hide SkipSpaces, SkipToken;
    if b < |s| {
      e := SkipToken(s, b);
    }
  }

  /** Tokenizing loses nothing but spaces, and yields only tokens. */
  lemma {:induction false} TokensMeaning(s: string, i: nat)
    requires i <= |s|
    ensures Concat(Tokens(s, i)) == Squeeze(s[i..])
    ensures forall t :: t in Tokens(s, i) ==> IsToken(t)
    decreases |s| - i
  {
    var b, e := TokensStep(s, i);
    SqueezeSkip(s, i);
    if b < |s| {
      TokensMeaning(s, e);
      SqueezeToken(s, b, e);
      hide Tokens, Squeeze, SkipSpaces, SkipToken, IsToken;
      assert Tokens(s, i)[1..] == Tokens(s, e);
    } else {
      assert s[b..] == "";
    }
  }

  /** A printed line: tokens with one space between them. */
  function Join(ts: seq<string>): string {
    if ts == [] then "" else if |ts| == 1 then ts[0] else ts[0] + [SP] + Join(ts[1..])
  }

  lemma {:induction false} SkipTokenAt(s: string, i: nat, k: nat)
    requires i <= k <= |s|
    requires forall j :: i <= j < k ==> s[j] != SP
    requires k == |s| || s[k] == SP
    ensures SkipToken(s, i) == k
    decreases k - i
  {
    if i < k {
      SkipTokenAt(s, i + 1, k);
    }
  }

  lemma {:induction false} TokensShift(p: string, s: string, i: nat)
    requires i <= |s|
    ensures Tokens(p + s, |p| + i) == Tokens(s, i)
    decreases |s| - i
  {
    var q := p + s;
    hide Tokens, SkipSpaces, SkipToken, IsToken;
    var b, e := TokensStep(s, i);
    var b', e' := TokensStep(q, |p| + i);
    SkipShift(p, s, i);
    assert b' == |p| + b && |q| == |p| + |s|;
    if b < |s| {
      SkipShift(p, s, b);
      assert e' == |p| + e;
      TokensShift(p, s, e);
      SliceShift(p, s, b, e);
    }
  }

  lemma SliceShift(p: string, s: string, b: nat, e: nat)
    requires b <= e <= |s|
    ensures (p + s)[|p| + b..|p| + e] == s[b..e]
  {
  }

  lemma {:induction false} SkipShift(p: string, s: string, i: nat)
    requires i <= |s|
    ensures SkipSpaces(p + s, |p| + i) == |p| + SkipSpaces(s, i)
    ensures SkipToken(p + s, |p| + i) == |p| + SkipToken(s, i)
    decreases |s| - i
  {
    if i < |s| {
      SkipShift(p, s, i + 1);
    }
  }

  /** A token followed by a space is the first token. */
  lemma FirstToken(t: string, rest: string)
    requires IsToken(t) && (rest == "" || rest[0] == SP)
    ensures Tokens(t + rest, 0) == [t] + Tokens(rest, 0)
  {
    var s := t + rest;
    assert s[0] == t[0] && SkipSpaces(s, 0) == 0;
    SkipTokenAt(s, 0, |t|);
    var b, e := TokensStep(s, 0);
    hide Tokens, SkipSpaces, SkipToken;
    assert s[0..|t|] == t;
    TokensShift(t, rest, 0);
  }

  lemma LeadingSpace(s: string)
    ensures Tokens([SP] + s, 0) == Tokens(s, 0)
  {
    TokensShift([SP], s, 0);
    assert SkipSpaces([SP] + s, 0) == SkipSpaces([SP] + s, 1);
  }

  /** Tokenizing inverts printing. */
  lemma {:induction false} TokensJoin(ts: seq<string>)
    requires forall t :: t in ts ==> IsToken(t)
    ensures Tokens(Join(ts), 0) == ts
  {
    if ts != [] {
      var t, rest := ts[0], if |ts| == 1 then "" else [SP] + Join(ts[1..]);
      assert Join(ts) == t + rest;
      FirstToken(t, rest);
      if |ts| > 1 {
        TokensJoin(ts[1..]);
        LeadingSpace(Join(ts[1..]));
      }
      hide Join, IsToken;
      assert ts == [t] + ts[1..];
    }
  }

  // ------------------------------------------------------------------ numbers

  datatype Option<T> = None | Some(value: T)

  /** `strtoull` on a digit string reports a range error above 2^64 - 1. */
  function Strtoull(tok: string): Option<nat>
    requires AllDigits(tok)
  {
    if Val(tok) <= U64_MAX then Some(Val(tok)) else None
  }

  method ParseU64(tok: string) returns (out: Option<nat>)
    ensures out.Some? <==> tok != "" && AllDigits(tok) && Val(tok) <= U64_MAX
    ensures out.Some? ==> out.value == Val(tok)
  {
    if tok == "" {
      return None;
    }
    for i := 0 to |tok|
      invariant AllDigits(tok[..i])
    {
      if !IsDigit(tok[i]) {
        return None;
      }
    }
    assert tok[..|tok|] == tok;
    out := Strtoull(tok);
  }

  /** What `ParseU64` computes, for use in specifications. */
  function U64Of(tok: string): Option<nat> {
    if tok != "" && AllDigits(tok) && Val(tok) <= U64_MAX then Some(Val(tok)) else None
  }

  lemma U64OfDec(n: nat)
    requires n <= U64_MAX
    ensures U64Of(Dec(n)) == Some(n)
  {
    ValDec(n);
  }

  // ------------------------------------------------------------------ request lines

  datatype RequestLine =
    | Get(filename: string)
    | Put(filename: string, byteCount: nat)
    | Health
    | Malformed(error: string)

  const BAD_LINE := "malformed request line"
  const BAD_GET := "GET requires exactly one filename"
  const BAD_PUT := "PUT requires a filename and a byte count"
  const BAD_COUNT := "missing or non-numeric byte count"
  const UNKNOWN_LINE := "unknown request line"

  function RequestOf(tok: seq<string>): RequestLine {
    if tok == [] then Malformed(BAD_LINE)
    else if tok[0] == "GET" then
      if |tok| != 2 then Malformed(BAD_GET) else Get(tok[1])
    else if tok[0] == "PUT" then
      if |tok| != 3 then Malformed(BAD_PUT)
      else match U64Of(tok[2]) {
             case None => Malformed(BAD_COUNT)
             case Some(n) => Put(tok[1], n)
           }
    else if tok[0] == "HEALTH" then
      if |tok| != 1 then Malformed(BAD_LINE) else Health
    else Malformed(UNKNOWN_LINE)
  }

  lemma MessagesAreLines()
    ensures '\n' !in BAD_LINE && '\n' !in UNKNOWN_LINE
  {
  }

  lemma CountMessagesAreLines()
    ensures '\n' !in BAD_GET && '\n' !in BAD_COUNT
  {
  }

  lemma PutMessageIsLine()
    ensures '\n' !in BAD_PUT
  {
  }

  lemma ComplaintsAreLines(tok: seq<string>)
    ensures RequestOf(tok).Malformed? ==> '\n' !in RequestOf(tok).error
  {
    MessagesAreLines();
    CountMessagesAreLines();
    PutMessageIsLine();
    hide BAD_LINE, BAD_GET, BAD_PUT, BAD_COUNT, UNKNOWN_LINE, U64Of;
  }

  /** A decimal count that fits in 64 bits. */
  predicate IsCount(d: string) {
    d != "" && AllDigits(d) && Val(d) < 0x1_0000_0000_0000_0000
  }

  /** What each request line must look like, and which complaint each other line gets. */
  predicate Requests(tok: seq<string>, r: RequestLine) {
    && (r.Get? <==> |tok| == 2 && tok[0] == "GET")
    && (r.Get? ==> r.filename == tok[1])
    && (r.Put? <==> |tok| == 3 && tok[0] == "PUT" && IsCount(tok[2]))
    && (r.Put? ==> r.filename == tok[1] && r.byteCount == Val(tok[2]))
    && (r.Health? <==> tok == ["HEALTH"])
    && (r.Malformed? ==>
          r.error == if tok == [] then BAD_LINE
          else if tok[0] == "GET" then BAD_GET
          else if tok[0] == "PUT" then if |tok| == 3 then BAD_COUNT else BAD_PUT
          else if tok[0] == "HEALTH" then BAD_LINE
          else UNKNOWN_LINE)
  }

  /** Each request is read from exactly the lines of its form, and every other line is rejected. */
  lemma RequestMeaning(tok: seq<string>)
    ensures Requests(tok, RequestOf(tok))
  {
    hide BAD_LINE, BAD_GET, BAD_PUT, BAD_COUNT, UNKNOWN_LINE, Val, AllDigits;
    WordsDiffer();
    assert |tok| == 1 && tok[0] == "HEALTH" ==> tok == ["HEALTH"];
  }

  lemma WordsDiffer()
    ensures "GET" != "PUT" && "GET" != "HEALTH" && "PUT" != "HEALTH"
  {
    assert "GET"[0] == 'G' && "PUT"[0] == 'P' && "HEALTH"[0] == 'H';
  }

  method ParseRequestLine(line: string) returns (result: RequestLine)
    ensures result == RequestOf(Tokens(line, 0)) && Requests(Tokens(line, 0), result)
  {
    var tok := SplitWs(line);
    RequestMeaning(tok);
    hide Requests, BAD_LINE, BAD_GET, BAD_PUT, BAD_COUNT, UNKNOWN_LINE;
    if |tok| == 0 {
      return Malformed(BAD_LINE);
    }
    if tok[0] == "GET" {
      if |tok| != 2 {
        return Malformed(BAD_GET);
      }
      return Get(tok[1]);
    }
    if tok[0] == "PUT" {
      if |tok| != 3 {
        return Malformed(BAD_PUT);
      }
      var bytes := ParseU64(tok[2]);
      if bytes.None? {
        return Malformed(BAD_COUNT);
      }
      return Put(tok[1], bytes.value);
    }
    if tok[0] == "HEALTH" {
      if |tok| != 1 {
        return Malformed(BAD_LINE);
      }
      return Health;
    }
    return Malformed(UNKNOWN_LINE);
  }

  /** The request lines the client writes, without their newline. */
  function GetLine(name: string): string {
    "GET " + name
  }

  function PutLine(name: string, size: nat): string {
    "PUT " + name + " " + Dec(size)
  }

  /** Parsing inverts the client's request lines for every name without spaces. */
  lemma RequestRoundTrip(name: string, size: nat)
    requires IsToken(name) && size <= U64_MAX
    ensures RequestOf(Tokens(GetLine(name), 0)) == Get(name)
    ensures RequestOf(Tokens(PutLine(name, size), 0)) == Put(name, size)
    ensures RequestOf(Tokens("HEALTH", 0)) == Health
  {
    var d := Dec(size);
    U64OfDec(size);
    DigitsHaveNo(d, SP);
    var g, p, h := ["GET", name], ["PUT", name, d], ["HEALTH"];
    assert GetLine(name) == Join(g);
    assert Join(p[1..]) == name + [SP] + d;
    assert PutLine(name, size) == Join(p);
    TokensJoin(g);
    TokensJoin(p);
    TokensJoin(h);
  }

  /** No line parses as a request for a name with a space or an empty name. */
  lemma ParsedNamesAreTokens(line: string)
    ensures var r := RequestOf(Tokens(line, 0));
            (r.Get? || r.Put?) ==> IsToken(r.filename)
  {
    TokensMeaning(line, 0);
  }

  // ------------------------------------------------------------------ response lines

  datatype Response =
    | Ok(n: nat)
    | Err(reason: string)
    | BadResponse

  function FormatOk(n: nat): string {
    "OK " + Dec(n) + "\n"
  }

  function FormatErr(reason: string): string {
    "ERR " + reason + "\n"
  }

  /** Position of the first `c`, or the length. */
  function IndexOf(s: string, c: char): (i: nat)
    ensures i <= |s| && (i < |s| ==> s[i] == c)
  {
    if s == "" then 0 else if s[0] == c then 0 else 1 + IndexOf(s[1..], c)
  }

  lemma {:induction false} IndexOfFirst(s: string, c: char)
    ensures c !in s[..IndexOf(s, c)]
  {
    if s != "" && s[0] != c {
      IndexOfFirst(s[1..], c);
      var k := IndexOf(s[1..], c);
      assert s[..k + 1] == [s[0]] + s[1..][..k];
    }
  }

  /** The same, one position at a time. */
  lemma {:induction false} NoneBefore(s: string, c: char, i: nat)
    requires i < IndexOf(s, c)
    ensures s[i] != c
  {
    if i > 0 {
      NoneBefore(s[1..], c, i - 1);
    }
  }

  lemma {:induction false} IndexOfAt(p: string, s: string, c: char)
    requires c !in p
    ensures IndexOf(p + s, c) == |p| + IndexOf(s, c)
  {
    if p == "" {
      assert p + s == s;
    } else {
      assert p == [p[0]] + p[1..];
      IndexOfAt(p[1..], s, c);
      assert (p + s)[1..] == p[1..] + s;
    }
  }

  function ResponseOf(line: string): Response {
    var tok := Tokens(line, 0);
    if tok != [] && tok[0] == "OK" then
      if |tok| == 2 && U64Of(tok[1]).Some? then Ok(U64Of(tok[1]).value) else BadResponse
    else if tok != [] && tok[0] == "ERR" then
      var pos := IndexOf(line, SP);
      Err(if pos == |line| then "" else line[pos + 1..])
    else BadResponse
  }

  /** What each response line must look like; the reason of an `ERR` line is all that follows its first
      space. */
  predicate Responds(line: string, r: Response) {
    var tok := Tokens(line, 0);
    && (r.Ok? <==> |tok| == 2 && tok[0] == "OK" && IsCount(tok[1]))
    && (r.Ok? ==> r.n == Val(tok[1]))
    && (r.Err? <==> tok != [] && tok[0] == "ERR")
    && (r.Err? ==> r.reason == if IndexOf(line, ' ') == |line| then "" else line[IndexOf(line, ' ') + 1..])
  }

  /** Each response is read from exactly the lines of its form, and every other line is malformed. */
  lemma ResponseMeaning(line: string)
    ensures Responds(line, ResponseOf(line))
  {
    hide Val, AllDigits, IndexOf, Tokens;
    assert "OK"[0] == 'O' && "ERR"[0] == 'E';
  }

  method ParseResponseLine(line: string) returns (result: Response)
    ensures result == ResponseOf(line) && Responds(line, result)
  {
    var tok := SplitWs(line);
    ResponseMeaning(line);
    hide Responds, IndexOf;
    if |tok| != 0 && tok[0] == "OK" {
      if |tok| == 2 {
        var n := ParseU64(tok[1]);
        if n.Some? {
          return Ok(n.value);
        }
      }
      return BadResponse;
    }
    if |tok| != 0 && tok[0] == "ERR" {
      var pos := IndexOf(line, SP);
      return Err(if pos == |line| then "" else line[pos + 1..]);
    }
    return BadResponse;
  }

  function Chop(s: string): string
    requires s != ""
  {
    s[..|s| - 1]
  }

  /** Parsing inverts the response printers: every 64-bit count, every reason. */
  lemma ResponseRoundTrip(n: nat, reason: string)
    requires n <= U64_MAX
    ensures ResponseOf(Chop(FormatOk(n))) == Ok(n)
    ensures ResponseOf(Chop(FormatErr(reason))) == Err(reason)
  {
    var d := Dec(n);
    U64OfDec(n);
    DigitsHaveNo(d, SP);
    TokensJoin(["OK", d]);
    assert Chop(FormatOk(n)) == Join(["OK", d]);

    var e := Chop(FormatErr(reason));
    assert e == "ERR " + reason;
    SkipTokenAt(e, 0, 3);
    assert e[0..3] == "ERR";
    IndexOfAt("ERR", " " + reason, SP);
    assert e == "ERR" + (" " + reason);
    assert e[4..] == reason;
  }

  /** A printed line is framed by its newline: it holds no other. */
  lemma PrintedLinesHaveOneNewline(n: nat, reason: string)
    requires '\n' !in reason
    ensures '\n' !in Chop(FormatOk(n)) && '\n' !in Chop(FormatErr(reason))
  {
    var d := Dec(n);
    DigitsHaveNo(d, '\n');
    assert Chop(FormatOk(n)) == "OK " + d;
    assert Chop(FormatErr(reason)) == "ERR " + reason;
  }

  // ------------------------------------------------------------------ file names

  predicate IsFilenameSafe(name: string) {
    && name != "" && name != "." && name != ".."
    && '/' !in name && '\0' !in name
  }

  /** What a system call sees of a string: it ends at the first NUL. */
  function CString(s: string): string {
    s[..IndexOf(s, '\0')]
  }

  function Components(path: string): (cs: seq<string>)
    ensures cs != []
    decreases |path|
  {
    var k := IndexOf(path, '/');
    if k == |path| then [path] else [path[..k]] + Components(path[k + 1..])
  }

  /** How the kernel follows a relative path, component by component, from a directory. */
  function Walk(dir: seq<string>, cs: seq<string>): seq<string>
    decreases |cs|
  {
    if cs == [] then dir else Walk(Enter(dir, cs[0]), cs[1..])
  }

  function Enter(dir: seq<string>, c: string): seq<string> {
    if c == "" || c == "." then dir
    else if c == ".." then if dir == [] then [] else dir[..|dir| - 1]
    else dir + [c]
  }

  predicate Plain(s: string) {
    '/' !in s && '\0' !in s
  }

  lemma {:induction false} ComponentsPlain(path: string)
    requires '\0' !in path
    ensures forall c :: c in Components(path) ==> Plain(c)
    decreases |path|
  {
    var k := IndexOf(path, '/');
    IndexOfFirst(path, '/');
    if k < |path| {
      ComponentsPlain(path[k + 1..]);
    } else {
      assert path[..k] == path;
    }
  }

  lemma {:induction false} WalkPlain(n: nat, dir: seq<string>, cs: seq<string>)
    requires forall c :: c in cs ==> Plain(c)
    requires forall i :: n <= i < |dir| ==> Plain(dir[i])
    ensures forall i :: n <= i < |Walk(dir, cs)| ==> Plain(Walk(dir, cs)[i])
    decreases |cs|
  {
    if cs != [] {
      WalkPlain(n, Enter(dir, cs[0]), cs[1..]);
    }
  }

  /** A name is accepted exactly when following it from the served directory leads to the entry of
      that name directly in that directory. */
  lemma SafeNamesAreEntries(dir: seq<string>, name: string)
    requires dir != []
    ensures IsFilenameSafe(name) <==> Walk(dir, Components(CString(name))) == dir + [name]
  {
    var path := CString(name);
    IndexOfFirst(name, '\0');
    ComponentsPlain(path);
    var cs := Components(path);
    WalkPlain(|dir|, dir, cs);
    assert (dir + [name])[|dir|] == name;
    if Plain(name) {
      assert path == name;
      IndexOfFirst(name, '/');
      assert cs == [name] && cs[1..] == [];
      assert Walk(dir, cs) == Walk(Enter(dir, name), []);
    }
  }

  /** Followed from the directory `dir`, the name leads to the entry of that name in that directory. */
  predicate StaysIn(dir: string, name: string) {
    Walk(Components(dir), Components(CString(name))) == Components(dir) + [name]
  }
}
