/** The directory under concurrent GETs and PUTs: every interleaving of the single system calls that
    any number of workers make on any number of requests. `version` is the specification: for each
    name, the last complete contents installed under it. */
module Storage {
  import opened Bytes
  import opened Files
  import opened Protocol

  datatype GetPhase = Active | Completed | GaveUp

  datatype PutPhase = Pending | Writing | Over

  datatype Req =
    | GetReq(name: string, ino: nat, size: nat, pinned: Option<string>, rd: nat, buf: string, wire: string,
             phase: GetPhase)
    | PutReq(target: string, body: string, fd: nat, written: nat, stage: PutPhase)

  datatype State = State(
    names: map<string, nat>,
    inodes: seq<string>,
    nextId: nat,
    reqs: map<nat, Req>,
    version: map<string, string>)

  datatype Step =
    | TakeId                              // an admission that took an id and was refused
    | OpenGet(name: string)               // open and fstat at admission
    | OpenPut(name: string, body: string)
    | CreateTemp(id: nat)
    | WriteTemp(id: nat, k: nat)
    | Rename(id: nat)
    | FailPut(id: nat)
    | Pread(id: nat, k: nat)
    | Send(id: nat, k: nat)
    | EndGet(id: nat)
    | FailGet(id: nat)

  predicate IsGet(s: State, id: nat) {
    id in s.reqs && s.reqs[id].GetReq? && s.reqs[id].phase.Active?
  }

  predicate IsPut(s: State, id: nat, p: PutPhase) {
    id in s.reqs && s.reqs[id].PutReq? && s.reqs[id].stage == p
  }

  /** A step can be taken by clients that request only names in `allowed`. */
  ghost predicate Enabled(allowed: iset<string>, s: State, e: Step) {
    match e
    case TakeId => true
    case OpenGet(n) => n in allowed && n in s.names && s.names[n] < |s.inodes|
    case OpenPut(n, _) => n in allowed
    case CreateTemp(id) =>
      IsPut(s, id, Pending) && (var t := TempOf(s.reqs[id].target, id); t in s.names ==> s.names[t] < |s.inodes|)
    case WriteTemp(id, k) =>
      && IsPut(s, id, Writing) && s.reqs[id].fd < |s.inodes|
      && 1 <= k && s.reqs[id].written + k <= |s.reqs[id].body|
    case Rename(id) =>
      && IsPut(s, id, Writing) && s.reqs[id].written == |s.reqs[id].body|
      && TempOf(s.reqs[id].target, id) in s.names
    case FailPut(id) => IsPut(s, id, Pending) || IsPut(s, id, Writing)
    case Pread(id, k) =>
      && IsGet(s, id) && s.reqs[id].ino < |s.inodes|
      && 1 <= k && s.reqs[id].rd + k <= s.reqs[id].size && s.reqs[id].rd + k <= |s.inodes[s.reqs[id].ino]|
    case Send(id, k) => IsGet(s, id) && 1 <= k <= |s.reqs[id].buf|
    case EndGet(id) => IsGet(s, id) && s.reqs[id].rd == s.reqs[id].size && s.reqs[id].buf == ""
    case FailGet(id) => IsGet(s, id)
  }

  function Lookup(m: map<string, string>, n: string): Option<string> {
    if n in m then Some(m[n]) else None
  }

  ghost function Do(allowed: iset<string>, s: State, e: Step): State
    requires Enabled(allowed, s, e)
  {
    match e
    case TakeId => s.(nextId := s.nextId + 1)
    case OpenGet(n) =>
      var data := s.inodes[s.names[n]];
      s.(nextId := s.nextId + 1,
      reqs := s.reqs[s.nextId := GetReq(n, s.names[n], |data|, Lookup(s.version, n), 0, FormatOk(|data|), "", Active)])
    case OpenPut(n, body) =>
      s.(nextId := s.nextId + 1, reqs := s.reqs[s.nextId := PutReq(n, body, 0, 0, Pending)])
    case CreateTemp(id) =>
      var r, t := s.reqs[id], TempOf(s.reqs[id].target, id);
      if t in s.names then
        s.(inodes := s.inodes[s.names[t] := ""], reqs := s.reqs[id := r.(fd := s.names[t], stage := Writing)])
      else
        s.(inodes := s.inodes + [""], names := s.names[t := |s.inodes|],
        reqs := s.reqs[id := r.(fd := |s.inodes|, stage := Writing)])
    case WriteTemp(id, k) =>
      var r := s.reqs[id];
      s.(inodes := s.inodes[r.fd := s.inodes[r.fd] + r.body[r.written..r.written + k]],
      reqs := s.reqs[id := r.(written := r.written + k)])
    case Rename(id) =>
      var r, t := s.reqs[id], TempOf(s.reqs[id].target, id);
      s.(names := (s.names - {t})[r.target := s.names[t]], reqs := s.reqs[id := r.(stage := Over)],
      version := s.version[r.target := r.body])
    case FailPut(id) =>
      var r := s.reqs[id];
      s.(names := if r.stage.Writing? then s.names - {TempOf(r.target, id)} else s.names,
      reqs := s.reqs[id := r.(stage := Over)])
    case Pread(id, k) =>
      var r := s.reqs[id];
      s.(reqs := s.reqs[id := r.(buf := r.buf + s.inodes[r.ino][r.rd..r.rd + k], rd := r.rd + k)])
    case Send(id, k) =>
      var r := s.reqs[id];
      s.(reqs := s.reqs[id := r.(wire := r.wire + r.buf[..k], buf := r.buf[k..])])
    case EndGet(id) => s.(reqs := s.reqs[id := s.reqs[id].(phase := Completed)])
    case FailGet(id) => s.(reqs := s.reqs[id := s.reqs[id].(phase := GaveUp)])
  }

  // ------------------------------------------------------------------ temporary names

  /** No requested name is the temporary name of a requested name. */
  ghost predicate Clean(allowed: iset<string>) {
    forall b: string, id: nat :: b in allowed && id >= 1 ==> TempOf(b, id) !in allowed
  }

  ghost predicate IsTemp(allowed: iset<string>, n: string) {
    exists b: string, id: nat :: b in allowed && id >= 1 && n == TempOf(b, id)
  }

  /** Distinct requests collect their bytes under distinct names. */
  lemma TempInjective(a: string, i: nat, b: string, j: nat)
    requires TempOf(a, i) == TempOf(b, j)
    ensures a == b && i == j
  {
    var s, m, n := TempOf(a, i), Dec(i), Dec(j);
    LastDot(a, m, b, n);
    assert s[|s| - |m|..] == m && s[|s| - |n|..] == n;
    DecInjective(i, j);
    assert s[..|s| - |m| - 5] == a && s[..|s| - |n| - 5] == b;
  }

  lemma LastDot(a: string, m: string, b: string, n: string)
    requires a + ".tmp." + m == b + ".tmp." + n
    requires AllDigits(m) && AllDigits(n)
    ensures |m| == |n|
  {
    var s := a + ".tmp." + m;
    assert s[|s| - |m| - 1] == '.' && s[|s| - |n| - 1] == '.';
    assert forall k :: |s| - |m| <= k < |s| ==> s[k] == m[k - (|s| - |m|)] && IsDigit(s[k]);
    assert forall k :: |s| - |n| <= k < |s| ==> s[k] == n[k - (|s| - |n|)] && IsDigit(s[k]);
  }

  // ------------------------------------------------------------------ the invariant

  ghost predicate Directory(allowed: iset<string>, s: State) {
    && (forall n :: n in s.names ==> s.names[n] < |s.inodes|)
    && (forall m, n :: m in s.names && n in s.names && m != n ==> s.names[m] != s.names[n])
    && (forall n :: n in allowed ==> (n in s.names <==> n in s.version))
    && (forall n :: n in allowed && n in s.names ==> s.inodes[s.names[n]] == s.version[n])
  }

  /** What the wire of a GET must be for the contents it was admitted with. */
  predicate Exact(r: Req)
    requires r.GetReq?
  {
    && r.pinned.Some? && r.size == |r.pinned.value| && r.rd <= r.size
    && r.wire + r.buf == FormatOk(r.size) + r.pinned.value[..r.rd]
    && (r.phase.Completed? ==> r.rd == r.size && r.buf == "")
  }

  ghost predicate ReqInv(allowed: iset<string>, s: State, id: nat, r: Req) {
    match r
    case GetReq(_, ino, _, _, _, _, _, phase) =>
      && Exact(r)
      && (phase.Active? ==>
            && ino < |s.inodes| && s.inodes[ino] == r.pinned.value
            && (forall t :: t in s.names && IsTemp(allowed, t) ==> s.names[t] != ino))
    case PutReq(target, body, fd, written, stage) =>
      && target in allowed && id >= 1
      && (stage.Pending? ==> written == 0)
      && (stage.Writing? ==>
            && written <= |body|
            && (var t := TempOf(target, id); t in s.names && s.names[t] == fd)
            && fd < |s.inodes| && s.inodes[fd] == body[..written])
  }

  ghost predicate Inv(allowed: iset<string>, s: State) {
    && Directory(allowed, s)
    && s.nextId >= 1
    && (forall id :: id in s.reqs ==> id < s.nextId && ReqInv(allowed, s, id, s.reqs[id]))
  }

  /** Any directory without hard links; every file in it is a complete version. */
  ghost predicate Init(s: State) {
    && s.nextId == 1 && s.reqs == map[]
    && (forall n :: n in s.names ==> s.names[n] < |s.inodes|)
    && (forall m, n :: m in s.names && n in s.names && m != n ==> s.names[m] != s.names[n])
    && s.version.Keys == s.names.Keys
    && (forall n :: n in s.names ==> s.version[n] == s.inodes[s.names[n]])
  }

  // ------------------------------------------------------------------ one step

  /** A Writing PUT is alone on its file: no other name leads there. */
  lemma WriterAlone(allowed: iset<string>, s: State, id: nat)
    requires Clean(allowed) && Inv(allowed, s) && IsPut(s, id, Writing)
    ensures var r := s.reqs[id];
            var t := TempOf(r.target, id);
            && IsTemp(allowed, t) && t !in allowed
            && (forall n :: n in s.names && n != t ==> s.names[n] != r.fd)
            && (forall j :: IsGet(s, j) ==> s.reqs[j].ino != r.fd)
            && (forall j :: IsPut(s, j, Writing) && j != id ==> s.reqs[j].fd != r.fd)
  {
    var r := s.reqs[id];
    var t := TempOf(r.target, id);
    assert ReqInv(allowed, s, id, r);
    forall j | IsGet(s, j)
      ensures s.reqs[j].ino != r.fd
    {
      assert ReqInv(allowed, s, j, s.reqs[j]);
    }
    forall j | IsPut(s, j, Writing) && j != id
      ensures s.reqs[j].fd != r.fd
    {
      assert ReqInv(allowed, s, j, s.reqs[j]);
      TempsDiffer(r.target, id, s.reqs[j].target, j);
    }
  }

  lemma TempsDiffer(a: string, i: nat, b: string, j: nat)
    requires i != j
    ensures TempOf(a, i) != TempOf(b, j)
  {
    if TempOf(a, i) == TempOf(b, j) {
      TempInjective(a, i, b, j);
    }
  }

  /** The requests that a step does not touch keep what holds of them. */
  lemma OthersKept(allowed: iset<string>, s: State, t: State, id: nat, j: nat)
    requires Inv(allowed, s) && j in s.reqs && j != id && j in t.reqs && t.reqs[j] == s.reqs[j]
    requires |s.inodes| <= |t.inodes|
    requires IsGet(s, j) ==> t.inodes[s.reqs[j].ino] == s.inodes[s.reqs[j].ino]
    requires IsPut(s, j, Writing) ==> t.inodes[s.reqs[j].fd] == s.inodes[s.reqs[j].fd]
    requires IsPut(s, j, Writing) ==>
               var x := TempOf(s.reqs[j].target, j); x in t.names && t.names[x] == s.names[x]
    requires forall n :: n in t.names && IsTemp(allowed, n) ==>
                           (n in s.names && s.names[n] == t.names[n]) || t.names[n] >= |s.inodes|
    ensures ReqInv(allowed, t, j, t.reqs[j])
  {
    assert ReqInv(allowed, s, j, s.reqs[j]);
  }

  /** Reading and sending touch only the GET itself. */
  lemma GetStepKeeps(allowed: iset<string>, s: State, e: Step)
    requires Inv(allowed, s) && Enabled(allowed, s, e) && (e.Pread? || e.Send? || e.EndGet? || e.FailGet?)
    ensures Inv(allowed, Do(allowed, s, e))
  {
    var t := Do(allowed, s, e);
    forall j | j in t.reqs
      ensures ReqInv(allowed, t, j, t.reqs[j])
    {
      assert ReqInv(allowed, s, j, s.reqs[j]);
      if j == e.id {
        GetItself(allowed, s, e);
      } else {
        OthersKept(allowed, s, t, e.id, j);
      }
    }
  }

  lemma ReadOn(wire: string, buf: string, head: string, v: string, a: nat, b: nat)
    requires a <= b <= |v| && wire + buf == head + v[..a]
    ensures wire + (buf + v[a..b]) == head + v[..b]
  {
    assert v[..b] == v[..a] + v[a..b];
    assert wire + (buf + v[a..b]) == wire + buf + v[a..b];
  }

  lemma SendOn(wire: string, buf: string, k: nat)
    requires k <= |buf|
    ensures wire + buf[..k] + buf[k..] == wire + buf
  {
  }

  lemma GetItself(allowed: iset<string>, s: State, e: Step)
    requires Enabled(allowed, s, e) && (e.Pread? || e.Send? || e.EndGet? || e.FailGet?)
    requires ReqInv(allowed, s, e.id, s.reqs[e.id])
    ensures var t := Do(allowed, s, e);
            ReqInv(allowed, t, e.id, t.reqs[e.id])
  {
    var r, v := s.reqs[e.id], s.reqs[e.id].pinned.value;
    hide FormatOk;
    match e
    case Pread(_, k) =>
      ReadOn(r.wire, r.buf, FormatOk(r.size), v, r.rd, r.rd + k);
    case Send(_, k) =>
      SendOn(r.wire, r.buf, k);
    case _ =>
  }

  lemma AdmitKeeps(allowed: iset<string>, s: State, e: Step)
    requires Clean(allowed) && Inv(allowed, s) && Enabled(allowed, s, e) && (e.TakeId? || e.OpenGet? || e.OpenPut?)
    ensures Inv(allowed, Do(allowed, s, e))
  {
    var t := Do(allowed, s, e);
    forall j | j in t.reqs
      ensures ReqInv(allowed, t, j, t.reqs[j])
    {
      if j == s.nextId && j !in s.reqs {
        if e.OpenGet? {
          assert e.name in s.version;
          assert t.reqs[j].pinned.value[..0] == "";
          assert e.name in allowed && !IsTemp(allowed, e.name);
        }
      } else {
        assert ReqInv(allowed, s, j, s.reqs[j]);
        OthersKept(allowed, s, t, s.nextId, j);
      }
    }
  }

  /** A stale temporary file is emptied; nobody else can be using it. */
  lemma CreateOther(allowed: iset<string>, s: State, id: nat, j: nat)
    requires Clean(allowed) && Inv(allowed, s) && Enabled(allowed, s, CreateTemp(id)) && j in s.reqs && j != id
    ensures var t := Do(allowed, s, CreateTemp(id)); ReqInv(allowed, t, j, t.reqs[j])
  {
    var t, r := Do(allowed, s, CreateTemp(id)), s.reqs[id];
    assert ReqInv(allowed, s, id, r);
    assert ReqInv(allowed, s, j, s.reqs[j]);
    assert IsTemp(allowed, TempOf(r.target, id));
    if IsPut(s, j, Writing) {
      TempsDiffer(r.target, id, s.reqs[j].target, j);
    }
    hide Clean, Exact, IsTemp;
    OthersKept(allowed, s, t, id, j);
  }

  lemma CreateKeeps(allowed: iset<string>, s: State, id: nat)
    requires Clean(allowed) && Inv(allowed, s) && Enabled(allowed, s, CreateTemp(id))
    ensures Inv(allowed, Do(allowed, s, CreateTemp(id)))
  {
    var t, r := Do(allowed, s, CreateTemp(id)), s.reqs[id];
    var x := TempOf(r.target, id);
    assert ReqInv(allowed, s, id, r);
    assert x !in allowed;
    hide Exact;
    assert Directory(allowed, t);
    assert ReqInv(allowed, t, id, t.reqs[id]);
    forall j | j in t.reqs && j != id
      ensures ReqInv(allowed, t, j, t.reqs[j])
    {
      CreateOther(allowed, s, id, j);
    }
  }

  lemma WriteKeeps(allowed: iset<string>, s: State, id: nat, k: nat)
    requires Clean(allowed) && Inv(allowed, s) && Enabled(allowed, s, WriteTemp(id, k))
    ensures Inv(allowed, Do(allowed, s, WriteTemp(id, k)))
  {
    var t, r := Do(allowed, s, WriteTemp(id, k)), s.reqs[id];
    WriterAlone(allowed, s, id);
    assert ReqInv(allowed, s, id, r);
    assert r.body[..r.written] + r.body[r.written..r.written + k] == r.body[..r.written + k];
    forall j | j in t.reqs
      ensures ReqInv(allowed, t, j, t.reqs[j])
    {
      if j != id {
        assert ReqInv(allowed, s, j, s.reqs[j]);
        OthersKept(allowed, s, t, id, j);
      }
    }
  }

  lemma RenameKeeps(allowed: iset<string>, s: State, id: nat)
    requires Clean(allowed) && Inv(allowed, s) && Enabled(allowed, s, Rename(id))
    ensures Inv(allowed, Do(allowed, s, Rename(id)))
  {
    var t, r := Do(allowed, s, Rename(id)), s.reqs[id];
    var x := TempOf(r.target, id);
    WriterAlone(allowed, s, id);
    assert ReqInv(allowed, s, id, r);
    assert r.body[..r.written] == r.body;
    forall j | j in t.reqs
      ensures ReqInv(allowed, t, j, t.reqs[j])
    {
      if j != id {
        assert ReqInv(allowed, s, j, s.reqs[j]);
        if IsPut(s, j, Writing) {
          TempsDiffer(r.target, id, s.reqs[j].target, j);
          assert IsTemp(allowed, TempOf(s.reqs[j].target, j));
        }
        OthersKept(allowed, s, t, id, j);
      }
    }
  }

  lemma FailKeeps(allowed: iset<string>, s: State, id: nat)
    requires Clean(allowed) && Inv(allowed, s) && Enabled(allowed, s, FailPut(id))
    ensures Inv(allowed, Do(allowed, s, FailPut(id)))
  {
    var t, r := Do(allowed, s, FailPut(id)), s.reqs[id];
    assert ReqInv(allowed, s, id, r);
    if IsPut(s, id, Writing) {
      WriterAlone(allowed, s, id);
    }
    forall j | j in t.reqs
      ensures ReqInv(allowed, t, j, t.reqs[j])
    {
      if j != id {
        assert ReqInv(allowed, s, j, s.reqs[j]);
        if IsPut(s, j, Writing) {
          TempsDiffer(r.target, id, s.reqs[j].target, j);
        }
        OthersKept(allowed, s, t, id, j);
      }
    }
  }

  lemma StepKeepsInv(allowed: iset<string>, s: State, e: Step)
    requires Clean(allowed) && Inv(allowed, s) && Enabled(allowed, s, e)
    ensures Inv(allowed, Do(allowed, s, e))
  {
    hide Clean, Inv, Enabled, Do;
    match e
    case CreateTemp(id) => CreateKeeps(allowed, s, id);
    case WriteTemp(id, k) => WriteKeeps(allowed, s, id, k);
    case Rename(id) => RenameKeeps(allowed, s, id);
    case FailPut(id) => FailKeeps(allowed, s, id);
    case TakeId => AdmitKeeps(allowed, s, e);
    case OpenGet(_) => AdmitKeeps(allowed, s, e);
    case OpenPut(_, _) => AdmitKeeps(allowed, s, e);
    case _ => GetStepKeeps(allowed, s, e);
  }

  // ------------------------------------------------------------------ whole runs

  ghost predicate Runs(allowed: iset<string>, s: State, es: seq<Step>)
    decreases |es|
  {
    es == [] || (Enabled(allowed, s, es[0]) && Runs(allowed, Do(allowed, s, es[0]), es[1..]))
  }

  ghost function End(allowed: iset<string>, s: State, es: seq<Step>): State
    requires Runs(allowed, s, es)
    decreases |es|
  {
    if es == [] then s else End(allowed, Do(allowed, s, es[0]), es[1..])
  }

  lemma {:induction false} RunKeepsInv(allowed: iset<string>, s: State, es: seq<Step>)
    requires Clean(allowed) && Inv(allowed, s) && Runs(allowed, s, es)
    ensures Inv(allowed, End(allowed, s, es))
    decreases |es|
  {
    hide Clean, Inv, Enabled, Do;
    if es != [] {
      StepKeepsInv(allowed, s, es[0]);
      RunKeepsInv(allowed, Do(allowed, s, es[0]), es[1..]);
    }
  }

  /** A completed GET that sent its `OK` line and a complete version of its file, and nothing else. */
  predicate Whole(r: Req)
    requires r.GetReq?
  {
    r.pinned.Some? && r.wire == FormatOk(|r.pinned.value|) + r.pinned.value
  }

  /** In every interleaving, each GET that completes sends the version its file had at admission. */
  lemma NoTornReads(allowed: iset<string>, s: State, es: seq<Step>, id: nat)
    requires Clean(allowed) && Init(s) && Runs(allowed, s, es)
    requires var t := End(allowed, s, es); id in t.reqs && t.reqs[id].GetReq? && t.reqs[id].phase.Completed?
    ensures Whole(End(allowed, s, es).reqs[id])
  {
    RunKeepsInv(allowed, s, es);
    var t := End(allowed, s, es);
    var r := t.reqs[id];
    assert ReqInv(allowed, t, id, r);
    assert r.pinned.value[..r.rd] == r.pinned.value;
    assert r.wire + r.buf == r.wire;
  }

  /** What a name leads to. */
  function Contents(s: State, n: string): Option<string> {
    if n in s.names && s.names[n] < |s.inodes| then Some(s.inodes[s.names[n]]) else None
  }

  /** What a requested name leads to changes in one kind of step only: the rename of a complete body.
      No reader ever finds anything between two versions. */
  lemma DestinationChangesOnce(allowed: iset<string>, s: State, e: Step, n: string)
    requires Clean(allowed) && Inv(allowed, s) && Enabled(allowed, s, e) && n in allowed
    ensures var t := Do(allowed, s, e);
            if e.Rename? && s.reqs[e.id].target == n then Contents(t, n) == Some(s.reqs[e.id].body)
            else Contents(t, n) == Contents(s, n)
    ensures Contents(s, n) == Lookup(s.version, n)
  {
    StepKeepsInv(allowed, s, e);
    var t := Do(allowed, s, e);
    assert Contents(t, n) == Lookup(t.version, n);
    hide Clean, Inv;
  }

  // ------------------------------------------------------------------ every request can be finished

  lemma RunsCons(allowed: iset<string>, s: State, e: Step, es: seq<Step>)
    requires Enabled(allowed, s, e) && Runs(allowed, Do(allowed, s, e), es)
    ensures Runs(allowed, s, [e] + es) && End(allowed, s, [e] + es) == End(allowed, Do(allowed, s, e), es)
  {
    hide Enabled, Do;
    assert ([e] + es)[1..] == es;
  }

  /** A step of request `id` that leaves each requested name leading to what it led to. */
  lemma NamesKept(allowed: iset<string>, s: State, e: Step)
    requires Clean(allowed) && Inv(allowed, s) && Enabled(allowed, s, e) && !e.Rename?
    ensures forall n :: n in allowed ==> Contents(Do(allowed, s, e), n) == Contents(s, n)
  {
    forall n | n in allowed
      ensures Contents(Do(allowed, s, e), n) == Contents(s, n)
    {
      DestinationChangesOnce(allowed, s, e, n);
    }
  }

  /** The PUT `id` is over and its body is what its name leads to; no other requested name has changed. */
  ghost predicate Done(allowed: iset<string>, s: State, t: State, id: nat, target: string, body: string) {
    && IsPut(t, id, Over) && Contents(t, target) == Some(body)
    && forall n :: n in allowed && n != target ==> Contents(t, n) == Contents(s, n)
  }

  /** From every state of every run, whatever the other requests are doing, a PUT that has not failed
      can be brought to its end by its own steps alone. */
  lemma {:induction false} PutCanBeFinished(allowed: iset<string>, s: State, id: nat) returns (es: seq<Step>)
    requires Clean(allowed) && Inv(allowed, s) && (IsPut(s, id, Pending) || IsPut(s, id, Writing))
    ensures Runs(allowed, s, es)
    ensures Done(allowed, s, End(allowed, s, es), id, s.reqs[id].target, s.reqs[id].body)
    decreases s.reqs[id].stage.Pending?, |s.reqs[id].body| - s.reqs[id].written
  {
    var r := s.reqs[id];
    assert ReqInv(allowed, s, id, r);
    var e := if r.stage.Pending? then CreateTemp(id)
    else if r.written < |r.body| then WriteTemp(id, |r.body| - r.written)
    else Rename(id);
    assert Enabled(allowed, s, e);
    var t := Do(allowed, s, e);
    StepKeepsInv(allowed, s, e);
    var rest := [];
    if e.Rename? {
      forall n | n in allowed
        ensures Contents(t, n) == if n == r.target then Some(r.body) else Contents(s, n)
      {
        DestinationChangesOnce(allowed, s, e, n);
      }
    } else {
      NamesKept(allowed, s, e);
      assert t.reqs[id].target == r.target && t.reqs[id].body == r.body;
      hide Enabled, Do, Inv, Clean, Contents, ReqInv;
      rest := PutCanBeFinished(allowed, t, id);
    }
    RunsCons(allowed, s, e, rest);
    es := [e] + rest;
  }

  /** So can a GET, with the version it was admitted with. */
  lemma {:induction false} GetCanBeFinished(allowed: iset<string>, s: State, id: nat) returns (es: seq<Step>)
    requires Clean(allowed) && Inv(allowed, s) && IsGet(s, id)
    ensures Runs(allowed, s, es)
    ensures var t := End(allowed, s, es);
            CompletedGet(t, id) && t.reqs[id].pinned == s.reqs[id].pinned && Whole(t.reqs[id])
    decreases s.reqs[id].size - s.reqs[id].rd, |s.reqs[id].buf|
  {
    var r := s.reqs[id];
    assert ReqInv(allowed, s, id, r);
    var e := if r.buf != "" then Send(id, |r.buf|)
    else if r.rd < r.size then Pread(id, r.size - r.rd)
    else EndGet(id);
    assert Enabled(allowed, s, e);
    var t := Do(allowed, s, e);
    StepKeepsInv(allowed, s, e);
    var rest := [];
    if e.EndGet? {
      assert r.pinned.value[..r.rd] == r.pinned.value && r.wire + r.buf == r.wire;
    } else {
      assert t.reqs[id].pinned == r.pinned;
      hide Enabled, Do, Inv, Clean, ReqInv, Whole;
      rest := GetCanBeFinished(allowed, t, id);
    }
    RunsCons(allowed, s, e, rest);
    es := [e] + rest;
  }

  // ------------------------------------------------------------------ temporary names do not stay

  predicate Collecting(s: State, id: nat, n: string) {
    IsPut(s, id, Writing) && n == TempOf(s.reqs[id].target, id)
  }

  /** Each name holds a complete version or is where a PUT is still collecting its bytes. */
  ghost predicate Accounted(s: State) {
    forall n :: n in s.names ==> n in s.version || exists id :: Collecting(s, id, n)
  }

  lemma StepKeepsAccounts(allowed: iset<string>, s: State, e: Step)
    requires Accounted(s) && Enabled(allowed, s, e) && (forall id :: id in s.reqs ==> id < s.nextId)
    ensures Accounted(Do(allowed, s, e))
    ensures forall id :: id in Do(allowed, s, e).reqs ==> id < Do(allowed, s, e).nextId
  {
    var t := Do(allowed, s, e);
    hide TempOf, FormatOk, Lookup;
    forall n | n in t.names
      ensures n in t.version || exists id :: Collecting(t, id, n)
    {
      if e.CreateTemp? && n == TempOf(s.reqs[e.id].target, e.id) {
        assert Collecting(t, e.id, n);
      } else if n in s.names && n !in s.version {
        var id :| Collecting(s, id, n);
        StillCollecting(allowed, s, e, id, n);
      }
    }
  }

  lemma StillCollecting(allowed: iset<string>, s: State, e: Step, id: nat, n: string)
    requires Enabled(allowed, s, e) && id < s.nextId && Collecting(s, id, n) && n in Do(allowed, s, e).names
    ensures n in Do(allowed, s, e).version || Collecting(Do(allowed, s, e), id, n)
  {
    hide TempOf, FormatOk, Lookup;
  }

  lemma {:induction false} RunKeepsAccounts(allowed: iset<string>, s: State, es: seq<Step>)
    requires Accounted(s) && (forall id :: id in s.reqs ==> id < s.nextId) && Runs(allowed, s, es)
    ensures Accounted(End(allowed, s, es))
    decreases |es|
  {
    hide Accounted, Enabled, Do;
    if es != [] {
      StepKeepsAccounts(allowed, s, es[0]);
      RunKeepsAccounts(allowed, Do(allowed, s, es[0]), es[1..]);
    }
  }

  /** In every run, whoever may request what, no temporary name outlives its PUT: every name holds a
      complete version or is where a PUT that is still writing collects its bytes. */
  lemma NoStrayTemps(allowed: iset<string>, s: State, es: seq<Step>)
    requires Init(s) && Runs(allowed, s, es)
    ensures Accounted(End(allowed, s, es))
  {
    assert Accounted(s);
    hide Accounted, Runs, End;
    RunKeepsAccounts(allowed, s, es);
  }

  // ------------------------------------------------------------------ names that break it

  /** File name validation and the request line accept the temporary names of what they accept. */
  lemma TempNamesAreAccepted(n: string, id: nat)
    requires IsFilenameSafe(n) && IsToken(n)
    ensures IsFilenameSafe(TempOf(n, id)) && IsToken(TempOf(n, id))
  {
    var t, d := TempOf(n, id), Dec(id);
    DigitsHaveNo(d, '/');
    DigitsHaveNo(d, '\0');
    DigitsHaveNo(d, SP);
    hide Dec;
    assert t == n + (".tmp." + d) && |t| > 5;
    TmpIsPlain();
  }

  lemma TmpIsPlain()
    ensures '/' !in ".tmp." && '\0' !in ".tmp." && SP !in ".tmp."
  {
  }

  lemma {:induction false} RunsAppend(allowed: iset<string>, s: State, a: seq<Step>, b: seq<Step>)
    requires Runs(allowed, s, a) && Runs(allowed, End(allowed, s, a), b)
    ensures Runs(allowed, s, a + b) && End(allowed, s, a + b) == End(allowed, End(allowed, s, a), b)
    decreases |a|
  {
    hide Enabled, Do;
    if a == [] {
      assert a + b == b;
    } else {
      assert (a + b)[1..] == a[1..] + b;
      RunsAppend(allowed, Do(allowed, s, a[0]), a[1..], b);
    }
  }

  lemma RunsOne(allowed: iset<string>, s: State, a: seq<Step>, e: Step)
    requires Runs(allowed, s, a) && Enabled(allowed, End(allowed, s, a), e)
    ensures Runs(allowed, s, a + [e]) && End(allowed, s, a + [e]) == Do(allowed, End(allowed, s, a), e)
  {
    var t := End(allowed, s, a);
    assert [e][1..] == [];
    assert Runs(allowed, Do(allowed, t, e), [e][1..]);
    assert Runs(allowed, t, [e]);
    RunsAppend(allowed, s, a, [e]);
  }

  const EMPTY_DIR: State := State(map[], [], 1, map[], map[])

  /** Ids are handed out to refused admissions too. */
  lemma {:induction false} RefusedAdmissions(allowed: iset<string>, k: nat) returns (es: seq<Step>)
    ensures Runs(allowed, EMPTY_DIR, es) && End(allowed, EMPTY_DIR, es) == EMPTY_DIR.(nextId := 1 + k)
  {
    if k == 0 {
      es := [];
    } else {
      var before := RefusedAdmissions(allowed, k - 1);
      RunsOne(allowed, EMPTY_DIR, before, TakeId);
      es := before + [TakeId];
    }
  }

  /** Half of a body sits under the temporary name. */
  lemma HalfWritten(allowed: iset<string>, b: string, id: nat) returns (es: seq<Step>)
    requires b in allowed && id >= 1
    ensures Runs(allowed, EMPTY_DIR, es)
    ensures End(allowed, EMPTY_DIR, es)
         == State(map[TempOf(b, id) := 0], ["x"], id + 1, map[id := PutReq(b, "xy", 0, 1, Writing)], map[])
  {
    es := RefusedAdmissions(allowed, id - 1);
    HalfOfTwo();
    hide Runs, End, TempOf;
    es := Extend(allowed, es, OpenPut(b, "xy"));
    assert End(allowed, EMPTY_DIR, es) == State(map[], [], id + 1, map[id := PutReq(b, "xy", 0, 0, Pending)], map[]);
    es := Extend(allowed, es, CreateTemp(id));
    assert End(allowed, EMPTY_DIR, es)
        == State(map[TempOf(b, id) := 0], [""], id + 1, map[id := PutReq(b, "xy", 0, 0, Writing)], map[]);
    es := Extend(allowed, es, WriteTemp(id, 1));
  }

  lemma HalfOfTwo()
    ensures "" + "xy"[0..1] == "x" && [] + [""] == [""] && [""][0 := "x"] == ["x"] && |"xy"| == 2
  {
  }

  /** If a requested name is the temporary name of another, there is a run in which a GET completes
      with half of a body that was never installed. */
  lemma TempNameTears(allowed: iset<string>, b: string, id: nat) returns (es: seq<Step>, g: nat)
    requires b in allowed && id >= 1 && TempOf(b, id) in allowed
    ensures Runs(allowed, EMPTY_DIR, es)
    ensures var t := End(allowed, EMPTY_DIR, es);
            && g in t.reqs && t.reqs[g].GetReq? && t.reqs[g].phase.Completed? && !Whole(t.reqs[g])
            && t.reqs[g].wire == FormatOk(1) + "x"
  {
    var n, ok := TempOf(b, id), FormatOk(1);
    g := id + 1;
    es := HalfWritten(allowed, b, id);
    hide Runs, End, FormatOk;
    es := Extend(allowed, es, OpenGet(n));
    var t := End(allowed, EMPTY_DIR, es);
    assert t.reqs[g] == GetReq(n, 0, 1, None, 0, ok, "", Active) && t.inodes == ["x"];
    es := Extend(allowed, es, Pread(g, 1));
    assert End(allowed, EMPTY_DIR, es).reqs[g] == GetReq(n, 0, 1, None, 1, ok + "x", "", Active);
    es := Extend(allowed, es, Send(g, |ok| + 1));
    assert End(allowed, EMPTY_DIR, es).reqs[g] == GetReq(n, 0, 1, None, 1, "", ok + "x", Active);
    es := Extend(allowed, es, EndGet(g));
  }

  lemma Extend(allowed: iset<string>, a: seq<Step>, e: Step) returns (es: seq<Step>)
    requires Runs(allowed, EMPTY_DIR, a) && Enabled(allowed, End(allowed, EMPTY_DIR, a), e)
    ensures es == a + [e] && Runs(allowed, EMPTY_DIR, es)
    ensures End(allowed, EMPTY_DIR, es) == Do(allowed, End(allowed, EMPTY_DIR, a), e)
  {
    es := a + [e];
    RunsOne(allowed, EMPTY_DIR, a, e);
  }

  /** Every completed GET of every run sends a whole version. */
  ghost predicate NeverTorn(allowed: iset<string>) {
    forall s: State, es: seq<Step>, id: nat ::
      Init(s) && Runs(allowed, s, es) && CompletedGet(End(allowed, s, es), id) ==> Whole(End(allowed, s, es).reqs[id])
  }

  predicate CompletedGet(s: State, id: nat) {
    id in s.reqs && s.reqs[id].GetReq? && s.reqs[id].phase.Completed?
  }

  /** Reads are never torn exactly when no requested name is the temporary name of a requested name. */
  lemma NeverTornExactlyWhenClean(allowed: iset<string>)
    ensures NeverTorn(allowed) <==> Clean(allowed)
  {
    if Clean(allowed) {
      forall s: State, es: seq<Step>, id: nat | Init(s) && Runs(allowed, s, es) && CompletedGet(End(allowed, s, es), id)
        ensures Whole(End(allowed, s, es).reqs[id])
      {
        NoTornReads(allowed, s, es, id);
      }
    } else {
      var b: string, i: nat :| b in allowed && i >= 1 && TempOf(b, i) in allowed;
      var es, g := TempNameTears(allowed, b, i);
      assert Init(EMPTY_DIR) && CompletedGet(End(allowed, EMPTY_DIR, es), g);
    }
  }
}
