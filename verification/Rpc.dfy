/** The messages between master and workers: encoders that write through a bounded cursor, and
    decoders that read through one. */
module Rpc {
  import opened Bytes
  import Framing

  const WIRE_PATH_MAX: nat := 1024

  type WirePath = s: seq<byte> | |s| < 0x1_0000

  datatype Msg =
    | GetTask
    | TaskMap(taskId: u32, attemptId: u32, nReduce: u32, path: WirePath)
    | TaskReduce(taskId: u32, attemptId: u32, nMap: u32)
    | Wait(waitMs: u32)
    | Done
    | TaskDone(taskId: u32, attemptId: u32, result: byte)
    | Ack

  function KindOf(m: Msg): byte {
    match m
    case GetTask => 1
    case TaskMap(_, _, _, _) => 2
    case TaskReduce(_, _, _) => 3
    case Wait(_) => 4
    case Done => 5
    case TaskDone(_, _, _) => 6
    case Ack => 7
  }

  function Body(m: Msg): seq<byte> {
    match m
    case TaskMap(t, a, r, path) => PutU32(t) + PutU32(a) + PutU32(r) + PutU16(|path|) + path
    case TaskReduce(t, a, n) => PutU32(t) + PutU32(a) + PutU32(n)
    case Wait(ms) => PutU32(ms)
    case TaskDone(t, a, result) => PutU32(t) + PutU32(a) + [result]
    case _ => []
  }

  function Encode(m: Msg): seq<byte> {
    [KindOf(m)] + Body(m)
  }

  /** What a peer can take back: a path leaves room for the receiver's terminator. */
  predicate Sendable(m: Msg) {
    m.TaskMap? ==> |m.path| < WIRE_PATH_MAX
  }

  /** The kind byte of a payload, when it is a known one. */
  function PeekKind(s: seq<byte>): Option<byte> {
    if |s| >= 1 && 1 <= s[0] <= 7 then Some(s[0]) else None
  }

  function U32At(s: seq<byte>, i: nat): u32
    requires i + 4 <= |s|
  {
    GetU32(s[i..i + 4])
  }

  /** The message of a payload whose kind has a body, judged by the kind byte. */
  function Decode(kind: byte, s: seq<byte>): Option<Msg> {
    match kind
    case 2 =>
      if |s| < 14 then None else
      var n := GetU16(s[12..14]);
      if n >= WIRE_PATH_MAX || |s| != 14 + n then None
      else Some(TaskMap(U32At(s, 0), U32At(s, 4), U32At(s, 8), s[14..]))
    case 3 => if |s| != 12 then None else Some(TaskReduce(U32At(s, 0), U32At(s, 4), U32At(s, 8)))
    case 4 => if |s| != 4 then None else Some(Wait(U32At(s, 0)))
    case 6 => if |s| != 9 then None else Some(TaskDone(U32At(s, 0), U32At(s, 4), s[8]))
    case _ => None
  }

  predicate HasBody(m: Msg) {
    m.TaskMap? || m.TaskReduce? || m.Wait? || m.TaskDone?
  }

  lemma Fields(a: seq<byte>, b: seq<byte>, c: seq<byte>, d: seq<byte>, e: seq<byte>)
    requires |a| == 4 && |b| == 4 && |c| == 4 && |d| == 2
    ensures var s := a + b + c + d + e; s[0..4] == a && s[4..8] == b && s[8..12] == c && s[12..14] == d && s[14..] == e
  {
    var s := a + b + c + d + e;
    assert s[0..4] == a;
    assert s[4..8] == b;
    assert s[8..12] == c;
  }

  /** Decoding an encoded message returns it, exactly when a peer can take it back. */
  lemma DecodeEncode(m: Msg)
    requires HasBody(m)
    ensures Decode(KindOf(m), Body(m)) == (if m.TaskMap? && |m.path| >= 1024 then None else Some(m))
    ensures PeekKind(Encode(m)) == Some(KindOf(m)) && Encode(m)[1..] == Body(m)
  {
    hide PutU32, GetU32, PutU16, GetU16;
    var s := Body(m);
    match m
    case TaskMap(t, a, r, path) =>
      GetPutU32(t);
      GetPutU32(a);
      GetPutU32(r);
      GetPutU16(|path|);
      Fields(PutU32(t), PutU32(a), PutU32(r), PutU16(|path|), path);
    case TaskReduce(t, a, n) =>
      GetPutU32(t);
      GetPutU32(a);
      GetPutU32(n);
      assert s[0..4] == PutU32(t) && s[4..8] == PutU32(a) && s[8..12] == PutU32(n);
    case Wait(ms) =>
      GetPutU32(ms);
      assert s[0..4] == PutU32(ms);
    case TaskDone(t, a, result) =>
      GetPutU32(t);
      GetPutU32(a);
      assert s[0..4] == PutU32(t) && s[4..8] == PutU32(a);
  }

  /** An accepted payload is the encoding of the message it decodes to. */
  lemma EncodeDecode(kind: byte, s: seq<byte>)
    requires Decode(kind, s).Some?
    ensures var m := Decode(kind, s).value;
            HasBody(m) && Sendable(m) && Encode(m) == [kind] + s
  {
    hide PutU32, GetU32, PutU16, GetU16;
    match kind
    case 2 =>
      PutGetU32(s[0..4]);
      PutGetU32(s[4..8]);
      PutGetU32(s[8..12]);
      PutGetU16(s[12..14]);
      assert s == s[0..4] + s[4..8] + s[8..12] + s[12..14] + s[14..];
    case 3 =>
      PutGetU32(s[0..4]);
      PutGetU32(s[4..8]);
      PutGetU32(s[8..12]);
      assert s == s[0..4] + s[4..8] + s[8..12];
    case 4 =>
      PutGetU32(s[0..4]);
      assert s == s[0..4];
    case 6 =>
      PutGetU32(s[0..4]);
      PutGetU32(s[4..8]);
      assert s == s[0..4] + s[4..8] + [s[8]];
    case _ =>
  }

  /** A kind is recognised exactly when it is the kind of some message. */
  lemma KnownKinds(s: seq<byte>)
    ensures PeekKind(s).Some? <==> |s| >= 1 && exists m: Msg :: KindOf(m) == s[0]
    ensures PeekKind(s).Some? ==> PeekKind(s).value == s[0]
  {
    if PeekKind(s).Some? {
      var samples := [GetTask, TaskMap(0, 0, 0, []), TaskReduce(0, 0, 0), Wait(0), Done, TaskDone(0, 0, 0), Ack];
      var m := samples[s[0] - 1];
      assert KindOf(m) == s[0];
    }
  }

  /** Every message a peer can take back fits one frame. */
  lemma EncodeFits(m: Msg)
    requires Sendable(m)
    ensures |Encode(m)| <= Framing.MSG_MAX
  {
    hide PutU32, PutU16;
  }

  /** A cursor over the first `cap` bytes of a buffer. */
  class Writer {
    const buf: array<byte>
    const cap: nat
    var p: nat

    ghost predicate Valid()
      reads this
    {
      p <= cap <= buf.Length
    }

    constructor (buf: array<byte>, cap: nat)
      requires cap <= buf.Length
      ensures Valid() && this.buf == buf && this.cap == cap && p == 0
    {
      this.buf, this.cap, p := buf, cap, 0;
    }

    /** Writes the bytes and advances, or does neither. */
    method Put(src: seq<byte>) returns (ok: bool)
      requires Valid()
      modifies this, buf
      ensures Valid() && ok == (old(p) + |src| <= cap)
      ensures ok ==> buf[..p] == old(buf[..p]) + src
      ensures !ok ==> p == old(p) && buf[..] == old(buf[..])
    {
      if cap - p < |src| {
        return false;
      }
      p := Memcpy(buf, p, src);
      ok := true;
    }
  }

  method EncodeEmpty(buf: array<byte>, cap: nat, m: Msg) returns (ok: bool, n: nat)
    requires cap <= buf.Length && !HasBody(m)
    modifies buf
    ensures ok == (|Encode(m)| <= cap)
    ensures ok ==> n == |Encode(m)| && buf[..n] == Encode(m)
  {
    var w := new Writer(buf, cap);
    ok := w.Put([KindOf(m)]);
    n := w.p;
  }

  /** The common start of a task message: its kind, task id, attempt id and a count. */
  method PutTask(w: Writer, kind: byte, taskId: u32, attemptId: u32, count: u32) returns (ok: bool)
    requires w.Valid() && w.p == 0
    modifies w, w.buf
    ensures w.Valid() && ok == (13 <= w.cap)
    ensures ok ==> w.p == 13 && w.buf[..w.p] == [kind] + (PutU32(taskId) + PutU32(attemptId) + PutU32(count))
  {
    hide PutU32;
    ok := w.Put([kind]);
    if !ok {
      return false;
    }
    assert w.buf[..w.p] == [kind];
    ok := w.Put(PutU32(taskId));
    if !ok {
      return false;
    }
    ok := w.Put(PutU32(attemptId));
    if !ok {
      return false;
    }
    assert w.buf[..w.p] == [kind] + (PutU32(taskId) + PutU32(attemptId));
    ok := w.Put(PutU32(count));
    assert ok ==> w.buf[..w.p] == [kind] + (PutU32(taskId) + PutU32(attemptId) + PutU32(count));
  }

  method EncodeTaskMap(buf: array<byte>, cap: nat, m: Msg) returns (ok: bool, n: nat)
    requires cap <= buf.Length && m.TaskMap?
    modifies buf
    ensures ok == (Sendable(m) && |Encode(m)| <= cap)
    ensures ok ==> n == |Encode(m)| && buf[..n] == Encode(m)
  {
    hide PutU32, PutU16;
    if |m.path| >= WIRE_PATH_MAX {
      return false, 0;
    }
    var w := new Writer(buf, cap);
    ok := PutTask(w, 2, m.taskId, m.attemptId, m.nReduce);
    if !ok {
      return false, 0;
    }
    ok := w.Put(PutU16(|m.path|));
    if !ok {
      return false, 0;
    }
    ok := w.Put(m.path);
    n := w.p;
    assert ok ==> buf[..n] == Encode(m);
  }

  method EncodeTaskReduce(buf: array<byte>, cap: nat, m: Msg) returns (ok: bool, n: nat)
    requires cap <= buf.Length && m.TaskReduce?
    modifies buf
    ensures ok == (|Encode(m)| <= cap)
    ensures ok ==> n == |Encode(m)| && buf[..n] == Encode(m)
  {
    hide PutU32;
    var w := new Writer(buf, cap);
    ok := PutTask(w, 3, m.taskId, m.attemptId, m.nMap);
    n := w.p;
  }

  method EncodeWait(buf: array<byte>, cap: nat, m: Msg) returns (ok: bool, n: nat)
    requires cap <= buf.Length && m.Wait?
    modifies buf
    ensures ok == (|Encode(m)| <= cap)
    ensures ok ==> n == |Encode(m)| && buf[..n] == Encode(m)
  {
    hide PutU32;
    var w := new Writer(buf, cap);
    ok := w.Put([4]);
    if !ok {
      return false, 0;
    }
    ok := w.Put(PutU32(m.waitMs));
    n := w.p;
  }

  method EncodeTaskDone(buf: array<byte>, cap: nat, m: Msg) returns (ok: bool, n: nat)
    requires cap <= buf.Length && m.TaskDone?
    modifies buf
    ensures ok == (|Encode(m)| <= cap)
    ensures ok ==> n == |Encode(m)| && buf[..n] == Encode(m)
  {
    hide PutU32;
    var w := new Writer(buf, cap);
    ok := w.Put([6]);
    if !ok {
      return false, 0;
    }
    ok := w.Put(PutU32(m.taskId));
    if !ok {
      return false, 0;
    }
    ok := w.Put(PutU32(m.attemptId));
    if !ok {
      return false, 0;
    }
    ok := w.Put([m.result]);
    n := w.p;
    assert ok ==> buf[..n] == Encode(m);
  }

  /** A cursor over received bytes. */
  class Reader {
    const s: seq<byte>
    var p: nat

    ghost predicate Valid()
      reads this
    {
      p <= |s|
    }

    constructor (s: seq<byte>)
      ensures Valid() && this.s == s && p == 0
    {
      this.s, p := s, 0;
    }

    method Take(n: nat) returns (ok: bool, r: seq<byte>)
      requires Valid()
      modifies this
      ensures Valid() && ok == (old(p) + n <= |s|)
      ensures if ok then p == old(p) + n && r == s[old(p)..p] else p == old(p)
    {
      if |s| - p < n {
        return false, [];
      }
      r := s[p..p + n];
      p := p + n;
      ok := true;
    }

    method U32() returns (ok: bool, v: u32)
      requires Valid()
      modifies this
      ensures Valid() && ok == (old(p) + 4 <= |s|)
      ensures if ok then p == old(p) + 4 && v == U32At(s, old(p)) else p == old(p)
    {
      hide GetU32;
      var r;
      ok, r := Take(4);
      v := if ok then GetU32(r) else 0;
    }
  }

  method DecodeTaskMap(s: seq<byte>) returns (r: Option<Msg>)
    ensures r == Decode(2, s)
  {
    hide GetU32, GetU16;
    var rd := new Reader(s);
    var ok, t := rd.U32();
    if !ok {
      return None;
    }
    var a;
    ok, a := rd.U32();
    if !ok {
      return None;
    }
    var nReduce;
    ok, nReduce := rd.U32();
    if !ok {
      return None;
    }
    var lenBytes;
    ok, lenBytes := rd.Take(2);
    if !ok {
      return None;
    }
    var n := GetU16(lenBytes);
    if n >= WIRE_PATH_MAX {
      return None;
    }
    var path;
    ok, path := rd.Take(n);
    if !ok || rd.p != |s| {
      return None;
    }
    assert path == s[14..];
    r := Some(TaskMap(t, a, nReduce, path));
  }

  method DecodeTaskReduce(s: seq<byte>) returns (r: Option<Msg>)
    ensures r == Decode(3, s)
  {
    hide GetU32;
    var rd := new Reader(s);
    var ok, t := rd.U32();
    if !ok {
      return None;
    }
    var a;
    ok, a := rd.U32();
    if !ok {
      return None;
    }
    var nMap;
    ok, nMap := rd.U32();
    if !ok || rd.p != |s| {
      return None;
    }
    r := Some(TaskReduce(t, a, nMap));
  }

  method DecodeWait(s: seq<byte>) returns (r: Option<Msg>)
    ensures r == Decode(4, s)
  {
    hide GetU32;
    var rd := new Reader(s);
    var ok, ms := rd.U32();
    if !ok || rd.p != |s| {
      return None;
    }
    r := Some(Wait(ms));
  }

  method DecodeTaskDone(s: seq<byte>) returns (r: Option<Msg>)
    ensures r == Decode(6, s)
  {
    hide GetU32;
    var rd := new Reader(s);
    var ok, t := rd.U32();
    if !ok {
      return None;
    }
    var a;
    ok, a := rd.U32();
    if !ok {
      return None;
    }
    var result;
    ok, result := rd.Take(1);
    if !ok || rd.p != |s| {
      return None;
    }
    r := Some(TaskDone(t, a, result[0]));
  }
}
