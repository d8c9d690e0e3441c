/** What master and workers say to each other, on the wire: every reply and every report of a run
    arrives as it was sent. */
module Wire {
  import opened Bytes
  import opened Scheduler
  import opened Recovery
  import opened Protocol
  import opened Guarantees
  import opened Aof
  import opened Files
  import opened World
  import opened EndToEnd
  import Rpc
  import Framing

  // ----- replies -----

  /** The fields of the reply fit the message. */
  predicate ReplyFits(r: Reply) {
    match r
    case MapResp(t, a, n, path) =>
      t < 0x1_0000_0000 && a < 0x1_0000_0000 && n < 0x1_0000_0000 && |path| < Rpc.WIRE_PATH_MAX
    case ReduceResp(t, a, n) => t < 0x1_0000_0000 && a < 0x1_0000_0000 && n < 0x1_0000_0000
    case WaitResp(ms) => 0 <= ms < 0x1_0000_0000
    case DoneResp => true
    case AssertionFailed => false
  }

  /** The message the master encodes. */
  function ReplyMsg(r: Reply): Rpc.Msg
    requires ReplyFits(r)
  {
    match r
    case MapResp(t, a, n, path) => Rpc.TaskMap(t, a, n, path)
    case ReduceResp(t, a, n) => Rpc.TaskReduce(t, a, n)
    case WaitResp(ms) => Rpc.Wait(ms)
    case DoneResp => Rpc.Done
  }

  /** What the worker makes of a payload: the kind byte decides which decoder gets the rest. */
  function Response(payload: seq<byte>): Option<Reply> {
    var kind := Rpc.PeekKind(payload);
    if kind.None? then None
    else if kind.value == 5 then Some(DoneResp)
    else
      var m := Rpc.Decode(kind.value, payload[1..]);
      if m.None? then None
      else
        match m.value
        case TaskMap(t, a, n, path) => Some(MapResp(t, a, n, path))
        case TaskReduce(t, a, n) => Some(ReduceResp(t, a, n))
        case Wait(ms) => Some(WaitResp(ms))
        case _ => None
  }

  /** The worker's receiving side: one frame, its kind, its body. */
  method ReceiveResponse(input: seq<byte>, pos: nat, cut: nat -> nat) returns (r: Option<Reply>)
    requires pos <= |input|
    ensures var s := input[pos..];
            r == if Framing.Whole(s, Framing.MSG_MAX) then Response(s[4..4 + GetU32(s[..4])]) else None
  {
    hide GetU32, Rpc.Decode;
    var buf := new byte[Framing.MSG_MAX];
    var ok, n := Framing.RecvFramed(input, pos, buf, cut);
    if !ok {
      return None;
    }
    var payload := buf[..n];
    var kind := Rpc.PeekKind(payload);
    if kind.None? {
      return None;
    }
    var m: Option<Rpc.Msg> := None;
    match kind.value {
      case 2 => m := Rpc.DecodeTaskMap(payload[1..]);
      case 3 => m := Rpc.DecodeTaskReduce(payload[1..]);
      case 4 => m := Rpc.DecodeWait(payload[1..]);
      case 5 => return Some(DoneResp);
      case _ =>
    }
    OtherKinds(kind.value, payload[1..]);
    if m.None? {
      return None;
    }
    DecodedKinds(kind.value, payload[1..]);
    match m.value {
      case TaskMap(t, a, nReduce, path) => r := Some(MapResp(t, a, nReduce, path));
      case TaskReduce(t, a, nMap) => r := Some(ReduceResp(t, a, nMap));
      case Wait(ms) => r := Some(WaitResp(ms));
      case _ => r := None;
    }
  }

  /** The kinds that carry no assignment. */
  lemma OtherKinds(kind: byte, body: seq<byte>)
    ensures kind in {1, 5, 7} ==> Rpc.Decode(kind, body).None?
    ensures kind == 6 && Rpc.Decode(kind, body).Some? ==> Rpc.Decode(kind, body).value.TaskDone?
  {
  }

  lemma DecodedKinds(kind: byte, body: seq<byte>)
    ensures Rpc.Decode(kind, body).Some? ==> 2 <= kind <= 6
  {
  }

  /** An encoded reply is understood as the reply. */
  lemma ReplyUnderstood(r: Reply)
    requires ReplyFits(r)
    ensures Rpc.Sendable(ReplyMsg(r)) && |Rpc.Encode(ReplyMsg(r))| <= Framing.MSG_MAX
    ensures Response(Rpc.Encode(ReplyMsg(r))) == Some(r)
  {
    hide PutU32, GetU32, PutU16, GetU16, Rpc.Decode, Rpc.Body;
    var m := ReplyMsg(r);
    Rpc.EncodeFits(m);
    if r.DoneResp? {
      assert Rpc.Encode(m)[0] == 5;
    } else {
      Rpc.DecodeEncode(m);
    }
  }

  /** The worker understands nothing but encoded replies, except that DONE may be followed by anything. */
  lemma UnderstoodWasEncoded(payload: seq<byte>)
    requires Response(payload).Some?
    ensures var r := Response(payload).value;
            && ReplyFits(r)
            && (if r.DoneResp? then |payload| >= 1 && payload[0] == 5 else payload == Rpc.Encode(ReplyMsg(r)))
  {
    hide PutU32, GetU32, PutU16, GetU16, Rpc.Decode, Rpc.Body, Rpc.Encode;
    if payload[0] != 5 {
      Rpc.EncodeDecode(payload[0], payload[1..]);
      assert [payload[0]] + payload[1..] == payload;
    }
  }

  /** In every run, whatever the master answers fits one frame, and the worker at the other end of the
      connection gets that answer, whatever follows it on the stream. */
  lemma ReplyArrives(job: Job, es: seq<Event>, fd: nat, now: int, rest: seq<byte>)
    requires JobOk(job) && 0 <= job.timeoutMs < 0x1_0000_0000
    requires Legal(job, es) && Clean(job, es) && Enabled(After(job, es), Get(fd, now))
    ensures var r := GetTask(After(job, es).m, fd, now).reply;
            && ReplyFits(r)
            && var payload := Rpc.Encode(ReplyMsg(r));
            && |payload| <= Framing.MSG_MAX
            && var s := Framing.Frame(payload) + rest;
            && Framing.Whole(s, Framing.MSG_MAX)
            && Response(s[4..4 + GetU32(s[..4])]) == Some(r)
  {
    hide Legal, Clean, After, PInv, GetTask, GetU32, Response, Framing.Frame, Framing.Whole, Rpc.Encode;
    RunKeepsPInv(job, es);
    var p := After(job, es);
    ReplyFitsWire(job, p, fd, now);
    WaitMeansWork(job, es, fd, now);
    var r := GetTask(p.m, fd, now).reply;
    ReplyUnderstood(r);
    Framing.SentIsReceived(Rpc.Encode(ReplyMsg(r)), rest, Framing.MSG_MAX);
  }

  lemma ReplyFitsWire(job: Job, p: Proto, fd: nat, now: int)
    requires JobOk(job) && 0 <= job.timeoutMs < 0x1_0000_0000 && PInv(job, p) && Enabled(p, Get(fd, now))
    ensures var r := GetTask(p.m, fd, now).reply; r.AssertionFailed? || ReplyFits(r)
  {
    ReplyFacts(job, p, fd, now);
    WaitTime(job, p, fd, now);
    hide PInv, GetTask, Enabled;
  }

  lemma WaitTime(job: Job, p: Proto, fd: nat, now: int)
    requires PInv(job, p) && Enabled(p, Get(fd, now))
    ensures var r := GetTask(p.m, fd, now).reply; r.WaitResp? ==> r.waitMs == job.timeoutMs / 2
  {
    hide TaskOk, Sum, Logged, LogOk, IssuedOk, OpenOk;
  }

  // ----- requests -----

  datatype Request = GetRequest | DoneRequest(msg: DoneMsg)

  /** What the master makes of a payload. */
  function Requested(payload: seq<byte>): Option<Request> {
    var kind := Rpc.PeekKind(payload);
    if kind.None? then None
    else if kind.value == 1 then Some(GetRequest)
    else if kind.value == 6 then
      var m := Rpc.Decode(6, payload[1..]);
      if m.Some? && m.value.TaskDone? then
        Some(DoneRequest(DoneMsg(m.value.taskId, m.value.attemptId, m.value.result)))
      else None
    else None
  }

  method ParseRequest(payload: seq<byte>) returns (r: Option<Request>)
    ensures r == Requested(payload)
  {
    hide GetU32, Rpc.Decode;
    var kind := Rpc.PeekKind(payload);
    if kind.None? {
      return None;
    }
    match kind.value {
      case 1 => return Some(GetRequest);
      case 6 =>
        var m := Rpc.DecodeTaskDone(payload[1..]);
        OtherKinds(6, payload[1..]);
        if m.None? {
          return None;
        }
        return Some(DoneRequest(DoneMsg(m.value.taskId, m.value.attemptId, m.value.result)));
      case _ => return None;
    }
  }

  /** The message a worker encodes as its report. */
  function ReportMsg(a: Assignment, result: nat): Rpc.Msg
    requires a.id < 0x1_0000_0000 && a.attempt < 0x1_0000_0000 && result < 256
  {
    Rpc.TaskDone(a.id, a.attempt, result)
  }

  lemma ReportUnderstood(a: Assignment, result: nat)
    requires a.id < 0x1_0000_0000 && a.attempt < 0x1_0000_0000 && result < 256
    ensures |Rpc.Encode(ReportMsg(a, result))| <= Framing.MSG_MAX
    ensures Requested(Rpc.Encode(ReportMsg(a, result))) == Some(DoneRequest(MsgOf(a, result)))
  {
    hide PutU32, GetU32, PutU16, GetU16, Rpc.Decode, Rpc.Body;
    var m := ReportMsg(a, result);
    Rpc.EncodeFits(m);
    Rpc.DecodeEncode(m);
  }

  /** The master takes any payload with the right first byte as a request for work, and as a report
      exactly the encoding of that report. */
  lemma RequestedWasEncoded(payload: seq<byte>, id: u32, attempt: u32, result: byte)
    ensures Requested(payload) == Some(GetRequest) <==> |payload| >= 1 && payload[0] == 1
    ensures Requested(payload) == Some(DoneRequest(DoneMsg(id, attempt, result))) <==>
            payload == Rpc.Encode(Rpc.TaskDone(id, attempt, result))
  {
    hide PutU32, GetU32, PutU16, GetU16, Rpc.Decode, Rpc.Body;
    Rpc.DecodeEncode(Rpc.TaskDone(id, attempt, result));
    if |payload| >= 1 && payload[0] == 6 && Rpc.Decode(6, payload[1..]).Some? {
      Rpc.EncodeDecode(6, payload[1..]);
      assert [payload[0]] + payload[1..] == payload;
      OtherKinds(6, payload[1..]);
    }
  }

  /** A request for work is understood as one, and an acknowledgement as none. */
  lemma EmptyMessages()
    ensures Requested(Rpc.Encode(Rpc.GetTask)) == Some(GetRequest)
    ensures Rpc.PeekKind(Rpc.Encode(Rpc.Ack)) == Some(7) && Response(Rpc.Encode(Rpc.Ack)) == None
  {
  }

  /** In every clean run of the whole system, the report a worker sends fits one frame, the parser takes
      it off the stream whole, and the master reads from it the task, attempt and result it has on its
      books. */
  lemma ReportArrives(s: Setup, mvs: seq<Move>, pid: nat, now: int, rest: seq<byte>)
    requires SetupOk(s) && WLegal(s, mvs) && WClean(s, mvs) && Allowed(s, WAfter(s, mvs), Tell(pid, now))
    ensures var w := WAfter(s, mvs);
            && Linked(w, pid) && w.procs[pid].stage.Reporting? && FdOf(w, pid) in w.p.open
            && var a, result := w.procs[pid].stage.a, w.procs[pid].stage.result;
            && a == w.p.open[FdOf(w, pid)] && a.id < 0x1_0000_0000 && a.attempt < 0x1_0000_0000 && result < 256
            && var payload := Rpc.Encode(ReportMsg(a, result));
            && |payload| <= Framing.MSG_MAX
            && var f := Framing.Frame(payload) + rest;
            && Framing.Whole(f, Framing.MSG_MAX)
            && Requested(f[4..4 + GetU32(f[..4])]) == Some(DoneRequest(MsgOf(a, result)))
  {
    hide WLegal, WClean, WAfter, WInv, GetU32, Requested, Framing.Frame, Framing.Whole, Rpc.Encode;
    RunKeepsWInv(s, mvs);
    var w := WAfter(s, mvs);
    ReportFits(s, w, pid, now);
    var a, result := w.procs[pid].stage.a, w.procs[pid].stage.result;
    ReportUnderstood(a, result);
    Framing.SentIsReceived(Rpc.Encode(ReportMsg(a, result)), rest, Framing.MSG_MAX);
  }

  lemma ReportFits(s: Setup, w: World, pid: nat, now: int)
    requires SetupOk(s) && WInv(s, w) && Allowed(s, w, Tell(pid, now))
    ensures Linked(w, pid) && w.procs[pid].stage.Reporting? && FdOf(w, pid) in w.p.open
    ensures var st := w.procs[pid].stage;
            st.a == w.p.open[FdOf(w, pid)] && st.a.id < 0x1_0000_0000 && st.a.attempt < 0x1_0000_0000 && st.result <= 1
  {
    hide PInv, DiskOk, LogProduced, Ready, Produced;
    assert LinkOk(w.p, w.procs[pid]);
    assert StageOk(s, w.files, w.p.log, pid, w.procs[pid].stage);
  }
}
