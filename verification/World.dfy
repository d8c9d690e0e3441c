/** The whole system: master, log file, worker processes and directories, in every interleaving. */
module World {
  import opened Bytes
  import opened Scheduler
  import opened Recovery
  import opened Protocol
  import opened Aof
  import opened Files

  /** A worker process and its connection, if it still has one. */
  datatype Proc = Proc(link: Option<nat>, stage: Stage)

  /** `disk` is the log file byte for byte; `tail` is the part of it a torn write left at the end. */
  datatype World = World(p: Proto, disk: seq<byte>, tail: seq<byte>, files: Dir, procs: map<nat, Proc>)

  datatype Move =
    | Join(pid: nat, fd: nat, now: int)
    | Lose(pid: nat)
    | Ask(pid: nat, now: int)
    | Tell(pid: nat, now: int)
    | Work(pid: nat, act: Action)
    | Die(pid: nat)
    | SweepNow(now: int)
    | Kill(tail: seq<byte>)
    | Boot

  function Begin(s: Setup): World
    requires SetupOk(s)
  {
    World(Start(s.job), FileBytes(s.job, s.created, []), [], s.files0, map[])
  }

  predicate Linked(w: World, pid: nat) {
    pid in w.procs && w.procs[pid].link.Some?
  }

  function FdOf(w: World, pid: nat): nat
    requires Linked(w, pid)
  {
    w.procs[pid].link.value
  }

  /** What a move is to the master, if the master sees it at all. */
  function Seen(w: World, mv: Move): Option<Event> {
    match mv
    case Join(_, fd, now) => Some(Connect(fd, now))
    case Lose(pid) => if Linked(w, pid) then Some(Disconnect(FdOf(w, pid))) else None
    case Ask(pid, now) => if Linked(w, pid) then Some(Get(FdOf(w, pid), now)) else None
    case Tell(pid, now) =>
      if Linked(w, pid) && w.procs[pid].stage.Reporting?
        then Some(Report(FdOf(w, pid), w.procs[pid].stage.result, now)) else None
    case SweepNow(now) => Some(Timeouts(now))
    case Kill(tail) => Some(Crash(tail != []))
    case Boot => Some(Restart)
    case Work(_, _) => None
    case Die(_) => None
  }

  /** Every outstanding report fits the record fields. It holds in every reachable state. */
  predicate ReportsFit(p: Proto) {
    LogFits(p.log) && forall fd :: fd in p.open ==> p.open[fd].id < 0x1_0000_0000 && p.open[fd].attempt < 0x1_0000_0000
  }

  ghost predicate Allowed(s: Setup, w: World, mv: Move) {
    && ReportsFit(w.p) && Ready(w.p)
    && (Seen(w, mv).Some? && !mv.Boot? ==> Guard(w.p, Seen(w, mv).value))
    && match mv
       case Join(pid, fd, _) => pid !in w.procs
       case Lose(pid) => Linked(w, pid)
       case Ask(pid, _) => Linked(w, pid) && w.procs[pid].stage.Idle?
       case Tell(pid, _) => Linked(w, pid) && w.procs[pid].stage.Reporting?
       case Work(pid, act) => pid in w.procs && CanAct(s, pid, w.procs[pid].stage, w.files, act)
       case Die(pid) => pid in w.procs && w.procs[pid].link.None?
       case SweepNow(_) => true
       case Kill(tail) => |tail| < RECORD_SIZE
       case Boot => !w.p.up && Load(w.disk).Some?
  }

  /** The stage a worker enters on a reply. */
  function Enter(r: Reply): Stage {
    match r
    case MapResp(x, attempt, R, path) => Opening(x, attempt, path, R, 0)
    case ReduceResp(y, attempt, nMap) => Reading(y, attempt, nMap, 0, [])
    case WaitResp(_) => Idle
    case DoneResp => Exited
    case AssertionFailed => Exited
  }

  function UnlinkAll(procs: map<nat, Proc>): map<nat, Proc> {
    map pid | pid in procs :: procs[pid].(link := None)
  }

  /** How the master answers the report a process has sent. */
  function Answer(w: World, pid: nat, now: int): DoneResult
    requires Linked(w, pid) && w.procs[pid].stage.Reporting? && Ready(w.p) && FdOf(w, pid) in w.p.open
  {
    TaskDone(w.p.m, FdOf(w, pid), MsgOf(w.p.open[FdOf(w, pid)], w.procs[pid].stage.result), now)
  }

  ghost function Do(s: Setup, w: World, mv: Move): World
    requires Allowed(s, w, mv)
  {
    match mv
    case Join(pid, fd, now) =>
      w.(p := Apply(s.job, w.p, Connect(fd, now)), procs := w.procs[pid := Proc(Some(fd), Idle)])
    case Lose(pid) =>
      w.(p := Apply(s.job, w.p, Disconnect(FdOf(w, pid))), procs := w.procs[pid := w.procs[pid].(link := None)])
    case Ask(pid, now) =>
      var reply := GetTask(w.p.m, FdOf(w, pid), now).reply;
      w.(p := Apply(s.job, w.p, Get(FdOf(w, pid), now)), procs := w.procs[pid := w.procs[pid].(stage := Enter(reply))])
    case Tell(pid, now) =>
      var r := Answer(w, pid, now);
      w.(p := Apply(s.job, w.p, Seen(w, mv).value), disk := w.disk + LogBytes(r.appended),
         procs := w.procs[pid := if r.acked then w.procs[pid].(stage := Idle) else Proc(None, Exited)])
    case Work(pid, act) =>
      var l := Act(s, pid, w.procs[pid].stage, w.files, act);
      w.(files := l.files, procs := w.procs[pid := w.procs[pid].(stage := l.stage)])
    case Die(pid) => w.(procs := w.procs - {pid})
    case SweepNow(now) => w.(p := Apply(s.job, w.p, Timeouts(now)))
    case Kill(tail) =>
      w.(p := Apply(s.job, w.p, Crash(tail != [])), disk := w.disk + tail, tail := tail, procs := UnlinkAll(w.procs))
    case Boot =>
      var l := Load(w.disk).value;
      w.(p := w.p.(up := true, m := Replay(Job(l.paths, l.R, s.job.timeoutMs), l.log)))
  }

  // ----- runs -----

  ghost predicate WLegal(s: Setup, mvs: seq<Move>)
    requires SetupOk(s)
    decreases |mvs|, 0
  {
    mvs == [] || (WLegal(s, mvs[..|mvs| - 1]) && Allowed(s, WAfter(s, mvs[..|mvs| - 1]), mvs[|mvs| - 1]))
  }

  ghost function WAfter(s: Setup, mvs: seq<Move>): World
    requires SetupOk(s) && WLegal(s, mvs)
    decreases |mvs|, 1
  {
    if mvs == [] then Begin(s) else Do(s, WAfter(s, mvs[..|mvs| - 1]), mvs[|mvs| - 1])
  }

  // ----- the invariant -----

  predicate LinkOk(p: Proto, pr: Proc) {
    pr.link.Some? ==>
      && pr.link.value in p.conns
      && (if Busy(pr.stage) then pr.link.value in p.open && p.open[pr.link.value] == TaskOf(pr.stage)
          else pr.link.value !in p.open)
  }

  /** Connections belong to one process each, and the master's books name its task. */
  predicate LinksOk(p: Proto, procs: map<nat, Proc>) {
    && (forall pid :: pid in procs ==> LinkOk(p, procs[pid]))
    && (forall pid, pid' :: pid in procs && pid' in procs && pid != pid' && procs[pid].link.Some? ==>
          procs[pid].link != procs[pid'].link)
  }

  /** The log file is the job's header and records, plus at most a torn record once the master
      is down. */
  predicate DiskOk(s: Setup, w: World)
    requires SetupOk(s)
  {
    && LogFits(w.p.log) && w.disk == FileBytes(s.job, s.created, w.p.log) + w.tail
    && |w.tail| < RECORD_SIZE && (w.p.torn <==> w.tail != []) && (w.p.up ==> w.tail == [])
  }

  ghost predicate ProcsOk(s: Setup, files: Dir, log: seq<Record>, procs: map<nat, Proc>)
    requires SetupOk(s)
  {
    forall pid :: pid in procs ==> StageOk(s, files, log, pid, procs[pid].stage)
  }

  ghost predicate WInv(s: Setup, w: World)
    requires SetupOk(s)
  {
    && PInv(s.job, w.p) && DiskOk(s, w) && LinksOk(w.p, w.procs)
    && LogProduced(s, w.files, w.p.log) && ProcsOk(s, w.files, w.p.log, w.procs)
  }

  lemma LogInRange(job: Job, log: seq<Record>)
    requires LogOk(job, log)
    ensures InRange(log, |job.paths|, job.R)
  {
    forall i | 0 <= i < |log| ensures log[i].taskId < Size(job, log[i].kind) {
      LogOkPrefix(job, log, i + 1);
      assert log[..i + 1][i] == log[i];
    }
  }

  /** Restarting from the file is replaying the log; a torn file does not start. */
  lemma BootIsRestart(s: Setup, w: World)
    requires SetupOk(s) && WInv(s, w) && Allowed(s, w, Boot)
    ensures Enabled(w.p, Restart) && Do(s, w, Boot).p == Apply(s.job, w.p, Restart)
  {
    hide Load, FileBytes, Replay, LogOk, RunningOk, LinksOk, LogProduced, ProcsOk, LogFits, InRange, TasksOk;
    LogInRange(s.job, w.p.log);
    FileReadBack(s.job, s.created, w.p.log, w.tail);
    assert w.tail == [] && w.p.torn == false;
    var l := Load(w.disk).value;
    assert Job(l.paths, l.R, s.job.timeoutMs) == s.job && l.log == w.p.log;
  }

  /** The master's part of every move is a step of the protocol. */
  lemma Projects(s: Setup, w: World, mv: Move)
    requires SetupOk(s) && WInv(s, w) && Allowed(s, w, mv)
    ensures Seen(w, mv).None? ==> Do(s, w, mv).p == w.p
    ensures Seen(w, mv).Some? ==>
      var e := Seen(w, mv).value; Enabled(w.p, e) && Do(s, w, mv).p == Apply(s.job, w.p, e)
  {
    hide PInv, Load, WInv, Ready, ReportsFit, CanAct;
    if mv.Boot? {
      BootIsRestart(s, w);
      hide Apply;
    }
  }

  // ----- the log file -----

  lemma {:induction false} LogBytesAppend(a: seq<Record>, b: seq<Record>)
    requires LogFits(a) && LogFits(b)
    ensures LogFits(a + b) && LogBytes(a + b) == LogBytes(a) + LogBytes(b)
    decreases |a|
  {
    if a == [] {
      assert a + b == b;
    } else {
      assert (a + b)[1..] == a[1..] + b;
      LogBytesAppend(a[1..], b);
      hide RecordBytes;
      assert RecordBytes(a[0]) + (LogBytes(a[1..]) + LogBytes(b)) ==
        (RecordBytes(a[0]) + LogBytes(a[1..])) + LogBytes(b);
    }
  }

  lemma FileBytesAppend(s: Setup, log: seq<Record>, more: seq<Record>)
    requires SetupOk(s) && LogFits(log) && LogFits(more)
    ensures LogFits(log + more) &&
      FileBytes(s.job, s.created, log + more) == FileBytes(s.job, s.created, log) + LogBytes(more)
  {
    LogBytesAppend(log, more);
    hide HeaderBytes, JobBytes, LogBytes;
  }

  /** What a report does to the master's books. */
  lemma AppendedRecord(m: State, fd: nat, msg: DoneMsg, now: int)
    requires fd < |m.workers| && TasksOk(m)
    ensures var r := TaskDone(m, fd, msg, now);
            || r.appended == []
            || (r.appended == [Record(m.workers[fd].kind, msg.taskId, msg.attemptId)] && msg.result == 0)
  {
    hide TaskOk, Advance;
  }

  lemma TellEffect(s: Setup, w: World, pid: nat, now: int)
    requires SetupOk(s) && WInv(s, w) && Allowed(s, w, Tell(pid, now))
    ensures FdOf(w, pid) in w.p.open && w.p.open[FdOf(w, pid)] == w.procs[pid].stage.a
    ensures var p', fd, a, r := Do(s, w, Tell(pid, now)).p, FdOf(w, pid), w.procs[pid].stage.a, Answer(w, pid, now);
            && p'.log == w.p.log + r.appended && p'.up == w.p.up && p'.torn == w.p.torn
            && p'.open == w.p.open - {fd} && p'.conns == (if r.acked then w.p.conns else w.p.conns - {fd})
            && (r.appended == [] || (r.appended == [Record(a.kind, a.id, a.attempt)] && w.procs[pid].stage.result == 0))
  {
    hide LogProduced, ProcsOk, DiskOk, TaskOk, Agrees, IssuedOk, LogOk, Inv, TaskDone, ReportsFit, LogBytes;
    assert LinkOk(w.p, w.procs[pid]);
    var fd := FdOf(w, pid);
    assert Held(w.p.m, fd, w.p.open[fd]);
    AppendedRecord(w.p.m, fd, MsgOf(w.p.open[fd], w.procs[pid].stage.result), now);
    assert w.p.open - {fd} - {fd} == w.p.open - {fd};
  }

  lemma TellDiskOk(s: Setup, w: World, pid: nat, now: int)
    requires SetupOk(s) && WInv(s, w) && Allowed(s, w, Tell(pid, now))
    ensures DiskOk(s, Do(s, w, Tell(pid, now)))
  {
    hide PInv, LinksOk, LogProduced, ProcsOk, FileBytes, LogBytes, Apply, Answer, Load, LinkOk, LogFits;
    TellEffect(s, w, pid, now);
    var r := Answer(w, pid, now);
    RecordsFit(r.appended);
    FileBytesAppend(s, w.p.log, r.appended);
    var file := FileBytes(s.job, s.created, w.p.log);
    assert w.disk + LogBytes(r.appended) == file + LogBytes(r.appended) + [];
  }

  lemma RecordsFit(rs: seq<Record>)
    requires rs == [] || (|rs| == 1 && RecordFits(rs[0]))
    ensures LogFits(rs)
  {
  }

  /** Moves other than reports and kills leave the log file alone. */
  lemma DiskUntouched(s: Setup, w: World, mv: Move)
    requires Allowed(s, w, mv) && !mv.Tell? && !mv.Kill?
    ensures var w' := Do(s, w, mv);
            && w'.disk == w.disk && w'.tail == w.tail && w'.p.log == w.p.log && w'.p.torn == w.p.torn
            && (w'.p.up ==> w.p.up || mv.Boot?)
  {
    hide CanAct, Act, Load, GetTask, Sweep, Replay, LogFits, Ready;
  }

  lemma DiskStaysOk(s: Setup, w: World, mv: Move)
    requires SetupOk(s) && WInv(s, w) && Allowed(s, w, mv)
    ensures DiskOk(s, Do(s, w, mv))
  {
    hide PInv, LinksOk, LogProduced, ProcsOk, FileBytes, LogBytes, Load, LogFits, Do, Allowed, Ready;
    if mv.Tell? {
      TellDiskOk(s, w, mv.pid, mv.now);
    } else if mv.Kill? {
      KillDiskOk(s, w, mv.tail);
    } else {
      DiskUntouched(s, w, mv);
      if mv.Boot? {
        BootIsRestart(s, w);
      }
    }
  }

  lemma KillDiskOk(s: Setup, w: World, tail: seq<byte>)
    requires SetupOk(s) && WInv(s, w) && Allowed(s, w, Kill(tail))
    ensures DiskOk(s, Do(s, w, Kill(tail)))
  {
    hide PInv, LinksOk, LogProduced, ProcsOk, FileBytes, Load, LogFits, Ready;
    var file := FileBytes(s.job, s.created, w.p.log);
    assert file + [] + tail == file + tail;
  }

  // ----- connections -----

  /** The books agree on every connection but fd. */
  ghost predicate SameElsewhere(p: Proto, p': Proto, fd: nat) {
    && (forall f :: f in p.conns && f != fd ==> f in p'.conns)
    && (forall f :: f != fd ==> (f in p.open <==> f in p'.open))
    && (forall f :: f in p.open && f != fd ==> p'.open[f] == p.open[f])
  }

  lemma Relink(p: Proto, p': Proto, procs: map<nat, Proc>, pid: nat, pr: Proc, fd: nat)
    requires LinksOk(p, procs) && SameElsewhere(p, p', fd) && LinkOk(p', pr)
    requires pr.link.None? || pr.link == Some(fd)
    requires forall other :: other in procs && other != pid ==> procs[other].link != Some(fd)
    ensures LinksOk(p', procs[pid := pr])
  {
    forall other | other in procs && other != pid ensures LinkOk(p', procs[other]) {
      assert LinkOk(p, procs[other]);
    }
  }

  lemma AskEffect(job: Job, p: Proto, fd: nat, now: int)
    requires PInv(job, p) && Enabled(p, Get(fd, now))
    ensures var p', st := HandleGet(p, fd, now), Enter(GetTask(p.m, fd, now).reply);
            && SameElsewhere(p, p', fd) && p'.log == p.log && p'.conns == p.conns
            && (Busy(st) ==> fd in p'.open && p'.open[fd] == TaskOf(st))
            && (!Busy(st) ==> fd !in p'.open)
  {
    hide PInv, GetTask;
  }

  lemma LinksStayOk(s: Setup, w: World, mv: Move)
    requires SetupOk(s) && WInv(s, w) && Allowed(s, w, mv)
    ensures LinksOk(Do(s, w, mv).p, Do(s, w, mv).procs)
  {
    match mv {
      case Join(pid, fd, now) => JoinLinks(s, w, pid, fd, now);
      case Lose(pid) => LoseLinks(s, w, pid);
      case Ask(pid, now) => AskLinks(s, w, pid, now);
      case Tell(pid, now) => TellLinks(s, w, pid, now);
      case Work(pid, act) => WorkLinks(s, w, pid, act);
      case Die(pid) => FewerLinks(w.p, w.procs, w.procs - {pid});
      case SweepNow(now) => SweepLinks(s, w, now);
      case Kill(tail) => NoLinks(Do(s, w, mv).p, w.procs);
      case Boot => SameBooks(w.p, Do(s, w, mv).p, w.procs);
    }
    hide PInv, LogProduced, ProcsOk, DiskOk, LinksOk, Load, Ready, ReportsFit, CanAct;
  }

  lemma FewerLinks(p: Proto, procs: map<nat, Proc>, procs': map<nat, Proc>)
    requires LinksOk(p, procs) && forall pid :: pid in procs' ==> pid in procs && procs'[pid] == procs[pid]
    ensures LinksOk(p, procs')
  {
    hide LinkOk;
  }

  lemma NoLinks(p: Proto, procs: map<nat, Proc>)
    ensures LinksOk(p, UnlinkAll(procs))
  {
  }

  lemma SameBooks(p: Proto, p': Proto, procs: map<nat, Proc>)
    requires LinksOk(p, procs) && p'.conns == p.conns && p'.open == p.open
    ensures LinksOk(p', procs)
  {
    forall pid | pid in procs ensures LinkOk(p', procs[pid]) {
      assert LinkOk(p, procs[pid]);
    }
  }

  lemma SweepLinks(s: Setup, w: World, now: int)
    requires SetupOk(s) && WInv(s, w) && Allowed(s, w, SweepNow(now))
    ensures LinksOk(Do(s, w, SweepNow(now)).p, w.procs)
  {
    hide PInv, LogProduced, ProcsOk, DiskOk, LinksOk, Sweep;
    SameBooks(w.p, Do(s, w, SweepNow(now)).p, w.procs);
  }

  lemma JoinLinks(s: Setup, w: World, pid: nat, fd: nat, now: int)
    requires SetupOk(s) && WInv(s, w) && Allowed(s, w, Join(pid, fd, now))
    ensures var w' := Do(s, w, Join(pid, fd, now)); LinksOk(w'.p, w'.procs)
  {
    assert OpenOk(w.p.m, w.p.conns, w.p.open);
    hide PInv, LogProduced, ProcsOk, DiskOk, Held, OnConnect;
    forall other | other in w.procs ensures w.procs[other].link != Some(fd) {
      assert LinkOk(w.p, w.procs[other]);
    }
    Relink(w.p, Do(s, w, Join(pid, fd, now)).p, w.procs, pid, Proc(Some(fd), Idle), fd);
  }

  lemma OnlyOwner(p: Proto, procs: map<nat, Proc>, pid: nat)
    requires LinksOk(p, procs) && pid in procs
    ensures LinkOk(p, procs[pid])
    ensures procs[pid].link.Some? ==> forall other :: other in procs && other != pid ==>
      procs[other].link != procs[pid].link
  {
  }

  lemma LoseLinks(s: Setup, w: World, pid: nat)
    requires SetupOk(s) && WInv(s, w) && Allowed(s, w, Lose(pid))
    ensures var w' := Do(s, w, Lose(pid)); LinksOk(w'.p, w'.procs)
  {
    hide PInv, LogProduced, ProcsOk, DiskOk, LinksOk, LinkOk, OnDisconnect, Ready, ReportsFit, Load, CanAct;
    OnlyOwner(w.p, w.procs, pid);
    Unlinked(Do(s, w, Lose(pid)).p, w.procs[pid].stage);
    Relink(w.p, Do(s, w, Lose(pid)).p, w.procs, pid, w.procs[pid].(link := None), FdOf(w, pid));
  }

  lemma Unlinked(p: Proto, st: Stage)
    ensures LinkOk(p, Proc(None, st))
  {
  }

  lemma AskLinks(s: Setup, w: World, pid: nat, now: int)
    requires SetupOk(s) && WInv(s, w) && Allowed(s, w, Ask(pid, now))
    ensures var w' := Do(s, w, Ask(pid, now)); LinksOk(w'.p, w'.procs)
  {
    hide PInv, LogProduced, ProcsOk, DiskOk, LinksOk, HandleGet, GetTask, Ready, ReportsFit, Load, CanAct;
    OnlyOwner(w.p, w.procs, pid);
    AskEffect(s.job, w.p, FdOf(w, pid), now);
    var w' := Do(s, w, Ask(pid, now));
    Relink(w.p, w'.p, w.procs, pid, w'.procs[pid], FdOf(w, pid));
  }

  lemma TellLinks(s: Setup, w: World, pid: nat, now: int)
    requires SetupOk(s) && WInv(s, w) && Allowed(s, w, Tell(pid, now))
    ensures var w' := Do(s, w, Tell(pid, now)); LinksOk(w'.p, w'.procs)
  {
    hide PInv, LogProduced, ProcsOk, DiskOk, LinksOk, Apply, Answer, Ready, ReportsFit, Load, CanAct, LogBytes, LogFits;
    OnlyOwner(w.p, w.procs, pid);
    TellEffect(s, w, pid, now);
    var w' := Do(s, w, Tell(pid, now));
    Relink(w.p, w'.p, w.procs, pid, w'.procs[pid], FdOf(w, pid));
  }

  lemma WorkLinks(s: Setup, w: World, pid: nat, act: Action)
    requires SetupOk(s) && WInv(s, w) && Allowed(s, w, Work(pid, act))
    ensures var w' := Do(s, w, Work(pid, act)); LinksOk(w'.p, w'.procs)
  {
    hide PInv, LogProduced, ProcsOk, DiskOk, LinksOk, Act, CanAct, Ready, ReportsFit, Load, TaskOf, Busy, Grows,
      StageOk;
    WorkStage(s, w, pid, act);
    var w' := Do(s, w, Work(pid, act));
    SameTask(w.p, w.procs, pid, w'.procs[pid]);
  }

  lemma WorkStage(s: Setup, w: World, pid: nat, act: Action)
    requires SetupOk(s) && WInv(s, w) && Allowed(s, w, Work(pid, act))
    ensures var l, st := Act(s, pid, w.procs[pid].stage, w.files, act), w.procs[pid].stage;
            && Grows(s, w.files, l.files, pid) && StageOk(s, l.files, w.p.log, pid, l.stage)
            && Busy(l.stage) && Busy(st) && TaskOf(l.stage) == TaskOf(st)
  {
    hide PInv, LogProduced, DiskOk, LinksOk, Act, CanAct, Ready, ReportsFit, Load, TaskOf, Busy, Grows, StageOk;
    ActOk(s, pid, w.procs[pid].stage, w.files, w.p.log, act);
  }

  lemma SameTask(p: Proto, procs: map<nat, Proc>, pid: nat, pr: Proc)
    requires LinksOk(p, procs) && pid in procs && pr.link == procs[pid].link
    requires Busy(pr.stage) && Busy(procs[pid].stage) && TaskOf(pr.stage) == TaskOf(procs[pid].stage)
    ensures LinksOk(p, procs[pid := pr])
  {
    hide TaskOf, Busy;
  }

  // ----- files -----

  lemma AllMapsLoggedMore(job: Job, log: seq<Record>, more: seq<Record>)
    requires AllMapsLogged(job, log)
    ensures AllMapsLogged(job, log + more)
  {
    assert (log + more)[..|log|] == log && (log + more)[..|log + more|] == log + more;
    forall x | 0 <= x < |job.paths| ensures Logged(log + more, MapTask, x) {
      LoggedLater(log + more, |log|, |log + more|, MapTask, x);
    }
  }

  lemma StageOkMore(s: Setup, files: Dir, log: seq<Record>, more: seq<Record>, pid: nat, st: Stage)
    requires SetupOk(s) && StageOk(s, files, log, pid, st)
    ensures StageOk(s, files, log + more, pid, st)
  {
    if st.Reading? {
      AllMapsLoggedMore(s.job, log, more);
    }
    hide AllMapsLogged, Produced, OutputOk, InterOk, Tmp;
  }

  lemma ReplyFacts(job: Job, p: Proto, fd: nat, now: int)
    requires JobOk(job) && PInv(job, p) && Enabled(p, Get(fd, now))
    ensures var r := GetTask(p.m, fd, now).reply;
            && (r.MapResp? || r.ReduceResp? ==> 1 <= r.attemptId <= MAX_ATTEMPTS)
            && (r.MapResp? ==> r.taskId < |job.paths| && r.nReduce == job.R && r.path == job.paths[r.taskId])
            && (r.ReduceResp? ==> r.taskId < job.R && r.nMap == |job.paths| && p.m.phase.JobReduce?)
  {
    if !Terminal(p.m.phase) {
      var kind := PhaseKind(p.m.phase);
      var i := FirstPending(Tasks(p.m, kind), 0);
      if i < |Tasks(p.m, kind)| {
        assert TaskOk(Tasks(p.m, kind)[i]);
        assert Agrees(job, p.m, p.log);
      }
    }
    hide PInv, Sum, Logged;
  }

  /** A worker starts on what the master's tables say, and a reduce only when every map is logged. */
  lemma EnterOk(s: Setup, files: Dir, p: Proto, pid: nat, fd: nat, now: int)
    requires SetupOk(s) && PInv(s.job, p) && Enabled(p, Get(fd, now))
    ensures StageOk(s, files, p.log, pid, Enter(GetTask(p.m, fd, now).reply))
  {
    hide PInv, GetTask, AllMapsLogged;
    ReplyFacts(s.job, p, fd, now);
    if p.m.phase.JobReduce? {
      MapsLoggedInReduce(s.job, p);
    }
  }

  lemma MapsLoggedInReduce(job: Job, p: Proto)
    requires PInv(job, p) && p.up && p.m.phase.JobReduce?
    ensures AllMapsLogged(job, p.log)
  {
    DoneFull(p.m.maps);
    hide TaskOk, Sum, Logged;
  }

  lemma TellFiles(s: Setup, w: World, pid: nat, now: int)
    requires SetupOk(s) && WInv(s, w) && Allowed(s, w, Tell(pid, now))
    ensures var w' := Do(s, w, Tell(pid, now));
            LogProduced(s, w'.files, w'.p.log) && ProcsOk(s, w'.files, w'.p.log, w'.procs)
  {
    hide PInv, DiskOk, LinksOk, Apply, Answer, Ready, ReportsFit, Load, CanAct, LogBytes, LogFits;
    TellEffect(s, w, pid, now);
    var more := Answer(w, pid, now).appended;
    assert StageOk(s, w.files, w.p.log, pid, w.procs[pid].stage);
    forall other | other in w.procs ensures StageOk(s, w.files, w.p.log + more, other, w.procs[other].stage) {
      StageOkMore(s, w.files, w.p.log, more, other, w.procs[other].stage);
    }
    hide Produced;
  }

  lemma WorkFiles(s: Setup, w: World, pid: nat, act: Action)
    requires SetupOk(s) && WInv(s, w) && Allowed(s, w, Work(pid, act))
    ensures var w' := Do(s, w, Work(pid, act));
            LogProduced(s, w'.files, w'.p.log) && ProcsOk(s, w'.files, w'.p.log, w'.procs)
  {
    hide PInv, DiskOk, LinksOk, Act, CanAct, Ready, ReportsFit, Load, LogProduced, StageOk, Grows;
    WorkStage(s, w, pid, act);
    var files' := Act(s, pid, w.procs[pid].stage, w.files, act).files;
    GrowsLogProduced(s, w.files, files', pid, w.p.log);
    forall other | other in w.procs && other != pid ensures StageOk(s, files', w.p.log, other, w.procs[other].stage) {
      GrowsStageOk(s, w.files, files', pid, w.p.log, other, w.procs[other].stage);
    }
  }

  lemma AskFiles(s: Setup, w: World, pid: nat, now: int)
    requires SetupOk(s) && WInv(s, w) && Allowed(s, w, Ask(pid, now))
    ensures var w' := Do(s, w, Ask(pid, now));
            LogProduced(s, w'.files, w'.p.log) && ProcsOk(s, w'.files, w'.p.log, w'.procs)
  {
    hide PInv, DiskOk, LinksOk, Act, CanAct, Ready, ReportsFit, Load, LogProduced, StageOk, HandleGet, GetTask;
    AskEffect(s.job, w.p, FdOf(w, pid), now);
    EnterOk(s, w.files, w.p, pid, FdOf(w, pid), now);
  }

  /** Moves that touch neither files nor the log, and leave every stage as it was. */
  lemma QuietMove(s: Setup, w: World, mv: Move)
    requires Allowed(s, w, mv) && !mv.Ask? && !mv.Tell? && !mv.Work?
    ensures var w' := Do(s, w, mv);
            && w'.files == w.files && w'.p.log == w.p.log
            && forall pid :: pid in w'.procs ==>
              w'.procs[pid].stage.Idle? || (pid in w.procs && w'.procs[pid].stage == w.procs[pid].stage)
  {
    if !mv.Kill? {
      DiskUntouched(s, w, mv);
    }
    hide CanAct, Ready, ReportsFit, Load, LogFits, GetTask, Sweep, Replay;
  }

  lemma QuietFiles(s: Setup, w: World, mv: Move)
    requires SetupOk(s) && WInv(s, w) && Allowed(s, w, mv) && !mv.Ask? && !mv.Tell? && !mv.Work?
    ensures var w' := Do(s, w, mv);
            LogProduced(s, w'.files, w'.p.log) && ProcsOk(s, w'.files, w'.p.log, w'.procs)
  {
    hide PInv, DiskOk, LinksOk, LogProduced, Do, Allowed, AllMapsLogged, Produced, OutputOk, InterOk, Tmp;
    QuietMove(s, w, mv);
  }

  /** No move breaks the invariant, but for a misfired report. */
  lemma MoveKeepsWInv(s: Setup, w: World, mv: Move)
    requires SetupOk(s) && WInv(s, w) && Allowed(s, w, mv)
    requires Seen(w, mv).Some? ==> !Misfire(w.p, Seen(w, mv).value)
    ensures WInv(s, Do(s, w, mv))
  {
    hide PInv, DiskOk, LinksOk, LogProduced, ProcsOk, Allowed, Do, Misfire, Seen;
    Projects(s, w, mv);
    if Seen(w, mv).Some? {
      StepKeepsPInv(s.job, w.p, Seen(w, mv).value);
    }
    DiskStaysOk(s, w, mv);
    LinksStayOk(s, w, mv);
    match mv {
      case Ask(pid, now) => AskFiles(s, w, pid, now);
      case Tell(pid, now) => TellFiles(s, w, pid, now);
      case Work(pid, act) => WorkFiles(s, w, pid, act);
      case _ => QuietFiles(s, w, mv);
    }
  }
}
