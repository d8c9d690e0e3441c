/** What each event does to the master's tables and to a worker, field by field. */
module Effects {
  import opened Bytes
  import opened Scheduler
  import opened Recovery
  import opened Protocol
  import opened Guarantees
  import opened Aof
  import opened Files
  import opened World
  import opened EndToEnd

  /** No slot but one changes, and no table changes its size. */
  predicate OnlySlot(m: State, m': State, kind: Kind, i: nat) {
    && |m'.maps| == |m.maps| && |m'.reduces| == |m.reduces| && m'.timeoutMs == m.timeoutMs
    && (forall j :: 0 <= j < |m.maps| && !(kind.MapTask? && j == i) ==> m'.maps[j] == m.maps[j])
    && (forall j :: 0 <= j < |m.reduces| && !(kind.ReduceTask? && j == i) ==> m'.reduces[j] == m.reduces[j])
  }

  // ----- requests -----

  /** A request is answered with the lowest pending slot of the phase, and the tables record the new
      attempt: its number, its owner, its start. */
  lemma AssignmentRecorded(job: Job, p: Proto, fd: nat, now: int, i: nat)
    requires PInv(job, p) && Enabled(p, Get(fd, now)) && !Terminal(p.m.phase)
    requires var ts := Tasks(p.m, PhaseKind(p.m.phase));
             i < |ts| && ts[i].state.Pending? && forall j :: 0 <= j < i ==> !ts[j].state.Pending?
    ensures var p', kind := Apply(job, p, Get(fd, now)), PhaseKind(p.m.phase);
            && OnlySlot(p.m, p'.m, kind, i)
            && var t, t' := Tasks(p.m, kind)[i], Tasks(p'.m, kind)[i];
            && t'.state.InProgress? && t'.attempt == t.attempt + 1 && t'.attempts == t.attempts + 1 <= MAX_ATTEMPTS
            && t'.owner == fd && t'.startedAt == now && t'.path == t.path
            && |t.history| == MAX_ATTEMPTS
            && t'.history == t.history[t.attempts := Attempt(t.attempt + 1, fd, now, 0, Running)]
            && p'.m.workers == p.m.workers[fd := Worker(p.m.workers[fd].connectedAt, true, kind, i, t.attempt + 1)]
            && p'.m.mapsDone == p.m.mapsDone && p'.m.reducesDone == p.m.reducesDone && p'.m.phase == p.m.phase
            && p'.log == p.log && p'.conns == p.conns && p'.open == p.open[fd := Assignment(kind, i, t.attempt + 1)]
            && GetTask(p.m, fd, now).reply ==
               if kind.MapTask? then MapResp(i, t.attempt + 1, |p.m.reduces|, t.path)
               else ReduceResp(i, t.attempt + 1, |p.m.maps|)
  {
    hide Sum, Agrees, IssuedOk, LogOk, OpenOk;
    var ts := Tasks(p.m, PhaseKind(p.m.phase));
    assert FirstPending(ts, 0) == i;
    assert TaskOk(ts[i]);
    hide TaskOk, Inv;
  }

  /** When nothing is pending, the request changes nothing: the worker is told to wait half the timeout
      while the phase runs, and that the job is over once it is. */
  lemma NothingToGive(job: Job, p: Proto, fd: nat, now: int)
    requires PInv(job, p) && Enabled(p, Get(fd, now))
    requires Terminal(p.m.phase) || forall t :: t in Tasks(p.m, PhaseKind(p.m.phase)) ==> !t.state.Pending?
    ensures Apply(job, p, Get(fd, now)) == p
    ensures var r := GetTask(p.m, fd, now).reply;
            if Terminal(p.m.phase) then r == DoneResp
            else r.WaitResp? && 2 * r.waitMs <= p.m.timeoutMs < 2 * r.waitMs + 2
  {
    hide Agrees, IssuedOk, LogOk, OpenOk, TaskOk, Sum;
  }

  // ----- reports -----

  /** The report is about a slot of the phase and names its latest attempt. */
  predicate Latest(p: Proto, fd: nat) {
    && fd in p.open && !Terminal(p.m.phase) && p.open[fd].kind == PhaseKind(p.m.phase)
    && p.open[fd].id < |Tasks(p.m, p.open[fd].kind)| && p.open[fd].attempt == SlotOf(p, fd).attempt
  }

  /** What every report on the latest attempt leaves alone, and what it says of the connection. */
  predicate Reported(p: Proto, p': Proto, fd: nat)
    requires fd in p.open && fd < |p.m.workers|
  {
    && OnlySlot(p.m, p'.m, p.open[fd].kind, p.open[fd].id)
    && p'.m.workers == p.m.workers[fd := p.m.workers[fd].(hasTask := false)]
    && p'.conns == p.conns && p'.open == p.open - {fd} && p'.up == p.up
  }

  lemma LatestFacts(job: Job, p: Proto, fd: nat, result: nat, now: int)
    requires PInv(job, p) && Enabled(p, Report(fd, result, now)) && Latest(p, fd)
    ensures var msg, t := MsgOf(p.open[fd], result), SlotOf(p, fd);
            && fd < |p.m.workers| == MAX_FDS && p.m.workers[fd].taskId == p.open[fd].id
            && p.m.workers[fd].kind == p.open[fd].kind && !Outside(p.m, fd, msg)
            && !Stale(p.m, fd, msg) && !HitsCompleted(p.m, fd, msg)
            && |t.history| == MAX_ATTEMPTS && 1 <= t.attempts == t.attempt <= MAX_ATTEMPTS
  {
    hide Sum, Agrees, IssuedOk, LogOk;
    assert Held(p.m, fd, p.open[fd]);
    ReportInside(job, p, fd, result, now);
    assert TaskOk(SlotOf(p, fd));
  }

  /** A success on the latest attempt completes its slot, closes the attempt as succeeded, counts and
      logs it, and moves the phase exactly when it was the last of its kind. */
  lemma SuccessRecorded(job: Job, p: Proto, fd: nat, now: int)
    requires PInv(job, p) && Enabled(p, Report(fd, 0, now)) && Latest(p, fd)
    ensures fd < |p.m.workers| && Reported(p, Apply(job, p, Report(fd, 0, now)), fd)
    ensures var p', a, t := Apply(job, p, Report(fd, 0, now)), p.open[fd], SlotOf(p, fd);
            && |t.history| == MAX_ATTEMPTS && 1 <= t.attempts <= MAX_ATTEMPTS
            && Tasks(p'.m, a.kind)[a.id] ==
               Task(Completed, t.attempt, t.attempts, -1, t.startedAt, t.path,
                    t.history[t.attempts - 1 := Attempt(t.attempt, fd, 0, now, Succeeded)])
            && p'.log == p.log + [Record(a.kind, a.id, a.attempt)]
            && p'.m.mapsDone == p.m.mapsDone + (if a.kind.MapTask? then 1 else 0)
            && p'.m.reducesDone == p.m.reducesDone + (if a.kind.ReduceTask? then 1 else 0)
            && p'.m.phase == (if a.kind.MapTask? && p'.m.mapsDone == |p.m.maps| then JobReduce
                              else if a.kind.ReduceTask? && p'.m.reducesDone == |p.m.reduces| then JobDone
                              else p.m.phase)
  {
    hide Agrees, IssuedOk, LogOk, OpenOk;
    LatestFacts(job, p, fd, 0, now);
    NoReduceYet(p.m);
    hide TaskOk, Sum, Inv;
  }

  lemma NoReduceYet(m: State)
    requires Inv(m)
    ensures m.phase.JobMap? ==> m.reducesDone < |m.reduces|
  {
    DoneFull(m.reduces);
    hide TaskOk, Sum;
    if m.phase.JobMap? {
      assert m.reduces[0].state.Pending?;
    }
  }

  /** A failure of the latest attempt closes it as failed; the slot is pending again, or failed for good
      together with the job when it was the third. */
  lemma FailureRecorded(job: Job, p: Proto, fd: nat, result: nat, now: int)
    requires PInv(job, p) && Enabled(p, Report(fd, result, now)) && Latest(p, fd) && result != 0
    ensures fd < |p.m.workers| && Reported(p, Apply(job, p, Report(fd, result, now)), fd)
    ensures var p', a, t := Apply(job, p, Report(fd, result, now)), p.open[fd], SlotOf(p, fd);
            && |t.history| == MAX_ATTEMPTS && 1 <= t.attempts <= MAX_ATTEMPTS
            && Tasks(p'.m, a.kind)[a.id] ==
               Task(if t.attempts == 3 then Failed else Pending, t.attempt, t.attempts, -1, t.startedAt, t.path,
                    t.history[t.attempts - 1 := Attempt(t.attempt, fd, 0, now, ReportedFailure)])
            && p'.log == p.log && p'.m.mapsDone == p.m.mapsDone && p'.m.reducesDone == p.m.reducesDone
            && p'.m.phase == (if t.attempts == 3 then JobFailed else p.m.phase)
  {
    hide Agrees, IssuedOk, LogOk, OpenOk;
    LatestFacts(job, p, fd, result, now);
    hide TaskOk, Sum, Inv;
    assert p.log + [] == p.log;
  }

  /** In a terminal phase a report is not acknowledged: the connection is dropped, and that is all. */
  lemma ReportWhenOver(job: Job, p: Proto, fd: nat, result: nat, now: int)
    requires PInv(job, p) && Enabled(p, Report(fd, result, now)) && Terminal(p.m.phase)
    ensures fd < |p.m.workers|
    ensures Apply(job, p, Report(fd, result, now)) ==
            p.(m := p.m.(workers := p.m.workers[fd := Worker(0, false, MapTask, 0, 0)]), conns := p.conns - {fd},
               open := p.open - {fd})
  {
    hide PInv, TaskOk;
    assert p.log + [] == p.log;
    assert p.open - {fd} - {fd} == p.open - {fd};
  }

  // ----- connections -----

  /** Connecting and disconnecting clear the books of the connection and touch nothing else. */
  lemma ConnectionRecorded(job: Job, p: Proto, fd: nat, now: int)
    ensures Enabled(p, Connect(fd, now)) ==>
              fd < |p.m.workers| &&
              Apply(job, p, Connect(fd, now)) ==
              p.(m := p.m.(workers := p.m.workers[fd := Worker(now, false, MapTask, 0, 0)]), conns := p.conns + {fd})
    ensures Enabled(p, Disconnect(fd)) ==>
              fd < |p.m.workers| &&
              Apply(job, p, Disconnect(fd)) ==
              p.(m := p.m.(workers := p.m.workers[fd := Worker(0, false, MapTask, 0, 0)]), conns := p.conns - {fd},
                 open := p.open - {fd})
  {
    hide TaskOk;
  }

  // ----- restarts -----

  /** A slot that was never assigned in this life of the master. */
  function NewSlot(path: Path, done: bool): Task {
    var unused := Attempt(0, 0, 0, 0, Running);
    Task(if done then Completed else Pending, 0, 0, -1, 0, path, [unused, unused, unused])
  }

  /** A restart keeps the log and rebuilds the tables from it: a slot is completed exactly when the log
      has its record, all else is as new, and the phase is the one the completions call for. */
  lemma RestartRecorded(job: Job, p: Proto)
    requires JobOk(job) && PInv(job, p) && Enabled(p, Restart)
    ensures var p' := Apply(job, p, Restart); var m := p'.m;
            && p' == p.(up := true, m := m) && m.timeoutMs == job.timeoutMs
            && |m.maps| == |job.paths| && |m.reduces| == job.R && |m.workers| == 1024
            && (forall x :: 0 <= x < |m.maps| ==> m.maps[x] == NewSlot(job.paths[x], Logged(p.log, MapTask, x)))
            && (forall y :: 0 <= y < |m.reduces| ==> m.reduces[y] == NewSlot([], Logged(p.log, ReduceTask, y)))
            && (forall fd :: 0 <= fd < |m.workers| ==> m.workers[fd] == Worker(0, false, MapTask, 0, 0))
            && m.phase == (if !AllMapsLogged(job, p.log) then JobMap
                           else if AllReducesLogged(job, p.log) then JobDone else JobReduce)
  {
    hide LogOk, Marked, Logged, TaskOk, Agrees, IssuedOk, OpenOk;
    MarkedHasForm(job, p.log);
    var s := Marked(job, p.log);
    RestartPhase(job, p.log, s);
  }

  predicate AllReducesLogged(job: Job, log: seq<Record>) {
    forall y :: 0 <= y < job.R ==> Logged(log, ReduceTask, y)
  }

  lemma RestartPhase(job: Job, log: seq<Record>, s: State)
    requires JobOk(job) && LogOk(job, log) && MarkedForm(job, log, s) && CountsOk(s)
    ensures s.mapsDone == |s.maps| <==> AllMapsLogged(job, log)
    ensures s.reducesDone == |s.reduces| <==> AllReducesLogged(job, log)
    ensures Advance(s).phase == (if !AllMapsLogged(job, log) then JobMap
                                 else if AllReducesLogged(job, log) then JobDone else JobReduce)
  {
    DoneFull(s.maps);
    DoneFull(s.reduces);
    hide LogOk, Logged, Sum;
    forall x | 0 <= x < |s.maps| ensures s.maps[x].state.Completed? <==> Logged(log, MapTask, x) {
    }
    forall y | 0 <= y < |s.reduces| ensures s.reduces[y].state.Completed? <==> Logged(log, ReduceTask, y) {
    }
  }

  // ----- timeouts -----

  /** The running attempt of the slot is older than the timeout. */
  predicate Overdue(t: Task, now: int, timeoutMs: int) {
    t.state == InProgress && t.startedAt + timeoutMs < now
  }

  /** A slot in front of j is overdue on its third attempt; the sweep stops there. */
  predicate Stopped(ts: seq<Task>, i: nat, j: nat, now: int, timeoutMs: int)
    requires i <= j <= |ts|
  {
    exists k :: i <= k < j && Overdue(ts[k], now, timeoutMs) && ts[k].attempts == 3
  }

  function TimedOutSlot(t: Task, now: int): Task
    requires |t.history| == MAX_ATTEMPTS && 1 <= t.attempts <= MAX_ATTEMPTS
  {
    Task(if t.attempts == 3 then Failed else Pending, t.attempt, t.attempts, -1, t.startedAt, t.path,
         t.history[t.attempts - 1 := Attempt(t.attempt, t.owner, 0, now, TimedOut)])
  }

  /** A slot of the swept table is timed out if it was overdue and the sweep got to it, and as it was
      otherwise. */
  predicate SweptRight(ts: seq<Task>, ts': seq<Task>, j: nat, now: int, timeoutMs: int)
    requires j < |ts| == |ts'|
  {
    && |ts[j].history| == MAX_ATTEMPTS && (Overdue(ts[j], now, timeoutMs) ==> 1 <= ts[j].attempts <= MAX_ATTEMPTS)
    && ts'[j] == if Overdue(ts[j], now, timeoutMs) && !Stopped(ts, 0, j, now, timeoutMs)
                 then TimedOutSlot(ts[j], now) else ts[j]
  }

  lemma {:induction false} SweepSlot(ts: seq<Task>, i: nat, now: int, timeoutMs: int, j: nat)
    requires i <= j < |ts| && AllOk(ts)
    ensures var r := SweepTasks(ts, i, now, timeoutMs);
            && |ts[j].history| == MAX_ATTEMPTS
            && (Overdue(ts[j], now, timeoutMs) ==> 1 <= ts[j].attempts <= MAX_ATTEMPTS)
            && r[j] == if Overdue(ts[j], now, timeoutMs) && !Stopped(ts, i, j, now, timeoutMs)
                       then TimedOutSlot(ts[j], now) else ts[j]
    decreases |ts| - i
  {
    SlotFacts(ts[i]);
    SlotFacts(ts[j]);
    SweepStep(ts, i, now, timeoutMs);
    hide TaskOk, SweepTasks;
    if !Expired(ts[i], now, timeoutMs) {
      if i < j {
        SweepSlot(ts, i + 1, now, timeoutMs, j);
        StoppedNext(ts, i, j, now, timeoutMs);
      } else {
        SweepBehind(ts, i + 1, now, timeoutMs, j);
      }
    } else {
      var t := EndAttempt(ts[i], TimedOut, ts[i].owner, now);
      var us := ts[i := t];
      if t.state.Failed? {
        assert i < j ==> Stopped(ts, i, j, now, timeoutMs);
      } else if i < j {
        SweepSlot(us, i + 1, now, timeoutMs, j);
        StoppedNext(ts, i, j, now, timeoutMs);
        StoppedBehind(ts, us, i + 1, j, now, timeoutMs);
      } else {
        SweepBehind(us, i + 1, now, timeoutMs, j);
      }
    }
  }

  lemma StoppedBehind(ts: seq<Task>, us: seq<Task>, i: nat, j: nat, now: int, timeoutMs: int)
    requires i <= j <= |ts| == |us| && forall k :: i <= k < j ==> us[k] == ts[k]
    ensures Stopped(us, i, j, now, timeoutMs) <==> Stopped(ts, i, j, now, timeoutMs)
  {
  }

  /** One slot of the sweep. */
  lemma SweepStep(ts: seq<Task>, i: nat, now: int, timeoutMs: int)
    requires i < |ts| && AllOk(ts)
    ensures Expired(ts[i], now, timeoutMs) ==>
              && |ts[i].history| == MAX_ATTEMPTS && 1 <= ts[i].attempts <= MAX_ATTEMPTS
              && AllOk(ts[i := EndAttempt(ts[i], TimedOut, ts[i].owner, now)])
    ensures SweepTasks(ts, i, now, timeoutMs) ==
            if !Expired(ts[i], now, timeoutMs) then SweepTasks(ts, i + 1, now, timeoutMs)
            else
              var t := EndAttempt(ts[i], TimedOut, ts[i].owner, now);
              if t.state.Failed? then ts[i := t] else SweepTasks(ts[i := t], i + 1, now, timeoutMs)
  {
    SlotFacts(ts[i]);
    if Expired(ts[i], now, timeoutMs) {
      SweptOnce(ts, i, now);
    }
    hide TaskOk;
  }

  lemma SlotFacts(t: Task)
    requires TaskOk(t)
    ensures |t.history| == MAX_ATTEMPTS && (t.state.InProgress? ==> 1 <= t.attempts <= MAX_ATTEMPTS)
  {
  }

  lemma StoppedNext(ts: seq<Task>, i: nat, j: nat, now: int, timeoutMs: int)
    requires i < j <= |ts|
    ensures Stopped(ts, i, j, now, timeoutMs) <==>
            (Overdue(ts[i], now, timeoutMs) && ts[i].attempts == 3) || Stopped(ts, i + 1, j, now, timeoutMs)
  {
  }

  /** The sweep does not come back to slots it has passed. */
  lemma {:induction false} SweepBehind(ts: seq<Task>, i: nat, now: int, timeoutMs: int, j: nat)
    requires j < i <= |ts| && AllOk(ts)
    ensures SweepTasks(ts, i, now, timeoutMs)[j] == ts[j]
    decreases |ts| - i
  {
    if i < |ts| {
      SweepStep(ts, i, now, timeoutMs);
      hide TaskOk, SweepTasks;
      if Expired(ts[i], now, timeoutMs) {
        var t := EndAttempt(ts[i], TimedOut, ts[i].owner, now);
        if !t.state.Failed? {
          SweepBehind(ts[i := t], i + 1, now, timeoutMs, j);
        }
      } else {
        SweepBehind(ts, i + 1, now, timeoutMs, j);
      }
    }
  }

  /** The sweep closes every overdue attempt of the phase up to the first that was a third one, in which
      case the job fails; it touches nothing else. */
  lemma SweepRecorded(job: Job, p: Proto, now: int)
    requires PInv(job, p) && Enabled(p, Timeouts(now)) && !Terminal(p.m.phase)
    ensures var kind, limit := PhaseKind(p.m.phase), p.m.timeoutMs;
            var ts, p' := Tasks(p.m, kind), Apply(job, p, Timeouts(now));
            var ts' := Tasks(p'.m, kind);
            && |ts'| == |ts| && (forall j :: 0 <= j < |ts| ==> SweptRight(ts, ts', j, now, limit))
            && p'.m.phase == (if Stopped(ts, 0, |ts|, now, limit) then JobFailed else p.m.phase)
            && p' == p.(m := WithTasks(p.m, kind, ts').(phase := p'.m.phase))
  {
    hide TaskOk, Sum, Agrees, IssuedOk, LogOk, OpenOk, SweepTasks, Stopped, TimedOutSlot, SweptRight;
    var kind, limit := PhaseKind(p.m.phase), p.m.timeoutMs;
    var ts := Tasks(p.m, kind);
    assert AllOk(ts) && !AnyFailed(ts);
    hide AllOk, Inv;
    var us := SweepTasks(ts, 0, now, limit);
    forall j | 0 <= j < |ts| ensures SweptRight(ts, us, j, now, limit) {
      SweptSlot(ts, now, limit, j);
    }
    FailsIffStopped(ts, us, now, limit);
  }

  lemma SweptSlot(ts: seq<Task>, now: int, timeoutMs: int, j: nat)
    requires j < |ts| && AllOk(ts)
    ensures SweptRight(ts, SweepTasks(ts, 0, now, timeoutMs), j, now, timeoutMs)
  {
    SweepSlot(ts, 0, now, timeoutMs, j);
    hide AllOk, SweepTasks, Stopped, TimedOutSlot;
  }

  lemma {:induction false} FirstStop(ts: seq<Task>, n: nat, now: int, timeoutMs: int) returns (k: nat)
    requires n <= |ts| && Stopped(ts, 0, n, now, timeoutMs)
    ensures k < n && Overdue(ts[k], now, timeoutMs) && ts[k].attempts == 3 && !Stopped(ts, 0, k, now, timeoutMs)
  {
    hide Overdue;
    if Stopped(ts, 0, n - 1, now, timeoutMs) {
      k := FirstStop(ts, n - 1, now, timeoutMs);
    } else {
      k := n - 1;
    }
  }

  lemma FailsIffStopped(ts: seq<Task>, ts': seq<Task>, now: int, timeoutMs: int)
    requires |ts'| == |ts| && !AnyFailed(ts)
    requires forall j :: 0 <= j < |ts| ==> SweptRight(ts, ts', j, now, timeoutMs)
    ensures AnyFailed(ts') <==> Stopped(ts, 0, |ts|, now, timeoutMs)
  {
    if Stopped(ts, 0, |ts|, now, timeoutMs) {
      var k := FirstStop(ts, |ts|, now, timeoutMs);
      hide Stopped;
      assert SweptRight(ts, ts', k, now, timeoutMs);
      assert ts'[k].state.Failed?;
    }
    if AnyFailed(ts') {
      var j :| 0 <= j < |ts'| && ts'[j].state.Failed?;
      assert SweptRight(ts, ts', j, now, timeoutMs);
      assert Overdue(ts[j], now, timeoutMs) && ts[j].attempts == 3;
    }
  }

  // ----- the worker's side -----

  /** The process will never ask, work or report again. */
  ghost predicate Over(s: Setup, w: World, pid: nat) {
    && pid in w.procs
    && (forall act :: !CanAct(s, pid, w.procs[pid].stage, w.files, act))
    && (forall now :: !Allowed(s, w, Ask(pid, now)) && !Allowed(s, w, Tell(pid, now)))
  }

  predicate InStage(w: World, pid: nat, st: Stage) {
    pid in w.procs && w.procs[pid].stage == st
  }

  lemma ExitedIsOver(s: Setup, w: World, pid: nat)
    requires pid in w.procs && w.procs[pid].stage.Exited?
    ensures Over(s, w, pid)
  {
    hide Ready, ReportsFit;
  }

  /** A worker told DONE is over; one told to wait may ask again; one given a task starts on it. */
  lemma ReplyObeyed(s: Setup, w: World, pid: nat, now: int, later: int)
    requires SetupOk(s) && WInv(s, w) && Allowed(s, w, Ask(pid, now))
    ensures var w', r := Do(s, w, Ask(pid, now)), GetTask(w.p.m, FdOf(w, pid), now).reply;
            && (r.DoneResp? ==> Over(s, w', pid))
            && (r.WaitResp? ==> Allowed(s, w', Ask(pid, later)))
            && (r.MapResp? ==> InStage(w', pid, Opening(r.taskId, r.attemptId, r.path, r.nReduce, 0)))
            && (r.ReduceResp? ==> InStage(w', pid, Reading(r.taskId, r.attemptId, r.nMap, 0, [])))
  {
    hide WInv, GetTask, Do, Over, ReportsFit;
    var w', r := Do(s, w, Ask(pid, now)), GetTask(w.p.m, FdOf(w, pid), now).reply;
    AskStage(s, w, pid, now);
    if r.DoneResp? {
      ExitedIsOver(s, w', pid);
    } else if r.WaitResp? {
      NotAReport(w.p, Get(FdOf(w, pid), now));
      MoveKeepsWInv(s, w, Ask(pid, now));
      IdleMayAsk(s, w', pid, later);
    }
  }

  lemma AskStage(s: Setup, w: World, pid: nat, now: int)
    requires Allowed(s, w, Ask(pid, now))
    ensures var w', r := Do(s, w, Ask(pid, now)), GetTask(w.p.m, FdOf(w, pid), now).reply;
            && pid in w'.procs && w'.procs[pid].link == w.procs[pid].link
            && w'.procs[pid].stage == Enter(r) && w'.p.up == w.p.up && w.p.up
  {
    hide Ready, ReportsFit, GetTask, Enter;
  }

  lemma IdleMayAsk(s: Setup, w: World, pid: nat, now: int)
    requires SetupOk(s) && WInv(s, w) && Linked(w, pid) && w.procs[pid].stage.Idle? && w.p.up
    ensures Allowed(s, w, Ask(pid, now))
  {
    hide PInv, DiskOk, LogProduced, ProcsOk, Ready, ReportsFit;
    WInvReady(s, w);
    assert LinkOk(w.p, w.procs[pid]);
  }

  /** A worker whose report is acknowledged may ask again; one whose report is not is over and without
      connection. */
  lemma AnswerObeyed(s: Setup, w: World, pid: nat, now: int, later: int)
    requires Allowed(s, w, Tell(pid, now)) && !Misfire(w.p, Seen(w, Tell(pid, now)).value)
    requires SetupOk(s) && WInv(s, w)
    ensures FdOf(w, pid) in w.p.open
    ensures var w' := Do(s, w, Tell(pid, now));
            if Answer(w, pid, now).acked then Allowed(s, w', Ask(pid, later)) else Over(s, w', pid) && !Linked(w', pid)
  {
    hide WInv, Do, Over, Answer, Misfire, ReportsFit;
    var w' := Do(s, w, Tell(pid, now));
    TellStage(s, w, pid, now);
    if Answer(w, pid, now).acked {
      MoveKeepsWInv(s, w, Tell(pid, now));
      IdleMayAsk(s, w', pid, later);
    } else {
      ExitedIsOver(s, w', pid);
    }
  }

  lemma TellStage(s: Setup, w: World, pid: nat, now: int)
    requires SetupOk(s) && WInv(s, w) && Allowed(s, w, Tell(pid, now))
    ensures FdOf(w, pid) in w.p.open
    ensures var w' := Do(s, w, Tell(pid, now));
            && pid in w'.procs && w'.p.up
            && w'.procs[pid] == if Answer(w, pid, now).acked then Proc(w.procs[pid].link, Idle) else Proc(None, Exited)
  {
    hide WInv, Ready, ReportsFit, TaskDone, LogBytes;
    TellEffect(s, w, pid, now);
  }
}
