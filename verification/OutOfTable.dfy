/** A run with the sweep in which a late map report makes the master index past its reduce table: it
    takes more maps than the reduce table has slots. */
module OutOfTable {
  import opened Scheduler
  import opened Recovery
  import opened Protocol
  import opened SweepFree
  import opened Guarantees

  /** One map more than the reduce table holds. */
  predicate WideJob(job: Job) {
    JobOk(job) && |job.paths| == MAX_REDUCE_TASKS + 1
  }

  // ----- one worker finishes the first 64 maps -----

  predicate Progress(p: Proto, n: nat) {
    && p.up && p.conns == {0} && p.open == map[] && p.m.phase.JobMap? && |p.m.maps| == 65 && n <= 64
    && (forall i :: 0 <= i < n ==> p.m.maps[i].state.Completed?)
    && (forall i :: n <= i < 65 ==> p.m.maps[i].state.Pending? && p.m.maps[i].attempt == 0)
  }

  /** The next map is handed out. */
  lemma NextGiven(job: Job, p: Proto, n: nat)
    requires PInv(job, p) && Progress(p, n)
    ensures Enabled(p, Get(0, 0))
    ensures var q := HandleGet(p, 0, 0);
            && q.up && q.conns == {0} && q.open == map[0 := Assignment(MapTask, n, 1)] && q.m.phase.JobMap?
            && |q.m.maps| == 65 && q.m.maps[n].state.InProgress? && q.m.maps[n].attempt == 1
            && forall i :: 0 <= i < 65 && i != n ==> q.m.maps[i] == p.m.maps[i]
  {
    hide TaskOk, Sum, Agrees, IssuedOk, LogOk, Inv;
    PInvReady(job, p);
    GetCases(p, 0, 0);
    assert p.m.maps[n].state.Pending?;
    assert FirstPending(p.m.maps, 0) == n;
  }

  /** It is reported as done, and another map is left. */
  lemma NextDone(job: Job, q: Proto, n: nat)
    requires PInv(job, q) && q.up && q.conns == {0} && q.open == map[0 := Assignment(MapTask, n, 1)] && n < 64
    requires q.m.phase.JobMap? && |q.m.maps| == 65 && q.m.maps[n].state.InProgress? && q.m.maps[n].attempt == 1
    requires !q.m.maps[64].state.Completed?
    ensures Enabled(q, Report(0, 0, 0)) && !Misfire(q, Report(0, 0, 0))
    ensures var p := HandleReport(q, 0, 0, 0);
            && p.up && p.conns == {0} && p.open == map[] && p.m.phase.JobMap?
            && |p.m.maps| == 65 && p.m.maps[n].state.Completed?
            && forall i :: 0 <= i < 65 && i != n ==> p.m.maps[i] == q.m.maps[i]
  {
    hide TaskOk, Sum, Agrees, IssuedOk, LogOk, Inv, Complete;
    PInvReady(job, q);
    var msg := MsgOf(q.open[0], 0);
    assert Held(q.m, 0, q.open[0]);
    ReportInside(job, q, 0, 0, 0);
    SuccessEffect(q.m, 0, msg, 0);
    PhaseAfterSuccess(q.m, 0, msg, 0);
    var m := TaskDone(q.m, 0, msg, 0).s;
    hide TaskDone;
    assert m.maps[64] == q.m.maps[64];
    assert q.open - {0} == map[];
  }

  lemma OneMore(job: Job, es: seq<Event>, n: nat) returns (more: seq<Event>)
    requires JobOk(job) && Legal(job, es) && Clean(job, es) && Progress(After(job, es), n) && n < 64
    ensures Legal(job, es + more) && Clean(job, es + more) && Progress(After(job, es + more), n + 1)
  {
    hide Legal, Clean, After, PInv, HandleGet, HandleReport, Enabled, Misfire;
    RunKeepsPInv(job, es);
    var p := After(job, es);
    NextGiven(job, p, n);
    NotAReport(p, Get(0, 0));
    Extend(job, es, Get(0, 0));
    var given := es + [Get(0, 0)];
    RunKeepsPInv(job, given);
    NextDone(job, After(job, given), n);
    Extend(job, given, Report(0, 0, 0));
    more := [Get(0, 0)] + [Report(0, 0, 0)];
    assert es + more == given + [Report(0, 0, 0)];
  }

  lemma {:induction false} FirstDone(job: Job, n: nat) returns (es: seq<Event>)
    requires WideJob(job) && n <= 64
    ensures Legal(job, es) && Clean(job, es) && Progress(After(job, es), n)
  {
    if n == 0 {
      assert Legal(job, []) && Clean(job, []) && After(job, []) == Start(job);
      FreshMaps(job);
      hide Legal, Clean, After, Replay, PInv;
      StartPInv(job);
      PInvReady(job, Start(job));
      es := [Connect(0, 0)];
      Extend(job, [], Connect(0, 0));
      assert [] + [Connect(0, 0)] == es;
    } else {
      hide Legal, Clean, After, Progress;
      es := FirstDone(job, n - 1);
      var more := OneMore(job, es, n - 1);
      es := es + more;
    }
  }

  lemma FreshMaps(job: Job)
    requires WideJob(job)
    ensures var p := Start(job);
            && p.up && p.conns == {} && p.open == map[] && p.m.phase.JobMap? && |p.m.maps| == 65
            && forall i :: 0 <= i < 65 ==> p.m.maps[i].state.Pending? && p.m.maps[i].attempt == 0
  {
  }

  // ----- the last map is given, times out, and is done by another worker -----

  predicate Last(p: Proto, st: TaskState, attempt: nat, phase: Phase, open: map<nat, Assignment>) {
    && p.up && p.conns == {0, 1} && p.open == open && p.m.phase == phase && |p.m.maps| == 65
    && (forall i :: 0 <= i < 64 ==> p.m.maps[i].state.Completed?)
    && p.m.maps[64].state == st && p.m.maps[64].attempt == attempt
  }

  const LATE := Assignment(MapTask, 64, 1)
  const AGAIN := Assignment(MapTask, 64, 2)

  lemma BothThere(job: Job, p: Proto)
    requires PInv(job, p) && Progress(p, 64)
    ensures Enabled(p, Connect(1, 0)) && Last(Apply(job, p, Connect(1, 0)), Pending, 0, JobMap, map[])
  {
    PInvReady(job, p);
    hide PInv, Ready;
  }

  lemma LastGiven(job: Job, p: Proto, fd: nat, attempt: nat, open: map<nat, Assignment>)
    requires PInv(job, p) && Last(p, Pending, attempt, JobMap, open) && fd in {0, 1} && fd !in open
    ensures Enabled(p, Get(fd, 0))
    ensures Last(HandleGet(p, fd, 0), InProgress, attempt + 1, JobMap, open[fd := Assignment(MapTask, 64, attempt + 1)])
  {
    hide TaskOk, Sum, Agrees, IssuedOk, LogOk, Inv;
    PInvReady(job, p);
    GetCases(p, fd, 0);
    assert FirstPending(p.m.maps, 0) == 64;
  }

  lemma {:induction false} SweepSkips(ts: seq<Task>, i: nat, n: nat, now: int, timeoutMs: int)
    requires i <= n <= |ts| && AllOk(ts) && forall j :: i <= j < n ==> !Expired(ts[j], now, timeoutMs)
    ensures SweepTasks(ts, i, now, timeoutMs) == SweepTasks(ts, n, now, timeoutMs)
    decreases n - i
  {
    hide TaskOk, EndAttempt;
    if i < n {
      SweepSkips(ts, i + 1, n, now, timeoutMs);
    }
  }

  lemma LastSlotEnds(ts: seq<Task>, now: int, timeoutMs: int)
    requires |ts| == 65 && AllOk(ts) && ts[64].attempt == 1 && Expired(ts[64], now, timeoutMs)
    ensures var r := SweepTasks(ts, 64, now, timeoutMs);
            && (forall i :: 0 <= i < 64 ==> r[i] == ts[i])
            && r[64].state.Pending? && r[64].attempt == 1
  {
    assert TaskOk(ts[64]);
    var t := EndAttempt(ts[64], TimedOut, ts[64].owner, now);
    EndAttemptOk(ts[64], TimedOut, ts[64].owner, now);
    hide TaskOk;
    assert |ts[64 := t]| == 65;
    assert SweepTasks(ts[64 := t], 65, now, timeoutMs) == ts[64 := t];
  }

  lemma LastTimesOut(job: Job, p: Proto, open: map<nat, Assignment>)
    requires PInv(job, p) && Last(p, InProgress, 1, JobMap, open)
    ensures var now := p.m.maps[64].startedAt + p.m.timeoutMs + 1;
            Enabled(p, Timeouts(now)) && Last(Apply(job, p, Timeouts(now)), Pending, 1, JobMap, open)
  {
    hide TaskOk, Sum, Agrees, IssuedOk, LogOk, OpenOk, SweepTasks;
    PInvReady(job, p);
    var now := p.m.maps[64].startedAt + p.m.timeoutMs + 1;
    var ts := p.m.maps;
    SweepSkips(ts, 0, 64, now, p.m.timeoutMs);
    LastSlotEnds(ts, now, p.m.timeoutMs);
    assert !AnyFailed(SweepTasks(ts, 0, now, p.m.timeoutMs));
  }

  lemma NotYetReduced(m: State)
    requires Inv(m) && m.phase.JobMap?
    ensures |m.reduces| > 0 && !m.reduces[0].state.Completed? && !AnyFailed(m.maps) && !AnyFailed(m.reduces)
  {
    hide TaskOk, Sum;
  }

  lemma MustReduce(m: State)
    requires Inv(m) && (forall i :: 0 <= i < |m.maps| ==> m.maps[i].state.Completed?)
    requires |m.reduces| > 0 && !m.reduces[0].state.Completed? && !m.phase.JobFailed?
    ensures m.phase.JobReduce?
  {
    DoneFull(m.maps);
    DoneFull(m.reduces);
    hide TaskOk, Sum;
  }

  lemma LastDone(job: Job, p: Proto)
    requires PInv(job, p) && Last(p, InProgress, 2, JobMap, map[0 := LATE, 1 := AGAIN])
    ensures Enabled(p, Report(1, 0, 0)) && !Misfire(p, Report(1, 0, 0))
    ensures Last(HandleReport(p, 1, 0, 0), Completed, 2, JobReduce, map[0 := LATE])
  {
    hide TaskOk, Sum, Agrees, IssuedOk, LogOk, Inv, Complete;
    PInvReady(job, p);
    var msg := MsgOf(AGAIN, 0);
    assert Held(p.m, 1, AGAIN);
    ReportInside(job, p, 1, 0, 0);
    SuccessEffect(p.m, 1, msg, 0);
    PhaseAfterSuccess(p.m, 1, msg, 0);
    NotYetReduced(p.m);
    var m := TaskDone(p.m, 1, msg, 0).s;
    NotFailed(p.m, m);
    hide TaskDone;
    MustReduce(m);
    assert map[0 := LATE, 1 := AGAIN] - {1} == map[0 := LATE];
  }

  lemma NotFailed(m: State, m': State)
    requires Inv(m') && !AnyFailed(m.maps) && !AnyFailed(m.reduces)
    requires |m'.maps| == |m.maps| && m'.reduces == m.reduces
    requires forall i :: 0 <= i < |m.maps| ==> m'.maps[i] == m.maps[i] || m'.maps[i].state.Completed?
    ensures !m'.phase.JobFailed?
  {
    hide TaskOk, Sum;
  }

  lemma LateGoesOutside(job: Job, p: Proto)
    requires PInv(job, p) && Last(p, Completed, 2, JobReduce, map[0 := LATE])
    ensures Enabled(p, Report(0, 0, 0)) && HandleReport(p, 0, 0, 0).outside
  {
    hide TaskOk, Sum, Agrees, IssuedOk, LogOk, Inv;
    PInvReady(job, p);
    ReportInside(job, p, 0, 0, 0);
  }

  lemma Step(job: Job, es: seq<Event>, e: Event)
    requires JobOk(job) && Legal(job, es) && Clean(job, es) && Enabled(After(job, es), e) && !Misfire(After(job, es), e)
    ensures Legal(job, es + [e]) && Clean(job, es + [e]) && After(job, es + [e]) == Apply(job, After(job, es), e)
    ensures PInv(job, After(job, es + [e]))
  {
    hide Legal, Clean, After, PInv, Enabled, Misfire, Apply;
    Extend(job, es, e);
    RunKeepsPInv(job, es + [e]);
  }

  /** With the sweep on and 65 maps, the report of a worker that outlived its timeout can send the
      master past its reduce table, at the end of a run that is clean up to then. */
  lemma LateReportLeavesTable(job: Job) returns (es: seq<Event>)
    requires WideJob(job)
    ensures Legal(job, es) && Clean(job, es) && After(job, es).up && !After(job, es).outside
    ensures Legal(job, es + [Report(0, 0, 0)]) && After(job, es + [Report(0, 0, 0)]).outside
  {
    hide Legal, Clean, After, PInv, HandleGet, HandleReport, Enabled, Misfire, Progress, Last;
    es := FirstDone(job, 64);
    RunKeepsPInv(job, es);
    BothThere(job, After(job, es));
    NotAReport(After(job, es), Connect(1, 0));
    Step(job, es, Connect(1, 0));
    es := es + [Connect(1, 0)];
    LastGiven(job, After(job, es), 0, 0, map[]);
    NotAReport(After(job, es), Get(0, 0));
    Step(job, es, Get(0, 0));
    es := es + [Get(0, 0)];
    es := AgainDone(job, es);
    LateGoesOutside(job, After(job, es));
    Extend(job, es, Report(0, 0, 0));
    StaysInside(job, After(job, es));
  }

  lemma StaysInside(job: Job, p: Proto)
    requires PInv(job, p)
    ensures !p.outside
  {
  }

  lemma AgainDone(job: Job, es0: seq<Event>) returns (es: seq<Event>)
    requires JobOk(job) && Legal(job, es0) && Clean(job, es0) && PInv(job, After(job, es0))
    requires Last(After(job, es0), InProgress, 1, JobMap, map[0 := LATE])
    ensures Legal(job, es) && Clean(job, es) && PInv(job, After(job, es))
    ensures Last(After(job, es), Completed, 2, JobReduce, map[0 := LATE]) && After(job, es).up
  {
    hide Legal, Clean, After, PInv, HandleGet, HandleReport, Enabled, Misfire;
    var p := After(job, es0);
    var e := Timeouts(p.m.maps[64].startedAt + p.m.timeoutMs + 1);
    LastTimesOut(job, p, map[0 := LATE]);
    NotAReport(p, e);
    Step(job, es0, e);
    es := es0 + [e];
    LastGiven(job, After(job, es), 1, 1, map[0 := LATE]);
    NotAReport(After(job, es), Get(1, 0));
    Step(job, es, Get(1, 0));
    es := es + [Get(1, 0)];
    assert map[0 := LATE][1 := AGAIN] == map[0 := LATE, 1 := AGAIN];
    LastDone(job, After(job, es));
    Step(job, es, Report(1, 0, 0));
    es := es + [Report(1, 0, 0)];
  }
}
