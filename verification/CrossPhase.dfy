/** Runs with the sweep in which a report comes late: one in which a pending slot completes, and one in
    which a map report is taken for a reduce, so the safety results need their no-misfire condition. */
module CrossPhase {
  import opened Scheduler
  import opened Recovery
  import opened Protocol
  import opened Guarantees

  /** The parts of a one-map, one-reduce master that the run below goes through. */
  predicate View(p: Proto, map0: (TaskState, nat), reduce0: (TaskState, nat), phase: Phase,
                 open: map<nat, Assignment>, log: seq<Record>) {
    && p.up && p.conns == {0, 1} && p.open == open && p.log == log
    && |p.m.maps| == 1 && |p.m.reduces| == 1 && p.m.phase == phase
    && (p.m.maps[0].state, p.m.maps[0].attempt) == map0
    && (p.m.reduces[0].state, p.m.reduces[0].attempt) == reduce0
  }

  const FIRST := Assignment(MapTask, 0, 1)
  const SECOND := Assignment(MapTask, 0, 2)
  const REDUCE := Assignment(ReduceTask, 0, 1)
  const MAPPED := Record(MapTask, 0, 2)

  predicate TinyJob(job: Job) {
    JobOk(job) && |job.paths| == 1 && job.R == 1 && job.timeoutMs >= 0
  }

  lemma CleanExtend(job: Job, es: seq<Event>, e: Event)
    requires JobOk(job) && Legal(job, es) && Clean(job, es) && Guard(After(job, es), e) && !e.Report?
    ensures Legal(job, es + [e]) && Clean(job, es + [e]) && Enabled(After(job, es), e)
    ensures After(job, es + [e]) == Apply(job, After(job, es), e)
  {
    RunKeepsPInv(job, es);
    PInvReady(job, After(job, es));
    Extend(job, es, e);
  }

  lemma BothConnect(job: Job)
    requires TinyJob(job)
    ensures var es := [Connect(0, 0), Connect(1, 0)];
            && Legal(job, es) && Clean(job, es)
            && View(After(job, es), (Pending, 0), (Pending, 0), JobMap, map[], [])
            && After(job, es).m.maps == Start(job).m.maps && After(job, es).m.timeoutMs == job.timeoutMs
  {
    StartView(job);
    assert Legal(job, []) && Clean(job, []) && After(job, []) == Start(job);
    hide Legal, Clean, After, Replay;
    CleanExtend(job, [], Connect(0, 0));
    assert [] + [Connect(0, 0)] == [Connect(0, 0)];
    CleanExtend(job, [Connect(0, 0)], Connect(1, 0));
    assert [Connect(0, 0)] + [Connect(1, 0)] == [Connect(0, 0), Connect(1, 0)];
  }

  lemma FirstGetView(job: Job, p: Proto)
    requires PInv(job, p) && Enabled(p, Get(0, 0))
    requires View(p, (Pending, 0), (Pending, 0), JobMap, map[], [])
    ensures View(HandleGet(p, 0, 0), (InProgress, 1), (Pending, 0), JobMap, map[0 := FIRST], [])
    ensures HandleGet(p, 0, 0).m.maps[0].startedAt == 0 && HandleGet(p, 0, 0).m.timeoutMs == p.m.timeoutMs
  {
    GetCases(p, 0, 0);
    assert FirstPending(p.m.maps, 0) == 0;
    hide PInv, TaskOk;
  }

  /** Two workers connect and the first is given the map. */
  lemma Given1(job: Job)
    requires TinyJob(job)
    ensures var es := [Connect(0, 0), Connect(1, 0)] + [Get(0, 0)];
            && Legal(job, es) && Clean(job, es)
            && View(After(job, es), (InProgress, 1), (Pending, 0), JobMap, map[0 := FIRST], [])
            && After(job, es).m.maps[0].startedAt == 0 && After(job, es).m.timeoutMs == job.timeoutMs
  {
    hide Legal, Clean, After, PInv, HandleGet;
    BothConnect(job);
    var es := [Connect(0, 0), Connect(1, 0)];
    RunKeepsPInv(job, es);
    CleanExtend(job, es, Get(0, 0));
    FirstGetView(job, After(job, es));
  }

  lemma StartView(job: Job)
    requires TinyJob(job)
    ensures Start(job).m.maps == [FreshTask(job.paths[0])] && Start(job).m.reduces == [FreshTask([])]
    ensures Start(job).m.phase == JobMap && Start(job).m.timeoutMs == job.timeoutMs
  {
  }

  lemma StepTimeout(job: Job, es: seq<Event>)
    requires TinyJob(job) && Legal(job, es) && Clean(job, es)
    requires View(After(job, es), (InProgress, 1), (Pending, 0), JobMap, map[0 := FIRST], [])
    requires After(job, es).m.maps[0].startedAt == 0 && After(job, es).m.timeoutMs == job.timeoutMs
    ensures var es' := es + [Timeouts(job.timeoutMs + 1)];
            && Legal(job, es') && Clean(job, es')
            && View(After(job, es'), (Pending, 1), (Pending, 0), JobMap, map[0 := FIRST], [])
  {
    var now := job.timeoutMs + 1;
    CleanExtend(job, es, Timeouts(now));
    RunKeepsPInv(job, es);
    var ts := After(job, es).m.maps;
    assert TaskOk(ts[0]);
    var t := EndAttempt(ts[0], TimedOut, ts[0].owner, now);
    assert Expired(ts[0], now, job.timeoutMs) && t.state.Pending?;
    EndAttemptOk(ts[0], TimedOut, ts[0].owner, now);
    assert SweepTasks(ts[0 := t], 1, now, job.timeoutMs) == ts[0 := t];
    assert SweepTasks(ts, 0, now, job.timeoutMs) == ts[0 := t];
    hide Legal, Clean, PInv, TaskOk;
  }

  /** A run in which a timed-out slot is pending again and the late success is accepted: PENDING turns
      to COMPLETED. */
  lemma PendingCompletes(job: Job) returns (es: seq<Event>)
    requires TinyJob(job)
    ensures Legal(job, es) && Clean(job, es) && After(job, es).up && |After(job, es).m.maps| == 1
    ensures After(job, es).m.maps[0].state.Pending?
    ensures var es' := es + [Report(0, 0, 0)];
            && Legal(job, es') && Clean(job, es')
            && |After(job, es').m.maps| == 1 && After(job, es').m.maps[0].state.Completed?
  {
    Given1(job);
    es := [Connect(0, 0), Connect(1, 0)] + [Get(0, 0)];
    hide Legal, After, Clean, PInv, Enabled;
    StepTimeout(job, es);
    es := es + [Timeouts(job.timeoutMs + 1)];
    RunKeepsPInv(job, es);
    PInvReady(job, After(job, es));
    ReportEnabled(After(job, es));
    LatestSuccessCounts(job, es, 0, 0);
    RunKeepsPInv(job, es + [Report(0, 0, 0)]);
    MapsOf(job, After(job, es + [Report(0, 0, 0)]));
  }

  lemma ReportEnabled(p: Proto)
    requires Ready(p) && p.up && 0 in p.open
    ensures Enabled(p, Report(0, 0, 0))
  {
  }

  lemma MapsOf(job: Job, p: Proto)
    requires PInv(job, p)
    ensures p.up ==> |p.m.maps| == |job.paths|
  {
  }

  lemma StepSecondGet(job: Job, es: seq<Event>)
    requires TinyJob(job) && Legal(job, es) && Clean(job, es)
    requires View(After(job, es), (Pending, 1), (Pending, 0), JobMap, map[0 := FIRST], [])
    ensures var es' := es + [Get(1, 0)];
            && Legal(job, es') && Clean(job, es')
            && View(After(job, es'), (InProgress, 2), (Pending, 0), JobMap, map[0 := FIRST, 1 := SECOND], [])
  {
    CleanExtend(job, es, Get(1, 0));
    RunKeepsPInv(job, es);
    var p := After(job, es);
    GetCases(p, 1, 0);
    assert FirstPending(p.m.maps, 0) == 0;
    hide Legal, Clean, PInv, TaskOk;
  }

  lemma MapDoneView(job: Job, p: Proto)
    requires PInv(job, p) && Enabled(p, Report(1, 0, 0))
    requires View(p, (InProgress, 2), (Pending, 0), JobMap, map[0 := FIRST, 1 := SECOND], [])
    ensures View(HandleReport(p, 1, 0, 0), (Completed, 2), (Pending, 0), JobReduce, map[0 := FIRST], [MAPPED])
  {
    assert Held(p.m, 1, SECOND);
    assert Sum(DoneBit, p.m.maps) == 0 && Sum(DoneBit, p.m.reduces) == 0;
    assert p.m.mapsDone == 0 && p.m.reducesDone == 0;
    hide PInv, TaskOk, Sum;
  }

  lemma StepMapDone(job: Job, es: seq<Event>)
    requires TinyJob(job) && Legal(job, es) && Clean(job, es)
    requires View(After(job, es), (InProgress, 2), (Pending, 0), JobMap, map[0 := FIRST, 1 := SECOND], [])
    ensures var es' := es + [Report(1, 0, 0)];
            && Legal(job, es') && Clean(job, es')
            && View(After(job, es'), (Completed, 2), (Pending, 0), JobReduce, map[0 := FIRST], [MAPPED])
  {
    hide Legal, Clean, After, PInv, HandleReport;
    var p := After(job, es);
    RunKeepsPInv(job, es);
    PInvReady(job, p);
    Extend(job, es, Report(1, 0, 0));
    MapDoneView(job, p);
  }

  lemma StepReduceGiven(job: Job, es: seq<Event>)
    requires TinyJob(job) && Legal(job, es) && Clean(job, es)
    requires View(After(job, es), (Completed, 2), (Pending, 0), JobReduce, map[0 := FIRST], [MAPPED])
    ensures var es' := es + [Get(1, 0)];
            && Legal(job, es') && Clean(job, es')
            && View(After(job, es'), (Completed, 2), (InProgress, 1), JobReduce, map[0 := FIRST, 1 := REDUCE], [MAPPED])
  {
    CleanExtend(job, es, Get(1, 0));
    RunKeepsPInv(job, es);
    var p := After(job, es);
    GetCases(p, 1, 0);
    assert FirstPending(p.m.reduces, 0) == 0;
    hide Legal, Clean, PInv, TaskOk;
  }

  lemma LateReportView(job: Job, p: Proto)
    requires PInv(job, p) && Enabled(p, Report(0, 0, 0))
    requires View(p, (Completed, 2), (InProgress, 1), JobReduce, map[0 := FIRST, 1 := REDUCE], [MAPPED])
    ensures View(HandleReport(p, 0, 0, 0), (Completed, 2), (Completed, 1), JobDone, map[1 := REDUCE],
      [MAPPED, Record(MapTask, 0, 1)])
  {
    assert Held(p.m, 0, FIRST);
    assert Sum(DoneBit, p.m.reduces) == 0;
    assert p.m.reducesDone == 0;
    hide PInv, TaskOk, Sum;
  }

  lemma StepLateReport(job: Job, es: seq<Event>)
    requires TinyJob(job) && Legal(job, es) && Clean(job, es)
    requires View(After(job, es), (Completed, 2), (InProgress, 1), JobReduce, map[0 := FIRST, 1 := REDUCE], [MAPPED])
    ensures var es' := es + [Report(0, 0, 0)];
            && Legal(job, es')
            && View(After(job, es'), (Completed, 2), (Completed, 1), JobDone, map[1 := REDUCE],
              [MAPPED, Record(MapTask, 0, 1)])
  {
    hide Legal, Clean, After, PInv, HandleReport;
    var p := After(job, es);
    RunKeepsPInv(job, es);
    PInvReady(job, p);
    Extend(job, es, Report(0, 0, 0));
    LateReportView(job, p);
  }

  /** With the sweep on, a worker that outlives its timeout can finish the job without any reduce
      having run: its map report lands on the reduce of the same number and attempt. The log then
      names the map twice, and a master restarted from it fails the assertion that guards WAIT
      on the first request. */
  lemma LateReportFinishesJob(job: Job) returns (es: seq<Event>)
    requires TinyJob(job)
    ensures Legal(job, es) && !Clean(job, es)
    ensures After(job, es).up && After(job, es).m.phase.JobDone?
    ensures !Logged(After(job, es).log, ReduceTask, 0)
    ensures !LogOk(job, After(job, es).log)
    ensures var m := Replay(job, After(job, es).log);
            m.phase.JobMap? && m.mapsDone == 2 && TasksOk(m) && |m.workers| == MAX_FDS &&
              GetTask(m, 0, 0).reply.AssertionFailed?
  {
    Given1(job);
    es := [Connect(0, 0), Connect(1, 0)] + [Get(0, 0)];
    StepTimeout(job, es);
    es := es + [Timeouts(job.timeoutMs + 1)];
    StepSecondGet(job, es);
    es := es + [Get(1, 0)];
    StepMapDone(job, es);
    es := es + [Report(1, 0, 0)];
    StepReduceGiven(job, es);
    es := es + [Get(1, 0)];
    StepLateReport(job, es);
    es := es + [Report(0, 0, 0)];
    hide Legal, After, Clean;
    TwiceLogged(job);
    if Clean(job, es) {
      RunKeepsPInv(job, es);
    }
  }

  lemma TwiceLogged(job: Job)
    requires TinyJob(job)
    ensures var log := [MAPPED, Record(MapTask, 0, 1)];
            && !LogOk(job, log) && !Logged(log, ReduceTask, 0)
            && var m := Replay(job, log);
               m.phase.JobMap? && m.mapsDone == 2 && TasksOk(m) && |m.workers| == MAX_FDS &&
                 GetTask(m, 0, 0).reply.AssertionFailed?
  {
    var log := [MAPPED, Record(MapTask, 0, 1)];
    assert log[..1] == [MAPPED] && log[..1][..0] == [];
    LogOkSnoc(job, [MAPPED], Record(MapTask, 0, 1));
    assert [MAPPED][0] == MAPPED;
    StartView(job);
    SlotOk(job.paths[0], true);
    SlotOk([], false);
    var m := Replay(job, log);
    assert Marked(job, [MAPPED]).maps == [Slot(job.paths[0], true)];
    assert Marked(job, log).maps == [Slot(job.paths[0], true)];
    assert m.reduces == [Slot([], false)];
    assert FirstPending(m.maps, 0) == 1;
  }
}
