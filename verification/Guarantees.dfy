/** What the invariants amount to for whole runs of the master. */
module Guarantees {
  import opened Scheduler
  import opened Recovery
  import opened Protocol

  /** Extending a run by one event. */
  lemma Extend(job: Job, es: seq<Event>, e: Event)
    requires Legal(job, es) && Enabled(After(job, es), e)
    ensures Legal(job, es + [e]) && After(job, es + [e]) == Apply(job, After(job, es), e)
    ensures Clean(job, es) && !Misfire(After(job, es), e) ==> Clean(job, es + [e])
  {
    assert (es + [e])[..|es|] == es;
  }

  // ----- recovery -----

  /** Killing the master after any run and restarting it from its log gives the same master with
      its unfinished work forgotten. */
  lemma CrashRecovery(job: Job, es: seq<Event>)
    requires JobOk(job) && Legal(job, es) && Clean(job, es) && After(job, es).up
    ensures Legal(job, es + [Crash(false)] + [Restart]) && Clean(job, es + [Crash(false)] + [Restart])
    ensures var p, p' := After(job, es), After(job, es + [Crash(false)] + [Restart]);
            p'.up && p'.m == Forgotten(p.m) && p'.log == p.log && p'.open == map[] && p'.conns == {}
  {
    RunKeepsPInv(job, es);
    PInvReady(job, After(job, es));
    Extend(job, es, Crash(false));
    RunKeepsPInv(job, es + [Crash(false)]);
    PInvReady(job, After(job, es + [Crash(false)]));
    Extend(job, es + [Crash(false)], Restart);
    ReplayIsForgotten(job, After(job, es).m, After(job, es).log);
  }

  /** Over any number of crashes the log names no task twice, has no reduce before the last map
      and at most one record per task; cutting it at any record leaves a log that replays to a
      legal state. */
  lemma LogStaysLegal(job: Job, es: seq<Event>, n: nat)
    requires JobOk(job) && Legal(job, es) && Clean(job, es) && n <= |After(job, es).log|
    ensures var log := After(job, es).log;
            && |log| <= |job.paths| + job.R
            && (forall i, j :: 0 <= i < j < |log| ==> log[i].kind != log[j].kind || log[i].taskId != log[j].taskId)
            && (forall i, j :: 0 <= i < j < |log| && log[i].kind.ReduceTask? ==> log[j].kind.ReduceTask?)
            && (forall j :: 0 <= j < |log| && log[j].kind.ReduceTask? ==> AllMapsLogged(job, log[..j]))
            && LogOk(job, log[..n]) && Inv(Replay(job, log[..n]))
  {
    hide Legal, After, Clean, Inv, Logged, RunningOk, AllMapsLogged;
    RunKeepsPInv(job, es);
    var log := After(job, es).log;
    LogBounded(job, log);
    LogOkPrefix(job, log, n);
    ReplayInv(job, log[..n]);
    forall i, j | 0 <= i < j < |log|
      ensures log[i].kind != log[j].kind || log[i].taskId != log[j].taskId
      ensures log[i].kind.ReduceTask? ==> log[j].kind.ReduceTask?
    {
      LogShape(job, log, i, j);
    }
    forall j | 0 <= j < |log| && log[j].kind.ReduceTask? ensures AllMapsLogged(job, log[..j]) {
      LogOkPrefix(job, log, j + 1);
      assert log[..j + 1][..j] == log[..j];
    }
  }

  // ----- phases and slots -----

  /** Every reachable running master satisfies the slot, counter and phase invariants. */
  lemma ReachableInv(job: Job, es: seq<Event>)
    requires JobOk(job) && Legal(job, es) && Clean(job, es) && After(job, es).up
    ensures !After(job, es).outside
    ensures var m := After(job, es).m;
            && TasksOk(m) && CountsOk(m)
            && (m.phase.JobMap? ==> m.mapsDone < |m.maps|)
            && (m.phase.JobReduce? ==> m.mapsDone == |m.maps| && m.reducesDone < |m.reduces|)
            && (m.phase.JobDone? ==> m.mapsDone == |m.maps| && m.reducesDone == |m.reduces|)
            && (m.phase.JobFailed? <==> AnyFailed(m.maps) || AnyFailed(m.reduces))
  {
    RunKeepsPInv(job, es);
  }

  /** A finished job has every task in its log. */
  lemma DoneMeansLogged(job: Job, es: seq<Event>)
    requires JobOk(job) && Legal(job, es) && Clean(job, es) && After(job, es).up && After(job, es).m.phase.JobDone?
    ensures AllMapsLogged(job, After(job, es).log)
    ensures forall y :: 0 <= y < job.R ==> Logged(After(job, es).log, ReduceTask, y)
  {
    RunKeepsPInv(job, es);
    var p := After(job, es);
    DoneFull(p.m.maps);
    DoneFull(p.m.reduces);
    hide TaskOk, Sum, Logged;
  }

  lemma TerminalStep(job: Job, p: Proto, e: Event)
    requires PInv(job, p) && Enabled(p, e) && p.up && Terminal(p.m.phase) && !e.Crash?
    ensures var p' := Apply(job, p, e);
            p'.up && p'.log == p.log && p'.issued == p.issued && p'.m == p.m.(workers := p'.m.workers)
    ensures !Misfire(p, e)
  {
    hide PInv, TaskOk;
  }

  /** Once a run has reached a terminal phase, nothing but the connections changes until the master
      dies. */
  lemma {:induction false} TerminalIsFinal(job: Job, es: seq<Event>, more: seq<Event>)
    requires JobOk(job) && Legal(job, es) && Clean(job, es) && After(job, es).up && Terminal(After(job, es).m.phase)
    requires Legal(job, es + more) && forall i :: 0 <= i < |more| ==> !more[i].Crash?
    ensures Clean(job, es + more)
    ensures var p, p' := After(job, es), After(job, es + more);
            p'.up && p'.log == p.log && p'.issued == p.issued && p'.m == p.m.(workers := p'.m.workers)
    decreases |more|
  {
    hide PInv, Apply, Enabled, Misfire;
    if more == [] {
      assert es + more == es;
    } else {
      var n := |more| - 1;
      var init := es + more[..n];
      assert (es + more)[..|es + more| - 1] == init && (es + more)[|es + more| - 1] == more[n];
      TerminalIsFinal(job, es, more[..n]);
      RunKeepsPInv(job, init);
      TerminalStep(job, After(job, init), more[n]);
    }
  }

  /** In every run the assertion guarding WAIT holds, and a worker is told to wait only while a task
      of the current phase is running. */
  lemma WaitMeansWork(job: Job, es: seq<Event>, fd: nat, now: int)
    requires JobOk(job) && Legal(job, es) && Clean(job, es) && Enabled(After(job, es), Get(fd, now))
    ensures var m := After(job, es).m;
            && !GetTask(m, fd, now).reply.AssertionFailed?
            && (GetTask(m, fd, now).reply.WaitResp? ==>
                  && !Terminal(m.phase)
                  && var ts := Tasks(m, PhaseKind(m.phase)); exists i :: 0 <= i < |ts| && ts[i].state.InProgress?)
  {
    RunKeepsPInv(job, es);
    hide Legal, After, Clean, Inv, TaskOk, GetTask;
    GetTaskKeepsInv(After(job, es).m, fd, now);
  }

  // ----- attempts -----

  lemma SupersededStep(job: Job, p: Proto, fd: nat, result: nat, now: int)
    requires PInv(job, p) && Enabled(p, Report(fd, result, now)) && !Terminal(p.m.phase)
    requires var a := p.open[fd]; a.kind == PhaseKind(p.m.phase) && a.attempt != Tasks(p.m, a.kind)[a.id].attempt
    ensures HandleReport(p, fd, result, now) == p.(open := p.open - {fd}) && !Misfire(p, Report(fd, result, now))
  {
    assert Held(p.m, fd, p.open[fd]);
    assert p.log + [] == p.log;
    hide TaskOk;
  }

  /** The slot an outstanding assignment is about. */
  function SlotOf(p: Proto, fd: nat): Task
    requires fd in p.open && p.open[fd].id < |Tasks(p.m, p.open[fd].kind)|
  {
    Tasks(p.m, p.open[fd].kind)[p.open[fd].id]
  }

  lemma SlotThere(job: Job, p: Proto, fd: nat)
    requires PInv(job, p) && p.up && fd in p.open
    ensures p.open[fd].id < |Tasks(p.m, p.open[fd].kind)|
  {
    assert Held(p.m, fd, p.open[fd]);
  }

  /** In every run, an in-phase report for a superseded attempt changes nothing but the books of its
      connection. */
  lemma SupersededIsDropped(job: Job, es: seq<Event>, fd: nat, result: nat, now: int)
    requires JobOk(job) && Legal(job, es) && Clean(job, es) && Enabled(After(job, es), Report(fd, result, now))
    ensures var p := After(job, es);
            && p.open[fd].id < |Tasks(p.m, p.open[fd].kind)|
            && (!Terminal(p.m.phase) && p.open[fd].kind == PhaseKind(p.m.phase)
                && p.open[fd].attempt != SlotOf(p, fd).attempt ==>
                  && Legal(job, es + [Report(fd, result, now)]) && Clean(job, es + [Report(fd, result, now)])
                  && After(job, es + [Report(fd, result, now)]) == p.(open := p.open - {fd}))
  {
    hide Legal, Clean, After, PInv, HandleReport, Misfire;
    RunKeepsPInv(job, es);
    var p, e := After(job, es), Report(fd, result, now);
    SlotThere(job, p, fd);
    if !Terminal(p.m.phase) && p.open[fd].kind == PhaseKind(p.m.phase) && p.open[fd].attempt != SlotOf(p, fd).attempt {
      SupersededStep(job, p, fd, result, now);
      Extend(job, es, e);
    }
  }

  /** In every run, an in-phase success for the latest attempt of a slot completes the slot and is
      logged, also when the attempt has timed out and the slot is pending again. */
  lemma LatestSuccessCounts(job: Job, es: seq<Event>, fd: nat, now: int)
    requires JobOk(job) && Legal(job, es) && Clean(job, es) && Enabled(After(job, es), Report(fd, 0, now))
    requires var p := After(job, es);
             && !Terminal(p.m.phase) && p.open[fd].kind == PhaseKind(p.m.phase)
             && p.open[fd].id < |Tasks(p.m, p.open[fd].kind)| && p.open[fd].attempt == SlotOf(p, fd).attempt
    ensures var p, e := After(job, es), Report(fd, 0, now);
            && (SlotOf(p, fd).state.Pending? || SlotOf(p, fd).state.InProgress?)
            && Legal(job, es + [e]) && Clean(job, es + [e])
            && var p', a := After(job, es + [e]), p.open[fd];
            && p'.log == p.log + [Record(a.kind, a.id, a.attempt)]
            && a.id < |Tasks(p'.m, a.kind)| && Tasks(p'.m, a.kind)[a.id].state.Completed?
  {
    hide Legal, Clean, After, Misfire;
    RunKeepsPInv(job, es);
    var p, e := After(job, es), Report(fd, 0, now);
    LatestStep(job, p, fd, now);
    Extend(job, es, e);
  }

  lemma LatestStep(job: Job, p: Proto, fd: nat, now: int)
    requires PInv(job, p) && Enabled(p, Report(fd, 0, now)) && !Terminal(p.m.phase)
    requires p.open[fd].kind == PhaseKind(p.m.phase) && p.open[fd].id < |Tasks(p.m, p.open[fd].kind)|
    requires p.open[fd].attempt == SlotOf(p, fd).attempt
    ensures !Misfire(p, Report(fd, 0, now)) && (SlotOf(p, fd).state.Pending? || SlotOf(p, fd).state.InProgress?)
    ensures var p', a := HandleReport(p, fd, 0, now), p.open[fd];
            && p'.log == p.log + [Record(a.kind, a.id, a.attempt)]
            && a.id < |Tasks(p'.m, a.kind)| && Tasks(p'.m, a.kind)[a.id].state.Completed?
  {
    hide TaskOk, Sum, Agrees, IssuedOk, LogOk, Complete;
    var a := p.open[fd];
    assert Held(p.m, fd, a);
    assert !AnyFailed(Tasks(p.m, a.kind));
    ReportInside(job, p, fd, 0, now);
    hide Inv;
    SuccessEffect(p.m, fd, MsgOf(a, 0), now);
    hide TaskDone;
  }

  function Remaining(job: Job, p: Proto): int {
    MAX_ATTEMPTS * (|job.paths| + job.R) - |p.issued|
  }

  lemma IssuedBound(job: Job, p: Proto)
    requires JobOk(job) && PInv(job, p)
    ensures Remaining(job, p) >= 0
  {
    if p.up {
      SumBound(AttemptsOf, p.m.maps, MAX_ATTEMPTS);
      SumBound(AttemptsOf, p.m.reduces, MAX_ATTEMPTS);
    }
  }

  lemma IssuedStep(job: Job, p: Proto, e: Event)
    requires PInv(job, p) && Enabled(p, e) && !e.Crash?
    ensures var p' := Apply(job, p, e);
            if e.Get? && e.fd in p'.open then |p'.issued| == |p.issued| + 1 && p.issued <= p'.issued
            else p'.issued == p.issued
  {
    if e.Get? {
      GetCases(p, e.fd, e.now);
    }
    hide PInv, TaskOk, TaskDone, Sweep, Replay;
  }

  /** Within one lifetime each (kind, task, attempt) is issued once, at most three per task;
      the attempts left fall by one at each assignment and never rise. */
  lemma AttemptsRunOut(job: Job, es: seq<Event>, e: Event)
    requires JobOk(job) && Legal(job, es + [e]) && Clean(job, es + [e]) && !e.Crash?
    ensures Legal(job, es) && Clean(job, es)
    ensures var p, p' := After(job, es), After(job, es + [e]);
            && Distinct(p'.issued) && p.issued <= p'.issued
            && 0 <= Remaining(job, p') <= MAX_ATTEMPTS * (|job.paths| + job.R)
            && Remaining(job, p') == Remaining(job, p) - (if e.Get? && e.fd in p'.open then 1 else 0)
  {
    assert (es + [e])[..|es|] == es;
    RunKeepsPInv(job, es);
    RunKeepsPInv(job, es + [e]);
    IssuedBound(job, After(job, es + [e]));
    IssuedStep(job, After(job, es), e);
    hide Inv, LogOk, Agrees, OpenOk, Apply, Sum;
  }

  // ----- the job can always be finished -----

  /** Connected to one idle worker, with nothing running. */
  predicate Resting(p: Proto) {
    && p.up && 0 in p.conns && p.open == map[] && !p.m.phase.JobFailed?
    && (forall i :: 0 <= i < |p.m.maps| ==> p.m.maps[i].state.Completed? || p.m.maps[i].state.Pending?)
    && (forall i :: 0 <= i < |p.m.reduces| ==> p.m.reduces[i].state.Completed? || p.m.reduces[i].state.Pending?)
  }

  function Unfinished(p: Proto): int {
    |p.m.maps| + |p.m.reduces| - p.m.mapsDone - p.m.reducesDone
  }

  lemma RestingGetAssigns(job: Job, p: Proto)
    requires PInv(job, p) && Resting(p) && !p.m.phase.JobDone?
    ensures Enabled(p, Get(0, 0))
    ensures var p' := HandleGet(p, 0, 0);
            && 0 in p'.open && p'.up && p'.conns == p.conns && p'.m.phase == p.m.phase
            && p'.m.mapsDone == p.m.mapsDone && p'.m.reducesDone == p.m.reducesDone
            && var a := p'.open[0];
            && a.kind == PhaseKind(p.m.phase) && a.id < |Tasks(p.m, a.kind)| && p'.open == map[0 := a]
            && |Tasks(p'.m, a.kind)| == |Tasks(p.m, a.kind)|
            && a.attempt == Tasks(p'.m, a.kind)[a.id].attempt && Tasks(p'.m, a.kind)[a.id].state.InProgress?
            && p'.m.maps == WithTask(p.m, a.kind, a.id, Tasks(p'.m, a.kind)[a.id]).maps
            && p'.m.reduces == WithTask(p.m, a.kind, a.id, Tasks(p'.m, a.kind)[a.id]).reduces
  {
    PInvReady(job, p);
    GetCases(p, 0, 0);
    var kind := PhaseKind(p.m.phase);
    var ts := Tasks(p.m, kind);
    DoneFull(ts);
    assert FirstPending(ts, 0) < |ts|;
    assert TaskOk(ts[FirstPending(ts, 0)]);
    hide TaskOk, Sum, Agrees, IssuedOk, LogOk, Held;
  }

  /** One task handed out and reported leaves one task fewer. */
  lemma FinishOne(job: Job, p: Proto)
    requires PInv(job, p) && Resting(p) && !p.m.phase.JobDone?
    ensures Enabled(p, Get(0, 0)) && Enabled(HandleGet(p, 0, 0), Report(0, 0, 0))
    ensures !Misfire(HandleGet(p, 0, 0), Report(0, 0, 0))
    ensures var p' := HandleReport(HandleGet(p, 0, 0), 0, 0, 0);
            Resting(p') && Unfinished(p') == Unfinished(p) - 1
  {
    hide TaskOk, TasksOk, Sum, Agrees, IssuedOk, LogOk, HandleGet, HandleReport, Inv;
    RestingGetAssigns(job, p);
    GetKeepsPInv(job, p, 0, 0);
    var q := HandleGet(p, 0, 0);
    PInvReady(job, q);
    var a := q.open[0];
    assert Held(q.m, 0, a);
    ReportInside(job, q, 0, 0, 0);
    FinishReport(q, a);
  }

  lemma FinishReport(q: Proto, a: Assignment)
    requires Enabled(q, Report(0, 0, 0)) && Inv(q.m) && q.open == map[0 := a] && 0 in q.conns
    requires !Terminal(q.m.phase) && !Stale(q.m, 0, MsgOf(a, 0)) && !HitsCompleted(q.m, 0, MsgOf(a, 0))
    requires !Outside(q.m, 0, MsgOf(a, 0))
    requires q.m.workers[0].taskId == a.id && a.kind == PhaseKind(q.m.phase) && a.id < |Tasks(q.m, a.kind)|
    requires forall i :: 0 <= i < |q.m.maps| && (a.kind.MapTask? ==> i != a.id) ==>
      q.m.maps[i].state.Completed? || q.m.maps[i].state.Pending?
    requires forall i :: 0 <= i < |q.m.reduces| && (a.kind.ReduceTask? ==> i != a.id) ==>
      q.m.reduces[i].state.Completed? || q.m.reduces[i].state.Pending?
    ensures var p' := HandleReport(q, 0, 0, 0);
            Resting(p') && p'.m.mapsDone + p'.m.reducesDone == q.m.mapsDone + q.m.reducesDone + 1
            && |p'.m.maps| == |q.m.maps| && |p'.m.reduces| == |q.m.reduces|
  {
    hide TaskOk, Sum, Inv, AnyFailed, Complete;
    SuccessEffect(q.m, 0, MsgOf(a, 0), 0);
    assert q.open - {0} == map[];
  }

  lemma {:induction false} FinishFrom(job: Job, es: seq<Event>) returns (more: seq<Event>)
    requires JobOk(job) && Legal(job, es) && Clean(job, es) && Resting(After(job, es))
    ensures Legal(job, es + more) && Clean(job, es + more)
    ensures After(job, es + more).up && After(job, es + more).m.phase.JobDone?
    ensures |more| == 2 * Unfinished(After(job, es)) && forall e :: e in more ==> e.Get? || e.Report?
    decreases Unfinished(After(job, es))
  {
    hide PInv, Resting, HandleGet, HandleReport, Enabled, Misfire, Legal, After, Clean;
    RunKeepsPInv(job, es);
    var p := After(job, es);
    UnfinishedDone(job, p);
    if p.m.phase.JobDone? {
      more := [];
      assert es + more == es;
    } else {
      FinishOne(job, p);
      NotAReport(p, Get(0, 0));
      Extend(job, es, Get(0, 0));
      Extend(job, es + [Get(0, 0)], Report(0, 0, 0));
      var rest := FinishFrom(job, es + [Get(0, 0)] + [Report(0, 0, 0)]);
      more := [Get(0, 0)] + [Report(0, 0, 0)] + rest;
      assert es + more == es + [Get(0, 0)] + [Report(0, 0, 0)] + rest;
    }
  }

  lemma UnfinishedDone(job: Job, p: Proto)
    requires PInv(job, p) && Resting(p)
    ensures p.up && Unfinished(p) >= 0 && (p.m.phase.JobDone? <==> Unfinished(p) == 0)
  {
    DoneFull(p.m.maps);
    DoneFull(p.m.reduces);
    hide TaskOk, Sum;
  }

  /** After any run, unless a torn record blocks the restart, killing the master and attaching
      one worker finishes the job, provided workers report success, with one request and one report
      per unfinished task. */
  lemma CanFinish(job: Job, es: seq<Event>) returns (more: seq<Event>)
    requires JobOk(job) && Legal(job, es) && Clean(job, es) && After(job, es).up
    ensures Legal(job, es + more) && Clean(job, es + more)
    ensures After(job, es + more).up && After(job, es + more).m.phase.JobDone?
    ensures |more| == 3 + 2 * Unfinished(After(job, es))
  {
    hide Legal, After, Clean, PInv, Forgotten, Resting;
    CrashRecovery(job, es);
    var restarted := es + [Crash(false)] + [Restart];
    RunKeepsPInv(job, restarted);
    var p := After(job, restarted);
    PInvReady(job, p);
    Extend(job, restarted, Connect(0, 0));
    ForgottenRests(After(job, es), p);
    var rest := FinishFrom(job, restarted + [Connect(0, 0)]);
    more := [Crash(false)] + [Restart] + [Connect(0, 0)] + rest;
    assert es + more == restarted + [Connect(0, 0)] + rest;
  }

  lemma ForgottenRests(p: Proto, p': Proto)
    requires p'.up && p'.m == Forgotten(p.m) && p'.open == map[] && |p'.m.workers| == MAX_FDS
    ensures var q := p'.(m := OnConnect(p'.m, 0, 0), conns := p'.conns + {0});
            Resting(q) && Unfinished(q) == Unfinished(p)
  {
  }
}
