/** When a master that lives on without the sweep can still finish its job. */
module Completion {
  import opened Scheduler
  import opened Recovery
  import opened Protocol
  import opened SweepFree
  import opened Guarantees

  /** Some continuation within the present lifetime of the master finishes the job, whatever the
      workers are able to report. */
  ghost predicate CanComplete(job: Job, es: seq<Event>)
    requires Legal(job, es)
  {
    exists more :: Quiet(more) && Legal(job, es + more) && After(job, es + more).m.phase.JobDone?
  }

  ghost predicate HasOrphan(p: Proto) {
    exists kind, i: nat :: Orphaned(p, kind, i)
  }

  lemma SuccessPhase(m: State, fd: nat, msg: DoneMsg, now: int)
    requires Inv(m) && fd < MAX_FDS && !Outside(m, fd, msg) && msg.result == 0
    requires !Terminal(m.phase) && !Stale(m, fd, msg)
    ensures !TaskDone(m, fd, msg, now).s.phase.JobFailed?
  {
    hide TaskOk, Sum, Complete;
  }

  /** In a sweep-free state every outstanding assignment can be reported as a success, and that
      leaves no new orphan. */
  lemma ReportStep(job: Job, p: Proto, fd: nat)
    requires PInv(job, p) && Tight(p.m, p.open) && p.up && fd in p.open && !p.m.phase.JobFailed? && !HasOrphan(p)
    ensures Enabled(p, Report(fd, 0, 0))
    ensures var p' := HandleReport(p, fd, 0, 0);
            p'.up && p'.conns == p.conns && p'.open == p.open - {fd} && !p'.m.phase.JobFailed? && !HasOrphan(p')
  {
    hide TaskOk, Sum, Agrees, IssuedOk, LogOk, Inv, Complete;
    PInvReady(job, p);
    var a := p.open[fd];
    assert InFlight(p.m, fd, a) && Held(p.m, fd, a);
    ReportInside(job, p, fd, 0, 0);
    SuccessEffect(p.m, fd, MsgOf(a, 0), 0);
    SuccessPhase(p.m, fd, MsgOf(a, 0), 0);
    hide TaskDone;
    var p' := HandleReport(p, fd, 0, 0);
    forall kind, i: nat ensures !Orphaned(p', kind, i) {
      OrphanBefore(p, p', fd, kind, i);
    }
  }

  lemma OrphanBefore(p: Proto, p': Proto, fd: nat, kind: Kind, i: nat)
    requires p.up && fd in p.open && p'.open == p.open - {fd} && !HasOrphan(p)
    requires var a := p.open[fd];
             && a.id < |Tasks(p.m, a.kind)| && |Tasks(p'.m, a.kind)| == |Tasks(p.m, a.kind)|
             && p'.m.maps == WithTask(p.m, a.kind, a.id, Tasks(p'.m, a.kind)[a.id]).maps
             && p'.m.reduces == WithTask(p.m, a.kind, a.id, Tasks(p'.m, a.kind)[a.id]).reduces
             && !Tasks(p'.m, a.kind)[a.id].state.InProgress?
    ensures !Orphaned(p', kind, i)
  {
    if i < |Tasks(p'.m, kind)| && Tasks(p'.m, kind)[i].state.InProgress? {
      assert !Orphaned(p, kind, i);
      var g :| g in p.open && p.open[g] == Assignment(kind, i, Tasks(p.m, kind)[i].attempt);
      assert g in p'.open && p'.open[g] == p.open[g];
    }
  }

  /** A failed attempt that was not the last one leaves its slot pending, and no new orphan. */
  lemma FailStep(job: Job, p: Proto, fd: nat, result: nat)
    requires PInv(job, p) && Tight(p.m, p.open) && p.up && fd in p.open && !p.m.phase.JobFailed? && !HasOrphan(p)
    requires result != 0 && p.open[fd].attempt < MAX_ATTEMPTS
    ensures Enabled(p, Report(fd, result, 0))
    ensures var p' := HandleReport(p, fd, result, 0);
            p'.up && p'.conns == p.conns && p'.open == p.open - {fd} && !p'.m.phase.JobFailed? && !HasOrphan(p')
  {
    hide TaskOk, Sum, Agrees, IssuedOk, LogOk, Inv;
    PInvReady(job, p);
    var a := p.open[fd];
    assert InFlight(p.m, fd, a) && Held(p.m, fd, a);
    ReportInside(job, p, fd, result, 0);
    FailureEffect(p.m, fd, MsgOf(a, result), 0);
    FailurePhase(p.m, fd, MsgOf(a, result), 0);
    hide TaskDone, EndAttempt;
    var p' := HandleReport(p, fd, result, 0);
    forall kind, i: nat ensures !Orphaned(p', kind, i) {
      OrphanBefore(p, p', fd, kind, i);
    }
  }

  lemma FailurePhase(m: State, fd: nat, msg: DoneMsg, now: int)
    requires Inv(m) && fd < MAX_FDS && !Outside(m, fd, msg) && msg.result != 0
    requires !Terminal(m.phase) && !Stale(m, fd, msg)
    ensures var r, kind, i := TaskDone(m, fd, msg, now).s, PhaseKind(m.phase), m.workers[fd].taskId;
            && (r.phase.JobFailed? <==> Tasks(m, kind)[i].attempt >= MAX_ATTEMPTS)
            && i < |Tasks(r, kind)| && !Tasks(r, kind)[i].state.InProgress?
  {
    hide Sum;
    assert TaskOk(Tasks(m, PhaseKind(m.phase))[m.workers[fd].taskId]);
  }

  /** A failed last attempt fails the job. */
  lemma LastFails(job: Job, p: Proto, fd: nat, result: nat, now: int)
    requires PInv(job, p) && Tight(p.m, p.open) && Enabled(p, Report(fd, result, now)) && result != 0
    requires p.open[fd].attempt == MAX_ATTEMPTS
    ensures HandleReport(p, fd, result, now).m.phase.JobFailed?
  {
    hide TaskOk, Sum, Agrees, IssuedOk, LogOk, Inv;
    var a := p.open[fd];
    assert Held(p.m, fd, a);
    if p.m.phase.JobFailed? {
      ReportAfterFailure(p.m, fd, MsgOf(a, result), now);
    } else {
      assert InFlight(p.m, fd, a);
      ReportInside(job, p, fd, result, now);
      FailurePhase(p.m, fd, MsgOf(a, result), now);
    }
    hide TaskDone;
  }

  lemma {:induction false} ReportAll(job: Job, es: seq<Event>) returns (more: seq<Event>)
    requires JobOk(job) && Legal(job, es) && NoSweep(es) && After(job, es).up
    requires !After(job, es).m.phase.JobFailed? && !HasOrphan(After(job, es))
    ensures Quiet(more) && Legal(job, es + more)
    ensures var p := After(job, es + more); p.up && p.open == map[] && !p.m.phase.JobFailed? && !HasOrphan(p)
    decreases |After(job, es).open|
  {
    hide Legal, After, Clean, PInv, Tight, HasOrphan, HandleReport, Enabled;
    SweepFreeRuns(job, es);
    var p := After(job, es);
    if p.open == map[] {
      more := [];
      assert es + more == es;
    } else {
      var fd :| fd in p.open;
      var e := Report(fd, 0, 0);
      ReportStep(job, p, fd);
      Extend(job, es, e);
      assert |p.open - {fd}| < |p.open| by {
        assert p.open == (p.open - {fd})[fd := p.open[fd]];
      }
      var rest := ReportAll(job, es + [e]);
      more := [e] + rest;
      assert es + more == es + [e] + rest;
    }
  }

  lemma NothingRuns(job: Job, p: Proto)
    requires PInv(job, p) && p.up && p.open == map[] && !p.m.phase.JobFailed? && !HasOrphan(p) && 0 in p.conns
    ensures Resting(p)
  {
    hide TaskOk, Sum, Agrees, IssuedOk, LogOk;
    forall kind, i: nat | i < |Tasks(p.m, kind)|
      ensures Tasks(p.m, kind)[i].state.Completed? || Tasks(p.m, kind)[i].state.Pending?
    {
      assert !Orphaned(p, kind, i);
      assert !AnyFailed(Tasks(p.m, kind));
    }
    assert forall i :: 0 <= i < |p.m.maps| ==> p.m.maps[i] == Tasks(p.m, MapTask)[i];
    assert forall i :: 0 <= i < |p.m.reduces| ==> p.m.reduces[i] == Tasks(p.m, ReduceTask)[i];
  }

  /** Makes sure that connection 0 is there. */
  lemma HaveWorker(job: Job, es: seq<Event>) returns (more: seq<Event>)
    requires JobOk(job) && Legal(job, es) && NoSweep(es)
    requires var p := After(job, es); p.up && p.open == map[] && !p.m.phase.JobFailed? && !HasOrphan(p)
    ensures Quiet(more) && Legal(job, es + more) && Clean(job, es + more) && Resting(After(job, es + more))
  {
    hide Legal, After, Clean, PInv, Tight, HasOrphan, Resting;
    SweepFreeRuns(job, es);
    var p := After(job, es);
    if 0 in p.conns {
      more := [];
      assert es + more == es;
    } else {
      more := [Connect(0, 0)];
      PInvReady(job, p);
      Extend(job, es, Connect(0, 0));
      OrphansStay(p, OnConnect(p.m, 0, 0), p.conns + {0});
      assert NoSweep(es + more);
      SweepFreeRuns(job, es + more);
    }
    NothingRuns(job, After(job, es + more));
  }

  lemma OrphansStay(p: Proto, m: State, conns: set<nat>)
    requires m.maps == p.m.maps && m.reduces == p.m.reduces && !HasOrphan(p)
    ensures !HasOrphan(p.(m := m, conns := conns))
  {
    forall kind, i: nat ensures !Orphaned(p.(m := m, conns := conns), kind, i) {
      assert !Orphaned(p, kind, i);
    }
  }

  lemma NoOrphanCompletes(job: Job, es: seq<Event>)
    requires JobOk(job) && Legal(job, es) && NoSweep(es) && After(job, es).up
    requires !After(job, es).m.phase.JobFailed? && !HasOrphan(After(job, es))
    ensures CanComplete(job, es)
  {
    hide Legal, After, Clean, HasOrphan, Resting;
    var a := ReportAll(job, es);
    assert NoSweep(es + a);
    var b := HaveWorker(job, es + a);
    var c := FinishFrom(job, es + a + b);
    assert es + (a + b + c) == es + a + b + c;
    assert Quiet(a + b + c) by {
      assert forall i :: 0 <= i < |c| ==> c[i] in c;
    }
  }

  /** After a sweep-free run, a running master whose job has not failed can finish the job without
      being restarted, provided workers report success, if and only if every running task is held by
      a connected worker. When workers can report success is the matter of the Lifetime module. */
  lemma CompletesIffNoOrphan(job: Job, es: seq<Event>)
    requires JobOk(job) && Legal(job, es) && NoSweep(es) && After(job, es).up && !After(job, es).m.phase.JobFailed?
    ensures CanComplete(job, es) <==> !HasOrphan(After(job, es))
  {
    hide Legal, After;
    if HasOrphan(After(job, es)) {
      var kind, i: nat :| Orphaned(After(job, es), kind, i);
      forall more | Quiet(more) && Legal(job, es + more) ensures !After(job, es + more).m.phase.JobDone? {
        OrphanStays(job, es, more, kind, i);
      }
    } else {
      NoOrphanCompletes(job, es);
    }
  }

  /** Every job has an orphan after its first worker connects, asks and is lost. */
  lemma FirstWorkerLost(job: Job)
    requires JobOk(job)
    ensures var es := [Connect(0, 0)] + [Get(0, 0)] + [Disconnect(0)];
            && Legal(job, es) && NoSweep(es) && After(job, es).up && !After(job, es).m.phase.JobFailed?
            && Orphaned(After(job, es), MapTask, 0) && !CanComplete(job, es)
  {
    assert Legal(job, []) && After(job, []) == Start(job);
    StartPInv(job);
    FreshView(job);
    hide Legal, After, Clean, PInv, HandleGet, Replay;
    PInvReady(job, Start(job));
    Extend(job, [], Connect(0, 0));
    assert [] + [Connect(0, 0)] == [Connect(0, 0)];
    var es := [Connect(0, 0)];
    SweepFreeRuns(job, es);
    var p := After(job, es);
    PInvReady(job, p);
    FirstGiven(job, p);
    Extend(job, es, Get(0, 0));
    LostAfter(job, es + [Get(0, 0)]);
  }

  lemma LostAfter(job: Job, es: seq<Event>)
    requires JobOk(job) && Legal(job, es) && NoSweep(es)
    requires var p := After(job, es);
             p.up && 0 in p.conns && 0 in p.open && p.open[0].kind == MapTask && p.open[0].id == 0 && p.m.phase.JobMap?
    ensures var es' := es + [Disconnect(0)];
            && Legal(job, es') && NoSweep(es') && After(job, es').up && !After(job, es').m.phase.JobFailed?
            && Orphaned(After(job, es'), MapTask, 0) && !CanComplete(job, es')
  {
    hide Legal, After, Clean, PInv, Tight, Orphaned, Ready;
    SweepFreeRuns(job, es);
    var p := After(job, es);
    PInvReady(job, p);
    ReadyFds(p);
    Extend(job, es, Disconnect(0));
    DisconnectOrphans(job, p, 0);
    CompletesIffNoOrphan(job, es + [Disconnect(0)]);
  }


  lemma FreshView(job: Job)
    requires JobOk(job)
    ensures var p := Start(job);
            p.m.phase.JobMap? && |p.m.maps| > 0 && p.m.maps[0].state.Pending? && p.up && p.conns == {} &&
              p.open == map[]
  {
    assert forall r: Record :: r !in Start(job).log;
  }

  lemma FirstGiven(job: Job, p: Proto)
    requires PInv(job, p) && Enabled(p, Get(0, 0)) && p.m.phase.JobMap? && |p.m.maps| > 0 && p.m.maps[0].state.Pending?
    ensures var q := HandleGet(p, 0, 0);
            0 in q.open && q.open[0].kind == MapTask && q.open[0].id == 0 && q.m.phase.JobMap? && q.up &&
              q.conns == p.conns
  {
    hide TaskOk, Sum, Agrees, IssuedOk, LogOk, Inv, OpenOk;
    assert FirstPending(p.m.maps, 0) == 0;
    GetCases(p, 0, 0);
  }
}
