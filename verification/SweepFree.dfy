/** Runs in which the timeout sweep never fires, as in the event loop that ships. */
module SweepFree {
  import opened Scheduler
  import opened Recovery
  import opened Protocol

  predicate NoSweep(es: seq<Event>) {
    forall i :: 0 <= i < |es| ==> !es[i].Timeouts?
  }

  /** No sweep and no crash: the master goes on in its present lifetime. */
  predicate Quiet(es: seq<Event>) {
    forall i :: 0 <= i < |es| ==> !es[i].Timeouts? && !es[i].Crash?
  }

  /** The assignment is the live attempt of a running task of the current phase. */
  predicate InFlight(m: State, fd: nat, a: Assignment) {
    && !Terminal(m.phase) && a.kind == PhaseKind(m.phase)
    && a.id < |Tasks(m, a.kind)|
    && var t := Tasks(m, a.kind)[a.id];
       t.state.InProgress? && t.attempt == a.attempt && t.owner == fd
  }

  predicate Tight(m: State, open: map<nat, Assignment>) {
    forall fd :: fd in open ==> m.phase.JobFailed? || InFlight(m, fd, open[fd])
  }

  lemma TightNeverMisfires(job: Job, p: Proto, e: Event)
    requires PInv(job, p) && Enabled(p, e) && Tight(p.m, p.open)
    ensures !Misfire(p, e)
  {
    hide TaskOk, Sum, Inv, Agrees, IssuedOk, LogOk;
  }

  lemma TightNoReportWhenDone(job: Job, p: Proto, e: Event)
    requires PInv(job, p) && Enabled(p, e) && e.Report? && Tight(p.m, p.open)
    ensures !p.m.phase.JobDone?
  {
    assert InFlight(p.m, e.fd, p.open[e.fd]) || p.m.phase.JobFailed?;
  }

  lemma GetKeepsTight(job: Job, p: Proto, fd: nat, now: int)
    requires PInv(job, p) && Enabled(p, Get(fd, now)) && Tight(p.m, p.open)
    ensures Tight(HandleGet(p, fd, now).m, HandleGet(p, fd, now).open)
  {
    GetCases(p, fd, now);
    hide TaskOk, Sum, Agrees, IssuedOk, LogOk, TasksOk;
  }

  /** Every other outstanding assignment names a different slot. */
  lemma OthersElsewhere(job: Job, p: Proto, fd: nat, fd': nat)
    requires PInv(job, p) && p.up && Tight(p.m, p.open) && !p.m.phase.JobFailed?
    requires fd in p.open && fd' in p.open && fd != fd'
    ensures p.open[fd].id != p.open[fd'].id
  {
    assert InFlight(p.m, fd, p.open[fd]) && InFlight(p.m, fd', p.open[fd']);
    hide TaskOk, Sum, Agrees, IssuedOk, LogOk, TasksOk;
  }

  lemma FailureKeepsTight(job: Job, p: Proto, fd: nat, result: nat, now: int)
    requires PInv(job, p) && Enabled(p, Report(fd, result, now)) && Tight(p.m, p.open)
    requires result != 0 && !p.m.phase.JobFailed?
    ensures Tight(HandleReport(p, fd, result, now).m, HandleReport(p, fd, result, now).open)
  {
    hide TaskOk, Sum, Agrees, IssuedOk, LogOk, Inv, EndAttempt;
    var a := p.open[fd];
    assert InFlight(p.m, fd, a) && Held(p.m, fd, a);
    ReportInside(job, p, fd, result, now);
    FailureEffect(p.m, fd, MsgOf(a, result), now);
    var m' := TaskDone(p.m, fd, MsgOf(a, result), now).s;
    assert m'.phase.JobFailed? || m'.phase == p.m.phase;
    hide TaskDone;
    forall fd' | fd' in p.open && fd' != fd ensures m'.phase.JobFailed? || InFlight(m', fd', p.open[fd']) {
      OthersElsewhere(job, p, fd, fd');
      assert InFlight(p.m, fd', p.open[fd']);
    }
  }

  /** The phase advances only when the last slot of the kind completes, and then nothing else
      can be in flight. */
  lemma SuccessKeepsTight(job: Job, p: Proto, fd: nat, now: int)
    requires PInv(job, p) && Enabled(p, Report(fd, 0, now)) && Tight(p.m, p.open)
    requires !p.m.phase.JobFailed?
    ensures Tight(HandleReport(p, fd, 0, now).m, HandleReport(p, fd, 0, now).open)
  {
    hide TaskOk, Sum, Agrees, IssuedOk, LogOk, Inv;
    var a := p.open[fd];
    assert InFlight(p.m, fd, a) && Held(p.m, fd, a);
    ReportInside(job, p, fd, 0, now);
    SuccessEffect(p.m, fd, MsgOf(a, 0), now);
    var m' := TaskDone(p.m, fd, MsgOf(a, 0), now).s;
    PhaseAfterSuccess(p.m, fd, MsgOf(a, 0), now);
    hide TaskDone;
    forall fd' | fd' in p.open && fd' != fd ensures InFlight(m', fd', p.open[fd']) {
      OthersElsewhere(job, p, fd, fd');
      assert InFlight(p.m, fd', p.open[fd']);
      assert Tasks(m', a.kind)[p.open[fd'].id] == Tasks(p.m, a.kind)[p.open[fd'].id];
    }
  }

  lemma PhaseAfterSuccess(m: State, fd: nat, msg: DoneMsg, now: int)
    requires Inv(m) && fd < MAX_FDS && !Outside(m, fd, msg) && msg.result == 0
    requires !Terminal(m.phase) && !Stale(m, fd, msg) && !HitsCompleted(m, fd, msg)
    ensures var m', kind := TaskDone(m, fd, msg, now).s, PhaseKind(m.phase);
            && |Tasks(m', kind)| == |Tasks(m, kind)|
            && (m'.phase == m.phase || forall i :: 0 <= i < |Tasks(m', kind)| ==> Tasks(m', kind)[i].state.Completed?)
  {
    SuccessEffect(m, fd, msg, now);
    var m' := TaskDone(m, fd, msg, now).s;
    DoneFull(m'.maps);
    DoneFull(m'.reduces);
    hide TaskOk, Sum;
  }

  lemma ReportKeepsTight(job: Job, p: Proto, fd: nat, result: nat, now: int)
    requires PInv(job, p) && Enabled(p, Report(fd, result, now)) && Tight(p.m, p.open)
    ensures Tight(HandleReport(p, fd, result, now).m, HandleReport(p, fd, result, now).open)
  {
    if p.m.phase.JobFailed? {
    } else if result == 0 {
      SuccessKeepsTight(job, p, fd, now);
    } else {
      FailureKeepsTight(job, p, fd, result, now);
    }
  }

  lemma StepKeepsTight(job: Job, p: Proto, e: Event)
    requires JobOk(job) && PInv(job, p) && Enabled(p, e) && !e.Timeouts? && Tight(p.m, p.open)
    ensures Tight(Apply(job, p, e).m, Apply(job, p, e).open)
  {
    match e {
      case Get(fd, now) => GetKeepsTight(job, p, fd, now);
      case Report(fd, result, now) => ReportKeepsTight(job, p, fd, result, now);
      case Connect(fd, now) =>
      case Disconnect(fd) =>
      case Crash(torn) =>
      case Restart =>
    }
  }

  /** Without the sweep no assumption on report timing is needed: every run is clean, and every
      outstanding assignment is the live attempt of a running task of the phase. */
  lemma {:induction false} SweepFreeRuns(job: Job, es: seq<Event>)
    requires JobOk(job) && Legal(job, es) && NoSweep(es)
    ensures Clean(job, es) && PInv(job, After(job, es)) && Tight(After(job, es).m, After(job, es).open)
    decreases |es|
  {
    if es == [] {
      StartPInv(job);
    } else {
      var init, e := es[..|es| - 1], es[|es| - 1];
      SweepFreeRuns(job, init);
      var p := After(job, init);
      TightNeverMisfires(job, p, e);
      StepKeepsPInv(job, p, e);
      StepKeepsTight(job, p, e);
    }
  }

  /** In sweep-free runs the report handler's JOB_DONE branch is never taken. */
  lemma NoReportWhenDone(job: Job, es: seq<Event>, fd: nat, result: nat, now: int)
    requires JobOk(job) && Legal(job, es) && NoSweep(es) && Enabled(After(job, es), Report(fd, result, now))
    ensures !After(job, es).m.phase.JobDone?
  {
    SweepFreeRuns(job, es);
    hide Legal, After, Clean, PInv, Tight, Enabled;
    TightNoReportWhenDone(job, After(job, es), Report(fd, result, now));
  }

  // ----- a lost worker stalls the job -----

  /** A running task whose live attempt no connected worker holds. */
  predicate Orphaned(p: Proto, kind: Kind, i: nat) {
    && p.up && i < |Tasks(p.m, kind)| && Tasks(p.m, kind)[i].state.InProgress?
    && forall fd :: fd in p.open ==> p.open[fd] != Assignment(kind, i, Tasks(p.m, kind)[i].attempt)
  }

  lemma OrphanNotDone(m: State, kind: Kind, i: nat)
    requires Inv(m) && i < |Tasks(m, kind)| && Tasks(m, kind)[i].state.InProgress?
    ensures !m.phase.JobDone?
  {
    DoneFull(m.maps);
    DoneFull(m.reduces);
    hide TaskOk, Sum;
  }

  lemma ReportAfterFailure(m: State, fd: nat, msg: DoneMsg, now: int)
    requires m.phase.JobFailed? && fd < |m.workers|
    requires TaskDone.requires(m, fd, msg, now)
    ensures TaskDone(m, fd, msg, now).s == m && !TaskDone(m, fd, msg, now).acked
  {
  }

  lemma SlotUntouchedByReport(job: Job, p: Proto, fd: nat, result: nat, now: int, kind: Kind, i: nat)
    requires PInv(job, p) && Tight(p.m, p.open) && Enabled(p, Report(fd, result, now)) && Orphaned(p, kind, i)
    ensures i < |Tasks(HandleReport(p, fd, result, now).m, kind)|
    ensures Tasks(HandleReport(p, fd, result, now).m, kind)[i] == Tasks(p.m, kind)[i]
  {
    hide TaskOk, Sum, Agrees, IssuedOk, LogOk, TaskDone, Inv, EndAttempt, Complete;
    var a := p.open[fd];
    assert Held(p.m, fd, a);
    if p.m.phase.JobFailed? {
      ReportAfterFailure(p.m, fd, MsgOf(a, result), now);
    } else {
      assert InFlight(p.m, fd, a);
      ReportInside(job, p, fd, result, now);
      if result == 0 {
        SuccessEffect(p.m, fd, MsgOf(a, 0), now);
      } else {
        FailureEffect(p.m, fd, MsgOf(a, result), now);
      }
    }
  }

  lemma SlotUntouchedByGet(job: Job, p: Proto, fd: nat, now: int, kind: Kind, i: nat)
    requires PInv(job, p) && Enabled(p, Get(fd, now)) && Orphaned(p, kind, i)
    ensures i < |Tasks(HandleGet(p, fd, now).m, kind)|
    ensures Tasks(HandleGet(p, fd, now).m, kind)[i] == Tasks(p.m, kind)[i]
    ensures Orphaned(HandleGet(p, fd, now), kind, i)
  {
    hide TaskOk, Sum, Agrees, IssuedOk, LogOk, Inv, OpenOk, HandleGet, Assign;
    GetCases(p, fd, now);
  }

  lemma ReadyFds(p: Proto)
    requires Ready(p)
    ensures |p.m.workers| == MAX_FDS && forall fd :: fd in p.conns || fd in p.open ==> fd < MAX_FDS
  {
  }

  lemma ReportSubset(p: Proto, fd: nat, result: nat, now: int)
    requires Enabled(p, Report(fd, result, now))
    ensures var p' := HandleReport(p, fd, result, now);
            p'.up == p.up && forall g :: g in p'.open ==> g in p.open && p'.open[g] == p.open[g]
  {
    hide TaskDone;
  }

  lemma OrphanStep(job: Job, p: Proto, e: Event, kind: Kind, i: nat)
    requires JobOk(job) && PInv(job, p) && Tight(p.m, p.open) && Enabled(p, e) && !e.Timeouts? && !e.Crash?
    requires Orphaned(p, kind, i)
    ensures Orphaned(Apply(job, p, e), kind, i)
  {
    hide PInv, Tight, TaskDone, HandleGet, Ready;
    ReadyFds(p);
    match e {
      case Get(fd, now) => SlotUntouchedByGet(job, p, fd, now, kind, i);
      case Report(fd, result, now) =>
        SlotUntouchedByReport(job, p, fd, result, now, kind, i);
        ReportSubset(p, fd, result, now);
      case Connect(fd, now) =>
      case Disconnect(fd) =>
    }
  }

  lemma DisconnectOrphans(job: Job, p: Proto, fd: nat)
    requires PInv(job, p) && Tight(p.m, p.open) && p.up && fd in p.open && !p.m.phase.JobFailed? && fd < |p.m.workers|
    ensures Orphaned(Drop(p, fd), p.open[fd].kind, p.open[fd].id)
  {
    assert InFlight(p.m, fd, p.open[fd]);
    hide Inv, Agrees, IssuedOk, LogOk, Held;
  }

  /** Within one lifetime of the master and without the sweep, an orphan stays one. */
  lemma {:induction false} OrphanStays(job: Job, es: seq<Event>, more: seq<Event>, kind: Kind, i: nat)
    requires JobOk(job) && Legal(job, es) && Legal(job, es + more) && NoSweep(es) && Quiet(more)
    requires Orphaned(After(job, es), kind, i)
    ensures Orphaned(After(job, es + more), kind, i) && !After(job, es + more).m.phase.JobDone?
    decreases |more|
  {
    hide PInv, Tight, Orphaned, Apply, Enabled, Clean;
    var all := es + more;
    assert NoSweep(all);
    if more == [] {
      assert all == es;
    } else {
      var n := |more| - 1;
      var init := es + more[..n];
      assert all[..|all| - 1] == init && all[|all| - 1] == more[n];
      OrphanStays(job, es, more[..n], kind, i);
      SweepFreeRuns(job, init);
      OrphanStep(job, After(job, init), more[n], kind, i);
    }
    SweepFreeRuns(job, all);
    OrphanedNotDone(job, After(job, all), kind, i);
  }

  /** Once a worker is lost in mid-task, no sweep-free continuation of this lifetime of the
      master finishes the job: its task stays running until the master itself restarts. */
  lemma LostWorkerStalls(job: Job, es: seq<Event>, fd: nat, more: seq<Event>)
    requires JobOk(job) && Legal(job, es + [Disconnect(fd)]) && Legal(job, es + [Disconnect(fd)] + more)
    requires NoSweep(es) && Quiet(more)
    requires Legal(job, es) && fd in After(job, es).open && !After(job, es).m.phase.JobFailed?
    ensures var p, a := After(job, es + [Disconnect(fd)] + more), After(job, es).open[fd];
            Orphaned(p, a.kind, a.id) && !p.m.phase.JobDone?
  {
    hide PInv, Tight, Orphaned;
    var a := After(job, es).open[fd];
    assert (es + [Disconnect(fd)])[..|es|] == es;
    SweepFreeRuns(job, es);
    DisconnectOrphans(job, After(job, es), fd);
    OrphanStays(job, es + [Disconnect(fd)], more, a.kind, a.id);
  }

  lemma OrphanedNotDone(job: Job, p: Proto, kind: Kind, i: nat)
    requires PInv(job, p) && Orphaned(p, kind, i)
    ensures !p.m.phase.JobDone?
  {
    OrphanNotDone(p.m, kind, i);
  }
}
