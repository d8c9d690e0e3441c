/** When the whole system can finish its job in the present lifetime of the master, without the sweep
    and without a restart. */
module Lifetime {
  import opened Bytes
  import opened GroupWalk
  import opened Scheduler
  import opened Recovery
  import opened Protocol
  import opened SweepFree
  import opened Guarantees
  import opened Completion
  import opened Aof
  import opened Files
  import opened World
  import opened EndToEnd
  import opened Finishing

  // ----- every connection has its process -----

  predicate HasPeer(procs: map<nat, Proc>, fd: nat) {
    exists pid :: pid in procs && procs[pid].link == Some(fd)
  }

  predicate Peered(w: World) {
    forall fd :: fd in w.p.conns ==> HasPeer(w.procs, fd)
  }

  lemma PeerKept(procs: map<nat, Proc>, procs': map<nat, Proc>, fd: nat)
    requires HasPeer(procs, fd)
    requires forall pid :: pid in procs && procs[pid].link == Some(fd) ==> pid in procs' && procs'[pid].link == Some(fd)
    ensures HasPeer(procs', fd)
  {
    var pid :| pid in procs && procs[pid].link == Some(fd);
    assert pid in procs';
  }

  /** How a move changes the connections and the links. */
  lemma LinksMove(s: Setup, w: World, mv: Move)
    requires SetupOk(s) && WInv(s, w) && Allowed(s, w, mv)
    ensures var w' := Do(s, w, mv);
            && (forall fd :: fd in w'.p.conns ==> fd in w.p.conns || (mv.Join? && mv.fd == fd))
            && (forall pid :: pid in w.procs && w.procs[pid].link.Some? && w.procs[pid].link.value in w'.p.conns ==>
                  pid in w'.procs && w'.procs[pid].link == w.procs[pid].link)
            && (mv.Join? ==> mv.pid in w'.procs && w'.procs[mv.pid].link == Some(mv.fd))
  {
    hide PInv, DiskOk, LinksOk, LogProduced, ProcsOk, Ready, ReportsFit, Load, CanAct, Act, LogBytes, GetTask, Sweep,
      Replay, OnConnect, OnDisconnect;
    match mv {
      case Tell(pid, now) => TellConns(s, w, pid, now);
      case Boot => DownAlone(s, w);
      case _ =>
    }
  }

  lemma DownAlone(s: Setup, w: World)
    requires SetupOk(s) && WInv(s, w) && !w.p.up
    ensures w.p.conns == {}
  {
  }

  lemma TellConns(s: Setup, w: World, pid: nat, now: int)
    requires SetupOk(s) && WInv(s, w) && Allowed(s, w, Tell(pid, now))
    ensures var w', fd := Do(s, w, Tell(pid, now)), FdOf(w, pid);
            && w'.p.conns <= w.p.conns && pid in w'.procs && (fd in w'.p.conns ==> w'.procs[pid].link == Some(fd))
            && w'.procs == w.procs[pid := w'.procs[pid]]
  {
    hide PInv, DiskOk, LinksOk, LogProduced, ProcsOk, TaskDone, Ready, ReportsFit, Load, CanAct, LogBytes, LogFits;
    TellEffect(s, w, pid, now);
  }

  lemma PeeredStep(s: Setup, w: World, mv: Move)
    requires SetupOk(s) && WInv(s, w) && Allowed(s, w, mv) && Peered(w)
    ensures Peered(Do(s, w, mv))
  {
    hide WInv, Allowed, Do, HasPeer;
    LinksMove(s, w, mv);
    var w' := Do(s, w, mv);
    forall fd | fd in w'.p.conns ensures HasPeer(w'.procs, fd) {
      if fd in w.p.conns {
        PeerKept(w.procs, w'.procs, fd);
      } else {
        IsPeer(w'.procs, mv.pid, fd);
      }
    }
  }

  lemma IsPeer(procs: map<nat, Proc>, pid: nat, fd: nat)
    requires pid in procs && procs[pid].link == Some(fd)
    ensures HasPeer(procs, fd)
  {
  }

  lemma {:induction false} AlwaysPeered(s: Setup, mvs: seq<Move>)
    requires SetupOk(s) && WLegal(s, mvs) && WClean(s, mvs)
    ensures Peered(WAfter(s, mvs))
    decreases |mvs|
  {
    if mvs != [] {
      hide WInv, Allowed, Do, Peered, Misfire, Seen;
      var init := mvs[..|mvs| - 1];
      AlwaysPeered(s, init);
      RunKeepsWInv(s, init);
      PeeredStep(s, WAfter(s, init), mvs[|mvs| - 1]);
    }
  }

  // ----- what stands in the way -----

  /** A connected process works on the assignment. */
  predicate WorksOn(w: World, pid: nat, a: Assignment) {
    Linked(w, pid) && Busy(w.procs[pid].stage) && TaskOf(w.procs[pid].stage) == a
  }

  predicate SlotHeld(w: World, kind: Kind, i: nat)
    requires i < |Tasks(w.p.m, kind)|
  {
    exists pid :: pid in w.procs && WorksOn(w, pid, Assignment(kind, i, Tasks(w.p.m, kind)[i].attempt))
  }

  /** Every running slot is held by a connected process. */
  ghost predicate AllHeld(w: World) {
    forall kind, i: nat :: i < |Tasks(w.p.m, kind)| && Tasks(w.p.m, kind)[i].state.InProgress? ==> SlotHeld(w, kind, i)
  }

  /** A file operation has failed, and the process will report it. */
  predicate BoundToFail(st: Stage) {
    (st.Renaming? && !st.ok) || (st.Reporting? && st.result != 0)
  }

  predicate LosesLastAttempt(w: World, pid: nat) {
    Linked(w, pid) && BoundToFail(w.procs[pid].stage) && TaskOf(w.procs[pid].stage).attempt == MAX_ATTEMPTS
  }

  /** Some connected process is bound to report the failure of a last attempt. */
  predicate LastAttemptLost(w: World) {
    exists pid :: pid in w.procs && LosesLastAttempt(w, pid)
  }

  /** The process behind an outstanding assignment. */
  lemma Holder(s: Setup, w: World, fd: nat) returns (pid: nat)
    requires SetupOk(s) && WInv(s, w) && w.p.up && Peered(w) && fd in w.p.open
    ensures Linked(w, pid) && w.procs[pid].link == Some(fd) && WorksOn(w, pid, w.p.open[fd])
  {
    hide DiskOk, LogProduced, ProcsOk, Inv, Agrees, IssuedOk, LogOk, Held, TaskOf, Busy;
    assert fd in w.p.conns;
    pid :| pid in w.procs && w.procs[pid].link == Some(fd);
    assert LinkOk(w.p, w.procs[pid]);
  }

  lemma BooksName(s: Setup, w: World, pid: nat)
    requires SetupOk(s) && WInv(s, w) && Linked(w, pid)
    ensures var fd := FdOf(w, pid);
            && fd in w.p.conns && w.p.up && fd < MAX_FDS && |w.p.m.workers| == MAX_FDS
            && (Busy(w.procs[pid].stage) <==> fd in w.p.open)
            && (fd in w.p.open ==> w.p.open[fd] == TaskOf(w.procs[pid].stage))
  {
    hide DiskOk, LogProduced, ProcsOk, Inv, Agrees, IssuedOk, LogOk, Held, TaskOf, Busy;
    WInvReady(s, w);
    assert LinkOk(w.p, w.procs[pid]);
  }

  /** The slots without a connected process are the orphans of the protocol. */
  lemma HeldMeansNoOrphan(s: Setup, w: World)
    requires SetupOk(s) && WInv(s, w) && w.p.up && Peered(w)
    ensures AllHeld(w) <==> !HasOrphan(w.p)
  {
    hide WInv, TaskOf, Busy;
    if AllHeld(w) {
      forall kind, i: nat ensures !Orphaned(w.p, kind, i) {
        if i < |Tasks(w.p.m, kind)| && Tasks(w.p.m, kind)[i].state.InProgress? {
          assert SlotHeld(w, kind, i);
          var pid :| pid in w.procs && WorksOn(w, pid, Assignment(kind, i, Tasks(w.p.m, kind)[i].attempt));
          BooksName(s, w, pid);
        }
      }
    }
    if !HasOrphan(w.p) {
      forall kind, i: nat | i < |Tasks(w.p.m, kind)| && Tasks(w.p.m, kind)[i].state.InProgress?
        ensures SlotHeld(w, kind, i)
      {
        assert !Orphaned(w.p, kind, i);
        var fd :| fd in w.p.open && w.p.open[fd] == Assignment(kind, i, Tasks(w.p.m, kind)[i].attempt);
        var pid := Holder(s, w, fd);
        assert pid in w.procs;
      }
    }
  }

  // ----- what stands in the way stays -----

  ghost predicate Stuck(w: World) {
    w.p.m.phase.JobFailed? || HasOrphan(w.p) || LastAttemptLost(w)
  }

  lemma StuckNotDone(s: Setup, w: World)
    requires SetupOk(s) && WInv(s, w) && w.p.up && Tight(w.p.m, w.p.open) && Stuck(w)
    ensures !w.p.m.phase.JobDone?
  {
    hide WInv, PInv, Orphaned, TaskOf, InFlight;
    WInvPInv(s, w);
    if HasOrphan(w.p) {
      var kind, i: nat :| Orphaned(w.p, kind, i);
      OrphanedNotDone(s.job, w.p, kind, i);
    } else if LastAttemptLost(w) {
      var pid :| pid in w.procs && LosesLastAttempt(w, pid);
      BooksName(s, w, pid);
      FlightNotDone(w.p.m, FdOf(w, pid), w.p.open[FdOf(w, pid)]);
    }
  }

  lemma FlightNotDone(m: State, fd: nat, a: Assignment)
    ensures m.phase.JobFailed? || InFlight(m, fd, a) ==> !m.phase.JobDone?
  {
  }

  lemma FailedStays(s: Setup, w: World, mv: Move)
    requires SetupOk(s) && WInv(s, w) && w.p.up && Allowed(s, w, mv) && !mv.Kill? && w.p.m.phase.JobFailed?
    ensures Do(s, w, mv).p.up && Do(s, w, mv).p.m.phase.JobFailed?
  {
    hide WInv, PInv, Do, Allowed, Apply, Enabled;
    Projects(s, w, mv);
    WInvPInv(s, w);
    if Seen(w, mv).Some? {
      TerminalStep(s.job, w.p, Seen(w, mv).value);
    }
  }

  lemma OrphanMove(s: Setup, w: World, mv: Move, kind: Kind, i: nat)
    requires SetupOk(s) && WInv(s, w) && w.p.up && Tight(w.p.m, w.p.open) && Allowed(s, w, mv)
    requires !mv.Kill? && !mv.SweepNow? && Orphaned(w.p, kind, i)
    ensures Orphaned(Do(s, w, mv).p, kind, i)
  {
    hide WInv, PInv, Tight, Orphaned, Do, Allowed, Apply, Enabled;
    Projects(s, w, mv);
    WInvPInv(s, w);
    if Seen(w, mv).Some? {
      OrphanStep(s.job, w.p, Seen(w, mv).value, kind, i);
    }
  }

  /** Moves that do not concern a process leave it as it is. */
  lemma ProcUntouched(s: Setup, w: World, mv: Move, pid: nat)
    requires Allowed(s, w, mv) && Linked(w, pid) && w.p.up && !mv.Kill? && !mv.SweepNow?
    requires mv.Lose? || mv.Ask? || mv.Tell? || mv.Work? ==> mv.pid != pid
    ensures Linked(Do(s, w, mv), pid) && Do(s, w, mv).procs[pid] == w.procs[pid]
  {
    hide Ready, ReportsFit, Load, CanAct, Act, LogBytes, GetTask, Sweep, Replay, TaskDone;
  }

  /** A process that is bound to fail stays so while it works. */
  lemma FailingWork(s: Setup, w: World, pid: nat, act: Action)
    requires SetupOk(s) && WInv(s, w) && Allowed(s, w, Work(pid, act)) && LosesLastAttempt(w, pid)
    ensures LosesLastAttempt(Do(s, w, Work(pid, act)), pid)
  {
    hide WInv, Ready, ReportsFit, Load, IsCount, WithinLimit;
  }

  lemma LosingMove(s: Setup, w: World, mv: Move, pid: nat)
    requires SetupOk(s) && WInv(s, w) && w.p.up && Tight(w.p.m, w.p.open) && Allowed(s, w, mv)
    requires !mv.Kill? && !mv.SweepNow? && LosesLastAttempt(w, pid) && !w.p.m.phase.JobFailed?
    ensures Stuck(Do(s, w, mv))
  {
    hide WInv, PInv, Tight, Do, Allowed, Orphaned, HandleReport, TaskOf, Apply;
    WInvPInv(s, w);
    BooksName(s, w, pid);
    Projects(s, w, mv);
    var w' := Do(s, w, mv);
    if mv == Lose(pid) {
      DisconnectOrphans(s.job, w.p, FdOf(w, pid));
      LoseDrops(s, w, pid);
    } else if mv.Tell? && mv.pid == pid {
      TellReports(s, w, pid, mv.now);
      LastFails(s.job, w.p, FdOf(w, pid), w.procs[pid].stage.result, mv.now);
    } else if mv.Work? && mv.pid == pid {
      FailingWork(s, w, pid, mv.act);
      assert pid in w'.procs;
    } else {
      NotAsking(s, w, mv, pid);
      ProcUntouched(s, w, mv, pid);
      assert pid in w'.procs && LosesLastAttempt(w', pid);
    }
  }

  lemma NotAsking(s: Setup, w: World, mv: Move, pid: nat)
    requires Allowed(s, w, mv) && Linked(w, pid) && BoundToFail(w.procs[pid].stage)
    ensures mv.Ask? ==> mv.pid != pid
  {
  }

  lemma LoseDrops(s: Setup, w: World, pid: nat)
    requires Allowed(s, w, Lose(pid)) && FdOf(w, pid) < |w.p.m.workers|
    ensures Do(s, w, Lose(pid)).p == Drop(w.p, FdOf(w, pid))
  {
    hide Ready, ReportsFit;
  }

  lemma TellReports(s: Setup, w: World, pid: nat, now: int)
    requires Allowed(s, w, Tell(pid, now))
    ensures w.procs[pid].stage.Reporting? && Enabled(w.p, Report(FdOf(w, pid), w.procs[pid].stage.result, now))
    ensures Do(s, w, Tell(pid, now)).p == HandleReport(w.p, FdOf(w, pid), w.procs[pid].stage.result, now)
  {
    hide Ready, ReportsFit, LogBytes, TaskDone;
  }

  lemma StuckStep(s: Setup, w: World, mv: Move)
    requires SetupOk(s) && WInv(s, w) && w.p.up && Tight(w.p.m, w.p.open) && Allowed(s, w, mv)
    requires !mv.Kill? && !mv.SweepNow? && Stuck(w)
    ensures Do(s, w, mv).p.up && Stuck(Do(s, w, mv))
  {
    hide WInv, Tight, Do, Allowed, Orphaned, LosesLastAttempt;
    StaysUp(s, w, mv);
    if w.p.m.phase.JobFailed? {
      FailedStays(s, w, mv);
    } else if HasOrphan(w.p) {
      var kind, i: nat :| Orphaned(w.p, kind, i);
      OrphanMove(s, w, mv, kind, i);
    } else {
      var pid :| pid in w.procs && LosesLastAttempt(w, pid);
      LosingMove(s, w, mv, pid);
    }
  }

  lemma StaysUp(s: Setup, w: World, mv: Move)
    requires SetupOk(s) && WInv(s, w) && w.p.up && Allowed(s, w, mv) && !mv.Kill?
    ensures Do(s, w, mv).p.up
  {
    hide WInv, PInv, Do, Allowed, TaskDone, GetTask, Sweep;
    Projects(s, w, mv);
  }

  lemma CalmGoesOn(mvs: seq<Move>, more: seq<Move>)
    requires WNoSweep(mvs)
    ensures Calm(more) ==> WNoSweep(mvs + more)
    ensures Calm(more) && more != [] ==>
              Calm(more[..|more| - 1]) && !more[|more| - 1].Kill? && !more[|more| - 1].SweepNow?
  {
  }

  lemma {:induction false} StuckStays(s: Setup, mvs: seq<Move>, more: seq<Move>)
    requires SetupOk(s) && WLegal(s, mvs) && WLegal(s, mvs + more) && WNoSweep(mvs) && Calm(more)
    requires WAfter(s, mvs).p.up && Stuck(WAfter(s, mvs))
    ensures WAfter(s, mvs + more).p.up && Stuck(WAfter(s, mvs + more)) && !WAfter(s, mvs + more).p.m.phase.JobDone?
    decreases |more|
  {
    hide WInv, Tight, Allowed, Do, WClean, Stuck, WNoSweep, Calm;
    var all := mvs + more;
    CalmGoesOn(mvs, more);
    if more == [] {
      assert all == mvs;
    } else {
      var n := |more| - 1;
      var init := mvs + more[..n];
      assert all[..|all| - 1] == init && all[|all| - 1] == more[n];
      CalmGoesOn(mvs, more[..n]);
      StuckStays(s, mvs, more[..n]);
      SweepFreeIsClean(s, init);
      RunKeepsWInv(s, init);
      StuckStep(s, WAfter(s, init), more[n]);
    }
    SweepFreeIsClean(s, all);
    RunKeepsWInv(s, all);
    StuckNotDone(s, WAfter(s, all));
  }

  // ----- otherwise the job can be finished -----

  /** A process that is bound to fail gets to its report. */
  lemma {:induction false} FailOn(s: Setup, mvs: seq<Move>, pid: nat) returns (more: seq<Move>, result: nat)
    requires SetupOk(s) && WLegal(s, mvs) && WClean(s, mvs)
    requires pid in WAfter(s, mvs).procs && BoundToFail(WAfter(s, mvs).procs[pid].stage)
    ensures WLegal(s, mvs + more) && WClean(s, mvs + more) && Calm(more) && result != 0
    ensures var w, w' := WAfter(s, mvs), WAfter(s, mvs + more);
            && w'.p == w.p
            && w'.procs == w.procs[pid := Proc(w.procs[pid].link, Reporting(TaskOf(w.procs[pid].stage), result))]
    decreases Steps(s, WAfter(s, mvs).procs[pid].stage)
  {
    hide WLegal, WClean, WAfter, WInv, CanAct, Act, Do, Allowed;
    RunKeepsWInv(s, mvs);
    var w := WAfter(s, mvs);
    var st := w.procs[pid].stage;
    if st.Reporting? {
      more, result := [], st.result;
      assert mvs + more == mvs;
      assert w.procs == w.procs[pid := w.procs[pid]];
    } else {
      FailingRename(s, w, pid);
      hide Steps, TaskOf, Busy;
      WorkStep(s, w, pid, RenameNext(true));
      WExtend(s, mvs, Work(pid, RenameNext(true)));
      var rest;
      rest, result := FailOn(s, mvs + [Work(pid, RenameNext(true))], pid);
      more := [Work(pid, RenameNext(true))] + rest;
      assert mvs + more == mvs + [Work(pid, RenameNext(true))] + rest;
    }
  }

  lemma FailingRename(s: Setup, w: World, pid: nat)
    requires SetupOk(s) && WInv(s, w) && pid in w.procs && w.procs[pid].stage.Renaming? && !w.procs[pid].stage.ok
    ensures CanAct(s, pid, w.procs[pid].stage, w.files, RenameNext(true))
    ensures var st' := Act(s, pid, w.procs[pid].stage, w.files, RenameNext(true)).stage;
            BoundToFail(st') && 0 <= Steps(s, st') < Steps(s, w.procs[pid].stage)
  {
    hide PInv, DiskOk, LinksOk, LogProduced, Part;
    var st := w.procs[pid].stage;
    assert StageOk(s, w.files, w.p.log, pid, st);
    assert st.y < st.R ==> Tmp(w.files, st.x, st.y, pid, st.attempt, Part(s, st.x, st.y));
  }

  /** What draining needs of a state, and keeps. */
  ghost predicate CanDrain(w: World) {
    w.p.up && !w.p.m.phase.JobFailed? && !HasOrphan(w.p) && !LastAttemptLost(w)
  }

  lemma OthersGoOn(w: World, w': World, pid: nat, fd: nat)
    requires w'.procs == w.procs[pid := Proc(Some(fd), Idle)] && !LastAttemptLost(w)
    ensures !LastAttemptLost(w')
  {
    forall q | q in w'.procs ensures !LosesLastAttempt(w', q) {
      assert q in w.procs && q != pid ==> !LosesLastAttempt(w, q);
    }
  }

  /** One outstanding assignment is brought to its report, failed or not. */
  lemma DrainOne(s: Setup, mvs: seq<Move>, fd: nat) returns (more: seq<Move>)
    requires SetupOk(s) && WLegal(s, mvs) && WNoSweep(mvs) && WithinLimit(TokenBag(s))
    requires CanDrain(WAfter(s, mvs)) && fd in WAfter(s, mvs).p.open
    ensures WLegal(s, mvs + more) && Calm(more)
    ensures CanDrain(WAfter(s, mvs + more)) && WAfter(s, mvs + more).p.open == WAfter(s, mvs).p.open - {fd}
  {
    hide WLegal, WClean, WAfter, WInv, Tight, WithinLimit, TokenBag, Do, Allowed, HasOrphan, LastAttemptLost,
      HandleReport, Enabled, TaskOf, Peered;
    SweepFreeIsClean(s, mvs);
    RunKeepsWInv(s, mvs);
    AlwaysPeered(s, mvs);
    var w := WAfter(s, mvs);
    var pid := Holder(s, w, fd);
    var a := w.p.open[fd];
    var result := 0;
    if Smooth(w.procs[pid].stage) {
      more := WorkOn(s, mvs, pid);
    } else {
      NotYetLast(w, pid);
      more, result := FailOn(s, mvs, pid);
    }
    more := Report1(s, mvs, more, pid, fd, result);
  }

  lemma NotYetLast(w: World, pid: nat)
    requires pid in w.procs && Linked(w, pid) && !LastAttemptLost(w)
    ensures BoundToFail(w.procs[pid].stage) ==> TaskOf(w.procs[pid].stage).attempt != MAX_ATTEMPTS
  {
    assert !LosesLastAttempt(w, pid);
  }

  lemma Report1(s: Setup, mvs: seq<Move>, work: seq<Move>, pid: nat, fd: nat, result: nat) returns (more: seq<Move>)
    requires SetupOk(s) && WLegal(s, mvs) && WNoSweep(mvs) && Calm(work) && WLegal(s, mvs + work)
    requires CanDrain(WAfter(s, mvs)) && fd in WAfter(s, mvs).p.open && pid in WAfter(s, mvs).procs
    requires WAfter(s, mvs + work).p == WAfter(s, mvs).p
    requires var a := WAfter(s, mvs).p.open[fd];
             && WAfter(s, mvs + work).procs == WAfter(s, mvs).procs[pid := Proc(Some(fd), Reporting(a, result))]
             && (result != 0 ==> a.attempt != MAX_ATTEMPTS)
    ensures WLegal(s, mvs + more) && Calm(more)
    ensures CanDrain(WAfter(s, mvs + more)) && WAfter(s, mvs + more).p.open == WAfter(s, mvs).p.open - {fd}
  {
    hide WLegal, WClean, WAfter, WInv, Tight, Do, Allowed, HasOrphan, LastAttemptLost, HandleReport, Enabled, PInv,
      Misfire;
    var worked := mvs + work;
    assert WNoSweep(worked);
    SweepFreeIsClean(s, worked);
    RunKeepsWInv(s, worked);
    var w, v := WAfter(s, mvs), WAfter(s, worked);
    WInvPInv(s, v);
    AttemptBound(s.job, v.p, fd);
    if result == 0 {
      ReportStep(s.job, v.p, fd);
    } else {
      FailStep(s.job, v.p, fd, result);
    }
    OpenConnected(s.job, v.p, fd);
    TellStep(s, v, pid, fd, v.p.open[fd], result);
    TightNeverMisfires(s.job, v.p, Report(fd, result, 0));
    WExtend(s, worked, Tell(pid, 0));
    OthersGoOn(w, WAfter(s, worked + [Tell(pid, 0)]), pid, fd);
    more := work + [Tell(pid, 0)];
    assert mvs + more == worked + [Tell(pid, 0)];
  }

  lemma AttemptBound(job: Job, p: Proto, fd: nat)
    requires PInv(job, p) && p.up && fd in p.open
    ensures p.open[fd].attempt <= MAX_ATTEMPTS
  {
    var a := p.open[fd];
    assert Held(p.m, fd, a) && TaskOk(Tasks(p.m, a.kind)[a.id]);
  }

  lemma OpenConnected(job: Job, p: Proto, fd: nat)
    requires PInv(job, p) && p.up && fd in p.open
    ensures fd in p.conns
  {
  }

  lemma {:induction false} DrainAll(s: Setup, mvs: seq<Move>) returns (more: seq<Move>)
    requires SetupOk(s) && WLegal(s, mvs) && WNoSweep(mvs) && WithinLimit(TokenBag(s)) && CanDrain(WAfter(s, mvs))
    ensures WLegal(s, mvs + more) && Calm(more)
    ensures CanDrain(WAfter(s, mvs + more)) && WAfter(s, mvs + more).p.open == map[]
    decreases |WAfter(s, mvs).p.open|
  {
    hide WLegal, WAfter, WithinLimit, TokenBag, CanDrain;
    var open := WAfter(s, mvs).p.open;
    if open == map[] {
      more := [];
      assert mvs + more == mvs;
    } else {
      var fd :| fd in open;
      assert open == (open - {fd})[fd := open[fd]];
      var first := DrainOne(s, mvs, fd);
      assert WNoSweep(mvs + first);
      var rest := DrainAll(s, mvs + first);
      more := first + rest;
      assert mvs + more == mvs + first + rest;
    }
  }

  /** Nothing runs: a fresh process takes connection 0. */
  lemma JoinZero(s: Setup, mvs: seq<Move>) returns (more: seq<Move>, pid: nat)
    requires SetupOk(s) && WLegal(s, mvs) && WNoSweep(mvs) && 0 !in WAfter(s, mvs).p.conns
    requires var p := WAfter(s, mvs).p; p.up && !p.m.phase.JobFailed? && !HasOrphan(p) && p.open == map[]
    ensures WLegal(s, mvs + more) && Calm(more) && Ready0(WAfter(s, mvs + more), pid)
  {
    hide WLegal, WClean, WAfter, WInv, Tight, Allowed, HasOrphan, Misfire, PInv, Resting;
    SweepFreeIsClean(s, mvs);
    RunKeepsWInv(s, mvs);
    var w := WAfter(s, mvs);
    pid := FreshNumber(w.procs.Keys);
    NotAReport(w.p, Connect(0, 0));
    ConnectStep(s, w, pid);
    WExtend(s, mvs, Join(pid, 0, 0));
    more := [Join(pid, 0, 0)];
    var w' := WAfter(s, mvs + more);
    assert WNoSweep(mvs + more);
    SweepFreeIsClean(s, mvs + more);
    RunKeepsWInv(s, mvs + more);
    WInvPInv(s, w');
    OrphansStay(w.p, w'.p.m, w'.p.conns);
    NothingRuns(s.job, w'.p);
  }

  lemma ConnectStep(s: Setup, w: World, pid: nat)
    requires SetupOk(s) && WInv(s, w) && w.p.up && pid !in w.procs && 0 !in w.p.conns
    ensures Allowed(s, w, Join(pid, 0, 0)) && Seen(w, Join(pid, 0, 0)) == Some(Connect(0, 0))
    ensures var w' := Do(s, w, Join(pid, 0, 0));
            && w'.p == w.p.(m := w'.p.m, conns := w'.p.conns) && w'.p.conns == w.p.conns + {0}
            && w'.p.m.maps == w.p.m.maps && w'.p.m.reduces == w.p.m.reduces && w'.p.m.phase == w.p.m.phase
            && pid in w'.procs && w'.procs[pid] == Proc(Some(0), Idle)
  {
    hide WInv, Ready, ReportsFit, Load, CanAct;
    WInvReady(s, w);
    ReadyFds(w.p);
  }

  lemma LoseStep(s: Setup, w: World, pid: nat)
    requires SetupOk(s) && WInv(s, w) && Linked(w, pid) && FdOf(w, pid) == 0 && w.p.open == map[]
    ensures Allowed(s, w, Lose(pid)) && Seen(w, Lose(pid)) == Some(Disconnect(0))
    ensures var w' := Do(s, w, Lose(pid));
            && w'.p == w.p.(m := w'.p.m, conns := w'.p.conns) && 0 !in w'.p.conns
            && w'.p.m.maps == w.p.m.maps && w'.p.m.reduces == w.p.m.reduces && w'.p.m.phase == w.p.m.phase
  {
    hide WInv, Ready, ReportsFit, Load, CanAct;
    WInvReady(s, w);
    BooksName(s, w, pid);
    assert w.p.open - {0} == w.p.open;
  }

  /** Nothing runs: connection 0 gets an idle process, if need be after losing one that has exited. */
  lemma HaveIdle(s: Setup, mvs: seq<Move>) returns (more: seq<Move>, pid: nat)
    requires SetupOk(s) && WLegal(s, mvs) && WNoSweep(mvs)
    requires var p := WAfter(s, mvs).p; p.up && !p.m.phase.JobFailed? && !HasOrphan(p) && p.open == map[]
    ensures WLegal(s, mvs + more) && Calm(more) && Ready0(WAfter(s, mvs + more), pid)
  {
    hide WLegal, WClean, WAfter, WInv, Tight, Allowed, Do, HasOrphan, Misfire, PInv, Resting;
    SweepFreeIsClean(s, mvs);
    RunKeepsWInv(s, mvs);
    AlwaysPeered(s, mvs);
    var w := WAfter(s, mvs);
    if 0 !in w.p.conns {
      more, pid := JoinZero(s, mvs);
    } else {
      assert HasPeer(w.procs, 0);
      pid :| pid in w.procs && w.procs[pid].link == Some(0);
      BooksName(s, w, pid);
      if w.procs[pid].stage.Idle? {
        more := [];
        assert mvs + more == mvs;
        WInvPInv(s, w);
        NothingRuns(s.job, w.p);
      } else {
        LoseStep(s, w, pid);
        NotAReport(w.p, Disconnect(0));
        WExtend(s, mvs, Lose(pid));
        var lost := mvs + [Lose(pid)];
        var w' := WAfter(s, lost);
        OrphansStay(w.p, w'.p.m, w'.p.conns);
        assert WNoSweep(lost);
        var rest, q := JoinZero(s, lost);
        more, pid := [Lose(pid)] + rest, q;
        assert mvs + more == lost + rest;
      }
    }
  }

  /** Some continuation finishes the job in the present lifetime of the master. */
  ghost predicate CanFinishHere(s: Setup, mvs: seq<Move>)
    requires SetupOk(s) && WLegal(s, mvs)
  {
    exists more :: Calm(more) && WLegal(s, mvs + more) && WAfter(s, mvs + more).p.m.phase.JobDone?
  }

  lemma NothingInTheWay(s: Setup, mvs: seq<Move>)
    requires SetupOk(s) && WLegal(s, mvs) && WNoSweep(mvs) && WithinLimit(TokenBag(s)) && CanDrain(WAfter(s, mvs))
    ensures CanFinishHere(s, mvs)
  {
    hide WLegal, WAfter, WClean, WithinLimit, TokenBag, HasOrphan, LastAttemptLost, Ready0, Tight;
    var a := DrainAll(s, mvs);
    assert WNoSweep(mvs + a);
    var b, pid := HaveIdle(s, mvs + a);
    assert WNoSweep(mvs + a + b);
    SweepFreeIsClean(s, mvs + a + b);
    var c := AllTasks(s, mvs + a + b, pid);
    assert mvs + (a + b + c) == mvs + a + b + c;
    assert Calm(a + b + c);
  }

  /** After every sweep-free run that leaves the master up, the job can be finished without restarting
      the master if and only if it has not failed, every running slot is held by a connected process,
      no connected process is bound to report the failure of a last attempt, and no token occurs more
      often than the reduce worker takes. */
  lemma FinishesHereIff(s: Setup, mvs: seq<Move>)
    requires SetupOk(s) && WLegal(s, mvs) && WNoSweep(mvs) && WAfter(s, mvs).p.up
    ensures var w := WAfter(s, mvs);
            CanFinishHere(s, mvs) <==>
            && !w.p.m.phase.JobFailed? && AllHeld(w) && !LastAttemptLost(w)
            && WithinLimit(TokenBag(s))
  {
    hide WLegal, WAfter, WClean, WInv, Tight, Peered, WithinLimit, TokenBag, HasOrphan, LastAttemptLost, AllHeld;
    SweepFreeIsClean(s, mvs);
    RunKeepsWInv(s, mvs);
    AlwaysPeered(s, mvs);
    var w := WAfter(s, mvs);
    HeldMeansNoOrphan(s, w);
    if Stuck(w) {
      forall more | Calm(more) && WLegal(s, mvs + more) ensures !WAfter(s, mvs + more).p.m.phase.JobDone? {
        StuckStays(s, mvs, more);
      }
    } else if WithinLimit(TokenBag(s)) {
      NothingInTheWay(s, mvs);
    } else {
      forall more | Calm(more) && WLegal(s, mvs + more) ensures !WAfter(s, mvs + more).p.m.phase.JobDone? {
        TooOften(s, mvs, more);
      }
    }
  }

  lemma TooOften(s: Setup, mvs: seq<Move>, more: seq<Move>)
    requires SetupOk(s) && WLegal(s, mvs) && WLegal(s, mvs + more) && WNoSweep(mvs) && Calm(more)
    requires WAfter(s, mvs).p.up && !WithinLimit(TokenBag(s))
    ensures !WAfter(s, mvs + more).p.m.phase.JobDone?
  {
    hide WLegal, WAfter, WClean, WInv, Tight, WithinLimit, TokenBag;
    assert WNoSweep(mvs + more);
    SweepFreeIsClean(s, mvs + more);
    CalmStaysUp(s, mvs, more);
    if WAfter(s, mvs + more).p.m.phase.JobDone? {
      DoneWithinLimit(s, mvs + more);
    }
  }

  lemma {:induction false} CalmStaysUp(s: Setup, mvs: seq<Move>, more: seq<Move>)
    requires SetupOk(s) && WLegal(s, mvs) && WLegal(s, mvs + more) && WNoSweep(mvs) && Calm(more)
    requires WAfter(s, mvs).p.up
    ensures WAfter(s, mvs + more).p.up
    decreases |more|
  {
    hide WInv, Tight, Allowed, Do, WClean, WNoSweep, Calm;
    var all := mvs + more;
    CalmGoesOn(mvs, more);
    if more == [] {
      assert all == mvs;
    } else {
      var n := |more| - 1;
      var init := mvs + more[..n];
      assert all[..|all| - 1] == init && all[|all| - 1] == more[n];
      CalmGoesOn(mvs, more[..n]);
      CalmStaysUp(s, mvs, more[..n]);
      SweepFreeIsClean(s, init);
      RunKeepsWInv(s, init);
      StaysUp(s, WAfter(s, init), more[n]);
    }
  }
}
