/** When the whole system can finish its job: worker by worker, file by file. */
module Finishing {
  import opened Bytes
  import opened Text
  import opened MapWorker
  import opened ReduceWorker
  import opened GroupWalk
  import opened WordCount
  import opened ReduceRun
  import opened Scheduler
  import opened Recovery
  import opened Protocol
  import opened SweepFree
  import opened Guarantees
  import opened Aof
  import opened Files
  import opened World
  import opened EndToEnd

  // ----- the limit on occurrences -----

  /** A bag is within the limit exactly when all its partitions are. */
  lemma LimitByPartition(s: Setup)
    requires SetupOk(s)
    ensures WithinLimit(TokenBag(s)) <==>
            forall y :: 0 <= y < s.job.R ==> WithinLimit(PartitionBag(Splits(s), y, s.job.R))
  {
    var splits, R, all := Splits(s), s.job.R, TokenBag(s);
    hide PartitionBag, Partition, JobTokens, Splits;
    if WithinLimit(all) {
      forall y, w | 0 <= y < R && w in PartitionBag(splits, y, R) ensures PartitionBag(splits, y, R)[w] <= MAX_VALUES {
        PartitionBagAt(splits, y, R, w);
        assert w in all;
      }
    }
    if forall y :: 0 <= y < R ==> WithinLimit(PartitionBag(splits, y, R)) {
      forall w | w in all ensures all[w] <= MAX_VALUES {
        var y := Partition(w, R);
        PartitionBagAt(splits, y, R, w);
        assert WithinLimit(PartitionBag(splits, y, R)) && w in PartitionBag(splits, y, R);
      }
    }
  }

  lemma OutLimit(s: Setup, files: Dir, y: nat)
    requires SetupOk(s) && OutOk(s, files, y)
    ensures WithinLimit(PartitionBag(Splits(s), y, s.job.R))
  {
  }

  /** A job that is done has no word with more occurrences than the reduce worker takes. */
  lemma DoneWithinLimit(s: Setup, mvs: seq<Move>)
    requires SetupOk(s) && WLegal(s, mvs) && WClean(s, mvs)
    requires WAfter(s, mvs).p.up && WAfter(s, mvs).p.m.phase.JobDone?
    ensures WithinLimit(TokenBag(s))
  {
    RunKeepsWInv(s, mvs);
    var w := WAfter(s, mvs);
    DoneOutputs(s, w);
    hide WithinLimit, PartitionBag, OutOk, TokenBag, WInv, WLegal, WAfter, WClean;
    forall y | 0 <= y < s.job.R ensures WithinLimit(PartitionBag(Splits(s), y, s.job.R)) {
      OutLimit(s, w.files, y);
    }
    LimitByPartition(s);
  }

  // ----- one task, step by step -----

  /** Steps a process still has to take before it reports. */
  function Steps(s: Setup, st: Stage): int
    requires SetupOk(s)
  {
    match st
    case Opening(x, _, _, R, y) =>
      if x < |s.job.paths| then (R - y) + |MapTokens(SplitText(s, x))| + R + 4 else 0
    case Emitting(x, _, _, R, k) =>
      if x < |s.job.paths| then |MapTokens(SplitText(s, x))| - k + R + 3 else 0
    case Renaming(_, _, R, y, _) => R - y + 1
    case Reading(_, _, nMap, x, _) => nMap - x + 2
    case Publishing(_, _) => 1
    case _ => 0
  }

  /** No file operation has failed so far. */
  predicate Smooth(st: Stage) {
    Busy(st) && (st.Renaming? ==> st.ok) && (st.Reporting? ==> st.result == 0)
  }

  /** The process has a next step, and it brings the report nearer. */
  ghost predicate Advances(s: Setup, pid: nat, st: Stage, files: Dir, act: Action)
    requires SetupOk(s)
  {
    && CanAct(s, pid, st, files, act)
    && var st' := Act(s, pid, st, files, act).stage;
    && Smooth(st') && 0 <= Steps(s, st') < Steps(s, st)
  }

  lemma NextMapStep(s: Setup, files: Dir, log: seq<Record>, pid: nat, st: Stage) returns (act: Action)
    requires SetupOk(s) && StageOk(s, files, log, pid, st) && Smooth(st)
    requires st.Opening? || st.Emitting? || st.Renaming?
    ensures Advances(s, pid, st, files, act)
  {
    hide MapTokens, PartBytes, Part;
    match st {
      case Opening(x, attempt, path, R, y) =>
        act := if y < R then OpenTmp else CloseAll;
      case Emitting(x, attempt, path, R, k) =>
        forall y | 0 <= y < R ensures InterTmp(x, y, pid, attempt) in files {
          assert Tmp(files, x, y, pid, attempt, PartBytes(MapTokens(SplitText(s, x))[..k], y, R));
        }
        act := if k < |MapTokens(SplitText(s, x))| then EmitNext else CloseAll;
      case Renaming(x, attempt, R, y, ok) =>
        assert y < R ==> Tmp(files, x, y, pid, attempt, Part(s, x, y));
        act := RenameNext(true);
    }
  }

  lemma NextReduceStep(s: Setup, files: Dir, log: seq<Record>, pid: nat, st: Stage) returns (act: Action)
    requires SetupOk(s) && StageOk(s, files, log, pid, st) && LogProduced(s, files, log) && Smooth(st)
    requires st.Reading? || st.Publishing?
    requires st.Reading? ==> WithinLimit(PartitionBag(Splits(s), st.y, s.job.R))
    ensures Advances(s, pid, st, files, act)
  {
    hide WithinLimit, IsCount, Keys, ReadRecords, MapTokens, KeptTokens, LogProduced, AllMapsLogged, OutputOk,
      ReduceKeys, Render;
    if st.Publishing? {
      act := RenameOut(true);
    } else if st.x < st.nMap {
      ReadsKept(s, files, log, st.x, st.y);
      act := ReadNext;
    } else {
      assert multiset(st.keys) == PartitionBag(Splits(s), st.y, s.job.R);
      var out := CountExists(st.keys);
      act := WriteOut(out);
    }
  }

  /** A reduce worker that has read everything and met a word with too many occurrences can only give
      up, and then it reports failure. */
  lemma OverLimitFails(s: Setup, files: Dir, log: seq<Record>, pid: nat, st: Stage, act: Action)
    requires SetupOk(s) && StageOk(s, files, log, pid, st) && st.Reading? && st.x == st.nMap
    requires !WithinLimit(PartitionBag(Splits(s), st.y, s.job.R))
    ensures CanAct(s, pid, st, files, act) <==> act.GiveUp?
    ensures act.GiveUp? ==> Act(s, pid, st, files, act).stage == Reporting(TaskOf(st), 1)
  {
    hide WithinLimit, IsCount, AllMapsLogged, ReduceKeys;
    assert multiset(st.keys) == PartitionBag(Splits(s), st.y, s.job.R);
  }

  // ----- runs of the system -----

  /** The master is neither killed nor swept. */
  predicate Calm(mvs: seq<Move>) {
    forall i :: 0 <= i < |mvs| ==> !mvs[i].Kill? && !mvs[i].SweepNow?
  }

  lemma WExtend(s: Setup, mvs: seq<Move>, mv: Move)
    requires SetupOk(s) && WLegal(s, mvs) && WClean(s, mvs) && Allowed(s, WAfter(s, mvs), mv)
    requires Seen(WAfter(s, mvs), mv).Some? ==> !Misfire(WAfter(s, mvs).p, Seen(WAfter(s, mvs), mv).value)
    ensures WLegal(s, mvs + [mv]) && WClean(s, mvs + [mv]) && WAfter(s, mvs + [mv]) == Do(s, WAfter(s, mvs), mv)
  {
    hide Allowed, Misfire, Seen, Do;
    assert (mvs + [mv])[..|mvs|] == mvs;
  }

  lemma WorkStep(s: Setup, w: World, pid: nat, act: Action)
    requires SetupOk(s) && WInv(s, w) && pid in w.procs && CanAct(s, pid, w.procs[pid].stage, w.files, act)
    ensures Allowed(s, w, Work(pid, act)) && Seen(w, Work(pid, act)).None?
    ensures var w' := Do(s, w, Work(pid, act));
            && w'.p == w.p && pid in w'.procs
            && w'.procs == w.procs[pid := Proc(w.procs[pid].link, Act(s, pid, w.procs[pid].stage, w.files, act).stage)]
            && Busy(w.procs[pid].stage) && Busy(w'.procs[pid].stage)
            && TaskOf(w'.procs[pid].stage) == TaskOf(w.procs[pid].stage)
  {
    hide CanAct, Act, WInv, Ready, ReportsFit, Load, Grows, StageOk, TaskOf, Busy;
    WInvReady(s, w);
    WorkStage(s, w, pid, act);
  }

  lemma StageHolds(s: Setup, w: World, pid: nat)
    requires SetupOk(s) && WInv(s, w) && pid in w.procs
    ensures StageOk(s, w.files, w.p.log, pid, w.procs[pid].stage) && LogProduced(s, w.files, w.p.log)
    ensures w.procs[pid].stage.Reading? ==> w.procs[pid].stage.y < s.job.R
  {
    hide PInv, DiskOk, LinksOk, LogProduced;
  }

  lemma NextStep(s: Setup, w: World, pid: nat) returns (act: Action)
    requires SetupOk(s) && WInv(s, w) && pid in w.procs && WithinLimit(TokenBag(s))
    requires Smooth(w.procs[pid].stage) && !w.procs[pid].stage.Reporting?
    ensures Advances(s, pid, w.procs[pid].stage, w.files, act)
  {
    hide WInv, StageOk, LogProduced, WithinLimit, TokenBag, PartitionBag, Advances;
    var st := w.procs[pid].stage;
    StageHolds(s, w, pid);
    LimitByPartition(s);
    if st.Reading? || st.Publishing? {
      act := NextReduceStep(s, w.files, w.p.log, pid, st);
    } else {
      act := NextMapStep(s, w.files, w.p.log, pid, st);
    }
  }

  /** Left alone, a process brings its task to a successful report. */
  lemma {:induction false} WorkOn(s: Setup, mvs: seq<Move>, pid: nat) returns (more: seq<Move>)
    requires SetupOk(s) && WLegal(s, mvs) && WClean(s, mvs) && WithinLimit(TokenBag(s))
    requires pid in WAfter(s, mvs).procs && Smooth(WAfter(s, mvs).procs[pid].stage)
    ensures WLegal(s, mvs + more) && WClean(s, mvs + more)
    ensures var w, w' := WAfter(s, mvs), WAfter(s, mvs + more);
            && w'.p == w.p
            && w'.procs == w.procs[pid := Proc(w.procs[pid].link, Reporting(TaskOf(w.procs[pid].stage), 0))]
    ensures Calm(more)
    decreases Steps(s, WAfter(s, mvs).procs[pid].stage)
  {
    hide WLegal, WClean, WAfter, WInv, WithinLimit, TokenBag, CanAct, Act, Do, Allowed;
    RunKeepsWInv(s, mvs);
    var w := WAfter(s, mvs);
    var st := w.procs[pid].stage;
    if st.Reporting? {
      more := [];
      assert mvs + more == mvs;
      assert w.procs == w.procs[pid := w.procs[pid]];
    } else {
      hide Steps, TaskOf, Busy;
      var act := NextStep(s, w, pid);
      WorkStep(s, w, pid, act);
      WExtend(s, mvs, Work(pid, act));
      var rest := WorkOn(s, mvs + [Work(pid, act)], pid);
      more := [Work(pid, act)] + rest;
      assert mvs + more == mvs + [Work(pid, act)] + rest;
    }
  }

  // ----- one task after another -----

  /** One idle worker on connection 0, and nothing running. */
  predicate Ready0(w: World, pid: nat) {
    Resting(w.p) && pid in w.procs && w.procs[pid] == Proc(Some(0), Idle)
  }

  lemma AskStep(s: Setup, w: World, pid: nat)
    requires SetupOk(s) && WInv(s, w) && Ready0(w, pid) && !w.p.m.phase.JobDone?
    ensures Allowed(s, w, Ask(pid, 0)) && Seen(w, Ask(pid, 0)) == Some(Get(0, 0))
    ensures Enabled(w.p, Get(0, 0))
    ensures var w' := Do(s, w, Ask(pid, 0));
            && w'.p == HandleGet(w.p, 0, 0) && pid in w'.procs && w'.procs[pid].link == Some(0)
            && Smooth(w'.procs[pid].stage) && 0 in w'.p.open && TaskOf(w'.procs[pid].stage) == w'.p.open[0]
  {
    hide PInv, DiskOk, LinksOk, LogProduced, ProcsOk, HandleGet, GetTask, Ready, ReportsFit, Load, CanAct;
    WInvReady(s, w);
    RestingGetAssigns(s.job, w.p);
    AskEffect(s.job, w.p, 0, 0);
  }

  lemma TellStep(s: Setup, w: World, pid: nat, fd: nat, a: Assignment, result: nat)
    requires SetupOk(s) && WInv(s, w) && pid in w.procs && w.procs[pid] == Proc(Some(fd), Reporting(a, result))
    requires Enabled(w.p, Report(fd, result, 0)) && fd in HandleReport(w.p, fd, result, 0).conns
    ensures Allowed(s, w, Tell(pid, 0)) && Seen(w, Tell(pid, 0)) == Some(Report(fd, result, 0))
    ensures var w' := Do(s, w, Tell(pid, 0));
            w'.p == HandleReport(w.p, fd, result, 0) && w'.procs == w.procs[pid := Proc(Some(fd), Idle)]
  {
    hide PInv, DiskOk, LinksOk, LogProduced, ProcsOk, TaskDone, Ready, ReportsFit, Load, CanAct, LogBytes, LogFits;
    WInvReady(s, w);
  }

  /** One more task done. */
  lemma OneTask(s: Setup, mvs: seq<Move>, pid: nat) returns (more: seq<Move>)
    requires SetupOk(s) && WLegal(s, mvs) && WClean(s, mvs) && WithinLimit(TokenBag(s))
    requires Ready0(WAfter(s, mvs), pid) && !WAfter(s, mvs).p.m.phase.JobDone?
    ensures WLegal(s, mvs + more) && WClean(s, mvs + more) && Ready0(WAfter(s, mvs + more), pid)
    ensures Unfinished(WAfter(s, mvs + more).p) == Unfinished(WAfter(s, mvs).p) - 1
    ensures Calm(more)
  {
    hide WLegal, WClean, WAfter, WInv, WithinLimit, TokenBag, Do, Allowed, Misfire, HandleGet, HandleReport, Enabled,
      Resting, PInv, Unfinished, Smooth, TaskOf;
    RunKeepsWInv(s, mvs);
    var w := WAfter(s, mvs);
    WInvPInv(s, w);
    FinishOne(s.job, w.p);
    NotAReport(w.p, Get(0, 0));
    AskStep(s, w, pid);
    WExtend(s, mvs, Ask(pid, 0));
    var asked := mvs + [Ask(pid, 0)];
    var work := WorkOn(s, asked, pid);
    var worked := asked + work;
    RunKeepsWInv(s, worked);
    var v := WAfter(s, worked);
    RestingConn(HandleReport(v.p, 0, 0, 0));
    TellStep(s, v, pid, 0, v.procs[pid].stage.a, 0);
    WExtend(s, worked, Tell(pid, 0));
    more := [Ask(pid, 0)] + work + [Tell(pid, 0)];
    assert mvs + more == worked + [Tell(pid, 0)];
  }

  lemma WInvPInv(s: Setup, w: World)
    requires SetupOk(s) && WInv(s, w)
    ensures PInv(s.job, w.p)
  {
  }

  lemma RestingConn(p: Proto)
    requires Resting(p)
    ensures p.up && 0 in p.conns
  {
  }

  lemma {:induction false} AllTasks(s: Setup, mvs: seq<Move>, pid: nat) returns (more: seq<Move>)
    requires SetupOk(s) && WLegal(s, mvs) && WClean(s, mvs) && WithinLimit(TokenBag(s)) && Ready0(WAfter(s, mvs), pid)
    ensures WLegal(s, mvs + more) && WClean(s, mvs + more)
    ensures WAfter(s, mvs + more).p.up && WAfter(s, mvs + more).p.m.phase.JobDone? && Calm(more)
    decreases Unfinished(WAfter(s, mvs).p)
  {
    hide WLegal, WClean, WAfter, WInv, WithinLimit, TokenBag, Resting, PInv, Unfinished;
    RunKeepsWInv(s, mvs);
    var w := WAfter(s, mvs);
    WInvPInv(s, w);
    UnfinishedDone(s.job, w.p);
    if w.p.m.phase.JobDone? {
      more := [];
      assert mvs + more == mvs;
    } else {
      var first := OneTask(s, mvs, pid);
      var rest := AllTasks(s, mvs + first, pid);
      more := first + rest;
      assert mvs + more == mvs + first + rest;
    }
  }

  // ----- from anywhere -----

  lemma {:induction false} FreshNumber(used: set<nat>) returns (n: nat)
    ensures forall k :: k in used ==> k < n
    decreases |used|
  {
    if used == {} {
      n := 0;
    } else {
      var k :| k in used;
      n := FreshNumber(used - {k});
      assert forall j :: j in used ==> j == k || j in used - {k};
      n := if n <= k then k + 1 else n;
    }
  }

  lemma JoinStep(s: Setup, w: World, pid: nat, m: State)
    requires SetupOk(s) && WInv(s, w) && pid !in w.procs && w.p.up && w.p.conns == {} && w.p.open == map[]
    requires w.p.m == Forgotten(m)
    ensures Allowed(s, w, Join(pid, 0, 0)) && Seen(w, Join(pid, 0, 0)) == Some(Connect(0, 0))
    ensures Ready0(Do(s, w, Join(pid, 0, 0)), pid)
  {
    hide PInv, DiskOk, LinksOk, LogProduced, ProcsOk, Ready, ReportsFit, Load, CanAct, Forgotten, Resting, OnConnect;
    WInvReady(s, w);
    ReadyFds(w.p);
    assert Do(s, w, Join(pid, 0, 0)).p == w.p.(m := OnConnect(w.p.m, 0, 0), conns := w.p.conns + {0});
    ForgottenRests(Proto(true, false, m, [], {}, map[], [], false), w.p);
  }

  /** A master that is down and whose file is not torn starts as if it had forgotten its unfinished
      work. */
  lemma BootStep(s: Setup, w: World)
    requires SetupOk(s) && WInv(s, w) && !w.p.up && w.tail == []
    ensures Allowed(s, w, Boot)
    ensures var up := Do(s, w, Boot);
            && up.p.up && up.p.conns == {} && up.p.open == map[] && up.procs == w.procs
            && up.p.m == Forgotten(Replay(s.job, w.p.log))
  {
    hide LinksOk, LogProduced, ProcsOk, FileBytes, Load, Replay, Forgotten, LogFits, InRange, LogOk, Ready, ReportsFit;
    WInvReady(s, w);
    LogInRange(s.job, w.p.log);
    FileReadBack(s.job, s.created, w.p.log, []);
    BootIsRestart(s, w);
    ReplayInv(s.job, w.p.log);
    ReplayAgrees(s.job, w.p.log);
    ReplayIsForgotten(s.job, Replay(s.job, w.p.log), w.p.log);
  }

  /** Start the master and attach one fresh worker. */
  lemma BootAndJoin(s: Setup, mvs: seq<Move>) returns (more: seq<Move>, pid: nat)
    requires SetupOk(s) && WLegal(s, mvs) && WClean(s, mvs) && !WAfter(s, mvs).p.up && WAfter(s, mvs).tail == []
    ensures WLegal(s, mvs + more) && WClean(s, mvs + more) && Ready0(WAfter(s, mvs + more), pid)
  {
    hide WLegal, WClean, WAfter, WInv, Allowed, Do, Misfire, Forgotten, Ready0, Load, Replay;
    RunKeepsWInv(s, mvs);
    var w := WAfter(s, mvs);
    BootStep(s, w);
    NotAReport(w.p, Restart);
    WExtend(s, mvs, Boot);
    var booted := mvs + [Boot];
    RunKeepsWInv(s, booted);
    var up := WAfter(s, booted);
    pid := FreshNumber(up.procs.Keys);
    NotAReport(up.p, Connect(0, 0));
    JoinStep(s, up, pid, Replay(s.job, w.p.log));
    WExtend(s, booted, Join(pid, 0, 0));
    more := [Boot] + [Join(pid, 0, 0)];
    assert mvs + more == booted + [Join(pid, 0, 0)];
  }

  lemma KilledWhole(s: Setup, w: World)
    requires Allowed(s, w, Kill([]))
    ensures !Do(s, w, Kill([])).p.up && Do(s, w, Kill([])).tail == []
  {
    hide Ready, ReportsFit;
  }

  /** Kill the master if it is up, start it, and attach one fresh worker. */
  lemma StartOver(s: Setup, mvs: seq<Move>) returns (more: seq<Move>, pid: nat)
    requires SetupOk(s) && WLegal(s, mvs) && WClean(s, mvs) && (WAfter(s, mvs).p.up || WAfter(s, mvs).tail == [])
    ensures WLegal(s, mvs + more) && WClean(s, mvs + more) && Ready0(WAfter(s, mvs + more), pid)
  {
    hide WLegal, WClean, WAfter, WInv, Allowed, Do, Misfire, Forgotten, Ready0, Load;
    var w := WAfter(s, mvs);
    if w.p.up {
      BootFromDisk(s, mvs, []);
      NotAReport(w.p, Crash(false));
      WExtend(s, mvs, Kill([]));
      KilledWhole(s, w);
      var rest;
      rest, pid := BootAndJoin(s, mvs + [Kill([])]);
      more := [Kill([])] + rest;
      assert mvs + more == mvs + [Kill([])] + rest;
    } else {
      more, pid := BootAndJoin(s, mvs);
    }
  }

  lemma TornStep(s: Setup, w: World, mv: Move)
    requires SetupOk(s) && WInv(s, w) && !w.p.up && w.tail != [] && Allowed(s, w, mv)
    ensures !Do(s, w, mv).p.up && Do(s, w, mv).tail == w.tail
  {
    hide LinksOk, LogProduced, ProcsOk, PInv, FileBytes, Load, LogFits, InRange, Ready, ReportsFit, CanAct, Act;
    TornRefused(s, w);
  }

  lemma TornRefused(s: Setup, w: World)
    requires SetupOk(s) && WInv(s, w) && !w.p.up && w.tail != []
    ensures Load(w.disk).None?
  {
    hide LinksOk, LogProduced, ProcsOk, RunningOk, FileBytes, Load, LogFits, InRange, LogOk;
    LogInRange(s.job, w.p.log);
    FileReadBack(s.job, s.created, w.p.log, w.tail);
  }

  /** A torn record keeps the master down for ever. */
  lemma {:induction false} TornStays(s: Setup, mvs: seq<Move>, more: seq<Move>)
    requires SetupOk(s) && WLegal(s, mvs) && WLegal(s, mvs + more) && WClean(s, mvs + more)
    requires !WAfter(s, mvs).p.up && WAfter(s, mvs).tail != []
    ensures !WAfter(s, mvs + more).p.up && WAfter(s, mvs + more).tail != []
    decreases |more|
  {
    hide WInv, Allowed, Do, Misfire, Seen;
    if more == [] {
      assert mvs + more == mvs;
    } else {
      var n := |more| - 1;
      var init := mvs + more[..n];
      assert (mvs + more)[..|mvs + more| - 1] == init && (mvs + more)[|mvs + more| - 1] == more[n];
      TornStays(s, mvs, more[..n]);
      RunKeepsWInv(s, init);
      TornStep(s, WAfter(s, init), more[n]);
    }
  }

  /** The job can still be finished by some clean continuation. */
  ghost predicate CanFinishWork(s: Setup, mvs: seq<Move>)
    requires SetupOk(s) && WLegal(s, mvs)
  {
    exists more :: && WLegal(s, mvs + more) && WClean(s, mvs + more)
                   && WAfter(s, mvs + more).p.up && WAfter(s, mvs + more).p.m.phase.JobDone?
  }

  /** After every clean run the job can still be finished if and only if no token occurs more often
      than the reduce worker takes and the master is up or left a whole log file. */
  lemma FinishesIffWithinLimit(s: Setup, mvs: seq<Move>)
    requires SetupOk(s) && WLegal(s, mvs) && WClean(s, mvs)
    ensures var w := WAfter(s, mvs);
            CanFinishWork(s, mvs) <==> WithinLimit(TokenBag(s)) && (w.p.up || w.tail == [])
  {
    hide WLegal, WClean, WAfter, WithinLimit, TokenBag, Ready0;
    var w := WAfter(s, mvs);
    if WithinLimit(TokenBag(s)) && (w.p.up || w.tail == []) {
      var start, pid := StartOver(s, mvs);
      var rest := AllTasks(s, mvs + start, pid);
      assert mvs + (start + rest) == mvs + start + rest;
    }
    forall more | && WLegal(s, mvs + more) && WClean(s, mvs + more)
                  && WAfter(s, mvs + more).p.up && WAfter(s, mvs + more).p.m.phase.JobDone?
      ensures WithinLimit(TokenBag(s)) && (w.p.up || w.tail == [])
    {
      DoneWithinLimit(s, mvs + more);
      if !w.p.up && w.tail != [] {
        TornStays(s, mvs, more);
      }
    }
  }

  // ----- a text over the limit -----

  /** A text of n lines, each holding the word. */
  function Repeated(word: Word, n: nat): seq<byte> {
    if n == 0 then [] else word + [NL] + Repeated(word, n - 1)
  }

  lemma LineOfWord(word: Word)
    requires IsToken(word) && Kept(word)
    ensures var line := word + [NL];
            TakeLen(line, 0) == |line| && Words(CString(line)) == [word]
  {
    var line := word + [NL];
    TakeLenOfLine(line, 0);
    assert NUL !in line;
    FirstPiece(line, |word|);
    var none: seq<byte> := [];
    assert line[|word| + 1..] == none && line[..|word|] == word;
    assert Words(none) == [];
  }

  lemma {:induction false} RepeatedTokens(word: Word, n: nat)
    requires IsToken(word) && Kept(word)
    ensures var tokens := MapTokens(Repeated(word, n));
            |tokens| == n && forall i :: 0 <= i < n ==> tokens[i] == word
  {
    hide IsToken, Kept, MapTokens;
    if n == 0 {
      assert MapTokens([]) == [] by {
        NoTokens();
      }
    } else {
      OneMoreLine(word, Repeated(word, n - 1));
      RepeatedTokens(word, n - 1);
    }
  }

  lemma NoTokens()
    ensures MapTokens([]) == []
  {
  }

  lemma OneMoreLine(word: Word, rest: seq<byte>)
    requires IsToken(word) && Kept(word)
    ensures MapTokens(word + [NL] + rest) == [word] + MapTokens(rest)
  {
    hide Words, CString, TakeLen, IsToken, MapTokens;
    var line := word + [NL];
    LineOfWord(word);
    FirstLine(word, rest);
    MapTokensStep(line + rest);
    assert (line + rest)[..|line|] == line && (line + rest)[|line|..] == rest;
  }

  lemma FirstLine(word: Word, rest: seq<byte>)
    requires IsToken(word) && Kept(word)
    ensures var line := word + [NL]; TakeLen(line + rest, 0) == TakeLen(line, 0)
  {
    TakeLenPrefix(word + [NL], rest, 0);
  }

  lemma {:induction false} AllTheSame(tokens: seq<Word>, word: Word)
    requires forall i :: 0 <= i < |tokens| ==> tokens[i] == word
    ensures multiset(tokens)[word] == |tokens| && forall w :: w in multiset(tokens) ==> w == word
  {
    if tokens != [] {
      var init := tokens[..|tokens| - 1];
      AllTheSame(init, word);
      assert tokens == init + [word];
    }
  }

  lemma RepeatedBag(word: Word, n: nat)
    requires IsToken(word) && Kept(word)
    ensures WithinLimit(multiset(JobTokens([Repeated(word, n)], 1))) <==> n <= MAX_VALUES
  {
    hide MapTokens, Kept, IsToken, KeptOnly, TotalLen;
    var text := Repeated(word, n);
    var tokens := MapTokens(text);
    RepeatedTokens(word, n);
    KeptOnlyTotal(tokens);
    AllTheSame(tokens, word);
    assert JobTokens([text], 1) == [] + tokens;
    assert [] + tokens == tokens;
  }

  /** A job over one text that is n lines of one word can be finished exactly when n is at most 1024;
      beyond that it fails however often it is restarted. */
  lemma FrequentWordFails(s: Setup, word: Word, n: nat)
    requires SetupOk(s) && |s.job.paths| == 1 && SplitText(s, 0) == Repeated(word, n) && IsToken(word) && Kept(word)
    ensures WLegal(s, []) && WClean(s, []) && (CanFinishWork(s, []) <==> n <= 1024)
  {
    hide CanFinishWork, WithinLimit, IsToken, Kept, JobTokens, Repeated;
    RepeatedBag(word, n);
    assert Splits(s) == [Repeated(word, n)];
    FinishesIffWithinLimit(s, []);
  }
}
