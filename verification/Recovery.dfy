/** The append-only log as a list of records, and the state a restart rebuilds from it. */
module Recovery {
  import opened Scheduler

  /** What the job header of the log file and the configuration fix for good. */
  datatype Job = Job(paths: seq<Path>, R: nat, timeoutMs: int)

  predicate JobOk(job: Job) {
    && 1 <= |job.paths| <= MAX_MAP_TASKS
    && 1 <= job.R <= MAX_REDUCE_TASKS
    && forall i :: 0 <= i < |job.paths| ==> |job.paths[i]| < PATH_MAX
  }

  function Size(job: Job, kind: Kind): nat {
    if kind.MapTask? then |job.paths| else job.R
  }

  // ----- replay -----

  function FreshState(job: Job): State {
    State(job.timeoutMs, JobMap, 0, 0,
          seq(|job.paths|, i requires 0 <= i < |job.paths| => FreshTask(job.paths[i])),
          seq(job.R, i => FreshTask([])),
          seq(MAX_FDS, i => UNUSED))
  }

  /** One record replayed: the slot becomes completed and the counter of its kind goes up. */
  function MarkDone(s: State, r: Record): State {
    var ts := Tasks(s, r.kind);
    if r.taskId >= |ts| then s
    else CountedDone(WithTask(s, r.kind, r.taskId, ts[r.taskId].(state := Completed)), r.kind)
  }

  function Marked(job: Job, log: seq<Record>): State {
    if log == [] then FreshState(job) else MarkDone(Marked(job, log[..|log| - 1]), log[|log| - 1])
  }

  function Replay(job: Job, log: seq<Record>): State {
    Advance(Marked(job, log))
  }

  // ----- legal logs -----

  predicate Logged(log: seq<Record>, kind: Kind, id: nat) {
    exists i :: 0 <= i < |log| && log[i].kind == kind && log[i].taskId == id
  }

  predicate AllMapsLogged(job: Job, log: seq<Record>) {
    forall x :: 0 <= x < |job.paths| ==> Logged(log, MapTask, x)
  }

  predicate Appendable(job: Job, log: seq<Record>, r: Record) {
    && r.taskId < Size(job, r.kind)
    && !Logged(log, r.kind, r.taskId)
    && (r.kind.ReduceTask? ==> AllMapsLogged(job, log))
  }

  predicate LogOk(job: Job, log: seq<Record>) {
    log == [] || (LogOk(job, log[..|log| - 1]) && Appendable(job, log[..|log| - 1], log[|log| - 1]))
  }

  lemma LoggedSnoc(log: seq<Record>, r: Record, kind: Kind, id: nat)
    ensures Logged(log + [r], kind, id) <==> Logged(log, kind, id) || (r.kind == kind && r.taskId == id)
  {
    var log' := log + [r];
    if Logged(log, kind, id) {
      var i :| 0 <= i < |log| && log[i].kind == kind && log[i].taskId == id;
      assert log'[i] == log[i];
    }
    assert log'[|log|] == r;
  }

  lemma LogOkSnoc(job: Job, log: seq<Record>, r: Record)
    ensures LogOk(job, log + [r]) <==> LogOk(job, log) && Appendable(job, log, r)
  {
    assert (log + [r])[..|log|] == log;
  }

  /** Every record-boundary prefix of a legal log is legal. */
  lemma {:induction false} LogOkPrefix(job: Job, log: seq<Record>, n: nat)
    requires LogOk(job, log) && n <= |log|
    ensures LogOk(job, log[..n])
  {
    if n < |log| {
      assert log[..|log| - 1][..n] == log[..n];
      LogOkPrefix(job, log[..|log| - 1], n);
    } else {
      assert log[..n] == log;
    }
  }

  /** A legal log names no task twice, and no reduce before the last map. */
  lemma LogShape(job: Job, log: seq<Record>, i: nat, j: nat)
    requires LogOk(job, log) && i < j < |log|
    ensures log[i].kind != log[j].kind || log[i].taskId != log[j].taskId
    ensures log[i].kind.ReduceTask? ==> log[j].kind.ReduceTask?
    ensures log[j].kind.ReduceTask? ==> AllMapsLogged(job, log[..j])
  {
    LogOkPrefix(job, log, j + 1);
    assert log[..j + 1][..j] == log[..j];
    assert Appendable(job, log[..j], log[j]);
    assert log[..j][i] == log[i];
    LogOkPrefix(job, log, i + 1);
    assert log[..i + 1][..i] == log[..i];
    assert Appendable(job, log[..i], log[i]);
    LoggedLater(log, i, j, MapTask, log[j].taskId);
  }

  lemma LoggedLater(log: seq<Record>, m: nat, n: nat, kind: Kind, id: nat)
    requires m <= n <= |log|
    ensures Logged(log[..m], kind, id) ==> Logged(log[..n], kind, id)
  {
    if Logged(log[..m], kind, id) {
      var k :| 0 <= k < m && log[..m][k].kind == kind && log[..m][k].taskId == id;
      assert log[..n][k] == log[..m][k];
    }
  }

  // ----- what replay rebuilds -----

  /** A slot as replay leaves it: fresh, and completed exactly when the log says so. */
  function Slot(path: Path, done: bool): Task {
    FreshTask(path).(state := if done then Completed else Pending)
  }

  predicate MarkedForm(job: Job, log: seq<Record>, s: State) {
    && |s.maps| == |job.paths| && |s.reduces| == job.R
    && (forall x :: 0 <= x < |s.maps| ==> s.maps[x] == Slot(job.paths[x], Logged(log, MapTask, x)))
    && (forall y :: 0 <= y < |s.reduces| ==> s.reduces[y] == Slot([], Logged(log, ReduceTask, y)))
    && s.workers == FreshState(job).workers
    && s.timeoutMs == job.timeoutMs && s.phase == JobMap
  }

  lemma FreshStateForm(job: Job)
    requires JobOk(job)
    ensures MarkedForm(job, [], FreshState(job)) && CountsOk(FreshState(job))
  {
    var s := FreshState(job);
    SumBound(DoneBit, s.maps, 0);
    SumBound(DoneBit, s.reduces, 0);
  }

  lemma MarkDoneForm(job: Job, log: seq<Record>, s: State, r: Record)
    requires MarkedForm(job, log, s) && CountsOk(s) && Appendable(job, log, r)
    ensures MarkedForm(job, log + [r], MarkDone(s, r)) && CountsOk(MarkDone(s, r))
  {
    hide Sum, Logged, LogOk, AllMapsLogged, FreshState;
    var ts := Tasks(s, r.kind);
    SumUpdate(DoneBit, ts, r.taskId, ts[r.taskId].(state := Completed));
    forall kind, id
      ensures Logged(log + [r], kind, id) <==> Logged(log, kind, id) || (r.kind == kind && r.taskId == id)
    {
      LoggedSnoc(log, r, kind, id);
    }
  }

  lemma {:induction false} MarkedHasForm(job: Job, log: seq<Record>)
    requires JobOk(job) && LogOk(job, log)
    ensures MarkedForm(job, log, Marked(job, log)) && CountsOk(Marked(job, log))
  {
    if log == [] {
      FreshStateForm(job);
    } else {
      var init, r := log[..|log| - 1], log[|log| - 1];
      MarkedHasForm(job, init);
      MarkDoneForm(job, init, Marked(job, init), r);
      assert init + [r] == log;
    }
  }

  lemma SlotOk(path: Path, done: bool)
    ensures TaskOk(Slot(path, done))
  {
  }

  lemma {:induction false} ReduceLoggedMeansMaps(job: Job, log: seq<Record>, y: nat)
    requires LogOk(job, log) && Logged(log, ReduceTask, y)
    ensures AllMapsLogged(job, log)
  {
    var init, r := log[..|log| - 1], log[|log| - 1];
    assert log == init + [r];
    if !r.kind.ReduceTask? {
      LoggedSnoc(init, r, ReduceTask, y);
      ReduceLoggedMeansMaps(job, init, y);
    }
    forall x | 0 <= x < |job.paths| ensures Logged(log, MapTask, x) {
      LoggedSnoc(init, r, MapTask, x);
    }
  }

  lemma SlotsOk(job: Job, log: seq<Record>, s: State)
    requires MarkedForm(job, log, s)
    ensures TasksOk(s) && !AnyFailed(s.maps) && !AnyFailed(s.reduces)
  {
    forall path, done ensures TaskOk(Slot(path, done)) {
      SlotOk(path, done);
    }
    hide TaskOk, Logged;
  }

  lemma EarlyReducesUntouched(job: Job, log: seq<Record>, s: State)
    requires LogOk(job, log) && MarkedForm(job, log, s) && CountsOk(s)
    ensures s.mapsDone < |s.maps| ==> Untouched(s.reduces)
  {
    if s.mapsDone < |s.maps| {
      DoneFull(s.maps);
      hide Sum, Logged;
      forall y | 0 <= y < |s.reduces| ensures s.reduces[y].state.Pending? {
        if Logged(log, ReduceTask, y) {
          ReduceLoggedMeansMaps(job, log, y);
        }
      }
    }
  }

  /** Replaying any legal log, of any length, gives a state that satisfies the scheduler
      invariant. */
  lemma ReplayInv(job: Job, log: seq<Record>)
    requires JobOk(job) && LogOk(job, log)
    ensures Inv(Replay(job, log))
  {
    hide TasksOk, CountsOk, AnyFailed, Untouched, Logged, LogOk, Marked, Inv, Advance;
    var s := Marked(job, log);
    MarkedHasForm(job, log);
    SlotsOk(job, log, s);
    EarlyReducesUntouched(job, log, s);
    AdvanceInv(s);
  }

  lemma {:induction false} MarkedCounts(job: Job, log: seq<Record>)
    requires JobOk(job) && LogOk(job, log)
    ensures Marked(job, log).mapsDone + Marked(job, log).reducesDone == |log|
  {
    if log != [] {
      var init := log[..|log| - 1];
      MarkedCounts(job, init);
      MarkedHasForm(job, init);
    }
  }

  /** Recovery work is bounded by the number of tasks. */
  lemma LogBounded(job: Job, log: seq<Record>)
    requires JobOk(job) && LogOk(job, log)
    ensures |log| <= |job.paths| + job.R
  {
    MarkedCounts(job, log);
    MarkedHasForm(job, log);
    DoneFull(Marked(job, log).maps);
    DoneFull(Marked(job, log).reduces);
  }

  // ----- crash-recovery refinement -----

  /** The master's tables and the log agree on what is complete, and the tables are the job's. */
  predicate Agrees(job: Job, s: State, log: seq<Record>) {
    && |s.maps| == |job.paths| && |s.reduces| == job.R && s.timeoutMs == job.timeoutMs
    && (forall x :: 0 <= x < |s.maps| ==> s.maps[x].path == job.paths[x])
    && (forall x :: 0 <= x < |s.maps| ==> (s.maps[x].state.Completed? <==> Logged(log, MapTask, x)))
    && (forall y :: 0 <= y < |s.reduces| ==> s.reduces[y].path == [])
    && (forall y :: 0 <= y < |s.reduces| ==> (s.reduces[y].state.Completed? <==> Logged(log, ReduceTask, y)))
  }

  function CounterPhase(s: State): Phase {
    if s.mapsDone < |s.maps| then JobMap else if s.reducesDone < |s.reduces| then JobReduce else JobDone
  }

  function ResetAll(ts: seq<Task>): seq<Task> {
    seq(|ts|, i requires 0 <= i < |ts| => Slot(ts[i].path, ts[i].state.Completed?))
  }

  /** The state with its unfinished work forgotten: same counters and completed slots, every other
      slot fresh, no connections, the phase read off the counters. */
  function Forgotten(s: State): State {
    State(s.timeoutMs, CounterPhase(s), s.mapsDone, s.reducesDone, ResetAll(s.maps), ResetAll(s.reduces),
          seq(MAX_FDS, i => UNUSED))
  }

  lemma {:induction false} SumSame(f: Task -> nat, a: seq<Task>, b: seq<Task>)
    requires |a| == |b| && forall i :: 0 <= i < |a| ==> f(a[i]) == f(b[i])
    ensures Sum(f, a) == Sum(f, b)
  {
    if a != [] {
      SumSame(f, a[..|a| - 1], b[..|b| - 1]);
    }
  }

  /** Replay of the log of a running master is that master with its unfinished work forgotten. */
  lemma ReplayIsForgotten(job: Job, s: State, log: seq<Record>)
    requires JobOk(job) && LogOk(job, log) && Inv(s) && Agrees(job, s, log)
    ensures Replay(job, log) == Forgotten(s)
  {
    hide TaskOk, Logged, LogOk, Marked, Sum;
    MarkedHasForm(job, log);
    var m, f := Marked(job, log), Forgotten(s);
    assert m.maps == f.maps;
    assert m.reduces == f.reduces;
    SumSame(DoneBit, s.maps, m.maps);
    SumSame(DoneBit, s.reduces, m.reduces);
    DoneFull(s.maps);
    DoneFull(s.reduces);
    DoneFullReduces(job, s, log);
  }

  lemma DoneFullReduces(job: Job, s: State, log: seq<Record>)
    requires Inv(s)
    ensures s.reducesDone == |s.reduces| ==> s.mapsDone == |s.maps|
  {
    DoneFull(s.reduces);
    DoneFull(s.maps);
    assert s.mapsDone < |s.maps| ==> s.reduces[0].state.Pending?;
  }

  /** A freshly replayed master agrees with the log it came from. */
  lemma ReplayAgrees(job: Job, log: seq<Record>)
    requires JobOk(job) && LogOk(job, log)
    ensures Agrees(job, Replay(job, log), log)
  {
    MarkedHasForm(job, log);
    hide Logged;
  }
}
