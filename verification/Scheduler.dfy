/** The coordinator's state and its handlers as functions from state to state.
    The class in Coordinator.dfy is proved to compute exactly these. */
module Scheduler {
  import opened Bytes

  const MAX_ATTEMPTS: nat := 3
  const MAX_MAP_TASKS: nat := 256
  const MAX_REDUCE_TASKS: nat := 64
  const MAX_FDS: nat := 1024
  const PATH_MAX: nat := 1024

  type Path = seq<byte>

  datatype Kind = MapTask | ReduceTask
  datatype TaskState = Pending | InProgress | Completed | Failed
  datatype AttemptEnd = Running | Succeeded | ReportedFailure | TimedOut
  datatype Attempt = Attempt(id: nat, fd: int, startedAt: int, endedAt: int, end: AttemptEnd)
  datatype Task = Task(state: TaskState, attempt: nat, attempts: nat, owner: int, startedAt: int,
                       path: Path, history: seq<Attempt>)
  datatype Phase = JobMap | JobReduce | JobDone | JobFailed

  /** Per-connection bookkeeping. The cleared slot of a closed connection is UNUSED. */
  datatype Worker = Worker(connectedAt: int, hasTask: bool, kind: Kind, taskId: nat, attemptId: nat)

  /** The live slots of the two task tables: |maps| is M and |reduces| is R. */
  datatype State = State(timeoutMs: int, phase: Phase, mapsDone: nat, reducesDone: nat,
                         maps: seq<Task>, reduces: seq<Task>, workers: seq<Worker>)

  const NO_ATTEMPT := Attempt(0, 0, 0, 0, Running)
  const UNUSED := Worker(0, false, MapTask, 0, 0)

  /** A line of the append-only log. */
  datatype Record = Record(kind: Kind, taskId: nat, attemptId: nat)

  // ----- task slots -----

  function FreshTask(path: Path): Task {
    Task(Pending, 0, 0, -1, 0, path, [NO_ATTEMPT, NO_ATTEMPT, NO_ATTEMPT])
  }

  function Assign(t: Task, fd: nat, now: int): Task
    requires |t.history| == MAX_ATTEMPTS && t.attempts < MAX_ATTEMPTS
  {
    t.(state := InProgress, attempt := t.attempt + 1, attempts := t.attempts + 1, owner := fd, startedAt := now,
       history := t.history[t.attempts := Attempt(t.attempt + 1, fd, now, 0, Running)])
  }

  /** Closes the current attempt without success. */
  function EndAttempt(t: Task, end: AttemptEnd, fd: int, now: int): Task
    requires |t.history| == MAX_ATTEMPTS && 1 <= t.attempts <= MAX_ATTEMPTS
  {
    t.(history := t.history[t.attempts - 1 := Attempt(t.attempt, fd, 0, now, end)], owner := -1,
       state := if t.attempts >= MAX_ATTEMPTS then Failed else Pending)
  }

  function Complete(t: Task, fd: int, now: int): Task
    requires |t.history| == MAX_ATTEMPTS && 1 <= t.attempts <= MAX_ATTEMPTS
  {
    t.(history := t.history[t.attempts - 1 := Attempt(t.attempt, fd, 0, now, Succeeded)], owner := -1,
       state := Completed)
  }

  /** What every live slot satisfies in every reachable state. */
  predicate TaskOk(t: Task) {
    && |t.history| == MAX_ATTEMPTS
    && t.attempt == t.attempts <= MAX_ATTEMPTS
    && (t.state.Pending? ==> t.attempts < MAX_ATTEMPTS)
    && (t.state.Failed? ==> t.attempts == MAX_ATTEMPTS)
    && (t.state.InProgress? ==> 1 <= t.attempts)
    && (t.state.InProgress? <==> t.owner != -1)
    && (forall j :: 0 <= j < t.attempts ==> t.history[j].id == j + 1)
    && (forall j :: 0 <= j < t.attempts ==> (t.history[j].end.Running? <==> j == t.attempts - 1 && t.state.InProgress?))
    && (forall j :: 0 <= j < t.attempts ==>
          (t.history[j].end.Succeeded? <==> j == t.attempts - 1 && t.state.Completed?))
    && (t.state.InProgress? ==> t.history[t.attempts - 1] == Attempt(t.attempt, t.owner, t.startedAt, 0, Running))
    && (forall j :: t.attempts <= j < MAX_ATTEMPTS ==> t.history[j] == NO_ATTEMPT)
  }

  predicate AllOk(ts: seq<Task>) {
    forall i :: 0 <= i < |ts| ==> TaskOk(ts[i])
  }

  predicate TasksOk(s: State) {
    AllOk(s.maps) && AllOk(s.reduces)
  }

  // ----- state accessors -----

  function Tasks(s: State, kind: Kind): seq<Task> {
    if kind.MapTask? then s.maps else s.reduces
  }

  function WithTasks(s: State, kind: Kind, ts: seq<Task>): State {
    if kind.MapTask? then s.(maps := ts) else s.(reduces := ts)
  }

  function WithTask(s: State, kind: Kind, i: nat, t: Task): State
    requires i < |Tasks(s, kind)|
  {
    WithTasks(s, kind, Tasks(s, kind)[i := t])
  }

  function WithWorker(s: State, fd: nat, w: Worker): State
    requires fd < |s.workers|
  {
    s.(workers := s.workers[fd := w])
  }

  function CountedDone(s: State, kind: Kind): State {
    if kind.MapTask? then s.(mapsDone := s.mapsDone + 1) else s.(reducesDone := s.reducesDone + 1)
  }

  function DoneCount(s: State, kind: Kind): nat {
    if kind.MapTask? then s.mapsDone else s.reducesDone
  }

  /** The kind of work the phase hands out. */
  function PhaseKind(p: Phase): Kind {
    if p.JobMap? then MapTask else ReduceTask
  }

  predicate Terminal(p: Phase) {
    p.JobDone? || p.JobFailed?
  }

  // ----- phase advance -----

  function Advance(s: State): State {
    var s1 := if s.phase.JobMap? && s.mapsDone == |s.maps| then s.(phase := JobReduce) else s;
    if s1.phase.JobReduce? && s1.reducesDone == |s1.reduces| then s1.(phase := JobDone) else s1
  }

  // ----- GetTask -----

  datatype Reply =
    | MapResp(taskId: nat, attemptId: nat, nReduce: nat, path: Path)
    | ReduceResp(taskId: nat, attemptId: nat, nMap: nat)
    | WaitResp(waitMs: int)
    | DoneResp
    | AssertionFailed

  datatype GetResult = GetResult(s: State, reply: Reply)

  /** The lowest pending slot at or above i, or |ts| when there is none. */
  function FirstPending(ts: seq<Task>, i: nat): (r: nat)
    requires i <= |ts|
    ensures i <= r <= |ts|
    ensures r < |ts| ==> ts[r].state.Pending?
    ensures forall j :: i <= j < r ==> !ts[j].state.Pending?
    decreases |ts| - i
  {
    if i == |ts| || ts[i].state.Pending? then i else FirstPending(ts, i + 1)
  }

  function AssignTo(s: State, fd: nat, kind: Kind, i: nat, now: int): State
    requires fd < |s.workers| && i < |Tasks(s, kind)|
    requires TaskOk(Tasks(s, kind)[i]) && Tasks(s, kind)[i].state.Pending?
  {
    var t := Assign(Tasks(s, kind)[i], fd, now);
    WithWorker(WithTask(s, kind, i, t), fd, Worker(s.workers[fd].connectedAt, true, kind, i, t.attempt))
  }

  function TaskReply(s: State, kind: Kind, i: nat): Reply
    requires i < |Tasks(s, kind)|
  {
    var t := Tasks(s, kind)[i];
    if kind.MapTask? then MapResp(i, t.attempt, |s.reduces|, t.path) else ReduceResp(i, t.attempt, |s.maps|)
  }

  function GetTask(s: State, fd: nat, now: int): GetResult
    requires fd < |s.workers| && TasksOk(s)
  {
    if Terminal(s.phase) then GetResult(s, DoneResp)
    else
      var kind := PhaseKind(s.phase);
      var ts := Tasks(s, kind);
      var i := FirstPending(ts, 0);
      if i < |ts| then
        var s' := AssignTo(s, fd, kind, i, now);
        GetResult(s', TaskReply(s', kind, i))
      else if DoneCount(s, kind) < |ts| then GetResult(s, WaitResp(s.timeoutMs / 2))
      else GetResult(s, AssertionFailed)
  }

  // ----- TaskDone -----

  datatype DoneMsg = DoneMsg(taskId: nat, attemptId: nat, result: nat)

  /** The new state, the records appended to the log (none or one), whether the report was
      acknowledged, and whether its handling left the arrays; an unacknowledged report closes the
      connection, and nothing can be said about a master that left its arrays. */
  datatype DoneResult = DoneResult(s: State, appended: seq<Record>, acked: bool, outside: bool)

  /** The compiled-in size of a task table. */
  function TableSize(kind: Kind): nat {
    if kind.MapTask? then MAX_MAP_TASKS else MAX_REDUCE_TASKS
  }

  /** The handler would index past the task table, or, for a slot that was never assigned and a
      report of attempt 0, before the history of the slot. */
  predicate Outside(s: State, fd: nat, msg: DoneMsg)
    requires fd < |s.workers|
  {
    var kind := PhaseKind(s.phase);
    var ts, i := Tasks(s, kind), s.workers[fd].taskId;
    || i >= TableSize(kind)
    || (if i < |ts| then msg.attemptId == ts[i].attempt && ts[i].attempts == 0 else msg.attemptId == 0)
  }

  /** The report names an attempt that is not the current one of the slot it lands on. A slot
      past the live ones was never assigned. */
  predicate Stale(s: State, fd: nat, msg: DoneMsg)
    requires fd < |s.workers|
  {
    var ts := Tasks(s, PhaseKind(s.phase));
    var i := s.workers[fd].taskId;
    i >= |ts| || msg.attemptId != ts[i].attempt
  }

  function TaskDone(s: State, fd: nat, msg: DoneMsg, now: int): DoneResult
    requires fd < |s.workers| && TasksOk(s)
  {
    if Terminal(s.phase) then DoneResult(s, [], false, false)
    else if Outside(s, fd, msg) then DoneResult(s, [], true, true)
    else if Stale(s, fd, msg) then DoneResult(s, [], true, false)
    else
      var kind := PhaseKind(s.phase);
      var i := s.workers[fd].taskId;
      var t := Tasks(s, kind)[i];
      var w := s.workers[fd].(hasTask := false);
      if msg.result == 0 then
        var s' := Advance(CountedDone(WithTask(s, kind, i, Complete(t, fd, now)), kind));
        DoneResult(WithWorker(s', fd, w), [Record(w.kind, msg.taskId, msg.attemptId)], true, false)
      else
        var t' := EndAttempt(t, ReportedFailure, fd, now);
        var s' := WithTask(s, kind, i, t').(phase := if t'.state.Failed? then JobFailed else s.phase);
        DoneResult(WithWorker(s', fd, w), [], true, false)
  }

  // ----- connections -----

  function OnConnect(s: State, fd: nat, now: int): State
    requires fd < |s.workers|
  {
    WithWorker(s, fd, UNUSED.(connectedAt := now))
  }

  function OnDisconnect(s: State, fd: nat): State
    requires fd < |s.workers|
  {
    WithWorker(s, fd, UNUSED)
  }

  // ----- timeout sweep -----

  predicate Expired(t: Task, now: int, timeoutMs: int) {
    t.state.InProgress? && now - t.startedAt > timeoutMs
  }

  /** Slots i and up after a sweep, stopping at the first slot that fails for good. */
  function SweepTasks(ts: seq<Task>, i: nat, now: int, timeoutMs: int): (r: seq<Task>)
    requires i <= |ts|
    requires AllOk(ts)
    ensures |r| == |ts|
    decreases |ts| - i
  {
    if i == |ts| then ts
    else if !Expired(ts[i], now, timeoutMs) then SweepTasks(ts, i + 1, now, timeoutMs)
    else
      assert TaskOk(ts[i]);
      var t := EndAttempt(ts[i], TimedOut, ts[i].owner, now);
      EndAttemptOk(ts[i], TimedOut, ts[i].owner, now);
      if t.state.Failed? then ts[i := t] else SweepTasks(ts[i := t], i + 1, now, timeoutMs)
  }

  predicate AnyFailed(ts: seq<Task>) {
    exists i :: 0 <= i < |ts| && ts[i].state.Failed?
  }

  function Sweep(s: State, now: int): State
    requires TasksOk(s)
  {
    if Terminal(s.phase) then s
    else
      var kind := PhaseKind(s.phase);
      var ts := SweepTasks(Tasks(s, kind), 0, now, s.timeoutMs);
      WithTasks(s, kind, ts).(phase := if AnyFailed(ts) then JobFailed else s.phase)
  }

  lemma EndAttemptOk(t: Task, end: AttemptEnd, fd: int, now: int)
    requires TaskOk(t) && 1 <= t.attempts && (end.ReportedFailure? || end.TimedOut?)
    ensures TaskOk(EndAttempt(t, end, fd, now))
  {
  }

  lemma CompleteOk(t: Task, fd: int, now: int)
    requires TaskOk(t) && 1 <= t.attempts
    ensures TaskOk(Complete(t, fd, now))
  {
  }

  lemma AssignOk(t: Task, fd: nat, now: int)
    requires TaskOk(t) && t.state.Pending?
    ensures TaskOk(Assign(t, fd, now)) && Assign(t, fd, now).state.InProgress?
  {
  }

  // ----- counting -----

  function Sum(f: Task -> nat, ts: seq<Task>): nat {
    if ts == [] then 0 else Sum(f, ts[..|ts| - 1]) + f(ts[|ts| - 1])
  }

  function DoneBit(t: Task): nat {
    if t.state.Completed? then 1 else 0
  }

  function AttemptsOf(t: Task): nat {
    t.attempts
  }

  lemma {:induction false} SumUpdate(f: Task -> nat, ts: seq<Task>, i: nat, t: Task)
    requires i < |ts|
    ensures Sum(f, ts[i := t]) == Sum(f, ts) - f(ts[i]) + f(t)
  {
    var n := |ts| - 1;
    if i == n {
      assert ts[i := t][..n] == ts[..n];
    } else {
      assert ts[i := t][..n] == ts[..n][i := t];
      SumUpdate(f, ts[..n], i, t);
    }
  }

  lemma {:induction false} SumBound(f: Task -> nat, ts: seq<Task>, bound: nat)
    requires forall i :: 0 <= i < |ts| ==> f(ts[i]) <= bound
    ensures Sum(f, ts) <= bound * |ts|
  {
    if ts != [] {
      SumBound(f, ts[..|ts| - 1], bound);
    }
  }

  lemma {:induction false} DoneFull(ts: seq<Task>)
    ensures Sum(DoneBit, ts) <= |ts|
    ensures Sum(DoneBit, ts) == |ts| <==> forall i :: 0 <= i < |ts| ==> ts[i].state.Completed?
  {
    if ts != [] {
      var init := ts[..|ts| - 1];
      DoneFull(init);
      if forall i :: 0 <= i < |ts| ==> ts[i].state.Completed? {
        assert forall i :: 0 <= i < |init| ==> init[i] == ts[i];
      }
      if Sum(DoneBit, ts) == |ts| {
        assert forall i :: 0 <= i < |init| ==> init[i] == ts[i];
      }
    }
  }

  // ----- the scheduler invariant -----

  predicate Untouched(ts: seq<Task>) {
    forall i :: 0 <= i < |ts| ==> ts[i].state.Pending? && ts[i].attempts == 0
  }

  predicate SizesOk(s: State) {
    && 1 <= |s.maps| <= MAX_MAP_TASKS
    && 1 <= |s.reduces| <= MAX_REDUCE_TASKS
    && |s.workers| == MAX_FDS
  }

  predicate CountsOk(s: State) {
    && s.mapsDone == Sum(DoneBit, s.maps)
    && s.reducesDone == Sum(DoneBit, s.reduces)
  }

  predicate PhaseOk(s: State) {
    && (s.phase.JobFailed? <==> AnyFailed(s.maps) || AnyFailed(s.reduces))
    && (s.phase.JobMap? ==> s.mapsDone < |s.maps|)
    && (s.phase.JobReduce? ==> s.mapsDone == |s.maps| && s.reducesDone < |s.reduces|)
    && (s.phase.JobDone? ==> s.mapsDone == |s.maps| && s.reducesDone == |s.reduces|)
    && (s.mapsDone < |s.maps| ==> Untouched(s.reduces))
  }

  predicate Inv(s: State) {
    SizesOk(s) && TasksOk(s) && CountsOk(s) && PhaseOk(s)
  }

  lemma ReplaceSlot(ts: seq<Task>, i: nat, t: Task)
    requires i < |ts| && AllOk(ts) && TaskOk(t)
    ensures AllOk(ts[i := t])
    ensures Sum(DoneBit, ts[i := t]) == Sum(DoneBit, ts) - DoneBit(ts[i]) + DoneBit(t)
    ensures !AnyFailed(ts) ==> (AnyFailed(ts[i := t]) <==> t.state.Failed?)
  {
    hide TaskOk;
    SumUpdate(DoneBit, ts, i, t);
    if t.state.Failed? {
      assert ts[i := t][i].state.Failed?;
    }
  }

  /** Inv holds throughout, so the assertion guarding WAIT cannot fail, and a worker is told to
      wait only while some task of the phase is running. */
  lemma GetTaskKeepsInv(s: State, fd: nat, now: int)
    requires Inv(s) && fd < MAX_FDS
    ensures Inv(GetTask(s, fd, now).s)
    ensures !GetTask(s, fd, now).reply.AssertionFailed?
    ensures GetTask(s, fd, now).reply.WaitResp? ==>
              && !Terminal(s.phase)
              && var ts := Tasks(s, PhaseKind(s.phase)); exists i :: 0 <= i < |ts| && ts[i].state.InProgress?
  {
    if !Terminal(s.phase) {
      var kind := PhaseKind(s.phase);
      var ts := Tasks(s, kind);
      var i := FirstPending(ts, 0);
      if i < |ts| {
        AssignKeepsInv(s, fd, kind, i, now);
      } else {
        DoneFull(ts);
        var j :| 0 <= j < |ts| && !ts[j].state.Completed?;
        assert ts[j].state.InProgress?;
      }
    }
  }

  lemma AssignKeepsInv(s: State, fd: nat, kind: Kind, i: nat, now: int)
    requires Inv(s) && fd < MAX_FDS && !Terminal(s.phase) && kind == PhaseKind(s.phase)
    requires i < |Tasks(s, kind)| && Tasks(s, kind)[i].state.Pending?
    ensures TaskOk(Tasks(s, kind)[i]) && Inv(AssignTo(s, fd, kind, i, now))
  {
    var ts := Tasks(s, kind);
    AssignOk(ts[i], fd, now);
    ReplaceSlot(ts, i, Assign(ts[i], fd, now));
    hide TaskOk, AllOk, Sum, AnyFailed, Assign, Untouched;
  }

  /** The report lands on a slot that is already completed and carries its attempt number. */
  predicate HitsCompleted(s: State, fd: nat, msg: DoneMsg)
    requires fd < |s.workers|
  {
    && !Terminal(s.phase)
    && !Stale(s, fd, msg)
    && Tasks(s, PhaseKind(s.phase))[s.workers[fd].taskId].state.Completed?
  }

  /** A state whose counters are right and whose phase may lag behind them. */
  predicate Advancing(s: State) {
    && SizesOk(s) && TasksOk(s) && CountsOk(s)
    && !AnyFailed(s.maps) && !AnyFailed(s.reduces)
    && !Terminal(s.phase)
    && (s.phase.JobReduce? ==> s.mapsDone == |s.maps|)
    && (s.mapsDone < |s.maps| ==> Untouched(s.reduces))
  }

  lemma AdvanceInv(s: State)
    requires Advancing(s)
    ensures Inv(Advance(s))
  {
    DoneFull(s.maps);
    DoneFull(s.reduces);
    hide TaskOk, AllOk, Sum, AnyFailed, Untouched;
  }

  lemma WithWorkerKeepsInv(s: State, fd: nat, w: Worker)
    requires Inv(s) && fd < MAX_FDS
    ensures Inv(WithWorker(s, fd, w))
  {
    hide TaskOk, AllOk, Sum, AnyFailed, Untouched;
  }

  lemma CompletedAdvances(s: State, kind: Kind, i: nat, t: Task)
    requires Inv(s) && !Terminal(s.phase) && kind == PhaseKind(s.phase)
    requires i < |Tasks(s, kind)| && !Tasks(s, kind)[i].state.Completed?
    requires TaskOk(t) && t.state.Completed?
    ensures Advancing(CountedDone(WithTask(s, kind, i, t), kind))
  {
    ReplaceSlot(Tasks(s, kind), i, t);
    hide TaskOk, AllOk, Sum, AnyFailed, Untouched;
  }

  lemma SuccessKeepsInv(s: State, fd: nat, msg: DoneMsg, now: int)
    requires Inv(s) && fd < MAX_FDS && !Outside(s, fd, msg) && msg.result == 0
    requires !Terminal(s.phase) && !Stale(s, fd, msg) && !HitsCompleted(s, fd, msg)
    ensures Inv(TaskDone(s, fd, msg, now).s)
  {
    var kind := PhaseKind(s.phase);
    var i := s.workers[fd].taskId;
    var t := Complete(Tasks(s, kind)[i], fd, now);
    CompleteOk(Tasks(s, kind)[i], fd, now);
    CompletedAdvances(s, kind, i, t);
    hide TaskOk, AllOk, Sum, AnyFailed, Untouched, Inv, Advancing;
    var s' := CountedDone(WithTask(s, kind, i, t), kind);
    AdvanceInv(s');
    WithWorkerKeepsInv(Advance(s'), fd, s.workers[fd].(hasTask := false));
  }

  lemma FailureKeepsInv(s: State, fd: nat, msg: DoneMsg, now: int)
    requires Inv(s) && fd < MAX_FDS && !Outside(s, fd, msg) && msg.result != 0
    requires !Terminal(s.phase) && !Stale(s, fd, msg) && !HitsCompleted(s, fd, msg)
    ensures Inv(TaskDone(s, fd, msg, now).s)
  {
    hide Sum, AnyFailed, Untouched;
    var kind := PhaseKind(s.phase);
    var ts, i := Tasks(s, kind), s.workers[fd].taskId;
    assert TaskOk(ts[i]) && 1 <= ts[i].attempts;
    EndAttemptOk(ts[i], ReportedFailure, fd, now);
    hide TaskOk, AllOk;
    var t := EndAttempt(ts[i], ReportedFailure, fd, now);
    ReplaceSlot(ts, i, t);
  }

  lemma HitsCompletedBreaksCounts(s: State, fd: nat, msg: DoneMsg, now: int)
    requires Inv(s) && fd < MAX_FDS && !Outside(s, fd, msg) && HitsCompleted(s, fd, msg)
    ensures !CountsOk(TaskDone(s, fd, msg, now).s)
  {
    var ts, i := Tasks(s, PhaseKind(s.phase)), s.workers[fd].taskId;
    var t := if msg.result == 0 then Complete(ts[i], fd, now) else EndAttempt(ts[i], ReportedFailure, fd, now);
    hide TaskOk;
    SumUpdate(DoneBit, ts, i, t);
  }

  /** A report stays inside the arrays and keeps the invariant exactly when it neither points outside
      them nor lands on a completed slot. */
  lemma TaskDoneKeepsInv(s: State, fd: nat, msg: DoneMsg, now: int)
    requires Inv(s) && fd < MAX_FDS
    ensures var r := TaskDone(s, fd, msg, now);
            !r.outside && Inv(r.s) <==> Terminal(s.phase) || !(Outside(s, fd, msg) || HitsCompleted(s, fd, msg))
  {
    if Terminal(s.phase) || Outside(s, fd, msg) {
      hide Inv;
    } else if HitsCompleted(s, fd, msg) {
      HitsCompletedBreaksCounts(s, fd, msg, now);
    } else if !Terminal(s.phase) && !Stale(s, fd, msg) {
      if msg.result == 0 {
        SuccessKeepsInv(s, fd, msg, now);
      } else {
        FailureKeepsInv(s, fd, msg, now);
      }
    }
  }

  lemma ConnectionsKeepInv(s: State, fd: nat, now: int)
    requires Inv(s) && fd < MAX_FDS
    ensures Inv(OnConnect(s, fd, now)) && Inv(OnDisconnect(s, fd))
  {
  }

  /** What a sweep may do to one slot: leave it, or close its running attempt. */
  predicate Swept(t: Task, t': Task) {
    || t' == t
    || (t.state.InProgress? && (t'.state.Pending? || t'.state.Failed?) && t'.attempt == t.attempt && t'.path == t.path)
  }

  predicate AllSwept(ts: seq<Task>, ts': seq<Task>) {
    |ts| == |ts'| && forall j :: 0 <= j < |ts| ==> Swept(ts[j], ts'[j])
  }

  lemma SweptOnce(ts: seq<Task>, i: nat, now: int)
    requires i < |ts| && AllOk(ts) && ts[i].state.InProgress?
    ensures TaskOk(ts[i])
    ensures var t := EndAttempt(ts[i], TimedOut, ts[i].owner, now);
            && AllOk(ts[i := t])
            && AllSwept(ts, ts[i := t])
            && Sum(DoneBit, ts[i := t]) == Sum(DoneBit, ts)
  {
    EndAttemptOk(ts[i], TimedOut, ts[i].owner, now);
    ReplaceSlot(ts, i, EndAttempt(ts[i], TimedOut, ts[i].owner, now));
    hide TaskOk, Sum;
  }

  lemma SweptTransitive(a: seq<Task>, b: seq<Task>, c: seq<Task>)
    requires AllSwept(a, b) && AllSwept(b, c)
    ensures AllSwept(a, c)
  {
    forall j | 0 <= j < |a| ensures Swept(a[j], c[j]) {
      assert Swept(a[j], b[j]) && Swept(b[j], c[j]);
    }
  }

  lemma {:induction false} SweepTasksEffect(ts: seq<Task>, i: nat, now: int, timeoutMs: int)
    requires i <= |ts| && AllOk(ts)
    ensures var r := SweepTasks(ts, i, now, timeoutMs);
            AllOk(r) && AllSwept(ts, r) && Sum(DoneBit, r) == Sum(DoneBit, ts)
    decreases |ts| - i
  {
    if i < |ts| {
      if Expired(ts[i], now, timeoutMs) {
        SweptOnce(ts, i, now);
        hide TaskOk, Sum, AllOk, AllSwept;
        var t := EndAttempt(ts[i], TimedOut, ts[i].owner, now);
        if !t.state.Failed? {
          SweepTasksEffect(ts[i := t], i + 1, now, timeoutMs);
          SweptTransitive(ts, ts[i := t], SweepTasks(ts[i := t], i + 1, now, timeoutMs));
        }
      } else {
        SweepTasksEffect(ts, i + 1, now, timeoutMs);
      }
    }
  }

  lemma SweepKeepsInv(s: State, now: int)
    requires Inv(s)
    ensures Inv(Sweep(s, now))
  {
    if !Terminal(s.phase) {
      SweepTasksEffect(Tasks(s, PhaseKind(s.phase)), 0, now, s.timeoutMs);
    }
  }
}
