/** The master as a mutable object. Each handler is proved to compute the function of the same name
    in the Scheduler module. */
module Coordinator {
  import opened Bytes
  import opened Scheduler
  import S = Scheduler
  import opened Recovery
  import opened Aof
  import opened AofWriter

  class Master {
    var timeoutMs: int
    var phase: Phase
    var M: nat
    var R: nat
    var mapsDone: nat
    var reducesDone: nat
    const maps: array<Task>
    const reduces: array<Task>
    const workers: array<Worker>
    var now: int
    var aof: seq<byte>

    /** The tables have their compiled-in sizes, and slots past the live ones were never assigned. */
    ghost predicate Valid()
      reads this, maps, reduces
    {
      && maps.Length == MAX_MAP_TASKS && reduces.Length == MAX_REDUCE_TASKS && workers.Length == MAX_FDS
      && maps != reduces
      && M <= MAX_MAP_TASKS && R <= MAX_REDUCE_TASKS
      && (forall i :: M <= i < MAX_MAP_TASKS ==> maps[i].attempt == 0 && maps[i].attempts == 0)
      && (forall i :: R <= i < MAX_REDUCE_TASKS ==> reduces[i].attempt == 0 && reduces[i].attempts == 0)
    }

    /** The state the Scheduler functions speak about. */
    ghost function View(): State
      requires Valid()
      reads this, maps, reduces, workers
    {
      State(timeoutMs, phase, mapsDone, reducesDone, maps[..M], reduces[..R], workers[..])
    }

    /** A fresh process: all tables zero, no job yet. */
    constructor (timeout: int)
      ensures Valid() && fresh(maps) && fresh(reduces) && fresh(workers)
      ensures View() == State(timeout, JobMap, 0, 0, [], [], seq(MAX_FDS, i => UNUSED))
      ensures aof == []
    {
      timeoutMs, phase, M, R, mapsDone, reducesDone, now, aof := timeout, JobMap, 0, 0, 0, 0, 0, [];
      maps := new Task[MAX_MAP_TASKS](i => FreshTask([]));
      reduces := new Task[MAX_REDUCE_TASKS](i => FreshTask([]));
      workers := new Worker[MAX_FDS](i => UNUSED);
      new;
      assert workers[..] == seq(MAX_FDS, i => UNUSED);
    }

    function Table(kind: Kind): array<Task>
    {
      if kind.MapTask? then maps else reduces
    }

    function Live(kind: Kind): nat
      reads this
    {
      if kind.MapTask? then M else R
    }

    /** Overwrites one live slot. */
    method SetTask(kind: Kind, i: nat, t: Task)
      requires Valid() && i < Live(kind)
      modifies maps, reduces
      ensures Valid() && View() == WithTask(old(View()), kind, i, t)
    {
      var tasks := Table(kind);
      tasks[i] := t;
      assert tasks[..Live(kind)] == old(tasks[..Live(kind)])[i := t];
    }

    method MaybeAdvancePhase()
      requires Valid()
      modifies this`phase
      ensures Valid() && View() == Advance(old(View()))
    {
      if phase == JobMap && mapsDone == M {
        phase := JobReduce;
      }
      if phase == JobReduce && reducesDone == R {
        phase := JobDone;
      }
    }

    /** Closes the current attempt of a slot without success; true when its slot failed for good. */
    method TaskAttemptEnded(kind: Kind, i: nat, end: AttemptEnd, fd: int) returns (failed: bool)
      requires Valid() && i < Live(kind)
      requires var t := Tasks(View(), kind)[i]; |t.history| == MAX_ATTEMPTS && 1 <= t.attempts <= MAX_ATTEMPTS
      modifies this`phase, maps, reduces
      ensures Valid()
      ensures var t := EndAttempt(old(Tasks(View(), kind)[i]), end, fd, now);
              && failed == t.state.Failed?
              && View() == WithTask(old(View()), kind, i, t).(phase := if failed then JobFailed else old(phase))
    {
      var t := Table(kind)[i];
      t := t.(history := t.history[t.attempts - 1 := Attempt(t.attempt, fd, 0, now, end)], owner := -1);
      if t.attempts >= MAX_ATTEMPTS {
        SetTask(kind, i, t.(state := Failed));
        phase := JobFailed;
        failed := true;
      } else {
        SetTask(kind, i, t.(state := Pending));
        failed := false;
      }
    }

    /** Starts an attempt of a pending slot on the connection. */
    method AssignSlot(fd: nat, kind: Kind, i: nat)
      requires Valid() && fd < MAX_FDS && i < Live(kind)
      requires var t := Tasks(View(), kind)[i]; TaskOk(t) && t.state.Pending?
      modifies maps, reduces, workers
      ensures Valid() && View() == AssignTo(old(View()), fd, kind, i, now)
    {
      var tasks := Table(kind);
      assert tasks[i] == Tasks(View(), kind)[i];
      SetTask(kind, i, Assign(tasks[i], fd, now));
      workers[fd] := Worker(workers[fd].connectedAt, true, kind, i, tasks[i].attempt);
    }

    /** Assigns the lowest pending slot of the kind to the connection; -1 when there is none. */
    method ChooseAvailableTask(fd: nat, kind: Kind) returns (chosen: int)
      requires Valid() && fd < MAX_FDS && TasksOk(View())
      modifies maps, reduces, workers
      ensures Valid()
      ensures var s := old(View()); var i := FirstPending(Tasks(s, kind), 0);
              if i < |Tasks(s, kind)| then chosen == i && View() == AssignTo(s, fd, kind, i, now)
              else chosen == -1 && View() == s
    {
      hide TaskOk, AssignTo;
      ghost var s := View();
      var n := Live(kind);
      var tasks := Table(kind);
      var i := 0;
      while i < n
        invariant 0 <= i <= n && View() == s && Valid()
        invariant FirstPending(Tasks(s, kind), 0) == FirstPending(Tasks(s, kind), i)
      {
        assert tasks[i] == Tasks(s, kind)[i];
        if tasks[i].state.Pending? {
          AssignSlot(fd, kind, i);
          return i;
        }
        i := i + 1;
      }
      return -1;
    }

    method HandleGetTask(fd: nat) returns (reply: Reply)
      requires Valid() && fd < MAX_FDS && TasksOk(View())
      modifies maps, reduces, workers
      ensures Valid() && GetResult(View(), reply) == S.GetTask(old(View()), fd, now)
    {
      match phase {
        case JobMap =>
          var i := ChooseAvailableTask(fd, MapTask);
          if i >= 0 {
            reply := MapResp(i, maps[i].attempt, R, maps[i].path);
          } else {
            reply := if mapsDone < M then WaitResp(timeoutMs / 2) else AssertionFailed;
          }
        case JobReduce =>
          var i := ChooseAvailableTask(fd, ReduceTask);
          if i >= 0 {
            reply := ReduceResp(i, reduces[i].attempt, M);
          } else {
            reply := if reducesDone < R then WaitResp(timeoutMs / 2) else AssertionFailed;
          }
        case JobDone => reply := DoneResp;
        case JobFailed => reply := DoneResp;
      }
    }

    /** A report. The record of a success is appended to the log file before the phase advances.
        `outside` tells that the handler would leave its arrays at this point. */
    method HandleTaskDone(fd: nat, msg: DoneMsg) returns (acked: bool, outside: bool)
      requires Valid() && fd < MAX_FDS && TasksOk(View())
      requires msg.attemptId < 0x1_0000_0000 && msg.taskId < 0x1_0000_0000
      modifies this`phase, this`mapsDone, this`reducesDone, this`aof, maps, reduces, workers
      ensures Valid()
      ensures var r := S.TaskDone(old(View()), fd, msg, now);
              && View() == r.s && acked == r.acked && outside == r.outside
              && LogFits(r.appended) && aof == old(aof) + LogBytes(r.appended)
    {
      if phase == JobDone || phase == JobFailed {
        assert aof == aof + LogBytes([]);
        return false, false;
      }
      acked, outside := TaskDoneHelper(fd, msg);
    }

    method TaskDoneHelper(fd: nat, msg: DoneMsg) returns (acked: bool, outside: bool)
      requires Valid() && fd < MAX_FDS && TasksOk(View()) && !Terminal(phase)
      requires msg.attemptId < 0x1_0000_0000 && msg.taskId < 0x1_0000_0000
      modifies this`phase, this`mapsDone, this`reducesDone, this`aof, maps, reduces, workers
      ensures Valid()
      ensures var r := S.TaskDone(old(View()), fd, msg, now);
              && View() == r.s && acked == r.acked && outside == r.outside
              && LogFits(r.appended) && aof == old(aof) + LogBytes(r.appended)
    {
      hide LogBytes, EndAttempt, Advance, Complete;
      NoBytes(aof);
      var kind := PhaseKind(phase);
      var i := workers[fd].taskId;
      if i >= Table(kind).Length {
        return true, true;
      }
      var t := Table(kind)[i];
      assert i < Live(kind) ==> t == Tasks(View(), kind)[i];
      if msg.attemptId != t.attempt {
        assert Stale(View(), fd, msg);
        return true, false;
      }
      if t.attempts == 0 {
        return true, true;
      }
      assert TaskOk(t);
      if msg.result == 0 {
        AcceptSuccess(fd, msg, kind, i);
      } else {
        var _ := TaskAttemptEnded(kind, i, ReportedFailure, fd);
      }
      workers[fd] := workers[fd].(hasTask := false);
      return true, false;
    }

    method AcceptSuccess(fd: nat, msg: DoneMsg, kind: Kind, i: nat)
      requires Valid() && fd < MAX_FDS && i < Live(kind)
      requires var t := Tasks(View(), kind)[i]; |t.history| == MAX_ATTEMPTS && 1 <= t.attempts <= MAX_ATTEMPTS
      requires msg.attemptId < 0x1_0000_0000 && msg.taskId < 0x1_0000_0000
      modifies this`phase, this`mapsDone, this`reducesDone, this`aof, maps, reduces
      ensures Valid()
      ensures var s := old(View());
              View() == Advance(CountedDone(WithTask(s, kind, i, Complete(Tasks(s, kind)[i], fd, now)), kind))
      ensures aof == old(aof) + LogBytes([Record(old(workers[fd].kind), msg.taskId, msg.attemptId)])
    {
      hide RecordBytes, LogBytes, Advance, Complete, WithTask;
      var t := Table(kind)[i];
      SetTask(kind, i, Complete(t, fd, now));
      if kind.MapTask? {
        mapsDone := mapsDone + 1;
      } else {
        reducesDone := reducesDone + 1;
      }
      var r := Record(workers[fd].kind, msg.taskId, msg.attemptId);
      OneRecord(r);
      var rec := new byte[RECORD_SIZE];
      WriteRecord(rec, r);
      aof := aof + rec[..];
      MaybeAdvancePhase();
    }

    method OnConnect(fd: nat)
      requires Valid() && fd < MAX_FDS
      modifies workers
      ensures Valid() && View() == S.OnConnect(old(View()), fd, now)
    {
      workers[fd] := UNUSED.(connectedAt := now);
    }

    method OnDisconnect(fd: nat)
      requires Valid() && fd < MAX_FDS
      modifies workers
      ensures Valid() && View() == S.OnDisconnect(old(View()), fd)
    {
      workers[fd] := UNUSED;
    }

    /** Times out one slot if it has expired; true when that failed it for good. */
    method SweepSlot(kind: Kind, i: nat) returns (failed: bool)
      requires Valid() && i < Live(kind) && AllOk(Tasks(View(), kind)) && !AnyFailed(Tasks(View(), kind)) &&
        !phase.JobFailed?
      modifies this`phase, maps, reduces
      ensures Valid() && AllOk(Tasks(View(), kind)) && |Tasks(View(), kind)| == |old(Tasks(View(), kind))|
      ensures View() == WithTasks(old(View()), kind, Tasks(View(), kind)).(phase := if failed then JobFailed
        else old(phase))
      ensures failed == AnyFailed(Tasks(View(), kind))
      ensures var goal := SweepTasks(old(Tasks(View(), kind)), i, now, timeoutMs);
              goal == if failed then Tasks(View(), kind) else SweepTasks(Tasks(View(), kind), i + 1, now, timeoutMs)
    {
      var tasks := Table(kind);
      ghost var ts := Tasks(View(), kind);
      assert tasks[i] == ts[i] && TaskOk(ts[i]);
      hide Sum;
      failed := false;
      if Expired(tasks[i], now, timeoutMs) {
        SweptOnce(ts, i, now);
        ReplaceSlot(ts, i, EndAttempt(ts[i], TimedOut, ts[i].owner, now));
        hide TaskOk, EndAttempt;
        failed := TaskAttemptEnded(kind, i, TimedOut, tasks[i].owner);
      }
    }

    /** Walks the live slots of the kind and times out the expired ones, until one fails for good. */
    method SweepTimeouts(kind: Kind)
      requires Valid() && TasksOk(View()) && !AnyFailed(Tasks(View(), kind)) && !phase.JobFailed?
      modifies this`phase, maps, reduces
      ensures Valid()
      ensures var ts := SweepTasks(old(Tasks(View(), kind)), 0, now, timeoutMs);
              View() == WithTasks(old(View()), kind, ts).(phase := if AnyFailed(ts) then JobFailed else old(phase))
    {
      hide TaskOk, EndAttempt;
      ghost var s := View();
      ghost var goal := SweepTasks(Tasks(s, kind), 0, now, timeoutMs);
      var i := 0;
      while i < Live(kind)
        invariant 0 <= i <= Live(kind) && Valid() && AllOk(Tasks(View(), kind)) && !AnyFailed(Tasks(View(), kind))
        invariant View() == WithTasks(s, kind, Tasks(View(), kind))
        invariant |Tasks(View(), kind)| == Live(kind) == |Tasks(s, kind)|
        invariant SweepTasks(Tasks(View(), kind), i, now, timeoutMs) == goal
        decreases Live(kind) - i
      {
        var failed := SweepSlot(kind, i);
        if failed {
          return;
        }
        i := i + 1;
      }
    }

    /** Factory and definition passes: every slot fresh, every map slot with its path. */
    method ResetSlots(paths: seq<Path>, n: nat)
      requires Valid() && |paths| <= MAX_MAP_TASKS && n <= MAX_REDUCE_TASKS
      requires M == 0 && R == 0 && mapsDone == 0 && reducesDone == 0 && phase == JobMap &&
        workers[..] == seq(MAX_FDS, i => UNUSED)
      modifies this`M, this`R, maps, reduces
      ensures Valid() && M == |paths| && R == n && View() == FreshState(Job(paths, n, timeoutMs))
    {
      for i := 0 to |paths|
        invariant forall j :: 0 <= j < i ==> maps[j] == FreshTask(paths[j])
        invariant forall j :: i <= j < MAX_MAP_TASKS ==> maps[j] == old(maps[j])
        invariant reduces[..] == old(reduces[..])
      {
        maps[i] := FreshTask(paths[i]);
      }
      for i := 0 to n
        invariant forall j :: 0 <= j < i ==> reduces[j] == FreshTask([])
        invariant forall j :: i <= j < MAX_REDUCE_TASKS ==> reduces[j] == old(reduces[j])
        invariant forall j :: 0 <= j < |paths| ==> maps[j] == FreshTask(paths[j])
        invariant forall j :: |paths| <= j < MAX_MAP_TASKS ==> maps[j] == old(maps[j])
      {
        reduces[i] := FreshTask([]);
      }
      M, R := |paths|, n;
      var job := Job(paths, n, timeoutMs);
      assert maps[..M] == FreshState(job).maps;
      assert reduces[..R] == FreshState(job).reduces;
    }

    /** Marks the slot of one record completed. */
    method MarkSlot(r: Record)
      requires Valid() && r.taskId < Live(r.kind)
      modifies maps, reduces
      ensures Valid() && View() == WithTask(old(View()), r.kind, r.taskId,
        old(Tasks(View(), r.kind))[r.taskId].(state := Completed))
    {
      SetTask(r.kind, r.taskId, Table(r.kind)[r.taskId].(state := Completed));
    }

    /** The loader of a fresh process: rebuilds the tables from the log file, or refuses it. */
    method LoadLog(file: seq<byte>) returns (ok: bool)
      requires Valid() && M == 0 && R == 0 && mapsDone == 0 && reducesDone == 0 && phase == JobMap
      requires workers[..] == seq(MAX_FDS, i => UNUSED)
      modifies this`M, this`R, this`mapsDone, this`reducesDone, this`phase, this`aof, maps, reduces
      ensures ok == Load(file).Some?
      ensures ok ==>
        && Valid() && aof == file
        && var l := Load(file).value; View() == Replay(Job(l.paths, l.R, timeoutMs), l.log)
    {
      hide HeaderOk, ReadJob, ReadRecord, FreshState;
      if !HeaderOk(file) {
        return false;
      }
      var job := ReadJobHeader(file, FILE_HEADER_SIZE);
      if job.None? {
        return false;
      }
      ReadJobLimits(file, FILE_HEADER_SIZE);
      var paths, n := job.value.paths, job.value.R;
      ResetSlots(paths, n);
      ok := ReplayRecords(file, job.value.end, Job(paths, n, timeoutMs));
      if ok {
        MaybeAdvancePhase();
        aof := file;
      }
    }

    /** Replays records until the end of the file. */
    method ReplayRecords(file: seq<byte>, start: nat, job: Job) returns (ok: bool)
      requires Valid() && start <= |file| && M == |job.paths| && R == job.R && View() == FreshState(job)
      modifies this`mapsDone, this`reducesDone, maps, reduces
      ensures ok == ReadLog(file, start, M, R).Some?
      ensures ok ==> Valid() && View() == Marked(job, ReadLog(file, start, M, R).value)
    {
      hide ReadRecord, FreshState;
      var off, mapsCount, reduceCount := start, 0, 0;
      ghost var done: seq<Record> := [];
      ghost var goal := ReadLog(file, start, M, R);
      PrependNoRecords(goal);
      FreshCounts(job);
      while off < |file|
        invariant start <= off <= |file| && Valid() && View().mapsDone == 0 && View().reducesDone == 0
        invariant goal == PrependAll(done, ReadLog(file, off, M, R))
        invariant View().(mapsDone := mapsCount, reducesDone := reduceCount) == Marked(job, done)
        decreases |file| - off
      {
        if off + RECORD_SIZE > |file| {
          return false;
        }
        var rec := ReadRecord(file[off..off + RECORD_SIZE], M, R);
        if rec.Rejected? {
          return false;
        }
        if rec.Read? {
          ReadInRange(file[off..off + RECORD_SIZE], M, R);
          PrependAllSnoc(done, rec.r, ReadLog(file, off + RECORD_SIZE, M, R));
          assert (done + [rec.r])[..|done|] == done;
          MarkSlot(rec.r);
          if rec.r.kind.MapTask? {
            mapsCount := mapsCount + 1;
          } else {
            reduceCount := reduceCount + 1;
          }
          done := done + [rec.r];
        }
        off := off + RECORD_SIZE;
      }
      assert done + [] == done;
      mapsDone, reducesDone := mapsCount, reduceCount;
      ok := true;
    }

    /** The periodic job of the master. */
    method SweepNow()
      requires Valid() && Inv(View())
      modifies this`phase, maps, reduces
      ensures Valid() && View() == S.Sweep(old(View()), now)
    {
      if phase == JobMap {
        SweepTimeouts(MapTask);
      } else if phase == JobReduce {
        SweepTimeouts(ReduceTask);
      }
    }
  }

  /** The path loop of the job header reader. */
  method ReadPathList(file: seq<byte>, off: nat, m: nat) returns (r: Option<Paths>)
    requires off <= |file|
    ensures r == ReadPaths(file, off, m)
  {
    hide GetU16;
    var pos := off;
    var paths: seq<Path> := [];
    var i := 0;
    ghost var goal := ReadPaths(file, off, m);
    PrependNothing(goal);
    while i < m
      invariant 0 <= i <= m && off <= pos <= |file|
      invariant goal == PrependPaths(paths, ReadPaths(file, pos, m - i))
    {
      if pos + 2 > |file| {
        return None;
      }
      var end := pos + 2 + GetU16(file[pos..pos + 2]);
      if end > |file| {
        return None;
      }
      var p := file[pos + 2..end];
      PrependPathsSnoc(paths, p, ReadPaths(file, end, m - i - 1));
      paths, pos, i := paths + [p], end, i + 1;
    }
    assert paths + [] == paths;
    r := Some(Paths(paths, pos));
  }

  /** The job header reader: counts, then the paths one by one, then the checksum and the limits. */
  method ReadJobHeader(file: seq<byte>, off: nat) returns (r: Option<JobHeader>)
    ensures r == ReadJob(file, off)
  {
    hide Intact, GetU32, ReadPaths;
    if off + 8 > |file| {
      return None;
    }
    var m, n := GetU32(file[off..off + 4]), GetU32(file[off + 4..off + 8]);
    var ps := ReadPathList(file, off + 8, m);
    if ps.None? || ps.value.end + 8 > |file| || !Intact(file[off..ps.value.end + 8]) {
      return None;
    }
    if m > MAX_MAP_TASKS || n > MAX_REDUCE_TASKS {
      return None;
    }
    var paths := ps.value.paths;
    for k := 0 to |paths|
      invariant forall j :: 0 <= j < k ==> |paths[j]| < PATH_MAX
    {
      if |paths[k]| >= PATH_MAX {
        return None;
      }
    }
    r := Some(JobHeader(paths, n, ps.value.end + 8));
  }

  lemma PrependNothing(rest: Option<Paths>)
    ensures PrependPaths([], rest) == rest
  {
    if rest.Some? {
      assert [] + rest.value.paths == rest.value.paths;
    }
  }

  function PrependPaths(ps: seq<Path>, rest: Option<Paths>): Option<Paths> {
    if rest.None? then None else Some(Paths(ps + rest.value.paths, rest.value.end))
  }

  lemma PrependPathsSnoc(ps: seq<Path>, p: Path, rest: Option<Paths>)
    ensures PrependPaths(ps, PrependPath(p, rest)) == PrependPaths(ps + [p], rest)
  {
    if rest.Some? {
      assert ps + ([p] + rest.value.paths) == ps + [p] + rest.value.paths;
    }
  }

  function PrependAll(rs: seq<Record>, rest: Option<seq<Record>>): Option<seq<Record>> {
    if rest.None? then None else Some(rs + rest.value)
  }

  lemma PrependNoRecords(rest: Option<seq<Record>>)
    ensures PrependAll([], rest) == rest
  {
    if rest.Some? {
      assert [] + rest.value == rest.value;
    }
  }

  lemma PrependAllSnoc(rs: seq<Record>, r: Record, rest: Option<seq<Record>>)
    ensures PrependAll(rs, Prepend(Read(r), rest)) == PrependAll(rs + [r], rest)
  {
    if rest.Some? {
      assert rs + ([r] + rest.value) == rs + [r] + rest.value;
    }
  }

  lemma ReadInRange(rec: seq<byte>, M: nat, R: nat)
    requires |rec| == RECORD_SIZE && ReadRecord(rec, M, R).Read?
    ensures var r := ReadRecord(rec, M, R).r; r.taskId < if r.kind.MapTask? then M else R
  {
    hide Intact;
  }

  lemma ReadJobLimits(file: seq<byte>, off: nat)
    requires ReadJob(file, off).Some?
    ensures var j := ReadJob(file, off).value; |j.paths| <= MAX_MAP_TASKS && j.R <= MAX_REDUCE_TASKS && j.end <= |file|
  {
    hide Intact;
  }

  lemma FreshCounts(job: Job)
    ensures FreshState(job).mapsDone == 0 && FreshState(job).reducesDone == 0
  {
  }

  lemma NoBytes(aof: seq<byte>)
    ensures aof == aof + LogBytes([])
  {
  }

  lemma OneRecord(r: Record)
    requires RecordFits(r)
    ensures LogFits([r]) && LogBytes([r]) == RecordBytes(r)
  {
    var none: seq<Record> := [];
    assert [r][1..] == none;
    assert LogBytes([r]) == RecordBytes(r) + LogBytes(none);
  }
}
