/** The master as seen from its connections: every order of connects, requests, reports,
    timeouts, crashes and restarts, with workers that report what they were given. */
module Protocol {
  import opened Scheduler
  import opened Recovery

  datatype Assignment = Assignment(kind: Kind, id: nat, attempt: nat)

  /** `open` holds what each connected worker was last given and has not yet reported; `issued`
      is the history of assignments in the current lifetime of the master. `outside` is set once a
      handler has left its arrays. */
  datatype Proto = Proto(up: bool, torn: bool, m: State, log: seq<Record>, conns: set<nat>,
                         open: map<nat, Assignment>, issued: seq<Assignment>, outside: bool)

  datatype Event =
    | Connect(fd: nat, now: int)
    | Disconnect(fd: nat)
    | Get(fd: nat, now: int)
    | Report(fd: nat, result: nat, now: int)
    | Timeouts(now: int)
    | Crash(torn: bool)
    | Restart

  function Start(job: Job): Proto {
    Proto(true, false, Replay(job, []), [], {}, map[], [], false)
  }

  /** What the handlers need to be well defined. It holds in every reachable state. */
  predicate Ready(p: Proto) {
    && |p.m.workers| == MAX_FDS && TasksOk(p.m)
    && (forall fd :: fd in p.conns ==> fd < MAX_FDS)
    && (forall fd :: fd in p.open ==> fd < MAX_FDS && 1 <= p.open[fd].attempt)
  }

  predicate Guard(p: Proto, e: Event) {
    match e
    case Connect(fd, _) => p.up && fd < MAX_FDS && fd !in p.conns
    case Disconnect(fd) => p.up && fd in p.conns
    case Get(fd, _) => p.up && fd in p.conns && fd !in p.open
    case Report(fd, _, _) => p.up && fd in p.open
    case Timeouts(_) => p.up
    case Crash(_) => p.up
    case Restart => !p.up && !p.torn
  }

  predicate Enabled(p: Proto, e: Event) {
    Ready(p) && Guard(p, e)
  }

  function Drop(p: Proto, fd: nat): Proto
    requires fd < |p.m.workers|
  {
    p.(m := OnDisconnect(p.m, fd), conns := p.conns - {fd}, open := p.open - {fd})
  }

  /** The assignment a reply carries. */
  function Given(r: Reply): (a: Assignment)
    requires r.MapResp? || r.ReduceResp?
  {
    Assignment(if r.MapResp? then MapTask else ReduceTask, r.taskId, r.attemptId)
  }

  function HandleGet(p: Proto, fd: nat, now: int): Proto
    requires Enabled(p, Get(fd, now))
  {
    var r := GetTask(p.m, fd, now);
    if r.reply.MapResp? || r.reply.ReduceResp? then
      var a := Given(r.reply);
      p.(m := r.s, open := p.open[fd := a], issued := p.issued + [a])
    else p.(m := r.s)
  }

  function MsgOf(a: Assignment, result: nat): DoneMsg {
    DoneMsg(a.id, a.attempt, result)
  }

  function HandleReport(p: Proto, fd: nat, result: nat, now: int): Proto
    requires Enabled(p, Report(fd, result, now))
  {
    var r := TaskDone(p.m, fd, MsgOf(p.open[fd], result), now);
    var p' := p.(m := r.s, log := p.log + r.appended, open := p.open - {fd}, outside := p.outside || r.outside);
    if r.acked then p' else Drop(p', fd)
  }

  function Apply(job: Job, p: Proto, e: Event): Proto
    requires Enabled(p, e)
  {
    match e
    case Connect(fd, now) => p.(m := OnConnect(p.m, fd, now), conns := p.conns + {fd})
    case Disconnect(fd) => Drop(p, fd)
    case Get(fd, now) => HandleGet(p, fd, now)
    case Report(fd, result, now) => HandleReport(p, fd, result, now)
    case Timeouts(now) => p.(m := Sweep(p.m, now))
    case Crash(torn) => p.(up := false, torn := torn, conns := {}, open := map[], issued := [])
    case Restart => p.(up := true, m := Replay(job, p.log))
  }

  // ----- runs -----

  predicate Legal(job: Job, es: seq<Event>)
    decreases |es|, 0
  {
    es == [] || (Legal(job, es[..|es| - 1]) && Enabled(After(job, es[..|es| - 1]), es[|es| - 1]))
  }

  /** The state after a run. */
  function After(job: Job, es: seq<Event>): Proto
    requires Legal(job, es)
    decreases |es|, 1
  {
    if es == [] then Start(job) else Apply(job, After(job, es[..|es| - 1]), es[|es| - 1])
  }

  // ----- the protocol invariant -----

  /** What an outstanding assignment on connection fd promises. */
  predicate Held(m: State, fd: nat, a: Assignment) {
    && fd < |m.workers|
    && m.workers[fd].kind == a.kind && m.workers[fd].taskId == a.id && m.workers[fd].attemptId == a.attempt
    && a.id < |Tasks(m, a.kind)|
    && 1 <= a.attempt <= Tasks(m, a.kind)[a.id].attempt
    && (a.attempt == Tasks(m, a.kind)[a.id].attempt ==> !Tasks(m, a.kind)[a.id].state.Completed?)
    && (a.kind.ReduceTask? ==> m.mapsDone == |m.maps|)
  }

  predicate OpenOk(m: State, conns: set<nat>, open: map<nat, Assignment>) {
    && (forall fd :: fd in conns ==> fd < MAX_FDS)
    && (forall fd :: fd in open ==> fd in conns && Held(m, fd, open[fd]))
    && (forall fd, fd' :: fd in open && fd' in open && fd != fd' ==> open[fd] != open[fd'])
  }

  predicate Possible(m: State, a: Assignment) {
    a.id < |Tasks(m, a.kind)| && 1 <= a.attempt <= Tasks(m, a.kind)[a.id].attempt
  }

  predicate Distinct(issued: seq<Assignment>) {
    forall i, j :: 0 <= i < j < |issued| ==> issued[i] != issued[j]
  }

  /** The assignments of this lifetime are exactly those the attempt counters speak of, each
      made once. */
  ghost predicate IssuedOk(m: State, issued: seq<Assignment>) {
    && (forall a :: a in issued <==> Possible(m, a))
    && Distinct(issued)
    && |issued| == Sum(AttemptsOf, m.maps) + Sum(AttemptsOf, m.reduces)
  }

  ghost predicate RunningOk(job: Job, p: Proto) {
    Inv(p.m) && Agrees(job, p.m, p.log) && OpenOk(p.m, p.conns, p.open) && IssuedOk(p.m, p.issued)
  }

  ghost predicate PInv(job: Job, p: Proto) {
    && !p.outside && LogOk(job, p.log)
    && (p.up ==> RunningOk(job, p))
    && (!p.up ==> p.conns == {} && p.open == map[] && p.issued == [] && |p.m.workers| == MAX_FDS && TasksOk(p.m))
  }

  lemma PInvReady(job: Job, p: Proto)
    requires PInv(job, p)
    ensures Ready(p)
  {
  }

  // ----- how handlers move the task tables -----

  /** Attempts only grow, and no slot completes while its attempt number stands still. */
  predicate Forward(ts: seq<Task>, ts': seq<Task>) {
    && |ts| == |ts'|
    && forall i :: 0 <= i < |ts| ==>
         && ts[i].attempt <= ts'[i].attempt
         && ts'[i].path == ts[i].path
         && (ts'[i].state.Completed? <==> ts[i].state.Completed?)
  }

  predicate MovesForward(m: State, m': State) {
    && Forward(m.maps, m'.maps) && Forward(m.reduces, m'.reduces)
    && m'.mapsDone == m.mapsDone && m'.timeoutMs == m.timeoutMs && |m'.workers| == |m.workers|
  }

  lemma SameSizes(m: State, m': State)
    requires MovesForward(m, m')
    ensures |m'.maps| == |m.maps| && |m'.reduces| == |m.reduces| && |m'.workers| == |m.workers|
  {
  }

  lemma ForwardAgrees(job: Job, m: State, m': State, log: seq<Record>)
    requires Agrees(job, m, log) && MovesForward(m, m')
    ensures Agrees(job, m', log)
  {
    hide Logged;
  }

  lemma ForwardHeld(m: State, m': State, fd: nat, a: Assignment)
    requires Held(m, fd, a) && MovesForward(m, m') && fd < |m.workers| && m'.workers[fd] == m.workers[fd]
    ensures Held(m', fd, a)
  {
  }

  // ----- requests -----

  lemma AssignMovesForward(m: State, fd: nat, kind: Kind, i: nat, now: int)
    requires fd < |m.workers| && i < |Tasks(m, kind)| && TaskOk(Tasks(m, kind)[i]) && Tasks(m, kind)[i].state.Pending?
    ensures MovesForward(m, AssignTo(m, fd, kind, i, now))
  {
  }

  lemma AssignOpenOk(p: Proto, fd: nat, kind: Kind, i: nat, now: int)
    requires OpenOk(p.m, p.conns, p.open) && fd in p.conns && fd !in p.open && |p.m.workers| == MAX_FDS
    requires i < |Tasks(p.m, kind)| && TaskOk(Tasks(p.m, kind)[i]) && Tasks(p.m, kind)[i].state.Pending?
    requires kind.ReduceTask? ==> p.m.mapsDone == |p.m.maps|
    ensures var m' := AssignTo(p.m, fd, kind, i, now);
            OpenOk(m', p.conns, p.open[fd := Assignment(kind, i, Tasks(m', kind)[i].attempt)])
  {
    var m' := AssignTo(p.m, fd, kind, i, now);
    AssignMovesForward(p.m, fd, kind, i, now);
    var a := Assignment(kind, i, Tasks(m', kind)[i].attempt);
    assert Held(m', fd, a) && !Possible(p.m, a);
    forall fd' | fd' in p.open ensures Held(m', fd', p.open[fd']) && p.open[fd'] != a {
      ForwardHeld(p.m, m', fd', p.open[fd']);
      assert Possible(p.m, p.open[fd']);
    }
    hide TaskOk, AssignTo, Held, MovesForward, Possible;
  }

  lemma AssignSums(m: State, fd: nat, kind: Kind, i: nat, now: int)
    requires fd < |m.workers| && i < |Tasks(m, kind)| && TaskOk(Tasks(m, kind)[i]) && Tasks(m, kind)[i].state.Pending?
    ensures var m' := AssignTo(m, fd, kind, i, now);
            Sum(AttemptsOf, m'.maps) + Sum(AttemptsOf, m'.reduces) ==
              Sum(AttemptsOf, m.maps) + Sum(AttemptsOf, m.reduces) + 1
  {
    SumUpdate(AttemptsOf, Tasks(m, kind), i, Assign(Tasks(m, kind)[i], fd, now));
    hide Sum;
  }

  lemma AssignIssuedOk(p: Proto, fd: nat, kind: Kind, i: nat, now: int)
    requires IssuedOk(p.m, p.issued) && fd < |p.m.workers|
    requires i < |Tasks(p.m, kind)| && TaskOk(Tasks(p.m, kind)[i]) && Tasks(p.m, kind)[i].state.Pending?
    ensures var m' := AssignTo(p.m, fd, kind, i, now);
            IssuedOk(m', p.issued + [Assignment(kind, i, Tasks(m', kind)[i].attempt)])
  {
    var m' := AssignTo(p.m, fd, kind, i, now);
    var a := Assignment(kind, i, Tasks(m', kind)[i].attempt);
    AssignSums(p.m, fd, kind, i, now);
    hide TaskOk, Sum;
    assert !Possible(p.m, a);
    forall b ensures b in p.issued + [a] <==> Possible(m', b) {
      assert Possible(m', b) <==> Possible(p.m, b) || b == a;
    }
  }

  /** The three ways a request can end. */
  lemma GetCases(p: Proto, fd: nat, now: int)
    requires Enabled(p, Get(fd, now)) && Inv(p.m)
    ensures var p' := HandleGet(p, fd, now);
            || p' == p
            || (&& !Terminal(p.m.phase)
                && var kind, i := PhaseKind(p.m.phase), FirstPending(Tasks(p.m, PhaseKind(p.m.phase)), 0);
                && i < |Tasks(p.m, kind)| && TaskOk(Tasks(p.m, kind)[i]) && Tasks(p.m, kind)[i].state.Pending?
                && var m' := AssignTo(p.m, fd, kind, i, now);
                && var a := Assignment(kind, i, Tasks(m', kind)[i].attempt);
                && p' == p.(m := m', open := p.open[fd := a], issued := p.issued + [a]))
  {
    if !Terminal(p.m.phase) {
      var kind := PhaseKind(p.m.phase);
      var ts := Tasks(p.m, kind);
      var i := FirstPending(ts, 0);
      if i < |ts| {
        assert TaskOk(ts[i]);
      }
    }
  }

  lemma GetKeepsPInv(job: Job, p: Proto, fd: nat, now: int)
    requires PInv(job, p) && Enabled(p, Get(fd, now))
    ensures PInv(job, HandleGet(p, fd, now))
  {
    GetCases(p, fd, now);
    GetTaskKeepsInv(p.m, fd, now);
    var p' := HandleGet(p, fd, now);
    assert Inv(p'.m);
    if p' != p {
      var kind := PhaseKind(p.m.phase);
      var i := FirstPending(Tasks(p.m, kind), 0);
      AssignMovesForward(p.m, fd, kind, i, now);
      ForwardAgrees(job, p.m, p'.m, p.log);
      AssignOpenOk(p, fd, kind, i, now);
      AssignIssuedOk(p, fd, kind, i, now);
    }
  }

  // ----- reports -----

  /** A map report handled in the reduce phase that points past the reduce table, or that lands on a
      live reduce slot with the same attempt number and either claims success or hits a completed
      slot. */
  predicate Misfire(p: Proto, e: Event) {
    && e.Report? && e.fd in p.open
    && var a := p.open[e.fd];
    && p.m.phase.JobReduce? && a.kind.MapTask?
    && (|| a.id >= MAX_REDUCE_TASKS
        || (&& a.id < |p.m.reduces| && a.attempt == p.m.reduces[a.id].attempt
            && (e.result == 0 || p.m.reduces[a.id].state.Completed?)))
  }

  lemma NotAReport(p: Proto, e: Event)
    requires !e.Report?
    ensures !Misfire(p, e)
  {
  }

  /** An enabled report stays inside the arrays exactly when it is not a map report that points past
      the reduce table. */
  lemma ReportInside(job: Job, p: Proto, fd: nat, result: nat, now: int)
    requires PInv(job, p) && Enabled(p, Report(fd, result, now)) && !Terminal(p.m.phase)
    ensures var a := p.open[fd];
            Outside(p.m, fd, MsgOf(a, result)) <==> p.m.phase.JobReduce? && a.kind.MapTask? && a.id >= MAX_REDUCE_TASKS
  {
    hide Sum, Agrees, IssuedOk, LogOk;
    var a := p.open[fd];
    assert Held(p.m, fd, a);
    var ts := Tasks(p.m, PhaseKind(p.m.phase));
    assert a.id < |ts| ==> TaskOk(ts[a.id]);
  }

  /** The two tables after one slot changed without being assigned anew. */
  lemma SlotIssuedOk(p: Proto, m': State, kind: Kind, i: nat, t: Task)
    requires IssuedOk(p.m, p.issued) && i < |Tasks(p.m, kind)|
    requires t.attempt == Tasks(p.m, kind)[i].attempt && t.attempts == Tasks(p.m, kind)[i].attempts
    requires m'.maps == WithTask(p.m, kind, i, t).maps && m'.reduces == WithTask(p.m, kind, i, t).reduces
    ensures IssuedOk(m', p.issued)
  {
    SumUpdate(AttemptsOf, Tasks(p.m, kind), i, t);
    hide Sum;
    forall a ensures Possible(m', a) <==> Possible(p.m, a) {
    }
  }

  lemma ForwardOpenOk(p: Proto, m': State, fd: nat)
    requires OpenOk(p.m, p.conns, p.open) && |p.m.workers| == MAX_FDS
    requires MovesForward(p.m, m')
    requires forall fd' :: 0 <= fd' < MAX_FDS && fd' != fd ==> m'.workers[fd'] == p.m.workers[fd']
    ensures OpenOk(m', p.conns, p.open - {fd})
  {
    forall fd' | fd' in p.open && fd' != fd ensures Held(m', fd', p.open[fd']) {
      ForwardHeld(p.m, m', fd', p.open[fd']);
    }
    hide MovesForward, Held;
  }

  lemma FailureEffect(m: State, fd: nat, msg: DoneMsg, now: int)
    requires Inv(m) && fd < MAX_FDS && !Outside(m, fd, msg) && msg.result != 0
    requires !Terminal(m.phase) && !Stale(m, fd, msg) && !HitsCompleted(m, fd, msg)
    ensures var r, kind, i := TaskDone(m, fd, msg, now), PhaseKind(m.phase), m.workers[fd].taskId;
            && r.acked && !r.outside && r.appended == [] && Inv(r.s) && MovesForward(m, r.s)
            && TaskOk(Tasks(m, kind)[i]) && 1 <= Tasks(m, kind)[i].attempts
            && var t := EndAttempt(Tasks(m, kind)[i], ReportedFailure, fd, now);
            && r.s.maps == WithTask(m, kind, i, t).maps && r.s.reduces == WithTask(m, kind, i, t).reduces
            && r.s.workers == m.workers[fd := m.workers[fd].(hasTask := false)]
  {
    FailureKeepsInv(m, fd, msg, now);
    assert TaskOk(Tasks(m, PhaseKind(m.phase))[m.workers[fd].taskId]);
    hide Inv, Sum;
  }

  lemma FailureKeepsPInv(job: Job, p: Proto, fd: nat, result: nat, now: int)
    requires PInv(job, p) && Enabled(p, Report(fd, result, now)) && result != 0
    requires !Terminal(p.m.phase) && !Stale(p.m, fd, MsgOf(p.open[fd], result))
    requires !Outside(p.m, fd, MsgOf(p.open[fd], result))
    requires !HitsCompleted(p.m, fd, MsgOf(p.open[fd], result))
    ensures PInv(job, HandleReport(p, fd, result, now))
  {
    hide Inv, Agrees, OpenOk, IssuedOk, LogOk, TaskDone, MovesForward;
    var msg := MsgOf(p.open[fd], result);
    FailureEffect(p.m, fd, msg, now);
    assert |p.m.workers| == MAX_FDS;
    var m' := TaskDone(p.m, fd, msg, now).s;
    var kind, i := PhaseKind(p.m.phase), p.m.workers[fd].taskId;
    var t := EndAttempt(Tasks(p.m, kind)[i], ReportedFailure, fd, now);
    ForwardAgrees(job, p.m, m', p.log);
    ForwardOpenOk(p, m', fd);
    SlotIssuedOk(p, m', kind, i, t);
    assert p.log + [] == p.log;
  }

  lemma SuccessInPhase(job: Job, p: Proto, fd: nat, now: int)
    requires PInv(job, p) && Enabled(p, Report(fd, 0, now)) && !Misfire(p, Report(fd, 0, now))
    requires !Terminal(p.m.phase) && !Stale(p.m, fd, MsgOf(p.open[fd], 0)) && !Outside(p.m, fd, MsgOf(p.open[fd], 0))
    ensures var a := p.open[fd];
            && Held(p.m, fd, a) && a.kind == PhaseKind(p.m.phase)
            && a.attempt == Tasks(p.m, a.kind)[a.id].attempt && !Tasks(p.m, a.kind)[a.id].state.Completed?
            && !HitsCompleted(p.m, fd, MsgOf(a, 0)) && |p.m.workers| == MAX_FDS && fd < MAX_FDS
  {
    hide TaskOk, Sum, Agrees, IssuedOk, LogOk;
  }

  lemma AcceptedAppendable(job: Job, p: Proto, a: Assignment)
    requires PInv(job, p) && p.up && a.kind == PhaseKind(p.m.phase) && !Terminal(p.m.phase)
    requires a.id < |Tasks(p.m, a.kind)| && !Tasks(p.m, a.kind)[a.id].state.Completed?
    ensures Appendable(job, p.log, Record(a.kind, a.id, a.attempt))
  {
    DoneFull(p.m.maps);
    hide Logged, TaskOk, Sum;
  }

  lemma CompletedAgrees(job: Job, m: State, m': State, log: seq<Record>, a: Assignment, t: Task)
    requires Agrees(job, m, log) && a.id < |Tasks(m, a.kind)|
    requires t.state.Completed? && t.path == Tasks(m, a.kind)[a.id].path
    requires m'.maps == WithTask(m, a.kind, a.id, t).maps && m'.reduces == WithTask(m, a.kind, a.id, t).reduces
    requires m'.timeoutMs == m.timeoutMs
    ensures Agrees(job, m', log + [Record(a.kind, a.id, a.attempt)])
  {
    var r := Record(a.kind, a.id, a.attempt);
    forall kind, id
      ensures Logged(log + [r], kind, id) <==> Logged(log, kind, id) || (r.kind == kind && r.taskId == id)
    {
      LoggedSnoc(log, r, kind, id);
    }
    hide Logged;
  }

  lemma CompletedOpenOk(p: Proto, m': State, fd: nat, t: Task)
    requires OpenOk(p.m, p.conns, p.open) && |p.m.workers| == MAX_FDS && fd in p.open
    requires var a := p.open[fd];
             && a.attempt == Tasks(p.m, a.kind)[a.id].attempt == t.attempt
             && m'.maps == WithTask(p.m, a.kind, a.id, t).maps && m'.reduces == WithTask(p.m, a.kind, a.id, t).reduces
    requires p.m.mapsDone == |p.m.maps| ==> m'.mapsDone == p.m.mapsDone
    requires |m'.workers| == MAX_FDS && forall fd' :: 0 <= fd' < MAX_FDS && fd' != fd ==>
      m'.workers[fd'] == p.m.workers[fd']
    ensures OpenOk(m', p.conns, p.open - {fd})
  {
    assert Held(p.m, fd, p.open[fd]);
    hide Held;
    forall fd' | fd' in p.open && fd' != fd ensures Held(m', fd', p.open[fd']) {
      HeldMoves(p.m, m', p.open[fd], t, fd', p.open[fd']);
    }
  }

  /** Completing one slot leaves the books on every other assignment right. */
  lemma HeldMoves(m: State, m': State, a: Assignment, t: Task, fd: nat, b: Assignment)
    requires Held(m, fd, b) && b != a && a.id < |Tasks(m, a.kind)| &&
      a.attempt == Tasks(m, a.kind)[a.id].attempt == t.attempt
    requires m'.maps == WithTask(m, a.kind, a.id, t).maps && m'.reduces == WithTask(m, a.kind, a.id, t).reduces
    requires m.mapsDone == |m.maps| ==> m'.mapsDone == m.mapsDone
    requires fd < |m'.workers| && m'.workers[fd] == m.workers[fd]
    ensures Held(m', fd, b)
  {
  }

  lemma SuccessEffect(m: State, fd: nat, msg: DoneMsg, now: int)
    requires Inv(m) && fd < MAX_FDS && !Outside(m, fd, msg) && msg.result == 0
    requires !Terminal(m.phase) && !Stale(m, fd, msg) && !HitsCompleted(m, fd, msg)
    ensures var r, kind, i := TaskDone(m, fd, msg, now), PhaseKind(m.phase), m.workers[fd].taskId;
            && r.acked && !r.outside && r.appended == [Record(m.workers[fd].kind, msg.taskId, msg.attemptId)] &&
              Inv(r.s)
            && var t0 := Tasks(m, kind)[i];
            && |t0.history| == MAX_ATTEMPTS && 1 <= t0.attempts <= MAX_ATTEMPTS
            && var t := Complete(t0, fd, now);
            && t.state.Completed? && t.path == t0.path && t.attempt == t0.attempt && t.attempts == t0.attempts
            && r.s.maps == WithTask(m, kind, i, t).maps && r.s.reduces == WithTask(m, kind, i, t).reduces
            && r.s.workers == m.workers[fd := m.workers[fd].(hasTask := false)]
            && r.s.timeoutMs == m.timeoutMs && (m.mapsDone == |m.maps| ==> r.s.mapsDone == m.mapsDone)
  {
    SuccessKeepsInv(m, fd, msg, now);
    assert TaskOk(Tasks(m, PhaseKind(m.phase))[m.workers[fd].taskId]);
    hide TaskOk, Sum;
  }

  lemma SuccessKeepsPInv(job: Job, p: Proto, fd: nat, now: int)
    requires PInv(job, p) && Enabled(p, Report(fd, 0, now)) && !Misfire(p, Report(fd, 0, now))
    requires !Terminal(p.m.phase) && !Stale(p.m, fd, MsgOf(p.open[fd], 0)) && !Outside(p.m, fd, MsgOf(p.open[fd], 0))
    ensures PInv(job, HandleReport(p, fd, 0, now))
    ensures HandleReport(p, fd, 0, now).log == p.log + [Record(p.open[fd].kind, p.open[fd].id, p.open[fd].attempt)]
  {
    hide TaskOk, TasksOk, Inv, Agrees, OpenOk, IssuedOk, LogOk, TaskDone, Appendable, Misfire, HitsCompleted, Stale,
      Complete;
    var a := p.open[fd];
    var msg := MsgOf(a, 0);
    SuccessInPhase(job, p, fd, now);
    SuccessEffect(p.m, fd, msg, now);
    AcceptedAppendable(job, p, a);
    var m' := TaskDone(p.m, fd, msg, now).s;
    var t := Complete(Tasks(p.m, a.kind)[a.id], fd, now);
    LogOkSnoc(job, p.log, Record(a.kind, a.id, a.attempt));
    CompletedAgrees(job, p.m, m', p.log, a, t);
    CompletedOpenOk(p, m', fd, t);
    SlotIssuedOk(p, m', a.kind, a.id, t);
  }

  lemma SubsetOpenOk(m: State, conns: set<nat>, open: map<nat, Assignment>, fd: nat)
    requires OpenOk(m, conns, open) && fd !in open
    ensures OpenOk(m, conns - {fd}, open)
  {
    hide Held;
  }

  lemma DropKeepsPInv(job: Job, p: Proto, fd: nat)
    requires PInv(job, p) && p.up && fd < MAX_FDS
    ensures PInv(job, Drop(p, fd))
  {
    hide Inv, Agrees, LogOk, Sum, OpenOk;
    PInvReady(job, p);
    ConnectionsKeepInv(p.m, fd, 0);
    var m' := OnDisconnect(p.m, fd);
    ForwardAgrees(job, p.m, m', p.log);
    ForwardOpenOk(p, m', fd);
    SubsetOpenOk(m', p.conns, p.open - {fd}, fd);
    assert forall a :: Possible(m', a) <==> Possible(p.m, a);
  }

  lemma StaleKeepsPInv(job: Job, p: Proto, fd: nat)
    requires PInv(job, p) && p.up
    ensures PInv(job, p.(open := p.open - {fd}))
  {
    hide Inv, Agrees, LogOk, Sum, Held;
  }

  /** A misfired report breaks the invariant. */
  lemma MisfireBreaks(job: Job, p: Proto, fd: nat, result: nat, now: int)
    requires PInv(job, p) && Enabled(p, Report(fd, result, now)) && Misfire(p, Report(fd, result, now))
    ensures !PInv(job, HandleReport(p, fd, result, now))
  {
    var a := p.open[fd];
    var p' := HandleReport(p, fd, result, now);
    ReportInside(job, p, fd, result, now);
    if a.id >= MAX_REDUCE_TASKS {
      assert p'.outside;
    } else if result == 0 {
      DoneFull(p.m.maps);
      assert Logged(p.log, MapTask, a.id);
      LogOkSnoc(job, p.log, Record(MapTask, a.id, a.attempt));
      assert p'.log == p.log + [Record(MapTask, a.id, a.attempt)];
    } else {
      TaskDoneKeepsInv(p.m, fd, MsgOf(a, result), now);
    }
  }

  /** A report keeps the invariant exactly when it does not misfire. */
  lemma ReportKeepsPInv(job: Job, p: Proto, fd: nat, result: nat, now: int)
    requires PInv(job, p) && Enabled(p, Report(fd, result, now))
    ensures PInv(job, HandleReport(p, fd, result, now)) <==> !Misfire(p, Report(fd, result, now))
  {
    var msg := MsgOf(p.open[fd], result);
    if Misfire(p, Report(fd, result, now)) {
      MisfireBreaks(job, p, fd, result, now);
    } else if Terminal(p.m.phase) {
      DropKeepsPInv(job, p, fd);
      assert p.log + [] == p.log;
      assert p.open - {fd} - {fd} == p.open - {fd};
    } else {
      ReportInside(job, p, fd, result, now);
      if Stale(p.m, fd, msg) {
        StaleKeepsPInv(job, p, fd);
        assert p.log + [] == p.log;
      } else if result == 0 {
        SuccessKeepsPInv(job, p, fd, now);
      } else {
        FailureKeepsPInv(job, p, fd, result, now);
      }
    }
  }

  // ----- timeouts, connections, crashes -----

  lemma SweptForward(ts: seq<Task>, ts': seq<Task>)
    requires AllOk(ts) && AllOk(ts') && AllSwept(ts, ts')
    ensures Forward(ts, ts') && Sum(AttemptsOf, ts') == Sum(AttemptsOf, ts)
    ensures forall i :: 0 <= i < |ts| ==> ts'[i].attempt == ts[i].attempt
  {
    forall i | 0 <= i < |ts| ensures ts'[i].attempt == ts[i].attempt && AttemptsOf(ts'[i]) == AttemptsOf(ts[i]) {
      assert Swept(ts[i], ts'[i]) && TaskOk(ts[i]) && TaskOk(ts'[i]);
    }
    hide TaskOk;
    SumSame(AttemptsOf, ts', ts);
  }

  lemma SweepEffect(m: State, now: int)
    requires Inv(m)
    ensures Inv(Sweep(m, now)) && MovesForward(m, Sweep(m, now)) && Sweep(m, now).workers == m.workers
    ensures forall a :: Possible(Sweep(m, now), a) <==> Possible(m, a)
    ensures Sum(AttemptsOf, Sweep(m, now).maps) == Sum(AttemptsOf, m.maps)
    ensures Sum(AttemptsOf, Sweep(m, now).reduces) == Sum(AttemptsOf, m.reduces)
  {
    hide TaskOk, Sum;
    SweepKeepsInv(m, now);
    if !Terminal(m.phase) {
      var ts := Tasks(m, PhaseKind(m.phase));
      SweepTasksEffect(ts, 0, now, m.timeoutMs);
      SweptForward(ts, SweepTasks(ts, 0, now, m.timeoutMs));
      hide Inv, SweepTasks;
    }
  }

  lemma SweepKeepsPInv(job: Job, p: Proto, now: int)
    requires PInv(job, p) && Enabled(p, Timeouts(now))
    ensures PInv(job, p.(m := Sweep(p.m, now)))
  {
    hide TaskOk, Sum, Sweep, Agrees, Held, MovesForward, Inv, LogOk;
    var m' := Sweep(p.m, now);
    PInvReady(job, p);
    SweepEffect(p.m, now);
    SameSizes(p.m, m');
    ForwardAgrees(job, p.m, m', p.log);
    forall fd | fd in p.open ensures Held(m', fd, p.open[fd]) {
      ForwardHeld(p.m, m', fd, p.open[fd]);
    }
  }

  lemma ConnectKeepsPInv(job: Job, p: Proto, fd: nat, now: int)
    requires PInv(job, p) && Enabled(p, Connect(fd, now))
    ensures PInv(job, p.(m := OnConnect(p.m, fd, now), conns := p.conns + {fd}))
  {
    hide TaskOk, Sum, Agrees, Held, Inv, LogOk;
    var m' := OnConnect(p.m, fd, now);
    ConnectionsKeepInv(p.m, fd, now);
    ForwardAgrees(job, p.m, m', p.log);
    forall fd' | fd' in p.open ensures Held(m', fd', p.open[fd']) {
      ForwardHeld(p.m, m', fd', p.open[fd']);
    }
    assert forall a :: Possible(m', a) <==> Possible(p.m, a);
  }

  predicate Unassigned(ts: seq<Task>) {
    forall i :: 0 <= i < |ts| ==> ts[i].attempt == 0 && ts[i].attempts == 0
  }

  lemma UnassignedIssuedOk(m: State)
    requires Unassigned(m.maps) && Unassigned(m.reduces)
    ensures IssuedOk(m, [])
  {
    SumBound(AttemptsOf, m.maps, 0);
    SumBound(AttemptsOf, m.reduces, 0);
    hide Sum;
  }

  lemma ReplayUnassigned(job: Job, log: seq<Record>)
    requires JobOk(job) && LogOk(job, log)
    ensures Unassigned(Replay(job, log).maps) && Unassigned(Replay(job, log).reduces)
  {
    MarkedHasForm(job, log);
    hide Logged, CountsOk, LogOk, Marked, FreshState;
  }

  /** A freshly replayed master has no assignment behind it. */
  lemma ReplayRunning(job: Job, log: seq<Record>)
    requires JobOk(job) && LogOk(job, log)
    ensures Inv(Replay(job, log)) && Agrees(job, Replay(job, log), log) && IssuedOk(Replay(job, log), [])
  {
    hide Agrees, Inv, IssuedOk, LogOk, Replay, Unassigned;
    ReplayInv(job, log);
    ReplayAgrees(job, log);
    ReplayUnassigned(job, log);
    UnassignedIssuedOk(Replay(job, log));
  }

  lemma StartPInv(job: Job)
    requires JobOk(job)
    ensures PInv(job, Start(job))
  {
    ReplayRunning(job, []);
  }

  // ----- every run -----

  /** A step keeps the invariant exactly when it is not a misfired report. */
  lemma StepKeepsPInv(job: Job, p: Proto, e: Event)
    requires JobOk(job) && PInv(job, p) && Enabled(p, e)
    ensures PInv(job, Apply(job, p, e)) <==> !Misfire(p, e)
  {
    hide HandleGet, HandleReport, Sweep, OnConnect, OnDisconnect, Replay, Ready, Inv, Agrees, IssuedOk, LogOk, TaskOk;
    match e {
      case Connect(fd, now) => ConnectKeepsPInv(job, p, fd, now);
      case Disconnect(fd) => DropKeepsPInv(job, p, fd);
      case Get(fd, now) => GetKeepsPInv(job, p, fd, now);
      case Report(fd, result, now) => ReportKeepsPInv(job, p, fd, result, now);
      case Timeouts(now) => SweepKeepsPInv(job, p, now);
      case Crash(torn) => CrashKeepsPInv(job, p, torn);
      case Restart => ReplayRunning(job, p.log);
    }
  }

  lemma CrashKeepsPInv(job: Job, p: Proto, torn: bool)
    requires PInv(job, p) && Enabled(p, Crash(torn))
    ensures PInv(job, Apply(job, p, Crash(torn)))
  {
    hide LogOk;
  }

  /** No report of the run misfires. */
  predicate Clean(job: Job, es: seq<Event>)
    requires Legal(job, es)
    decreases |es|
  {
    es != [] ==> Clean(job, es[..|es| - 1]) && !Misfire(After(job, es[..|es| - 1]), es[|es| - 1])
  }

  lemma {:induction false} RunKeepsPInv(job: Job, es: seq<Event>)
    requires JobOk(job) && Legal(job, es) && Clean(job, es)
    ensures PInv(job, After(job, es))
    decreases |es|
  {
    if es == [] {
      StartPInv(job);
    } else {
      RunKeepsPInv(job, es[..|es| - 1]);
      StepKeepsPInv(job, After(job, es[..|es| - 1]), es[|es| - 1]);
    }
  }
}
