/** Worker processes over the shared directories: temporary files, renames, reads. */
module Files {
  import opened Bytes
  import opened Text
  import opened MapWorker
  import opened ReduceWorker
  import opened GroupWalk
  import opened WordCount
  import opened Scheduler
  import opened Recovery
  import opened Protocol

  /** `mr-x-y`, `mr-x-y.tmp.pid.attempt`, `mr-out-y` and `mr-out-y.tmp.pid.attempt`. */
  datatype FileName =
    | Inter(x: nat, y: nat)
    | InterTmp(x: nat, y: nat, pid: nat, attempt: nat)
    | Out(y: nat)
    | OutTmp(y: nat, pid: nat, attempt: nat)

  type Dir = map<FileName, seq<byte>>

  /** The fixed surroundings of a run: the job, the texts its paths name, the time stamp of the
      log file, and whatever the directories held at the start. */
  datatype Setup = Setup(job: Job, texts: map<Path, seq<byte>>, created: seq<byte>, files0: Dir)

  predicate SetupOk(s: Setup) {
    && JobOk(s.job) && |s.created| == 8
    && forall x :: 0 <= x < |s.job.paths| ==> s.job.paths[x] in s.texts
  }

  function SplitText(s: Setup, x: nat): seq<byte>
    requires SetupOk(s) && x < |s.job.paths|
  {
    s.texts[s.job.paths[x]]
  }

  function Splits(s: Setup): (r: seq<seq<byte>>)
    requires SetupOk(s)
    ensures |r| == |s.job.paths|
    ensures forall x :: 0 <= x < |r| ==> r[x] == SplitText(s, x)
  {
    seq(|s.job.paths|, x requires 0 <= x < |s.job.paths| => SplitText(s, x))
  }

  /** The full partition y of split x. */
  function Part(s: Setup, x: nat, y: nat): seq<byte>
    requires SetupOk(s) && x < |s.job.paths|
  {
    PartBytes(MapTokens(SplitText(s, x)), y, s.job.R)
  }

  /** The bytes are the word count of partition y, and no word of it has too many occurrences. */
  ghost predicate OutputOk(s: Setup, y: nat, bytes: seq<byte>)
    requires SetupOk(s)
  {
    var bag := PartitionBag(Splits(s), y, s.job.R);
    WithinLimit(bag) && exists out :: IsCount(out, bag) && bytes == Render(out)
  }

  // ----- processes -----

  /** Where a worker process is in its loop. */
  datatype Stage =
    | Idle
    | Opening(x: nat, attempt: nat, path: Path, R: nat, y: nat)
    | Emitting(x: nat, attempt: nat, path: Path, R: nat, k: nat)
    | Renaming(x: nat, attempt: nat, R: nat, y: nat, ok: bool)
    | Reading(y: nat, attempt: nat, nMap: nat, x: nat, keys: seq<Word>)
    | Publishing(y: nat, attempt: nat)
    | Reporting(a: Assignment, result: nat)
    | Exited

  /** The assignment a busy process is working on. */
  function TaskOf(st: Stage): Assignment
    requires Busy(st)
  {
    match st
    case Opening(x, attempt, _, _, _) => Assignment(MapTask, x, attempt)
    case Emitting(x, attempt, _, _, _) => Assignment(MapTask, x, attempt)
    case Renaming(x, attempt, _, _, _) => Assignment(MapTask, x, attempt)
    case Reading(y, attempt, _, _, _) => Assignment(ReduceTask, y, attempt)
    case Publishing(y, attempt) => Assignment(ReduceTask, y, attempt)
    case Reporting(a, _) => a
  }

  predicate Busy(st: Stage) {
    !st.Idle? && !st.Exited?
  }

  /** One step of a process on its own. */
  datatype Action =
    | OpenTmp
    | EmitNext
    | CloseAll
    | RenameNext(ok: bool)
    | ReadNext
    | WriteOut(out: seq<Entry>)
    | RenameOut(ok: bool)
    | GiveUp

  datatype Local = Local(stage: Stage, files: Dir)

  ghost predicate CanAct(s: Setup, pid: nat, st: Stage, files: Dir, act: Action) {
    match act
    case OpenTmp => st.Opening? && st.y < st.R
    case EmitNext => st.Emitting? && st.path in s.texts && st.R > 0 && st.k < |MapTokens(s.texts[st.path])| &&
                     forall y :: 0 <= y < st.R ==> InterTmp(st.x, y, pid, st.attempt) in files
    case CloseAll =>
      || (st.Opening? && st.y == st.R)
      || (st.Emitting? && st.path in s.texts && st.k == |MapTokens(s.texts[st.path])|)
    case RenameNext(ok) => st.Renaming? && (st.y < st.R ==> InterTmp(st.x, st.y, pid, st.attempt) in files)
    case ReadNext => st.Reading? && st.x < st.nMap && Inter(st.x, st.y) in files
    case WriteOut(out) =>
      st.Reading? && st.x == st.nMap && WithinLimit(multiset(st.keys)) && IsCount(out, multiset(st.keys))
    case RenameOut(ok) => st.Publishing? && OutTmp(st.y, pid, st.attempt) in files
    case GiveUp => Busy(st) && !st.Reporting? && !st.Renaming?
  }

  /** A failed rename leaves both files as they were; the map worker goes on to the next one and
      reports failure at the end. */
  ghost function Act(s: Setup, pid: nat, st: Stage, files: Dir, act: Action): Local
    requires CanAct(s, pid, st, files, act)
  {
    match act
    case OpenTmp =>
      Local(Opening(st.x, st.attempt, st.path, st.R, st.y + 1), files[InterTmp(st.x, st.y, pid, st.attempt) := []])
    case EmitNext =>
      var w := MapTokens(s.texts[st.path])[st.k];
      var tmp := InterTmp(st.x, Partition(w, st.R), pid, st.attempt);
      Local(Emitting(st.x, st.attempt, st.path, st.R, st.k + 1), files[tmp := files[tmp] + RecordLine(w)])
    case CloseAll =>
      if st.Opening? then Local(Emitting(st.x, st.attempt, st.path, st.R, 0), files)
      else Local(Renaming(st.x, st.attempt, st.R, 0, true), files)
    case RenameNext(ok) =>
      if st.y >= st.R then Local(Reporting(TaskOf(st), if st.ok then 0 else 1), files)
      else
        var tmp := InterTmp(st.x, st.y, pid, st.attempt);
        if ok then
          Local(Renaming(st.x, st.attempt, st.R, st.y + 1, st.ok), (files - {tmp})[Inter(st.x, st.y) := files[tmp]])
        else Local(Renaming(st.x, st.attempt, st.R, st.y + 1, false), files)
    case ReadNext =>
      var more := Keys(ReadRecords(files[Inter(st.x, st.y)]));
      Local(Reading(st.y, st.attempt, st.nMap, st.x + 1, st.keys + more), files)
    case WriteOut(out) =>
      Local(Publishing(st.y, st.attempt), files[OutTmp(st.y, pid, st.attempt) := Render(out)])
    case RenameOut(ok) =>
      var tmp := OutTmp(st.y, pid, st.attempt);
      if ok then Local(Reporting(TaskOf(st), 0), (files - {tmp})[Out(st.y) := files[tmp]])
      else Local(Reporting(TaskOf(st), 1), files)
    case GiveUp => Local(Reporting(TaskOf(st), 1), files)
  }

  // ----- what is always true of the files -----

  predicate InterOk(s: Setup, files: Dir, x: nat, y: nat)
    requires SetupOk(s) && x < |s.job.paths|
  {
    Inter(x, y) in files && files[Inter(x, y)] == Part(s, x, y)
  }

  ghost predicate OutOk(s: Setup, files: Dir, y: nat)
    requires SetupOk(s)
  {
    Out(y) in files && OutputOk(s, y, files[Out(y)])
  }

  /** The files a task is to produce are there and right. */
  ghost predicate Produced(s: Setup, files: Dir, kind: Kind, id: nat)
    requires SetupOk(s) && id < Size(s.job, kind)
  {
    if kind.MapTask? then forall y :: 0 <= y < s.job.R ==> InterOk(s, files, id, y) else OutOk(s, files, id)
  }

  /** Every completion in the log has its files. */
  ghost predicate LogProduced(s: Setup, files: Dir, log: seq<Record>)
    requires SetupOk(s)
  {
    forall i :: 0 <= i < |log| ==>
      log[i].taskId < Size(s.job, log[i].kind) && Produced(s, files, log[i].kind, log[i].taskId)
  }

  /** Temporary y of the attempt holds the given bytes. */
  predicate Tmp(files: Dir, x: nat, y: nat, pid: nat, attempt: nat, bytes: seq<byte>) {
    InterTmp(x, y, pid, attempt) in files && files[InterTmp(x, y, pid, attempt)] == bytes
  }

  predicate Gone(files: Dir, f: FileName) {
    f !in files
  }

  /** The attempt of the process has left none of its temporaries behind. */
  predicate TidiedUp(s: Setup, files: Dir, pid: nat, a: Assignment) {
    if a.kind.MapTask? then forall y :: 0 <= y < s.job.R ==> Gone(files, InterTmp(a.id, y, pid, a.attempt))
    else Gone(files, OutTmp(a.id, pid, a.attempt))
  }

  ghost predicate Finished(s: Setup, files: Dir, pid: nat, a: Assignment)
    requires SetupOk(s) && a.id < Size(s.job, a.kind)
  {
    Produced(s, files, a.kind, a.id) && TidiedUp(s, files, pid, a)
  }

  /** What a process at a stage may rely on. */
  ghost predicate StageOk(s: Setup, files: Dir, log: seq<Record>, pid: nat, st: Stage)
    requires SetupOk(s)
  {
    && (Busy(st) ==> TaskOf(st).id < Size(s.job, TaskOf(st).kind) && 1 <= TaskOf(st).attempt <= MAX_ATTEMPTS)
    && match st
       case Opening(x, attempt, path, R, y) =>
         && R == s.job.R && path == s.job.paths[x] && y <= R
         && forall j :: 0 <= j < y ==> Tmp(files, x, j, pid, attempt, [])
       case Emitting(x, attempt, path, R, k) =>
         && R == s.job.R && path == s.job.paths[x] && k <= |MapTokens(SplitText(s, x))|
         && forall j :: 0 <= j < R ==> Tmp(files, x, j, pid, attempt, PartBytes(MapTokens(SplitText(s, x))[..k], j, R))
       case Renaming(x, attempt, R, y, ok) =>
         && R == s.job.R && y <= R
         && (forall j :: y <= j < R ==> Tmp(files, x, j, pid, attempt, Part(s, x, j)))
         && (ok ==> forall j :: 0 <= j < y ==> InterOk(s, files, x, j) && Gone(files, InterTmp(x, j, pid, attempt)))
       case Reading(y, attempt, nMap, x, keys) =>
         && AllMapsLogged(s.job, log) && nMap == |s.job.paths| && x <= nMap
         && keys == ReduceKeys(Splits(s), x, y, s.job.R)
       case Publishing(y, attempt) =>
         OutTmp(y, pid, attempt) in files && OutputOk(s, y, files[OutTmp(y, pid, attempt)])
       case Reporting(a, result) => result <= 1 && (result == 0 ==> Finished(s, files, pid, a))
       case Idle => true
       case Exited => true
  }

  /** What one process may do to the directories: its own temporaries are its business; a published
      file is left alone or becomes right. */
  ghost predicate Grows(s: Setup, files: Dir, files': Dir, pid: nat)
    requires SetupOk(s)
  {
    && (forall x, y :: 0 <= x < |s.job.paths| && 0 <= y < s.job.R ==>
          InterOk(s, files', x, y) || SameAt(files, files', Inter(x, y)))
    && (forall y :: 0 <= y < s.job.R ==> OutOk(s, files', y) || SameAt(files, files', Out(y)))
    && (forall x, y, p, a :: p != pid ==> SameAt(files, files', InterTmp(x, y, p, a)))
    && (forall y, p, a :: p != pid ==> SameAt(files, files', OutTmp(y, p, a)))
  }

  predicate SameAt(files: Dir, files': Dir, f: FileName) {
    (f in files <==> f in files') && (f in files ==> files'[f] == files[f])
  }

  // ----- one process does not disturb another -----

  lemma GrowsProduced(s: Setup, files: Dir, files': Dir, pid: nat, kind: Kind, id: nat)
    requires SetupOk(s) && Grows(s, files, files', pid) && id < Size(s.job, kind) && Produced(s, files, kind, id)
    ensures Produced(s, files', kind, id)
  {
    hide OutputOk, Part;
    if kind.MapTask? {
      forall y | 0 <= y < s.job.R ensures InterOk(s, files', id, y) {
        assert InterOk(s, files, id, y);
        assert InterOk(s, files', id, y) || SameAt(files, files', Inter(id, y));
      }
    } else {
      assert OutOk(s, files', id) || SameAt(files, files', Out(id));
    }
  }

  lemma GrowsLogProduced(s: Setup, files: Dir, files': Dir, pid: nat, log: seq<Record>)
    requires SetupOk(s) && Grows(s, files, files', pid) && LogProduced(s, files, log)
    ensures LogProduced(s, files', log)
  {
    forall i | 0 <= i < |log| ensures Produced(s, files', log[i].kind, log[i].taskId) {
      GrowsProduced(s, files, files', pid, log[i].kind, log[i].taskId);
    }
  }

  lemma GrowsTidy(s: Setup, files: Dir, files': Dir, pid: nat, other: nat, a: Assignment)
    requires SetupOk(s) && Grows(s, files, files', pid) && other != pid && TidiedUp(s, files, other, a)
    ensures TidiedUp(s, files', other, a)
  {
    hide InterOk, OutOk;
    if a.kind.MapTask? {
      forall y | 0 <= y < s.job.R ensures Gone(files', InterTmp(a.id, y, other, a.attempt)) {
        assert Gone(files, InterTmp(a.id, y, other, a.attempt));
        assert SameAt(files, files', InterTmp(a.id, y, other, a.attempt));
      }
    } else {
      assert SameAt(files, files', OutTmp(a.id, other, a.attempt));
    }
  }

  /** The stages of other processes survive any step and any growth of the log. */
  lemma GrowsStageOk(s: Setup, files: Dir, files': Dir, pid: nat, log: seq<Record>, other: nat, st: Stage)
    requires SetupOk(s) && Grows(s, files, files', pid) && other != pid && StageOk(s, files, log, other, st)
    ensures StageOk(s, files', log, other, st)
  {
    hide OutputOk, Part, PartBytes, MapTokens, ReduceKeys, AllMapsLogged;
    match st {
      case Opening(x, attempt, path, R, y) =>
        forall j | 0 <= j < y ensures Tmp(files', x, j, other, attempt, []) {
          assert SameAt(files, files', InterTmp(x, j, other, attempt)) && Tmp(files, x, j, other, attempt, []);
        }
      case Emitting(x, attempt, path, R, k) =>
        forall j | 0 <= j < R ensures Tmp(files', x, j, other, attempt,
          PartBytes(MapTokens(SplitText(s, x))[..k], j, R)) {
          assert SameAt(files, files', InterTmp(x, j, other, attempt));
          assert Tmp(files, x, j, other, attempt, PartBytes(MapTokens(SplitText(s, x))[..k], j, R));
        }
      case Renaming(x, attempt, R, y, ok) =>
        forall j | y <= j < R ensures Tmp(files', x, j, other, attempt, Part(s, x, j)) {
          assert SameAt(files, files', InterTmp(x, j, other, attempt)) &&
            Tmp(files, x, j, other, attempt, Part(s, x, j));
        }
        if ok {
          forall j | 0 <= j < y ensures InterOk(s, files', x, j) && Gone(files', InterTmp(x, j, other, attempt)) {
            assert InterOk(s, files, x, j) && Gone(files, InterTmp(x, j, other, attempt));
            assert SameAt(files, files', InterTmp(x, j, other, attempt));
          }
        }
      case Publishing(y, attempt) =>
        assert SameAt(files, files', OutTmp(y, other, attempt));
      case Reporting(a, result) =>
        if result == 0 {
          GrowsProduced(s, files, files', pid, a.kind, a.id);
          GrowsTidy(s, files, files', pid, other, a);
        }
      case Reading(_, _, _, _, _) =>
      case Idle =>
      case Exited =>
    }
  }

  // ----- every action keeps the files right -----

  lemma OpenTmpOk(s: Setup, pid: nat, st: Stage, files: Dir, log: seq<Record>)
    requires SetupOk(s) && StageOk(s, files, log, pid, st) && CanAct(s, pid, st, files, OpenTmp)
    ensures var l := Act(s, pid, st, files, OpenTmp);
            Grows(s, files, l.files, pid) && StageOk(s, l.files, log, pid, l.stage)
  {
    hide Part, OutputOk;
    var files' := Act(s, pid, st, files, OpenTmp).files;
    forall j | 0 <= j < st.y + 1 ensures Tmp(files', st.x, j, pid, st.attempt, []) {
      if j < st.y {
        assert Tmp(files, st.x, j, pid, st.attempt, []);
      }
    }
  }

  lemma EmitNextOk(s: Setup, pid: nat, st: Stage, files: Dir, log: seq<Record>)
    requires SetupOk(s) && StageOk(s, files, log, pid, st) && CanAct(s, pid, st, files, EmitNext)
    ensures var l := Act(s, pid, st, files, EmitNext);
            Grows(s, files, l.files, pid) && StageOk(s, l.files, log, pid, l.stage)
  {
    hide Part, OutputOk, PartBytes, MapTokens, Partition, RecordLine;
    var files' := Act(s, pid, st, files, EmitNext).files;
    var tokens, R := MapTokens(SplitText(s, st.x)), st.R;
    var before, w := tokens[..st.k], tokens[st.k];
    assert tokens[..st.k + 1] == before + [w];
    forall j | 0 <= j < R ensures Tmp(files', st.x, j, pid, st.attempt, PartBytes(before + [w], j, R)) {
      assert Tmp(files, st.x, j, pid, st.attempt, PartBytes(before, j, R));
      PartBytesSnoc(before, w, j, R);
      assert PartBytes(before, j, R) + [] == PartBytes(before, j, R);
    }
  }

  lemma CloseAllOk(s: Setup, pid: nat, st: Stage, files: Dir, log: seq<Record>)
    requires SetupOk(s) && StageOk(s, files, log, pid, st) && CanAct(s, pid, st, files, CloseAll)
    ensures var l := Act(s, pid, st, files, CloseAll);
            Grows(s, files, l.files, pid) && StageOk(s, l.files, log, pid, l.stage)
  {
    hide OutputOk, MapTokens;
    var tokens := MapTokens(SplitText(s, st.x));
    if st.Opening? {
      forall j | 0 <= j < st.R ensures Tmp(files, st.x, j, pid, st.attempt, PartBytes(tokens[..0], j, st.R)) {
        assert Tmp(files, st.x, j, pid, st.attempt, []);
      }
    } else {
      hide PartBytes;
      assert tokens[..st.k] == tokens;
      forall j | 0 <= j < st.R ensures Tmp(files, st.x, j, pid, st.attempt, Part(s, st.x, j)) {
        assert Tmp(files, st.x, j, pid, st.attempt, PartBytes(tokens[..st.k], j, st.R));
      }
    }
  }

  lemma RenameNextOk(s: Setup, pid: nat, st: Stage, files: Dir, log: seq<Record>, ok: bool)
    requires SetupOk(s) && StageOk(s, files, log, pid, st) && CanAct(s, pid, st, files, RenameNext(ok))
    ensures var l := Act(s, pid, st, files, RenameNext(ok));
            Grows(s, files, l.files, pid) && StageOk(s, l.files, log, pid, l.stage)
  {
    hide Part, OutputOk;
    var files' := Act(s, pid, st, files, RenameNext(ok)).files;
    if st.y < st.R && ok {
      assert Tmp(files, st.x, st.y, pid, st.attempt, Part(s, st.x, st.y));
      assert InterOk(s, files', st.x, st.y);
      forall j | st.y + 1 <= j < st.R ensures Tmp(files', st.x, j, pid, st.attempt, Part(s, st.x, j)) {
        assert Tmp(files, st.x, j, pid, st.attempt, Part(s, st.x, j));
      }
      if st.ok {
        forall j | 0 <= j < st.y
          ensures InterOk(s, files', st.x, j) && Gone(files', InterTmp(st.x, j, pid, st.attempt)) {
          assert InterOk(s, files, st.x, j) && Gone(files, InterTmp(st.x, j, pid, st.attempt));
        }
      }
    }
  }

  lemma ReadsKept(s: Setup, files: Dir, log: seq<Record>, x: nat, y: nat)
    requires SetupOk(s) && x < |s.job.paths| && y < s.job.R && AllMapsLogged(s.job, log) && LogProduced(s, files, log)
    ensures Inter(x, y) in files
    ensures Keys(ReadRecords(files[Inter(x, y)])) == KeptTokens(MapTokens(Splits(s)[x]), y, s.job.R)
  {
    hide OutputOk, Keys, ReadRecords, MapTokens, PartBytes, KeptTokens;
    assert Logged(log, MapTask, x);
    var i :| 0 <= i < |log| && log[i].kind == MapTask && log[i].taskId == x;
    assert Produced(s, files, MapTask, x);
    assert InterOk(s, files, x, y);
    TokensAreTokens(SplitText(s, x));
    PartitionReadBack(MapTokens(SplitText(s, x)), y, s.job.R);
  }

  lemma ReadNextOk(s: Setup, pid: nat, st: Stage, files: Dir, log: seq<Record>)
    requires SetupOk(s) && StageOk(s, files, log, pid, st) && CanAct(s, pid, st, files, ReadNext) &&
      LogProduced(s, files, log)
    ensures var l := Act(s, pid, st, files, ReadNext);
            Grows(s, files, l.files, pid) && StageOk(s, l.files, log, pid, l.stage)
  {
    hide Keys, ReadRecords, MapTokens, KeptTokens, LogProduced, AllMapsLogged, InterOk, OutOk;
    ReadsKept(s, files, log, st.x, st.y);
  }

  lemma WriteOutOk(s: Setup, pid: nat, st: Stage, files: Dir, log: seq<Record>, out: seq<Entry>)
    requires SetupOk(s) && StageOk(s, files, log, pid, st) && CanAct(s, pid, st, files, WriteOut(out))
    ensures var l := Act(s, pid, st, files, WriteOut(out));
            Grows(s, files, l.files, pid) && StageOk(s, l.files, log, pid, l.stage)
  {
    hide Part, ReduceKeys, IsCount, WithinLimit;
    assert multiset(st.keys) == PartitionBag(Splits(s), st.y, s.job.R);
    assert OutputOk(s, st.y, Render(out));
    hide OutputOk;
  }

  lemma RenameOutOk(s: Setup, pid: nat, st: Stage, files: Dir, log: seq<Record>, ok: bool)
    requires SetupOk(s) && StageOk(s, files, log, pid, st) && CanAct(s, pid, st, files, RenameOut(ok))
    ensures var l := Act(s, pid, st, files, RenameOut(ok));
            Grows(s, files, l.files, pid) && StageOk(s, l.files, log, pid, l.stage)
  {
    hide Part, OutputOk;
    var l := Act(s, pid, st, files, RenameOut(ok));
    if ok {
      assert OutOk(s, l.files, st.y);
    }
  }

  lemma ActGoesOn(s: Setup, pid: nat, st: Stage, files: Dir, act: Action)
    requires CanAct(s, pid, st, files, act)
    ensures Busy(Act(s, pid, st, files, act).stage) && Busy(st)
    ensures TaskOf(Act(s, pid, st, files, act).stage) == TaskOf(st)
  {
    hide MapTokens, Render, Keys, ReadRecords, IsCount, WithinLimit, Partition, RecordLine;
  }

  lemma GiveUpOk(s: Setup, pid: nat, st: Stage, files: Dir, log: seq<Record>)
    requires SetupOk(s) && StageOk(s, files, log, pid, st) && CanAct(s, pid, st, files, GiveUp)
    ensures var l := Act(s, pid, st, files, GiveUp);
            Grows(s, files, l.files, pid) && StageOk(s, l.files, log, pid, l.stage)
  {
    hide Part, OutputOk, AllMapsLogged, ReduceKeys, InterOk, OutOk;
  }

  /** However processes interleave, an action of one keeps its own stage right, publishes only right
      files, and touches no temporary of another. */
  lemma ActOk(s: Setup, pid: nat, st: Stage, files: Dir, log: seq<Record>, act: Action)
    requires SetupOk(s) && StageOk(s, files, log, pid, st) && LogProduced(s, files, log)
    requires CanAct(s, pid, st, files, act)
    ensures var l := Act(s, pid, st, files, act);
            && Grows(s, files, l.files, pid) && StageOk(s, l.files, log, pid, l.stage)
            && Busy(l.stage) && Busy(st) && TaskOf(l.stage) == TaskOf(st)
  {
    hide StageOk, Grows, LogProduced, CanAct, Act, Busy, TaskOf;
    ActGoesOn(s, pid, st, files, act);
    match act {
      case OpenTmp => OpenTmpOk(s, pid, st, files, log);
      case EmitNext => EmitNextOk(s, pid, st, files, log);
      case CloseAll => CloseAllOk(s, pid, st, files, log);
      case RenameNext(ok) => RenameNextOk(s, pid, st, files, log, ok);
      case ReadNext => ReadNextOk(s, pid, st, files, log);
      case WriteOut(out) => WriteOutOk(s, pid, st, files, log, out);
      case RenameOut(ok) => RenameOutOk(s, pid, st, files, log, ok);
      case GiveUp => GiveUpOk(s, pid, st, files, log);
    }
  }
}
