/** What a finished job has in its output directory, over every run of the whole system. */
module EndToEnd {
  import opened Bytes
  import opened Text
  import opened MapWorker
  import opened GroupWalk
  import opened WordCount
  import opened Scheduler
  import opened Recovery
  import opened Protocol
  import opened SweepFree
  import opened Aof
  import opened Files
  import opened World

  /** No report of the run misfires. */
  ghost predicate WClean(s: Setup, mvs: seq<Move>)
    requires SetupOk(s) && WLegal(s, mvs)
    decreases |mvs|
  {
    mvs != [] ==>
      var init, mv := mvs[..|mvs| - 1], mvs[|mvs| - 1];
      var w := WAfter(s, init);
      WClean(s, init) && (Seen(w, mv).Some? ==> !Misfire(w.p, Seen(w, mv).value))
  }

  lemma BeginWInv(s: Setup)
    requires SetupOk(s)
    ensures WInv(s, Begin(s))
  {
    hide PInv, FileBytes, Replay, LinkOk, StageOk, Produced;
    StartPInv(s.job);
    assert FileBytes(s.job, s.created, []) + [] == FileBytes(s.job, s.created, []);
  }

  lemma {:induction false} RunKeepsWInv(s: Setup, mvs: seq<Move>)
    requires SetupOk(s) && WLegal(s, mvs) && WClean(s, mvs)
    ensures WInv(s, WAfter(s, mvs))
    decreases |mvs|
  {
    if mvs == [] {
      BeginWInv(s);
    } else {
      hide WInv, Do, Allowed, Misfire, Seen;
      var init := mvs[..|mvs| - 1];
      RunKeepsWInv(s, init);
      MoveKeepsWInv(s, WAfter(s, init), mvs[|mvs| - 1]);
    }
  }

  // ----- the finished job -----

  lemma LoggedProduced(s: Setup, files: Dir, log: seq<Record>, kind: Kind, id: nat)
    requires SetupOk(s) && LogProduced(s, files, log) && Logged(log, kind, id)
    ensures id < Size(s.job, kind) && Produced(s, files, kind, id)
  {
    hide Produced;
    var i :| 0 <= i < |log| && log[i].kind == kind && log[i].taskId == id;
  }

  lemma DoneOutputs(s: Setup, w: World)
    requires SetupOk(s) && WInv(s, w) && w.p.up && w.p.m.phase.JobDone?
    ensures forall y :: 0 <= y < s.job.R ==> OutOk(s, w.files, y)
  {
    DoneFull(w.p.m.reduces);
    hide TaskOk, Sum, Logged, DiskOk, LinksOk, ProcsOk, OutOk, LogProduced;
    forall y | 0 <= y < s.job.R ensures OutOk(s, w.files, y) {
      assert Logged(w.p.log, ReduceTask, y);
      LoggedProduced(s, w.files, w.p.log, ReduceTask, y);
    }
  }

  /** In every clean run, a worker that has a success to report has published all the right files of its
      task and has left none of its temporaries behind. */
  lemma SuccessIsTidy(s: Setup, mvs: seq<Move>, pid: nat, a: Assignment)
    requires SetupOk(s) && WLegal(s, mvs) && WClean(s, mvs)
    requires pid in WAfter(s, mvs).procs && WAfter(s, mvs).procs[pid].stage == Reporting(a, 0)
    ensures a.id < Size(s.job, a.kind) && Produced(s, WAfter(s, mvs).files, a.kind, a.id)
    ensures var files := WAfter(s, mvs).files;
            if a.kind.MapTask? then forall y :: 0 <= y < s.job.R ==> InterTmp(a.id, y, pid, a.attempt) !in files
            else OutTmp(a.id, pid, a.attempt) !in files
  {
    hide Produced, PInv, DiskOk, LinksOk, LogProduced, WLegal, WClean, WAfter;
    RunKeepsWInv(s, mvs);
    var w := WAfter(s, mvs);
    assert StageOk(s, w.files, w.p.log, pid, w.procs[pid].stage);
    if a.kind.MapTask? {
      forall y | 0 <= y < s.job.R ensures InterTmp(a.id, y, pid, a.attempt) !in w.files {
        assert Gone(w.files, InterTmp(a.id, y, pid, a.attempt));
      }
    }
  }

  /** The output files, read line by line, hold the word count of the bag, and nothing else. */
  ghost predicate FilesHold(s: Setup, files: Dir, outs: seq<seq<Entry>>, bag: multiset<Word>)
    requires SetupOk(s)
  {
    && |outs| == s.job.R
    && (forall y :: 0 <= y < s.job.R ==>
          Out(y) in files && files[Out(y)] == Render(outs[y]) && ReadOut(files[Out(y)]) == outs[y])
    && IsWordCount(outs, bag)
  }

  ghost predicate Counted(s: Setup, files: Dir, bag: multiset<Word>)
    requires SetupOk(s)
  {
    exists outs :: FilesHold(s, files, outs, bag)
  }

  /** What the map workers emit and the reducers read back, over all splits. */
  function TokenBag(s: Setup): multiset<Word>
    requires SetupOk(s)
  {
    multiset(JobTokens(Splits(s), |Splits(s)|))
  }

  /** The words of all splits, read sequentially. */
  function WordBag(s: Setup): multiset<Word>
    requires SetupOk(s)
  {
    multiset(JobWords(Splits(s), |Splits(s)|))
  }

  ghost function OutAt(s: Setup, files: Dir, y: nat): (out: seq<Entry>)
    requires SetupOk(s) && OutOk(s, files, y)
    ensures IsCount(out, PartitionBag(Splits(s), y, s.job.R)) && files[Out(y)] == Render(out)
  {
    var out :| IsCount(out, PartitionBag(Splits(s), y, s.job.R)) && files[Out(y)] == Render(out);
    out
  }

  lemma OutputsMakeWordCount(s: Setup, files: Dir)
    requires SetupOk(s) && forall y :: 0 <= y < s.job.R ==> OutOk(s, files, y)
    ensures Counted(s, files, TokenBag(s))
  {
    hide OutOk, IsCount, PartitionBag, Render, ReadOut;
    var outs := seq(s.job.R, y requires 0 <= y < s.job.R => OutAt(s, files, y));
    forall y | 0 <= y < s.job.R
      ensures Out(y) in files && files[Out(y)] == Render(outs[y]) && ReadOut(files[Out(y)]) == outs[y]
      ensures IsCount(outs[y], PartitionBag(Splits(s), y, s.job.R))
    {
      assert outs[y] == OutAt(s, files, y);
      OutThere(s, files, y);
      OutKeys(s, y, outs[y]);
      ReadRendered(outs[y]);
    }
    forall y | 0 <= y < |outs| ensures PartOk(outs[y], y, |outs|, multiset(JobTokens(Splits(s), |Splits(s)|))) {
      PartitionCount(Splits(s), y, s.job.R, outs[y]);
    }
    hide PartOk, JobTokens;
    assert FilesHold(s, files, outs, TokenBag(s));
  }

  lemma OutKeys(s: Setup, y: nat, out: seq<Entry>)
    requires SetupOk(s) && IsCount(out, PartitionBag(Splits(s), y, s.job.R))
    ensures forall e :: e in out ==> LineKey(e.key)
  {
    hide PartitionBag, Increasing, LineKey;
    forall e | e in out ensures LineKey(e.key) {
      var i :| 0 <= i < |out| && out[i] == e;
      assert e.key in PartitionBag(Splits(s), y, s.job.R);
      PartitionKeys(Splits(s), y, s.job.R, e.key);
    }
  }

  lemma PartitionKeys(splits: seq<seq<byte>>, y: nat, R: nat, w: Word)
    requires R > 0 && w in PartitionBag(splits, y, R)
    ensures LineKey(w)
  {
    hide PartitionBag, JobTokens;
    PartitionBagAt(splits, y, R, w);
    assert w in multiset(JobTokens(splits, |splits|));
    JobTokensAreTokens(splits, |splits|, w);
  }

  lemma OutThere(s: Setup, files: Dir, y: nat)
    requires SetupOk(s) && OutOk(s, files, y)
    ensures Out(y) in files
  {
  }

  /** In every run in which no report misfires, under any interleaving of workers, re-executions,
      lost connections, timeouts, kills and restarts, and whatever the directories held at the
      start: when the master says the job is done, the R output files hold exactly the word count
      of the tokens of all splits, each word in one file only; and that is the sequential word count
      of the splits exactly when every split is countable. */
  lemma DoneHoldsWordCount(s: Setup, mvs: seq<Move>)
    requires SetupOk(s) && WLegal(s, mvs) && WClean(s, mvs)
    requires WAfter(s, mvs).p.up && WAfter(s, mvs).p.m.phase.JobDone?
    ensures Counted(s, WAfter(s, mvs).files, TokenBag(s))
    ensures Counted(s, WAfter(s, mvs).files, WordBag(s)) <==> AllCountable(Splits(s), |Splits(s)|)
  {
    hide AllCountable, TokenBag, WordBag, Counted;
    RunKeepsWInv(s, mvs);
    DoneOutputs(s, WAfter(s, mvs));
    OutputsMakeWordCount(s, WAfter(s, mvs).files);
    RightIffCountable(s, WAfter(s, mvs).files);
  }

  // ----- the bytes decide -----

  /** The output files cannot hold the word counts of two different bags. */
  lemma HeldOnce(s: Setup, files: Dir, b: multiset<Word>, c: multiset<Word>)
    requires SetupOk(s) && Counted(s, files, b) && Counted(s, files, c)
    ensures b == c
  {
    hide IsWordCount, Render, ReadOut;
    var os :| FilesHold(s, files, os, b);
    var qs :| FilesHold(s, files, qs, c);
    forall y | 0 <= y < |os| ensures os[y] == qs[y] {
      assert os[y] == ReadOut(files[Out(y)]) == qs[y];
    }
    assert os == qs;
    BagDetermined(os, b, c);
  }

  /** Files that hold the count of the tokens hold the count of the words of the texts exactly when
      every text is countable. */
  lemma RightIffCountable(s: Setup, files: Dir)
    requires SetupOk(s) && Counted(s, files, TokenBag(s))
    ensures Counted(s, files, WordBag(s)) <==> AllCountable(Splits(s), |Splits(s)|)
  {
    CountsTheWordsIff(Splits(s));
    hide AllCountable, Counted, JobTokens, JobWords;
    if Counted(s, files, WordBag(s)) {
      HeldOnce(s, files, TokenBag(s), WordBag(s));
    }
  }

  // ----- intermediate files -----

  /** Whenever reduces run, and when the job is done, all M times R intermediate files are there and
      are the full partitions. */
  lemma IntermediatesComplete(s: Setup, mvs: seq<Move>, x: nat, y: nat)
    requires SetupOk(s) && WLegal(s, mvs) && WClean(s, mvs) && x < |s.job.paths| && y < s.job.R
    requires WAfter(s, mvs).p.up && (WAfter(s, mvs).p.m.phase.JobReduce? || WAfter(s, mvs).p.m.phase.JobDone?)
    ensures InterOk(s, WAfter(s, mvs).files, x, y)
  {
    hide WLegal, WClean, WAfter, TaskOk, Sum, Logged, DiskOk, LinksOk, ProcsOk, LogProduced, InterOk;
    RunKeepsWInv(s, mvs);
    var w := WAfter(s, mvs);
    DoneFull(w.p.m.maps);
    assert Logged(w.p.log, MapTask, x);
    LoggedProduced(s, w.files, w.p.log, MapTask, x);
  }

  /** Every intermediate file is a full partition, or still as it was at the start. */
  predicate WholeOrInitial(s: Setup, files: Dir)
    requires SetupOk(s)
  {
    forall x, y :: 0 <= x < |s.job.paths| && 0 <= y < s.job.R ==>
      InterOk(s, files, x, y) || SameAt(s.files0, files, Inter(x, y))
  }

  lemma GrowsWhole(s: Setup, files: Dir, files': Dir, pid: nat)
    requires SetupOk(s) && Grows(s, files, files', pid) && WholeOrInitial(s, files)
    ensures WholeOrInitial(s, files')
  {
    hide Part, OutOk;
    forall x, y | 0 <= x < |s.job.paths| && 0 <= y < s.job.R
      ensures InterOk(s, files', x, y) || SameAt(s.files0, files', Inter(x, y))
    {
      assert InterOk(s, files', x, y) || SameAt(files, files', Inter(x, y));
      assert InterOk(s, files, x, y) || SameAt(s.files0, files, Inter(x, y));
    }
  }

  /** At all times every `mr-x-y` is the full partition y of split x, however the renames of repeated
      attempts interleave, or it is the file or the gap that was there at the start. */
  lemma {:induction false} VisibleIsWhole(s: Setup, mvs: seq<Move>)
    requires SetupOk(s) && WLegal(s, mvs) && WClean(s, mvs)
    ensures WholeOrInitial(s, WAfter(s, mvs).files)
    decreases |mvs|
  {
    if mvs != [] {
      hide WInv, Allowed, Misfire, Seen, WholeOrInitial, Grows;
      var init, mv := mvs[..|mvs| - 1], mvs[|mvs| - 1];
      VisibleIsWhole(s, init);
      RunKeepsWInv(s, init);
      var w := WAfter(s, init);
      FilesMove(s, w, mv);
      if mv.Work? {
        WorkStage(s, w, mv.pid, mv.act);
        GrowsWhole(s, w.files, Do(s, w, mv).files, mv.pid);
      }
    }
  }

  lemma FilesMove(s: Setup, w: World, mv: Move)
    requires Allowed(s, w, mv)
    ensures !mv.Work? ==> Do(s, w, mv).files == w.files
    ensures mv.Work? ==> mv.pid in w.procs && CanAct(s, mv.pid, w.procs[mv.pid].stage, w.files, mv.act) &&
                         Do(s, w, mv).files == Act(s, mv.pid, w.procs[mv.pid].stage, w.files, mv.act).files
  {
    hide CanAct, Act, Load, Ready, ReportsFit, Apply;
  }

  // ----- without the sweep -----

  predicate WNoSweep(mvs: seq<Move>) {
    forall i :: 0 <= i < |mvs| ==> !mvs[i].SweepNow?
  }

  lemma SweepFreeMove(s: Setup, w: World, mv: Move)
    requires SetupOk(s) && WInv(s, w) && Allowed(s, w, mv) && !mv.SweepNow? && Tight(w.p.m, w.p.open)
    ensures Seen(w, mv).Some? ==> !Misfire(w.p, Seen(w, mv).value)
    ensures Tight(Do(s, w, mv).p.m, Do(s, w, mv).p.open)
  {
    hide Do, Allowed, Misfire, PInv, Tight, Apply, Enabled, DiskOk, LinksOk, LogProduced, ProcsOk;
    Projects(s, w, mv);
    if Seen(w, mv).Some? {
      TightNeverMisfires(s.job, w.p, Seen(w, mv).value);
      StepKeepsTight(s.job, w.p, Seen(w, mv).value);
    }
  }

  /** As long as the sweep does not fire, nothing needs to be assumed about reports. */
  lemma {:induction false} SweepFreeIsClean(s: Setup, mvs: seq<Move>)
    requires SetupOk(s) && WLegal(s, mvs) && WNoSweep(mvs)
    ensures WClean(s, mvs) && Tight(WAfter(s, mvs).p.m, WAfter(s, mvs).p.open)
    decreases |mvs|
  {
    if mvs != [] {
      hide Do, Allowed, Misfire, Seen, Tight, WInv;
      var init := mvs[..|mvs| - 1];
      SweepFreeIsClean(s, init);
      RunKeepsWInv(s, init);
      SweepFreeMove(s, WAfter(s, init), mvs[|mvs| - 1]);
    }
  }

  /** As shipped, with the sweep disabled: every run that finishes leaves the count of the tokens in
      its output files, and that is the sequential word count of all splits exactly when every split
      is countable. */
  lemma ShippedCountsWords(s: Setup, mvs: seq<Move>)
    requires SetupOk(s) && WLegal(s, mvs) && WNoSweep(mvs)
    requires WAfter(s, mvs).p.up && WAfter(s, mvs).p.m.phase.JobDone?
    ensures Counted(s, WAfter(s, mvs).files, TokenBag(s))
    ensures Counted(s, WAfter(s, mvs).files, WordBag(s)) <==> AllCountable(Splits(s), |Splits(s)|)
  {
    SweepFreeIsClean(s, mvs);
    DoneHoldsWordCount(s, mvs);
  }

  // ----- recovery from the file itself -----

  /** Killing the master at any point of any run and starting it from the bytes of its log file
      gives the same master with its unfinished work forgotten; a torn record keeps it down. */
  lemma BootFromDisk(s: Setup, mvs: seq<Move>, tail: seq<byte>)
    requires SetupOk(s) && WLegal(s, mvs) && WClean(s, mvs) && WAfter(s, mvs).p.up && |tail| < RECORD_SIZE
    ensures var w := WAfter(s, mvs);
            && Allowed(s, w, Kill(tail))
            && var down := Do(s, w, Kill(tail));
            && (tail != [] ==> Load(down.disk).None?)
            && (tail == [] ==> Allowed(s, down, Boot) && Do(s, down, Boot).p.m == Forgotten(w.p.m))
  {
    RunKeepsWInv(s, mvs);
    var w := WAfter(s, mvs);
    WInvReady(s, w);
    KillAndBoot(s, w, tail);
  }

  lemma OpenFits(job: Job, p: Proto, fd: nat)
    requires JobOk(job) && PInv(job, p) && p.up && fd in p.open
    ensures p.open[fd].id < MAX_MAP_TASKS && p.open[fd].attempt <= MAX_ATTEMPTS
  {
    var a := p.open[fd];
    assert Held(p.m, fd, a) && TaskOk(Tasks(p.m, a.kind)[a.id]);
  }

  lemma DownHasNone(job: Job, p: Proto)
    requires PInv(job, p)
    ensures !p.up ==> p.open == map[]
  {
  }

  lemma WInvReady(s: Setup, w: World)
    requires SetupOk(s) && WInv(s, w)
    ensures Ready(w.p) && ReportsFit(w.p)
  {
    hide PInv, FileBytes, LogFits, LinksOk, LogProduced, ProcsOk, Ready;
    PInvReady(s.job, w.p);
    DownHasNone(s.job, w.p);
    if w.p.up {
      forall fd | fd in w.p.open ensures w.p.open[fd].id < 0x1_0000_0000 && w.p.open[fd].attempt < 0x1_0000_0000 {
        OpenFits(s.job, w.p, fd);
      }
    }
  }

  lemma KillAndBoot(s: Setup, w: World, tail: seq<byte>)
    requires SetupOk(s) && WInv(s, w) && w.p.up && |tail| < RECORD_SIZE && Ready(w.p) && ReportsFit(w.p)
    ensures Allowed(s, w, Kill(tail))
    ensures var down := Do(s, w, Kill(tail));
            && (tail != [] ==> Load(down.disk).None?)
            && (tail == [] ==> Allowed(s, down, Boot) && Do(s, down, Boot).p.m == Forgotten(w.p.m))
  {
    hide Load, FileBytes, Replay, Forgotten, LinksOk, LogProduced, ProcsOk, LogFits, InRange, Inv, Agrees, OpenOk,
      IssuedOk, LogOk, Ready;
    LogInRange(s.job, w.p.log);
    FileReadBack(s.job, s.created, w.p.log, tail);
    ReplayIsForgotten(s.job, w.p.m, w.p.log);
    var file := FileBytes(s.job, s.created, w.p.log);
    assert file + [] + tail == file + tail;
    DownReady(w.p, tail != []);
  }

  lemma DownReady(p: Proto, torn: bool)
    requires Ready(p) && ReportsFit(p)
    ensures var p' := p.(up := false, torn := torn, conns := {}, open := map[], issued := []);
            Ready(p') && ReportsFit(p')
  {
  }
}
