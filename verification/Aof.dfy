/** The bytes of the append-only file: headers, records, and the loader. */
module Aof {
  import opened Bytes
  import opened Crc64
  import opened Scheduler
  import opened Recovery

  const MAGIC: seq<byte> := [77, 65, 80, 82, 69, 68, 85, 67]
  const VERSION: u32 := 1
  const FILE_HEADER_SIZE: nat := 32
  const RECORD_SIZE: nat := 17

  function Crc(s: seq<byte>): bv64 {
    BitSerial(0, s)
  }

  /** A section followed by its checksum. */
  function Sealed(body: seq<byte>): seq<byte> {
    body + PutU64(Crc(body))
  }

  /** A sealed section is intact when the stored checksum is the computed one. */
  predicate Intact(s: seq<byte>)
    requires |s| >= 8
  {
    GetU64(s[|s| - 8..]) == Crc(s[..|s| - 8])
  }

  lemma SealedIntact(body: seq<byte>)
    ensures Intact(Sealed(body)) && Sealed(body)[..|body|] == body
  {
    GetPutU64(Crc(body));
    assert Sealed(body)[|body|..] == PutU64(Crc(body));
  }

  // ----- writers -----

  function HeaderBody(created: seq<byte>): seq<byte> {
    MAGIC + PutU32(VERSION) + PutU32(0) + created
  }

  function HeaderBytes(created: seq<byte>): seq<byte> {
    Sealed(HeaderBody(created))
  }

  function PathsBytes(paths: seq<Path>): seq<byte>
    requires forall i :: 0 <= i < |paths| ==> |paths[i]| < PATH_MAX
  {
    if paths == [] then [] else PutU16(|paths[0]|) + paths[0] + PathsBytes(paths[1..])
  }

  function JobBody(job: Job): seq<byte>
    requires JobOk(job)
  {
    PutU32(|job.paths|) + PutU32(job.R) + PathsBytes(job.paths)
  }

  function JobBytes(job: Job): seq<byte>
    requires JobOk(job)
  {
    Sealed(JobBody(job))
  }

  function KindByte(kind: Kind): byte {
    if kind.MapTask? then 1 else 2
  }

  /** The record's numbers fit their 32-bit fields. */
  predicate RecordFits(r: Record) {
    r.taskId < 0x1_0000_0000 && r.attemptId < 0x1_0000_0000
  }

  function RecordBody(r: Record): seq<byte>
    requires RecordFits(r)
  {
    [KindByte(r.kind)] + PutU32(r.taskId) + PutU32(r.attemptId)
  }

  function RecordBytes(r: Record): (s: seq<byte>)
    requires RecordFits(r)
    ensures |s| == RECORD_SIZE
  {
    Sealed(RecordBody(r))
  }

  predicate LogFits(log: seq<Record>) {
    forall i :: 0 <= i < |log| ==> RecordFits(log[i])
  }

  function LogBytes(log: seq<Record>): (s: seq<byte>)
    requires LogFits(log)
    ensures |s| == 17 * |log|
  {
    if log == [] then [] else RecordBytes(log[0]) + LogBytes(log[1..])
  }

  /** The file of a job after the given completions. `created` is the creation time stamp. */
  function FileBytes(job: Job, created: seq<byte>, log: seq<Record>): seq<byte>
    requires JobOk(job) && LogFits(log)
  {
    HeaderBytes(created) + JobBytes(job) + LogBytes(log)
  }

  // ----- readers -----

  /** The file header: magic, version and checksum; flags and time are not looked at. */
  predicate HeaderOk(file: seq<byte>) {
    && |file| >= FILE_HEADER_SIZE
    && file[..8] == MAGIC
    && GetU32(file[8..12]) == VERSION
    && Intact(file[..FILE_HEADER_SIZE])
  }

  datatype Paths = Paths(paths: seq<Path>, end: nat)

  function PrependPath(p: Path, rest: Option<Paths>): Option<Paths> {
    if rest.None? then None else Some(Paths([p] + rest.value.paths, rest.value.end))
  }

  /** n length-prefixed paths starting at off. */
  function ReadPaths(file: seq<byte>, off: nat, n: nat): (r: Option<Paths>)
    ensures r.Some? ==> off <= r.value.end <= |file| && |r.value.paths| == n
    decreases n
  {
    if n == 0 then (if off <= |file| then Some(Paths([], off)) else None)
    else if off + 2 > |file| then None
    else
      var start := off + 2;
      var end := start + GetU16(file[off..start]);
      if end > |file| then None else PrependPath(file[start..end], ReadPaths(file, end, n - 1))
  }

  datatype JobHeader = JobHeader(paths: seq<Path>, R: nat, end: nat)

  /** The job header: counts, paths and checksum, then the size limits. */
  function ReadJob(file: seq<byte>, off: nat): (r: Option<JobHeader>)
    ensures r.Some? ==> off <= r.value.end <= |file|
  {
    if off + 8 > |file| then None
    else
      var m, r := GetU32(file[off..off + 4]), GetU32(file[off + 4..off + 8]);
      var ps := ReadPaths(file, off + 8, m);
      if ps.None? || ps.value.end + 8 > |file| || !Intact(file[off..ps.value.end + 8]) then None
      else if m > MAX_MAP_TASKS || r > MAX_REDUCE_TASKS then None
      else if exists i :: 0 <= i < |ps.value.paths| && |ps.value.paths[i]| >= PATH_MAX then None
      else Some(JobHeader(ps.value.paths, r, ps.value.end + 8))
  }

  datatype RecordRead = Rejected | Skipped | Read(r: Record)

  /** One record: rejected when corrupt or out of range, skipped when its kind is unknown. */
  function ReadRecord(rec: seq<byte>, M: nat, R: nat): RecordRead
    requires |rec| == RECORD_SIZE
  {
    var id, attempt := GetU32(rec[1..5]), GetU32(rec[5..9]);
    if !Intact(rec) then Rejected
    else if rec[0] == 1 then (if id >= M then Rejected else Read(Record(MapTask, id, attempt)))
    else if rec[0] == 2 then (if id >= R then Rejected else Read(Record(ReduceTask, id, attempt)))
    else Skipped
  }

  /** What a record adds in front of the records after it. */
  function Prepend(rec: RecordRead, rest: Option<seq<Record>>): Option<seq<Record>> {
    if rec.Rejected? || rest.None? then None
    else if rec.Skipped? then rest
    else Some([rec.r] + rest.value)
  }

  /** The records from off to the end of the file; a torn record rejects the file. */
  function ReadLog(file: seq<byte>, off: nat, M: nat, R: nat): Option<seq<Record>>
    requires off <= |file|
    decreases |file| - off
  {
    if off == |file| then Some([])
    else if off + RECORD_SIZE > |file| then None
    else Prepend(ReadRecord(file[off..off + RECORD_SIZE], M, R), ReadLog(file, off + RECORD_SIZE, M, R))
  }

  datatype Loaded = Loaded(paths: seq<Path>, R: nat, log: seq<Record>)

  function Load(file: seq<byte>): Option<Loaded> {
    if !HeaderOk(file) then None
    else
      var job := ReadJob(file, FILE_HEADER_SIZE);
      if job.None? then None
      else
        var log := ReadLog(file, job.value.end, |job.value.paths|, job.value.R);
        if log.None? then None
        else Some(Loaded(job.value.paths, job.value.R, log.value))
  }

  // ----- reading back what was written -----

  lemma PathsFirst(paths: seq<Path>)
    requires paths != [] && forall i :: 0 <= i < |paths| ==> |paths[i]| < PATH_MAX
    ensures PathsBytes(paths) == PutU16(|paths[0]|) + paths[0] + PathsBytes(paths[1..])
  {
  }

  lemma Slices(file: seq<byte>, off: nat, a: seq<byte>, b: seq<byte>, c: seq<byte>)
    requires off + |a| + |b| + |c| <= |file| && file[off..off + |a| + |b| + |c|] == a + b + c
    ensures file[off..off + |a|] == a && file[off + |a|..off + |a| + |b|] == b
    ensures file[off + |a| + |b|..off + |a| + |b| + |c|] == c
  {
    var s := file[off..off + |a| + |b| + |c|];
    Assoc(a, b, c);
    assert file[off..off + |a|] == s[..|a|];
    assert file[off + |a|..off + |a| + |b|] == s[|a|..][..|b|];
    assert s[|a|..] == b + c;
    assert file[off + |a| + |b|..off + |a| + |b| + |c|] == s[|a| + |b|..];
  }

  lemma {:induction false} PathsReadAt(file: seq<byte>, off: nat, paths: seq<Path>)
    requires forall i :: 0 <= i < |paths| ==> |paths[i]| < PATH_MAX
    requires var n := |PathsBytes(paths)|; off + n <= |file| && file[off..off + n] == PathsBytes(paths)
    ensures ReadPaths(file, off, |paths|) == Some(Paths(paths, off + |PathsBytes(paths)|))
    decreases |paths|
  {
    if paths != [] {
      hide PutU16, GetU16, PathsBytes;
      PathsFirst(paths);
      var p := paths[0];
      Slices(file, off, PutU16(|p|), p, PathsBytes(paths[1..]));
      GetPutU16(|p|);
      PathsReadAt(file, off + 2 + |p|, paths[1..]);
      assert [p] + paths[1..] == paths;
    }
  }

  lemma PathsReadBack(pre: seq<byte>, paths: seq<Path>, post: seq<byte>)
    requires forall i :: 0 <= i < |paths| ==> |paths[i]| < PATH_MAX
    ensures ReadPaths(pre + PathsBytes(paths) + post, |pre|, |paths|) == Some(Paths(paths, |pre| + |PathsBytes(paths)|))
  {
    hide PathsBytes, ReadPaths;
    PathsReadAt(pre + PathsBytes(paths) + post, |pre|, paths);
  }

  /** Where the parts of a job header lie in a file. */
  lemma JobLayout(pre: seq<byte>, job: Job, post: seq<byte>)
    requires JobOk(job)
    ensures var file, off, n := pre + JobBytes(job) + post, |pre|, |PathsBytes(job.paths)|;
            && |JobBytes(job)| == 16 + n
            && file[off..off + 4] == PutU32(|job.paths|) && file[off + 4..off + 8] == PutU32(job.R)
            && file[off..off + |JobBytes(job)|] == JobBytes(job)
            && ReadPaths(file, off + 8, |job.paths|) == Some(Paths(job.paths, off + 8 + n))
  {
    hide PathsBytes, ReadPaths, Crc, PutU64;
    var file := pre + JobBytes(job) + post;
    var counts := PutU32(|job.paths|) + PutU32(job.R);
    var crc := PutU64(Crc(JobBody(job)));
    PathsReadBack(pre + counts, job.paths, crc + post);
    assert file == (pre + counts) + PathsBytes(job.paths) + (crc + post);
  }

  lemma ReadJobParts(file: seq<byte>, off: nat, job: Job, n: nat)
    requires JobOk(job) && off + 16 + n <= |file|
    requires GetU32(file[off..off + 4]) == |job.paths| && GetU32(file[off + 4..off + 8]) == job.R
    requires ReadPaths(file, off + 8, |job.paths|) == Some(Paths(job.paths, off + 8 + n)) &&
      Intact(file[off..off + 16 + n])
    ensures ReadJob(file, off) == Some(JobHeader(job.paths, job.R, off + 16 + n))
  {
    hide ReadPaths, Intact, GetU32;
  }

  lemma JobReadBack(pre: seq<byte>, job: Job, post: seq<byte>)
    requires JobOk(job)
    ensures ReadJob(pre + JobBytes(job) + post, |pre|) == Some(JobHeader(job.paths, job.R, |pre| + |JobBytes(job)|))
  {
    hide PathsBytes, ReadPaths, ReadJob, Intact, JobBody, Sealed, PutU32, GetU32;
    SealedIntact(JobBody(job));
    JobLayout(pre, job, post);
    GetPutU32(|job.paths|);
    GetPutU32(job.R);
    ReadJobParts(pre + JobBytes(job) + post, |pre|, job, |PathsBytes(job.paths)|);
  }

  lemma RecordReadBack(r: Record, M: nat, R: nat)
    requires RecordFits(r) && r.taskId < (if r.kind.MapTask? then M else R)
    ensures ReadRecord(RecordBytes(r), M, R) == Read(r)
  {
    var body := RecordBody(r);
    SealedIntact(body);
    hide Intact, PutU64, PutU32, GetU32;
    var s := RecordBytes(r);
    assert s[1..5] == PutU32(r.taskId) && s[5..9] == PutU32(r.attemptId);
    GetPutU32(r.taskId);
    GetPutU32(r.attemptId);
  }

  predicate InRange(log: seq<Record>, M: nat, R: nat) {
    forall i :: 0 <= i < |log| ==> log[i].taskId < if log[i].kind.MapTask? then M else R
  }

  /** Whole records are read one by one in front of whatever follows them. */
  lemma {:induction false} LogReadOver(pre: seq<byte>, log: seq<Record>, rest: seq<byte>, M: nat, R: nat)
    requires LogFits(log) && InRange(log, M, R)
    ensures var file := pre + LogBytes(log) + rest;
            var r := ReadLog(file, |pre| + |LogBytes(log)|, M, R);
            ReadLog(file, |pre|, M, R) == if r.None? then None else Some(log + r.value)
    decreases |log|
  {
    hide ReadRecord, RecordBytes;
    var file := pre + LogBytes(log) + rest;
    if log == [] {
      var r := ReadLog(file, |pre|, M, R);
      assert r.Some? ==> [] + r.value == r.value;
    } else {
      var r := log[0];
      LogReadOver(pre + RecordBytes(r), log[1..], rest, M, R);
      assert file == pre + RecordBytes(r) + LogBytes(log[1..]) + rest;
      assert file[|pre|..|pre| + RECORD_SIZE] == RecordBytes(r);
      RecordReadBack(r, M, R);
      var r' := ReadLog(file, |pre| + |LogBytes(log)|, M, R);
      assert r'.Some? ==> [r] + (log[1..] + r'.value) == log + r'.value;
    }
  }

  /** Whole records read back; a partial record at the end rejects the file. */
  lemma LogReadBack(pre: seq<byte>, log: seq<Record>, tail: seq<byte>, M: nat, R: nat)
    requires LogFits(log) && InRange(log, M, R) && |tail| < RECORD_SIZE
    ensures ReadLog(pre + LogBytes(log) + tail, |pre|, M, R) == if tail == [] then Some(log) else None
  {
    hide LogBytes, ReadRecord, Prepend;
    LogReadOver(pre, log, tail, M, R);
    assert log + [] == log;
  }

  lemma HeaderReadBack(created: seq<byte>, post: seq<byte>)
    requires |created| == 8
    ensures HeaderOk(HeaderBytes(created) + post) && |HeaderBytes(created)| == FILE_HEADER_SIZE
  {
    hide Crc, PutU64, Intact, PutU32, GetU32;
    var file, head := HeaderBytes(created) + post, HeaderBytes(created);
    SealedIntact(HeaderBody(created));
    assert head[..8] == MAGIC;
    assert head[8..12] == PutU32(VERSION);
    GetPutU32(VERSION);
    assert file[..8] == head[..8] && file[8..12] == head[8..12];
    assert file[..FILE_HEADER_SIZE] == head;
  }

  /** Behind intact headers, loading comes down to reading the records. */
  lemma LoadBehindHeaders(job: Job, created: seq<byte>, rest: seq<byte>)
    requires JobOk(job) && |created| == 8
    ensures var head := HeaderBytes(created) + JobBytes(job);
            var log := ReadLog(head + rest, |head|, |job.paths|, job.R);
            Load(head + rest) == if log.None? then None else Some(Loaded(job.paths, job.R, log.value))
  {
    hide HeaderOk, ReadJob, ReadLog, HeaderBytes, JobBytes;
    var file := HeaderBytes(created) + JobBytes(job) + rest;
    HeaderReadBack(created, JobBytes(job) + rest);
    JobReadBack(HeaderBytes(created), job, rest);
    assert file == HeaderBytes(created) + (JobBytes(job) + rest);
  }

  /** A file written for a job and its completions loads back to them; with a partial record at
      the end it is rejected. */
  lemma FileReadBack(job: Job, created: seq<byte>, log: seq<Record>, tail: seq<byte>)
    requires JobOk(job) && |created| == 8 && LogFits(log) && InRange(log, |job.paths|, job.R) && |tail| < RECORD_SIZE
    ensures Load(FileBytes(job, created, log) + tail) ==
            if tail == [] then Some(Loaded(job.paths, job.R, log)) else None
  {
    hide Load, ReadLog, HeaderBytes, JobBytes, LogBytes;
    var head := HeaderBytes(created) + JobBytes(job);
    LoadBehindHeaders(job, created, LogBytes(log) + tail);
    LogReadBack(head, log, tail, |job.paths|, job.R);
    assert FileBytes(job, created, log) + tail == head + (LogBytes(log) + tail);
  }

  // ----- a file cut short -----

  lemma {:induction false} ReadPathsCut(file: seq<byte>, off: nat, n: nat, k: nat)
    requires off <= k <= |file| && ReadPaths(file, off, n).Some?
    ensures ReadPaths(file[..k], off, n) ==
            if ReadPaths(file, off, n).value.end <= k then ReadPaths(file, off, n) else None
    decreases n
  {
    if n > 0 && off + 2 <= k {
      var len := GetU16(file[off..off + 2]);
      assert file[..k][off..off + 2] == file[off..off + 2];
      if off + 2 + len <= k {
        assert file[..k][off + 2..off + 2 + len] == file[off + 2..off + 2 + len];
        ReadPathsCut(file, off + 2 + len, n - 1, k);
      }
    }
  }

  lemma ReadJobCut(file: seq<byte>, off: nat, k: nat)
    requires ReadJob(file, off).Some? && off <= k < ReadJob(file, off).value.end
    ensures ReadJob(file[..k], off).None?
  {
    hide ReadPaths, Intact;
    if off + 8 <= k {
      assert file[..k][off..off + 4] == file[off..off + 4] && file[..k][off + 4..off + 8] == file[off + 4..off + 8];
      ReadPathsCut(file, off + 8, GetU32(file[off..off + 4]), k);
    }
  }

  lemma TakeBehind(a: seq<byte>, b: seq<byte>, n: nat, k: nat)
    requires |a| == n && k <= |b|
    ensures (a + b)[..n + k] == a + b[..k]
  {
  }

  lemma {:induction false} LogBytesTake(log: seq<Record>, j: nat)
    requires LogFits(log) && j <= |log|
    ensures LogBytes(log)[..17 * j] == LogBytes(log[..j])
    decreases j
  {
    hide RecordBytes;
    if j > 0 {
      LogBytesTake(log[1..], j - 1);
      assert log[..j][1..] == log[1..][..j - 1] && log[..j][0] == log[0];
      TakeBehind(RecordBytes(log[0]), LogBytes(log[1..]), 17, 17 * (j - 1));
    }
  }

  /** The offset of the first record. */
  function RecordsStart(job: Job): nat
    requires JobOk(job)
  {
    FILE_HEADER_SIZE + |JobBytes(job)|
  }

  lemma CutInHeaders(job: Job, created: seq<byte>, log: seq<Record>, k: nat)
    requires JobOk(job) && |created| == 8 && LogFits(log) && k < RecordsStart(job) <= |FileBytes(job, created, log)|
    ensures Load(FileBytes(job, created, log)[..k]).None?
  {
    hide JobBytes, LogBytes, ReadJob, Intact;
    var file := FileBytes(job, created, log);
    HeaderReadBack(created, JobBytes(job) + LogBytes(log));
    if FILE_HEADER_SIZE <= k {
      JobReadBack(HeaderBytes(created), job, LogBytes(log));
      ReadJobCut(file, FILE_HEADER_SIZE, k);
    }
  }

  lemma FileTake(head: seq<byte>, log: seq<byte>, m: nat, n: nat)
    requires m <= n <= |log|
    ensures (head + log)[..|head| + n] == head + log[..m] + log[m..n]
  {
  }

  lemma FileSize(job: Job, created: seq<byte>, log: seq<Record>)
    requires JobOk(job) && |created| == 8 && LogFits(log)
    ensures |FileBytes(job, created, log)| == RecordsStart(job) + 17 * |log|
  {
    HeaderReadBack(created, []);
  }

  /** Cutting the file anywhere: inside the headers it is rejected, at a record boundary it loads
      to exactly the records before the cut, inside a record it is rejected. */
  lemma CutFile(job: Job, created: seq<byte>, log: seq<Record>, k: nat)
    requires JobOk(job) && |created| == 8 && LogFits(log) && InRange(log, |job.paths|, job.R)
    requires k <= |FileBytes(job, created, log)|
    ensures var start := RecordsStart(job);
            Load(FileBytes(job, created, log)[..k]) ==
            if start <= k && (k - start) % 17 == 0
            then Some(Loaded(job.paths, job.R, log[..(k - start) / 17])) else None
  {
    hide JobBytes, LogBytes, Load, HeaderBytes, FileBytes;
    var start := RecordsStart(job);
    FileSize(job, created, log);
    if k < start {
      CutInHeaders(job, created, log, k);
    } else {
      CutInLog(job, created, log, (k - start) / 17, k - start);
    }
  }

  lemma CutInLog(job: Job, created: seq<byte>, log: seq<Record>, j: nat, n: nat)
    requires JobOk(job) && |created| == 8 && LogFits(log) && InRange(log, |job.paths|, job.R)
    requires 17 * j <= n < 17 * j + 17 && n <= 17 * |log|
    ensures RecordsStart(job) + n <= |FileBytes(job, created, log)| && j <= |log|
    ensures Load(FileBytes(job, created, log)[..RecordsStart(job) + n]) ==
            if n == 17 * j then Some(Loaded(job.paths, job.R, log[..j])) else None
  {
    hide JobBytes, LogBytes, Load, HeaderBytes;
    HeaderReadBack(created, []);
    var head, tail := HeaderBytes(created) + JobBytes(job), LogBytes(log)[17 * j..n];
    assert (head + LogBytes(log))[..|head| + n] == head + LogBytes(log[..j]) + tail by {
      LogBytesTake(log, j);
      FileTake(head, LogBytes(log), 17 * j, n);
    }
    FileReadBack(job, created, log[..j], tail);
  }

  // ----- a damaged record -----

  /** A record whose checksum bytes are as written and whose body differs from it only inside eight
      consecutive bytes, or whose body is as written, is accepted only if it is the record written. */
  lemma DamageDetected(r: Record, rec: seq<byte>, w: nat)
    requires RecordFits(r) && |rec| == RECORD_SIZE && w <= 9
    requires var s := RecordBytes(r);
             || (rec[9..] == s[9..] && forall k :: 0 <= k < 9 && !(w <= k < w + 8) ==> rec[k] == s[k])
             || rec[..9] == s[..9]
    ensures Intact(rec) <==> rec == RecordBytes(r)
  {
    var s := RecordBytes(r);
    SealedIntact(RecordBody(r));
    assert |RecordBody(r)| == 9 && s[..9] == RecordBody(r) && s[|s| - 8..] == s[9..] && rec[|rec| - 8..] == rec[9..];
    hide BitSerial, PutU64, GetU64, RecordBytes;
    assert s == s[..9] + s[9..] && rec == rec[..9] + rec[9..];
    if rec[..9] == s[..9] {
      PutGetU64(rec[9..]);
      PutGetU64(s[9..]);
    } else {
      BurstDetected(0, s[..9], rec[..9], w);
    }
  }

  /** A file with one damaged record is rejected. */
  lemma DamagedFileRejected(job: Job, created: seq<byte>, log: seq<Record>, i: nat, rec: seq<byte>, w: nat)
    requires JobOk(job) && |created| == 8 && LogFits(log) && InRange(log, |job.paths|, job.R) && i < |log|
    requires |rec| == RECORD_SIZE && w <= 9 && rec != RecordBytes(log[i])
    requires var s := RecordBytes(log[i]);
             || (rec[9..] == s[9..] && forall k :: 0 <= k < 9 && !(w <= k < w + 8) ==> rec[k] == s[k])
             || rec[..9] == s[..9]
    ensures Load(FileBytes(job, created, log[..i]) + rec + LogBytes(log[i + 1..])).None?
  {
    hide Load, ReadLog, HeaderBytes, JobBytes, LogBytes, RecordBytes, Intact;
    DamageDetected(log[i], rec, w);
    var rest := rec + LogBytes(log[i + 1..]);
    var head, before := HeaderBytes(created) + JobBytes(job), LogBytes(log[..i]);
    var file := head + before + rest;
    LoadBehindHeaders(job, created, before + rest);
    assert file == head + (before + rest);
    LogReadOver(head, log[..i], rest, |job.paths|, job.R);
    RejectedFirst(head + before, rec, LogBytes(log[i + 1..]), |job.paths|, job.R);
    assert file == head + before + rec + LogBytes(log[i + 1..]);
  }

  lemma RejectedFirst(pre: seq<byte>, rec: seq<byte>, post: seq<byte>, M: nat, R: nat)
    requires |rec| == RECORD_SIZE && !Intact(rec)
    ensures ReadLog(pre + rec + post, |pre|, M, R).None?
  {
    hide Intact;
    assert (pre + rec + post)[|pre|..|pre| + RECORD_SIZE] == rec;
  }
}
