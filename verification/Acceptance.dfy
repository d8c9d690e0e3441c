/** What the loader accepts: only sections as the writers make them, and no damaged header. */
module Acceptance {
  import opened Bytes
  import opened Crc64
  import opened Scheduler
  import opened Recovery
  import opened Aof

  /** An intact section is a sealed one. */
  lemma IntactIsSealed(s: seq<byte>)
    requires |s| >= 8
    ensures Intact(s) <==> s == Sealed(s[..|s| - 8])
  {
    hide Crc, PutU64, GetU64;
    var body, crc := s[..|s| - 8], s[|s| - 8..];
    assert s == body + crc;
    PutGetU64(crc);
    GetPutU64(Crc(body));
    assert Sealed(body)[|body|..] == PutU64(Crc(body));
  }

  // ----- the file header -----

  /** A file passes the header test exactly when it starts with the sealed magic, version, flags and
      time. */
  lemma HeaderAccepted(file: seq<byte>)
    ensures HeaderOk(file) <==>
            |file| >= 32 && file[..32] == Sealed(MAGIC + PutU32(VERSION) + file[12..24])
  {
    hide Crc, PutU64, GetU64, PutU32, GetU32, Intact;
    if |file| >= 32 {
      var head := file[..32];
      IntactIsSealed(head);
      assert head[..24] == file[..8] + file[8..12] + file[12..24];
      PutGetU32(file[8..12]);
      GetPutU32(VERSION);
      if file[..32] == Sealed(MAGIC + PutU32(VERSION) + file[12..24]) {
        HeaderParts(file, MAGIC, PutU32(VERSION), file[12..24]);
      }
    }
  }

  lemma HeaderParts(file: seq<byte>, magic: seq<byte>, version: seq<byte>, rest: seq<byte>)
    requires |file| >= 32 && |magic| == 8 && |version| == 4 && |rest| == 12
    requires file[..32] == Sealed(magic + version + rest)
    ensures file[..8] == magic && file[8..12] == version && file[..32][..24] == magic + version + rest
  {
    hide Crc, PutU64;
    var body := magic + version + rest;
    assert file[..32][..24] == body;
    assert file[..8] == body[..8] && file[8..12] == body[8..12];
  }

  // ----- the job header -----

  lemma {:induction false} PathsAccepted(file: seq<byte>, off: nat, n: nat)
    requires ReadPaths(file, off, n).Some?
    requires forall i :: 0 <= i < n ==> |ReadPaths(file, off, n).value.paths[i]| < PATH_MAX
    ensures var ps := ReadPaths(file, off, n).value; file[off..ps.end] == PathsBytes(ps.paths)
    decreases n
  {
    hide PutU16, GetU16;
    if n > 0 {
      var start := off + 2;
      var end := start + GetU16(file[off..start]);
      var more := ReadPaths(file, end, n - 1).value;
      var ps := ReadPaths(file, off, n).value;
      assert ps.paths[0] == file[start..end] && ps.paths[1..] == more.paths && ps.end == more.end;
      assert forall i :: 0 <= i < n - 1 ==> more.paths[i] == ps.paths[i + 1];
      PathsAccepted(file, end, n - 1);
      PutGetU16(file[off..start]);
      assert file[off..ps.end] == file[off..start] + file[start..end] + file[end..ps.end];
    }
  }

  /** The reader accepts only job headers as the writer makes them: sealed counts and paths, within
      the limits. */
  lemma JobAccepted(file: seq<byte>, off: nat)
    requires ReadJob(file, off).Some?
    ensures var h := ReadJob(file, off).value;
            && |h.paths| <= 256 && h.R <= 64 && (forall i :: 0 <= i < |h.paths| ==> |h.paths[i]| < 1024)
            && off <= h.end <= |file|
            && file[off..h.end] == Sealed(PutU32(|h.paths|) + PutU32(h.R) + PathsBytes(h.paths))
  {
    hide PutU32, GetU32, Intact, ReadPaths, PathsBytes, Sealed;
    var h := ReadJob(file, off).value;
    PathsAccepted(file, off + 8, |h.paths|);
    var s := file[off..h.end];
    IntactIsSealed(s);
    PutGetU32(file[off..off + 4]);
    PutGetU32(file[off + 4..off + 8]);
    assert s[..|s| - 8] == file[off..off + 4] + file[off + 4..off + 8] + file[off + 8..h.end - 8];
  }

  // ----- records -----

  /** A record is taken exactly when it is the image of a record in range. */
  lemma RecordAccepted(rec: seq<byte>, M: nat, R: nat, r: Record)
    requires |rec| == RECORD_SIZE
    ensures ReadRecord(rec, M, R) == Read(r) <==>
            RecordFits(r) && rec == RecordBytes(r) && r.taskId < (if r.kind.MapTask? then M else R)
  {
    hide PutU32, GetU32, Intact, Sealed;
    if ReadRecord(rec, M, R) == Read(r) {
      IntactIsSealed(rec);
      PutGetU32(rec[1..5]);
      PutGetU32(rec[5..9]);
      assert rec[..9] == [rec[0]] + rec[1..5] + rec[5..9];
    } else if RecordFits(r) && rec == RecordBytes(r) && r.taskId < (if r.kind.MapTask? then M else R) {
      RecordReadBack(r, M, R);
    }
  }

  /** A record is skipped exactly when it is intact and of no known kind; every other record that is
      not taken rejects the file. */
  lemma RecordSkipped(rec: seq<byte>, M: nat, R: nat)
    requires |rec| == RECORD_SIZE
    ensures ReadRecord(rec, M, R).Skipped? <==> rec == Sealed(rec[..9]) && rec[0] !in [1, 2]
    ensures ReadRecord(rec, M, R).Rejected? <==>
            || rec != Sealed(rec[..9])
            || (rec[0] == 1 && BigEndian(rec[1..5]) >= M) || (rec[0] == 2 && BigEndian(rec[1..5]) >= R)
  {
    hide PutU32, GetU32, Intact, Sealed, BigEndian;
    IntactIsSealed(rec);
    assert rec[..|rec| - 8] == rec[..9];
    PutGetU32(rec[1..5]);
    NetworkOrder32(GetU32(rec[1..5]));
  }

  /** When no record is skipped, the record area is the image of the records loaded. */
  lemma {:induction false} LogAccepted(file: seq<byte>, off: nat, M: nat, R: nat)
    requires off <= |file| && ReadLog(file, off, M, R).Some?
    ensures var log := ReadLog(file, off, M, R).value;
            17 * |log| <= |file| - off && (17 * |log| == |file| - off ==> LogFits(log) && file[off..] == LogBytes(log))
    decreases |file| - off
  {
    hide ReadRecord, RecordBytes, RecordFits;
    if off < |file| {
      var rec := file[off..off + RECORD_SIZE];
      LogAccepted(file, off + RECORD_SIZE, M, R);
      var log := ReadLog(file, off, M, R).value;
      if ReadRecord(rec, M, R).Read? {
        var more := ReadLog(file, off + RECORD_SIZE, M, R).value;
        RecordAccepted(rec, M, R, log[0]);
        assert log[1..] == more;
        assert file[off..] == rec + file[off + RECORD_SIZE..];
      }
    }
  }

  /** A file that loads without a skipped record was written for what it loads to. */
  lemma LoadedWasWritten(file: seq<byte>)
    requires Load(file).Some? && ReadJob(file, FILE_HEADER_SIZE).Some?
    requires 17 * |Load(file).value.log| == |file| - ReadJob(file, FILE_HEADER_SIZE).value.end
    ensures var l := Load(file).value;
            && LogFits(l.log) && (forall i :: 0 <= i < |l.paths| ==> |l.paths[i]| < PATH_MAX)
            && l.R <= MAX_REDUCE_TASKS && |l.paths| <= MAX_MAP_TASKS
            && file == Sealed(MAGIC + PutU32(VERSION) + file[12..24])
                       + Sealed(PutU32(|l.paths|) + PutU32(l.R) + PathsBytes(l.paths)) + LogBytes(l.log)
  {
    hide HeaderOk, ReadJob, ReadLog, Sealed, PathsBytes, LogBytes, PutU32;
    HeaderAccepted(file);
    JobAccepted(file, FILE_HEADER_SIZE);
    var h := ReadJob(file, FILE_HEADER_SIZE).value;
    LogAccepted(file, h.end, |h.paths|, h.R);
    assert file == file[..32] + file[32..h.end] + file[h.end..];
  }

  // ----- damaged headers -----

  /** Sealing with the checksum of another body of the same length, within eight bytes of it. */
  lemma WrongSeal(body: seq<byte>, body': seq<byte>, w: nat)
    requires |body'| == |body| && w <= |body|
    requires forall k :: 0 <= k < |body| && !(w <= k < w + 8) ==> body'[k] == body[k]
    ensures Intact(body' + PutU64(Crc(body))) <==> body' == body
  {
    hide PutU64, GetU64, BitSerial;
    var s := body' + PutU64(Crc(body));
    GetPutU64(Crc(body));
    assert s[|s| - 8..] == PutU64(Crc(body)) && s[..|s| - 8] == body';
    BurstDetected(0, body, body', w);
  }

  /** The same body with another checksum. */
  lemma WrongChecksum(body: seq<byte>, crc: seq<byte>)
    requires |crc| == 8
    ensures Intact(body + crc) <==> crc == PutU64(Crc(body))
  {
    hide PutU64, GetU64, Crc;
    var s := body + crc;
    assert s[|s| - 8..] == crc && s[..|s| - 8] == body;
    PutGetU64(crc);
    GetPutU64(Crc(body));
  }

  /** A job header whose body was changed within eight consecutive bytes into the body of another job is
      accepted exactly when the job is the same. */
  lemma DamagedJobRefused(pre: seq<byte>, job: Job, job': Job, w: nat, post: seq<byte>)
    requires JobOk(job) && JobOk(job') && |JobBody(job')| == |JobBody(job)| && w <= |JobBody(job)|
    requires forall k :: 0 <= k < |JobBody(job)| && !(w <= k < w + 8) ==> JobBody(job')[k] == JobBody(job)[k]
    ensures ReadJob(pre + JobBody(job') + PutU64(Crc(JobBody(job))) + post, |pre|).Some? <==>
            job'.paths == job.paths && job'.R == job.R
  {
    hide PathsBytes, ReadPaths, ReadJob, Intact, PutU32, GetU32, PutU64, Crc;
    var seal := PutU64(Crc(JobBody(job)));
    var file := pre + JobBody(job') + seal + post;
    WrongSeal(JobBody(job), JobBody(job'), w);
    JobParses(pre, job', seal, post);
    if JobBody(job') == JobBody(job) {
      SameJob(job, job');
    }
  }

  /** Whatever bytes damage within eight consecutive ones leaves in the body, or any damage in the
      checksum alone: a job header is read from the same place and length exactly when nothing changed. */
  lemma JobDamageDetected(pre: seq<byte>, job: Job, body: seq<byte>, crc: seq<byte>, w: nat, post: seq<byte>)
    requires JobOk(job) && |body| == |JobBody(job)| && |crc| == 8 && w <= |body|
    requires var was := JobBody(job);
             || (crc == PutU64(Crc(was)) && forall k :: 0 <= k < |was| && !(w <= k < w + 8) ==> body[k] == was[k])
             || body == was
    ensures var h := ReadJob(pre + body + crc + post, |pre|);
            h.Some? && h.value.end == |pre| + |body| + 8 <==> body + crc == JobBytes(job)
  {
    hide PathsBytes, ReadPaths, Intact, JobBody, PutU32, GetU32, PutU64, Crc;
    var file, was, seal := pre + body + crc + post, JobBody(job), PutU64(Crc(JobBody(job)));
    assert file[|pre|..|pre| + |body| + 8] == body + crc;
    if body + crc == JobBytes(job) {
      assert file == pre + JobBytes(job) + post;
      JobReadBack(pre, job, post);
    } else if body == was {
      WrongChecksum(was, crc);
    } else {
      WrongSeal(was, body, w);
    }
  }

  /** Bodies determine their jobs. */
  lemma SameJob(job: Job, job': Job)
    requires JobOk(job) && JobOk(job') && JobBody(job') == JobBody(job)
    ensures job'.paths == job.paths && job'.R == job.R
  {
    hide ReadJob, JobBody, Sealed;
    JobReadBack([], job, []);
    JobReadBack([], job', []);
    assert JobBytes(job') == JobBytes(job);
  }

  /** Where a body of a job stands, it is read as that job, and only the checksum decides. */
  lemma JobParses(pre: seq<byte>, job: Job, seal: seq<byte>, post: seq<byte>)
    requires JobOk(job) && |seal| == 8
    ensures ReadJob(pre + JobBody(job) + seal + post, |pre|).Some? <==> Intact(JobBody(job) + seal)
  {
    hide PathsBytes, ReadPaths, Intact, GetU32;
    var file, off, n := pre + JobBody(job) + seal + post, |pre|, |PathsBytes(job.paths)|;
    var counts := PutU32(|job.paths|) + PutU32(job.R);
    PathsReadBack(pre + counts, job.paths, seal + post);
    assert file == (pre + counts) + PathsBytes(job.paths) + (seal + post);
    assert file[off..off + 4] == PutU32(|job.paths|) && file[off + 4..off + 8] == PutU32(job.R);
    GetPutU32(|job.paths|);
    GetPutU32(job.R);
    assert file[off..off + 8 + n + 8] == JobBody(job) + seal;
  }

  lemma NoJobNoLoad(file: seq<byte>)
    requires ReadJob(file, FILE_HEADER_SIZE).None?
    ensures Load(file).None?
  {
    hide ReadJob, HeaderOk;
  }

  /** A log file with such a job header keeps the master down. */
  lemma DamagedJobNotLoaded(created: seq<byte>, job: Job, job': Job, w: nat, post: seq<byte>)
    requires |created| == 8 && JobOk(job) && JobOk(job') && |JobBody(job')| == |JobBody(job)| && w <= |JobBody(job)|
    requires forall k :: 0 <= k < |JobBody(job)| && !(w <= k < w + 8) ==> JobBody(job')[k] == JobBody(job)[k]
    requires job'.paths != job.paths || job'.R != job.R
    ensures Load(HeaderBytes(created) + JobBody(job') + PutU64(Crc(JobBody(job))) + post).None?
  {
    hide Load, ReadJob, JobBody, HeaderBytes, PutU64, Crc;
    HeaderReadBack(created, []);
    DamagedJobRefused(HeaderBytes(created), job, job', w, post);
    NoJobNoLoad(HeaderBytes(created) + JobBody(job') + PutU64(Crc(JobBody(job))) + post);
  }

  /** A file header changed within eight consecutive bytes in front of its checksum, or only in the
      checksum, passes exactly when it is unchanged. */
  lemma DamagedHeaderRefused(created: seq<byte>, head: seq<byte>, w: nat, post: seq<byte>)
    requires |created| == 8 && |head| == 32 && w <= 24
    requires var s := HeaderBytes(created);
             || (head[24..] == s[24..] && forall k :: 0 <= k < 24 && !(w <= k < w + 8) ==> head[k] == s[k])
             || head[..24] == s[..24]
    ensures HeaderOk(head + post) <==> head == HeaderBytes(created)
  {
    hide Crc, PutU64, GetU64, Intact, PutU32, GetU32;
    HeaderReadBack(created, post);
    var body, s := HeaderBody(created), HeaderBytes(created);
    assert s[..24] == body && s[24..] == PutU64(Crc(body));
    assert head == head[..24] + head[24..] && s == s[..24] + s[24..];
    assert (head + post)[..32] == head;
    if head[..24] == s[..24] {
      WrongChecksum(body, head[24..]);
    } else {
      WrongSeal(body, head[..24], w);
    }
  }
}
