/** The writers of the append-only file: each fills a byte buffer at a moving offset. */
module AofWriter {
  import opened Bytes
  import Crc64
  import opened Scheduler
  import opened Recovery
  import opened Aof

  /** Puts the checksum of `buf[..off]` behind it. */
  method Seal(buf: array<byte>, off: nat) returns (end: nat)
    requires off + 8 <= buf.Length
    modifies buf
    ensures end == off + 8
    ensures buf[..end] == Sealed(old(buf[..off]))
  {
    var crc := Crc64.Compute(0, buf, off);
    end := Memcpy(buf, off, Crc64.PutU64(crc));
  }

  method WriteFileHeader(buf: array<byte>, created: seq<byte>)
    requires buf.Length == FILE_HEADER_SIZE && |created| == 8
    modifies buf
    ensures buf[..] == HeaderBytes(created)
  {
    hide Sealed, PutU32;
    var off := Memcpy(buf, 0, MAGIC);
    off := Memcpy(buf, off, PutU32(VERSION));
    off := Memcpy(buf, off, PutU32(0));
    off := Memcpy(buf, off, created);
    assert buf[..off] == HeaderBody(created);
    off := Seal(buf, off);
    assert buf[..off] == buf[..];
  }

  method WriteRecord(buf: array<byte>, r: Record)
    requires buf.Length == RECORD_SIZE && RecordFits(r)
    modifies buf
    ensures buf[..] == RecordBytes(r)
  {
    hide Sealed, PutU32;
    buf[0] := KindByte(r.kind);
    var off := Memcpy(buf, 1, PutU32(r.taskId));
    off := Memcpy(buf, off, PutU32(r.attemptId));
    assert buf[..off] == RecordBody(r);
    off := Seal(buf, off);
    assert buf[..off] == buf[..];
  }

  lemma {:induction false} PathsBytesSplit(paths: seq<Path>, i: nat)
    requires forall k :: 0 <= k < |paths| ==> |paths[k]| < PATH_MAX
    requires i <= |paths|
    ensures PathsBytes(paths) == PathsBytes(paths[..i]) + PathsBytes(paths[i..])
  {
    hide PutU16;
    if i == 0 {
      assert paths[0..] == paths;
    } else {
      var rest := paths[1..];
      PathsBytesSplit(rest, i - 1);
      assert paths[..i][1..] == rest[..i - 1] && paths[i..] == rest[i - 1..];
      Assoc(PutU16(|paths[0]|) + paths[0], PathsBytes(rest[..i - 1]), PathsBytes(paths[i..]));
    }
  }

  lemma PathsBytesNext(paths: seq<Path>, i: nat)
    requires forall k :: 0 <= k < |paths| ==> |paths[k]| < PATH_MAX
    requires i < |paths|
    ensures PathsBytes(paths[..i + 1]) == PathsBytes(paths[..i]) + PutU16(|paths[i]|) + paths[i]
    ensures |PathsBytes(paths[..i + 1])| <= |PathsBytes(paths)|
  {
    hide PutU16;
    PathsBytesSplit(paths, i + 1);
    var upTo := paths[..i + 1];
    PathsBytesSplit(upTo, i);
    assert upTo[..i] == paths[..i] && upTo[i..] == [paths[i]];
    var none: seq<Path> := [];
    assert [paths[i]][1..] == none;
    assert PathsBytes([paths[i]]) == PutU16(|paths[i]|) + paths[i] + PathsBytes(none);
  }

  /** The size computed before allocating is exactly what the job header takes. */
  method JobBufferSize(job: Job) returns (size: nat)
    requires JobOk(job)
    ensures size == |JobBytes(job)|
  {
    hide PathsBytes;
    size := 4 + 4 + 8;
    assert job.paths[..0] == [];
    NoPaths();
    for i := 0 to |job.paths|
      invariant size == 16 + |PathsBytes(job.paths[..i])|
    {
      PathsBytesNext(job.paths, i);
      size := size + 2 + |job.paths[i]|;
    }
    assert job.paths[..|job.paths|] == job.paths;
  }

  /** What the reader allocates from the counts alone holds the whole job header. */
  lemma {:induction false} ReaderBufferFits(job: Job, n: nat)
    requires JobOk(job) && n <= |job.paths|
    ensures |PathsBytes(job.paths[..n])| <= n * 1026
    ensures n == |job.paths| ==> |JobBytes(job)| <= 4 + 4 + n * (2 + 1024) + 8
  {
    hide PathsBytes, PutU32, Crc;
    if n == 0 {
      NoPaths();
    } else {
      ReaderBufferFits(job, n - 1);
      PathsBytesNext(job.paths, n - 1);
    }
    assert job.paths[..|job.paths|] == job.paths;
  }

  lemma NoPaths()
    ensures PathsBytes([]) == []
  {
  }

  /** How writing the job header ends: refused, past the end of the buffer, or written. */
  datatype JobWrite = Refused | Overrun | Written(size: nat)

  /** Refuses a buffer too small for counts and paths; otherwise writes the sealed job header. The
      bytes of the checksum are not part of the size test, so a buffer that holds the rest and lacks
      room for them is overrun. */
  method WriteJob(buf: array<byte>, job: Job) returns (r: JobWrite)
    requires JobOk(job)
    modifies buf
    ensures r.Refused? <==> buf.Length < |JobBody(job)|
    ensures r.Overrun? <==> |JobBody(job)| <= buf.Length < |JobBytes(job)|
    ensures r.Written? ==> r.size == |JobBytes(job)| && buf[..r.size] == JobBytes(job)
  {
    hide PathsBytes, PutU16, PutU32, Sealed;
    SealedLength(JobBody(job));
    if 8 > buf.Length {
      return Refused;
    }
    var off: nat := Memcpy(buf, 0, PutU32(|job.paths|));
    off := Memcpy(buf, off, PutU32(job.R));
    ghost var counts := PutU32(|job.paths|) + PutU32(job.R);
    assert job.paths[..0] == [];
    NoPaths();
    for i := 0 to |job.paths|
      invariant off <= buf.Length && buf[..off] == counts + PathsBytes(job.paths[..i])
    {
      PathsBytesNext(job.paths, i);
      var path := job.paths[i];
      ghost var done := PathsBytes(job.paths[..i]);
      if off + 2 + |path| > buf.Length {
        return Refused;
      }
      off := Memcpy(buf, off, PutU16(|path|));
      off := Memcpy(buf, off, path);
      assert counts + done + PutU16(|path|) + path == counts + (done + PutU16(|path|) + path);
    }
    assert job.paths[..|job.paths|] == job.paths;
    if off + 8 > buf.Length {
      return Overrun;
    }
    off := Seal(buf, off);
    r := Written(off);
  }

  lemma SealedLength(body: seq<byte>)
    ensures |Sealed(body)| == |body| + 8
  {
  }

  /** Opens the log: an empty file gets its two headers, any other content is kept. */
  method InitLog(file: seq<byte>, job: Job, created: seq<byte>) returns (r: seq<byte>)
    requires JobOk(job) && |created| == 8
    ensures r == if file == [] then FileBytes(job, created, []) else file
  {
    hide HeaderBytes, JobBytes;
    if file != [] {
      return file;
    }
    var header := new byte[FILE_HEADER_SIZE];
    WriteFileHeader(header, created);
    var size := JobBufferSize(job);
    var buf := new byte[size];
    JobLength(job);
    var w := WriteJob(buf, job);
    assert buf[..w.size] == buf[..];
    r := header[..] + buf[..];
    assert r + LogBytes([]) == r;
  }

  lemma JobLength(job: Job)
    requires JobOk(job)
    ensures |JobBytes(job)| == |JobBody(job)| + 8
  {
  }
}
