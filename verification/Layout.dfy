/** The bytes of the log file and of the messages, field by field at their offsets. */
module Layout {
  import opened Bytes
  import Crc64
  import opened Scheduler
  import opened Recovery
  import opened Aof
  import opened AofWriter
  import Framing
  import Rpc

  /** The characters of a string as bytes. */
  predicate Spells(s: seq<byte>, text: string) {
    |s| == |text| && forall i :: 0 <= i < |s| ==> s[i] as char == text[i]
  }

  /** A section ends with its checksum, most significant byte first. */
  lemma SealLayout(body: seq<byte>)
    ensures var s := Sealed(body);
            |s| == |body| + 8 && s[..|body|] == body && s[|body|..] == Crc64.PutU64(Crc64.BitSerial(0, body))
  {
    hide Crc64.PutU64, Crc64.BitSerial;
  }

  /** 8 bytes of magic, 4 of version, 4 of flags, 8 of time, 8 of checksum. */
  lemma HeaderLayout(created: seq<byte>)
    requires |created| == 8
    ensures var s := HeaderBytes(created);
            && |s| == 32 && Spells(s[..8], "MAPREDUC") && BigEndian(s[8..12]) == 1 && BigEndian(s[12..16]) == 0
            && s[16..24] == created && s == Sealed(s[..24])
  {
    hide Sealed, PutU32, BigEndian;
    var s, body := HeaderBytes(created), HeaderBody(created);
    SealLayout(body);
    HeaderFields(MAGIC, PutU32(VERSION), PutU32(0), created);
    Within(s, body, 0, 8);
    Within(s, body, 8, 12);
    Within(s, body, 12, 16);
    Within(s, body, 16, 24);
    NetworkOrder32(VERSION);
    NetworkOrder32(0);
  }

  lemma HeaderFields(a: seq<byte>, b: seq<byte>, c: seq<byte>, d: seq<byte>)
    requires |a| == 8 && |b| == 4 && |c| == 4 && |d| == 8
    ensures var s := a + b + c + d;
            |s| == 24 && s[0..8] == a && s[8..12] == b && s[12..16] == c && s[16..24] == d
  {
    var s := a + b + c + d;
    assert |s| == 24;
    assert s[0..8] == a;
    assert s[8..12] == b;
    assert s[12..16] == c;
    assert s[16..24] == d;
  }

  /** A slice of a prefix is a slice of the whole. */
  lemma Within(s: seq<byte>, body: seq<byte>, a: nat, b: nat)
    requires |body| <= |s| && s[..|body|] == body && a <= b <= |body|
    ensures s[a..b] == body[a..b]
  {
    forall i | a <= i < b ensures s[i] == body[i] {
      assert s[..|body|][i] == s[i];
    }
  }

  /** 1 byte of kind, 4 of task, 4 of attempt, 8 of checksum. */
  lemma RecordLayout(r: Record)
    requires RecordFits(r)
    ensures var s := RecordBytes(r);
            && |s| == 17 && s[0] == (if r.kind.MapTask? then 1 else 2)
            && BigEndian(s[1..5]) == r.taskId && BigEndian(s[5..9]) == r.attemptId && s == Sealed(s[..9])
  {
    hide Sealed, PutU32, BigEndian;
    var s, body := RecordBytes(r), RecordBody(r);
    SealLayout(body);
    assert s[..9] == body;
    assert s[1..5] == body[1..5] == PutU32(r.taskId);
    assert s[5..9] == body[5..9] == PutU32(r.attemptId);
    NetworkOrder32(r.taskId);
    NetworkOrder32(r.attemptId);
  }

  /** Where the length field of path i starts in a job header: each path before it takes 2 bytes more
      than its length. */
  function PathOffset(paths: seq<Path>, i: nat): (off: nat)
    requires i <= |paths|
    ensures off >= 8
  {
    if i == 0 then 8 else PathOffset(paths, i - 1) + 2 + |paths[i - 1]|
  }

  lemma {:induction false} PathsUpTo(paths: seq<Path>, i: nat)
    requires i <= |paths| && forall k :: 0 <= k < |paths| ==> |paths[k]| < PATH_MAX
    ensures |PathsBytes(paths[..i])| + 8 == PathOffset(paths, i)
  {
    hide PathsBytes;
    if i == 0 {
      NoPaths();
    } else {
      PathsUpTo(paths, i - 1);
      PathsBytesNext(paths, i - 1);
    }
  }

  lemma PathAt(paths: seq<Path>, i: nat)
    requires i < |paths| && forall k :: 0 <= k < |paths| ==> |paths[k]| < PATH_MAX
    ensures var s, off, n := PathsBytes(paths), PathOffset(paths, i) - 8, |paths[i]|;
            && off + 2 + n <= |s| && s[off..off + 2] == PutU16(n) && s[off + 2..off + 2 + n] == paths[i]
  {
    hide PathsBytes, PutU16;
    PathsUpTo(paths, i);
    PathsBytesSplit(paths, i);
    PathsFirst(paths[i..]);
    Third(PathsBytes(paths[..i]), PutU16(|paths[i]|), paths[i], PathsBytes(paths[i..][1..]));
  }

  lemma Third(a: seq<byte>, b: seq<byte>, c: seq<byte>, d: seq<byte>)
    ensures var s, n := a + (b + c + d), |a|;
            s[n..n + |b|] == b && s[n + |b|..n + |b| + |c|] == c && |s| >= n + |b| + |c|
  {
    var s, n := a + (b + c + d), |a|;
    assert s[n..n + |b|] == b;
    assert s[n + |b|..n + |b| + |c|] == c;
  }

  lemma JobParts(job: Job)
    requires JobOk(job)
    ensures var body := JobBody(job);
            && |body| == PathOffset(job.paths, |job.paths|)
            && body[0..4] == PutU32(|job.paths|) && body[4..8] == PutU32(job.R) && body[8..] == PathsBytes(job.paths)
  {
    hide PutU32, PathsBytes;
    PathsUpTo(job.paths, |job.paths|);
    assert job.paths[..|job.paths|] == job.paths;
  }

  /** 4 bytes for M, 4 for R, then each path behind its 2-byte length, then 8 bytes of checksum. */
  lemma JobFields(job: Job, i: nat)
    requires JobOk(job) && i < |job.paths|
    ensures var s, off, n := JobBytes(job), PathOffset(job.paths, i), |job.paths[i]|;
            && |s| == PathOffset(job.paths, |job.paths|) + 8 && off + 2 + n <= |s|
            && BigEndian(s[0..4]) == |job.paths| && BigEndian(s[4..8]) == job.R
            && BigEndian(s[off..off + 2]) == n && s[off + 2..off + 2 + n] == job.paths[i]
            && s == Sealed(s[..|s| - 8])
  {
    hide Sealed, PutU32, PutU16, BigEndian, PathsBytes, JobBody, PathOffset;
    var s, body, off, n := JobBytes(job), JobBody(job), PathOffset(job.paths, i), |job.paths[i]|;
    SealLayout(body);
    JobParts(job);
    PathAt(job.paths, i);
    Within(s, body, 0, 4);
    Within(s, body, 4, 8);
    Within(s, body, off, off + 2);
    Within(s, body, off + 2, off + 2 + n);
    Behind(body, 8, off, off + 2);
    Behind(body, 8, off + 2, off + 2 + n);
    NetworkOrder32(|job.paths|);
    NetworkOrder32(job.R);
    NetworkOrder16(n);
  }

  lemma Behind(s: seq<byte>, k: nat, a: nat, b: nat)
    requires k <= a <= b <= |s|
    ensures s[a..b] == s[k..][a - k..b - k]
  {
  }

  /** The file: its header at 0, the job header at 32, record k 17 * k bytes behind it. */
  lemma FileLayout(job: Job, created: seq<byte>, log: seq<Record>, k: nat)
    requires JobOk(job) && |created| == 8 && LogFits(log) && k < |log|
    ensures var file, start := FileBytes(job, created, log), 32 + |JobBytes(job)|;
            && |file| == start + 17 * |log| && file[..32] == HeaderBytes(created) && file[32..start] == JobBytes(job)
            && file[start + 17 * k..start + 17 * k + 17] == RecordBytes(log[k])
  {
    hide HeaderBytes, JobBytes, LogBytes, RecordBytes;
    HeaderReadBack(created, []);
    var head, records := HeaderBytes(created) + JobBytes(job), LogBytes(log);
    LogAt(log, k);
    assert (head + records)[|head|..] == records;
  }

  lemma {:induction false} LogAt(log: seq<Record>, k: nat)
    requires LogFits(log) && k < |log|
    ensures LogBytes(log)[17 * k..17 * k + 17] == RecordBytes(log[k])
  {
    hide RecordBytes;
    var first, rest := RecordBytes(log[0]), LogBytes(log[1..]);
    if k > 0 {
      LogAt(log[1..], k - 1);
      assert (first + rest)[17..] == rest;
      assert (first + rest)[17 * k..17 * k + 17] == rest[17 * (k - 1)..17 * (k - 1) + 17];
    }
  }

  // ----- messages -----

  /** A frame is the length of its payload in 4 bytes, and the payload. */
  lemma FrameLayout(p: Framing.Payload)
    ensures var f := Framing.Frame(p); |f| == 4 + |p| && BigEndian(f[..4]) == |p| && f[4..] == p
  {
    hide PutU32, BigEndian;
    var f := Framing.Frame(p);
    assert f[..4] == PutU32(|p|);
    NetworkOrder32(|p|);
  }

  /** Every message is its kind number and its fields in order. */
  lemma MessageLayout(m: Rpc.Msg)
    ensures var s := Rpc.Encode(m);
            match m
            case GetTask => s == [1]
            case TaskMap(t, a, r, path) =>
              && |s| == 15 + |path| && s[0] == 2 && BigEndian(s[1..5]) == t && BigEndian(s[5..9]) == a
              && BigEndian(s[9..13]) == r && BigEndian(s[13..15]) == |path| && s[15..] == path
            case TaskReduce(t, a, n) =>
              && |s| == 13 && s[0] == 3 && BigEndian(s[1..5]) == t && BigEndian(s[5..9]) == a
              && BigEndian(s[9..13]) == n
            case Wait(ms) => |s| == 5 && s[0] == 4 && BigEndian(s[1..5]) == ms
            case Done => s == [5]
            case TaskDone(t, a, result) =>
              |s| == 10 && s[0] == 6 && BigEndian(s[1..5]) == t && BigEndian(s[5..9]) == a && s[9] == result
            case Ack => s == [7]
  {
    hide PutU32, PutU16, BigEndian;
    var s, body := Rpc.Encode(m), Rpc.Body(m);
    assert s[1..] == body;
    match m
    case TaskMap(t, a, r, path) =>
      Rpc.Fields(PutU32(t), PutU32(a), PutU32(r), PutU16(|path|), path);
      assert s[1..5] == body[0..4] && s[5..9] == body[4..8] && s[9..13] == body[8..12];
      assert s[13..15] == body[12..14] && s[15..] == body[14..];
      NetworkOrder32(t);
      NetworkOrder32(a);
      NetworkOrder32(r);
      NetworkOrder16(|path|);
    case TaskReduce(t, a, n) =>
      assert s[1..5] == PutU32(t) && s[5..9] == PutU32(a) && s[9..13] == PutU32(n);
      NetworkOrder32(t);
      NetworkOrder32(a);
      NetworkOrder32(n);
    case Wait(ms) =>
      assert s[1..5] == PutU32(ms);
      NetworkOrder32(ms);
    case TaskDone(t, a, result) =>
      assert s[1..5] == PutU32(t) && s[5..9] == PutU32(a);
      NetworkOrder32(t);
      NetworkOrder32(a);
    case _ =>
  }
}
