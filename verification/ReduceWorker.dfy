/** The reduce side: reading intermediate files, sorting, and the group walk. */
module ReduceWorker {
  import opened Bytes
  import opened Text
  import opened MapWorker

  const MAX_VALUES: nat := 1024
  const INITIAL_CAPACITY: nat := 4

  /** A record of an intermediate file. Word count never looks at the value. */
  datatype KV = KV(key: Word, value: seq<byte>)

  // ----- reading records -----

  /** The first position of b in s, or |s|. */
  function IndexOf(s: seq<byte>, b: byte): (n: nat)
    ensures n <= |s| && (n < |s| ==> s[n] == b)
    ensures b !in s[..n]
  {
    if s == [] || s[0] == b then 0 else 1 + IndexOf(s[1..], b)
  }

  /** One buffer of an intermediate file: a record, or nothing when there is no tab or no key. */
  function ParseLine(chunk: seq<byte>): seq<KV> {
    var line := CString(chunk);
    var t := IndexOf(line, TAB);
    if t == |line| || t == 0 then []
    else
      var rest := line[t + 1..];
      [KV(line[..t], rest[..IndexOf(rest, NL)])]
  }

  function ChunkRecords(chunks: seq<seq<byte>>): seq<KV> {
    if chunks == [] then [] else ParseLine(chunks[0]) + ChunkRecords(chunks[1..])
  }

  function ReadRecords(file: seq<byte>): seq<KV> {
    ChunkRecords(Chunks(file))
  }

  function Keys(records: seq<KV>): (keys: seq<Word>)
    ensures |keys| == |records|
  {
    seq(|records|, i requires 0 <= i < |records| => records[i].key)
  }

  lemma {:induction false} ChunkRecordsAppend(a: seq<seq<byte>>, b: seq<seq<byte>>)
    ensures ChunkRecords(a + b) == ChunkRecords(a) + ChunkRecords(b)
  {
    if a == [] {
      assert a + b == b;
    } else {
      assert (a + b)[1..] == a[1..] + b;
      ChunkRecordsAppend(a[1..], b);
    }
  }

  // ----- what is read back of what the map side wrote -----

  /** Empty, or ending in a newline. */
  predicate WholeLines(s: seq<byte>) {
    s != [] ==> s[|s| - 1] == NL
  }

  lemma {:induction false} TakeLenPrefix(a: seq<byte>, b: seq<byte>, i: nat)
    requires a != [] && WholeLines(a) && i < |a| && i <= TAKE && forall j :: 0 <= j < i ==> a[j] != NL
    ensures TakeLen(a + b, i) == TakeLen(a, i)
    decreases |a| - i
  {
    assert forall j :: 0 <= j < |a| ==> (a + b)[j] == a[j];
    if i < TAKE && a[i] != NL {
      TakeLenPrefix(a, b, i + 1);
    }
  }

  /** What precedes a line end does not change how the rest is buffered. */
  lemma {:induction false} ChunksAppend(a: seq<byte>, b: seq<byte>)
    requires WholeLines(a)
    ensures Chunks(a + b) == Chunks(a) + Chunks(b)
    decreases |a|
  {
    if a == [] {
      assert a + b == b;
    } else {
      TakeLenPrefix(a, b, 0);
      var n := TakeLen(a, 0);
      assert (a + b)[..n] == a[..n] && (a + b)[n..] == a[n..] + b;
      ChunksAppend(a[n..], b);
      assert [a[..n]] + (Chunks(a[n..]) + Chunks(b)) == ([a[..n]] + Chunks(a[n..])) + Chunks(b);
    }
  }

  lemma {:induction false} TakeLenOfLine(s: seq<byte>, i: nat)
    requires s != [] && s[|s| - 1] == NL && (forall j :: 0 <= j < |s| - 1 ==> s[j] != NL)
    requires i < |s| && i <= TAKE
    ensures TakeLen(s, i) == if |s| <= TAKE then |s| else TAKE
    decreases |s| - i
  {
    if i < TAKE && i < |s| - 1 {
      TakeLenOfLine(s, i + 1);
    }
  }

  lemma ChunksOfRecordLine(w: Word)
    requires IsToken(w)
    ensures var s := RecordLine(w);
            WholeLines(s) && Chunks(s) == if |s| <= TAKE then [s] else [s[..TAKE], s[TAKE..]]
  {
    var s := RecordLine(w);
    TakeLenOfLine(s, 0);
    if |s| <= TAKE {
      assert s[..|s|] == s && s[|s|..] == [];
    } else {
      var t := s[TAKE..];
      TakeLenOfLine(t, 0);
      assert t[..|t|] == t && t[|t|..] == [];
      assert Chunks(t) == [t];
    }
  }

  lemma {:induction false} IndexOfAt(s: seq<byte>, b: byte, n: nat)
    requires n <= |s| && b !in s[..n] && (n < |s| ==> s[n] == b)
    ensures IndexOf(s, b) == n
  {
    if n > 0 {
      assert s[..n][0] == s[0];
      assert s[1..][..n - 1] == s[..n][1..];
      IndexOfAt(s[1..], b, n - 1);
    }
  }

  /** The words the reader keeps. */
  predicate Kept(w: Word) {
    |w| <= TAKE - 1
  }

  lemma NoTabNoRecord(chunk: seq<byte>)
    requires NUL !in chunk && (TAB !in chunk || chunk[0] == TAB)
    ensures ParseLine(chunk) == []
  {
    IndexOfAt(chunk, TAB, if TAB !in chunk then |chunk| else 0);
  }

  /** The record line read through the buffer, split or not. */
  lemma RecordChunks(w: Word)
    requires IsToken(w)
    ensures var s := RecordLine(w);
            if |s| <= TAKE then ReadRecords(s) == ParseLine(s)
            else ReadRecords(s) == ParseLine(s[..TAKE]) + ParseLine(s[TAKE..])
  {
    var s := RecordLine(w);
    ChunksOfRecordLine(w);
    hide ParseLine, RecordLine, Chunks;
    if |s| <= TAKE {
      OneChunk(s);
    } else {
      TwoChunks(s[..TAKE], s[TAKE..]);
    }
  }

  lemma SplitRecord(w: Word)
    requires IsToken(w) && |RecordLine(w)| > TAKE
    ensures var s := RecordLine(w);
            Keys(ParseLine(s[..TAKE]) + ParseLine(s[TAKE..])) == if Kept(w) then [w] else []
  {
    var s := RecordLine(w);
    var a, b := s[..TAKE], s[TAKE..];
    assert NUL !in [TAB, ONE, NL];
    if |w| == TAKE {
      assert a == w && b == [TAB, ONE, NL];
      NoTabNoRecord(a);
      NoTabNoRecord(b);
    } else {
      var tail := [TAB, ONE, NL];
      assert a == w + tail[..TAKE - |w|] && b == tail[TAKE - |w|..];
      ParseWhole(w, tail[..TAKE - |w|]);
      NoTabNoRecord(b);
    }
    hide ParseLine;
  }

  /** A written record is read back as one record with its key, whatever the buffer does to the
      end of its line, unless the key alone fills the buffer; then it is lost. */
  lemma RecordReadBack(w: Word)
    requires IsToken(w)
    ensures Keys(ReadRecords(RecordLine(w))) == if Kept(w) then [w] else []
  {
    RecordChunks(w);
    if |RecordLine(w)| <= TAKE {
      ParseWhole(w, [TAB, ONE, NL]);
    } else {
      SplitRecord(w);
    }
    hide ParseLine, ReadRecords;
  }

  lemma ParseWhole(w: Word, tail: seq<byte>)
    requires IsToken(w) && tail != [] && tail[0] == TAB && NUL !in tail
    ensures |ParseLine(w + tail)| == 1 && ParseLine(w + tail)[0].key == w
  {
    var line := w + tail;
    assert NUL !in line;
    assert line[..|w|] == w && TAB !in w;
    IndexOfAt(line, TAB, |w|);
  }

  /** A written record whose line fits the buffer reads back with its key and the value "1". */
  lemma WholeRecordReadBack(w: Word)
    requires IsToken(w) && |w| <= 8188
    ensures ReadRecords(RecordLine(w)) == [KV(w, [49])]
  {
    RecordChunks(w);
    var line := RecordLine(w);
    assert NUL !in line;
    assert line[..|w|] == w && TAB !in w;
    IndexOfAt(line, TAB, |w|);
    var rest := line[|w| + 1..];
    assert rest == [49, NL];
    IndexOfAt(rest, NL, 1);
    assert rest[..1] == [49];
  }

  /** A buffer holds a record exactly when it has a tab behind at least one byte and before any NUL;
      the key is what stands in front of the first such tab. */
  lemma RecordIffTab(chunk: seq<byte>, t: nat)
    requires t <= |chunk| && (forall j :: 0 <= j < t ==> chunk[j] != 9 && chunk[j] != 0)
    requires t < |chunk| ==> chunk[t] == 9 || chunk[t] == 0
    ensures |ParseLine(chunk)| == if 0 < t < |chunk| && chunk[t] == 9 then 1 else 0
    ensures ParseLine(chunk) != [] ==> ParseLine(chunk)[0].key == chunk[..t]
  {
    var line := CString(chunk);
    assert t <= |line|;
    assert t < |line| ==> line[t] == chunk[t] && chunk[t] in line;
    assert forall j :: 0 <= j < t ==> line[j] == chunk[j];
    IndexOfAt(line, TAB, t);
  }

  lemma OneChunk(a: seq<byte>)
    ensures ChunkRecords([a]) == ParseLine(a)
  {
    var none: seq<seq<byte>> := [];
    assert [a][1..] == none;
    assert ChunkRecords([a]) == ParseLine(a) + ChunkRecords(none);
  }

  lemma TwoChunks(a: seq<byte>, b: seq<byte>)
    ensures ChunkRecords([a, b]) == ParseLine(a) + ParseLine(b)
  {
    OneChunk(b);
    assert [a, b][1..] == [b];
  }

  /** The tokens of partition y that survive the reader, in order. */
  function KeptTokens(tokens: seq<Word>, y: nat, R: nat): seq<Word>
    requires R > 0
  {
    if tokens == [] then []
    else
      var w := tokens[|tokens| - 1];
      KeptTokens(tokens[..|tokens| - 1], y, R) + if Partition(w, R) == y && Kept(w) then [w] else []
  }

  lemma ReadAppend(a: seq<byte>, b: seq<byte>)
    requires WholeLines(a)
    ensures Keys(ReadRecords(a + b)) == Keys(ReadRecords(a)) + Keys(ReadRecords(b))
  {
    hide Chunks, ChunkRecords, ParseLine;
    ChunksAppend(a, b);
    ChunkRecordsAppend(Chunks(a), Chunks(b));
  }

  /** Reading a partition gives back its tokens in order, but for those that fill the buffer. */
  lemma {:induction false} PartitionReadBack(tokens: seq<Word>, y: nat, R: nat)
    requires R > 0 && forall w :: w in tokens ==> IsToken(w)
    ensures WholeLines(PartBytes(tokens, y, R))
    ensures Keys(ReadRecords(PartBytes(tokens, y, R))) == KeptTokens(tokens, y, R)
  {
    hide ReadRecords, Keys, IsToken;
    if tokens == [] {
      NothingRead();
    } else {
      var init, w := tokens[..|tokens| - 1], tokens[|tokens| - 1];
      PartitionReadBack(init, y, R);
      var part := PartBytes(init, y, R);
      if Partition(w, R) == y {
        ReadAppend(part, RecordLine(w));
        RecordReadBack(w);
      } else {
        assert part + [] == part;
      }
    }
  }

  lemma NothingRead()
    ensures Keys(ReadRecords([])) == []
  {
  }

  // ----- keys of any file -----

  lemma ParsedKey(chunk: seq<byte>)
    requires forall j :: 0 <= j < |chunk| - 1 ==> chunk[j] != NL
    ensures forall r :: r in ParseLine(chunk) ==> r.key != [] && TAB !in r.key && NL !in r.key
  {
    hide CString;
    var line := CString(chunk);
    var t := IndexOf(line, TAB);
    assert t < |line| ==> NL !in line[..t];
  }

  /** Whatever the file, no record read from it has an empty key or a tab or newline in its key. */
  lemma {:induction false} ReadKeys(file: seq<byte>)
    ensures forall r :: r in ReadRecords(file) ==> r.key != [] && TAB !in r.key && NL !in r.key
    decreases |file|
  {
    hide ParseLine;
    if file != [] {
      var n := TakeLen(file, 0);
      ParsedKey(file[..n]);
      ReadKeys(file[n..]);
      assert Chunks(file)[0] == file[..n] && Chunks(file)[1..] == Chunks(file[n..]);
    }
  }
}
