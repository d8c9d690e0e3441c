/** A reduce task from files to output: the growable record list, the reader, the sort and the walk. */
module ReduceRun {
  import opened Bytes
  import opened Text
  import opened MapWorker
  import opened ReduceWorker
  import opened GroupWalk
  import opened WordCount

  class RecordList {
    var records: array<KV>
    var count: nat

    ghost predicate Valid()
      reads this
    {
      INITIAL_CAPACITY <= records.Length && count <= records.Length
    }

    ghost function Contents(): seq<KV>
      requires Valid()
      reads this, records
    {
      records[..count]
    }

    constructor ()
      ensures Valid() && fresh(records) && Contents() == []
    {
      records := new KV[INITIAL_CAPACITY](i => KV([], []));
      count := 0;
    }

    /** Doubles the capacity and keeps the records. */
    method Grow()
      requires Valid()
      modifies this`records
      ensures Valid() && fresh(records) && Contents() == old(Contents())
      ensures records.Length == 2 * old(records.Length)
    {
      var grown := new KV[2 * records.Length](i => KV([], []));
      for i := 0 to count
        invariant records == old(records) && grown[..i] == records[..i]
      {
        grown[i] := records[i];
      }
      records := grown;
    }

    /** Appends a record; the capacity doubles exactly when the list is full. */
    method Push(key: Word, value: seq<byte>)
      requires Valid()
      modifies this, records
      ensures Valid() && Contents() == old(Contents()) + [KV(key, value)]
      ensures if old(count) == old(records.Length) then fresh(records) && records.Length == 2 * old(records.Length)
              else records == old(records)
    {
      if count == records.Length {
        Grow();
      }
      records[count] := KV(key, value);
      count := count + 1;
      assert Contents() == old(Contents()) + [KV(key, value)];
    }

    /** Takes one line buffer: a record, or nothing when it is malformed. */
    method ReadLine(chunk: seq<byte>)
      requires Valid()
      modifies this, records
      ensures Valid() && Contents() == old(Contents()) + ParseLine(chunk)
      ensures fresh(records) || records == old(records)
    {
      hide CString, IndexOf;
      var line := CString(chunk);
      var t := IndexOf(line, TAB);
      if t < |line| && t != 0 {
        var tail := line[t + 1..];
        Push(line[..t], tail[..IndexOf(tail, NL)]);
      } else {
        assert Contents() == Contents() + [];
      }
    }

    /** Reads an intermediate file line buffer by line buffer, skipping malformed lines. */
    method ReadFile(file: seq<byte>)
      requires Valid()
      modifies this, records
      ensures Valid() && Contents() == old(Contents()) + ReadRecords(file)
      ensures fresh(records) || records == old(records)
    {
      hide TakeLen, ParseLine, ReadRecords;
      var rest := file;
      assert [] + ReadRecords(file) == ReadRecords(file);
      ghost var done: seq<KV> := [];
      assert Contents() + [] == Contents();
      while rest != []
        invariant Valid() && (fresh(records) || records == old(records))
        invariant Contents() == old(Contents()) + done
        invariant ReadRecords(file) == done + ReadRecords(rest)
        decreases |rest|
      {
        var n := TakeLen(rest, 0);
        NextLine(rest, n, done);
        Assoc(old(Contents()), done, ParseLine(rest[..n]));
        ReadLine(rest[..n]);
        rest, done := rest[n..], done + ParseLine(rest[..n]);
      }
      NoRecords();
      assert done + [] == done;
    }
  }

  lemma NoRecords()
    ensures ReadRecords([]) == []
  {
  }

  lemma NextLine(rest: seq<byte>, n: nat, done: seq<KV>)
    requires rest != [] && n == TakeLen(rest, 0)
    ensures 0 < n && done + ReadRecords(rest) == done + ParseLine(rest[..n]) + ReadRecords(rest[n..])
  {
    hide ParseLine, TakeLen;
    var first, more := [rest[..n]], Chunks(rest[n..]);
    ChunkRecordsAppend(first, more);
    var none: seq<seq<byte>> := [];
    assert first[1..] == none;
    assert ChunkRecords(first) == ParseLine(rest[..n]) + ChunkRecords(none);
    Assoc(done, ParseLine(rest[..n]), ReadRecords(rest[n..]));
  }

  // ----- the sort -----

  /** A key-ordered permutation, whatever the order of records with equal keys. */
  ghost predicate IsSort(sort: seq<KV> -> seq<KV>) {
    forall s :: multiset(sort(s)) == multiset(s) && SortedByKey(Keys(sort(s)))
  }

  function Insert(r: KV, s: seq<KV>): seq<KV> {
    if s == [] || !Below(s[0].key, r.key) then [r] + s else [s[0]] + Insert(r, s[1..])
  }

  function InsertionSort(s: seq<KV>): seq<KV> {
    if s == [] then [] else Insert(s[0], InsertionSort(s[1..]))
  }

  lemma SortedCons(r: KV, s: seq<KV>)
    requires SortedByKey(Keys(s)) && forall i :: 0 <= i < |s| ==> !Below(s[i].key, r.key)
    ensures SortedByKey(Keys([r] + s))
  {
    hide Below;
    var keys, rest := Keys([r] + s), Keys(s);
    forall i, j | 0 <= i < j < |keys| ensures !Below(keys[j], keys[i]) {
      assert keys[j] == rest[j - 1] && (i > 0 ==> keys[i] == rest[i - 1]);
    }
  }

  lemma NotBelowHead(s: seq<KV>, r: KV, i: nat)
    requires SortedByKey(Keys(s)) && i < |s| && !Below(s[0].key, r.key)
    ensures !Below(s[i].key, r.key)
  {
    hide Below;
    var keys := Keys(s);
    if i > 0 && Below(s[i].key, r.key) {
      assert !Below(keys[i], keys[0]);
      BelowTotal(s[0].key, s[i].key);
      if s[0].key != s[i].key {
        BelowTransitive(s[0].key, s[i].key, r.key);
      }
    }
  }

  lemma {:induction false} InsertBag(r: KV, s: seq<KV>)
    ensures multiset(Insert(r, s)) == multiset([r] + s)
  {
    hide Below;
    if s != [] && Below(s[0].key, r.key) {
      assert s == [s[0]] + s[1..];
      InsertBag(r, s[1..]);
    }
  }

  /** What is inserted behind the head is not below it. */
  lemma InsertedNotBelow(r: KV, s: seq<KV>, i: nat)
    requires s != [] && SortedByKey(Keys(s)) && Below(s[0].key, r.key) && i < |Insert(r, s[1..])|
    ensures !Below(Insert(r, s[1..])[i].key, s[0].key)
  {
    hide Below, Insert;
    var t := Insert(r, s[1..]);
    BelowAsymmetric(s[0].key, r.key);
    InsertBag(r, s[1..]);
    assert t[i] in multiset(t);
    if t[i] != r {
      var j :| 1 <= j < |s| && s[j] == t[i];
      assert !Below(Keys(s)[j], Keys(s)[0]);
    }
  }

  lemma {:induction false} InsertSorted(r: KV, s: seq<KV>)
    requires SortedByKey(Keys(s))
    ensures SortedByKey(Keys(Insert(r, s)))
  {
    hide Below;
    if s != [] && Below(s[0].key, r.key) {
      assert Keys(s[1..]) == Keys(s)[1..];
      InsertSorted(r, s[1..]);
      var t := Insert(r, s[1..]);
      forall i | 0 <= i < |t| ensures !Below(t[i].key, s[0].key) {
        InsertedNotBelow(r, s, i);
      }
      SortedCons(s[0], t);
    } else {
      forall i | 0 <= i < |s| ensures !Below(s[i].key, r.key) {
        NotBelowHead(s, r, i);
      }
      SortedCons(r, s);
    }
  }

  lemma BelowAsymmetric(a: Word, b: Word)
    requires Below(a, b)
    ensures !Below(b, a)
  {
    if Below(b, a) {
      BelowTransitive(a, b, a);
      BelowIrreflexive(a);
    }
  }

  lemma {:induction false} InsertionSorts(s: seq<KV>)
    ensures multiset(InsertionSort(s)) == multiset(s) && SortedByKey(Keys(InsertionSort(s)))
  {
    hide Insert, SortedByKey;
    if s == [] {
      EmptySorted();
    } else {
      InsertionSorts(s[1..]);
      InsertBag(s[0], InsertionSort(s[1..]));
      InsertSorted(s[0], InsertionSort(s[1..]));
      assert s == [s[0]] + s[1..];
    }
  }

  lemma EmptySorted()
    ensures SortedByKey(Keys([]))
  {
  }

  /** Qualified sorts exist. */
  lemma SortExists()
    ensures IsSort(InsertionSort)
  {
    forall s ensures multiset(InsertionSort(s)) == multiset(s) && SortedByKey(Keys(InsertionSort(s))) {
      InsertionSorts(s);
    }
  }

  lemma {:induction false} WalkTo(keys: seq<Word>, i: nat) returns (out: seq<Entry>, cur: Word, n: nat)
    requires SortedByKey(keys) && i <= |keys|
    ensures Walked(keys, i, out, cur, n)
  {
    hide IsCount, SortedByKey, Below;
    EmptyCount();
    if i == 0 {
      out, cur, n := [], [], 0;
    } else {
      out, cur, n := WalkTo(keys, i - 1);
      if n == 0 {
        cur, n := keys[0], 1;
      } else if keys[i - 1] == cur {
        n := n + 1;
      } else {
        NextGroup(keys, i - 1, out, cur, n);
        out, cur, n := out + [Entry(cur, n)], keys[i - 1], 1;
      }
    }
  }

  /** Every bag of keys has a word count. */
  lemma CountExists(keys: seq<Word>) returns (out: seq<Entry>)
    ensures IsCount(out, multiset(keys))
  {
    hide IsCount, SortedByKey, InsertionSort;
    var records := seq(|keys|, i requires 0 <= i < |keys| => KV(keys[i], []));
    assert Keys(records) == keys;
    InsertionSorts(records);
    KeysPermutation(InsertionSort(records), records);
    var sorted := Keys(InsertionSort(records));
    var cur, n;
    out, cur, n := WalkTo(sorted, |sorted|);
    assert sorted[..|sorted|] == sorted;
    if n > 0 {
      GroupEnds(sorted, |sorted|, out, cur, n);
      out := out + [Entry(cur, n)];
    }
  }

  // ----- a reduce task -----

  function AllRecords(files: seq<seq<byte>>): seq<KV> {
    if files == [] then [] else AllRecords(files[..|files| - 1]) + ReadRecords(files[|files| - 1])
  }

  /** Runs a reduce task on its files: it publishes exactly when no key has too many values, and
      then publishes the word count of all keys read. */
  method Reduce(files: seq<seq<byte>>, sort: seq<KV> -> seq<KV>)
    returns (ok: bool, out: seq<byte>, ghost entries: seq<Entry>)
    requires IsSort(sort)
    ensures ok <==> WithinLimit(multiset(Keys(AllRecords(files))))
    ensures ok ==> IsCount(entries, multiset(Keys(AllRecords(files))))
    ensures ok ==> out == Render(entries) && ReadOut(out) == entries
  {
    hide ReadRecords, WithinLimit, IsCount, SortedByKey, ReadOut, Render;
    var list := new RecordList();
    for x := 0 to |files|
      invariant list.Valid() && fresh(list) && fresh(list.records) && list.Contents() == AllRecords(files[..x])
    {
      assert files[..x + 1][..x] == files[..x];
      list.ReadFile(files[x]);
    }
    assert files[..|files|] == files;
    var sorted := sort(list.records[..list.count]);
    KeysPermutation(sorted, AllRecords(files));
    var es;
    ok, es := Walk(sorted);
    entries := es;
    out := Render(es);
    if ok {
      AllKeysLine(files);
      CountedKeys(es, AllRecords(files));
      ReadRendered(es);
    }
  }

  lemma {:induction false} AllKeysLine(files: seq<seq<byte>>)
    ensures forall r :: r in AllRecords(files) ==> LineKey(r.key)
  {
    hide ReadRecords;
    if files != [] {
      AllKeysLine(files[..|files| - 1]);
      ReadKeys(files[|files| - 1]);
    }
  }

  lemma CountedKeys(out: seq<Entry>, records: seq<KV>)
    requires IsCount(out, multiset(Keys(records))) && forall r :: r in records ==> LineKey(r.key)
    ensures forall e :: e in out ==> LineKey(e.key)
  {
    hide LineKey, Increasing;
    forall e | e in out ensures LineKey(e.key) {
      var i :| 0 <= i < |out| && out[i] == e;
      assert e.key in multiset(Keys(records));
      var j :| 0 <= j < |records| && Keys(records)[j] == e.key;
      assert records[j] in records;
    }
  }

  /** Given the published partitions of all splits, a reduce task counts the words of its partition. */
  lemma {:induction false} ReadsPartition(splits: seq<seq<byte>>, n: nat, y: nat, R: nat, files: seq<seq<byte>>)
    requires n <= |splits| && R > 0 && |files| == n
    requires forall x :: 0 <= x < n ==> files[x] == PartBytes(MapTokens(splits[x]), y, R)
    ensures Keys(AllRecords(files)) == ReduceKeys(splits, n, y, R)
  {
    hide MapTokens, PartBytes, ReadRecords, KeptTokens;
    if n > 0 {
      ReadsPartition(splits, n - 1, y, R, files[..n - 1]);
      TokensAreTokens(splits[n - 1]);
      PartitionReadBack(MapTokens(splits[n - 1]), y, R);
      var a, b := AllRecords(files[..n - 1]), ReadRecords(files[n - 1]);
      assert Keys(a + b) == Keys(a) + Keys(b);
    }
  }
}
