/** The word count a finished job must hold, and when it is the word count of the text. */
module WordCount {
  import opened Bytes
  import opened Text
  import opened MapWorker
  import opened ReduceWorker
  import opened GroupWalk

  // ----- partitions and the whole -----

  /** What the reducer of partition y reads from splits 0 .. n-1, in reading order. */
  function ReduceKeys(splits: seq<seq<byte>>, n: nat, y: nat, R: nat): seq<Word>
    requires n <= |splits| && R > 0
  {
    if n == 0 then [] else ReduceKeys(splits, n - 1, y, R) + KeptTokens(MapTokens(splits[n - 1]), y, R)
  }

  function PartitionBag(splits: seq<seq<byte>>, y: nat, R: nat): multiset<Word>
    requires R > 0
  {
    multiset(ReduceKeys(splits, |splits|, y, R))
  }

  function KeptOnly(tokens: seq<Word>): seq<Word> {
    if tokens == [] then []
    else
      var w := tokens[|tokens| - 1];
      KeptOnly(tokens[..|tokens| - 1]) + if Kept(w) then [w] else []
  }

  /** All tokens of the job that survive the reader. */
  function JobTokens(splits: seq<seq<byte>>, n: nat): seq<Word>
    requires n <= |splits|
  {
    if n == 0 then [] else JobTokens(splits, n - 1) + KeptOnly(MapTokens(splits[n - 1]))
  }

  /** All words of the texts. */
  function JobWords(splits: seq<seq<byte>>, n: nat): seq<Word>
    requires n <= |splits|
  {
    if n == 0 then [] else JobWords(splits, n - 1) + Words(splits[n - 1])
  }

  lemma {:induction false} KeptTokensCount(tokens: seq<Word>, y: nat, R: nat, w: Word)
    requires R > 0
    ensures multiset(KeptTokens(tokens, y, R))[w] == if Partition(w, R) == y then multiset(KeptOnly(tokens))[w] else 0
  {
    if tokens != [] {
      KeptTokensCount(tokens[..|tokens| - 1], y, R, w);
    }
  }

  lemma {:induction false} ReduceKeysCount(splits: seq<seq<byte>>, n: nat, y: nat, R: nat, w: Word)
    requires n <= |splits| && R > 0
    ensures multiset(ReduceKeys(splits, n, y, R))[w] ==
            if Partition(w, R) == y then multiset(JobTokens(splits, n))[w] else 0
  {
    hide MapTokens, KeptTokens, KeptOnly, Partition;
    if n > 0 {
      ReduceKeysCount(splits, n - 1, y, R, w);
      KeptTokensCount(MapTokens(splits[n - 1]), y, R, w);
    }
  }

  /** The file of partition y holds each word of the bag that belongs there, in key order, with
      its number of occurrences, and nothing else. */
  ghost predicate PartOk(out: seq<Entry>, y: nat, R: nat, bag: multiset<Word>)
    requires R > 0
  {
    && Increasing(out)
    && (forall i :: 0 <= i < |out| ==> Partition(out[i].key, R) == y && 0 < out[i].count == bag[out[i].key])
    && (forall w :: w in bag && Partition(w, R) == y ==> exists i :: 0 <= i < |out| && out[i].key == w)
  }

  /** The R output files together hold the word count of the bag, each word in one file only. */
  ghost predicate IsWordCount(outs: seq<seq<Entry>>, bag: multiset<Word>) {
    |outs| > 0 && forall y :: 0 <= y < |outs| ==> PartOk(outs[y], y, |outs|, bag)
  }

  lemma PartitionBagAt(splits: seq<seq<byte>>, y: nat, R: nat, w: Word)
    requires R > 0
    ensures PartitionBag(splits, y, R)[w] ==
            if Partition(w, R) == y then multiset(JobTokens(splits, |splits|))[w] else 0
  {
    ReduceKeysCount(splits, |splits|, y, R, w);
  }

  /** Correct partitions make a correct whole. */
  lemma PartitionCount(splits: seq<seq<byte>>, y: nat, R: nat, out: seq<Entry>)
    requires y < R && IsCount(out, PartitionBag(splits, y, R))
    ensures PartOk(out, y, R, multiset(JobTokens(splits, |splits|)))
  {
    hide PartitionBag, Partition, JobTokens, Increasing;
    var part, all := PartitionBag(splits, y, R), multiset(JobTokens(splits, |splits|));
    forall i | 0 <= i < |out| ensures Partition(out[i].key, R) == y && 0 < out[i].count == all[out[i].key] {
      PartitionBagAt(splits, y, R, out[i].key);
      assert out[i].count == part[out[i].key];
    }
    forall w | w in all && Partition(w, R) == y ensures exists i :: 0 <= i < |out| && out[i].key == w {
      PartitionBagAt(splits, y, R, w);
      assert w in part;
    }
  }

  /** The output determines the bag it counts. */
  lemma BagDetermined(outs: seq<seq<Entry>>, b: multiset<Word>, c: multiset<Word>)
    requires IsWordCount(outs, b) && IsWordCount(outs, c)
    ensures b == c
  {
    hide Partition, Increasing;
    forall w ensures b[w] == c[w] {
      var y := Partition(w, |outs|);
      assert PartOk(outs[y], y, |outs|, b) && PartOk(outs[y], y, |outs|, c);
      if i :| 0 <= i < |outs[y]| && outs[y][i].key == w {
        assert outs[y][i].count == b[w];
      } else {
        assert w !in b && w !in c;
      }
    }
  }

  // ----- when the tokens are the words -----

  /** What the text must satisfy for the pipeline to count its words. */
  predicate Countable(s: seq<byte>) {
    NUL !in s && Cuts(s) == 0 && forall w :: w in Words(s) ==> Kept(w)
  }

  /** Total length of a list of words. */
  function TotalLen(ws: seq<Word>): nat {
    if ws == [] then 0 else TotalLen(ws[..|ws| - 1]) + |ws[|ws| - 1]|
  }

  lemma {:induction false} TotalLenAppend(a: seq<Word>, b: seq<Word>)
    ensures TotalLen(a + b) == TotalLen(a) + TotalLen(b)
  {
    if b == [] {
      assert a + b == a;
    } else {
      assert (a + b)[..|a + b| - 1] == a + b[..|b| - 1];
      TotalLenAppend(a, b[..|b| - 1]);
    }
  }

  lemma TotalLenRemove(b: seq<Word>, j: nat)
    requires j < |b|
    ensures TotalLen(b) == TotalLen(b[..j] + b[j + 1..]) + |b[j]|
  {
    TotalLenAppend(b[..j], b[j + 1..]);
    TotalLenAppend(b[..j] + [b[j]], b[j + 1..]);
    TotalLenAppend(b[..j], [b[j]]);
    assert b == b[..j] + [b[j]] + b[j + 1..];
    assert TotalLen([b[j]]) == |b[j]|;
  }

  lemma {:induction false} TotalLenBag(a: seq<Word>, b: seq<Word>)
    requires multiset(a) == multiset(b)
    ensures TotalLen(a) == TotalLen(b)
  {
    assert |multiset(a)| == |multiset(b)|;
    if a != [] {
      var n := |a| - 1;
      var j := MatchLast(a, b);
      TotalLenBag(a[..n], b[..j] + b[j + 1..]);
      TotalLenRemove(b, j);
    }
  }

  lemma {:induction false} WordsTotal(s: seq<byte>)
    ensures TotalLen(Words(s)) == NonSeps(s)
    decreases |s|
  {
    if s != [] {
      if IsSep(s[0]) {
        WordsTotal(s[1..]);
      } else {
        var n := RunLen(s);
        WordsTotal(s[n..]);
        TotalLenAppend([s[..n]], Words(s[n..]));
        assert TotalLen([s[..n]]) == n;
        NonSepsRun(s, n);
      }
    }
  }

  /** Number of non-separator bytes. */
  function NonSeps(s: seq<byte>): nat {
    if s == [] then 0 else (if IsSep(s[0]) then 0 else 1) + NonSeps(s[1..])
  }

  lemma {:induction false} NonSepsRun(s: seq<byte>, n: nat)
    requires n <= |s| && forall i :: 0 <= i < n ==> !IsSep(s[i])
    ensures NonSeps(s) == n + NonSeps(s[n..])
  {
    if n > 0 {
      NonSepsRun(s[1..], n - 1);
      assert s[1..][n - 1..] == s[n..];
    }
  }

  lemma {:induction false} NonSepsAppend(a: seq<byte>, b: seq<byte>)
    ensures NonSeps(a + b) == NonSeps(a) + NonSeps(b)
  {
    if a == [] {
      assert a + b == b;
    } else {
      assert (a + b)[1..] == a[1..] + b;
      NonSepsAppend(a[1..], b);
    }
  }

  lemma NoTokens()
    ensures MapTokens([]) == [] && Words([]) == []
  {
  }

  /** Cutting words loses no bytes. */
  lemma {:induction false} TokensTotal(file: seq<byte>)
    requires NUL !in file
    ensures TotalLen(MapTokens(file)) == TotalLen(Words(file))
    decreases |file|
  {
    hide Words, MapTokens, NonSeps, TotalLen;
    WordsTotal(file);
    if file == [] {
      NoTokens();
    } else {
      var n := TakeLen(file, 0);
      MapTokensStep(file);
      TokensTotal(file[n..]);
      TotalLenAppend(Words(file[..n]), MapTokens(file[n..]));
      WordsTotal(file[..n]);
      WordsTotal(file[n..]);
      NonSepsAppend(file[..n], file[n..]);
      assert file == file[..n] + file[n..];
    }
  }

  lemma {:induction false} KeptOnlyTotal(tokens: seq<Word>)
    ensures TotalLen(KeptOnly(tokens)) <= TotalLen(tokens) && |KeptOnly(tokens)| <= |tokens|
    ensures TotalLen(KeptOnly(tokens)) == TotalLen(tokens) ==> KeptOnly(tokens) == tokens
    ensures KeptOnly(tokens) == tokens <==> forall w :: w in tokens ==> Kept(w)
  {
    if tokens != [] {
      var init, w := tokens[..|tokens| - 1], tokens[|tokens| - 1];
      KeptOnlyTotal(init);
      assert tokens == init + [w];
      TotalLenAppend(KeptOnly(init), if Kept(w) then [w] else []);
    }
  }

  /** One text: dropping long tokens loses bytes, cutting words adds tokens. */
  lemma SplitTotals(s: seq<byte>)
    requires NUL !in s
    ensures var t, w := KeptOnly(MapTokens(s)), Words(s);
            && TotalLen(t) <= TotalLen(w)
            && (TotalLen(t) == TotalLen(w) ==> |t| >= |w| && (|t| == |w| ==> Countable(s)))
            && (Countable(s) ==> t == w)
  {
    TokensTotal(s);
    TokensCount(s);
    KeptOnlyTotal(MapTokens(s));
    hide MapTokens, Words, TotalLen, KeptOnly, Cuts;
  }

  predicate AllCountable(splits: seq<seq<byte>>, n: nat)
    requires n <= |splits|
  {
    forall x :: 0 <= x < n ==> Countable(splits[x])
  }

  lemma AllCountableStep(splits: seq<seq<byte>>, n: nat)
    requires 0 < n <= |splits|
    ensures AllCountable(splits, n) <==> AllCountable(splits, n - 1) && Countable(splits[n - 1])
  {
    hide Countable;
  }

  lemma NoSplits(splits: seq<seq<byte>>)
    ensures AllCountable(splits, 0) && TotalLen([]) == 0
  {
  }

  /** The first n texts, as one comparison of totals. */
  lemma {:induction false} JobTotals(splits: seq<seq<byte>>, n: nat)
    requires n <= |splits| && forall x :: 0 <= x < n ==> NUL !in splits[x]
    ensures var t, w := JobTokens(splits, n), JobWords(splits, n);
            && TotalLen(t) <= TotalLen(w)
            && (TotalLen(t) == TotalLen(w) ==> |t| >= |w| && (|t| == |w| ==> AllCountable(splits, n)))
            && (AllCountable(splits, n) ==> t == w)
  {
    hide MapTokens, Words, TotalLen, KeptOnly, AllCountable, Countable;
    if n == 0 {
      NoSplits(splits);
    } else {
      var s := splits[n - 1];
      JobTotals(splits, n - 1);
      SplitTotals(s);
      AllCountableStep(splits, n);
      TotalLenAppend(JobTokens(splits, n - 1), KeptOnly(MapTokens(s)));
      TotalLenAppend(JobWords(splits, n - 1), Words(s));
    }
  }

  lemma {:induction false} JobTokensAreTokens(splits: seq<seq<byte>>, n: nat, w: Word)
    requires n <= |splits| && w in JobTokens(splits, n)
    ensures IsToken(w)
  {
    var last := MapTokens(splits[n - 1]);
    if w in KeptOnly(last) {
      KeptOnlySubset(last, w);
      TokensAreTokens(splits[n - 1]);
    } else {
      JobTokensAreTokens(splits, n - 1, w);
    }
  }

  lemma {:induction false} KeptOnlySubset(tokens: seq<Word>, w: Word)
    requires w in KeptOnly(tokens)
    ensures w in tokens
  {
    if !(Kept(tokens[|tokens| - 1]) && w == tokens[|tokens| - 1]) {
      KeptOnlySubset(tokens[..|tokens| - 1], w);
    }
  }

  lemma {:induction false} JobWordsSuperset(splits: seq<seq<byte>>, n: nat, x: nat, w: Word)
    requires x < n <= |splits| && w in Words(splits[x])
    ensures w in JobWords(splits, n)
  {
    if x < n - 1 {
      JobWordsSuperset(splits, n - 1, x, w);
    }
  }

  /** What a finished job counts is the words of the texts exactly when every text is free of NULs,
      no word straddles two line buffers, and no word fills a buffer. */
  lemma CountsTheWordsIff(splits: seq<seq<byte>>)
    ensures multiset(JobTokens(splits, |splits|)) == multiset(JobWords(splits, |splits|)) <==>
      AllCountable(splits, |splits|)
  {
    var n := |splits|;
    var t, w := JobTokens(splits, n), JobWords(splits, n);
    if x :| 0 <= x < n && NUL in splits[x] {
      WordsCover(splits[x], NUL);
      var v :| v in Words(splits[x]) && NUL in v;
      JobWordsSuperset(splits, n, x, v);
      assert v in multiset(w);
      if v in t {
        JobTokensAreTokens(splits, n, v);
      }
      assert v !in multiset(t);
    } else {
      JobTotals(splits, n);
      SameBagSameLength(t, w);
      hide JobTokens, JobWords, TotalLen, AllCountable;
      if multiset(t) == multiset(w) {
        TotalLenBag(t, w);
      }
    }
  }

  /** Ordinary text is countable: no NULs, a newline in every buffer's worth of bytes, and words of
      at most 8190 bytes. */
  lemma OrdinaryTextCounts(s: seq<byte>)
    requires NUL !in s && LinesFit(s) && forall w :: w in Words(s) ==> |w| <= 8190
    ensures Countable(s)
  {
    LinesFitNoCuts(s);
  }

  /** A word that fills a line buffer is emitted and then lost by the reader. */
  lemma FullBufferWordIsLost(w: Word)
    requires |w| == TAKE && IsToken(w)
    ensures JobTokens([w], 1) == [] && JobWords([w], 1) == [w] && !Countable(w)
  {
    assert RunLen(w) == TAKE;
    assert w[TAKE..] == [] && w[..TAKE] == w;
    assert Words(w) == [w];
    TakeLenOfWord(w, 0);
    assert Chunks(w) == [w];
    assert CString(w) == w;
    var none: seq<seq<byte>> := [];
    assert [w][1..] == none;
    assert MapTokens(w) == Words(w) + LineTokens(none);
    assert KeptOnly([w]) == [] by {
      assert [w][..0] == [];
    }
  }

  lemma {:induction false} TakeLenOfWord(w: Word, i: nat)
    requires i <= |w| <= TAKE && forall j :: 0 <= j < |w| ==> w[j] != NL
    ensures TakeLen(w, i) == |w|
    decreases |w| - i
  {
    if i < |w| {
      TakeLenOfWord(w, i + 1);
    }
  }
}
