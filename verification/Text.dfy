/** How the workers read text: buffered lines, C strings, words. */
module Text {
  import opened Bytes

  const NUL: byte := 0
  const TAB: byte := 9
  const NL: byte := 10
  const CR: byte := 13
  const SPACE: byte := 32

  /** What one `fgets` on an 8192-byte buffer can take; the last byte of the buffer is the NUL. */
  const TAKE: nat := 8191

  type Word = seq<byte>

  predicate IsSep(b: byte) {
    b == SPACE || b == TAB || b == NL || b == CR
  }

  /** The separators are the four characters the tokenizer splits at. */
  lemma Separators(b: byte)
    ensures IsSep(b) <==> b as char in " \t\n\r"
  {
    assert " \t\n\r" == [' ', '\t', '\n', '\r'];
  }

  // ----- words of a text -----

  /** The length of the separator-free run at the front of s. */
  function RunLen(s: seq<byte>): (n: nat)
    ensures n <= |s|
    ensures forall i :: 0 <= i < n ==> !IsSep(s[i])
    ensures n < |s| ==> IsSep(s[n])
  {
    if s == [] || IsSep(s[0]) then 0 else 1 + RunLen(s[1..])
  }

  /** The words of a text: its maximal separator-free runs, in order. */
  function Words(s: seq<byte>): seq<Word>
    decreases |s|
  {
    if s == [] then []
    else if IsSep(s[0]) then Words(s[1..])
    else [s[..RunLen(s)]] + Words(s[RunLen(s)..])
  }

  predicate CutsWord(a: seq<byte>, b: seq<byte>) {
    a != [] && b != [] && !IsSep(a[|a| - 1]) && !IsSep(b[0])
  }

  lemma {:induction false} RunLenAppend(a: seq<byte>, b: seq<byte>)
    ensures RunLen(a + b) == if RunLen(a) < |a| then RunLen(a) else |a| + RunLen(b)
  {
    if a == [] {
      assert a + b == b;
    } else {
      assert (a + b)[1..] == a[1..] + b;
      RunLenAppend(a[1..], b);
    }
  }

  lemma WordsSkip(s: seq<byte>)
    requires s != [] && !IsSep(s[0])
    ensures Words(s) == [s[..RunLen(s)]] + Words(s[RunLen(s)..])
  {
  }

  lemma WordsOfRun(a: seq<byte>, b: seq<byte>)
    requires a != [] && RunLen(a) == |a|
    ensures Words(a) == [a]
    ensures Words(a + b) == [a + b[..RunLen(b)]] + Words(b[RunLen(b)..])
  {
    hide Words, RunLen;
    RunLenAppend(a, b);
    WordsSkip(a);
    WordsSkip(a + b);
    WordsSep([]);
    var k := RunLen(b);
    assert (a + b)[..|a| + k] == a + b[..k] && (a + b)[|a| + k..] == b[k..];
    assert a[..|a|] == a && a[|a|..] == [];
  }

  lemma WordsAppendStep(a: seq<byte>, b: seq<byte>)
    requires a != [] && RunLen(a) < |a| && !IsSep(a[0])
    ensures Words(a + b) == [a[..RunLen(a)]] + Words(a[RunLen(a)..] + b)
  {
    var n := RunLen(a);
    RunLenAppend(a, b);
    WordsSkip(a + b);
    assert (a + b)[..n] == a[..n] && (a + b)[n..] == a[n..] + b;
  }

  /** Splitting a text between words keeps its words; splitting inside one makes two of it. */
  lemma {:induction false} WordsAppend(a: seq<byte>, b: seq<byte>)
    ensures !CutsWord(a, b) ==> Words(a + b) == Words(a) + Words(b)
    ensures CutsWord(a, b) ==> |Words(a + b)| == |Words(a)| + |Words(b)| - 1
    decreases |a|
  {
    hide Words, RunLen;
    if a == [] {
      assert a + b == b;
      WordsSep(a);
    } else if IsSep(a[0]) {
      WordsSep(a);
      WordsSep(a + b);
      assert (a + b)[1..] == a[1..] + b;
      WordsAppend(a[1..], b);
    } else if RunLen(a) < |a| {
      var n := RunLen(a);
      WordsSkip(a);
      WordsAppendStep(a, b);
      WordsAppend(a[n..], b);
      assert [a[..n]] + (Words(a[n..]) + Words(b)) == ([a[..n]] + Words(a[n..])) + Words(b);
    } else {
      WordsOfRun(a, b);
      if b != [] && !IsSep(b[0]) {
        WordsSkip(b);
      } else {
        assert b[..RunLen(b)] == [] && b[RunLen(b)..] == b;
        assert a + [] == a;
      }
    }
  }

  lemma WordsSep(s: seq<byte>)
    ensures s == [] ==> Words(s) == []
    ensures s != [] && IsSep(s[0]) ==> Words(s) == Words(s[1..])
  {
  }

  /** Every word is a non-empty run of non-separator bytes of the text. */
  lemma {:induction false} WordsAreWords(s: seq<byte>, w: Word)
    requires w in Words(s)
    ensures w != [] && forall i :: 0 <= i < |w| ==> !IsSep(w[i]) && w[i] in s
    ensures |w| <= |s|
    decreases |s|
  {
    if IsSep(s[0]) {
      WordsAreWords(s[1..], w);
    } else if w != s[..RunLen(s)] {
      WordsAreWords(s[RunLen(s)..], w);
    }
  }

  /** Every non-separator byte of a text lies in one of its words. */
  lemma {:induction false} WordsCover(s: seq<byte>, b: byte)
    requires b in s && !IsSep(b)
    ensures exists w :: w in Words(s) && b in w
    decreases |s|
  {
    if IsSep(s[0]) {
      WordsCover(s[1..], b);
    } else {
      var n := RunLen(s);
      assert s == s[..n] + s[n..];
      if b in s[..n] {
        assert s[..n] in Words(s);
      } else {
        WordsCover(s[n..], b);
        var w :| w in Words(s[n..]) && b in w;
        assert w in Words(s);
      }
    }
  }

  // ----- buffered lines -----

  /** How many bytes the next `fgets` takes: up to and including a newline, a full buffer, or
      what is left. i bytes are already in the buffer. */
  function TakeLen(s: seq<byte>, i: nat): (n: nat)
    requires i <= |s| && i <= TAKE
    requires forall j :: 0 <= j < i ==> s[j] != NL
    ensures i <= n <= |s| && n <= TAKE
    ensures i < n || n == |s| || n == TAKE
    ensures forall j :: 0 <= j < n - 1 ==> s[j] != NL
    ensures n < |s| && n < TAKE ==> n > 0 && s[n - 1] == NL
    decreases |s| - i
  {
    if i == |s| || i == TAKE then i
    else if s[i] == NL then i + 1
    else TakeLen(s, i + 1)
  }

  /** The successive contents of the line buffer. */
  function Chunks(s: seq<byte>): seq<seq<byte>>
    decreases |s|
  {
    if s == [] then []
    else
      var n := TakeLen(s, 0);
      [s[..n]] + Chunks(s[n..])
  }

  /** A buffer read as a C string ends at its first NUL. */
  function CString(s: seq<byte>): (r: seq<byte>)
    ensures r <= s && NUL !in r
    ensures |r| < |s| ==> s[|r|] == NUL
    ensures NUL !in s ==> r == s
  {
    if s == [] || s[0] == NUL then [] else [s[0]] + CString(s[1..])
  }

  /** Number of words that straddle two buffers. */
  function Cuts(s: seq<byte>): nat
    decreases |s|
  {
    if s == [] then 0
    else
      var n := TakeLen(s, 0);
      (if CutsWord(s[..n], s[n..]) then 1 else 0) + Cuts(s[n..])
  }

  predicate BreakWithin(s: seq<byte>, i: nat)
    requires i + TAKE <= |s|
  {
    NL in s[i..i + TAKE]
  }

  /** No stretch of a full buffer is free of newlines, except at the very end. */
  predicate LinesFit(s: seq<byte>) {
    forall i {:trigger BreakWithin(s, i)} :: 0 <= i < |s| - TAKE ==> BreakWithin(s, i)
  }

  lemma {:induction false} LinesFitNoCuts(s: seq<byte>)
    requires LinesFit(s)
    ensures Cuts(s) == 0
    decreases |s|
  {
    if s != [] {
      var n := TakeLen(s, 0);
      if n < |s| {
        if n == TAKE {
          assert BreakWithin(s, 0);
        }
        assert s[n - 1] == NL;
      }
      forall i | 0 <= i < |s[n..]| - TAKE ensures BreakWithin(s[n..], i) {
        assert BreakWithin(s, n + i);
        assert s[n..][i..i + TAKE] == s[n + i..n + i + TAKE];
      }
      LinesFitNoCuts(s[n..]);
    }
  }

  // ----- the tokens the map worker emits -----

  function LineTokens(chunks: seq<seq<byte>>): seq<Word> {
    if chunks == [] then [] else Words(CString(chunks[0])) + LineTokens(chunks[1..])
  }

  function MapTokens(file: seq<byte>): seq<Word> {
    LineTokens(Chunks(file))
  }

  lemma MapTokensStep(file: seq<byte>)
    requires file != []
    ensures var n := TakeLen(file, 0);
            0 < n && MapTokens(file) == Words(CString(file[..n])) + MapTokens(file[n..])
  {
    var n := TakeLen(file, 0);
    assert Chunks(file)[1..] == Chunks(file[n..]);
  }

  /** On NUL-free text the worker emits the words, plus one token for each word it cuts. */
  lemma {:induction false} TokensCount(file: seq<byte>)
    requires NUL !in file
    ensures |MapTokens(file)| == |Words(file)| + Cuts(file)
    ensures Cuts(file) == 0 ==> MapTokens(file) == Words(file)
    decreases |file|
  {
    if file != [] {
      var n := TakeLen(file, 0);
      var a, b := file[..n], file[n..];
      assert file == a + b;
      TokensCount(b);
      MapTokensStep(file);
      WordsAppend(a, b);
    }
  }

  /** Tokens are words of at most a buffer, free of NULs and separators. */
  predicate IsToken(w: Word) {
    1 <= |w| <= TAKE && (forall i :: 0 <= i < |w| ==> !IsSep(w[i]) && w[i] != NUL)
  }

  lemma {:induction false} TokensAreTokens(file: seq<byte>)
    ensures forall w :: w in MapTokens(file) ==> IsToken(w)
    decreases |file|
  {
    if file != [] {
      var n := TakeLen(file, 0);
      MapTokensStep(file);
      TokensAreTokens(file[n..]);
      forall w | w in Words(CString(file[..n])) ensures IsToken(w) {
        WordsAreWords(CString(file[..n]), w);
        assert forall i :: 0 <= i < |w| ==> w[i] != NUL;
      }
    }
  }

  lemma NulLosesTokens(file: seq<byte>)
    requires NUL in file
    ensures multiset(MapTokens(file)) != multiset(Words(file))
  {
    WordsCover(file, NUL);
    TokensAreTokens(file);
    hide MapTokens, Words;
    var w :| w in Words(file) && NUL in w;
    assert w in multiset(Words(file));
    assert w !in MapTokens(file);
  }

  /** The worker's tokens are the words of the text, as a bag, exactly when the text has no NUL
      and no word straddles two line buffers. */
  lemma TokensAreWordsIff(file: seq<byte>)
    ensures multiset(MapTokens(file)) == multiset(Words(file)) <==> NUL !in file && Cuts(file) == 0
  {
    hide MapTokens, Words, Cuts;
    if NUL in file {
      NulLosesTokens(file);
    } else {
      TokensCount(file);
      SameBagSameLength(MapTokens(file), Words(file));
    }
  }

  lemma SameBagSameLength<T>(a: seq<T>, b: seq<T>)
    ensures multiset(a) == multiset(b) ==> |a| == |b|
  {
    assert |multiset(a)| == |a| && |multiset(b)| == |b|;
  }

  lemma FirstPiece(s: seq<byte>, n: nat)
    requires n <= |s| && (forall i :: 0 <= i < n ==> !IsSep(s[i])) && (n < |s| ==> IsSep(s[n]))
    ensures Words(s) == (if n == 0 then [] else [s[..n]]) + (if n < |s| then Words(s[n + 1..]) else [])
  {
    hide Words, RunLen;
    WordsSep(s[n..]);
    assert n < |s| ==> s[n..][1..] == s[n + 1..];
    if n == 0 {
      assert s[0..] == s;
    } else {
      WordsSkip(s);
      assert RunLen(s) == n;
    }
  }

  /** The first delimiter at or after p, as `strsep` finds it. */
  method FindSep(line: seq<byte>, p: nat) returns (q: nat)
    requires p <= |line|
    ensures p <= q <= |line| && (q < |line| ==> IsSep(line[q]))
    ensures forall i :: p <= i < q ==> !IsSep(line[i])
  {
    q := p;
    while q < |line| && !IsSep(line[q])
      invariant p <= q <= |line|
      invariant forall i :: p <= i < q ==> !IsSep(line[i])
    {
      q := q + 1;
    }
  }

  /** The token loop over one line: split at each separator, skip empty pieces. */
  method TokenizeLine(line: seq<byte>) returns (tokens: seq<Word>)
    ensures tokens == Words(line)
  {
    hide Words;
    tokens := [];
    var p := 0;
    assert line[0..] == line;
    while true
      invariant 0 <= p <= |line|
      invariant tokens + Words(line[p..]) == Words(line)
      decreases |line| - p
    {
      var q := FindSep(line, p);
      FirstPiece(line[p..], q - p);
      assert line[p..][..q - p] == line[p..q];
      if p < q {
        tokens := tokens + [line[p..q]];
      }
      if q == |line| {
        return;
      }
      assert line[p..][q - p + 1..] == line[q + 1..];
      p := q + 1;
    }
  }
}
