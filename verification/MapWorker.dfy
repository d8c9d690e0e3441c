/** The map side: hashing, partitioning, and the intermediate files it fills. */
module MapWorker {
  import opened Bytes
  import opened Text

  const WORD64: nat := 0x1_0000_0000_0000_0000
  const ONE: byte := 49

  /** `char` is signed here, so bytes above 127 enter the hash as negative numbers. */
  function SignedChar(b: byte): int {
    if b < 128 then b else b as int - 256
  }

  function HashStep(h: nat, b: byte): nat {
    (h * 33 + SignedChar(b)) % WORD64
  }

  /** djb2 over 64-bit words, continued from h. */
  function HashFrom(h: nat, w: Word): nat {
    if w == [] then h else HashStep(HashFrom(h, w[..|w| - 1]), w[|w| - 1])
  }

  function Hash(w: Word): nat {
    HashFrom(5381, w)
  }

  function Partition(w: Word, R: nat): (y: nat)
    requires R > 0
    ensures y < R
  {
    Hash(w) % R
  }

  // ----- what the hash is -----

  function Pow33(n: nat): nat {
    if n == 0 then 1 else 33 * Pow33(n - 1)
  }

  /** The sum over positions i < n of the signed byte at i times 33 to the number of bytes behind it. */
  function CharSum(w: Word, n: nat): int
    requires n <= |w|
  {
    if n == 0 then 0
    else CharSum(w, n - 1) + (if w[n - 1] < 128 then w[n - 1] else w[n - 1] as int - 256) * Pow33(|w| - n)
  }

  lemma {:induction false} CharSumSnoc(w: Word, b: byte, n: nat)
    requires n <= |w|
    ensures CharSum(w + [b], n) == 33 * CharSum(w, n)
  {
    if n > 0 {
      CharSumSnoc(w, b, n - 1);
      var c := if w[n - 1] < 128 then w[n - 1] else w[n - 1] as int - 256;
      Scale(c, Pow33(|w| - n));
    }
  }

  lemma Scale(c: int, p: int)
    ensures c * (33 * p) == 33 * (c * p)
  {
  }

  lemma ModStep(x: int, c: int)
    ensures (33 * (x % 0x1_0000_0000_0000_0000) + c) % 0x1_0000_0000_0000_0000 == (33 * x + c) % 0x1_0000_0000_0000_0000
  {
    var q, h := x / 0x1_0000_0000_0000_0000, x % 0x1_0000_0000_0000_0000;
    AddMultiple(33 * h + c, 33 * q);
  }

  lemma AddMultiple(a: int, k: int)
    ensures (a + 0x1_0000_0000_0000_0000 * k) % 0x1_0000_0000_0000_0000 == a % 0x1_0000_0000_0000_0000
  {
  }

  /** The hash is the polynomial in 33 with the bytes as coefficients and 5381 in front, modulo 2^64. */
  lemma {:induction false} HashIsPolynomial(w: Word)
    ensures Hash(w) == (5381 * Pow33(|w|) + CharSum(w, |w|)) % 0x1_0000_0000_0000_0000
  {
    if w != [] {
      var init, b := w[..|w| - 1], w[|w| - 1];
      HashIsPolynomial(init);
      assert w == init + [b];
      CharSumSnoc(init, b, |init|);
      ModStep(5381 * Pow33(|init|) + CharSum(init, |init|), SignedChar(b));
    }
  }

  /** The partition of a word is that polynomial modulo the number of partitions. */
  lemma PartitionFormula(w: Word, R: nat)
    requires R > 0
    ensures Partition(w, R) == (5381 * Pow33(|w|) + CharSum(w, |w|)) % 0x1_0000_0000_0000_0000 % R
  {
    hide Pow33, CharSum, Hash;
    HashIsPolynomial(w);
  }

  /** Shift, add, add, on 64-bit words, is the step of the hash. */
  lemma ShiftAndAdd(h: nat, c: int)
    ensures (h * 32 % WORD64 + h + c) % WORD64 == (h * 33 + c) % WORD64
  {
    AddMultiple(h * 32 % WORD64 + h + c, h * 32 / WORD64);
  }

  /** The hash loop over a NUL-terminated key. */
  method GetHash(key: seq<byte>) returns (h: nat)
    requires NUL in key
    ensures h == Hash(CString(key))
    ensures var w := CString(key); h == (5381 * Pow33(|w|) + CharSum(w, |w|)) % 0x1_0000_0000_0000_0000
  {
    hide Pow33, CharSum, CString;
    h := 5381;
    var i := 0;
    assert key[0..] == key;
    while key[i] != NUL
      invariant 0 <= i < |key| && NUL in key[i..]
      invariant NUL !in key[..i] && h == HashFrom(5381, key[..i])
      decreases |key| - i
    {
      assert key[..i + 1][..i] == key[..i];
      assert key[i..] == [key[i]] + key[i + 1..];
      ShiftAndAdd(h, SignedChar(key[i]));
      var shifted := h * 32 % WORD64;
      h := (shifted + h + SignedChar(key[i])) % WORD64;
      i := i + 1;
    }
    CStringAt(key, i);
    HashIsPolynomial(CString(key));
  }

  lemma {:induction false} CStringAt(s: seq<byte>, i: nat)
    requires i < |s| && s[i] == NUL && NUL !in s[..i]
    ensures CString(s) == s[..i]
  {
    if i > 0 {
      assert s[..i][0] == s[0];
      assert s[1..][..i - 1] == s[..i][1..];
      assert NUL !in s[..i][1..];
      CStringAt(s[1..], i - 1);
    }
  }

  // ----- intermediate files -----

  /** The line a token adds to its partition. */
  function RecordLine(w: Word): seq<byte> {
    w + [TAB, ONE, NL]
  }

  /** Partition y of a list of tokens, as the bytes of its file. */
  function PartBytes(tokens: seq<Word>, y: nat, R: nat): seq<byte>
    requires R > 0
  {
    if tokens == [] then []
    else
      var w := tokens[|tokens| - 1];
      PartBytes(tokens[..|tokens| - 1], y, R) + if Partition(w, R) == y then RecordLine(w) else []
  }

  lemma PartBytesSnoc(tokens: seq<Word>, w: Word, y: nat, R: nat)
    requires R > 0
    ensures PartBytes(tokens + [w], y, R) == PartBytes(tokens, y, R) + if Partition(w, R) == y
      then RecordLine(w) else []
  {
    assert (tokens + [w])[..|tokens|] == tokens;
  }

  /** Every handle holds the partition of the tokens emitted so far. */
  ghost predicate Holds(handles: seq<seq<byte>>, tokens: seq<Word>)
    requires |handles| > 0
  {
    forall y :: 0 <= y < |handles| ==> handles[y] == PartBytes(tokens, y, |handles|)
  }

  /** The word-count emitter: one line to the file of the token's partition. */
  method Emit(token: Word, handles: array<seq<byte>>, ghost before: seq<Word>)
    requires handles.Length > 0 && Holds(handles[..], before)
    modifies handles
    ensures Holds(handles[..], before + [token])
  {
    forall y | 0 <= y < handles.Length {
      PartBytesSnoc(before, token, y, handles.Length);
    }
    var y := Partition(token, handles.Length);
    assert forall k :: 0 <= k < handles.Length ==> handles[..][k] == PartBytes(before, k, handles.Length);
    handles[y] := handles[y] + RecordLine(token);
  }

  /** Emits the tokens of one line. */
  method EmitLine(line: seq<byte>, handles: array<seq<byte>>, ghost before: seq<Word>)
    requires handles.Length > 0 && Holds(handles[..], before)
    modifies handles
    ensures Holds(handles[..], before + Words(line))
  {
    hide Holds, Words;
    var tokens := TokenizeLine(line);
    assert before + tokens[..0] == before;
    for k := 0 to |tokens|
      invariant Holds(handles[..], before + tokens[..k])
    {
      Emit(tokens[k], handles, before + tokens[..k]);
      assert before + tokens[..k + 1] == before + tokens[..k] + [tokens[k]];
    }
    assert tokens[..|tokens|] == tokens;
  }

  /** Reads a split a buffer at a time and emits every token; the handles start empty. */
  method TokenizeFile(file: seq<byte>, handles: array<seq<byte>>)
    requires handles.Length > 0 && forall y :: 0 <= y < handles.Length ==> handles[y] == []
    modifies handles
    ensures forall y :: 0 <= y < handles.Length ==> handles[y] == PartBytes(MapTokens(file), y, handles.Length)
  {
    ghost var emitted: seq<Word> := [];
    assert Holds(handles[..], emitted);
    EmitFile(file, handles);
    assert forall y :: 0 <= y < handles.Length ==> handles[..][y] == PartBytes(MapTokens(file), y, handles.Length);
  }

  method EmitFile(file: seq<byte>, handles: array<seq<byte>>)
    requires handles.Length > 0 && Holds(handles[..], [])
    modifies handles
    ensures Holds(handles[..], MapTokens(file))
  {
    hide Holds, Words, PartBytes;
    var rest := file;
    ghost var emitted: seq<Word> := [];
    assert emitted + MapTokens(rest) == MapTokens(file);
    while rest != []
      invariant Holds(handles[..], emitted)
      invariant emitted + MapTokens(rest) == MapTokens(file)
      decreases |rest|
    {
      var n := TakeLen(rest, 0);
      MapTokensStep(rest);
      var line := CString(rest[..n]);
      EmitLine(line, handles, emitted);
      assert emitted + Words(line) + MapTokens(rest[n..]) == emitted + MapTokens(rest);
      emitted := emitted + Words(line);
      rest := rest[n..];
    }
    assert MapTokens([]) == [];
    assert emitted == MapTokens(file);
  }
}
