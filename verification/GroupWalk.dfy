/** Sorting by key, the group walk, and the output file. */
module GroupWalk {
  import opened Bytes
  import opened Text
  import opened ReduceWorker

  // ----- key order -----

  /** `strcmp(a, b) < 0` on NUL-free keys. */
  predicate Below(a: Word, b: Word) {
    b != [] && (a == [] || a[0] < b[0] || (a[0] == b[0] && Below(a[1..], b[1..])))
  }

  lemma {:induction false} BelowTotal(a: Word, b: Word)
    ensures a == b || Below(a, b) || Below(b, a)
  {
    if a != [] && b != [] && a[0] == b[0] {
      BelowTotal(a[1..], b[1..]);
      assert a == [a[0]] + a[1..] && b == [b[0]] + b[1..];
    }
  }

  lemma {:induction false} BelowTransitive(a: Word, b: Word, c: Word)
    requires Below(a, b) && Below(b, c)
    ensures Below(a, c)
  {
    if a != [] && a[0] == b[0] == c[0] {
      BelowTransitive(a[1..], b[1..], c[1..]);
    }
  }

  lemma {:induction false} BelowIrreflexive(a: Word)
    ensures !Below(a, a)
  {
    if a != [] {
      BelowIrreflexive(a[1..]);
    }
  }

  lemma {:induction false} FirstDifference(a: Word, b: Word) returns (k: nat)
    requires Below(a, b)
    ensures k <= |a| && k < |b| && a[..k] == b[..k] && (k == |a| || a[k] < b[k])
  {
    if a == [] || a[0] < b[0] {
      k := 0;
    } else {
      var j := FirstDifference(a[1..], b[1..]);
      k := j + 1;
      assert a[..k] == [a[0]] + a[1..][..j] && b[..k] == [b[0]] + b[1..][..j];
    }
  }

  lemma {:induction false} BelowAt(a: Word, b: Word, k: nat)
    requires k <= |a| && k < |b| && a[..k] == b[..k] && (k == |a| || a[k] < b[k])
    ensures Below(a, b)
  {
    if k > 0 {
      assert a[..k][0] == a[0] && b[..k][0] == b[0];
      assert a[1..][..k - 1] == a[..k][1..] && b[1..][..k - 1] == b[..k][1..];
      BelowAt(a[1..], b[1..], k - 1);
    }
  }

  /** The key order is the order of `strcmp`: at the first difference the smaller byte, or the end of
      the string, comes first. */
  lemma BelowIsStrcmp(a: Word, b: Word)
    ensures Below(a, b) <==>
            exists k :: 0 <= k <= |a| && k < |b| && a[..k] == b[..k] && (k == |a| || a[k] < b[k])
  {
    if Below(a, b) {
      var k := FirstDifference(a, b);
    }
    forall k | 0 <= k <= |a| && k < |b| && a[..k] == b[..k] && (k == |a| || a[k] < b[k]) ensures Below(a, b) {
      BelowAt(a, b, k);
    }
  }

  predicate SortedByKey(keys: seq<Word>) {
    forall i, j :: 0 <= i < j < |keys| ==> !Below(keys[j], keys[i])
  }

  // ----- word counts -----

  datatype Entry = Entry(key: Word, count: nat)

  predicate Increasing(out: seq<Entry>) {
    forall i, j :: 0 <= i < j < |out| ==> Below(out[i].key, out[j].key)
  }

  /** The list of all keys of a bag in order, each with its number of occurrences. */
  ghost predicate IsCount(out: seq<Entry>, bag: multiset<Word>) {
    && Increasing(out)
    && (forall i :: 0 <= i < |out| ==> 0 < out[i].count == bag[out[i].key])
    && (forall k :: k in bag ==> exists i :: 0 <= i < |out| && out[i].key == k)
  }

  /** A group of n keys, all above the keys already counted. */
  lemma CountGroup(out: seq<Entry>, bag: multiset<Word>, key: Word, n: nat)
    requires IsCount(out, bag) && n > 0 && forall k :: k in bag ==> Below(k, key)
    ensures IsCount(out + [Entry(key, n)], bag[key := n])
  {
    hide Below;
    BelowIrreflexive(key);
    var out' := out + [Entry(key, n)];
    var bag' := bag[key := n];
    assert forall i :: 0 <= i < |out| ==> out[i].key in bag;
    forall k | k in bag' ensures exists i :: 0 <= i < |out'| && out'[i].key == k {
      if k == key {
        assert out'[|out|].key == k;
      } else {
        var i :| 0 <= i < |out| && out[i].key == k;
        assert out'[i] == out[i];
      }
    }
  }

  /** A bag has one word count. */
  lemma {:induction false} CountUnique(a: seq<Entry>, b: seq<Entry>, bag: multiset<Word>)
    requires IsCount(a, bag) && IsCount(b, bag)
    ensures a == b
  {
    CountPrefix(a, b, bag, |a|);
    CountPrefix(b, a, bag, |b|);
    assert a[..|a|] == a && b[..|b|] == b;
  }

  lemma Later(a: seq<Entry>, b: seq<Entry>, bag: multiset<Word>, m: nat) returns (j: nat)
    requires IsCount(a, bag) && IsCount(b, bag) && m < |a| && m <= |b| && a[..m] == b[..m]
    ensures m <= j < |b| && b[j].key == a[m].key
  {
    assert a[m].key in bag;
    j :| 0 <= j < |b| && b[j].key == a[m].key;
    if j < m {
      assert b[..m][j] == a[..m][j];
      assert Below(a[j].key, a[m].key);
      BelowIrreflexive(a[m].key);
    }
  }

  lemma SameEntry(a: seq<Entry>, b: seq<Entry>, bag: multiset<Word>, m: nat)
    requires IsCount(a, bag) && IsCount(b, bag) && m < |a| && m <= |b| && a[..m] == b[..m]
    ensures m < |b| && a[m] == b[m]
  {
    var j := Later(a, b, bag, m);
    var i := Later(b, a, bag, m);
    Antisymmetric(a, b, m, i, j);
    hide Increasing;
    assert a[m].count == bag[a[m].key] && b[m].count == bag[b[m].key];
  }

  lemma {:induction false} CountPrefix(a: seq<Entry>, b: seq<Entry>, bag: multiset<Word>, n: nat)
    requires IsCount(a, bag) && IsCount(b, bag) && n <= |a|
    ensures n <= |b| && a[..n] == b[..n]
  {
    hide IsCount;
    if n > 0 {
      var m := n - 1;
      CountPrefix(a, b, bag, m);
      SameEntry(a, b, bag, m);
      assert a[..n] == a[..m] + [a[m]] && b[..n] == b[..m] + [b[m]];
    }
  }

  lemma Antisymmetric(a: seq<Entry>, b: seq<Entry>, m: nat, i: nat, j: nat)
    requires Increasing(a) && Increasing(b) && m <= i < |a| && m <= j < |b| && m < |a| && m < |b|
    requires b[j].key == a[m].key && a[i].key == b[m].key
    ensures a[m].key == b[m].key
  {
    if m < i && m < j {
      BelowTransitive(a[m].key, b[m].key, a[m].key);
      BelowIrreflexive(a[m].key);
    }
  }

  // ----- the walk -----

  predicate WithinLimit(bag: multiset<Word>) {
    forall k :: k in bag ==> bag[k] <= MAX_VALUES
  }

  /** What the walk has seen: finished groups in `out`, then n copies of the current key. */
  ghost predicate Walked(keys: seq<Word>, i: nat, out: seq<Entry>, cur: Word, n: nat) {
    && n <= i <= |keys| && (i > 0 ==> n > 0)
    && IsCount(out, multiset(keys[..i - n]))
    && (forall j :: i - n <= j < i ==> keys[j] == cur)
    && (forall j :: 0 <= j < i - n && n > 0 ==> Below(keys[j], cur))
  }

  lemma {:induction false} SameKeys(keys: seq<Word>, lo: nat, hi: nat, key: Word)
    requires lo <= hi <= |keys| && (forall j :: lo <= j < hi ==> keys[j] == key) && key !in keys[..lo]
    ensures multiset(keys[..hi]) == multiset(keys[..lo])[key := hi - lo]
  {
    if lo == hi {
      assert key !in multiset(keys[..lo]);
    } else {
      SameKeys(keys, lo, hi - 1, key);
      assert keys[..hi] == keys[..hi - 1] + [keys[hi - 1]];
    }
  }

  /** Closing the current group. */
  lemma GroupEnds(keys: seq<Word>, i: nat, out: seq<Entry>, cur: Word, n: nat)
    requires Walked(keys, i, out, cur, n) && n > 0
    ensures IsCount(out + [Entry(cur, n)], multiset(keys[..i]))
    ensures multiset(keys[..i])[cur] == n
  {
    BelowIrreflexive(cur);
    assert cur !in keys[..i - n];
    SameKeys(keys, i - n, i, cur);
    CountGroup(out, multiset(keys[..i - n]), cur, n);
  }

  lemma NextGroup(keys: seq<Word>, i: nat, out: seq<Entry>, cur: Word, n: nat)
    requires SortedByKey(keys) && Walked(keys, i, out, cur, n) && n > 0 && i < |keys| && keys[i] != cur
    ensures Walked(keys, i + 1, out + [Entry(cur, n)], keys[i], 1)
  {
    GroupEnds(keys, i, out, cur, n);
    assert keys[i - 1] == cur;
    BelowTotal(keys[i - 1], keys[i]);
    assert Below(cur, keys[i]);
    forall j | 0 <= j < i ensures Below(keys[j], keys[i]) {
      if j < i - n {
        BelowTransitive(keys[j], cur, keys[i]);
      }
    }
    assert i + 1 - 1 == i;
  }

  lemma TooMany(keys: seq<Word>, i: nat, out: seq<Entry>, cur: Word, n: nat)
    requires Walked(keys, i, out, cur, n) && n >= MAX_VALUES && i < |keys| && keys[i] == cur
    ensures !WithinLimit(multiset(keys))
  {
    GroupEnds(keys, i, out, cur, n);
    assert keys == keys[..i] + [keys[i]] + keys[i + 1..];
    assert multiset(keys)[cur] >= n + 1;
  }

  /** The walk over records sorted by key: each key boundary emits the finished group. It gives up
      exactly when some key has more values than the value buffer holds; otherwise it emits the
      word count of the keys. */
  method Walk(records: seq<KV>) returns (ok: bool, out: seq<Entry>)
    requires SortedByKey(Keys(records))
    ensures ok <==> WithinLimit(multiset(Keys(records)))
    ensures ok ==> IsCount(out, multiset(Keys(records)))
  {
    hide IsCount, SortedByKey, WithinLimit, Below;
    ghost var keys := Keys(records);
    var vals := new seq<byte>[MAX_VALUES];
    var cur: Word, n := [], 0;
    out := [];
    EmptyCount();
    for i := 0 to |records|
      invariant Walked(keys, i, out, cur, n) && n <= MAX_VALUES
      invariant forall e :: e in out ==> e.count <= MAX_VALUES
    {
      var r := records[i];
      if n == 0 || r.key != cur {
        if n > 0 {
          NextGroup(keys, i, out, cur, n);
          out := out + [Entry(cur, n)];
        }
        cur, n := r.key, 0;
      } else if n >= MAX_VALUES {
        TooMany(keys, i, out, cur, n);
        return false, [];
      }
      vals[n] := r.value;
      n := n + 1;
      assert Walked(keys, i + 1, out, cur, n);
    }
    if n > 0 {
      GroupEnds(keys, |records|, out, cur, n);
      out := out + [Entry(cur, n)];
    }
    assert keys[..|keys|] == keys;
    ok := true;
    LimitsHold(out, multiset(keys));
  }

  lemma EmptyCount()
    ensures IsCount([], multiset{})
    ensures forall keys: seq<Word>, cur :: Walked(keys, 0, [], cur, 0)
  {
    forall keys: seq<Word>, cur ensures Walked(keys, 0, [], cur, 0) {
      assert keys[..0] == [];
    }
  }

  lemma LimitsHold(out: seq<Entry>, bag: multiset<Word>)
    requires IsCount(out, bag) && forall e :: e in out ==> e.count <= MAX_VALUES
    ensures WithinLimit(bag)
  {
    forall k | k in bag ensures bag[k] <= MAX_VALUES {
      var i :| 0 <= i < |out| && out[i].key == k;
      assert out[i] in out;
    }
  }

  // ----- sorting keeps the bag of keys -----

  lemma KeysRemove(b: seq<KV>, j: nat)
    requires j < |b|
    ensures multiset(Keys(b)) == multiset(Keys(b[..j] + b[j + 1..])) + multiset{b[j].key}
  {
    var k, k' := Keys(b), Keys(b[..j] + b[j + 1..]);
    assert k' == k[..j] + k[j + 1..];
    RemoveAt(k, j);
  }

  lemma {:induction false} KeysPermutation(a: seq<KV>, b: seq<KV>)
    requires multiset(a) == multiset(b)
    ensures multiset(Keys(a)) == multiset(Keys(b))
  {
    hide Keys;
    assert |multiset(a)| == |multiset(b)|;
    if a != [] {
      var n := |a| - 1;
      var j := MatchLast(a, b);
      KeysPermutation(a[..n], b[..j] + b[j + 1..]);
      KeysRemove(a, n);
      assert a[..n] + a[n + 1..] == a[..n];
      KeysRemove(b, j);
    }
  }

  // ----- the output file -----

  function Digits(n: nat): (s: seq<byte>)
    ensures s != [] && forall i :: 0 <= i < |s| ==> 48 <= s[i] <= 57
  {
    if n < 10 then [48 + n] else Digits(n / 10) + [48 + n % 10]
  }

  /** The number a string of decimal digits spells. */
  function Value(s: seq<byte>): int {
    if s == [] then 0 else 10 * Value(s[..|s| - 1]) + (s[|s| - 1] as int - 48)
  }

  /** The digits of a number spell it, without a leading zero. */
  lemma {:induction false} DigitsSpell(n: nat)
    ensures Value(Digits(n)) == n
    ensures |Digits(n)| > 1 ==> Digits(n)[0] != 48
    ensures n > 0 ==> Digits(n)[0] != 48
  {
    if n < 10 {
      assert Digits(n)[..0] == [];
    } else {
      DigitsSpell(n / 10);
      assert Digits(n)[..|Digits(n)| - 1] == Digits(n / 10);
    }
  }

  lemma DigitsInjective(m: nat, n: nat)
    requires Digits(m) == Digits(n)
    ensures m == n
  {
    hide Digits, Value;
    DigitsSpell(m);
    DigitsSpell(n);
  }

  function RenderEntry(e: Entry): seq<byte> {
    e.key + [TAB] + Digits(e.count) + [NL]
  }

  function Render(out: seq<Entry>): seq<byte> {
    if out == [] then [] else RenderEntry(out[0]) + Render(out[1..])
  }

  /** The first occurrence of a byte splits a string in one way. */
  lemma SplitAtFirst(a: seq<byte>, b: seq<byte>, c: seq<byte>, d: seq<byte>, x: byte)
    requires x !in a && x !in c && a + [x] + b == c + [x] + d
    ensures a == c && b == d
  {
    var s := a + [x] + b;
    assert s[|a|] == x && s[|c|] == x;
    assert s[..|a|] == a && s[..|c|] == c;
    assert s[|a| + 1..] == b && s[|c| + 1..] == d;
  }

  lemma EntryParts(e: Entry, rest: seq<byte>)
    ensures RenderEntry(e) + rest == e.key + [TAB] + (Digits(e.count) + [NL] + rest)
    ensures NL !in Digits(e.count)
  {
    hide Digits;
  }

  lemma RenderEntryInjective(d: Entry, e: Entry, a: seq<byte>, b: seq<byte>)
    requires TAB !in d.key && TAB !in e.key && RenderEntry(d) + a == RenderEntry(e) + b
    ensures d == e && a == b
  {
    hide Digits, RenderEntry;
    EntryParts(d, a);
    EntryParts(e, b);
    SplitAtFirst(d.key, Digits(d.count) + [NL] + a, e.key, Digits(e.count) + [NL] + b, TAB);
    SplitAtFirst(Digits(d.count), a, Digits(e.count), b, NL);
    DigitsInjective(d.count, e.count);
  }

  /** The bytes of an output file determine its keys and counts. */
  lemma {:induction false} RenderInjective(a: seq<Entry>, b: seq<Entry>)
    requires forall e :: e in a || e in b ==> TAB !in e.key
    requires Render(a) == Render(b)
    ensures a == b
  {
    if a != [] && b != [] {
      RenderEntryInjective(a[0], b[0], Render(a[1..]), Render(b[1..]));
      RenderInjective(a[1..], b[1..]);
      assert a == [a[0]] + a[1..] && b == [b[0]] + b[1..];
    } else {
      assert a != [] ==> |Render(a)| > 0;
      assert b != [] ==> |Render(b)| > 0;
    }
  }

  // ----- reading an output file -----

  /** The entries of an output file, read line by line: the key before the tab, the number behind it. */
  function ReadOut(bytes: seq<byte>): seq<Entry>
    decreases |bytes|
  {
    if bytes == [] then []
    else
      var n := IndexOf(bytes, 10);
      var line := bytes[..n];
      var t := IndexOf(line, 9);
      var v := if t < n then Value(line[t + 1..]) else 0;
      [Entry(line[..t], if v < 0 then 0 else v)] + if n < |bytes| then ReadOut(bytes[n + 1..]) else []
  }

  /** Keys a line can hold. */
  predicate LineKey(key: Word) {
    TAB !in key && NL !in key
  }

  lemma LineReadBack(e: Entry, rest: seq<byte>)
    requires LineKey(e.key)
    ensures ReadOut(RenderEntry(e) + rest) == [e] + ReadOut(rest)
  {
    hide Digits, Value;
    var line := e.key + [TAB] + Digits(e.count);
    var bytes := RenderEntry(e) + rest;
    assert bytes == line + [NL] + rest;
    assert NL !in line;
    assert bytes[..|line|] == line;
    IndexOfAt(bytes, 10, |line|);
    assert line[..|e.key|] == e.key;
    IndexOfAt(line, 9, |e.key|);
    assert line[|e.key| + 1..] == Digits(e.count);
    DigitsSpell(e.count);
    assert bytes[|line| + 1..] == rest;
  }

  /** An output file reads back as the keys and counts it was made of: the line of each key spells its
      count. */
  lemma {:induction false} ReadRendered(out: seq<Entry>)
    requires forall e :: e in out ==> LineKey(e.key)
    ensures ReadOut(Render(out)) == out
  {
    hide RenderEntry, ReadOut, LineKey;
    if out == [] {
      NothingOut();
    } else {
      ReadRendered(out[1..]);
      LineReadBack(out[0], Render(out[1..]));
      assert out == [out[0]] + out[1..];
    }
  }

  lemma NothingOut()
    ensures ReadOut([]) == []
  {
  }
}
