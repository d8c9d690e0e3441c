/** Length-prefixed messages over one client connection: the read buffer and its parser, and the
    compacting write buffer. */
module Framing {
  import opened Bytes

  const MSG_MAX: nat := 4096
  const HEADER_SIZE: nat := 4
  const READ_SIZE: nat := 4100
  const WRITE_SIZE: nat := 8200

  type Payload = s: seq<byte> | |s| <= 4096

  function Frame(p: Payload): seq<byte> {
    PutU32(|p|) + p
  }

  /** The bytes of several messages on the wire. */
  function Stream(ps: seq<Payload>): seq<byte> {
    if ps == [] then [] else Frame(ps[0]) + Stream(ps[1..])
  }

  /** No whole message yet, and the length field, once there, is legal. */
  predicate Incomplete(s: seq<byte>) {
    |s| < 4 || (GetU32(s[..4]) <= MSG_MAX && |s| < 4 + GetU32(s[..4]))
  }

  predicate Oversize(s: seq<byte>) {
    |s| >= 4 && GetU32(s[..4]) > MSG_MAX
  }

  lemma FrameStarts(p: Payload, rest: seq<byte>)
    ensures var s := Frame(p) + rest;
            |s| >= 4 + |p| && GetU32(s[..4]) == |p| && s[4..4 + |p|] == p && s[4 + |p|..] == rest
  {
    hide PutU32, GetU32;
    GetPutU32(|p|);
    var s := Frame(p) + rest;
    assert s[..4] == PutU32(|p|);
  }

  lemma StreamFirst(ps: seq<Payload>)
    requires ps != []
    ensures Stream(ps) == Frame(ps[0]) + Stream(ps[1..])
  {
  }

  /** A nonempty stream starts with its first message. */
  lemma StartsWhole(ps: seq<Payload>, r: seq<byte>)
    requires ps != []
    ensures var s := Stream(ps) + r;
            && |s| >= 4 + |ps[0]| && GetU32(s[..4]) == |ps[0]|
            && s[4..4 + |ps[0]|] == ps[0] && s[4 + |ps[0]|..] == Stream(ps[1..]) + r
  {
    hide PutU32, GetU32, Frame, Stream;
    var first, others := Frame(ps[0]), Stream(ps[1..]);
    assert Stream(ps) + r == first + (others + r) by {
      StreamFirst(ps);
    }
    FrameStarts(ps[0], others + r);
  }

  /** The remainder behind the whole messages starts with none. */
  predicate Remainder(s: seq<byte>) {
    Incomplete(s) || Oversize(s)
  }

  lemma WholeIsNoRemainder(ps: seq<Payload>, r: seq<byte>)
    requires ps != []
    ensures !Remainder(Stream(ps) + r)
  {
    hide PutU32, GetU32, Frame, Stream;
    StartsWhole(ps, r);
  }

  /** A byte string decomposes in one way only into whole messages and a remainder. */
  lemma {:induction false} FramesUnique(ps: seq<Payload>, r: seq<byte>, qs: seq<Payload>, t: seq<byte>)
    requires Stream(ps) + r == Stream(qs) + t && Remainder(r) && Remainder(t)
    ensures ps == qs && r == t
  {
    hide Remainder, Frame, GetU32;
    assert ps == [] ==> Stream(ps) + r == r;
    assert qs == [] ==> Stream(qs) + t == t;
    if ps != [] {
      WholeIsNoRemainder(ps, r);
    }
    if qs != [] {
      WholeIsNoRemainder(qs, t);
    }
    if ps != [] && qs != [] {
      hide Stream;
      StartsWhole(ps, r);
      StartsWhole(qs, t);
      FramesUnique(ps[1..], r, qs[1..], t);
    }
  }

  /** Parsing what is already a remainder finds no message. */
  lemma NothingNew(ps: seq<Payload>, r: seq<byte>, qs: seq<Payload>, t: seq<byte>)
    requires Stream(ps) + r == Stream(qs) + t && Remainder(r) && ps <= qs
    ensures qs == ps && t == r
  {
    hide Remainder, Frame, Stream;
    var more := qs[|ps|..];
    assert qs == ps + more;
    StreamAppend(ps, more);
    var head, tail := Stream(ps), Stream(more);
    assert r == tail + t by {
      assert head + r == head + (tail + t);
      assert (head + r)[|head|..] == r && (head + (tail + t))[|head|..] == tail + t;
    }
    if more != [] {
      WholeIsNoRemainder(more, t);
    } else {
      assert qs == ps;
      NoStream();
      assert [] + t == t;
    }
  }

  lemma NoStream()
    ensures Stream([]) == []
  {
  }

  lemma {:induction false} StreamAppend(ps: seq<Payload>, qs: seq<Payload>)
    ensures Stream(ps + qs) == Stream(ps) + Stream(qs)
  {
    hide Frame, Stream;
    NoStream();
    if ps == [] {
      assert ps + qs == qs;
    } else {
      StreamAppend(ps[1..], qs);
      assert (ps + qs)[1..] == ps[1..] + qs;
      StreamFirst(ps);
      StreamFirst(ps + qs);
      Assoc(Frame(ps[0]), Stream(ps[1..]), Stream(qs));
    }
  }

  lemma StreamSnoc(ps: seq<Payload>, p: Payload)
    ensures Stream(ps + [p]) == Stream(ps) + Frame(p)
  {
    hide Frame;
    StreamAppend(ps, [p]);
    var none: seq<Payload> := [];
    assert [p][1..] == none;
    assert Stream([p]) == Frame(p) + Stream(none);
  }

  /** A whole message at the front of the buffer is the next message of the stream. */
  lemma TakeFrame(ps: seq<Payload>, s: seq<byte>, n: nat)
    requires |s| >= 4 && GetU32(s[..4]) == n <= MSG_MAX && |s| >= 4 + n
    ensures Stream(ps) + s == Stream(ps + [s[4..4 + n]]) + s[4 + n..]
  {
    hide PutU32, GetU32, Stream;
    var p: Payload := s[4..4 + n];
    PutGetU32(s[..4]);
    StreamSnoc(ps, p);
    assert s == Frame(p) + s[4 + n..];
  }

  lemma NoReplies(h: nat -> Answer, k: nat, before: seq<byte>)
    ensures before == before + Stream(Replies(h, k, k))
  {
  }

  lemma OneMoreReply(h: nat -> Answer, lo: nat, k: nat, before: seq<byte>)
    requires lo <= k && h(k).Reply?
    ensures before + Stream(Replies(h, lo, k + 1)) == before + Stream(Replies(h, lo, k)) + Frame(h(k).payload)
  {
    hide Frame, Stream;
    StreamSnoc(Replies(h, lo, k), h(k).payload);
    Assoc(before, Stream(Replies(h, lo, k)), Frame(h(k).payload));
  }

  function Min(a: nat, b: nat): nat {
    if a < b then a else b
  }

  /** What the message handler does with the k-th message: refuse it, or answer it. `taken` is how
      much of the answer the socket would take at once. */
  datatype Answer = Refuse | Reply(payload: Payload, taken: nat)

  /** The message is answered, and the socket takes the answer whole. */
  predicate Prompt(a: Answer) {
    a.Reply? && a.taken >= |Frame(a.payload)|
  }

  ghost predicate Eager(h: nat -> Answer) {
    forall k: nat :: Prompt(h(k))
  }

  /** The answers to messages `lo` to `hi - 1`. */
  function Replies(h: nat -> Answer, lo: nat, hi: nat): seq<Payload>
    requires lo <= hi
    decreases hi - lo
  {
    if lo == hi then [] else Replies(h, lo, hi - 1) + (if h(hi - 1).Reply? then [h(hi - 1).payload] else [])
  }

  /** What a read on the socket returns. */
  datatype ReadResult = Data(chunk: seq<byte>) | Eof | WouldBlock | Error

  class Client {
    const buf: array<byte>
    const wbuf: array<byte>
    var active: bool
    var len: nat
    var wlen: nat
    var woff: nat
    /** Whether the event loop watches for writability. */
    var armed: bool
    /** The outside world's part: bytes that came from the socket, and messages handed to the
        handler. */
    var received: seq<byte>
    var delivered: seq<Payload>
    /** Bytes the socket took, and bytes of all frames accepted for sending. */
    var sent: seq<byte>
    var accepted: seq<byte>
    /** The handler turned a message down. */
    var refused: bool
    /** Received bytes behind the delivered messages. */
    ghost var rest: seq<byte>

    ghost predicate Shaped()
      reads this
    {
      && buf.Length == READ_SIZE && wbuf.Length == WRITE_SIZE && buf != wbuf
      && len <= READ_SIZE && woff <= wlen <= WRITE_SIZE
      && (!active ==> len == 0 && wlen == 0 && woff == 0 && !armed)
    }

    ghost function Pending(): seq<byte>
      requires Shaped()
      reads this, wbuf
    {
      wbuf[woff..wlen]
    }

    /** Sent bytes and pending bytes are together all accepted bytes, in order; the event loop is
        asked for writability exactly while bytes are pending; an empty buffer is a reset one. */
    ghost predicate WriteOk()
      reads this, wbuf
    {
      && Shaped()
      && sent <= accepted
      && (active ==> sent + Pending() == accepted && armed == (woff < wlen) && (woff == wlen ==> wlen == 0))
    }

    /** Received bytes are the delivered messages and the unparsed rest, which is the read buffer. */
    ghost predicate ReadOk()
      reads this, buf
    {
      && Shaped()
      && received == Stream(delivered) + rest
      && (active ==> rest == buf[..len] && !refused)
    }

    /** Between events no whole message waits in the read buffer, so it has room. */
    ghost predicate Valid()
      reads this, buf, wbuf
    {
      ReadOk() && WriteOk() && (active ==> Incomplete(rest) && len < READ_SIZE)
    }

    constructor ()
      ensures Valid() && active && received == [] && delivered == [] && sent == [] && accepted == []
      ensures fresh(buf) && fresh(wbuf)
    {
      buf := new byte[READ_SIZE];
      wbuf := new byte[WRITE_SIZE];
      active, len, wlen, woff, armed, refused := true, 0, 0, 0, false, false;
      received, delivered, sent, accepted, rest := [], [], [], [], [];
    }

    /** Closes the connection and zeroes the slot. */
    method Remove()
      requires Shaped() && sent <= accepted && received == Stream(delivered) + rest
      modifies this`active, this`len, this`wlen, this`woff, this`armed
      ensures Valid() && !active
    {
      active, len, wlen, woff, armed := false, 0, 0, 0, false;
    }

    /** Makes room by moving the pending bytes to the front. */
    method Compact()
      requires WriteOk() && active
      modifies this`wlen, this`woff, wbuf
      ensures WriteOk() && woff == 0 && Pending() == old(Pending())
    {
      var pending := wlen - woff;
      MoveToFront(wbuf, woff, pending);
      wlen, woff := pending, 0;
    }

    /** Puts bytes behind the queued ones. */
    method Append(data: seq<byte>)
      requires Shaped() && active && wlen + |data| <= WRITE_SIZE && sent + Pending() == accepted
      modifies this`wlen, this`accepted, wbuf
      ensures Shaped() && sent + Pending() == accepted && wlen == old(wlen) + |data|
      ensures Pending() == old(Pending()) + data && accepted == old(accepted) + data
    {
      ghost var all := wbuf[..];
      Assoc(sent, Pending(), data);
      wlen := Memcpy(wbuf, wlen, data);
      accepted := accepted + data;
      AppendPending(all, wbuf[..], woff, wlen - |data|, data);
    }

    /** The socket takes `n` of the pending bytes. */
    method Drain(n: nat)
      requires Shaped() && n <= wlen - woff && sent + Pending() == accepted
      modifies this`wlen, this`woff, this`sent
      ensures Shaped() && sent + Pending() == accepted && (woff == wlen ==> wlen == 0)
      ensures sent == old(sent) + old(Pending())[..n] && Pending() == old(Pending())[n..]
    {
      hide Stream, Frame, GetU32, Incomplete;
      SplitPending(sent, wbuf[..], woff, wlen, n);
      sent := sent + wbuf[woff..woff + n];
      woff := woff + n;
      if woff == wlen {
        woff, wlen := 0, 0;
      }
    }

    /** Queues bytes for sending, compacting first when they would not fit behind the queued ones.
        They are accepted exactly when they fit with what is pending; a refusal changes nothing. */
    method QueueWrite(data: seq<byte>, taken: nat) returns (ok: bool)
      requires WriteOk() && active && data != []
      modifies this`wlen, this`woff, this`armed, this`sent, this`accepted, wbuf
      ensures WriteOk()
      ensures ok == (|old(Pending())| + |data| <= WRITE_SIZE)
      ensures accepted == old(accepted) + if ok then data else []
      ensures sent == old(sent) + if ok && old(Pending()) == [] then data[..Min(taken, |data|)] else []
      ensures !ok ==> Pending() == old(Pending()) && armed == old(armed)
    {
      if wlen + |data| > WRITE_SIZE && woff > 0 {
        Compact();
      }
      if wlen + |data| > WRITE_SIZE {
        return false;
      }
      var wasEmpty := wlen == 0;
      Append(data);
      if wasEmpty {
        Drain(Min(taken, |data|));
        if wlen == 0 {
          return true;
        }
      }
      armed := true;
      ok := true;
    }

    /** Sends one message. A legal message is refused only while more than half of the write buffer
        is pending. */
    method SendFramed(payload: Payload, taken: nat) returns (ok: bool)
      requires WriteOk() && active
      modifies this`wlen, this`woff, this`armed, this`sent, this`accepted, wbuf
      ensures WriteOk()
      ensures accepted == old(accepted) + if ok then Frame(payload) else []
      ensures old(sent) <= sent
      ensures ok == (|old(Pending())| + |Frame(payload)| <= 8200)
      ensures !ok ==> sent == old(sent) && Pending() == old(Pending()) && armed == old(armed)
      ensures !ok ==> |Pending()| > WRITE_SIZE / 2
      ensures old(Pending()) == [] && taken >= |Frame(payload)| ==> ok && Pending() == []
    {
      hide PutU32;
      ok := QueueWrite(Frame(payload), taken);
    }

    /** Hands the message of `n` bytes at the front of the read buffer to the handler, and drops it
        from the buffer; closes the connection when the handler refuses it or cannot answer. */
    method Dispatch(n: nat, h: nat -> Answer) returns (ok: bool)
      requires ReadOk() && WriteOk() && active
      requires len >= 4 + n && n <= MSG_MAX && GetU32(rest[..4]) == n
      modifies this, buf, wbuf
      ensures ReadOk() && WriteOk() && active == ok && refused == !ok
      ensures received == old(received) && old(sent) <= sent
      ensures |delivered| == |old(delivered)| + 1 && old(delivered) <= delivered
      ensures ok ==> len == old(len) - (4 + n)
      ensures var a := h(|old(delivered)|);
              && (ok ==> a.Reply? && accepted == old(accepted) + Frame(a.payload))
              && (!ok ==> accepted == old(accepted))
              && (!ok && a.Reply? ==> |accepted| - |sent| + |Frame(a.payload)| > WRITE_SIZE)
      ensures Prompt(h(|old(delivered)|)) && old(Pending()) == [] ==> ok && Pending() == []
    {
      hide PutU32, GetU32, Frame, Stream;
      var payload: Payload := buf[..len][4..4 + n];
      TakeFrame(delivered, rest, n);
      var a := h(|delivered|);
      delivered, rest := delivered + [payload], rest[4 + n..];
      ok := false;
      if a.Reply? {
        ok := SendFramed(a.payload, a.taken);
      }
      if ok {
        MoveToFront(buf, 4 + n, len - (4 + n));
        len := len - (4 + n);
      } else {
        refused := true;
        Remove();
      }
    }

    /** Hands every whole message in the read buffer to the handler. Ends with no whole message left,
        or with the connection closed because of an illegal length or a refusal. */
    method ProcessBuffer(h: nat -> Answer)
      requires ReadOk() && WriteOk() && active
      modifies this, buf, wbuf
      ensures Valid() && received == old(received)
      ensures old(delivered) <= delivered && old(sent) <= sent
      ensures active == (!refused && !Oversize(rest)) && (refused || Remainder(rest))
      ensures refused ==> |delivered| > |old(delivered)|
      ensures Answered(h, |old(delivered)|, old(accepted))
      ensures Eager(h) && old(Pending()) == [] ==> !refused && Pending() == []
    {
      hide PutU32, GetU32, Frame, Stream, Replies, Prompt;
      ghost var start := |delivered|;
      NoReplies(h, start, accepted);
      while len >= HEADER_SIZE
        invariant ReadOk() && WriteOk() && active
        invariant received == old(received) && old(delivered) <= delivered && old(sent) <= sent
        invariant Answered(h, start, old(accepted))
        invariant Eager(h) && old(Pending()) == [] ==> Pending() == []
        decreases len
      {
        var n := GetU32(buf[..4]);
        assert buf[..4] == buf[..len][..4];
        if n > MSG_MAX {
          Remove();
          return;
        }
        if len < 4 + n {
          return;
        }
        ghost var k, before := |delivered|, accepted;
        var ok := Dispatch(n, h);
        if !ok {
          return;
        }
        OneMoreReply(h, start, k, old(accepted));
      }
    }

    /** Every message from `start` on was answered, in order, up to a refused one; an answer is
        refused only for lack of room. */
    ghost predicate Answered(h: nat -> Answer, start: nat, before: seq<byte>)
      reads this
    {
      var k := |delivered| - (if refused then 1 else 0);
      && start <= k
      && accepted == before + Stream(Replies(h, start, k))
      && (forall j :: start <= j < k ==> h(j).Reply?)
      && (refused && h(k).Reply? ==> |accepted| - |sent| + |Frame(h(k).payload)| > WRITE_SIZE)
    }

    /** A read event. Data never exceeds the free room of the buffer, which is never empty. */
    method OnRead(r: ReadResult, h: nat -> Answer)
      requires Valid()
      requires r.Data? ==> 0 < |r.chunk| <= 4100 - len
      modifies this, buf, wbuf
      ensures Valid()
      ensures received == old(received) + if old(active) && r.Data? then r.chunk else []
      ensures old(delivered) <= delivered && old(sent) <= sent
      ensures !old(active) || r.WouldBlock? ==> active == old(active)
      ensures old(active) && (r.Eof? || r.Error?) ==> !active && len == 0 && wlen == 0 && woff == 0 && !armed
      ensures !old(active) || !r.Data? ==>
        delivered == old(delivered) && accepted == old(accepted) && sent == old(sent) && refused == old(refused)
      ensures old(active) && r.Data? ==>
        && active == (!refused && !Oversize(rest)) && (refused || Remainder(rest))
        && Answered(h, |old(delivered)|, old(accepted))
      ensures old(active) && r.Data? && Eager(h) && old(Pending()) == [] ==> !refused && Pending() == []
    {
      hide PutU32, GetU32, Frame, Stream, Replies, Eager, Incomplete, Oversize;
      assert received + [] == received;
      if !active || r.WouldBlock? {
        return;
      }
      if !r.Data? {
        Remove();
        return;
      }
      assert Stream(delivered) + rest + r.chunk == Stream(delivered) + (rest + r.chunk);
      received, rest := received + r.chunk, rest + r.chunk;
      len := Memcpy(buf, len, r.chunk);
      ProcessBuffer(h);
    }

    /** A writability event: the socket takes up to `taken` of the pending bytes. Parsing again after
        the buffer drained finds no message. */
    method OnWrite(taken: nat, h: nat -> Answer)
      requires Valid() && armed
      modifies this, buf, wbuf
      ensures Valid() && active
      ensures received == old(received) && delivered == old(delivered) && accepted == old(accepted)
      ensures sent == old(sent) + old(Pending())[..Min(taken, |old(Pending())|)]
    {
      hide PutU32, GetU32, Frame, Stream;
      Drain(Min(taken, wlen - woff));
      if wlen == 0 {
        armed := false;
        ghost var all := accepted;
        assert sent == accepted;
        ProcessBuffer(h);
        NothingNew(old(delivered), old(rest), delivered, rest);
        NoStream();
        assert all + [] == all;
      }
    }

    /** One read of at most `n` bytes of a legal stream. */
    method ReadNext(ghost ps: seq<Payload>, input: seq<byte>, n: nat, h: nat -> Answer)
      requires Valid() && active && input == Stream(ps) && received <= input
      requires 0 < n <= READ_SIZE - len && |received| + n <= |input|
      modifies this, buf, wbuf
      ensures Valid() && received <= input && |received| == |old(received)| + n
      ensures active == !refused && Answered(h, |old(delivered)|, old(accepted))
      ensures Eager(h) && old(Pending()) == [] ==> !refused && Pending() == []
    {
      hide Stream, Frame, GetU32, PutU32, Incomplete, Oversize, Replies, Eager;
      var off := |received|;
      OnRead(Data(input[off..off + n]), h);
      assert received == input[..off + n];
      NeverOversize(ps, off + n, delivered, rest);
    }

    /** Reads a whole byte stream, cut into reads in any way. The handler gets the messages the stream
        encodes, in order, all of them unless it refuses one or an answer finds no room; a handler
        that answers everything over a socket that keeps up gets them all. */
    method ReadAll(ps: seq<Payload>, cut: nat -> nat, h: nat -> Answer)
      requires Valid() && active && received == []
      modifies this, buf, wbuf
      ensures Valid() && delivered <= ps && active == !refused
      ensures !refused ==> delivered == ps && received == Stream(ps) && len == 0
      ensures Answered(h, 0, old(accepted))
      ensures Eager(h) && old(Pending()) == [] ==> !refused
    {
      hide Stream, Frame, GetU32, PutU32, Incomplete, Oversize, Replies, Eager;
      var input := Stream(ps);
      var i := 0;
      EmptyStream(delivered, rest);
      NoReplies(h, 0, accepted);
      while |received| < |input| && active
        invariant Valid() && received <= input && active == !refused
        invariant Answered(h, 0, old(accepted))
        invariant Eager(h) && old(Pending()) == [] ==> !refused && Pending() == []
        decreases |input| - |received|
      {
        ghost var before, queued := |delivered|, accepted;
        var n := if cut(i) == 0 then 1 else Min(cut(i), Min(READ_SIZE - len, |input| - |received|));
        ReadNext(ps, input, n, h);
        i := i + 1;
        RepliesJoin(h, before, |delivered| - (if refused then 1 else 0), old(accepted), queued, accepted);
      }
      if refused {
        DeliveredPrefix(ps, delivered, rest);
      } else {
        WholeStream(ps, delivered, rest);
      }
    }
  }

  lemma AppendPending(all: seq<byte>, all': seq<byte>, woff: nat, wlen: nat, data: seq<byte>)
    requires woff <= wlen <= |all| && wlen + |data| <= |all'| && all'[..wlen + |data|] == all[..wlen] + data
    ensures all'[woff..wlen + |data|] == all[woff..wlen] + data
  {
    var front := all[..wlen];
    assert all[woff..wlen] == front[woff..];
    assert all'[woff..wlen + |data|] == (front + data)[woff..];
  }

  lemma SplitPending(sent: seq<byte>, all: seq<byte>, woff: nat, wlen: nat, n: nat)
    requires woff + n <= wlen <= |all|
    ensures var pending := all[woff..wlen];
            && all[woff..woff + n] == pending[..n] && all[woff + n..wlen] == pending[n..] && all[0..0] == []
            && sent + pending == sent + pending[..n] + pending[n..]
  {
    var pending := all[woff..wlen];
    assert all[woff..woff + n] == pending[..n];
    assert all[woff + n..wlen] == pending[n..];
    assert pending == pending[..n] + pending[n..];
    Assoc(sent, pending[..n], pending[n..]);
  }

  /** Messages found in a prefix of a stream are the first messages of the stream. */
  lemma {:induction false} DeliveredPrefix(ps: seq<Payload>, qs: seq<Payload>, r: seq<byte>)
    requires Stream(qs) + r <= Stream(ps)
    ensures qs <= ps
    decreases |qs|
  {
    hide Stream, GetU32, Frame;
    if qs != [] {
      NoStream();
      var s, t := Stream(ps) + [], Stream(qs) + r;
      StartsWhole(qs, r);
      assert s == Stream(ps) && t <= s;
      assert s[..4] == t[..4];
      StartsWhole(ps, []);
      var n := 4 + |qs[0]|;
      assert s[4..n] == t[4..n];
      assert ps[0] == qs[0];
      assert t[n..] <= s[n..];
      assert Stream(ps[1..]) + [] == Stream(ps[1..]);
      DeliveredPrefix(ps[1..], qs[1..], r);
      assert ps == [ps[0]] + ps[1..] && qs == [qs[0]] + qs[1..];
    }
  }

  lemma WholeStream(ps: seq<Payload>, qs: seq<Payload>, r: seq<byte>)
    requires Stream(qs) + r == Stream(ps) && Incomplete(r)
    ensures qs == ps && r == []
  {
    hide Stream, GetU32;
    assert Stream(ps) + [] == Stream(ps);
    FramesUnique(ps, [], qs, r);
  }

  lemma EmptyStream(ps: seq<Payload>, r: seq<byte>)
    requires Stream(ps) + r == []
    ensures ps == [] && r == []
  {
  }

  lemma {:induction false} RepliesSplit(h: nat -> Answer, mid: nat, hi: nat)
    requires mid <= hi
    ensures Replies(h, 0, hi) == Replies(h, 0, mid) + Replies(h, mid, hi)
    decreases hi - mid
  {
    if mid < hi {
      RepliesSplit(h, mid, hi - 1);
    }
  }

  lemma RepliesJoin(h: nat -> Answer, mid: nat, hi: nat, a: seq<byte>, b: seq<byte>, c: seq<byte>)
    requires mid <= hi && b == a + Stream(Replies(h, 0, mid)) && c == b + Stream(Replies(h, mid, hi))
    ensures c == a + Stream(Replies(h, 0, hi))
  {
    hide Stream, Replies;
    RepliesSplit(h, mid, hi);
    StreamAppend(Replies(h, 0, mid), Replies(h, mid, hi));
    Assoc(a, Stream(Replies(h, 0, mid)), Stream(Replies(h, mid, hi)));
  }

  /** No cut of a legal stream shows an illegal length. */
  lemma {:induction false} NeverOversize(ps: seq<Payload>, off: nat, qs: seq<Payload>, r: seq<byte>)
    requires off <= |Stream(ps)| && Stream(ps)[..off] == Stream(qs) + r
    ensures !Oversize(r)
  {
    hide PutU32, GetU32, Frame;
    if Oversize(r) {
      var more := Stream(ps)[off..];
      assert Stream(ps) == Stream(qs) + (r + more);
      assert (r + more)[..4] == r[..4];
      assert Stream(ps) + [] == Stream(ps);
      FramesUnique(ps, [], qs, r + more);
    }
  }

  // ----- the worker's blocking side -----

  /** Fills the first `n` bytes of the buffer from the input at `pos`, in reads cut in any way;
      falls short only at the end of the input. */
  method ReadExact(input: seq<byte>, pos: nat, buf: array<byte>, n: nat, cut: nat -> nat) returns (got: nat)
    requires pos <= |input| && n <= buf.Length
    modifies buf
    ensures got == Min(n, |input| - pos)
    ensures buf[..got] == input[pos..pos + got]
  {
    got := 0;
    var i := 0;
    while got < n
      invariant got <= n && pos + got <= |input| && buf[..got] == input[pos..pos + got]
      decreases n - got
    {
      if pos + got == |input| {
        return;
      }
      var m := if cut(i) == 0 then 1 else Min(cut(i), Min(n - got, |input| - pos - got));
      ghost var done := input[pos..pos + got];
      var next := Memcpy(buf, got, input[pos + got..pos + got + m]);
      assert input[pos..pos + got + m] == done + input[pos + got..pos + got + m];
      got, i := next, i + 1;
    }
  }

  /** Hands all of `data` to the socket, in writes cut in any way. */
  method WriteAll(sent: seq<byte>, data: seq<byte>, cut: nat -> nat) returns (r: seq<byte>)
    ensures r == sent + data
  {
    var off, i := 0, 0;
    r := sent;
    assert sent + [] == sent;
    while off < |data|
      invariant off <= |data| && r == sent + data[..off]
      decreases |data| - off
    {
      var n := if cut(i) == 0 then 1 else Min(cut(i), |data| - off);
      Assoc(sent, data[..off], data[off..off + n]);
      assert data[..off] + data[off..off + n] == data[..off + n];
      r, off, i := r + data[off..off + n], off + n, i + 1;
    }
    assert data[..off] == data;
  }

  /** A whole message of at most `cap` bytes comes first. */
  predicate Whole(s: seq<byte>, cap: nat) {
    |s| >= 4 && GetU32(s[..4]) <= cap && |s| >= 4 + GetU32(s[..4])
  }

  /** Receives one message, or fails when none of a size that fits the buffer is there. */
  method RecvFramed(input: seq<byte>, pos: nat, buf: array<byte>, cut: nat -> nat) returns (ok: bool, n: nat)
    requires pos <= |input|
    modifies buf
    ensures ok == Whole(input[pos..], buf.Length)
    ensures ok ==> n == GetU32(input[pos..][..4]) && buf[..n] == input[pos..][4..4 + n]
  {
    hide GetU32;
    ghost var s := input[pos..];
    var hdr := new byte[4];
    var got := ReadExact(input, pos, hdr, 4, cut);
    if got != 4 {
      return false, 0;
    }
    assert hdr[..] == hdr[..4] == s[..4];
    n := GetU32(hdr[..]);
    if n > buf.Length {
      return false, n;
    }
    got := ReadExact(input, pos + 4, buf, n, cut);
    ok := got == n;
    assert ok ==> input[pos + 4..pos + 4 + n] == s[4..4 + n];
  }

  /** What one side sends, the other receives: the message at the front, whole. */
  lemma SentIsReceived(p: Payload, rest: seq<byte>, cap: nat)
    requires |p| <= cap
    ensures var s := Frame(p) + rest; Whole(s, cap) && s[4..4 + GetU32(s[..4])] == p && s[4 + GetU32(s[..4])..] == rest
  {
    hide GetU32, PutU32, Frame;
    FrameStarts(p, rest);
  }
}
