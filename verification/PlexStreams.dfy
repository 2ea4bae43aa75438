/** What ProtoPlexer is for: every interleaving of the chunks of different pairs
    delivers every message unaltered, and a receiver recovers from whatever it had
    received before. */
module PlexStreams {
  import opened Can
  import opened PlexCore
  import opened PlexInvariants
  import Crc16

  // ---------------------------------------------------------------- a message under way

  /** What the receiver needs to take `m`: an identifier, two addresses, of which the
      second is its own unless it monitors, and no more data than configured. */
  ghost predicate Deliverable(r: Receiver, m: Message) {
    && m.Typed() && m.id != 0 && 1 <= m.from % 0x1000 && 1 <= m.to % 0x1000
    && (m.to % 0x1000 == r.own || r.monitoring)
    && (|m.data| <= r.maxPayload || (r.maxPayload == 0 && !r.fixed))
  }

  /** The entry of a message whose header is that of `m` and of whose data `data`
      the first `got` bytes have come. */
  function Partial(m: Message, data: seq<byte>, got: nat): (s: Slot)
    requires got <= |data|
    ensures s.Busy?
  {
    Busy(m.Sig(), |m.data|, Crc16.Crc(m.data), m.id, m.from % ADDRESSES, m.to % ADDRESSES, m.priority % PRIORITIES,
         data[..got])
  }

  /** Data bytes delivered by the first `k` chunks. */
  function Got(length: nat, c: nat, k: nat): nat
    requires k >= 1 && ChunkLengthValid(c)
  {
    Past(length, c * k)
  }

  function Past(length: nat, at: nat): nat { if at < HEADER_SIZE then 0 else Min(at - HEADER_SIZE, length) }

  lemma FrameOf(m: Message, data: seq<byte>, c: nat, at: nat)
    requires ChunkLengthValid(c) && at < HEADER_SIZE + |data|
    ensures var f := CutAt(m, data, c, at);
            && f.len == Min(c, HEADER_SIZE + |data| - at) <= MAX_LEN
            && f.Body() == Stream(m, data)[at..at + f.len]
            && RouteOf(f.id) == Route(m.from % ADDRESSES, m.to % ADDRESSES, m.priority % PRIORITIES, at == 0)
  {
    CanIdRoundTrip(m.from, m.to, m.priority, at == 0);
  }

  lemma HeaderFields(m: Message)
    requires m.Typed()
    ensures var h := Header(m);
            && Word(h[0], h[1]) == m.id && Word(h[2], h[3]) == |m.data| && CrcWord(h[4], h[5]) == Crc16.Crc(m.data)
  {
    WordRoundTrip(m.id);
    WordRoundTrip(|m.data|);
    CrcWordRoundTrip(Crc16.Crc(m.data));
  }

  lemma FirstBytes(m: Message, data: seq<byte>, c: nat)
    requires m.Typed() && ChunkLengthValid(c)
    ensures var f := CutAt(m, data, c, 0);
            && f.data[..HEADER_SIZE] == Header(m) && f.data[HEADER_SIZE..f.len] == data[..f.len - HEADER_SIZE]
  {
    var f := CutAt(m, data, c, 0);
    FrameOf(m, data, c, 0);
    var s := Stream(m, data);
    assert f.data[..f.len] == s[..f.len];
    assert f.data[..HEADER_SIZE] == f.data[..f.len][..HEADER_SIZE] == s[..HEADER_SIZE] == Header(m);
    assert f.data[HEADER_SIZE..f.len] == f.data[..f.len][HEADER_SIZE..]
        == s[..f.len][HEADER_SIZE..] == data[..f.len - HEADER_SIZE];
  }

  /** A first chunk sets up the entry. */
  lemma FirstTaken(r: Receiver, m: Message, data: seq<byte>, c: nat, env: Env)
    requires Deliverable(r, m) && |data| == |m.data| && ChunkLengthValid(c) && env.dataGranted
    ensures var f := CutAt(m, data, c, 0);
            TakeFirst(r, RouteOf(f.id), f, env) == Finish(Partial(m, data, Past(|data|, c)))
  {
    var f := CutAt(m, data, c, 0);
    FrameOf(m, data, c, 0);
    FirstBytes(m, data, c);
    HeaderTaken(r, m, data, f, RouteOf(f.id), env);
  }

  /** The frame is known only by its bytes here. */
  lemma HeaderTaken(r: Receiver, m: Message, data: seq<byte>, f: Frame, h: Route, env: Env)
    requires Deliverable(r, m) && |data| == |m.data| && env.dataGranted
    requires HEADER_SIZE <= f.len <= MAX_LEN && f.len - HEADER_SIZE <= |data|
    requires f.data[..HEADER_SIZE] == Header(m) && f.data[HEADER_SIZE..f.len] == data[..f.len - HEADER_SIZE]
    requires h == Route(m.from % ADDRESSES, m.to % ADDRESSES, m.priority % PRIORITIES, true)
    ensures TakeFirst(r, h, f, env) == Finish(Partial(m, data, f.len - HEADER_SIZE))
  {
    AnnouncedIs(m, f.data, h);
    Accepts(r, h, f, env, Partial(m, [], 0), data[..f.len - HEADER_SIZE]);
  }

  /** A first chunk that passes all checks. */
  lemma Accepts(r: Receiver, h: Route, f: Frame, env: Env, a: Slot, body: seq<byte>)
    requires HEADER_SIZE <= f.len <= MAX_LEN && Announced(f.data, h) == a && a.Busy?
    requires f.data[HEADER_SIZE..f.len] == body
    requires AddressValid(h.to) && AddressValid(h.from) && a.id != ERROR_ID
    requires f.len - HEADER_SIZE <= a.expected && Granted(r, a.expected, env)
    ensures TakeFirst(r, h, f, env) == Finish(a.(payload := body))
  {
  }

  lemma AnnouncedIs(m: Message, octets: Octets, h: Route)
    requires m.Typed() && octets[..HEADER_SIZE] == Header(m)
    requires h == Route(m.from % ADDRESSES, m.to % ADDRESSES, m.priority % PRIORITIES, true)
    ensures Announced(octets, h) == Partial(m, [], 0)
  {
    HeaderFields(m);
    assert forall i :: 0 <= i < 6 ==> octets[i] == octets[..HEADER_SIZE][i];
  }

  /** A further chunk appends its bytes. */
  lemma NextTaken(m: Message, data: seq<byte>, c: nat, at: nat)
    requires |data| == |m.data| && ChunkLengthValid(c) && HEADER_SIZE <= at < HEADER_SIZE + |data|
    ensures var f := CutAt(m, data, c, at);
            TakeNext(Partial(m, data, Past(|data|, at)), f) == Finish(Partial(m, data, Past(|data|, at + c)))
  {
    var f := CutAt(m, data, c, at);
    FrameOf(m, data, c, at);
    Appended(Header(m), data, at - HEADER_SIZE, f.len);
    Appends(Partial(m, data, Past(|data|, at)), f, data[..Past(|data|, at + c)]);
  }

  lemma Appends(s: Slot, f: Frame, payload: seq<byte>)
    requires s.Busy? && f.len <= MAX_LEN && s.payload + f.Body() == payload && |payload| <= s.expected
    ensures TakeNext(s, f) == Finish(s.(payload := payload))
  {
  }

  lemma Appended(header: seq<byte>, data: seq<byte>, got: nat, n: nat)
    requires |header| == HEADER_SIZE && got + n <= |data|
    ensures data[..got] + (header + data)[HEADER_SIZE + got..HEADER_SIZE + got + n] == data[..got + n]
  {
  }

  // --------------------------------------------------------------- one chunk of a message

  /** Slot `i` holds `s`, and is not lent out. */
  ghost predicate At(r: Receiver, i: nat, s: Slot) {
    i < |r.slots| && r.slots[i] == s && r.view != Some(i)
  }

  /** The reply to the chunk that completes the message: it is delivered if and only
      if the data have the announced CRC. */
  function Verdict(m: Message, data: seq<byte>, lend: bool, env: Env): Reply {
    if Crc16.Crc(data) != Crc16.Crc(m.data) then Reply(WrongCrc, None)
    else if !lend && !env.copyGranted then Reply(CantSaveMessage, None)
    else Reply(Ok, Some(m.OnWire().(data := data)))
  }

  lemma Arrived(r: Receiver, f: Frame, env: Env, i: nat, s: Slot)
    requires f.len <= MAX_LEN && s.Busy? && (RouteOf(f.id).to == r.own || r.monitoring)
    requires i < |r.slots| && i == GetOrAlloc(Expire(r).slots, RouteOf(f.id).Sig())
    requires var h := RouteOf(f.id);
             Finish(s) == if h.first then TakeFirst(Expire(r), h, f, env) else TakeNext(Expire(r).slots[i], f)
    ensures RxAddChunk(r, f, env) ==
      Accepted(Expire(r).(slots := Expire(r).slots[i := s]), Finish(s).result,
               if Finish(s).complete then Some(i) else None)
  {
  }

  /** What a call does once the entry of its chunk is settled. */
  lemma Settled(r: Receiver, c: Call, i: nat, s: Slot, m: Message, data: seq<byte>, got: nat)
    requires ReceiverOk(r) && c.frame.len <= MAX_LEN && got <= |data| == |m.data|
    requires var h := RouteOf(c.frame.id); h.to == r.own || r.monitoring
    requires i < |r.slots| && i == GetOrAlloc(Expire(r).slots, RouteOf(c.frame.id).Sig())
    requires s == Partial(m, data, got)
    requires var h := RouteOf(c.frame.id);
             Finish(s) == if h.first then TakeFirst(Expire(r), h, c.frame, c.env)
                          else TakeNext(Expire(r).slots[i], c.frame)
    ensures var (r', reply) := Perform(r, c);
            && |r'.slots| == |r.slots|
            && (forall j :: 0 <= j < |r.slots| && j != i ==> r'.slots[j] == Expire(r).slots[j] && r'.view != Some(j))
            && (got < |data| ==> reply == Reply(Ok, None) && At(r', i, s))
            && (got == |data| ==> reply == Verdict(m, data, c.lend, c.env))
            && (got == |data| && Crc16.Crc(data) == Crc16.Crc(m.data) ==> r'.slots[i].Free? || r'.view == Some(i))
            && (got == |data| && Crc16.Crc(data) != Crc16.Crc(m.data) ==> At(r', i, s))
  {
    Arrived(r, c.frame, c.env, i, s);
    assert data[..|data|] == data;
  }

  /** The first chunk of a message, with whatever its pair had received before. */
  lemma FirstChunk(r: Receiver, c: Call, m: Message, data: seq<byte>, size: nat)
    requires ReceiverOk(r) && Deliverable(r, m) && |data| == |m.data| && ChunkLengthValid(size)
    requires c.frame == Cut(m, data, size, 0) && c.env.dataGranted
    requires GetOrAlloc(Expire(r).slots, m.Sig()) < |r.slots|
    ensures var (r', reply) := Perform(r, c);
            var i := GetOrAlloc(Expire(r).slots, m.Sig());
            var got := Past(|data|, size);
            && |r'.slots| == |r.slots|
            && (forall j :: 0 <= j < |r.slots| && j != i ==> r'.slots[j] == Expire(r).slots[j] && r'.view != Some(j))
            && (got < |data| ==> reply == Reply(Ok, None) && At(r', i, Partial(m, data, got)))
            && (got == |data| ==> reply == Verdict(m, data, c.lend, c.env))
            && (got == |data| && Crc16.Crc(data) == Crc16.Crc(m.data) ==> r'.slots[i].Free? || r'.view == Some(i))
  {
    var e := Expire(r);
    ExpireKeeps(r);
    FrameOf(m, data, size, 0);
    FirstTaken(e, m, data, size, c.env);
    Settled(r, c, GetOrAlloc(e.slots, m.Sig()), Partial(m, data, Past(|data|, size)), m, data, Past(|data|, size));
  }

  /** A further chunk of a message that is under way. */
  lemma NextChunk(r: Receiver, c: Call, i: nat, m: Message, data: seq<byte>, size: nat, at: nat)
    requires ReceiverOk(r) && Deliverable(r, m) && |data| == |m.data| && ChunkLengthValid(size)
    requires HEADER_SIZE <= at < HEADER_SIZE + |data| && c.frame == CutAt(m, data, size, at)
    requires At(r, i, Partial(m, data, Past(|data|, at)))
    ensures var (r', reply) := Perform(r, c);
            var got := Past(|data|, at + size);
            && |r'.slots| == |r.slots|
            && (forall j :: 0 <= j < |r.slots| && j != i ==> r'.slots[j] == Expire(r).slots[j] && r'.view != Some(j))
            && (got < |data| ==> reply == Reply(Ok, None) && At(r', i, Partial(m, data, got)))
            && (got == |data| ==> reply == Verdict(m, data, c.lend, c.env))
            && (got == |data| && Crc16.Crc(data) == Crc16.Crc(m.data) ==> r'.slots[i].Free? || r'.view == Some(i))
  {
    var e := Expire(r);
    ExpireKeeps(r);
    FrameOf(m, data, size, at);
    NextTaken(m, data, size, at);
    FindIs(e.slots, m.Sig(), i);
    Settled(r, c, i, Partial(m, data, Past(|data|, at + size)), m, data, Past(|data|, at + size));
  }

  /** Slot `i` holds the first `k` chunks, unless these are all. */
  ghost predicate Holding(r: Receiver, i: nat, m: Message, data: seq<byte>, size: nat, k: nat)
    requires ChunkLengthValid(size) && k > 0
  {
    k < ChunksCount(|data|, size) ==> At(r, i, Partial(m, data, Got(|data|, size, k)))
  }

  /** Chunk `k` of a message: the call answers OK without a message up to the last
      chunk, and gives the verdict there. */
  lemma ChunkStep(r: Receiver, c: Call, i: nat, m: Message, data: seq<byte>, size: nat, k: nat)
    requires ReceiverOk(r) && Deliverable(r, m) && |data| == |m.data| && ChunkLengthValid(size)
    requires size * k < HEADER_SIZE + |data| && c.frame == Cut(m, data, size, k)
    requires k == 0 ==> c.env.dataGranted && i == GetOrAlloc(Expire(r).slots, m.Sig()) < |r.slots|
    requires k > 0 ==> At(r, i, Partial(m, data, Got(|data|, size, k)))
    ensures var (r', reply) := Perform(r, c);
            var last := k + 1 == ChunksCount(|data|, size);
            && |r'.slots| == |r.slots|
            && reply == (if last then Verdict(m, data, c.lend, c.env) else Reply(Ok, None))
            && k + 1 <= ChunksCount(|data|, size) && Holding(r', i, m, data, size, k + 1)
            && (last && Crc16.Crc(data) == Crc16.Crc(m.data) ==> r'.slots[i].Free? || r'.view == Some(i))
            && (forall j :: 0 <= j < |r.slots| && j != i ==> r'.slots[j] == Expire(r).slots[j] && r'.view != Some(j))
  {
    Positions(|data|, size, k);
    if k == 0 {
      FirstChunk(r, c, m, data, size);
    } else {
      NextChunk(r, c, i, m, data, size, size * k);
    }
  }

  /** What is held after the chunk. */
  lemma ChunkHolds(r: Receiver, c: Call, i: nat, m: Message, data: seq<byte>, size: nat, k: nat)
    requires ReceiverOk(r) && Deliverable(r, m) && |data| == |m.data| && ChunkLengthValid(size)
    requires size * k < HEADER_SIZE + |data| && c.frame == Cut(m, data, size, k)
    requires k == 0 ==> c.env.dataGranted && i == GetOrAlloc(Expire(r).slots, m.Sig()) < |r.slots|
    requires k > 0 ==> At(r, i, Partial(m, data, Got(|data|, size, k)))
    ensures Holding(Perform(r, c).0, i, m, data, size, k + 1)
  {
    ChunkStep(r, c, i, m, data, size, k);
  }

  lemma Positions(length: nat, size: nat, k: nat)
    requires ChunkLengthValid(size) && size * k < HEADER_SIZE + length
    ensures size * (k + 1) == size * k + size && (k > 0 ==> size * k >= HEADER_SIZE)
    ensures k + 1 <= ChunksCount(length, size)
    ensures k + 1 == ChunksCount(length, size) <==> size * k + size >= HEADER_SIZE + length
  {
    CutInside(length, size, k);
    CutInside(length, size, k + 1);
  }

  // ------------------------------------------------------------------------- recovery

  /** Calls for the pair `sig` among the first `n`. */
  ghost function Own(calls: seq<Call>, sig: nat, n: nat): nat
    requires n <= |calls|
  {
    CountTo(calls, (c: Call) => Concerns(c, sig), n)
  }

  /** The chunks of the pair among the calls are those of the message, in order. */
  ghost predicate Feeds(calls: seq<Call>, m: Message, data: seq<byte>, size: nat)
    requires ChunkLengthValid(size)
  {
    forall n :: 0 <= n < |calls| ==> Fed(calls[n], m, data, size, Own(calls, m.Sig(), n))
  }

  /** A call for the pair brings chunk `k`. */
  ghost predicate Fed(c: Call, m: Message, data: seq<byte>, size: nat, k: nat)
    requires ChunkLengthValid(size)
  {
    Concerns(c, m.Sig()) ==> size * k < HEADER_SIZE + |data| && c.frame == Cut(m, data, size, k)
  }

  lemma RunNext(r: Receiver, calls: seq<Call>, sig: nat, n: nat)
    requires n < |calls|
    ensures Run(r, calls[..n + 1]) == Perform(Run(r, calls[..n]), calls[n]).0
    ensures Own(calls, sig, n + 1) == if Concerns(calls[n], sig) then Own(calls, sig, n) + 1 else Own(calls, sig, n)
    ensures Run(r, calls[..0]) == r && Own(calls, sig, 0) == 0
  {
    assert calls[..n + 1][..n] == calls[..n];
  }

  /** After `n` calls entry `i` holds what came of the message. */
  ghost predicate HeldAfter(r: Receiver, calls: seq<Call>, i: nat, m: Message, data: seq<byte>, size: nat, n: nat)
    requires ChunkLengthValid(size) && n <= |calls|
  {
    && Own(calls, m.Sig(), n) > 0
    && Holding(Run(r, calls[..n]), i, m, data, size, Own(calls, m.Sig(), n))
  }

  lemma OneCallLater(r: Receiver, calls: seq<Call>, i: nat, m: Message, data: seq<byte>, size: nat, n: nat)
    requires ReceiverOk(r) && Deliverable(r, m) && |data| == |m.data| && ChunkLengthValid(size)
    requires 0 < n < |calls| && Feeds(calls, m, data, size) && HeldAfter(r, calls, i, m, data, size, n)
    ensures HeldAfter(r, calls, i, m, data, size, n + 1)
  {
    RunKeeps(r, calls[..n]);
    Stays(Run(r, calls[..n]), calls[n], i, m, data, size, Own(calls, m.Sig(), n));
    RunNext(r, calls, m.Sig(), n);
  }

  lemma FirstCall(r: Receiver, calls: seq<Call>, m: Message, data: seq<byte>, size: nat)
    requires ReceiverOk(r) && Deliverable(r, m) && |data| == |m.data| && ChunkLengthValid(size)
    requires calls != [] && Fed(calls[0], m, data, size, 0) && Concerns(calls[0], m.Sig())
    requires calls[0].env.dataGranted && GetOrAlloc(Expire(r).slots, m.Sig()) < |r.slots|
    ensures HeldAfter(r, calls, GetOrAlloc(Expire(r).slots, m.Sig()), m, data, size, 1)
  {
    RunNext(r, calls, m.Sig(), 0);
    FirstStays(r, calls[0], m, data, size);
  }

  /** From the first chunk on the message has a slot until its last chunk. */
  lemma {:induction false} UnderWay(r: Receiver, calls: seq<Call>, m: Message, data: seq<byte>, size: nat, n: nat)
      returns (i: nat)
    requires ReceiverOk(r) && Deliverable(r, m) && |data| == |m.data| && ChunkLengthValid(size)
    requires 0 < n <= |calls| && Feeds(calls, m, data, size)
    requires Concerns(calls[0], m.Sig()) && calls[0].env.dataGranted && GetOrAlloc(Expire(r).slots, m.Sig()) < |r.slots|
    ensures HeldAfter(r, calls, i, m, data, size, n)
  {
    if n == 1 {
      i := GetOrAlloc(Expire(r).slots, m.Sig());
      FirstCall(r, calls, m, data, size);
    } else {
      i := UnderWay(r, calls, m, data, size, n - 1);
      OneCallLater(r, calls, i, m, data, size, n - 1);
    }
  }

  lemma FirstStays(r: Receiver, c: Call, m: Message, data: seq<byte>, size: nat)
    requires ReceiverOk(r) && Deliverable(r, m) && |data| == |m.data| && ChunkLengthValid(size)
    requires Fed(c, m, data, size, 0) && Concerns(c, m.Sig())
    requires c.env.dataGranted && GetOrAlloc(Expire(r).slots, m.Sig()) < |r.slots|
    ensures Holding(Perform(r, c).0, GetOrAlloc(Expire(r).slots, m.Sig()), m, data, size, 1)
  {
    ChunkHolds(r, c, GetOrAlloc(Expire(r).slots, m.Sig()), m, data, size, 0);
  }

  /** One call later. */
  lemma Stays(r: Receiver, c: Call, i: nat, m: Message, data: seq<byte>, size: nat, k: nat)
    requires ReceiverOk(r) && Deliverable(r, m) && |data| == |m.data| && ChunkLengthValid(size) && k > 0
    requires Holding(r, i, m, data, size, k) && Fed(c, m, data, size, k)
    ensures Holding(Perform(r, c).0, i, m, data, size, if Concerns(c, m.Sig()) then k + 1 else k)
  {
    CutInside(|data|, size, k);
    if Concerns(c, m.Sig()) {
      Positions(|data|, size, k);
      ChunkHolds(r, c, i, m, data, size, k);
    } else {
      PerformKeeps(r, c);
    }
  }

  /** Whatever a receiver holds: half-received messages, a leftover of a wrong CRC,
      a message lent out. If the pair of `m` has a slot, or one is free or only lent
      out, then feeding the chunks of `m` answers OK without a message up to the last
      one and gives the verdict there, whatever other pairs send in between. */
  lemma Recovery(r: Receiver, calls: seq<Call>, m: Message, data: seq<byte>, size: nat, n: nat)
    requires ReceiverOk(r) && Deliverable(r, m) && |data| == |m.data| && ChunkLengthValid(size)
    requires n < |calls| && Feeds(calls, m, data, size)
    requires Concerns(calls[0], m.Sig()) && calls[0].env.dataGranted && GetOrAlloc(Expire(r).slots, m.Sig()) < |r.slots|
    requires Concerns(calls[n], m.Sig())
    ensures Perform(Run(r, calls[..n]), calls[n]).1
      == if Own(calls, m.Sig(), n) + 1 == ChunksCount(|data|, size) then Verdict(m, data, calls[n].lend, calls[n].env)
         else Reply(Ok, None)
  {
    var q, k := Run(r, calls[..n]), Own(calls, m.Sig(), n);
    RunKeeps(r, calls[..n]);
    RunNext(r, calls, m.Sig(), 0);
    if n == 0 {
      ChunkStep(r, calls[0], GetOrAlloc(Expire(r).slots, m.Sig()), m, data, size, 0);
    } else {
      var i := UnderWay(r, calls, m, data, size, n);
      CutInside(|data|, size, k);
      ChunkStep(q, calls[n], i, m, data, size, k);
    }
  }

  /** A slot is found if and only if the pair has one, or one is free or lent out. */
  lemma RoomFor(r: Receiver, sig: nat)
    requires ReceiverOk(r)
    ensures GetOrAlloc(Expire(r).slots, sig) < |r.slots|
      <==> exists i :: 0 <= i < |r.slots| && (r.slots[i].Free? || r.slots[i].sig == sig || r.view == Some(i))
  {
    ExpireKeeps(r);
    var e := Expire(r);
    SlotChosen(e.slots, sig);
    var i := GetOrAlloc(e.slots, sig);
    if i < |r.slots| {
      assert e.slots[i].Free? || e.slots[i].sig == sig;
      assert r.slots[i].Free? || r.slots[i].sig == sig || r.view == Some(i);
    }
  }

  /** Without such a slot the message is turned away at its first chunk. */
  lemma NoRoomRefused(r: Receiver, c: Call, m: Message, data: seq<byte>, size: nat)
    requires ReceiverOk(r) && Deliverable(r, m) && |data| == |m.data| && ChunkLengthValid(size)
    requires c.frame == Cut(m, data, size, 0) && GetOrAlloc(Expire(r).slots, m.Sig()) == |r.slots|
    ensures Perform(r, c) == (Expire(r), Reply(CantAllocateNewMsg, None))
  {
    ExpireKeeps(r);
    FrameOf(m, data, size, 0);
  }

  /** Unaltered chunks deliver the message. */
  lemma Delivers(r: Receiver, calls: seq<Call>, m: Message, size: nat, n: nat)
    requires ReceiverOk(r) && Deliverable(r, m) && ChunkLengthValid(size)
    requires n < |calls| && Feeds(calls, m, m.data, size)
    requires Concerns(calls[0], m.Sig()) && calls[0].env.dataGranted && GetOrAlloc(Expire(r).slots, m.Sig()) < |r.slots|
    requires Concerns(calls[n], m.Sig()) && Own(calls, m.Sig(), n) + 1 == ChunksCount(|m.data|, size)
    requires calls[n].env.copyGranted
    ensures Perform(Run(r, calls[..n]), calls[n]).1 == Reply(Ok, Some(m.OnWire()))
  {
    Recovery(r, calls, m, m.data, size, n);
  }

  /** Why the first chunk of any other message is turned away; the first reason counts. */
  ghost function Refusal(r: Receiver, m: Message, env: Env): Result {
    if m.from % 0x1000 == 0 || m.to % 0x1000 == 0 then WrongAddress
    else if |m.data| > r.maxPayload && (r.maxPayload != 0 || r.fixed) then CantAllocateData
    else if |m.data| > 0 && !r.fixed && !env.dataGranted then CantAllocateData
    else ReceivedErrorId
  }

  lemma FirstRefused(r: Receiver, m: Message, c: nat, env: Env)
    requires m.Typed() && !Deliverable(r, m) && ChunkLengthValid(c) && (m.to % ADDRESSES == r.own || r.monitoring)
    ensures var f := CutAt(m, m.data, c, 0);
            f.len <= MAX_LEN && TakeFirst(r, RouteOf(f.id), f, env) == Taken(Free, Refusal(r, m, env), false)
  {
    var f := CutAt(m, m.data, c, 0);
    FrameOf(m, m.data, c, 0);
    if AddressValid(m.from % ADDRESSES) && AddressValid(m.to % ADDRESSES) {
      FirstBytes(m, m.data, c);
      AnnouncedIs(m, f.data, RouteOf(f.id));
    }
  }

  ghost predicate NoneOf(r: Receiver, sig: nat) { forall i :: 0 <= i < |r.slots| ==> !Holds(r.slots[i], sig) }

  lemma NoneAppears(r: Receiver, c: Call, sig: nat)
    requires ReceiverOk(r) && NoneOf(r, sig) && !Concerns(c, sig)
    ensures NoneOf(Perform(r, c).0, sig)
  {
    if c.frame.len <= MAX_LEN {
      ExpireKeeps(r);
      var e, h := Expire(r), RouteOf(c.frame.id);
      AddToTableKeeps(e, h, c.frame, c.env);
      OnlyOwnChanges(e, h, c.frame, c.env, sig);
    }
  }

  lemma OnlyOwnChanges(e: Receiver, h: Route, f: Frame, env: Env, sig: nat)
    requires ReceiverOk(e) && e.view == None && f.len <= MAX_LEN && NoneOf(e, sig) && h.Sig() != sig
    ensures NoneOf(AddToTable(e, h, f, env).receiver, sig)
  {
    var i := GetOrAlloc(e.slots, h.Sig());
    if (h.to == e.own || e.monitoring) && i < |e.slots| {
      SlotChosen(e.slots, h.Sig());
      TakenKeeps(e, h, f, env, i);
    }
  }

  ghost predicate Heard(r: Receiver, m: Message) { m.to % 0x1000 == r.own || r.monitoring }

  ghost function RefusalOf(r: Receiver, m: Message, env: Env, k: nat): Result {
    if !Heard(r, m) then UnrelatedAddressTo
    else if GetOrAlloc(Expire(r).slots, m.Sig()) == |r.slots| then CantAllocateNewMsg
    else if k == 0 then Refusal(r, m, env) else DataWithoutHeader
  }

  /** A chunk for an entry that takes nothing of it. */
  lemma EmptiesEntry(r: Receiver, c: Call, sig: nat, result: Result)
    requires ReceiverOk(r) && c.frame.len <= MAX_LEN && RouteOf(c.frame.id).Sig() == sig
    requires RouteOf(c.frame.id).to == r.own || r.monitoring
    requires var i := GetOrAlloc(Expire(r).slots, sig);
             i < |r.slots| ==>
               var h := RouteOf(c.frame.id);
               Taken(Free, result, false)
               == if h.first then TakeFirst(Expire(r), h, c.frame, c.env) else TakeNext(Expire(r).slots[i], c.frame)
    ensures Perform(r, c).1
            == Reply(if GetOrAlloc(Expire(r).slots, sig) == |r.slots| then CantAllocateNewMsg else result, None)
    ensures NoneOf(Perform(r, c).0, sig)
  {
    ExpireKeeps(r);
    SlotChosen(Expire(r).slots, sig);
  }

  lemma FirstOneRefused(r: Receiver, c: Call, m: Message, size: nat)
    requires ReceiverOk(r) && m.Typed() && !Deliverable(r, m) && ChunkLengthValid(size) && Heard(r, m)
    requires c.frame == CutAt(m, m.data, size, 0)
    ensures Perform(r, c).1 == Reply(RefusalOf(r, m, c.env, 0), None) && NoneOf(Perform(r, c).0, m.Sig())
  {
    ExpireKeeps(r);
    FrameOf(m, m.data, size, 0);
    FirstRefused(Expire(r), m, size, c.env);
    EmptiesEntry(r, c, m.Sig(), Refusal(r, m, c.env));
  }

  lemma ChunkRefused(r: Receiver, c: Call, m: Message, size: nat, k: nat)
    requires ReceiverOk(r) && m.Typed() && !Deliverable(r, m) && ChunkLengthValid(size)
    requires size * k < HEADER_SIZE + |m.data| && c.frame == Cut(m, m.data, size, k) && (k > 0 ==> NoneOf(r, m.Sig()))
    ensures Perform(r, c).1 == Reply(RefusalOf(r, m, c.env, k), None) && NoneOf(Perform(r, c).0, m.Sig())
  {
    Positions(|m.data|, size, k);
    RefusedAt(r, c, m, size, size * k, k);
  }

  lemma RefusedAt(r: Receiver, c: Call, m: Message, size: nat, at: nat, k: nat)
    requires ReceiverOk(r) && m.Typed() && !Deliverable(r, m) && ChunkLengthValid(size) && (k == 0 <==> at == 0)
    requires at < HEADER_SIZE + |m.data| && c.frame == CutAt(m, m.data, size, at) && (k > 0 ==> NoneOf(r, m.Sig()))
    ensures Perform(r, c).1 == Reply(RefusalOf(r, m, c.env, k), None) && NoneOf(Perform(r, c).0, m.Sig())
  {
    if !Heard(r, m) {
      Unheard(r, c, m, size, at);
    } else if k == 0 {
      FirstOneRefused(r, c, m, size);
    } else {
      LaterRefused(r, c, m, size, at);
    }
  }

  lemma Unheard(r: Receiver, c: Call, m: Message, size: nat, at: nat)
    requires ReceiverOk(r) && ChunkLengthValid(size) && !Heard(r, m)
    requires at < HEADER_SIZE + |m.data| && c.frame == CutAt(m, m.data, size, at)
    ensures Perform(r, c).1 == Reply(UnrelatedAddressTo, None) && NoneOf(Perform(r, c).0, m.Sig())
  {
    FrameOf(m, m.data, size, at);
    ExpireKeeps(r);
    NobodyHas(r, m);
  }

  lemma LaterRefused(r: Receiver, c: Call, m: Message, size: nat, at: nat)
    requires ReceiverOk(r) && ChunkLengthValid(size) && Heard(r, m) && NoneOf(r, m.Sig())
    requires 0 < at < HEADER_SIZE + |m.data| && c.frame == CutAt(m, m.data, size, at)
    ensures Perform(r, c).1 == Reply(RefusalOf(r, m, c.env, 1), None) && NoneOf(Perform(r, c).0, m.Sig())
  {
    FrameOf(m, m.data, size, at);
    NextRefused(r, c, m);
    EmptiesEntry(r, c, m.Sig(), DataWithoutHeader);
  }

  lemma NextRefused(r: Receiver, c: Call, m: Message)
    requires ReceiverOk(r) && c.frame.len <= MAX_LEN && NoneOf(r, m.Sig())
    ensures var i := GetOrAlloc(Expire(r).slots, m.Sig());
            i < |r.slots| ==> TakeNext(Expire(r).slots[i], c.frame) == Taken(Free, DataWithoutHeader, false)
  {
    ExpireKeeps(r);
    SlotChosen(Expire(r).slots, m.Sig());
  }

  /** No entry is for an address the receiver does not listen to. */
  lemma NobodyHas(r: Receiver, m: Message)
    requires ReceiverOk(r) && !Heard(r, m)
    ensures NoneOf(r, m.Sig()) && NoneOf(Expire(r), m.Sig())
  {
    forall i | 0 <= i < |r.slots| && Holds(r.slots[i], m.Sig()) ensures false {
      SignatureInjective(r.slots[i].from, r.slots[i].to, m.from % ADDRESSES, m.to % ADDRESSES);
    }
  }

  lemma {:induction false} NoneLeft(r: Receiver, calls: seq<Call>, m: Message, size: nat, n: nat)
    requires ReceiverOk(r) && m.Typed() && !Deliverable(r, m) && ChunkLengthValid(size)
    requires 0 < n <= |calls| && Feeds(calls, m, m.data, size) && Concerns(calls[0], m.Sig())
    ensures NoneOf(Run(r, calls[..n]), m.Sig()) && Own(calls, m.Sig(), n) > 0
  {
    RunNext(r, calls, m.Sig(), n - 1);
    if n > 1 { NoneLeft(r, calls, m, size, n - 1); }
    RunKeeps(r, calls[..n - 1]);
    StillNone(Run(r, calls[..n - 1]), calls[n - 1], m, size, Own(calls, m.Sig(), n - 1));
  }

  lemma StillNone(r: Receiver, c: Call, m: Message, size: nat, k: nat)
    requires ReceiverOk(r) && m.Typed() && !Deliverable(r, m) && ChunkLengthValid(size) && Fed(c, m, m.data, size, k)
    requires if k == 0 then Concerns(c, m.Sig()) else NoneOf(r, m.Sig())
    ensures NoneOf(Perform(r, c).0, m.Sig())
  {
    if Concerns(c, m.Sig()) {
      ChunkRefused(r, c, m, size, k);
    } else {
      NoneAppears(r, c, m.Sig());
    }
  }

  /** Any other message is never delivered, whatever the receiver holds and other pairs
      send in between. Each chunk is answered: the first with the reason, the others as
      data without a header; or with the lack of an entry; or as unrelated. */
  lemma NeverDelivered(r: Receiver, calls: seq<Call>, m: Message, size: nat, n: nat)
    requires ReceiverOk(r) && m.Typed() && !Deliverable(r, m) && ChunkLengthValid(size)
    requires n < |calls| && Feeds(calls, m, m.data, size)
    requires Concerns(calls[0], m.Sig()) && Concerns(calls[n], m.Sig())
    ensures Perform(Run(r, calls[..n]), calls[n]).1
            == Reply(RefusalOf(Run(r, calls[..n]), m, calls[n].env, Own(calls, m.Sig(), n)), None)
  {
    RunKeeps(r, calls[..n]);
    RunNext(r, calls, m.Sig(), 0);
    if n > 0 { NoneLeft(r, calls, m, size, n); }
    ChunkRefused(Run(r, calls[..n]), calls[n], m, size, Own(calls, m.Sig(), n));
  }

  /** A change of the data confined to 16 consecutive bits is always noticed. */
  lemma BurstRejected(r: Receiver, calls: seq<Call>, m: Message, data: seq<byte>, bit: nat, size: nat, n: nat)
    requires ReceiverOk(r) && Deliverable(r, m) && ChunkLengthValid(size) && Crc16.BurstAt(m.data, data, bit)
    requires n < |calls| && Feeds(calls, m, data, size)
    requires Concerns(calls[0], m.Sig()) && calls[0].env.dataGranted && GetOrAlloc(Expire(r).slots, m.Sig()) < |r.slots|
    requires Concerns(calls[n], m.Sig())
    ensures var last := Own(calls, m.Sig(), n) + 1 == ChunksCount(|data|, size);
            Perform(Run(r, calls[..n]), calls[n]).1 == Reply(if last then WrongCrc else Ok, None)
  {
    Recovery(r, calls, m, data, size, n);
    Crc16.BurstDetected(m.data, data, bit);
  }

  // --------------------------------------------------------------------- interleaving

  /** The next chunk of a message; `lend` chooses the form of the call. */
  datatype Event = Event(m: Message, size: nat, k: nat, lend: bool) {
    ghost predicate Proper(r: Receiver) {
      Deliverable(r, m) && ChunkLengthValid(size) && size * k < HEADER_SIZE + |m.data|
    }
    predicate Last() { k + 1 == ChunksCount(|m.data|, size) }
  }

  /** The call hands in the chunk, and memory is granted. */
  ghost predicate Carries(c: Call, e: Event) {
    && ChunkLengthValid(e.size) && e.size * e.k < HEADER_SIZE + |e.m.data|
    && c.frame == Cut(e.m, e.m.data, e.size, e.k)
    && c.lend == e.lend && c.env.dataGranted && c.env.copyGranted
  }

  /** Messages under way: by pair, the chunk that comes next. */
  type Progress = map<nat, Event>

  /** A pair starts a message only when it has finished the one before, and while a
      slot is left; otherwise it goes on with the next chunk of its message. */
  ghost predicate Allowed(r: Receiver, p: Progress, e: Event) {
    InTurn(r, p, e) && (e.k == 0 ==> |p| < |r.slots|)
  }

  ghost function Advance(p: Progress, e: Event): Progress {
    if e.Last() then p - {e.m.Sig()} else p[e.m.Sig() := e.(k := e.k + 1)]
  }

  /** A message is delivered at its last chunk, and nothing else is. */
  function Expected(e: Event): Reply {
    Reply(Ok, if e.Last() then Some(e.m.OnWire()) else None)
  }

  ghost predicate UnderWayAt(r: Receiver, e: Event, i: nat)
    requires e.k > 0 && ChunkLengthValid(e.size)
  {
    At(r, i, Partial(e.m, e.m.data, Got(|e.m.data|, e.size, e.k)))
  }

  ghost predicate Found(r: Receiver, e: Event)
    requires e.k > 0 && ChunkLengthValid(e.size)
  {
    exists i :: UnderWayAt(r, e, i)
  }

  ghost predicate AllFound(r: Receiver, p: Progress) {
    forall sig :: sig in p ==> p[sig].m.Sig() == sig && p[sig].k > 0 && p[sig].Proper(r) && Found(r, p[sig])
  }

  ghost predicate NothingElse(r: Receiver, p: Progress) {
    forall i :: 0 <= i < |r.slots| && r.slots[i].Busy? && r.view != Some(i) ==> r.slots[i].sig in p
  }

  /** The table holds exactly the messages under way. */
  ghost predicate Tracks(r: Receiver, p: Progress) {
    ReceiverOk(r) && AllFound(r, p) && NothingElse(r, p)
  }

  /** Pairwise distinct pairs from a set fill at most as many slots. */
  lemma {:induction false} Crowded(slots: seq<Slot>, n: nat, keys: set<nat>)
    requires n <= |slots| && DistinctPairs(slots)
    requires forall i :: 0 <= i < n ==> slots[i].Busy? && slots[i].sig in keys
    ensures n <= |keys|
  {
    if n > 0 {
      Crowded(slots, n - 1, keys - {slots[n - 1].sig});
    }
  }

  /** While fewer messages are under way than there are slots, a new pair finds
      one. */
  lemma SlotLeft(r: Receiver, p: Progress, sig: nat)
    requires ReceiverOk(r) && NothingElse(r, p) && |p| < |r.slots|
    ensures GetOrAlloc(Expire(r).slots, sig) < |r.slots|
  {
    var e := Expire(r);
    ExpireKeeps(r);
    SlotChosen(e.slots, sig);
    if GetOrAlloc(e.slots, sig) == |r.slots| {
      Crowded(e.slots, |r.slots|, p.Keys);
    }
  }

  /** What a chunk does to the table: entry `i` changes, the others only lose an
      expired view. */
  ghost predicate TouchesOnly(r: Receiver, r': Receiver, i: nat) {
    && SameSettings(r, r') && i < |r.slots|
    && forall j :: 0 <= j < |r.slots| && j != i ==>
         r'.slots[j] == (if r.view == Some(j) then Free else r.slots[j]) && r'.view != Some(j)
  }

  lemma EventStep(r: Receiver, p: Progress, e: Event, c: Call)
    requires Tracks(r, p) && Allowed(r, p, e) && Carries(c, e)
    ensures Perform(r, c).1 == Expected(e)
    ensures Tracks(Perform(r, c).0, Advance(p, e)) && SameSettings(r, Perform(r, c).0)
  {
    var i := EventSlot(r, p, e);
    EventEffect(r, e, c, i);
    Tracked(r, Perform(r, c).0, p, e, i);
  }

  lemma EventEffect(r: Receiver, e: Event, c: Call, i: nat)
    requires ReceiverOk(r) && e.Proper(r) && Carries(c, e) && i < |r.slots|
    requires if e.k == 0 then i == GetOrAlloc(Expire(r).slots, e.m.Sig()) else UnderWayAt(r, e, i)
    ensures var (r', reply) := Perform(r, c);
            && reply == Expected(e) && ReceiverOk(r') && TouchesOnly(r, r', i)
            && if e.Last() then r'.slots[i].Free? || r'.view == Some(i)
               else At(r', i, Partial(e.m, e.m.data, Got(|e.m.data|, e.size, e.k + 1)))
  {
    ChunkStep(r, c, i, e.m, e.m.data, e.size, e.k);
    PerformKeeps(r, c);
    ExpireKeeps(r);
  }

  lemma EventSlot(r: Receiver, p: Progress, e: Event) returns (i: nat)
    requires Tracks(r, p) && Allowed(r, p, e)
    ensures i < |r.slots|
    ensures e.k == 0 ==> i == GetOrAlloc(Expire(r).slots, e.m.Sig()) && (r.slots[i].Free? || r.view == Some(i))
    ensures e.k > 0 ==> UnderWayAt(r, e, i)
  {
    if e.k == 0 {
      SlotLeft(r, p, e.m.Sig());
      i := GetOrAlloc(Expire(r).slots, e.m.Sig());
      ExpireKeeps(r);
      SlotChosen(Expire(r).slots, e.m.Sig());
    } else {
      i :| UnderWayAt(r, p[e.m.Sig()], i);
    }
  }

  lemma Tracked(r: Receiver, r': Receiver, p: Progress, e: Event, i: nat)
    requires Tracks(r, p) && Allowed(r, p, e) && ReceiverOk(r') && TouchesOnly(r, r', i)
    requires if e.k == 0 then r.slots[i].Free? || r.view == Some(i) else UnderWayAt(r, e, i)
    requires if e.Last() then r'.slots[i].Free? || r'.view == Some(i)
             else At(r', i, Partial(e.m, e.m.data, Got(|e.m.data|, e.size, e.k + 1)))
    ensures Tracks(r', Advance(p, e))
  {
    var p' := Advance(p, e);
    if !e.Last() { OwnFound(r, r', e, i); }
    forall s | s in p' && s != e.m.Sig() ensures Found(r', p[s]) {
      StaysFound(r, r', p, e, i, s);
    }
    NothingAppears(r, r', p, e, i);
  }

  lemma OwnFound(r: Receiver, r': Receiver, e: Event, i: nat)
    requires e.Proper(r) && !e.Last() && SameSettings(r, r')
    requires At(r', i, Partial(e.m, e.m.data, Got(|e.m.data|, e.size, e.k + 1)))
    ensures var e' := e.(k := e.k + 1); e'.Proper(r') && Found(r', e')
  {
    Positions(|e.m.data|, e.size, e.k);
    CutInside(|e.m.data|, e.size, e.k + 1);
    assert UnderWayAt(r', e.(k := e.k + 1), i);
  }

  lemma NothingAppears(r: Receiver, r': Receiver, p: Progress, e: Event, i: nat)
    requires ReceiverOk(r) && NothingElse(r, p) && TouchesOnly(r, r', i) && e.Proper(r)
    requires e.k > 0 ==> UnderWayAt(r, e, i)
    requires e.k == 0 ==> e.m.Sig() !in p
    requires if e.Last() then r'.slots[i].Free? || r'.view == Some(i)
             else At(r', i, Partial(e.m, e.m.data, Got(|e.m.data|, e.size, e.k + 1)))
    ensures NothingElse(r', Advance(p, e))
  {
  }

  lemma StaysFound(r: Receiver, r': Receiver, p: Progress, e: Event, i: nat, s: nat)
    requires AllFound(r, p) && TouchesOnly(r, r', i) && s in p && s != e.m.Sig()
    requires e.Proper(r) && if e.k == 0 then r.slots[i].Free? || r.view == Some(i) else UnderWayAt(r, e, i)
    ensures Found(r', p[s])
  {
    var j :| UnderWayAt(r, p[s], j);
    assert UnderWayAt(r', p[s], j);
  }

  ghost function ProgressAfter(es: seq<Event>, n: nat): Progress
    requires n <= |es|
  {
    if n == 0 then map[] else Advance(ProgressAfter(es, n - 1), es[n - 1])
  }

  /** Chunks of any number of messages, interleaved in any way, never with more
      messages under way than the receiver has slots. */
  ghost predicate Schedule(r: Receiver, es: seq<Event>, calls: seq<Call>) {
    && |es| == |calls|
    && forall n :: 0 <= n < |es| ==> AllowedCall(r, ProgressAfter(es, n), es[n], calls[n])
  }

  ghost predicate AllowedCall(r: Receiver, p: Progress, e: Event, c: Call) {
    Allowed(r, p, e) && Carries(c, e)
  }

  ghost predicate Idle(r: Receiver) {
    ReceiverOk(r) && forall i :: 0 <= i < |r.slots| ==> r.slots[i].Free?
  }

  ghost predicate KeptBySteps(inv: (Receiver, Progress) -> bool, fits: (Progress, Event, Call) -> bool) {
    forall r: Receiver, p: Progress, e: Event, c: Call ::
      inv(r, p) && fits(p, e, c) ==> inv(Perform(r, c).0, Advance(p, e))
  }

  /** What every step keeps holds throughout. */
  lemma {:induction false} HoldsThroughout(r: Receiver, es: seq<Event>, calls: seq<Call>, n: nat,
                                           inv: (Receiver, Progress) -> bool, fits: (Progress, Event, Call) -> bool)
    requires inv(r, map[]) && KeptBySteps(inv, fits) && n <= |es| == |calls|
    requires forall j :: 0 <= j < |es| ==> fits(ProgressAfter(es, j), es[j], calls[j])
    ensures inv(Run(r, calls[..n]), ProgressAfter(es, n))
  {
    if n > 0 {
      HoldsThroughout(r, es, calls, n - 1, inv, fits);
      assert calls[..n][..n - 1] == calls[..n - 1];
      HoldsNext(Run(r, calls[..n - 1]), ProgressAfter(es, n - 1), es[n - 1], calls[n - 1], inv, fits);
    }
  }

  lemma HoldsNext(r: Receiver, p: Progress, e: Event, c: Call,
                  inv: (Receiver, Progress) -> bool, fits: (Progress, Event, Call) -> bool)
    requires inv(r, p) && KeptBySteps(inv, fits) && fits(p, e, c)
    ensures inv(Perform(r, c).0, Advance(p, e))
  {
  }

  ghost predicate TracksLike(r: Receiver, q: Receiver, p: Progress) {
    Tracks(q, p) && SameSettings(r, q)
  }

  lemma TracksStep(r: Receiver, q: Receiver, p: Progress, e: Event, c: Call)
    requires TracksLike(r, q, p) && AllowedCall(r, p, e, c)
    ensures Perform(q, c).1 == Expected(e) && TracksLike(r, Perform(q, c).0, Advance(p, e))
  {
    AllowedHere(r, q, p, e);
    EventStep(q, p, e, c);
  }

  lemma ScheduleTracked(r: Receiver, es: seq<Event>, calls: seq<Call>, n: nat)
    requires Idle(r) && Schedule(r, es, calls) && n <= |es|
    ensures TracksLike(r, Run(r, calls[..n]), ProgressAfter(es, n))
  {
    var inv := (q: Receiver, p: Progress) => TracksLike(r, q, p);
    var fits := (p: Progress, e: Event, c: Call) => AllowedCall(r, p, e, c);
    IdleTracks(r);
    forall q: Receiver, p: Progress, e: Event, c: Call | inv(q, p) && fits(p, e, c)
      ensures inv(Perform(q, c).0, Advance(p, e))
    {
      TracksStep(r, q, p, e, c);
    }
    HoldsThroughout(r, es, calls, n, inv, fits);
  }

  lemma IdleTracks(r: Receiver)
    requires Idle(r)
    ensures TracksLike(r, r, map[])
  {
  }

  lemma AllowedHere(r: Receiver, r': Receiver, p: Progress, e: Event)
    requires Allowed(r, p, e) && SameSettings(r, r')
    ensures Allowed(r', p, e)
  {
  }

  /** Every message is delivered unaltered exactly at its last chunk, and every other
      call answers OK with nothing delivered, whichever form each call has. */
  lemma Interleaving(r: Receiver, es: seq<Event>, calls: seq<Call>, n: nat)
    requires Idle(r) && Schedule(r, es, calls) && n < |es|
    ensures Perform(Run(r, calls[..n]), calls[n]).1 == Expected(es[n])
  {
    ScheduleTracked(r, es, calls, n);
    TracksStep(r, Run(r, calls[..n]), ProgressAfter(es, n), es[n], calls[n]);
  }

  /** The chunks of each pair are those of complete messages, one after the other. */
  ghost predicate Consecutive(r: Receiver, es: seq<Event>, calls: seq<Call>) {
    && |es| == |calls|
    && forall n :: 0 <= n < |es| ==> InTurn(r, ProgressAfter(es, n), es[n]) && Carries(calls[n], es[n])
  }

  ghost predicate InTurn(r: Receiver, p: Progress, e: Event) {
    && e.Proper(r)
    && if e.k == 0 then e.m.Sig() !in p else e.m.Sig() in p && p[e.m.Sig()].(lend := e.lend) == e
  }

  lemma {:induction false} UnderWayPairs(es: seq<Event>, pairs: set<nat>, n: nat)
    requires n <= |es| && forall j :: 0 <= j < |es| ==> es[j].m.Sig() in pairs
    ensures ProgressAfter(es, n).Keys <= pairs
  {
    if n > 0 {
      UnderWayPairs(es, pairs, n - 1);
    }
  }

  lemma Smaller(s: set<nat>, t: set<nat>, x: nat)
    requires s <= t && x in t && x !in s
    ensures |s| < |t|
  {
    InjectiveImage(s, y => y, t - {x});
  }

  /** The streams of at most as many pairs as there are slots may be interleaved in
      any way. */
  lemma FewPairs(r: Receiver, es: seq<Event>, calls: seq<Call>, pairs: set<nat>)
    requires Consecutive(r, es, calls) && |pairs| <= |r.slots|
    requires forall n :: 0 <= n < |es| ==> es[n].m.Sig() in pairs
    ensures Schedule(r, es, calls)
  {
    forall n | 0 <= n < |es| ensures AllowedCall(r, ProgressAfter(es, n), es[n], calls[n]) {
      UnderWayPairs(es, pairs, n);
      RoomInTurn(r, ProgressAfter(es, n), es[n], pairs);
    }
  }

  lemma RoomInTurn(r: Receiver, p: Progress, e: Event, pairs: set<nat>)
    requires InTurn(r, p, e) && p.Keys <= pairs && e.m.Sig() in pairs && |pairs| <= |r.slots|
    ensures Allowed(r, p, e)
  {
    if e.k == 0 {
      Smaller(p.Keys, pairs, e.m.Sig());
    }
  }
}
