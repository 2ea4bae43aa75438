/** The rules of ProtoPlexer, as a user of the protocol would write them down: what goes
    over the wire, and what each chunk is answered and leaves in the table. */
module PlexRules {
  import opened Can
  import opened PlexCore
  import opened PlexInvariants
  import opened PlexStreams
  import Crc16

  // ------------------------------------------------------------------------ the wire

  /** The fields of an identifier. */
  datatype Fields = Fields(from: nat, to: nat, priority: nat, first: bool)

  ghost predicate Says(f: Frame, h: Fields) {
    && h.to == f.id % 0x1000 && h.from == f.id / 0x1000 % 0x1000
    && h.first == (f.id / 0x100_0000 % 2 == 1) && h.priority == f.id / 0x200_0000 % 16
  }

  ghost predicate Concerning(f: Frame, h: Fields) { f.len <= 8 && Says(f, h) }

  lemma RouteIs(f: Frame, h: Fields)
    requires Says(f, h)
    ensures RouteOf(f.id) == Route(h.from, h.to, h.priority, h.first)
    ensures RouteOf(f.id).Sig() == h.to + h.from * 0x1000
  {
  }

  /** Byte `pos` of what is sent for a message: identifier, length and CRC, low byte
      first, then the data. */
  ghost function ByteSent(m: Message, pos: nat): byte
    requires m.Typed() && pos < 6 + |m.data|
  {
    match pos
    case 0 => (m.id % 256) as byte
    case 1 => (m.id / 256) as byte
    case 2 => (|m.data| % 256) as byte
    case 3 => (|m.data| / 256) as byte
    case 4 => (Crc16.Crc(m.data) & 0xff) as byte
    case 5 => (Crc16.Crc(m.data) >> 8) as byte
    case _ => m.data[pos - 6]
  }

  lemma HeaderIs(m: Message, pos: nat)
    requires m.Typed() && pos < 6
    ensures Header(m)[pos] == ByteSent(m, pos)
  {
    if pos < 2 { OctetsIs(m.id); } else if pos < 4 { OctetsIs(|m.data|); }
  }

  lemma OctetsIs(n: nat)
    requires n < 0x1_0000
    ensures LowByte(n) == (n % 256) as byte && HighByte(n) == (n / 256) as byte
  {
    assert n / 256 % 256 == n / 256;
  }

  lemma StreamIs(m: Message, pos: nat)
    requires m.Typed() && pos < 6 + |m.data|
    ensures Stream(m, m.data)[pos] == ByteSent(m, pos)
  {
    if pos < 6 { HeaderIs(m, pos); }
  }

  /** Chunk `k` carries bytes `c * k` and following, up to `c` of them; only the first
      has the first flag. There is one as long as bytes are left, and a chunk has to have
      six to eight bytes. */
  lemma ChunkIsBuilt(m: Message, c: nat, k: nat)
    requires m.Typed()
    ensures c < 6 || c > 8 ==> BuildChunk(m, c, k) == NotBuilt(CantSendHeader)
    ensures 6 <= c <= 8 && c * k >= 6 + |m.data| ==> BuildChunk(m, c, k) == NotBuilt(Failure)
    ensures 6 <= c <= 8 && c * k < 6 + |m.data| ==>
              var b := BuildChunk(m, c, k);
              var left := 6 + |m.data| - c * k;
              && b.Chunk? && b.frame.extended && b.frame.len == (if left < c then left else c)
              && b.frame.id == m.priority % 16 * 0x200_0000 + (if k == 0 then 0x100_0000 else 0)
                               + m.from % 0x1000 * 0x1000 + m.to % 0x1000
              && forall i :: 0 <= i < 8 ==>
                   b.frame.data[i] == if i < b.frame.len then ByteSent(m, c * k + i) else 0
  {
    if 6 <= c <= 8 {
      CutInside(|m.data|, c, k);
      if c * k < 6 + |m.data| { PieceIs(m, c, c * k); }
      FirstAt(c, k);
    }
  }

  lemma FirstAt(c: nat, k: nat)
    requires c > 0
    ensures c * k == 0 <==> k == 0
  {
    if k > 0 { MultiplesOrdered(1, k, c); }
  }

  lemma PieceIs(m: Message, c: nat, at: nat)
    requires m.Typed() && 6 <= c <= 8 && at < 6 + |m.data|
    ensures var f := CutAt(m, m.data, c, at);
            var left := 6 + |m.data| - at;
            && f.extended && f.len == (if left < c then left else c)
            && f.id == m.priority % 16 * 0x200_0000 + (if at == 0 then 0x100_0000 else 0)
                       + m.from % 0x1000 * 0x1000 + m.to % 0x1000
            && forall i :: 0 <= i < 8 ==> f.data[i] == if i < f.len then ByteSent(m, at + i) else 0
  {
    var f := CutAt(m, m.data, c, at);
    forall i | 0 <= i < f.len ensures f.data[i] == ByteSent(m, at + i) {
      StreamIs(m, at + i);
    }
  }

  // ----------------------------------------------------------------------- the table

  /** The message lent out is gone with the next chunk. */
  ghost function Returned(r: Receiver): Receiver
    requires ReceiverOk(r)
  {
    match r.view
    case None => r
    case Some(i) => r.(slots := r.slots[i := Free], view := None)
  }

  ghost predicate IsOwn(s: Slot, h: Fields) { s.Busy? && s.from == h.from && s.to == h.to }

  /** The pair's own entry, or the first empty one if it has none; no message lent out
      any more. */
  ghost predicate Goes(r: Receiver, i: nat, h: Fields) {
    && i < |r.slots|
    && (IsOwn(r.slots[i], h)
        || (r.slots[i].Free? && (forall j :: 0 <= j < i ==> r.slots[j].Busy?)
            && forall j :: 0 <= j < |r.slots| ==> !IsOwn(r.slots[j], h)))
  }

  ghost predicate GoesNowhere(r: Receiver, h: Fields) {
    forall j :: 0 <= j < |r.slots| ==> r.slots[j].Busy? && !IsOwn(r.slots[j], h)
  }

  lemma ReturnedIs(r: Receiver)
    requires ReceiverOk(r)
    ensures Expire(r) == Returned(r) && ReceiverOk(Returned(r)) && Returned(r).view == None
  {
    ExpireKeeps(r);
  }

  lemma OwnIs(r: Receiver, s: Slot, h: Fields)
    requires SlotOk(r, s) && h.from < 0x1000 && h.to < 0x1000
    ensures Holds(s, h.to + h.from * 0x1000) <==> IsOwn(s, h)
  {
    if s.Busy? && s.sig == h.to + h.from * 0x1000 { SignatureInjective(s.from, s.to, h.from, h.to); }
  }

  lemma GoesIs(r: Receiver, h: Fields, i: nat)
    requires ReceiverOk(r) && r.view == None && h.from < 0x1000 && h.to < 0x1000
    ensures Goes(r, i, h) ==> GetOrAlloc(r.slots, h.to + h.from * 0x1000) == i
    ensures GoesNowhere(r, h) ==> GetOrAlloc(r.slots, h.to + h.from * 0x1000) == |r.slots|
  {
    var sig := h.to + h.from * 0x1000;
    forall j | 0 <= j < |r.slots| ensures Holds(r.slots[j], sig) <==> IsOwn(r.slots[j], h) {
      OwnIs(r, r.slots[j], h);
    }
    if Goes(r, i, h) {
      if IsOwn(r.slots[i], h) { FindIs(r.slots, sig, i); } else { FirstIs(r.slots, IsFree(), i); }
    }
  }

  // ----------------------------------------------------------------------- the answers

  /** A chunk longer than eight bytes changes nothing; not even a message lent out. */
  lemma TooLong(r: Receiver, c: Call)
    requires c.frame.len > 8
    ensures Perform(r, c) == (r, Reply(InvalidChunk, None))
  {
  }

  lemma Unrelated(r: Receiver, c: Call, h: Fields)
    requires ReceiverOk(r) && Concerning(c.frame, h) && h.to != r.own && !r.monitoring
    ensures Perform(r, c) == (Returned(r), Reply(UnrelatedAddressTo, None))
  {
    ReturnedIs(r);
    RouteIs(c.frame, h);
  }

  lemma NoEntry(r: Receiver, c: Call, h: Fields)
    requires ReceiverOk(r) && Concerning(c.frame, h) && (h.to == r.own || r.monitoring)
    requires GoesNowhere(Returned(r), h)
    ensures Perform(r, c) == (Returned(r), Reply(CantAllocateNewMsg, None))
  {
    ReturnedIs(r);
    RouteIs(c.frame, h);
    GoesIs(Returned(r), h, 0);
  }

  /** The chunk is for an entry. */
  ghost predicate For(r: Receiver, c: Call, h: Fields, i: nat) {
    ReceiverOk(r) && Concerning(c.frame, h) && (h.to == r.own || r.monitoring) && Goes(Returned(r), i, h)
  }

  /** The limit for the data of a message: the configured one, if there is one, and
      nothing at all if memory of the application has none. */
  ghost predicate WithinLimit(r: Receiver, n: nat) { n <= r.maxPayload || (r.maxPayload == 0 && !r.fixed) }

  ghost predicate HasMemory(r: Receiver, n: nat, env: Env) {
    WithinLimit(r, n) && (n == 0 || r.fixed || env.dataGranted)
  }

  ghost function Number(low: byte, high: byte): nat { low as nat + 256 * (high as nat) }

  /** Why a first chunk is not taken; the first reason counts. */
  ghost function FirstFault(r: Receiver, c: Call, h: Fields): Option<Result> {
    var d := c.frame.data;
    if c.frame.len < 6 then Some(FirstAndTooShort)
    else if h.to == 0 || h.from == 0 then Some(WrongAddress)
    else if c.frame.len - 6 > Number(d[2], d[3]) then Some(HeaderDataOverflow)
    else if !HasMemory(r, Number(d[2], d[3]), c.env) then Some(CantAllocateData)
    else if Number(d[0], d[1]) == 0 then Some(ReceivedErrorId)
    else None
  }

  /** The entry a first chunk begins. */
  ghost function Begun(f: Frame, h: Fields): (s: Slot)
    requires 6 <= f.len <= 8
    ensures s.Busy?
  {
    Busy(h.to + h.from * 0x1000, Number(f.data[2], f.data[3]), (f.data[4] as bv16) | ((f.data[5] as bv16) << 8),
         Number(f.data[0], f.data[1]), h.from, h.to, h.priority, f.data[6..f.len])
  }

  /** What becomes of entry `i` once it is `s`. It stays until it has all announced
      bytes; then their CRC decides. A message with a wrong one stays too; a right one is
      copied and its entry emptied, or lent out where it is. */
  ghost function Settled(r: Receiver, c: Call, i: nat, s: Slot): (Receiver, Reply)
    requires i < |r.slots| && s.Busy?
  {
    var m := Message(s.id, s.from, s.to, s.priority, s.payload);
    var kept := r.(slots := r.slots[i := s]);
    if |s.payload| != s.expected then (kept, Reply(Ok, None))
    else if Crc16.Crc(s.payload) != s.crc then (kept, Reply(WrongCrc, None))
    else if c.lend then (kept.(view := Some(i)), Reply(Ok, Some(m)))
    else
      (r.(slots := r.slots[i := Free]),
       if c.env.copyGranted then Reply(Ok, Some(m)) else Reply(CantSaveMessage, None))
  }

  /** The rest of a call, given what it makes of its entry. */
  lemma Completes(r: Receiver, c: Call, h: Fields, i: nat, t: Taken)
    requires For(r, c, h, i)
    requires t == if h.first then TakeFirst(Returned(r), Route(h.from, h.to, h.priority, true), c.frame, c.env)
                  else TakeNext(Returned(r).slots[i], c.frame)
    ensures RxAddChunk(r, c.frame, c.env)
            == Accepted(Returned(r).(slots := Returned(r).slots[i := t.slot]), t.result,
                        if t.complete then Some(i) else None)
  {
    ReturnedIs(r);
    RouteIs(c.frame, h);
    GoesIs(Returned(r), h, i);
    Tabled(Returned(r), Route(h.from, h.to, h.priority, h.first), c.frame, c.env, i, t);
  }

  lemma Tabled(e: Receiver, route: Route, f: Frame, env: Env, i: nat, t: Taken)
    requires f.len <= MAX_LEN && (route.to == e.own || e.monitoring)
    requires GetOrAlloc(e.slots, route.Sig()) == i < |e.slots|
    requires t == if route.first then TakeFirst(e, route, f, env) else TakeNext(e.slots[i], f)
    ensures AddToTable(e, route, f, env)
            == Accepted(e.(slots := e.slots[i := t.slot]), t.result, if t.complete then Some(i) else None)
  {
  }

  lemma Rejected(r: Receiver, c: Call, h: Fields, i: nat, result: Result)
    requires For(r, c, h, i)
    requires Taken(Free, result, false)
             == if h.first then TakeFirst(Returned(r), Route(h.from, h.to, h.priority, true), c.frame, c.env)
                else TakeNext(Returned(r).slots[i], c.frame)
    ensures Perform(r, c) == (Returned(r).(slots := Returned(r).slots[i := Free]), Reply(result, None))
  {
    Completes(r, c, h, i, Taken(Free, result, false));
  }

  lemma Moves(r: Receiver, c: Call, h: Fields, i: nat, s: Slot)
    requires For(r, c, h, i) && s.Busy?
    requires Finish(s)
             == if h.first then TakeFirst(Returned(r), Route(h.from, h.to, h.priority, true), c.frame, c.env)
                else TakeNext(Returned(r).slots[i], c.frame)
    ensures Perform(r, c) == Settled(Returned(r), c, i, s)
  {
    Completes(r, c, h, i, Finish(s));
    var e := Returned(r);
    assert e.slots[i := s][i := Free] == e.slots[i := Free];
  }

  /** A first chunk with a fault empties the entry of its pair. */
  lemma FirstRejected(r: Receiver, c: Call, h: Fields, i: nat)
    requires For(r, c, h, i) && h.first && FirstFault(r, c, h).Some?
    ensures Perform(r, c)
            == (Returned(r).(slots := Returned(r).slots[i := Free]), Reply(FirstFault(r, c, h).value, None))
  {
    Rejected(r, c, h, i, FirstFault(r, c, h).value);
  }

  lemma FaultlessBegins(r: Receiver, c: Call, h: Fields)
    requires c.frame.len <= 8 && h.from < 0x1000 && h.to < 0x1000 && h.priority < 16 && FirstFault(r, c, h) == None
    ensures TakeFirst(r, Route(h.from, h.to, h.priority, true), c.frame, c.env) == Finish(Begun(c.frame, h))
  {
    var route := Route(h.from, h.to, h.priority, true);
    var s := Begun(c.frame, h);
    Accepts(r, route, c.frame, c.env, s.(payload := []), c.frame.data[6..c.frame.len]);
  }

  /** One without begins a message, whatever its pair had received. */
  lemma FirstBegins(r: Receiver, c: Call, h: Fields, i: nat)
    requires For(r, c, h, i) && h.first && FirstFault(r, c, h) == None
    ensures Perform(r, c) == Settled(Returned(r), c, i, Begun(c.frame, h))
  {
    FaultlessBegins(Returned(r), c, h);
    Moves(r, c, h, i, Begun(c.frame, h));
  }

  /** A further chunk needs a message that was begun, and may not bring more than was
      announced; otherwise the entry of its pair is empty afterwards. */
  lemma NextRejected(r: Receiver, c: Call, h: Fields, i: nat)
    requires For(r, c, h, i) && !h.first
    requires var s := Returned(r).slots[i]; s.Free? || |s.payload| + c.frame.len > s.expected
    ensures Perform(r, c)
            == (Returned(r).(slots := Returned(r).slots[i := Free]),
                Reply(if Returned(r).slots[i].Free? then DataWithoutHeader else DataOverflow, None))
  {
    Rejected(r, c, h, i, if Returned(r).slots[i].Free? then DataWithoutHeader else DataOverflow);
  }

  /** Otherwise its bytes are appended. */
  lemma NextAppends(r: Receiver, c: Call, h: Fields, i: nat)
    requires For(r, c, h, i) && !h.first
    requires var s := Returned(r).slots[i]; s.Busy? && |s.payload| + c.frame.len <= s.expected
    ensures var s := Returned(r).slots[i];
            Perform(r, c)
            == Settled(Returned(r), c, i, s.(payload := s.payload + c.frame.data[..c.frame.len]))
  {
    var s := Returned(r).slots[i];
    Moves(r, c, h, i, s.(payload := s.payload + c.frame.data[..c.frame.len]));
  }
}
