/** ProtoPlexer as step functions: cutting a message into chunks of six to eight
    bytes, and the reassembly table of the receiver. */
module PlexCore {
  import opened Can
  import opened Bytes
  import Crc16

  // ------------------------------------------------------------------- identifiers

  const ADDRESSES: nat := 0x1000
  const PRIORITIES: nat := 0x10
  const HEADER_SIZE: nat := 6
  const ERROR_ID: nat := 0

  // 29 bits of identifier: priority (4), first flag (1), from (12), to (12)

  function CanIdCreate(from: nat, to: nat, priority: nat, first: bool): nat {
    priority % PRIORITIES * 0x200_0000 + (if first then 0x100_0000 else 0) + from % ADDRESSES * 0x1000 + to % ADDRESSES
  }

  function GetTo(id: nat): nat { id % ADDRESSES }
  function GetFrom(id: nat): nat { id / 0x1000 % ADDRESSES }
  predicate GetFirst(id: nat) { id / 0x100_0000 % 2 == 1 }
  function GetPriority(id: nat): nat { id / 0x200_0000 % PRIORITIES }

  lemma CanIdRoundTrip(from: nat, to: nat, priority: nat, first: bool)
    ensures var id := CanIdCreate(from, to, priority, first);
            && id < 0x2000_0000
            && RouteOf(id) == Route(from % ADDRESSES, to % ADDRESSES, priority % PRIORITIES, first)
  {
    Fields(priority % PRIORITIES, if first then 1 else 0, from % ADDRESSES, to % ADDRESSES);
  }

  lemma Fields(p: nat, f: nat, a: nat, b: nat)
    requires p < 16 && f < 2 && a < 4096 && b < 4096
    ensures var id := p * 0x200_0000 + f * 0x100_0000 + a * 0x1000 + b;
            && id % 4096 == b && id / 0x1000 % 4096 == a && id / 0x100_0000 % 2 == f && id / 0x200_0000 % 16 == p
  {
  }

  /** A reassembly is found by both addresses of its message. */
  function Signature(from: nat, to: nat): nat { to + from * 0x1000 }

  type Address = a: nat | a < ADDRESSES
  type Priority = p: nat | p < PRIORITIES

  /** The fields of an identifier. */
  datatype Route = Route(from: Address, to: Address, priority: Priority, first: bool) {
    function Sig(): nat { Signature(from, to) }
  }

  function RouteOf(id: nat): Route
  {
    Route(GetFrom(id), GetTo(id), GetPriority(id), GetFirst(id))
  }

  lemma SignatureInjective(from: nat, to: nat, from': nat, to': nat)
    requires to < ADDRESSES && to' < ADDRESSES && Signature(from, to) == Signature(from', to')
    ensures from == from' && to == to'
  {
  }

  predicate AddressValid(a: nat) { 1 <= a < ADDRESSES }

  // ---------------------------------------------------------------------- messages

  datatype Message = Message(id: nat, from: nat, to: nat, priority: nat, data: seq<byte>) {
    /** The field widths of the message record. */
    ghost predicate Typed() {
      id < 0x1_0000 && from < 0x1_0000 && to < 0x1_0000 && priority < 0x100 && |data| < 0x1_0000
    }

    /** What the frames carry of the message: they have four bits for the
        priority and twelve for each address. */
    function OnWire(): Message {
      Message(id, from % ADDRESSES, to % ADDRESSES, priority % PRIORITIES, data)
    }

    function Sig(): nat { Signature(from % ADDRESSES, to % ADDRESSES) }
  }

  datatype Result =
    | Ok | Failure | WrongAddress | CantAllocateNewMsg | FirstAndTooShort | UnrelatedAddressTo
    | HeaderDataOverflow | CantAllocateData | ReceivedErrorId | DataWithoutHeader | DataOverflow
    | CantSaveMessage | InvalidChunk | WrongCrc | CantSendHeader | CantAddMessageChunks | InvalidSize
    | TxBufferEmpty | NoNewMessages | RxEmpty | TooManyAttempts | NonRecoverable

  // ------------------------------------------------------------------ fragmentation

  function LowByte(n: nat): byte { Octet(n % 256) }
  function HighByte(n: nat): byte { Octet(n / 256 % 256) }
  function Word(low: byte, high: byte): nat { low as nat + 256 * (high as nat) }

  function CrcLow(w: bv16): byte { (w & 0xff) as byte }
  function CrcHigh(w: bv16): byte { (w >> 8) as byte }
  function CrcWord(low: byte, high: byte): bv16 { (low as bv16) | ((high as bv16) << 8) }

  lemma WordRoundTrip(n: nat)
    requires n < 0x1_0000
    ensures Word(LowByte(n), HighByte(n)) == n
  {
  }

  lemma CrcWordRoundTrip(w: bv16)
    ensures CrcWord(CrcLow(w), CrcHigh(w)) == w
  {
  }

  /** Identifier, length and CRC, least significant byte first. */
  function Header(m: Message): (h: seq<byte>)
    ensures |h| == HEADER_SIZE
  {
    var crc := Crc16.Crc(m.data);
    [LowByte(m.id), HighByte(m.id), LowByte(|m.data|), HighByte(|m.data|), CrcLow(crc), CrcHigh(crc)]
  }

  predicate ChunkLengthValid(c: nat) { HEADER_SIZE <= c <= MAX_LEN }

  function ChunksCount(length: nat, c: nat): nat {
    if !ChunkLengthValid(c) then 0 else CeilDiv(HEADER_SIZE + length, c)
  }

  /** Up to `c` bytes of the stream from `at` on. */
  function Piece(stream: seq<byte>, at: nat, c: nat): (b: seq<byte>)
    requires at <= |stream|
    ensures |b| <= c
  {
    stream[at..Min(at + c, |stream|)]
  }

  function Stream(m: Message, data: seq<byte>): (s: seq<byte>)
    ensures |s| == HEADER_SIZE + |data|
  {
    Header(m) + data
  }

  function CutAt(m: Message, data: seq<byte>, c: nat, at: nat): Frame
    requires ChunkLengthValid(c) && at < HEADER_SIZE + |data|
  {
    MakeFrame(CanIdCreate(m.from, m.to, m.priority, at == 0), Piece(Stream(m, data), at, c))
  }

  /** Bytes `c * k` up to `c * (k + 1)` of header and `data`, in a frame with the
      addresses of `m`. A sender puts `m.data` behind the header. */
  function Cut(m: Message, data: seq<byte>, c: nat, k: nat): Frame
    requires ChunkLengthValid(c) && c * k < HEADER_SIZE + |data|
  {
    CutAt(m, data, c, c * k)
  }

  datatype Built = Chunk(frame: Frame) | NotBuilt(result: Result)

  function BuildChunk(m: Message, c: nat, k: nat): Built {
    var n := ChunksCount(|m.data|, c);
    if n == 0 then NotBuilt(CantSendHeader)
    else if k >= n then NotBuilt(Failure)
    else CutInside(|m.data|, c, k); Chunk(Cut(m, m.data, c, k))
  }

  lemma CutInside(length: nat, c: nat, k: nat)
    requires ChunkLengthValid(c)
    ensures k < ChunksCount(length, c) <==> c * k < HEADER_SIZE + length
  {
  }

  /** All chunks of a message, in order. */
  function Chunks(m: Message, c: nat): (s: seq<Frame>)
    requires ChunkLengthValid(c)
    ensures |s| == ChunksCount(|m.data|, c)
  {
    seq(ChunksCount(|m.data|, c), k requires 0 <= k < ChunksCount(|m.data|, c) =>
      CutInside(|m.data|, c, k); Cut(m, m.data, c, k))
  }

  // --------------------------------------------------------------------- reassembly

  /** One entry of the table: the header's announcement and the data so far. */
  datatype Slot =
    | Free
    | Busy(sig: nat, expected: nat, crc: bv16, id: nat, from: nat, to: nat, priority: nat, payload: seq<byte>)

  datatype Receiver = Receiver(own: nat, monitoring: bool, maxPayload: nat, fixed: bool,
                               slots: seq<Slot>, view: Option<nat>)

  /** What the surroundings decide during a call: whether memory for the data is
      granted, and whether memory for the copy handed to the caller is. */
  datatype Env = Env(dataGranted: bool, copyGranted: bool)

  datatype Reply = Reply(result: Result, message: Option<Message>)

  /** Whether data of this length may be stored. */
  predicate Fits(r: Receiver, length: nat) {
    (r.maxPayload != 0 || r.fixed) ==> length <= r.maxPayload
  }

  predicate Granted(r: Receiver, length: nat, env: Env) {
    Fits(r, length) && (length == 0 || r.fixed || env.dataGranted)
  }

  /** The message lent out by an earlier call is gone. */
  function Expire(r: Receiver): Receiver {
    if r.view.Some? && r.view.value < |r.slots| then r.(slots := r.slots[r.view.value := Free], view := None)
    else r.(view := None)
  }

  predicate Holds(s: Slot, sig: nat) { s.Busy? && s.sig == sig }

  function HasSig(sig: nat): Slot -> bool { (s: Slot) => Holds(s, sig) }

  function IsFree(): Slot -> bool { (s: Slot) => s.Free? }

  function Find(slots: seq<Slot>, sig: nat): (i: nat)
    ensures i <= |slots|
  {
    First(slots, HasSig(sig))
  }

  function FindFree(slots: seq<Slot>): (i: nat)
    ensures i <= |slots|
  {
    First(slots, IsFree())
  }

  function GetOrAlloc(slots: seq<Slot>, sig: nat): (i: nat)
    ensures i <= |slots|
  {
    if Find(slots, sig) < |slots| then Find(slots, sig) else FindFree(slots)
  }

  datatype Taken = Taken(slot: Slot, result: Result, complete: bool)

  /** Check a reassembly that has all announced bytes. A wrong CRC leaves it in
      its slot. */
  function Finish(s: Slot): Taken
    requires s.Busy?
  {
    if |s.payload| != s.expected then Taken(s, Ok, false)
    else if Crc16.Crc(s.payload) != s.crc then Taken(s, WrongCrc, false)
    else Taken(s, Ok, true)
  }

  function Announced(data: Octets, h: Route): (s: Slot)
    ensures s.Busy?
  {
    Busy(h.Sig(), Word(data[2], data[3]), CrcWord(data[4], data[5]), Word(data[0], data[1]),
         h.from, h.to, h.priority, [])
  }

  /** A first chunk replaces whatever its pair had received. */
  function TakeFirst(r: Receiver, h: Route, f: Frame, env: Env): Taken
    requires f.len <= MAX_LEN
  {
    if f.len < HEADER_SIZE then Taken(Free, FirstAndTooShort, false)
    else if !AddressValid(h.to) || !AddressValid(h.from) then Taken(Free, WrongAddress, false)
    else TakeAnnounced(r, Announced(f.data, h), f, env)
  }

  function TakeAnnounced(r: Receiver, a: Slot, f: Frame, env: Env): Taken
    requires a.Busy? && HEADER_SIZE <= f.len <= MAX_LEN
  {
    if f.len - HEADER_SIZE > a.expected then Taken(Free, HeaderDataOverflow, false)
    else if !Granted(r, a.expected, env) then Taken(Free, CantAllocateData, false)
    else if a.id == ERROR_ID then Taken(Free, ReceivedErrorId, false)
    else Finish(a.(payload := f.data[HEADER_SIZE..f.len]))
  }

  function TakeNext(s: Slot, f: Frame): Taken
    requires f.len <= MAX_LEN
  {
    if s.Free? then Taken(Free, DataWithoutHeader, false)
    else if |s.payload| + f.len > s.expected then Taken(Free, DataOverflow, false)
    else Finish(s.(payload := s.payload + f.Body()))
  }

  datatype Accepted = Accepted(receiver: Receiver, result: Result, done: Option<nat>)

  function AddToTable(r: Receiver, h: Route, f: Frame, env: Env): (a: Accepted)
    requires f.len <= MAX_LEN
    ensures a.done.Some? ==> a.done.value < |a.receiver.slots| && a.receiver.slots[a.done.value].Busy?
  {
    if h.to != r.own && !r.monitoring then Accepted(r, UnrelatedAddressTo, None)
    else
      var i := GetOrAlloc(r.slots, h.Sig());
      if i == |r.slots| then Accepted(r, CantAllocateNewMsg, None)
      else
        var t := if h.first then TakeFirst(r, h, f, env) else TakeNext(r.slots[i], f);
        Accepted(r.(slots := r.slots[i := t.slot]), t.result, if t.complete then Some(i) else None)
  }

  function RxAddChunk(r: Receiver, f: Frame, env: Env): (a: Accepted)
    ensures a.done.Some? ==> a.done.value < |a.receiver.slots| && a.receiver.slots[a.done.value].Busy?
  {
    if f.len > MAX_LEN then Accepted(r, InvalidChunk, None)
    else AddToTable(Expire(r), RouteOf(f.id), f, env)
  }

  function MessageOf(s: Slot): Message
    requires s.Busy?
  {
    Message(s.id, s.from, s.to, s.priority, s.payload)
  }

  /** The form that copies the message and gives its slot back. */
  function AddChunk(r: Receiver, f: Frame, env: Env): (Receiver, Reply) {
    var a := RxAddChunk(r, f, env);
    if a.done.None? then (a.receiver, Reply(a.result, None))
    else
      var i := a.done.value;
      (a.receiver.(slots := a.receiver.slots[i := Free]),
       if env.copyGranted then Reply(a.result, Some(MessageOf(a.receiver.slots[i]))) else Reply(CantSaveMessage, None))
  }

  /** The form that lends the message until the next chunk. */
  function AddChunkView(r: Receiver, f: Frame, env: Env): (Receiver, Reply) {
    var a := RxAddChunk(r, f, env);
    if a.done.None? then (a.receiver, Reply(a.result, None))
    else
      var i := a.done.value;
      (a.receiver.(view := Some(i)), Reply(a.result, Some(MessageOf(a.receiver.slots[i]))))
  }

  /** One call of either form. */
  datatype Call = Call(frame: Frame, lend: bool, env: Env)

  function Perform(r: Receiver, c: Call): (Receiver, Reply) {
    if c.lend then AddChunkView(r, c.frame, c.env) else AddChunk(r, c.frame, c.env)
  }
}
