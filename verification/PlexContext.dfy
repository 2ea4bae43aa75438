/** ProtoPlexer as it runs: chunk buffers filled by loops, and a table of reassembly
    objects whose data lie in one shared block or in blocks of their own, proved to
    perform exactly the steps of PlexCore. */
module PlexContext {
  import opened Can
  import opened PlexCore
  import opened PlexInvariants
  import Crc16

  // ---------------------------------------------------------------- building chunks

  /** The frame of a chunk, byte by byte. */
  lemma ChunkIs(m: Message, c: nat, at: nat, size: nat, header: seq<byte>, bytes: Octets)
    requires ChunkLengthValid(c) && at < HEADER_SIZE + |m.data| && size == Min(c, HEADER_SIZE + |m.data| - at)
    requires |header| == HEADER_SIZE && (at < HEADER_SIZE ==> header == Header(m))
    requires forall i :: 0 <= i < size ==> bytes[i] == (header + m.data)[at + i]
    requires forall i :: size <= i < MAX_LEN ==> bytes[i] == 0
    ensures CutAt(m, m.data, c, at) == Frame(CanIdCreate(m.from, m.to, m.priority, at == 0), true, size, bytes)
  {
    var stream := Stream(m, m.data);
    if at >= HEADER_SIZE {
      assert (header + m.data)[HEADER_SIZE..] == m.data == stream[HEADER_SIZE..];
    }
    forall i | 0 <= i < size ensures bytes[i] == stream[at + i] {
    }
    assert bytes == Piece(stream, at, c) + Zeros(MAX_LEN - size);
  }

  /** `uni_can_protoplexer_build_chunk`: the bytes of header and data that belong
      to chunk `k`. */
  method BuildChunk(m: Message, c: nat, k: nat) returns (b: Built)
    ensures b == PlexCore.BuildChunk(m, c, k)
  {
    var n := ChunksCount(|m.data|, c);
    if n == 0 { return NotBuilt(CantSendHeader); }
    if k >= n { return NotBuilt(Failure); }
    CutInside(|m.data|, c, k);
    var f := BuildAt(m, c, c * k);
    b := Chunk(f);
  }

  method BuildAt(m: Message, c: nat, at: nat) returns (f: Frame)
    requires ChunkLengthValid(c) && at < HEADER_SIZE + |m.data| && (0 < at ==> HEADER_SIZE <= at)
    ensures f == CutAt(m, m.data, c, at)
  {
    var size := Min(c, HEADER_SIZE + |m.data| - at);
    var header := [0, 0, 0, 0, 0, 0];
    if at == 0 {
      var crc := Crc16.Compute(m.data);
      header := [LowByte(m.id), HighByte(m.id), LowByte(|m.data|), HighByte(|m.data|), CrcLow(crc), CrcHigh(crc)];
    }
    var bytes := FillChunk(header, m.data, at, size);
    ChunkIs(m, c, at, size, header, bytes);
    f := Frame(CanIdCreate(m.from, m.to, m.priority, at == 0), true, size, bytes);
  }

  /** `uni_can_protoplexer_build_chunks`: all of them, or none if the list cannot be
      allocated. */
  method BuildChunks(m: Message, c: nat, granted: bool) returns (r: Result, chunks: seq<Frame>)
    ensures r == if !ChunkLengthValid(c) then CantSendHeader else if !granted then CantAddMessageChunks else Ok
    ensures r == Ok ==> chunks == Chunks(m, c)
    ensures r != Ok ==> chunks == []
  {
    chunks := [];
    var n := ChunksCount(|m.data|, c);
    if n == 0 { return CantSendHeader, []; }
    if !granted { return CantAddMessageChunks, []; }
    ghost var all := Chunks(m, c);
    for k := 0 to n
      invariant |chunks| == k && chunks == all[..k]
    {
      var f := BuildListed(m, c, k);
      // no chunk below the count can fail to be built
      OneMore(all, k);
      chunks := chunks + [f];
    }
    return Ok, chunks;
  }

  lemma OneMore(s: seq<Frame>, k: nat)
    requires k < |s|
    ensures s[..k + 1] == s[..k] + [s[k]]
  {
  }

  method BuildListed(m: Message, c: nat, k: nat) returns (f: Frame)
    requires ChunkLengthValid(c) && k < ChunksCount(|m.data|, c)
    ensures f == Chunks(m, c)[k]
  {
    var b := BuildChunk(m, c, k);
    f := b.frame;
  }

  method FillChunk(header: seq<byte>, data: seq<byte>, at: nat, size: nat) returns (bytes: Octets)
    requires |header| == HEADER_SIZE && size <= MAX_LEN && at + size <= HEADER_SIZE + |data|
    ensures forall i :: 0 <= i < size ==> bytes[i] == (header + data)[at + i]
    ensures forall i :: size <= i < MAX_LEN ==> bytes[i] == 0
  {
    bytes := [0, 0, 0, 0, 0, 0, 0, 0];
    for i := 0 to size
      invariant forall j :: 0 <= j < i ==> bytes[j] == (header + data)[at + j]
      invariant forall j :: i <= j < MAX_LEN ==> bytes[j] == 0
    {
      var pos := at + i;
      if pos < HEADER_SIZE {
        bytes := bytes[i := header[pos]];
      } else {
        bytes := bytes[i := data[pos - HEADER_SIZE]];
      }
    }
  }

  // -------------------------------------------------------------------- reassemblies

  method CrcIs(data: seq<byte>, crc: bv16) returns (same: bool)
    ensures same == (Crc16.Crc(data) == crc)
  {
    var found := Crc16.Compute(data);
    same := found == crc;
  }

  lemma FinishIs(s: Slot, same: bool)
    requires s.Busy? && |s.payload| == s.expected && same == (Crc16.Crc(s.payload) == s.crc)
    ensures PlexCore.Finish(s) == Taken(s, if same then Ok else WrongCrc, same)
  {
  }

  /** One entry of the table. `payload[base..base + size]` are the data so far;
      `room` bytes are reserved for them. */
  class Buffer {
    var inUse: bool
    var signature: nat
    var expectedLength: nat
    var expectedCrc: bv16
    var messageId: nat
    var from: nat
    var to: nat
    var priority: nat
    var payload: array?<byte>
    var base: nat
    var size: nat
    ghost var room: nat

    constructor ()
      ensures Valid() && !inUse && payload == null
    {
      inUse, signature, expectedLength, expectedCrc, messageId := false, 0, 0, 0, ERROR_ID;
      from, to, priority, payload, base, size, room := 0, 0, 0, null, 0, 0, 0;
    }

    /** Memory of the application is cleared before use. */
    method Clear()
      modifies this
      ensures Valid() && !inUse
    {
      inUse, signature, expectedLength, expectedCrc, messageId := false, 0, 0, 0, ERROR_ID;
      from, to, priority, payload, base, size, room := 0, 0, 0, null, 0, 0, 0;
    }

    /** A free entry owns no data. */
    ghost predicate Valid()
      reads this
    {
      && (payload == null ==> size == 0 && room == 0)
      && (payload != null ==> size <= room && base + room <= payload.Length)
      && (!inUse ==> messageId == ERROR_ID && payload == null)
      && (messageId != ERROR_ID ==> expectedLength <= room)
    }

    ghost function Data(): seq<byte>
      reads this, payload
      requires Valid()
    {
      if payload == null then [] else payload[base..base + size]
    }

    ghost function View(): Slot
      reads this, payload
      requires Valid()
    {
      if messageId == ERROR_ID then Free
      else Busy(signature, expectedLength, expectedCrc, messageId, from, to, priority, Data())
    }

    method PayloadFree()
      requires Valid() && messageId == ERROR_ID
      modifies this`payload, this`base, this`size, this`room
      ensures Valid() && payload == null
    {
      payload, base, size, room := null, 0, 0, 0;
    }

    method Reset()
      requires Valid()
      modifies this
      ensures Valid() && payload == null && messageId == ERROR_ID
      ensures inUse == old(inUse) && signature == old(signature)
    {
      messageId := ERROR_ID;
      PayloadFree();
      expectedLength, expectedCrc, messageId, from, to, priority := 0, 0, ERROR_ID, 0, 0, 0x0F;
    }

    method Release()
      requires Valid()
      modifies this
      ensures Valid() && payload == null && messageId == ERROR_ID && !inUse
    {
      Reset();
      inUse, signature := false, 0;
    }

    /** A cleared entry reserved for a pair. */
    method Reserve(sig: nat)
      requires Valid() && !inUse
      modifies this
      ensures Valid() && payload == null && messageId == ERROR_ID && inUse && signature == sig
    {
      expectedLength, expectedCrc, from, to, priority, size := 0, 0, 0, 0, 0, 0;
      inUse, signature, messageId := true, sig, ERROR_ID;
    }

    /** The entry holds the announcement `a`, except for the identifier. */
    ghost predicate Announces(a: Slot)
      reads this
    {
      && a.Busy? && inUse && signature == a.sig && expectedLength == a.expected && expectedCrc == a.crc
      && from == a.from && to == a.to && priority == a.priority
    }

    method SetHeader(a: Slot)
      requires Valid() && a.Busy? && inUse && signature == a.sig && messageId == ERROR_ID
      modifies this`from, this`to, this`priority, this`expectedLength, this`expectedCrc
      ensures Valid() && Announces(a)
    {
      to, from, priority := a.to, a.from, a.priority;
      expectedLength, expectedCrc := a.expected, a.crc;
    }

    method DataCrcIs(crc: bv16) returns (same: bool)
      requires Valid() && messageId != ERROR_ID && size == expectedLength
      ensures same == (Crc16.Crc(Data()) == crc)
    {
      var data := if payload == null then [] else payload[base..base + expectedLength];
      assert data == Data();
      same := CrcIs(data, crc);
    }

    /** The check of an entry that may have all its data. */
    method Finish() returns (r: Result, complete: bool)
      requires Valid() && messageId != ERROR_ID
      ensures PlexCore.Finish(View()) == Taken(View(), r, complete)
    {
      if size != expectedLength { return Ok, false; }
      complete := DataCrcIs(expectedCrc);
      FinishIs(View(), complete);
      r := if complete then Ok else WrongCrc;
    }

    /** The message of an entry that has all its data, left where it is. */
    method LentOut() returns (l: Lent)
      requires Valid() && messageId != ERROR_ID && size == expectedLength
      ensures Readable(l) && l.data == payload && Borrowed(l) == MessageOf(View())
    {
      l := Lent(messageId, from, to, priority, payload, base, expectedLength);
    }

    /** Append bytes to the data. */
    method CopyIn(body: seq<byte>)
      requires Valid() && size + |body| <= room
      modifies this`size, payload
      ensures Valid() && Data() == old(Data()) + body && size == old(size) + |body|
      ensures payload != null ==>
                forall k :: 0 <= k < payload.Length && !(base + old(size) <= k < base + room) ==>
                  payload[k] == old(payload[k])
    {
      if |body| > 0 {
        ghost var was := Data();
        forall k | 0 <= k < |body| { payload[base + size + k] := body[k]; }
        size := size + |body|;
        assert payload[base..base + size] == was + body;
      }
    }
  }

  /** Where the part of entry `i` of a shared block starts: at `i * m`. */
  ghost function PartAt(i: nat, m: nat): nat { if i == 0 then 0 else PartAt(i - 1, m) + m }

  lemma {:induction false} PartIs(i: nat, m: nat)
    ensures PartAt(i, m) == i * m
  {
    if i > 0 {
      PartIs(i - 1, m);
      assert i * m == (i - 1) * m + m;
    }
  }

  /** Parts come one after the other, so those of different entries do not overlap. */
  lemma {:induction false} RegionInside(i: nat, n: nat, m: nat)
    requires i < n
    ensures PartAt(i, m) + m <= PartAt(n, m)
  {
    if i < n - 1 {
      RegionInside(i, n - 1, m);
    }
  }

  lemma RegionsApart(i: nat, j: nat, m: nat)
    requires i != j
    ensures PartAt(i, m) + m <= PartAt(j, m) || PartAt(j, m) + m <= PartAt(i, m)
  {
    if i < j {
      RegionInside(i, j, m);
    } else {
      RegionInside(j, i, m);
    }
  }

  /** Writing bytes `lo` up to `hi` of a block does not touch data elsewhere. */
  lemma Undisturbed(was: seq<byte>, now: seq<byte>, lo: nat, hi: nat, i: nat, j: nat)
    requires |was| == |now| && i <= j <= |was| && (j <= lo || hi <= i)
    requires forall k :: 0 <= k < |was| && !(lo <= k < hi) ==> now[k] == was[k]
    ensures now[i..j] == was[i..j]
  {
  }

  /** A message lent out: its data stay where they are. */
  datatype Lent = Lent(id: nat, from: nat, to: nat, priority: nat, data: array?<byte>, base: nat, length: nat)

  ghost predicate Readable(l: Lent) {
    l.length > 0 ==> l.data != null && l.base + l.length <= l.data.Length
  }

  /** The message lent out, its data read where they lie. */
  ghost function Borrowed(l: Lent): (m: Message)
    reads if l.data == null then {} else {l.data}
    requires Readable(l)
  {
    Message(l.id, l.from, l.to, l.priority, if l.length == 0 then [] else l.data[l.base..l.base + l.length])
  }

  /** Bytes `low` up to `high` of the block of an entry. */
  datatype Span = Span(entry: nat, low: nat, high: nat)

  /** Another entry, while a span is written. */
  datatype Look = Look(span: Span, at: nat)

  class Context {
    const own: nat
    const monitoring: bool
    const maxPayload: nat
    /** Whether all data lie in `rxPayload`, `maxPayload` bytes for each entry. */
    const fixed: bool
    const rxPayload: array?<byte>
    const rx: seq<Buffer>
    const maxChunkLength: nat
    /** The entry whose message the last call lent out. */
    var view: Option<nat>
    /** The receiver this object represents. */
    ghost var model: Receiver

    /** A context over cleared entries. */
    constructor (config: Config, fixed: bool, rxPayload: array?<byte>, rx: seq<Buffer>)
      requires forall i :: 0 <= i < |rx| ==> rx[i].Valid() && !rx[i].inUse
      requires forall i, j :: 0 <= i < j < |rx| ==> rx[i] != rx[j]
      requires fixed && config.maxPayload > 0 ==> rxPayload != null && |rx| * config.maxPayload <= rxPayload.Length
      ensures Valid() && model == Empty(config.own, config.monitoring, config.maxPayload, fixed, |rx|)
      ensures this.rx == rx && this.rxPayload == rxPayload && maxChunkLength == config.maxChunkLength
      ensures this.fixed == fixed && maxPayload == config.maxPayload
      ensures Memory() <= if rxPayload == null then {} else {rxPayload}
    {
      PartIs(|rx|, config.maxPayload);
      own, monitoring, maxPayload := config.own % ADDRESSES, config.monitoring, config.maxPayload;
      maxChunkLength := config.maxChunkLength;
      this.fixed, this.rxPayload, this.rx, view := fixed, rxPayload, rx, None;
      model := Empty(config.own, config.monitoring, config.maxPayload, fixed, |rx|);
    }

    ghost function Memory(): set<object>
      reads rx
    {
      (set i | 0 <= i < |rx| && rx[i].payload != null :: rx[i].payload)
        + (if rxPayload != null then {rxPayload} else {})
    }

    ghost predicate SettingsOk()
      reads this
    {
      && model.own == own && model.monitoring == monitoring && model.maxPayload == maxPayload && model.fixed == fixed
      && |model.slots| == |rx|
      && (fixed && maxPayload > 0 ==> rxPayload != null && PartAt(|rx|, maxPayload) <= rxPayload.Length)
    }

    /** Data of an entry lie in its own part of the shared block, or at the start of
        a block of their own. */
    ghost predicate Placed(i: nat)
      reads rx
      requires i < |rx|
    {
      rx[i].payload != null && fixed ==>
        rx[i].payload == rxPayload && rx[i].base == PartAt(i, maxPayload) && rx[i].room == maxPayload
    }

    /** The bytes reserved for two entries do not overlap. */
    ghost predicate Apart(i: nat, j: nat)
      reads rx
      requires i < |rx| && j < |rx|
    {
      rx[i].payload != null && rx[i].payload == rx[j].payload ==>
        rx[i].base + rx[i].room <= rx[j].base || rx[j].base + rx[j].room <= rx[i].base
    }

    /** Entries are different objects with data that do not overlap. */
    ghost predicate Layout()
      reads rx
    {
      && (forall i :: 0 <= i < |rx| ==> rx[i].Valid() && Placed(i))
      && (forall i, j :: 0 <= i < |rx| && 0 <= j < |rx| && i != j ==> rx[i] != rx[j] && Apart(i, j))
    }

    /** Entry `i` is `s`; in use means having an identifier. */
    ghost predicate Shows(i: nat, s: Slot)
      reads rx, Memory()
      requires i < |rx| && rx[i].Valid()
    {
      rx[i].View() == s && (rx[i].inUse ==> rx[i].messageId != ERROR_ID)
    }

    /** Everything is in order, except that entry `i` is being worked on. */
    ghost predicate ValidBut(i: nat)
      reads this, rx, Memory()
    {
      && SettingsOk() && Layout() && ReceiverOk(model) && model.view == view
      && forall j :: 0 <= j < |rx| && j != i ==> Shows(j, model.slots[j])
    }

    ghost predicate Valid()
      reads this, rx, Memory()
    {
      ValidBut(|rx|)
    }

    /** The data of the other entries, when of their blocks only bytes in the span that
        are not theirs may have changed. */
    twostate predicate OthersStay(w: Span)
      reads this, rx, Memory()
      requires w.entry < |rx|
    {
      && view == old(view) && model == old(model)
      && (forall j :: 0 <= j < |rx| && j != w.entry ==> unchanged(rx[j]))
      && (forall j :: 0 <= j < |rx| && j != w.entry && rx[j].payload != null ==>
            if rx[j].payload != rx[w.entry].payload then unchanged(rx[j].payload)
            else
              && (forall k :: 0 <= k < rx[j].payload.Length && !(w.low <= k < w.high) ==>
                    rx[j].payload[k] == old(rx[j].payload[k]))
              && (rx[j].base + rx[j].size <= w.low || w.high <= rx[j].base))
    }

    twostate lemma ShownStays(l: Look)
      requires old(ValidBut(l.span.entry)) && l.span.entry < |rx| && l.at < |rx| && l.at != l.span.entry
      requires OthersStay(l.span)
      ensures rx[l.at].Valid() && Placed(l.at) && Shows(l.at, model.slots[l.at])
    {
      var j, w := l.at, l.span;
      assert old(Shows(j, model.slots[j]) && rx[j].Valid() && Placed(j));
      if rx[j].payload != null && rx[j].payload == rx[w.entry].payload {
        Undisturbed(old(rx[j].payload[..]), rx[j].payload[..], w.low, w.high, rx[j].base, rx[j].base + rx[j].size);
      }
      assert rx[j].Data() == old(rx[j].Data());
    }

    /** Changing one entry, and of the data only bytes of its own block that no other
        entry uses, keeps everything else. */
    twostate lemma Kept(w: Span)
      requires old(ValidBut(w.entry)) && w.entry < |rx| && OthersStay(w)
      requires rx[w.entry].Valid() && Placed(w.entry)
      requires forall j :: 0 <= j < |rx| && j != w.entry ==> Apart(w.entry, j)
      ensures ValidBut(w.entry)
    {
      forall j | 0 <= j < |rx| && j != w.entry
        ensures rx[j].Valid() && Placed(j) && Shows(j, model.slots[j])
      {
        ShownStays(Look(w, j));
      }
      forall i, j | 0 <= i < |rx| && 0 <= j < |rx| && i != j ensures rx[i] != rx[j] && Apart(i, j) {
        if j == w.entry {
          assert Apart(j, i);
        } else if i != w.entry {
          assert old(Apart(i, j));
        }
      }
    }

    /** Changing one entry, and no data. */
    twostate lemma KeptAlone(i: nat)
      requires old(ValidBut(i)) && i < |rx| && view == old(view) && model == old(model)
      requires forall j :: 0 <= j < |rx| && j != i ==> unchanged(rx[j])
      requires forall j :: 0 <= j < |rx| && j != i && rx[j].payload != null ==> unchanged(rx[j].payload)
      requires rx[i].Valid() && Placed(i)
      requires forall j :: 0 <= j < |rx| && j != i ==> Apart(i, j)
      ensures ValidBut(i)
    {
      Kept(Span(i, 0, 0));
    }

    // ------------------------------------------------------------ memory of one entry

    method Release(b: Buffer, ghost i: nat)
      requires i < |rx| && b == rx[i] && ValidBut(i)
      modifies b
      ensures ValidBut(i) && Shows(i, Free) && !b.inUse && Memory() <= old(Memory())
    {
      b.Release();
      KeptAlone(i);
    }

    /** Memory for the data of an announced message. */
    method PayloadAlloc(b: Buffer, i: nat, length: nat, env: Env) returns (ok: bool)
      requires i < |rx| && b == rx[i] && ValidBut(i) && b.payload == null && b.inUse && b.messageId == ERROR_ID
      modifies b`payload, b`base, b`room
      ensures ValidBut(i) && ok == Granted(model, length, env)
      ensures ok == ((length <= maxPayload || (maxPayload == 0 && !fixed))
                     && (length == 0 || fixed || env.dataGranted))
      ensures ok ==> length <= b.room && b.Data() == []
      ensures forall x :: x in Memory() ==> x in old(Memory()) || fresh(x)
    {
      if (maxPayload != 0 || fixed) && length > maxPayload { return false; }
      if length == 0 { return true; }
      if fixed {
        TakeRegion(b, i);
      } else {
        if !env.dataGranted { return false; }
        TakeBlock(b, i, length);
      }
      return true;
    }

    method TakeRegion(b: Buffer, i: nat)
      requires i < |rx| && b == rx[i] && ValidBut(i) && b.payload == null && b.inUse && b.messageId == ERROR_ID
      requires fixed && maxPayload > 0
      modifies b`payload, b`base, b`room
      ensures ValidBut(i) && maxPayload == b.room && b.Data() == [] && Memory() <= old(Memory())
    {
      PartIs(i, maxPayload);
      RegionInside(i, |rx|, maxPayload);
      RegionFree(i);
      b.payload, b.base, b.room := rxPayload, i * maxPayload, maxPayload;
      KeptAlone(i);
    }

    /** No other entry uses the part of entry `i`. */
    lemma RegionFree(i: nat)
      requires Layout() && fixed
      ensures forall j :: 0 <= j < |rx| && j != i && rx[j].payload != null ==>
                PartAt(i, maxPayload) + maxPayload <= rx[j].base || rx[j].base + rx[j].room <= PartAt(i, maxPayload)
    {
      forall j | 0 <= j < |rx| && j != i && rx[j].payload != null
        ensures PartAt(i, maxPayload) + maxPayload <= rx[j].base || rx[j].base + rx[j].room <= PartAt(i, maxPayload)
      {
        assert Placed(j);
        RegionsApart(i, j, maxPayload);
      }
    }

    method TakeBlock(b: Buffer, ghost i: nat, length: nat)
      requires i < |rx| && b == rx[i] && ValidBut(i) && b.payload == null && b.inUse && b.messageId == ERROR_ID
      requires !fixed
      modifies b`payload, b`base, b`room
      ensures ValidBut(i) && length == b.room && b.Data() == []
      ensures forall x :: x in Memory() ==> x in old(Memory()) || fresh(x)
    {
      var block := new byte[length];
      b.payload, b.base, b.room := block, 0, length;
      KeptAlone(i);
    }

    /** Data in the block of entry `i` lie outside the bytes left to it. */
    lemma Elsewhere(i: nat)
      requires i < |rx| && Layout()
      ensures forall j :: 0 <= j < |rx| && j != i && rx[j].payload != null && rx[j].payload == rx[i].payload ==>
                rx[j].base + rx[j].size <= rx[i].base + rx[i].size || rx[i].base + rx[i].room <= rx[j].base
    {
      forall j | 0 <= j < |rx| && j != i && rx[j].payload != null && rx[j].payload == rx[i].payload
        ensures rx[j].base + rx[j].size <= rx[i].base + rx[i].size || rx[i].base + rx[i].room <= rx[j].base
      {
        assert Apart(i, j) && rx[j].Valid();
      }
    }

    method CopyIn(b: Buffer, ghost i: nat, body: seq<byte>)
      requires i < |rx| && b == rx[i] && ValidBut(i) && b.size + |body| <= b.room
      modifies b`size, b.payload
      ensures ValidBut(i) && b.Data() == old(b.Data()) + body
    {
      ghost var lo, hi := b.base + b.size, b.base + b.room;
      Elsewhere(i);
      b.CopyIn(body);
      Kept(Span(i, lo, hi));
    }

    // ------------------------------------------------------------------ one chunk

    method Reset(b: Buffer, ghost i: nat)
      requires i < |rx| && b == rx[i] && ValidBut(i)
      modifies b
      ensures ValidBut(i) && b.messageId == ERROR_ID && b.payload == null && Memory() <= old(Memory())
      ensures b.inUse == old(b.inUse) && b.signature == old(b.signature)
    {
      b.Reset();
      KeptAlone(i);
    }

    /** The header of a message: addresses, priority, length and CRC. */
    method Announce(b: Buffer, ghost i: nat, a: Slot)
      requires i < |rx| && b == rx[i] && ValidBut(i) && b.inUse && b.messageId == ERROR_ID && a.Busy?
      requires b.signature == a.sig
      modifies b
      ensures ValidBut(i) && b.Announces(a) && b.messageId == ERROR_ID && Memory() <= old(Memory())
    {
      b.SetHeader(a);
      KeptAlone(i);
    }

    method PayloadFree(b: Buffer, ghost i: nat)
      requires i < |rx| && b == rx[i] && ValidBut(i) && b.messageId == ERROR_ID
      modifies b`payload, b`base, b`size, b`room
      ensures ValidBut(i) && b.payload == null && Memory() <= old(Memory())
    {
      b.PayloadFree();
      KeptAlone(i);
    }

    method SetId(b: Buffer, ghost i: nat, id: nat)
      requires i < |rx| && b == rx[i] && ValidBut(i) && b.inUse && b.expectedLength <= b.room
      modifies b`messageId
      ensures ValidBut(i) && b.messageId == id
    {
      b.messageId := id;
      KeptAlone(i);
    }

    method TakeFirst(b: Buffer, i: nat, h: Route, f: Frame, env: Env) returns (r: Result, complete: bool)
      requires i < |rx| && b == rx[i] && ValidBut(i) && b.inUse && b.signature == h.Sig() && f.len <= MAX_LEN
      modifies b, Memory()
      ensures ValidBut(i) && b.Valid()
      ensures var t := PlexCore.TakeFirst(model, h, f, env);
              Shows(i, t.slot) && r == t.result && complete == t.complete
      ensures forall x :: x in Memory() ==> x in old(Memory()) || fresh(x)
    {
      if b.messageId != ERROR_ID { Reset(b, i); }
      if f.len < HEADER_SIZE {
        Release(b, i);
        return FirstAndTooShort, false;
      }
      if !AddressValid(h.to) || !AddressValid(h.from) {
        Release(b, i);
        return WrongAddress, false;
      }
      r, complete := TakeAnnounced(b, i, Announced(f.data, h), f, env);
    }

    method TakeAnnounced(b: Buffer, i: nat, a: Slot, f: Frame, env: Env) returns (r: Result, complete: bool)
      requires i < |rx| && b == rx[i] && ValidBut(i) && HEADER_SIZE <= f.len <= MAX_LEN
      requires b.inUse && b.messageId == ERROR_ID && a.Busy? && b.signature == a.sig
      modifies b, Memory()
      ensures ValidBut(i) && b.Valid()
      ensures var t := PlexCore.TakeAnnounced(model, a, f, env);
              Shows(i, t.slot) && r == t.result && complete == t.complete
      ensures forall x :: x in Memory() ==> x in old(Memory()) || fresh(x)
    {
      Announce(b, i, a);
      if f.len - HEADER_SIZE > b.expectedLength {
        Release(b, i);
        return HeaderDataOverflow, false;
      }
      r, complete := Fill(b, i, a, f, env);
    }

    method Fill(b: Buffer, i: nat, a: Slot, f: Frame, env: Env) returns (r: Result, complete: bool)
      requires i < |rx| && b == rx[i] && ValidBut(i) && HEADER_SIZE <= f.len <= MAX_LEN
      requires b.messageId == ERROR_ID && b.Announces(a) && f.len - HEADER_SIZE <= a.expected
      modifies b, Memory()
      ensures ValidBut(i) && b.Valid()
      ensures var t := PlexCore.TakeAnnounced(model, a, f, env);
              Shows(i, t.slot) && r == t.result && complete == t.complete
      ensures forall x :: x in Memory() ==> x in old(Memory()) || fresh(x)
    {
      var ok := Store(b, i, a, f, env);
      if !ok {
        Release(b, i);
        return CantAllocateData, false;
      }
      r, complete := Settle(b, i, a, f.data[HEADER_SIZE..f.len]);
    }

    method Settle(b: Buffer, i: nat, a: Slot, ghost body: seq<byte>) returns (r: Result, complete: bool)
      requires i < |rx| && b == rx[i] && ValidBut(i)
      requires b.messageId == ERROR_ID && b.Announces(a) && b.expectedLength <= b.room && b.Data() == body
      modifies b
      ensures ValidBut(i) && b.Valid() && Memory() <= old(Memory())
      ensures var t := if a.id == ERROR_ID then Taken(Free, ReceivedErrorId, false)
                         else PlexCore.Finish(a.(payload := body));
              Shows(i, t.slot) && r == t.result && complete == t.complete
    {
      Identify(b, i, a, body);
      if b.messageId == ERROR_ID { return ReceivedErrorId, false; }
      r, complete := b.Finish();
    }

    /** Memory for the announced data, and the first of them in it. */
    method Store(b: Buffer, i: nat, ghost a: Slot, f: Frame, env: Env) returns (ok: bool)
      requires i < |rx| && b == rx[i] && ValidBut(i) && HEADER_SIZE <= f.len <= MAX_LEN
      requires b.messageId == ERROR_ID && b.Announces(a) && f.len - HEADER_SIZE <= a.expected
      modifies b`payload, b`base, b`room, b`size, Memory()
      ensures ValidBut(i) && ok == Granted(model, a.expected, env)
      ensures ok ==> && b.messageId == ERROR_ID && b.Announces(a) && b.expectedLength <= b.room
                     && b.Data() == f.data[HEADER_SIZE..f.len]
      ensures forall x :: x in Memory() ==> x in old(Memory()) || fresh(x)
    {
      var body := f.data[HEADER_SIZE..f.len];
      assert b.inUse && |body| <= b.expectedLength == a.expected;
      ok := Renew(b, i, body, env);
    }

    method Renew(b: Buffer, i: nat, body: seq<byte>, env: Env) returns (ok: bool)
      requires i < |rx| && b == rx[i] && ValidBut(i) && b.inUse && b.messageId == ERROR_ID && |body| <= b.expectedLength
      modifies b`payload, b`base, b`room, b`size, Memory()
      ensures ValidBut(i) && ok == Granted(model, b.expectedLength, env)
      ensures ok ==> b.expectedLength <= b.room && b.Data() == body
      ensures forall x :: x in Memory() ==> x in old(Memory()) || fresh(x)
    {
      PayloadFree(b, i);
      ok := Provide(b, i, body, env);
    }

    method Provide(b: Buffer, i: nat, body: seq<byte>, env: Env) returns (ok: bool)
      requires i < |rx| && b == rx[i] && ValidBut(i) && b.payload == null && b.inUse && b.messageId == ERROR_ID
      requires |body| <= b.expectedLength
      modifies b`payload, b`base, b`room, b`size, Memory()
      ensures ValidBut(i) && ok == Granted(model, b.expectedLength, env)
      ensures ok ==> b.expectedLength <= b.room && b.Data() == body
      ensures forall x :: x in Memory() ==> x in old(Memory()) || fresh(x)
    {
      ok := PayloadAlloc(b, i, b.expectedLength, env);
      if ok { CopyIn(b, i, body); }
    }

    /** The entry gets the announced identifier, unless that is the error value. */
    method Identify(b: Buffer, i: nat, a: Slot, ghost body: seq<byte>)
      requires i < |rx| && b == rx[i] && ValidBut(i)
      requires b.messageId == ERROR_ID && b.Announces(a) && b.expectedLength <= b.room && b.Data() == body
      modifies b
      ensures ValidBut(i) && b.Valid() && Memory() <= old(Memory()) && b.messageId == a.id
      ensures Shows(i, if a.id == ERROR_ID then Free else a.(payload := body))
    {
      SetId(b, i, a.id);
      if b.messageId == ERROR_ID { Release(b, i); }
    }

    method TakeNext(b: Buffer, i: nat, f: Frame, ghost s: Slot) returns (r: Result, complete: bool)
      requires i < |rx| && b == rx[i] && ValidBut(i) && b.View() == s && b.inUse && f.len <= MAX_LEN
      modifies b, b.payload
      ensures ValidBut(i) && b.Valid()
      ensures var t := PlexCore.TakeNext(s, f);
              Shows(i, t.slot) && r == t.result && complete == t.complete
      ensures Memory() <= old(Memory())
    {
      if b.messageId == ERROR_ID {
        Release(b, i);
        return DataWithoutHeader, false;
      }
      if b.size + f.len > b.expectedLength {
        Release(b, i);
        return DataOverflow, false;
      }
      r, complete := Extend(b, i, f.Body(), s);
    }

    method Extend(b: Buffer, ghost i: nat, body: seq<byte>, ghost s: Slot) returns (r: Result, complete: bool)
      requires i < |rx| && b == rx[i] && ValidBut(i) && s.Busy? && b.View() == s && b.size + |body| <= b.room
      modifies b, b.payload
      ensures ValidBut(i) && Memory() <= old(Memory())
      ensures var t := PlexCore.Finish(s.(payload := s.payload + body));
              Shows(i, t.slot) && r == t.result && complete == t.complete
    {
      CopyIn(b, i, body);
      r, complete := b.Finish();
    }

    // -------------------------------------------------------------------- the table

    method Find(sig: nat) returns (i: nat)
      requires Valid()
      ensures i == PlexCore.Find(model.slots, sig)
      ensures i < |rx| ==> ValidBut(i) && rx[i].inUse && rx[i].signature == sig && rx[i].View() == model.slots[i]
    {
      i := 0;
      while i < |rx|
        invariant 0 <= i <= |rx|
        invariant forall j :: 0 <= j < i ==> !HasSig(sig)(model.slots[j])
      {
        assert Shows(i, model.slots[i]);
        if rx[i].inUse && rx[i].signature == sig { break; }
        i := i + 1;
      }
      FirstIs(model.slots, HasSig(sig), i);
      if i < |rx| { assert Shows(i, model.slots[i]); }
    }

    method FindFree() returns (i: nat)
      requires Valid()
      ensures i == PlexCore.FindFree(model.slots)
      ensures i < |rx| ==> Shows(i, Free) && model.slots[i] == Free
    {
      i := 0;
      while i < |rx|
        invariant 0 <= i <= |rx|
        invariant forall j :: 0 <= j < i ==> !IsFree()(model.slots[j])
      {
        assert Shows(i, model.slots[i]);
        if !rx[i].inUse { break; }
        i := i + 1;
      }
      FirstIs(model.slots, IsFree(), i);
      if i < |rx| { assert Shows(i, model.slots[i]); }
    }

    /** The entry of the pair, or a free one reserved for it. */
    method GetOrAlloc(sig: nat) returns (i: nat)
      requires Valid()
      modifies rx
      ensures i == PlexCore.GetOrAlloc(model.slots, sig) && Memory() <= old(Memory())
      ensures i == |rx| ==> Valid()
      ensures i < |rx| ==> ValidBut(i) && rx[i].inUse && rx[i].signature == sig && rx[i].View() == model.slots[i]
    {
      i := Find(sig);
      if i == |rx| { i := Alloc(sig); }
    }

    method Alloc(sig: nat) returns (i: nat)
      requires Valid()
      modifies rx
      ensures i == PlexCore.FindFree(model.slots) && Memory() <= old(Memory())
      ensures i == |rx| ==> Valid()
      ensures i < |rx| ==> ValidBut(i) && rx[i].inUse && rx[i].signature == sig && rx[i].View() == model.slots[i]
    {
      i := FindFree();
      if i < |rx| { Reserve(rx[i], i, sig); }
    }

    method Reserve(b: Buffer, ghost i: nat, sig: nat)
      requires i < |rx| && b == rx[i] && Valid() && Shows(i, Free)
      modifies b
      ensures ValidBut(i) && b.inUse && b.signature == sig && b.View() == Free && Memory() <= old(Memory())
    {
      b.Reserve(sig);
      KeptAlone(i);
    }

    /** The modelled table takes over entry `i`. */
    ghost method Commit(i: nat, s: Slot)
      requires i < |rx| && ValidBut(i) && Shows(i, s) && ReceiverOk(model.(slots := model.slots[i := s]))
      modifies this`model
      ensures Valid() && model == old(model).(slots := old(model).slots[i := s]) && Memory() == old(Memory())
    {
      model := model.(slots := model.slots[i := s]);
    }

    /** The message lent out by the last call is gone. */
    method ExpireView()
      requires Valid()
      modifies this, rx
      ensures Valid() && view == None && model == Expire(old(model)) && Memory() <= old(Memory())
    {
      if view.Some? {
        ghost var i := view.value;
        Release(rx[view.value], i);
        Forget(i);
      }
    }

    method Forget(ghost i: nat)
      requires i < |rx| && ValidBut(i) && Shows(i, Free) && view == Some(i)
      modifies this
      ensures Valid() && view == None && model == Expire(old(model)) && Memory() == old(Memory())
    {
      ExpireKeeps(model);
      model := Expire(model);
      view := None;
    }

    method Take(i: nat, h: Route, f: Frame, env: Env) returns (r: Result, complete: bool)
      requires i < |rx| && ValidBut(i) && f.len <= MAX_LEN
      requires rx[i].inUse && rx[i].signature == h.Sig() && rx[i].View() == model.slots[i]
      requires var t := if h.first then PlexCore.TakeFirst(model, h, f, env) else PlexCore.TakeNext(model.slots[i], f);
               ReceiverOk(model.(slots := model.slots[i := t.slot]))
      modifies this`model, rx[i], Memory()
      ensures Valid()
      ensures var t := if h.first then PlexCore.TakeFirst(old(model), h, f, env)
                         else PlexCore.TakeNext(old(model).slots[i], f);
              && model == old(model).(slots := old(model).slots[i := t.slot])
              && r == t.result && complete == t.complete
      ensures forall x :: x in Memory() ==> x in old(Memory()) || fresh(x)
    {
      ghost var t := if h.first then PlexCore.TakeFirst(model, h, f, env) else PlexCore.TakeNext(model.slots[i], f);
      if h.first {
        r, complete := TakeFirst(rx[i], i, h, f, env);
      } else {
        r, complete := TakeNext(rx[i], i, f, model.slots[i]);
      }
      Commit(i, t.slot);
    }

    method AddToTable(h: Route, f: Frame, env: Env) returns (r: Result, done: Option<nat>)
      requires Valid() && view == None && f.len <= MAX_LEN
      modifies this`model, rx, Memory()
      ensures Valid() && PlexCore.AddToTable(old(model), h, f, env) == Accepted(model, r, done)
      ensures forall x :: x in Memory() ==> x in old(Memory()) || fresh(x)
    {
      if h.to != own && !monitoring { return UnrelatedAddressTo, None; }
      AddToTableKeeps(model, h, f, env);
      var i := GetOrAlloc(h.Sig());
      if i == |rx| { return CantAllocateNewMsg, None; }
      var complete: bool;
      r, complete := Take(i, h, f, env);
      done := if complete then Some(i) else None;
    }

    method RxAddChunk(f: Frame, env: Env) returns (r: Result, done: Option<nat>)
      requires Valid()
      modifies this, rx, Memory()
      ensures Valid() && PlexCore.RxAddChunk(old(model), f, env) == Accepted(model, r, done)
      ensures forall x :: x in Memory() ==> x in old(Memory()) || fresh(x)
    {
      if f.len > MAX_LEN { return InvalidChunk, None; }
      ExpireView();
      r, done := AddToTable(RouteOf(f.id), f, env);
    }

    /** `uni_can_protoplexer_add_chunk`: a complete message is copied and its entry
        given back. */
    method AddChunk(f: Frame, env: Env) returns (reply: Reply)
      requires Valid()
      modifies this, rx, Memory()
      ensures Valid() && (model, reply) == PlexCore.AddChunk(old(model), f, env)
      ensures forall x :: x in Memory() ==> x in old(Memory()) || fresh(x)
    {
      var r, done := RxAddChunk(f, env);
      reply := Reply(r, None);
      if done.Some? {
        DoneKeeps(old(model), f, env);
        var m := GiveBack(done.value);
        reply := if env.copyGranted then Reply(r, Some(m)) else Reply(CantSaveMessage, None);
      }
    }

    /** A copy of the message of entry `i`, which becomes free. */
    method GiveBack(i: nat) returns (m: Message)
      requires Valid() && view == None && i < |rx| && model.slots[i].Busy?
      requires |model.slots[i].payload| == model.slots[i].expected
      modifies this`model, rx[i]
      ensures Valid() && m == MessageOf(old(model).slots[i]) && Memory() <= old(Memory())
      ensures model == old(model).(slots := old(model).slots[i := Free])
    {
      var b := rx[i];
      assert Shows(i, model.slots[i]);
      m := Message(b.messageId, b.from, b.to, b.priority,
                   if b.payload == null then [] else b.payload[b.base..b.base + b.expectedLength]);
      FreeKeeps(model, i);
      Release(b, i);
      Commit(i, Free);
    }

    /** `uni_can_protoplexer_add_chunk_view`: a complete message is lent out and
        stays in its entry. */
    method AddChunkView(f: Frame, env: Env) returns (r: Result, lent: Option<Lent>)
      requires Valid()
      modifies this, rx, Memory()
      ensures Valid()
      ensures lent.Some? ==> Readable(lent.value) && (lent.value.data != null ==> lent.value.data in Memory())
      ensures (model, Reply(r, if lent.Some? then Some(Borrowed(lent.value)) else None))
              == PlexCore.AddChunkView(old(model), f, env)
      ensures forall x :: x in Memory() ==> x in old(Memory()) || fresh(x)
    {
      var done: Option<nat>;
      r, done := RxAddChunk(f, env);
      lent := None;
      if done.Some? {
        DoneKeeps(old(model), f, env);
        var l := Lend(done.value);
        lent := Some(l);
      }
    }

    method MarkView(i: nat)
      requires Valid() && view == None && ViewOk(model.(view := Some(i)))
      modifies this
      ensures Valid() && model == old(model).(view := Some(i)) && Memory() == old(Memory())
    {
      ViewMarked(model, i);
      view := Some(i);
      model := model.(view := Some(i));
    }

    method Lend(i: nat) returns (l: Lent)
      requires Valid() && view == None && i < |rx| && model.slots[i].Busy? && ViewOk(model.(view := Some(i)))
      modifies this
      ensures Valid() && model == old(model).(view := Some(i))
      ensures Readable(l) && (l.data != null ==> l.data in Memory())
      ensures Borrowed(l) == MessageOf(old(model).slots[i]) && Memory() == old(Memory())
    {
      l := Peek(i);
      MarkView(i);
    }

    /** The message of entry `i`, where its data lie. */
    method Peek(i: nat) returns (l: Lent)
      requires Valid() && i < |rx| && model.slots[i].Busy? && |model.slots[i].payload| == model.slots[i].expected
      ensures Readable(l) && (l.data != null ==> l.data in Memory()) && Borrowed(l) == MessageOf(model.slots[i])
    {
      assert Shows(i, model.slots[i]);
      l := rx[i].LentOut();
    }
  }

  lemma ViewMarked(r: Receiver, i: nat)
    requires ReceiverOk(r) && ViewOk(r.(view := Some(i)))
    ensures ReceiverOk(r.(view := Some(i)))
  {
  }

  lemma DoneKeeps(r: Receiver, f: Frame, env: Env)
    requires ReceiverOk(r)
    ensures var a := PlexCore.RxAddChunk(r, f, env);
            a.done.Some? ==> a.receiver.view == None && ViewOk(a.receiver.(view := a.done))
  {
    if f.len <= MAX_LEN {
      ExpireKeeps(r);
      AddToTableKeeps(Expire(r), RouteOf(f.id), f, env);
    }
  }

  datatype Config = Config(own: nat, maxChunkLength: nat, maxChannels: nat, monitoring: bool, maxPayload: nat)

  const DEFAULT_MAX_CHANNELS: nat := 16

  /** `uni_can_protoplexer_init_static`: all memory comes from the application, as
      large as the configuration says. */
  method InitStatic(config: Config, buffers: seq<Buffer>, block: array?<byte>) returns (c: Context?)
    requires |buffers| == config.maxChannels && (forall i, j :: 0 <= i < j < |buffers| ==> buffers[i] != buffers[j])
    requires block != null ==> block.Length >= config.maxChannels * config.maxPayload
    modifies buffers
    ensures c != null <==>
              && 6 <= config.maxChunkLength <= 8 && config.maxChannels != 0
              && (config.maxPayload != 0 ==> block != null)
    ensures c != null ==> && fresh(c) && c.Valid() && c.rx == buffers && c.maxChunkLength == config.maxChunkLength
                          && c.fixed && c.maxPayload == config.maxPayload && c.rxPayload == block
                          && c.Memory() <= (if block == null then {} else {block})
                          && c.model == Empty(config.own, config.monitoring, config.maxPayload, true,
                                           config.maxChannels)
  {
    if !ChunkLengthValid(config.maxChunkLength) { return null; }
    if config.maxChannels == 0 || (config.maxPayload != 0 && block == null) { return null; }
    for i := 0 to |buffers|
      invariant forall j :: 0 <= j < i ==> buffers[j].Valid() && !buffers[j].inUse
    {
      buffers[i].Clear();
    }
    c := new Context(config, true, block, buffers);
  }

  /** `uni_can_protoplexer_init` without memory of the application. */
  method Init(config: Config, granted: bool) returns (c: Context?)
    ensures c != null <==> 6 <= config.maxChunkLength <= 8 && granted
    ensures c != null ==>
              && fresh(c) && c.Valid() && c.maxChunkLength == config.maxChunkLength
              && c.model == Empty(config.own, config.monitoring, config.maxPayload, false,
                                  if config.maxChannels == 0 then 16 else config.maxChannels)
  {
    if !ChunkLengthValid(config.maxChunkLength) { return null; }
    var n := if config.maxChannels == 0 then DEFAULT_MAX_CHANNELS else config.maxChannels;
    if !granted { return null; }
    var table: seq<Buffer> := [];
    while |table| < n
      invariant |table| <= n
      invariant forall i :: 0 <= i < |table| ==> fresh(table[i]) && table[i].Valid() && !table[i].inUse
      invariant forall i, j :: 0 <= i < j < |table| ==> table[i] != table[j]
    {
      var b := new Buffer();
      table := table + [b];
    }
    c := new Context(config, false, null, table);
  }
}
