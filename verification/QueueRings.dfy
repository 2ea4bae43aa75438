/** The queue as it runs: two ring buffers in arrays, with a part of one block of
    memory for the data of each inbox element, proved to perform exactly the steps of
    QueueCore whatever the rings' wrap-around. */
module QueueRings {
  import opened Can
  import opened PlexCore
  import opened QueueCore
  import opened PlexContext
  import opened PlexInvariants

  // ------------------------------------------------------------------------- rings

  /** Place of element `i` of a ring. */
  function Place(head: nat, i: nat, size: nat): (j: nat)
    requires head < size && i <= size
    ensures j < size
  {
    if head + i < size then head + i else head + i - size
  }

  lemma PlaceIsRemainder(head: nat, i: nat, size: nat)
    requires head < size && i <= size
    ensures (head + i) % size == Place(head, i, size)
  {
    if head + i < size {
      RemainderIs(head + i, 0, head + i, size);
    } else {
      RemainderIs(head + i, 1, head + i - size, size);
    }
  }

  /** The `count` elements of a ring from its head on. */
  function Ring<T>(s: seq<T>, head: nat, count: nat): (r: seq<T>)
    requires head < |s| && count <= |s|
    ensures |r| == count
  {
    seq(count, i requires 0 <= i < count => s[Place(head, i, |s|)])
  }

  /** Writing behind the last element appends. */
  lemma RingPush<T>(s: seq<T>, head: nat, count: nat, x: T)
    requires head < |s| && count < |s|
    ensures Ring(s[Place(head, count, |s|) := x], head, count + 1) == Ring(s, head, count) + [x]
  {
  }

  /** Moving the head on drops the first element. */
  lemma RingPop<T>(s: seq<T>, head: nat, count: nat)
    requires head < |s| && 0 < count <= |s|
    ensures Ring(s, (head + 1) % |s|, count - 1) == Ring(s, head, count)[1..]
  {
    PlaceIsRemainder(head, 1, |s|);
  }

  // ------------------------------------------------------------------------- storage

  /** Memory of a queue, owned by the application. */
  datatype Storage = Storage(outbox: array<Frame>, inbox: array<Lent>, inboxPayload: array?<byte>, maxPayload: nat) {
    /** The arrays are different objects, and `other` is none of them. */
    ghost predicate ApartFrom(other: object?) {
      && (outbox as object) != inbox && (outbox as object?) != inboxPayload && (inbox as object?) != inboxPayload
      && other != outbox && other != inbox && (inboxPayload != null ==> other != inboxPayload)
    }
  }

  class QueueObject {
    const storage: Storage
    const protocol: Context
    /** The configured number of send attempts. */
    const sendLimit: nat
    var inboxHead: nat
    var inboxCount: nat
    var outboxHead: nat
    var outboxCount: nat
    var sendAttempts: nat

    constructor (storage: Storage, protocol: Context, sendLimit: nat)
      requires storage.outbox.Length > 0 && storage.inbox.Length > 0 && protocol.Valid()
      requires storage.ApartFrom(null)
      requires storage.maxPayload > 0 ==>
                 && storage.inboxPayload != null
                 && storage.inbox.Length * storage.maxPayload <= storage.inboxPayload.Length
      requires protocol.fixed && protocol.maxPayload == storage.maxPayload
      requires {storage.outbox, storage.inbox} !! protocol.Memory()
      requires storage.inboxPayload != null ==> storage.inboxPayload !in protocol.Memory()
      ensures Valid() && this.storage == storage && this.protocol == protocol
      ensures Model() == Queue(protocol.model, protocol.maxChunkLength, storage.maxPayload, [], storage.outbox.Length,
                               [], storage.inbox.Length, 0, sendLimit)
    {
      PartIs(storage.inbox.Length, storage.maxPayload);
      this.storage, this.protocol, this.sendLimit := storage, protocol, sendLimit;
      inboxHead, inboxCount, outboxHead, outboxCount, sendAttempts := 0, 0, 0, 0, 0;
    }

    /** The chunks waiting, oldest first. */
    ghost function Outbox(): seq<Frame>
      reads this`outboxHead, this`outboxCount, storage.outbox
      requires outboxHead < storage.outbox.Length && outboxCount <= storage.outbox.Length
    {
      Ring(storage.outbox[..], outboxHead, outboxCount)
    }

    /** An element of the inbox keeps its data in the part of the block that belongs
        to its place. */
    ghost predicate Kept(j: nat)
      reads storage.inbox
      requires j < storage.inbox.Length
    {
      var l := storage.inbox[j];
      && l.length <= storage.maxPayload
      && Readable(l) && (l.length > 0 ==> l.data == storage.inboxPayload && l.base == PartAt(j, storage.maxPayload))
      && (l.data != null ==> l.data == storage.inboxPayload)
    }

    /** The message of the element at place `j`. */
    ghost function At(j: nat): Message
      reads storage.inbox, storage.inboxPayload
      requires j < storage.inbox.Length && Kept(j)
    {
      Borrowed(storage.inbox[j])
    }

    ghost predicate RingsOk()
      reads this`outboxHead, this`outboxCount, this`inboxHead, this`inboxCount, storage.inbox
    {
      && outboxHead < storage.outbox.Length && outboxCount <= storage.outbox.Length
      && inboxHead < storage.inbox.Length && inboxCount <= storage.inbox.Length
      && storage.ApartFrom(null)
      && (storage.maxPayload > 0 ==> storage.inboxPayload != null
                                     && PartAt(storage.inbox.Length, storage.maxPayload) <= storage.inboxPayload.Length)
      && forall i :: 0 <= i < inboxCount ==> Kept(Place(inboxHead, i, storage.inbox.Length))
    }

    /** The messages waiting, oldest first. */
    ghost function Inbox(): seq<Message>
      reads this`outboxHead, this`outboxCount, this`inboxHead, this`inboxCount, storage.inbox, storage.inboxPayload
      requires RingsOk()
    {
      var head, count, size := inboxHead, inboxCount, storage.inbox.Length;
      seq(count, i requires 0 <= i < count <= size && head < size && Kept(Place(head, i, size))
            reads storage.inbox, storage.inboxPayload => At(Place(head, i, size)))
    }

    ghost function Repr(): set<object>
      reads protocol.rx
    {
      {this, protocol, storage.outbox, storage.inbox} + (set b | b in protocol.rx)
      + protocol.Memory() + (if storage.inboxPayload != null then {storage.inboxPayload} else {})
    }

    /** The receiver has its memory for itself, and as much for a message as the
        inbox. */
    ghost predicate Separate()
      reads protocol.rx
    {
      && protocol.fixed && protocol.maxPayload == storage.maxPayload
      && storage.outbox !in protocol.Memory() && storage.inbox !in protocol.Memory() && this !in protocol.Memory()
      && (storage.inboxPayload != null ==> storage.inboxPayload !in protocol.Memory())
    }

    ghost predicate Valid()
      reads this, Repr()
    {
      && RingsOk() && protocol.Valid()
      && Separate()
    }

    /** The queue these objects represent. */
    ghost function Model(): Queue
      reads this, Repr()
      requires Valid()
    {
      Queue(protocol.model, protocol.maxChunkLength, storage.maxPayload, Outbox(), storage.outbox.Length,
            Inbox(), storage.inbox.Length, sendAttempts, sendLimit)
    }

    // ------------------------------------------------------------------- ring buffers

    /** One chunk behind the last one. */
    method PushChunk(f: Frame)
      requires RingsOk() && outboxCount < storage.outbox.Length
      modifies this`outboxCount, storage.outbox
      ensures RingsOk() && Outbox() == old(Outbox()) + [f] && outboxCount == old(outboxCount) + 1
      ensures Inbox() == old(Inbox())
    {
      PlaceIsRemainder(outboxHead, outboxCount, storage.outbox.Length);
      RingPush(storage.outbox[..], outboxHead, outboxCount, f);
      var tail := (outboxHead + outboxCount) % storage.outbox.Length;
      storage.outbox[tail] := f;
      outboxCount := outboxCount + 1;
    }

    method PopChunk()
      requires RingsOk() && outboxCount > 0
      modifies this`outboxCount, this`outboxHead
      ensures RingsOk() && Outbox() == old(Outbox())[1..] && Inbox() == old(Inbox())
    {
      RingPop(storage.outbox[..], outboxHead, outboxCount);
      outboxHead := (outboxHead + 1) % storage.outbox.Length;
      outboxCount := outboxCount - 1;
    }

    method PopMessage()
      requires RingsOk() && inboxCount > 0
      modifies this`inboxCount, this`inboxHead
      ensures RingsOk() && Inbox() == old(Inbox())[1..] && Outbox() == old(Outbox())
    {
      ghost var head, size := inboxHead, storage.inbox.Length;
      PlaceIsRemainder(inboxHead, 1, storage.inbox.Length);
      inboxHead := (inboxHead + 1) % storage.inbox.Length;
      inboxCount := inboxCount - 1;
      assert forall i :: 0 <= i < inboxCount ==> Place(inboxHead, i, size) == Place(head, i + 1, size);
    }

    /** A message lent out by the receiver behind the last one, its data copied into
        the part of the memory that belongs to the place; nothing happens to what is
        queued. */
    method PushMessage(l: Lent) returns (ok: bool)
      requires RingsOk() && Readable(l) && l.length <= storage.maxPayload
      requires l.data != null ==> l.data != storage.inboxPayload
      modifies this`inboxCount, storage.inbox, storage.inboxPayload
      ensures RingsOk() && Outbox() == old(Outbox()) && ok == (old(inboxCount) < storage.inbox.Length)
      ensures Inbox() == if ok then old(Inbox()) + [old(Borrowed(l))] else old(Inbox())
    {
      if inboxCount >= storage.inbox.Length { return false; }
      PlaceIsRemainder(inboxHead, inboxCount, storage.inbox.Length);
      var tail := (inboxHead + inboxCount) % storage.inbox.Length;
      StoreAt(tail, l);
      inboxCount := inboxCount + 1;
      return true;
    }

    /** Write one element; all others stay as they are. */
    method StoreAt(tail: nat, l: Lent)
      requires RingsOk() && tail < storage.inbox.Length && Readable(l) && l.length <= storage.maxPayload
      requires l.data != null ==> l.data != storage.inboxPayload
      modifies storage.inbox, storage.inboxPayload
      ensures Kept(tail) && At(tail) == old(Borrowed(l))
      ensures forall j :: 0 <= j < storage.inbox.Length && j != tail && old(Kept(j)) ==> Kept(j) && At(j) == old(At(j))
    {
      if l.length == 0 {
        storage.inbox[tail] := l.(data := null, base := 0);
      } else {
        RegionInside(tail, storage.inbox.Length, storage.maxPayload);
        PartsApart(tail);
        PartIs(tail, storage.maxPayload);
        var low := tail * storage.maxPayload;
        FillPart(tail, low, l);
        storage.inbox[tail] := l.(data := storage.inboxPayload, base := low);
      }
    }

    method FillPart(ghost tail: nat, low: nat, l: Lent)
      requires 0 < l.length <= storage.maxPayload
      requires l.data != null && l.base + l.length <= l.data.Length && l.data != storage.inboxPayload
      requires storage.inboxPayload != null && low + storage.maxPayload <= storage.inboxPayload.Length
      requires storage.ApartFrom(null)
      requires forall j :: 0 <= j < storage.inbox.Length && j != tail && Kept(j) && storage.inbox[j].length > 0 ==>
                 || storage.inbox[j].base + storage.inbox[j].length <= low
                 || low + storage.maxPayload <= storage.inbox[j].base
      modifies storage.inboxPayload
      ensures storage.inboxPayload[low..low + l.length] == l.data[l.base..l.base + l.length]
      ensures forall j :: 0 <= j < storage.inbox.Length && j != tail && old(Kept(j)) ==> Kept(j) && At(j) == old(At(j))
    {
      CopyData(low, l);
      OthersKept(Span(tail, low, low + storage.maxPayload));
    }

    /** Bytes of a message lent out, copied into the memory of the inbox. */
    method CopyData(base: nat, l: Lent)
      requires l.length > 0 && l.data != null && l.base + l.length <= l.data.Length && l.data != storage.inboxPayload
      requires storage.inboxPayload != null && base + l.length <= storage.inboxPayload.Length
      modifies storage.inboxPayload
      ensures storage.inboxPayload[base..base + l.length] == l.data[l.base..l.base + l.length]
      ensures forall k :: 0 <= k < storage.inboxPayload.Length && !(base <= k < base + l.length) ==>
                storage.inboxPayload[k] == old(storage.inboxPayload[k])
    {
      var bytes := l.data[l.base..l.base + l.length];
      forall k | base <= k < base + l.length { storage.inboxPayload[k] := bytes[k - base]; }
      assert storage.inboxPayload[base..base + l.length] == bytes;
    }

    /** The part of place `tail` holds no data of another place. */
    lemma PartsApart(tail: nat)
      ensures forall j :: 0 <= j < storage.inbox.Length && j != tail && Kept(j) && storage.inbox[j].length > 0 ==>
                storage.inbox[j].base + storage.inbox[j].length <= PartAt(tail, storage.maxPayload)
                || PartAt(tail, storage.maxPayload) + storage.maxPayload <= storage.inbox[j].base
    {
      forall j | 0 <= j < storage.inbox.Length && j != tail && Kept(j) && storage.inbox[j].length > 0
        ensures storage.inbox[j].base + storage.inbox[j].length <= PartAt(tail, storage.maxPayload)
                || PartAt(tail, storage.maxPayload) + storage.maxPayload <= storage.inbox[j].base
      {
        RegionsApart(j, tail, storage.maxPayload);
      }
    }

    /** Writing bytes where no other place has data leaves the other messages alone. */
    twostate lemma OthersKept(w: Span)
      requires storage.inboxPayload != null && unchanged(storage.inbox)
      requires forall k :: 0 <= k < storage.inboxPayload.Length && !(w.low <= k < w.high) ==>
                 storage.inboxPayload[k] == old(storage.inboxPayload[k])
      requires forall j :: 0 <= j < storage.inbox.Length && j != w.entry && Kept(j) && storage.inbox[j].length > 0 ==>
                 storage.inbox[j].base + storage.inbox[j].length <= w.low || w.high <= storage.inbox[j].base
      ensures forall j :: 0 <= j < storage.inbox.Length && j != w.entry && Kept(j) ==>
                old(Kept(j)) && At(j) == old(At(j))
    {
      forall j | 0 <= j < storage.inbox.Length && j != w.entry && Kept(j) ensures At(j) == old(At(j)) {
        var l := storage.inbox[j];
        if l.length > 0 {
          Undisturbed(old(storage.inboxPayload[..]), storage.inboxPayload[..], w.low, w.high,
                      l.base, l.base + l.length);
        }
      }
    }

    // ------------------------------------------------------------------------- calls

    /** `uni_can_protoplexer_queue_send`. */
    method Send(m: Message) returns (r: Result)
      requires Valid()
      modifies this`outboxCount, storage.outbox
      ensures Valid() && (Model(), r) == QueueCore.Send(old(Model()), m)
    {
      if |m.data| > storage.maxPayload { return InvalidSize; }
      var n := ChunksCount(|m.data|, protocol.maxChunkLength);
      if n == 0 { return CantSendHeader; }
      if outboxCount + n > storage.outbox.Length { return CantAddMessageChunks; }
      PushChunks(m, n);
      return Ok;
    }

    method PushChunks(m: Message, n: nat)
      requires RingsOk() && n == ChunksCount(|m.data|, protocol.maxChunkLength) > 0
      requires outboxCount + n <= storage.outbox.Length
      modifies this`outboxCount, storage.outbox
      ensures RingsOk() && Outbox() == old(Outbox()) + Chunks(m, protocol.maxChunkLength) && Inbox() == old(Inbox())
    {
      ghost var all := Chunks(m, protocol.maxChunkLength);
      for k := 0 to n
        invariant RingsOk() && outboxCount == old(outboxCount) + k
        invariant Outbox() == old(Outbox()) + all[..k] && Inbox() == old(Inbox())
      {
        // no chunk below the count can fail to be built, so nothing has to be taken back
        var b := PlexContext.BuildChunk(m, protocol.maxChunkLength, k);
        assert b.frame == all[k];
        PushChunk(b.frame);
      }
      assert all[..n] == all;
    }

    /** `uni_can_protoplexer_queue_poll_tx`: the chunk is handed to the network,
        whose answer is `hw`. */
    method PollTx(hw: Hw) returns (r: Result, handed: Option<Frame>)
      requires Valid()
      modifies this`outboxCount, this`outboxHead, this`sendAttempts
      ensures Valid() && (Model(), r) == QueueCore.PollTx(old(Model()), hw)
      ensures handed == if old(Outbox()) == [] then None else Some(old(Outbox())[0])
    {
      if outboxCount == 0 { return TxBufferEmpty, None; }
      handed := Some(storage.outbox[outboxHead]);
      match hw {
        case HwResend => r := AskedAgain();
        case HwOk =>
          Gone();
          r := Ok;
        case HwNonRecoverable =>
          Gone();
          r := NonRecoverable;
        case HwOther => r := Failure;
      }
    }

    method SetAttempts(n: nat)
      requires Valid()
      modifies this`sendAttempts
      ensures Valid() && Model() == old(Model()).(attempts := n)
    {
      sendAttempts := n;
    }

    /** The network wants the chunk once more. */
    method AskedAgain() returns (r: Result)
      requires Valid() && outboxCount > 0
      modifies this`sendAttempts
      ensures Valid() && (Model(), r) == QueueCore.PollTx(old(Model()), HwResend)
    {
      var tries := (sendAttempts + 1) % WORDS;
      if tries > sendLimit {
        SetAttempts(0);
        return TooManyAttempts;
      }
      SetAttempts(tries);
      return Ok;
    }

    /** The first chunk has left the outbox. */
    method Gone()
      requires Valid() && outboxCount > 0
      modifies this`outboxCount, this`outboxHead, this`sendAttempts
      ensures Valid() && Model() == old(Model()).(outbox := old(Model()).outbox[1..], attempts := 0)
    {
      PopChunk();
      sendAttempts := 0;
    }

    /** `uni_can_protoplexer_queue_poll_new`: the oldest message, as it is given to
        the application. */
    method PollNew() returns (r: Result, m: Option<Lent>)
      requires Valid()
      modifies this`inboxCount, this`inboxHead
      ensures Valid()
      ensures m.Some? ==> Readable(m.value)
      ensures (Model(), r, if m.None? then None else Some(Borrowed(m.value))) == QueueCore.PollNew(old(Model()))
    {
      if inboxCount == 0 { return NoNewMessages, None; }
      assert Kept(Place(inboxHead, 0, storage.inbox.Length));
      m := Some(storage.inbox[inboxHead]);
      assert Borrowed(m.value) == Inbox()[0];
      PopMessage();
      r := Ok;
    }

    /** A message lent out by the receiver. */
    ghost predicate Lends(l: Lent)
      reads protocol.rx
    {
      && Readable(l) && l.length <= storage.maxPayload
      && (l.data != null ==> l.data in protocol.Memory())
    }

    twostate lemma RingsStay()
      requires old(RingsOk()) && unchanged(this) && unchanged(storage.outbox) && unchanged(storage.inbox)
      requires storage.inboxPayload != null ==> unchanged(storage.inboxPayload)
      ensures RingsOk() && Outbox() == old(Outbox()) && Inbox() == old(Inbox())
    {
    }

    /** The receiver takes the chunk; the rings stay as they are. */
    method TakeChunk(f: Frame) returns (r: Result, lent: Option<Lent>)
      requires Valid()
      modifies protocol, protocol.rx, protocol.Memory()
      ensures Valid() && (lent.Some? ==> Lends(lent.value))
      ensures var (p, reply) := PlexCore.AddChunkView(old(protocol.model), f, Env(true, true));
              && Model() == old(Model()).(receiver := p)
              && reply == Reply(r, if lent.Some? then Some(Borrowed(lent.value)) else None)
    {
      ViewFits(protocol.model, f);
      r, lent := protocol.AddChunkView(f, Env(true, true));
      RingsStay();
    }

    /** A message lent out goes to the inbox, if there is room. */
    method Keep(l: Lent) returns (ok: bool)
      requires Valid() && Lends(l)
      modifies this`inboxCount, storage.inbox, storage.inboxPayload
      ensures Valid() && ok == (|old(Model()).inbox| < storage.inbox.Length)
      ensures Model() == if ok then old(Model()).(inbox := old(Model()).inbox + [old(Borrowed(l))]) else old(Model())
    {
      ok := PushMessage(l);
    }

    /** `uni_can_protoplexer_queue_add_chunk`. */
    method AddChunk(f: Frame) returns (r: Result)
      requires Valid()
      modifies Repr() - {storage.outbox}
      ensures Valid()
      ensures Model() == Receive(old(Model()), f).0 && r == Receive(old(Model()), f).1.result
    {
      var lent: Option<Lent>;
      r, lent := TakeChunk(f);
      if lent.Some? {
        var ok := Keep(lent.value);
        if !ok { return CantSaveMessage; }
      }
    }

    /** `uni_can_protoplexer_queue_poll_rx`: `f` is what the network has, if anything. */
    method PollRx(f: Option<Frame>) returns (r: Result)
      requires Valid()
      modifies Repr() - {storage.outbox}
      ensures Valid() && (Model(), r) == QueueCore.PollRx(old(Model()), f)
    {
      if f.None? { return RxEmpty; }
      r := AddChunk(f.value);
    }
  }

  /** `uni_can_protoplexer_queue_init`: the memory is as large as the configuration
      says. */
  method Init(config: Config, sendLimit: nat, storage: Storage, buffers: seq<Buffer>, rxPayload: array?<byte>)
    returns (q: QueueObject?)
    requires |buffers| == config.maxChannels && (forall i, j :: 0 <= i < j < |buffers| ==> buffers[i] != buffers[j])
    requires config.maxPayload == storage.maxPayload
    requires rxPayload != null ==> rxPayload.Length >= config.maxChannels * config.maxPayload
    requires storage.inboxPayload != null ==> storage.inbox.Length * storage.maxPayload <= storage.inboxPayload.Length
    requires storage.ApartFrom(rxPayload)
    modifies buffers
    ensures q != null <==>
              && storage.inbox.Length > 0 && storage.outbox.Length > 0 && config.maxChannels > 0
              && 6 <= config.maxChunkLength <= 8
              && (config.maxPayload != 0 ==> rxPayload != null && storage.inboxPayload != null)
    ensures q != null ==>
              && q.Valid() && q.storage == storage
              && q.Model() == Queue(Empty(config.own, config.monitoring, config.maxPayload, true, config.maxChannels),
                                    config.maxChunkLength, config.maxPayload, [], storage.outbox.Length,
                                    [], storage.inbox.Length, 0, sendLimit)
  {
    if |buffers| == 0 || storage.inbox.Length == 0 || storage.outbox.Length == 0 { return null; }
    if storage.maxPayload != 0 && (rxPayload == null || storage.inboxPayload == null) { return null; }
    var protocol := InitStatic(config, buffers, rxPayload);
    if protocol == null { return null; }
    q := new QueueObject(storage, protocol, sendLimit);
  }

  /** A message fits where the receiver took it. */
  lemma ViewFits(r: Receiver, f: Frame)
    requires ReceiverOk(r) && r.fixed
    ensures var m := PlexCore.AddChunkView(r, f, Env(true, true)).1.message;
            m.Some? ==> |m.value.data| <= r.maxPayload
  {
    if f.len <= MAX_LEN {
      ExpireKeeps(r);
      AddToTableKeeps(Expire(r), RouteOf(f.id), f, Env(true, true));
    }
  }
}
