/** Unacknowledged transfers: what the sender puts out in any run, and what the
    receiver makes of it. */
module ImpUnacked {
  import opened Can
  import opened ImpCore
  import opened ImpInvariants
  import opened ImpReceive
  import opened ImpSender
  import ImpProcess

  // -------------------------------------------------------------------- the sender

  /** The slot whose transfer a call of `process` serves: the first unacknowledged
      one, if nothing is overdue. */
  ghost function Served(c: Context, now: nat): Option<nat> {
    if First(c.sessions, Overdue(now, c.timeoutMs)) < |c.sessions| then None
    else if First(c.sessions, Unacked()) == |c.sessions| then None
    else Some(First(c.sessions, Unacked()))
  }

  /** The frames put out for the transfer in a slot, and whether it is over. */
  datatype Trail = Trail(sent: seq<Packet>, over: bool)

  ghost function TrailNext(c: Context, op: Op, i: nat, t: Trail): Trail
    requires ContextOk(c) && i < |c.sessions|
  {
    if t.over || !op.Tick? || Served(c, op.now) != Some(i) || Process(c, op.now).output.frame.None? then t
    else Trail(t.sent + [Process(c, op.now).output.frame.value], Process(c, op.now).ctx.sessions[i].state == Free)
  }

  ghost function TrailOf(c: Context, ops: seq<Op>, i: nat): Trail
    requires ContextOk(c) && i < |c.sessions|
  {
    if ops == [] then Trail([], false)
    else TrailNext(After(c, ops[..|ops| - 1]), ops[|ops| - 1], i, TrailOf(c, ops[..|ops| - 1], i))
  }

  /** An unacknowledged transfer in full: its payload in slices, then END_WA. */
  ghost function UnackedScript(own: nat, s: Session): (p: seq<Packet>)
    ensures |p| == SliceCount(s.payload) + 1
  {
    seq(SliceCount(s.payload), k requires 0 <= k < SliceCount(s.payload) => ToPeer(own, s, DataWa, Slice(s.payload, k)))
    + [ToPeer(own, s, EndWa)]
  }

  /** The session after its first `n` slices have gone out. */
  ghost function Drained(s: Session, n: nat): Session {
    s.(offset := Min(MAX_LEN * n, |s.payload|))
  }

  /** No frame for the transfer's key comes in. */
  ghost predicate LeftAlone(own: nat, ops: seq<Op>, k: Key) {
    forall n :: 0 <= n < |ops| ==> !For(own, ops[n], k)
  }

  ghost predicate TrailOk(own: nat, s: Session, c: Context, i: nat, t: Trail) {
    && c.own == own && i < |c.sessions| && t.sent <= UnackedScript(own, s)
    && (t.over <==> |t.sent| == SliceCount(s.payload) + 1)
    && (!t.over ==> c.sessions[i] == Drained(s, |t.sent|))
  }

  /** In every run of sends, `process` and frames for other keys: the frames put out
      for an unacknowledged transfer are a prefix of its script, and it stands behind
      the last of them until END_WA has gone. It never times out. */
  lemma {:induction false} EachDrains(c: Context, ops: seq<Op>, i: nat)
    requires ContextOk(c) && i < |c.sessions| && c.sessions[i].state == TxWithoutAck && c.sessions[i].offset == 0
    requires LeftAlone(c.own, ops, KeyOf(c.sessions[i]))
    ensures TrailOk(c.own, c.sessions[i], After(c, ops), i, TrailOf(c, ops, i))
  {
    if ops != [] {
      var n := |ops| - 1;
      EachDrains(c, ops[..n], i);
      TrailStep(c.own, c.sessions[i], After(c, ops[..n]), ops[n], i, TrailOf(c, ops[..n], i));
    }
  }

  lemma TrailStep(own: nat, s: Session, c: Context, op: Op, i: nat, t: Trail)
    requires ContextOk(c) && i < |c.sessions| && s.state == TxWithoutAck && s.offset == 0
    requires TrailOk(own, s, c, i, t) && !For(own, op, KeyOf(s))
    ensures TrailOk(own, s, Perform(c, op).ctx, i, TrailNext(c, op, i, t))
  {
    PerformOk(c, op);
    if !t.over {
      if op.Tick? {
        TickServes(own, s, c, op.now, i, |t.sent|);
        PrefixGrows(t.sent, UnackedScript(own, s));
      } else {
        OthersKept(c, op, i);
      }
    }
  }

  lemma TickServes(own: nat, s: Session, c: Context, now: nat, i: nat, n: nat)
    requires ContextOk(c) && c.own == own && i < |c.sessions| && s.state == TxWithoutAck && s.offset == 0
    requires n <= SliceCount(s.payload) && c.sessions[i] == Drained(s, n)
    ensures var r := Process(c, now);
            if Served(c, now) == Some(i) then
              && r.output.frame == Some(UnackedScript(own, s)[n])
              && r.ctx.sessions[i] == if n < SliceCount(s.payload) then Drained(s, n + 1) else Release(s)
            else r.ctx.sessions[i] == c.sessions[i]
  {
    if Served(c, now) == Some(i) {
      PumpDrains(own, s, n);
    }
  }

  lemma PumpDrains(own: nat, s: Session, n: nat)
    requires s.state == TxWithoutAck && s.offset == 0 && |s.payload| < 0x1_0000 && n <= SliceCount(s.payload)
    ensures var step := PumpUnacked(own, Drained(s, n));
            && step.output.frame == Some(UnackedScript(own, s)[n])
            && step.session == if n < SliceCount(s.payload) then Drained(s, n + 1) else Release(s)
  {
    if n < SliceCount(s.payload) {
      assert NextSlice(Drained(s, n)) == Slice(s.payload, n);
    }
  }

  lemma PrefixGrows(s: seq<Packet>, t: seq<Packet>)
    requires s <= t
    ensures |s| < |t| ==> s + [t[|s|]] <= t
  {
  }

  /** Once `process` has nothing left to do, all of it has gone out. */
  lemma DrainedWhenSilent(c: Context, ops: seq<Op>, now: nat, i: nat)
    requires ContextOk(c) && i < |c.sessions| && c.sessions[i].state == TxWithoutAck && c.sessions[i].offset == 0
    requires LeftAlone(c.own, ops, KeyOf(c.sessions[i])) && ImpProcess.Quiet(After(c, ops), now)
    ensures TrailOf(c, ops, i) == Trail(UnackedScript(c.own, c.sessions[i]), true)
  {
    EachDrains(c, ops, i);
  }

  // ------------------------------------------------------------------ the receiver

  /** All frames of an unacknowledged transfer. */
  ghost function FullScript(own: nat, s: Session): (p: seq<Packet>)
    ensures |p| == SliceCount(s.payload) + 2 && forall j :: 0 <= j < |p| ==> |p[j].body| <= MAX_LEN
  {
    [ToPeer(own, s, StartWa)] + UnackedScript(own, s)
  }

  /** Frames for a key among the first `n` calls. */
  ghost function Heard(own: nat, ops: seq<Op>, k: Key, n: nat): nat
    requires n <= |ops|
  {
    if n == 0 then 0 else Heard(own, ops, k, n - 1) + (if For(own, ops[n - 1], k) then 1 else 0)
  }

  /** The key under which the receiver has the transfer `s` of `from`. */
  function KeyThere(from: nat, s: Session): Key { Key(from, s.peer, s.sid) }

  /** The receiver is willing: keys stay apart, a call for the key is granted memory
      and its message accepted, and its reception is never overdue at a tick. */
  ghost predicate Willing(b: Context, op: Op, k: Key) {
    && DistinctKeys(b.sessions)
    && (For(b.own, op, k) ==> op.env == Env(true, true))
    && (op.Tick? ==> forall i :: 0 <= i < |b.sessions| && b.sessions[i].state == Rx && KeyOf(b.sessions[i]) == k ==>
                       !Overdue(op.now, b.timeoutMs)(b.sessions[i]))
  }

  /** The frames `b` gets for the key are those of the list, in order. */
  ghost predicate Feeds(own: nat, ops: seq<Op>, k: Key, list: seq<Packet>) {
    forall n :: 0 <= n < |ops| && For(own, ops[n], k) ==>
      && Heard(own, ops, k, n) < |list| && |list[Heard(own, ops, k, n)].body| <= MAX_LEN
      && ops[n].frame == Encode(list[Heard(own, ops, k, n)])
  }

  /** A START for the key finds its reception, or a free slot. */
  ghost predicate RoomFor(b: Context, k: Key) {
    var i := FindSession(b.sessions, k);
    if i < |b.sessions| then b.sessions[i].state == Rx else FindFree(b.sessions, k.peer) < |b.sessions|
  }

  /** The reception after the START and `n` slices. */
  ghost predicate HoldsSlices(b: Context, k: Key, data: seq<byte>, n: nat, i: nat) {
    && i < |b.sessions| && b.sessions[i].state == Rx && KeyOf(b.sessions[i]) == k
    && b.sessions[i].mode == WithoutAck && b.sessions[i].payload == data[..Min(MAX_LEN * n, |data|)]
  }

  lemma StartHeard(b: Context, op: Op, from: nat, s: Session) returns (i: nat)
    requires ContextOk(b) && DistinctKeys(b.sessions) && RoomFor(b, KeyThere(from, s))
    requires from <= 31 && s.peer <= 31 && s.sid <= 15 && op.Receive? && op.frame == Encode(ToPeer(from, s, StartWa))
    requires For(b.own, op, KeyThere(from, s))
    ensures var r := Perform(b, op);
            HoldsSlices(r.ctx, KeyThere(from, s), s.payload, 0, i) && r.output.frame == None && r.output.message == None
  {
    var k, h := KeyThere(from, s), Header(s.peer, from, s.sid, Some(StartWa));
    Carried(b, ToPeer(from, s, StartWa), op.now, op.env);
    i := FindSession(b.sessions, k);
    if i < |b.sessions| {
      assert HasKey(k)(b.sessions[i]);
      DispatchFound(b, h, [], op.now, op.env, i);
    } else {
      i := FindFree(b.sessions, from);
      DispatchCreated(b, h, [], op.now, op.env);
    }
  }

  lemma SliceHeard(b: Context, op: Op, from: nat, s: Session, n: nat, i: nat)
    requires ContextOk(b) && DistinctKeys(b.sessions) && HoldsSlices(b, KeyThere(from, s), s.payload, n, i)
    requires from <= 31 && s.peer <= 31 && s.sid <= 15 && n < SliceCount(s.payload) && |s.payload| <= b.maxSize
    requires op.Receive? && op.frame == Encode(ToPeer(from, s, DataWa, Slice(s.payload, n)))
    requires op.env == Env(true, true)
    requires For(b.own, op, KeyThere(from, s))
    ensures var r := Perform(b, op);
            && HoldsSlices(r.ctx, KeyThere(from, s), s.payload, n + 1, i)
            && r.output.frame == None && r.output.message == None
  {
    var slice := Slice(s.payload, n);
    Carried(b, ToPeer(from, s, DataWa, slice), op.now, op.env);
    ScanIsLookup(b.sessions, i);
    DispatchFound(b, Header(s.peer, from, s.sid, Some(DataWa)), slice, op.now, op.env, i);
    AppendOk(b.sessions[i], b.maxSize, slice, true);
    NextPart(s.payload, n);
    DataTaken(b.own, b.maxSize, b.sessions[i], slice, op.now);
  }

  lemma NextPart(data: seq<byte>, n: nat)
    requires n < SliceCount(data)
    ensures data[..Min(MAX_LEN * n, |data|)] + Slice(data, n) == data[..Min(MAX_LEN * (n + 1), |data|)]
  {
  }

  lemma DataTaken(own: nat, maxSize: nat, t: Session, body: seq<byte>, now: nat)
    requires t.state == Rx && SessionOk(t, own, maxSize) && |body| <= MAX_LEN && |t.payload| + |body| <= maxSize
    ensures var step := HandleRx(own, maxSize, t, DataWa, body, now, Env(true, true));
            && step.session.state == Rx && KeyOf(step.session) == KeyOf(t) && step.session.mode == t.mode
            && step.session.payload == t.payload + body && step.output == NO_OUTPUT
  {
    AppendOk(t, maxSize, body, true);
  }

  lemma EndHeard(b: Context, op: Op, from: nat, s: Session, i: nat)
    requires ContextOk(b) && DistinctKeys(b.sessions)
    requires HoldsSlices(b, KeyThere(from, s), s.payload, SliceCount(s.payload), i)
    requires from <= 31 && s.peer <= 31 && s.sid <= 15
    requires op.Receive? && op.frame == Encode(ToPeer(from, s, EndWa)) && op.env == Env(true, true)
    requires For(b.own, op, KeyThere(from, s))
    ensures var r := Perform(b, op);
            && r.output.message == Some(Message(WithoutAck, from, s.peer, s.sid, s.payload))
            && r.output.frame == None && |r.ctx.sessions| == |b.sessions| && r.ctx.sessions[i].state == Free
  {
    Carried(b, ToPeer(from, s, EndWa), op.now, op.env);
    ScanIsLookup(b.sessions, i);
    DispatchFound(b, Header(s.peer, from, s.sid, Some(EndWa)), [], op.now, op.env, i);
    assert b.sessions[i].payload == s.payload;
  }

  /** The run hears the frames of a transfer of `from`, or the first of them, among
      whatever else goes on. */
  ghost predicate Hears(b: Context, ops: seq<Op>, from: nat, s: Session, list: seq<Packet>)
    requires ContextOk(b)
  {
    && from <= 31 && s.peer <= 31 && s.sid <= 15 && |s.payload| <= b.maxSize
    && Feeds(b.own, ops, KeyThere(from, s), list)
    && forall n :: 0 <= n < |ops| ==>
         && Willing(After(b, ops[..n]), ops[n], KeyThere(from, s))
         && (For(b.own, ops[n], KeyThere(from, s)) && Heard(b.own, ops, KeyThere(from, s), n) == 0
             ==> RoomFor(After(b, ops[..n]), KeyThere(from, s)))
  }

  /** One call for the key, with the reception as it stands after `n` frames. */
  lemma NextHeard(b: Context, op: Op, from: nat, s: Session, n: nat, i: nat) returns (j: nat)
    requires ContextOk(b) && Willing(b, op, KeyThere(from, s)) && For(b.own, op, KeyThere(from, s))
    requires from <= 31 && s.peer <= 31 && s.sid <= 15 && |s.payload| <= b.maxSize
    requires n < |FullScript(from, s)| && op.frame == Encode(FullScript(from, s)[n])
    requires if n == 0 then RoomFor(b, KeyThere(from, s)) else HoldsSlices(b, KeyThere(from, s), s.payload, n - 1, i)
    ensures var r := Perform(b, op);
            && r.output.frame == None
            && r.output.message
               == (if n + 1 == |FullScript(from, s)| then Some(Message(WithoutAck, from, s.peer, s.sid, s.payload))
                   else None)
            && (n + 1 < |FullScript(from, s)| ==> HoldsSlices(r.ctx, KeyThere(from, s), s.payload, n, j))
  {
    j := i;
    if n == 0 {
      j := StartHeard(b, op, from, s);
    } else if n <= SliceCount(s.payload) {
      assert FullScript(from, s)[n] == ToPeer(from, s, DataWa, Slice(s.payload, n - 1));
      SliceHeard(b, op, from, s, n - 1, i);
    } else {
      assert FullScript(from, s)[n] == ToPeer(from, s, EndWa);
      EndHeard(b, op, from, s, i);
    }
  }

  /** A call that is not for the key leaves the reception as it is. */
  lemma StillHolds(b: Context, op: Op, k: Key, data: seq<byte>, n: nat, i: nat)
    requires ContextOk(b) && Willing(b, op, k) && !For(b.own, op, k) && HoldsSlices(b, k, data, n, i)
    ensures HoldsSlices(Perform(b, op).ctx, k, data, n, i)
  {
    OthersKept(b, op, i);
    PerformOk(b, op);
  }

  /** Call `op` brings frame `h` of the transfer, or none; the receiver is willing. */
  ghost predicate Brings(d: Context, op: Op, from: nat, s: Session, h: nat) {
    && Willing(d, op, KeyThere(from, s))
    && from <= 31 && s.peer <= 31 && s.sid <= 15 && |s.payload| <= d.maxSize
    && (For(d.own, op, KeyThere(from, s)) ==>
          && h < |FullScript(from, s)| && op.frame == Encode(FullScript(from, s)[h])
          && (h == 0 ==> RoomFor(d, KeyThere(from, s))))
  }

  /** Between the first frame and the last the reception is there, with the slices
      heard so far. */
  ghost predicate StandsAt(d: Context, from: nat, s: Session, h: nat, i: nat) {
    0 < h < |FullScript(from, s)| ==> HoldsSlices(d, KeyThere(from, s), s.payload, h - 1, i)
  }

  /** What is known of call number `n`. */
  lemma OneMore(b: Context, ops: seq<Op>, from: nat, s: Session, list: seq<Packet>, n: nat)
    returns (d: Context, h: nat)
    requires ContextOk(b) && Hears(b, ops, from, s, list) && list <= FullScript(from, s) && 0 < n <= |ops|
    ensures d == After(b, ops[..n - 1]) && ContextOk(d) && Brings(d, ops[n - 1], from, s, h)
    ensures After(b, ops[..n]) == Perform(d, ops[n - 1]).ctx
    ensures h == Heard(b.own, ops, KeyThere(from, s), n - 1)
    ensures Heard(b.own, ops, KeyThere(from, s), n)
            == if For(d.own, ops[n - 1], KeyThere(from, s)) then h + 1 else h
  {
    d, h := After(b, ops[..n - 1]), Heard(b.own, ops, KeyThere(from, s), n - 1);
    assert ops[..n][..n - 1] == ops[..n - 1];
  }

  /** One call later. */
  lemma StandsOn(d: Context, op: Op, from: nat, s: Session, h: nat, i: nat) returns (j: nat)
    requires ContextOk(d) && Brings(d, op, from, s, h) && StandsAt(d, from, s, h, i)
    ensures StandsAt(Perform(d, op).ctx, from, s, if For(d.own, op, KeyThere(from, s)) then h + 1 else h, j)
  {
    j := i;
    if For(d.own, op, KeyThere(from, s)) {
      j := NextHeard(d, op, from, s, h, i);
    } else if 0 < h < |FullScript(from, s)| {
      StillHolds(d, op, KeyThere(from, s), s.payload, h - 1, i);
    }
  }

  lemma {:induction false} Stands(b: Context, ops: seq<Op>, from: nat, s: Session, list: seq<Packet>, n: nat)
    returns (i: nat)
    requires ContextOk(b) && Hears(b, ops, from, s, list) && list <= FullScript(from, s) && n <= |ops|
    ensures StandsAt(After(b, ops[..n]), from, s, Heard(b.own, ops, KeyThere(from, s), n), i)
  {
    i := 0;
    if n > 0 {
      i := Stands(b, ops, from, s, list, n - 1);
      var d, h := OneMore(b, ops, from, s, list, n);
      i := StandsOn(d, ops[n - 1], from, s, h, i);
    }
  }

  /** What a frame of the transfer draws: the message at the last one, nothing else. */
  ghost predicate Draws(out: Output, from: nat, s: Session, h: nat) {
    && out.frame == None
    && out.message == if h + 1 == |FullScript(from, s)|
                      then Some(Message(WithoutAck, from, s.peer, s.sid, s.payload)) else None
  }

  lemma DrawsOnlyMessage(d: Context, op: Op, from: nat, s: Session, h: nat, i: nat)
    requires ContextOk(d) && Brings(d, op, from, s, h) && StandsAt(d, from, s, h, i)
    requires For(d.own, op, KeyThere(from, s))
    ensures Draws(Perform(d, op).output, from, s, h)
  {
    var j := NextHeard(d, op, from, s, h, i);
  }

  /** Whatever other keys send, and whatever the receiver sends itself: the message
      is handed out unaltered exactly at END_WA, and no frame of the transfer draws
      an answer. */
  lemma Arrives(b: Context, ops: seq<Op>, from: nat, s: Session, list: seq<Packet>, n: nat)
    requires ContextOk(b) && Hears(b, ops, from, s, list) && list <= FullScript(from, s) && n < |ops|
    requires For(b.own, ops[n], KeyThere(from, s))
    ensures var out := Perform(After(b, ops[..n]), ops[n]).output;
            && out.frame == None
            && out.message == if Heard(b.own, ops, KeyThere(from, s), n) + 1 == |FullScript(from, s)|
                              then Some(Message(WithoutAck, from, s.peer, s.sid, s.payload)) else None
  {
    var i := Stands(b, ops, from, s, list, n);
    var d, h := OneMore(b, ops, from, s, list, n + 1);
    DrawsOnlyMessage(d, ops[n], from, s, h, i);
  }

  // --------------------------------------------------------------------- end to end

  /** What a sender has put out for a transfer: its START and the trail of its slot. */
  ghost function PutOut(a: Context, msg: Message, now: nat, env: Env, ops: seq<Op>): seq<Packet>
    requires ContextOk(a) && StartSend(a, msg, now, env).result == Ok
  {
    StartSendOk(a, msg, now, env);
    SendEffect(a, msg, now, env);
    var r := StartSend(a, msg, now, env);
    [r.output.frame.value] + TrailOf(r.ctx, ops, FindFree(a.sessions, msg.to)).sent
  }

  /** An unacknowledged send over a wire that keeps the order and loses nothing: if
      what the receiver hears of the transfer are the first frames put out for it,
      then the message comes out unaltered at the END_WA, and at no other frame of
      the transfer; by then the sender has put out all of it. Both sides may send,
      receive for other keys and call `process` at any time. */
  lemma UnackedDelivered(a: Context, msg: Message, now: nat, env: Env, sends: seq<Op>,
                         b: Context, ops: seq<Op>, n: nat)
    requires ContextOk(a) && StartSend(a, msg, now, env).result == Ok
    requires msg.mode == WithoutAck || msg.to == DEVICE_ALL
    requires var r := StartSend(a, msg, now, env);
             LeftAlone(a.own, sends, Key(msg.to, a.own, r.output.sid))
    requires ContextOk(b) && n < |ops|
    requires var r := StartSend(a, msg, now, env);
             var slot := FindFree(a.sessions, msg.to);
             slot < |r.ctx.sessions| && Hears(b, ops, a.own, r.ctx.sessions[slot], PutOut(a, msg, now, env, sends))
    requires For(b.own, ops[n], Key(a.own, msg.to, StartSend(a, msg, now, env).output.sid))
    ensures var sid := StartSend(a, msg, now, env).output.sid;
            var k := Key(a.own, msg.to, sid);
            var out := Perform(After(b, ops[..n]), ops[n]).output;
            && out.frame == None
            && out.message == (if Heard(b.own, ops, k, n) + 1 == SliceCount(msg.data) + 2
                               then Some(Message(WithoutAck, a.own, msg.to, sid, msg.data)) else None)
            && Heard(b.own, ops, k, n) < |PutOut(a, msg, now, env, sends)| <= SliceCount(msg.data) + 2
  {
    PutOutFollows(a, msg, now, env, sends);
    var s := StartSend(a, msg, now, env).ctx.sessions[FindFree(a.sessions, msg.to)];
    Arrives(b, ops, a.own, s, PutOut(a, msg, now, env, sends), n);
  }

  lemma PutOutFollows(a: Context, msg: Message, now: nat, env: Env, sends: seq<Op>)
    requires ContextOk(a) && StartSend(a, msg, now, env).result == Ok
    requires msg.mode == WithoutAck || msg.to == DEVICE_ALL
    requires LeftAlone(a.own, sends, Key(msg.to, a.own, StartSend(a, msg, now, env).output.sid))
    ensures var r, slot := StartSend(a, msg, now, env), FindFree(a.sessions, msg.to);
            && slot < |r.ctx.sessions| && PutOut(a, msg, now, env, sends) <= FullScript(a.own, r.ctx.sessions[slot])
            && r.ctx.sessions[slot].payload == msg.data && r.ctx.sessions[slot].peer == msg.to
            && r.ctx.sessions[slot].sid == r.output.sid
  {
    var r, slot := StartSend(a, msg, now, env), FindFree(a.sessions, msg.to);
    StartSendOk(a, msg, now, env);
    SendEffect(a, msg, now, env);
    EachDrains(r.ctx, sends, slot);
  }
}
