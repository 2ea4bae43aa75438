/** Unacknowledged messages one after the other under the same key: over a wire that
    keeps the order and loses nothing they come out in the order they were sent. */
module ImpStream {
  import opened Can
  import opened ImpCore
  import opened ImpInvariants
  import opened ImpReceive
  import opened ImpSender
  import opened ImpUnacked
  import ImpProcess
  import N = ImpNetwork

  /** A session that carries these data under the key. */
  function Carrier(k: Key, data: seq<byte>): Session {
    Session({}, TxWithoutAck, WithoutAck, k.peer, k.local, k.sid, 0, data, |data|, 0, 0)
  }

  /** The frames of one message under the key. */
  ghost function Frames(k: Key, data: seq<byte>): (p: seq<Packet>)
    ensures |p| == SliceCount(data) + 2 && forall j :: 0 <= j < |p| ==> |p[j].body| <= MAX_LEN
  {
    FullScript(k.local, Carrier(k, data))
  }

  /** Those of a list of messages. */
  ghost function Scripts(k: Key, ds: seq<seq<byte>>): seq<Packet> {
    if ds == [] then [] else Scripts(k, ds[..|ds| - 1]) + Frames(k, ds[|ds| - 1])
  }

  lemma {:induction false} ScriptsPrefix(k: Key, ds: seq<seq<byte>>, m: nat)
    requires m <= |ds|
    ensures Scripts(k, ds[..m]) <= Scripts(k, ds)
  {
    if m == |ds| {
      assert ds[..m] == ds;
    } else {
      assert ds[..|ds| - 1][..m] == ds[..m];
      ScriptsPrefix(k, ds[..|ds| - 1], m);
    }
  }

  // -------------------------------------------------------------------- the sender

  /** The frame of a call, if it goes out under the key. */
  function OnKey(k: Key, out: Output): seq<Packet> {
    if out.frame.Some? && out.frame.value.to == k.peer && out.frame.value.sid == k.sid then [out.frame.value] else []
  }

  /** All frames put out under the key. */
  ghost function PutOn(c: Context, ops: seq<Op>, k: Key): seq<Packet>
    requires ContextOk(c)
  {
    if ops == [] then []
    else
      var n := |ops| - 1;
      PutOn(c, ops[..n], k) + OnKey(k, Perform(After(c, ops[..n]), ops[n]).output)
  }

  /** The call is a send that takes the key. */
  ghost predicate Posts(c: Context, op: Op, k: Key)
    requires ContextOk(c)
  {
    op.Send? && Perform(c, op).result == Ok && op.msg.to == k.peer && Perform(c, op).output.sid == k.sid
  }

  /** The data of all messages sent under the key. */
  ghost function Posted(c: Context, ops: seq<Op>, k: Key): seq<seq<byte>>
    requires ContextOk(c)
  {
    if ops == [] then []
    else
      var n := |ops| - 1;
      Posted(c, ops[..n], k) + (if Posts(After(c, ops[..n]), ops[n], k) then [ops[n].msg.data] else [])
  }

  /** No acknowledged send takes the key, and no frame for it comes in. */
  ghost predicate OneWay(c: Context, op: Op, k: Key)
    requires ContextOk(c)
  {
    !For(c.own, op, k) && (Posts(c, op, k) ==> op.msg.mode == WithoutAck || op.msg.to == DEVICE_ALL)
  }

  /** No session has the key, but for slot `i` if there is one. */
  ghost predicate Alone(c: Context, k: Key, i: nat) {
    forall j :: 0 <= j < |c.sessions| && j != i ==> !HasKey(k)(c.sessions[j])
  }

  /** What has been put out are the frames of the messages so far, the last of which may
      be under way in slot `i` with `n` slices gone. */
  ghost predicate Streams(k: Key, c: Context, ds: seq<seq<byte>>, sent: seq<Packet>, i: nat, n: nat) {
    && ContextOk(c) && c.own == k.local && Alone(c, k, i) && i <= |c.sessions|
    && if i == |c.sessions| then sent == Scripts(k, ds)
       else
         && ds != [] && n <= SliceCount(ds[|ds| - 1]) && IsCarrier(c.sessions[i], k, ds[|ds| - 1], n)
         && sent == Scripts(k, ds[..|ds| - 1]) + Frames(k, ds[|ds| - 1])[..n + 1]
  }

  ghost predicate IsCarrier(s: Session, k: Key, data: seq<byte>, n: nat) {
    && s.state == TxWithoutAck && KeyOf(s) == k && s.payload == data && s.offset == Min(MAX_LEN * n, |data|)
  }

  lemma SameScript(own: nat, s: Session, t: Session)
    requires s.peer == t.peer && s.sid == t.sid && s.payload == t.payload
    ensures UnackedScript(own, s) == UnackedScript(own, t) && FullScript(own, s) == FullScript(own, t)
  {
    forall k | 0 <= k < SliceCount(s.payload) ensures UnackedScript(own, s)[k] == UnackedScript(own, t)[k] {
    }
  }

  /** A call that serves another key changes nothing of the stream. */
  lemma Elsewhere(c: Context, op: Op, j: nat, other: Key, k: Key, i: nat)
    requires ContextOk(c) && N.Serves(c, op, j, other) && other != k && k.local == c.own && Alone(c, k, i)
    requires i <= |c.sessions| && (i < |c.sessions| ==> HasKey(k)(c.sessions[i]))
    ensures var r := Perform(c, op);
            && OnKey(k, r.output) == [] && Alone(r.ctx, k, i) && |r.ctx.sessions| == |c.sessions|
            && (i < |c.sessions| ==> r.ctx.sessions[i] == c.sessions[i])
  {
  }

  /** A frame that is not for the key, though it names it, does nothing at all. */
  lemma NotHeeded(c: Context, op: Op)
    requires ContextOk(c) && op.Receive? && !For(c.own, op, N.FrameKey(op.frame))
    ensures Perform(c, op).ctx == c && Perform(c, op).output == NO_OUTPUT
  {
  }

  /** A send does not take the key of a transfer under way. */
  lemma KeyWasFree(c: Context, op: Op, k: Key)
    requires ContextOk(c) && Posts(c, op, k)
    ensures forall i :: 0 <= i < |c.sessions| && c.sessions[i].IsTx() ==> KeyOf(c.sessions[i]) != k
  {
    SendEffect(c, op.msg, op.now, op.env);
    var ss, slot := c.sessions, FindFree(c.sessions, op.msg.to);
    var id :| id < 8 && !Reserved(ss, op.msg.to, id)
              && Perform(c, op).ctx.sessions[slot] == OpenedTx(c.own, ss[slot].mask, op.msg, id, op.now);
    HalfOf(id, InitiatorBit(c.own, op.msg.to));
    assert Half(k.sid) == id;
    forall i | 0 <= i < |ss| && ss[i].IsTx() && ss[i].peer == k.peer ensures Half(ss[i].sid) != id {
    }
  }

  lemma PostStep(k: Key, c: Context, op: Op, ds: seq<seq<byte>>, sent: seq<Packet>, i: nat, n: nat) returns (j: nat)
    requires Streams(k, c, ds, sent, i, n) && OneWay(c, op, k) && Posts(c, op, k)
    ensures Streams(k, Perform(c, op).ctx, ds + [op.msg.data], sent + OnKey(k, Perform(c, op).output), j, 0)
  {
    SendEffect(c, op.msg, op.now, op.env);
    PerformOk(c, op);
    var r := Perform(c, op);
    j := FindFree(c.sessions, op.msg.to);
    var s, all := r.ctx.sessions[j], ds + [op.msg.data];
    KeyWasFree(c, op, k);
    assert all[..|all| - 1] == ds;
    assert Frames(k, op.msg.data)[..1] == [ToPeer(c.own, s, StartWa)];
  }

  /** The next frame of the message. */
  lemma PumpStep(k: Key, own: nat, s: Session, data: seq<byte>, n: nat)
    requires IsCarrier(s, k, data, n) && own == k.local && |data| < 0x1_0000 && n <= SliceCount(data)
    ensures var step := PumpUnacked(own, s);
            && step.output.frame == Some(Frames(k, data)[n + 1])
            && step.output.frame.value.to == k.peer && step.output.frame.value.sid == k.sid
            && if n < SliceCount(data) then IsCarrier(step.session, k, data, n + 1) else step.session.state == Free
  {
    var whole := s.(offset := 0);
    PumpDrains(own, whole, n);
    SameScript(own, whole, Carrier(k, data));
    assert Drained(whole, n) == s;
  }

  lemma TickStep(k: Key, c: Context, now: nat, ds: seq<seq<byte>>, sent: seq<Packet>, i: nat, n: nat)
    requires Streams(k, c, ds, sent, i, n) && i < |c.sessions| && Served(c, now) == Some(i)
    ensures var r := Process(c, now);
            Streams(k, r.ctx, ds, sent + OnKey(k, r.output),
                    if n < SliceCount(ds[|ds| - 1]) then i else |c.sessions|, n + 1)
  {
    var s, data := c.sessions[i], ds[|ds| - 1];
    var script := Frames(k, data);
    ProcessOk(c, now);
    PumpStep(k, c.own, s, data, n);
    assert script[..n + 1] + [script[n + 1]] == script[..n + 2];
    if n == SliceCount(data) { assert script[..n + 2] == script; }
  }

  /** The stream after one more call. */
  lemma StreamStep(k: Key, c: Context, op: Op, ds: seq<seq<byte>>, sent: seq<Packet>, i: nat, n: nat)
      returns (i': nat, n': nat)
    requires Streams(k, c, ds, sent, i, n) && OneWay(c, op, k)
    ensures Streams(k, Perform(c, op).ctx, if Posts(c, op, k) then ds + [op.msg.data] else ds,
                    sent + OnKey(k, Perform(c, op).output), i', n')
  {
    i', n' := i, n;
    if Posts(c, op, k) {
      n' := 0;
      i' := PostStep(k, c, op, ds, sent, i, n);
    } else if op.Tick? && Served(c, op.now) == Some(i) && i < |c.sessions| {
      TickStep(k, c, op.now, ds, sent, i, n);
      i', n' := if n < SliceCount(ds[|ds| - 1]) then i else |c.sessions|, n + 1;
    } else {
      OtherStep(k, c, op, ds, sent, i, n);
    }
  }

  lemma OtherStep(k: Key, c: Context, op: Op, ds: seq<seq<byte>>, sent: seq<Packet>, i: nat, n: nat)
    requires Streams(k, c, ds, sent, i, n) && OneWay(c, op, k) && !Posts(c, op, k)
    requires op.Tick? && i < |c.sessions| ==> Served(c, op.now) != Some(i)
    ensures Streams(k, Perform(c, op).ctx, ds, sent + OnKey(k, Perform(c, op).output), i, n)
  {
    PerformOk(c, op);
    assert sent + [] == sent;
    if op.Send? {
      PostElsewhere(k, c, op, i);
    } else if op.Receive? {
      FrameElsewhere(k, c, op, i);
    } else {
      TickElsewhere(k, c, op.now, i);
    }
  }

  ghost predicate Untouched(k: Key, c: Context, op: Op, i: nat)
    requires ContextOk(c) && i <= |c.sessions|
  {
    var r := Perform(c, op);
    && OnKey(k, r.output) == [] && Alone(r.ctx, k, i) && |r.ctx.sessions| == |c.sessions|
    && (i < |c.sessions| ==> r.ctx.sessions[i] == c.sessions[i])
  }

  lemma PostElsewhere(k: Key, c: Context, op: Op, i: nat)
    requires ContextOk(c) && k.local == c.own && Alone(c, k, i) && i <= |c.sessions| && op.Send? && !Posts(c, op, k)
    requires i < |c.sessions| ==> HasKey(k)(c.sessions[i])
    ensures Untouched(k, c, op, i)
  {
    var j, other := N.SendServes(c, op.msg, op.now, op.env);
    if Perform(c, op).result == Ok { Elsewhere(c, op, j, other, k, i); }
  }

  lemma FrameElsewhere(k: Key, c: Context, op: Op, i: nat)
    requires ContextOk(c) && k.local == c.own && Alone(c, k, i) && i <= |c.sessions| && op.Receive?
    requires !For(c.own, op, k)
    requires i < |c.sessions| ==> HasKey(k)(c.sessions[i])
    ensures Untouched(k, c, op, i)
  {
    var j := N.ReceiveServes(c, op.frame, op.now, op.env);
    if N.FrameKey(op.frame) == k {
      NotHeeded(c, op);
    } else {
      Elsewhere(c, op, j, N.FrameKey(op.frame), k, i);
    }
  }

  lemma TickElsewhere(k: Key, c: Context, now: nat, i: nat)
    requires ContextOk(c) && k.local == c.own && Alone(c, k, i) && i <= |c.sessions|
    requires i < |c.sessions| ==>
               HasKey(k)(c.sessions[i]) && c.sessions[i].state == TxWithoutAck && Served(c, now) != Some(i)
    ensures Untouched(k, c, Tick(now), i)
  {
    var j, other := N.TickServes(c, now);
    if j < |c.sessions| {
      assert j != i && !HasKey(k)(c.sessions[j]);
      Elsewhere(c, Tick(now), j, other, k, i);
    }
  }

  lemma LastOpPuts(c: Context, ops: seq<Op>, k: Key)
    requires ContextOk(c) && ops != []
    ensures var n := |ops| - 1;
            var d := After(c, ops[..n]);
            && After(c, ops) == Perform(d, ops[n]).ctx
            && PutOn(c, ops, k) == PutOn(c, ops[..n], k) + OnKey(k, Perform(d, ops[n]).output)
            && Posted(c, ops, k)
               == if Posts(d, ops[n], k) then Posted(c, ops[..n], k) + [ops[n].msg.data] else Posted(c, ops[..n], k)
  {
    assert Posted(c, ops[..|ops| - 1], k) + [] == Posted(c, ops[..|ops| - 1], k);
  }

  ghost predicate AllOneWay(c: Context, ops: seq<Op>, k: Key)
    requires ContextOk(c)
  {
    ops != [] ==> var n := |ops| - 1; AllOneWay(c, ops[..n], k) && OneWay(After(c, ops[..n]), ops[n], k)
  }

  /** In every run the frames put out under the key are those of the messages sent, one
      message after the other, but for the rest of the last one. */
  lemma {:induction false} StreamOut(c: Context, ops: seq<Op>, k: Key) returns (i: nat, n: nat)
    requires ContextOk(c) && k.local == c.own && FindSession(c.sessions, k) == |c.sessions| && AllOneWay(c, ops, k)
    ensures Streams(k, After(c, ops), Posted(c, ops, k), PutOn(c, ops, k), i, n)
  {
    if ops == [] {
      i, n := |c.sessions|, 0;
    } else {
      var m := |ops| - 1;
      i, n := StreamOut(c, ops[..m], k);
      i, n := StreamStep(k, After(c, ops[..m]), ops[m], Posted(c, ops[..m], k), PutOn(c, ops[..m], k), i, n);
      LastOpPuts(c, ops, k);
    }
  }

  lemma StreamMeans(k: Key, c: Context, ds: seq<seq<byte>>, sent: seq<Packet>, i: nat, n: nat)
    requires Streams(k, c, ds, sent, i, n)
    ensures sent <= Scripts(k, ds)
    ensures (forall j :: 0 <= j < |c.sessions| ==> c.sessions[j].state != TxWithoutAck) ==> sent == Scripts(k, ds)
  {
  }

  // ------------------------------------------------------------------ the receiver

  /** The messages a call hands out under the key. */
  function HandedOn(k: Key, out: Output): seq<Message> {
    if out.message.Some? && N.MessageKey(out.message.value) == k then [out.message.value] else []
  }

  ghost function Handouts(b: Context, ops: seq<Op>, k: Key): seq<Message>
    requires ContextOk(b)
  {
    if ops == [] then []
    else
      var n := |ops| - 1;
      Handouts(b, ops[..n], k) + HandedOn(k, Perform(After(b, ops[..n]), ops[n]).output)
  }

  /** The key of the stream at the receiver. */
  function There(k: Key): Key { Key(k.local, k.peer, k.sid) }

  /** The messages as the receiver should hand them out. */
  ghost function Meant(k: Key, ds: seq<seq<byte>>): (ms: seq<Message>)
    ensures |ms| == |ds|
  {
    seq(|ds|, i requires 0 <= i < |ds| => Message(WithoutAck, k.local, k.peer, k.sid, ds[i]))
  }

  /** How many frames of the key have been heard. */
  ghost function HeardOf(own: nat, ops: seq<Op>, k: Key): nat {
    if ops == [] then 0
    else HeardOf(own, ops[..|ops| - 1], k) + (if For(own, ops[|ops| - 1], k) then 1 else 0)
  }

  /** The call brings frame `h` of the list, or none of the key; the receiver is willing,
      and has room if a message begins. */
  ghost predicate HearsWell(b: Context, op: Op, k: Key, list: seq<Packet>, h: nat) {
    && Willing(b, op, k) && (Begins(b.own, op, k) ==> RoomFor(b, k))
    && (For(b.own, op, k) ==> h < |list| && |list[h].body| <= MAX_LEN && op.frame == Encode(list[h]))
  }

  ghost predicate AllWell(b: Context, ops: seq<Op>, k: Key, list: seq<Packet>)
    requires ContextOk(b)
  {
    ops != [] ==>
      var n := |ops| - 1;
      AllWell(b, ops[..n], k, list) && HearsWell(After(b, ops[..n]), ops[n], k, list, HeardOf(b.own, ops[..n], k))
  }

  /** The receiver hears the frames of a list in order, among whatever else goes on. */
  ghost predicate HearsStream(b: Context, ops: seq<Op>, k: Key, ds: seq<seq<byte>>, list: seq<Packet>)
    requires ContextOk(b)
  {
    && k.local <= 31 && k.peer <= 31 && k.sid <= 15 && (forall d :: d in ds ==> |d| <= b.maxSize)
    && AllWell(b, ops, There(k), list)
  }

  /** After `h` frames: `m` messages are complete, and of the next one `r` frames have
      been heard. */
  ghost predicate Place(k: Key, ds: seq<seq<byte>>, h: nat, m: nat, r: nat) {
    && m <= |ds| && h == |Scripts(k, ds[..m])| + r
    && if m == |ds| then r == 0 else r < |Frames(k, ds[m])|
  }

  ghost predicate Catches(b: Context, ops: seq<Op>, k: Key, ds: seq<seq<byte>>, m: nat, r: nat, i: nat)
    requires ContextOk(b)
  {
    Caught(After(b, ops), k, ds, Handouts(b, ops, There(k)), HeardOf(b.own, ops, There(k)), m, r, i)
  }

  lemma Inside(x: seq<Packet>, y: seq<Packet>, s: seq<Packet>, h: nat, r: nat)
    requires x + y <= s && h == |x| + r && r < |y|
    ensures h < |s| && s[h] == y[r]
  {
    assert s[h] == (x + y)[h];
  }

  lemma NotAtEnd(k: Key, ds: seq<seq<byte>>, h: nat, m: nat, r: nat)
    requires Place(k, ds, h, m, r) && h < |Scripts(k, ds)|
    ensures m < |ds|
  {
    assert ds[..|ds|] == ds;
  }

  /** The frame at a place of the stream. */
  lemma FrameAt(k: Key, ds: seq<seq<byte>>, h: nat, m: nat, r: nat)
    requires Place(k, ds, h, m, r) && h < |Scripts(k, ds)|
    ensures m < |ds| && Scripts(k, ds)[h] == Frames(k, ds[m])[r]
  {
    NotAtEnd(k, ds, h, m, r);
    LastScript(k, ds, m);
    ScriptsPrefix(k, ds, m + 1);
    Inside(Scripts(k, ds[..m]), Frames(k, ds[m]), Scripts(k, ds), h, r);
  }

  lemma PlaceNext(k: Key, ds: seq<seq<byte>>, h: nat, m: nat, r: nat)
    requires Place(k, ds, h, m, r) && m < |ds|
    ensures if r + 1 < |Frames(k, ds[m])| then Place(k, ds, h + 1, m, r + 1) else Place(k, ds, h + 1, m + 1, 0)
    ensures Meant(k, ds[..m + 1]) == Meant(k, ds[..m]) + [Message(WithoutAck, k.local, k.peer, k.sid, ds[m])]
  {
    assert ds[..m + 1][..m] == ds[..m] && ds[..m + 1][m] == ds[m];
    LastScript(k, ds, m);
  }

  /** A call for the stream brings its next frame. */
  lemma NextFrame(b: Context, op: Op, k: Key, ds: seq<seq<byte>>, h: nat, m: nat, r: nat, i: nat) returns (j: nat)
    requires ContextOk(b) && Place(k, ds, h, m, r) && h < |Scripts(k, ds)| && |Scripts(k, ds)[h].body| <= MAX_LEN
    requires Willing(b, op, There(k)) && For(b.own, op, There(k)) && op.frame == Encode(Scripts(k, ds)[h])
    requires Begins(b.own, op, There(k)) ==> RoomFor(b, There(k))
    requires k.local <= 31 && k.peer <= 31 && k.sid <= 15 && forall d :: d in ds ==> |d| <= b.maxSize
    requires r > 0 ==> HoldsSlices(b, There(k), ds[m], r - 1, i)
    ensures m < |ds|
    ensures var last := r + 1 == |Frames(k, ds[m])|;
            var out := Perform(b, op).output;
            && HandedOn(There(k), out)
               == (if last then [Message(WithoutAck, k.local, k.peer, k.sid, ds[m])] else [])
            && out.frame == None
            && (!last ==> HoldsSlices(Perform(b, op).ctx, There(k), ds[m], r, j))
  {
    FrameAt(k, ds, h, m, r);
    var s := Carrier(k, ds[m]);
    if r == 0 {
      HeaderOfPacked(k.local, k.peer, k.sid, StartWa);
      assert Frames(k, ds[m])[0] == ToPeer(k.local, s, StartWa);
    }
    j := NextHeard(b, op, k.local, s, r, i);
  }

  /** A call for another key hands out nothing under this one, and leaves it alone. */
  lemma OtherCall(b: Context, op: Op, k: Key, data: seq<byte>, r: nat, i: nat)
    requires ContextOk(b) && Willing(b, op, There(k)) && !For(b.own, op, There(k))
    requires r > 0 ==> HoldsSlices(b, There(k), data, r - 1, i)
    ensures HandedOn(There(k), Perform(b, op).output) == []
    ensures r > 0 ==> HoldsSlices(Perform(b, op).ctx, There(k), data, r - 1, i)
  {
    if Perform(b, op).output.message.Some? { DeliveryComesFromReception(b, op); }
    if r > 0 { StillHolds(b, op, There(k), data, r - 1, i); }
  }

  /** The messages handed out, the place in the stream and the reception go together. */
  ghost predicate Caught(d: Context, k: Key, ds: seq<seq<byte>>, handed: seq<Message>, h: nat, m: nat, r: nat, i: nat) {
    && Place(k, ds, h, m, r) && handed == Meant(k, ds[..m])
    && (r > 0 ==> HoldsSlices(d, There(k), ds[m], r - 1, i))
  }

  /** One frame further. */
  lemma OneFurther(d: Context, k: Key, ds: seq<seq<byte>>, handed: seq<Message>, more: seq<Message>, h: nat, m: nat,
                   r: nat, i: nat, last: bool)
    requires Place(k, ds, h, m, r) && handed == Meant(k, ds[..m]) && m < |ds| && last == (r + 1 == |Frames(k, ds[m])|)
    requires more == if last then [Message(WithoutAck, k.local, k.peer, k.sid, ds[m])] else []
    requires !last ==> HoldsSlices(d, There(k), ds[m], r, i)
    ensures Caught(d, k, ds, handed + more, h + 1, if last then m + 1 else m, if last then 0 else r + 1, i)
  {
    PlaceNext(k, ds, h, m, r);
    assert handed + [] == handed;
  }

  lemma OwnCall(d: Context, op: Op, k: Key, ds: seq<seq<byte>>, list: seq<Packet>, handed: seq<Message>, h: nat,
                m: nat, r: nat, i: nat) returns (m': nat, r': nat, i': nat)
    requires ContextOk(d) && Caught(d, k, ds, handed, h, m, r, i) && HearsWell(d, op, There(k), list, h)
    requires list <= Scripts(k, ds) && k.local <= 31 && k.peer <= 31 && k.sid <= 15
    requires (forall x :: x in ds ==> |x| <= d.maxSize) && For(d.own, op, There(k))
    ensures Caught(Perform(d, op).ctx, k, ds, handed + HandedOn(There(k), Perform(d, op).output), h + 1, m', r', i')
  {
    assert list[h] == Scripts(k, ds)[h];
    i' := NextFrame(d, op, k, ds, h, m, r, i);
    var last := r + 1 == |Frames(k, ds[m])|;
    m', r' := if last then m + 1 else m, if last then 0 else r + 1;
    OneFurther(Perform(d, op).ctx, k, ds, handed, HandedOn(There(k), Perform(d, op).output), h, m, r, i', last);
  }

  lemma CatchMove(d: Context, op: Op, k: Key, ds: seq<seq<byte>>, list: seq<Packet>, handed: seq<Message>, h: nat,
                  m: nat, r: nat, i: nat) returns (m': nat, r': nat, i': nat)
    requires ContextOk(d) && Caught(d, k, ds, handed, h, m, r, i) && HearsWell(d, op, There(k), list, h)
    requires list <= Scripts(k, ds) && k.local <= 31 && k.peer <= 31 && k.sid <= 15
    requires forall x :: x in ds ==> |x| <= d.maxSize
    ensures Caught(Perform(d, op).ctx, k, ds, handed + HandedOn(There(k), Perform(d, op).output),
                   if For(d.own, op, There(k)) then h + 1 else h, m', r', i')
  {
    m', r', i' := m, r, i;
    if For(d.own, op, There(k)) {
      m', r', i' := OwnCall(d, op, k, ds, list, handed, h, m, r, i);
    } else {
      OtherCall(d, op, k, if m < |ds| then ds[m] else [], r, i);
      assert handed + [] == handed;
    }
  }

  lemma CatchStep(b: Context, ops: seq<Op>, k: Key, ds: seq<seq<byte>>, list: seq<Packet>, m: nat, r: nat, i: nat)
      returns (m': nat, r': nat, i': nat)
    requires ContextOk(b) && ops != [] && HearsStream(b, ops, k, ds, list) && list <= Scripts(k, ds)
    requires Catches(b, ops[..|ops| - 1], k, ds, m, r, i)
    ensures Catches(b, ops, k, ds, m', r', i')
  {
    var init, op := ops[..|ops| - 1], ops[|ops| - 1];
    var d := After(b, init);
    CaughtMore(b, ops, k, Perform(d, op).output);
    m', r', i' := CatchMove(d, op, k, ds, list, Handouts(b, init, There(k)), HeardOf(b.own, init, There(k)), m, r, i);
  }

  lemma CaughtMore(b: Context, ops: seq<Op>, k: Key, out: Output)
    requires ContextOk(b) && ops != []
    requires out == Perform(After(b, ops[..|ops| - 1]), ops[|ops| - 1]).output
    ensures Handouts(b, ops, There(k)) == Handouts(b, ops[..|ops| - 1], There(k)) + HandedOn(There(k), out)
    ensures After(b, ops) == Perform(After(b, ops[..|ops| - 1]), ops[|ops| - 1]).ctx
  {
  }

  lemma {:induction false} StreamIn(b: Context, ops: seq<Op>, k: Key, ds: seq<seq<byte>>, list: seq<Packet>)
      returns (m: nat, r: nat, i: nat)
    requires ContextOk(b) && HearsStream(b, ops, k, ds, list) && list <= Scripts(k, ds)
    ensures Catches(b, ops, k, ds, m, r, i)
  {
    if ops == [] {
      m, r, i := 0, 0, 0;
      assert ds[..0] == [];
    } else {
      m, r, i := StreamIn(b, ops[..|ops| - 1], k, ds, list);
      m, r, i := CatchStep(b, ops, k, ds, list, m, r, i);
    }
  }

  // --------------------------------------------------------------------- end to end

  /** Any number of unacknowledged messages under one key, over a wire that keeps the
      order and loses nothing: those handed out are those sent, unaltered and in order,
      each exactly when the last of its frames is heard. Both nodes may do anything else
      meanwhile. */
  lemma StreamDelivered(a: Context, sends: seq<Op>, k: Key, b: Context, ops: seq<Op>) returns (m: nat)
    requires ContextOk(a) && k.local == a.own && FindSession(a.sessions, k) == |a.sessions|
    requires AllOneWay(a, sends, k)
    requires ContextOk(b) && HearsStream(b, ops, k, Posted(a, sends, k), PutOn(a, sends, k))
    ensures var ds, heard := Posted(a, sends, k), HeardOf(b.own, ops, There(k));
            && m <= |ds| && Handouts(b, ops, There(k)) == Meant(k, ds[..m])
            && |Scripts(k, ds[..m])| <= heard && (m < |ds| ==> heard < |Scripts(k, ds[..m + 1])|)
  {
    var ds, r, i := Posted(a, sends, k), 0, 0;
    var slot, slices := StreamOut(a, sends, k);
    StreamMeans(k, After(a, sends), ds, PutOn(a, sends, k), slot, slices);
    m, r, i := StreamIn(b, ops, k, ds, PutOn(a, sends, k));
    if m < |ds| { LastScript(k, ds, m); }
  }

  lemma LastScript(k: Key, ds: seq<seq<byte>>, m: nat)
    requires m < |ds|
    ensures Scripts(k, ds[..m + 1]) == Scripts(k, ds[..m]) + Frames(k, ds[m])
  {
    assert ds[..m + 1][..m] == ds[..m] && ds[..m + 1][m] == ds[m];
  }

  lemma NothingMissing(k: Key, ds: seq<seq<byte>>, m: nat)
    requires m <= |ds| && (m < |ds| ==> |Scripts(k, ds)| < |Scripts(k, ds[..m + 1])|)
    ensures ds[..m] == ds
  {
    if m < |ds| { ScriptsPrefix(k, ds, m + 1); }
  }

  /** Once `process` has nothing left to do, every frame has been put out. */
  lemma SilentOut(a: Context, sends: seq<Op>, now: nat, k: Key)
    requires ContextOk(a) && k.local == a.own && FindSession(a.sessions, k) == |a.sessions|
    requires AllOneWay(a, sends, k)
    requires ImpProcess.Quiet(After(a, sends), now)
    ensures PutOn(a, sends, k) == Scripts(k, Posted(a, sends, k))
  {
    var i, n := StreamOut(a, sends, k);
    StreamMeans(k, After(a, sends), Posted(a, sends, k), PutOn(a, sends, k), i, n);
  }

  /** And once all of them are heard, every message has come out. */
  lemma AllDelivered(a: Context, sends: seq<Op>, now: nat, k: Key, b: Context, ops: seq<Op>)
    requires ContextOk(a) && k.local == a.own && FindSession(a.sessions, k) == |a.sessions|
    requires AllOneWay(a, sends, k)
    requires ContextOk(b) && HearsStream(b, ops, k, Posted(a, sends, k), PutOn(a, sends, k))
    requires ImpProcess.Quiet(After(a, sends), now)
    requires HeardOf(b.own, ops, There(k)) == |PutOn(a, sends, k)|
    ensures Handouts(b, ops, There(k)) == Meant(k, Posted(a, sends, k))
  {
    var m := StreamDelivered(a, sends, k, b, ops);
    SilentOut(a, sends, now, k);
    NothingMissing(k, Posted(a, sends, k), m);
  }
}
