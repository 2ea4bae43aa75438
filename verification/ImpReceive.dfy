/** What the receive side delivers: the receptions refine a map from keys to
    byte sequences, whatever frames for other keys come in between. */
module ImpReceive {
  import opened Can
  import opened ImpCore
  import opened ImpInvariants

  /** The frame is one the context looks at, for key `k`, with this command. */
  ghost predicate For(own: nat, op: Op, k: Key) {
    op.Receive? && op.frame.len <= MAX_LEN &&
    var h := HeaderOf(op.frame.id);
    && Key(h.from, h.to, h.sid) == k && (h.to == own || h.to == DEVICE_ALL) && SourceValid(h.from)
    && h.command.Some? && (h.to == DEVICE_ALL ==> WithoutAckCommand(h.command.value))
  }

  ghost predicate Begins(own: nat, op: Op, k: Key) {
    For(own, op, k) && Opens(HeaderOf(op.frame.id).command.value)
  }

  ghost predicate Carries(own: nat, op: Op, k: Key) {
    For(own, op, k) && var c := HeaderOf(op.frame.id).command.value; c == Data || c == DataWa
  }

  /** The bodies of the data frames for `k` since the last START for `k`: a
      history of the wire that knows nothing of sessions or slots. */
  ghost function BodiesSince(own: nat, ops: seq<Op>, k: Key): seq<byte> {
    if ops == [] then []
    else
      var init, last := ops[..|ops| - 1], ops[|ops| - 1];
      if Begins(own, last, k) then []
      else if Carries(own, last, k) then BodiesSince(own, init, k) + last.frame.Body()
      else BodiesSince(own, init, k)
  }

  /** Every reception holds exactly the history of its key. */
  ghost predicate Follows(c: Context, ops: seq<Op>) {
    forall i :: 0 <= i < |c.sessions| && c.sessions[i].state == Rx ==>
      c.sessions[i].payload == BodiesSince(c.own, ops, KeyOf(c.sessions[i]))
  }

  lemma DispatchFound(c: Context, h: Header, body: seq<byte>, now: nat, env: Env, i: nat)
    requires ContextOk(c) && h.from <= 31 && h.sid <= 15 && i < |c.sessions|
    requires Addressed(c, h) && h.command.Some? && (h.to == DEVICE_ALL ==> WithoutAckCommand(h.command.value))
    requires FindSession(c.sessions, Key(h.from, h.to, h.sid)) == i
    ensures var step := Handle(c, c.sessions[i], h.command.value, body, now, env);
            Dispatch(c, h, body, now, env)
            == Outcome(c.(sessions := c.sessions[i := step.session]), step.output, step.result)
  {
  }

  /** A new reception starts with the START that opened it, in the first free
      slot that accepts the sender. */
  lemma DispatchCreated(c: Context, h: Header, body: seq<byte>, now: nat, env: Env)
    requires ContextOk(c) && h.from <= 31 && h.sid <= 15
    requires Addressed(c, h) && h.command.Some? && (h.to == DEVICE_ALL ==> WithoutAckCommand(h.command.value))
    requires Opens(h.command.value)
    requires FindSession(c.sessions, Key(h.from, h.to, h.sid)) == |c.sessions|
    requires FindFree(c.sessions, h.from) < |c.sessions|
    ensures var i := FindFree(c.sessions, h.from);
            var s := OpenedRx(c.sessions[i].mask, h, h.command.value, now);
            Dispatch(c, h, body, now, env)
            == Outcome(c.(sessions := c.sessions[i := s]),
                       NO_OUTPUT.(frame := if h.command.value == Start then Some(ToPeer(c.own, s, Ack)) else None), Ok)
  {
    var i := FindFree(c.sessions, h.from);
    var s := OpenedRx(c.sessions[i].mask, h, h.command.value, now);
    assert c.sessions[i := s][i := s] == c.sessions[i := s];
  }

  /** A packet in range comes out of its frame as it went in. */
  lemma Carried(c: Context, p: Packet, now: nat, env: Env)
    requires ContextOk(c) && p.from <= 31 && p.to <= 31 && p.sid <= 15 && |p.body| <= MAX_LEN
    ensures Perform(c, Receive(Encode(p), now, env))
            == Dispatch(c, Header(p.to, p.from, p.sid, Some(p.command)), p.body, now, env)
  {
    HeaderOfPacked(p.from, p.to, p.sid, p.command);
  }

  /** A frame for another key, a send, or `process` with other things to do leaves a
      session as it is. */
  lemma OthersKept(c: Context, op: Op, i: nat)
    requires ContextOk(c) && i < |c.sessions| && c.sessions[i].state != Free
    requires !For(c.own, op, KeyOf(c.sessions[i]))
    requires op.Tick? ==> !Overdue(op.now, c.timeoutMs)(c.sessions[i]) && c.sessions[i].state != TxWithoutAck
    ensures Perform(c, op).ctx.sessions[i] == c.sessions[i]
  {
    match op
    case Send(msg, now, env) => SendEffect(c, msg, now, env);
    case Receive(frame, now, env) =>
      if frame.len <= MAX_LEN {
        var h := HeaderOf(frame.id);
        var k := Key(h.from, h.to, h.sid);
        if For(c.own, op, k) {
          var j, created := ReceiveEffect(c, frame, now, env);
        }
      }
    case Tick(now) =>
  }

  /** The receptions after one more call still follow the history. */
  lemma FollowsStep(c: Context, ops: seq<Op>, op: Op)
    requires ContextOk(c) && DistinctKeys(c.sessions) && Follows(c, ops)
    ensures Follows(Perform(c, op).ctx, ops + [op])
  {
    assert (ops + [op])[..|ops|] == ops;
    match op
    case Send(msg, now, env) => SendEffect(c, msg, now, env);
    case Receive(frame, now, env) =>
      if frame.len <= MAX_LEN {
        var h := HeaderOf(frame.id);
        if For(c.own, op, Key(h.from, h.to, h.sid)) {
          FollowsReceive(c, ops, op);
        }
      }
    case Tick(now) => var i := TickDistinct(c, now);
  }

  lemma FollowsReceive(c: Context, ops: seq<Op>, op: Op)
    requires ContextOk(c) && DistinctKeys(c.sessions) && Follows(c, ops) && op.Receive?
    requires var h := HeaderOf(op.frame.id); For(c.own, op, Key(h.from, h.to, h.sid))
    ensures Follows(Perform(c, op).ctx, ops + [op])
  {
    var more := ops + [op];
    assert more[..|ops|] == ops;
    var h := HeaderOf(op.frame.id);
    var k, ss := Key(h.from, h.to, h.sid), c.sessions;
    var f := FindSession(ss, k);
    forall j | 0 <= j < |ss| && ss[j].state != Free && j != f ensures KeyOf(ss[j]) != k {
      if KeyOf(ss[j]) == k {
        ScanIsLookup(ss, j);
        assert false;
      }
    }
    if f < |ss| {
      DispatchFound(c, h, op.frame.Body(), op.now, op.env, f);
      HandleFollows(c, ops, op, f);
    } else if Opens(h.command.value) && FindFree(ss, h.from) < |ss| {
      DispatchCreated(c, h, op.frame.Body(), op.now, op.env);
    }
  }

  /** The session that takes a frame moves exactly as the history does. */
  lemma HandleFollows(c: Context, ops: seq<Op>, op: Op, i: nat)
    requires ContextOk(c) && op.Receive? && i < |c.sessions| && c.sessions[i].state != Free
    requires For(c.own, op, KeyOf(c.sessions[i]))
    requires c.sessions[i].state == Rx ==> c.sessions[i].payload == BodiesSince(c.own, ops, KeyOf(c.sessions[i]))
    ensures var s := c.sessions[i];
            var step := Handle(c, s, HeaderOf(op.frame.id).command.value, op.frame.Body(), op.now, op.env);
            step.session.state == Rx ==>
              KeyOf(step.session) == KeyOf(s) && step.session.payload == BodiesSince(c.own, ops + [op], KeyOf(s))
  {
    assert (ops + [op])[..|ops|] == ops;
    var s := c.sessions[i];
    if s.state == Rx {
      AppendOk(s, c.maxSize, op.frame.Body(), op.env.allocOk);
    }
  }

  /** Sessions in use have different keys before every call of the run. */
  ghost predicate KeysApart(c: Context, ops: seq<Op>)
    requires ContextOk(c)
  {
    forall n :: 0 <= n < |ops| ==> DistinctKeys(After(c, ops[..n]).sessions)
  }

  /** Which they have if every START carries its initiator's bit. */
  lemma ParityKeepsApart(c: Context, ops: seq<Op>)
    requires Fresh(c) && forall k :: 0 <= k < |ops| ==> ParityOp(ops[k])
    ensures ContextOk(c) && KeysApart(c, ops)
  {
    forall n | 0 <= n < |ops| ensures DistinctKeys(After(c, ops[..n]).sessions) {
      ReachableKeys(c, ops[..n]);
    }
  }

  /** In every run in which no two sessions ever share a key, each reception under
      way holds the concatenation of its key's data since the last START. */
  lemma {:induction false} ReceptionIsHistory(c: Context, ops: seq<Op>)
    requires Fresh(c) && ContextOk(c) && KeysApart(c, ops)
    ensures Follows(After(c, ops), ops)
  {
    if ops != [] {
      var n := |ops| - 1;
      forall j | 0 <= j < n ensures DistinctKeys(After(c, ops[..n][..j]).sessions) {
        assert ops[..n][..j] == ops[..j];
      }
      ReceptionIsHistory(c, ops[..n]);
      FollowsStep(After(c, ops[..n]), ops[..n], ops[n]);
      LastOp(c, ops);
    }
  }

  lemma LastOp(c: Context, ops: seq<Op>)
    requires ContextOk(c) && ops != []
    ensures var init, last := ops[..|ops| - 1], ops[|ops| - 1];
            ops == init + [last] && After(c, ops) == Perform(After(c, init), last).ctx
  {
  }

  /** A message is only ever handed out by an END for its own key, which finds
      the reception whose payload it is. */
  lemma DeliveryComesFromReception(c: Context, op: Op)
    requires ContextOk(c) && Perform(c, op).output.message.Some?
    ensures var m := Perform(c, op).output.message.value;
            var k := Key(m.from, m.to, m.sid);
            var i := FindSession(c.sessions, k);
            && For(c.own, op, k) && HeaderOf(op.frame.id).command.value in {End, EndWa}
            && i < |c.sessions| && c.sessions[i].state == Rx && m.data == c.sessions[i].payload
  {
    match op
    case Send(msg, now, env) => SendEffect(c, msg, now, env);
    case Receive(frame, now, env) =>
      var h := HeaderOf(frame.id);
      var k := Key(h.from, h.to, h.sid);
      if For(c.own, op, k) {
        var i := FindSession(c.sessions, k);
        if i < |c.sessions| {
          DispatchFound(c, h, frame.Body(), now, env, i);
          HandleDelivers(c, c.sessions[i], h.command.value, frame.Body(), now, env);
        } else if Opens(h.command.value) && FindFree(c.sessions, h.from) < |c.sessions| {
          DispatchCreated(c, h, frame.Body(), now, env);
        }
      }
    case Tick(now) =>
  }

  lemma HandleDelivers(c: Context, s: Session, command: Command, body: seq<byte>, now: nat, env: Env)
    requires ContextOk(c) && SessionOk(s, c.own, c.maxSize) && s.state != Free
    ensures var out := Handle(c, s, command, body, now, env).output;
            out.message.Some? ==>
              && s.state == Rx && command in {End, EndWa}
              && Key(out.message.value.from, out.message.value.to, out.message.value.sid) == KeyOf(s)
              && out.message.value.data == s.payload
  {
  }

  /** Every message delivered in such a run is the concatenation of the data its
      key received since its last START, and no longer than the configured limit. */
  lemma DeliveredIsHistory(c: Context, ops: seq<Op>, op: Op)
    requires Fresh(c) && ContextOk(c) && KeysApart(c, ops)
    ensures var out := Perform(After(c, ops), op).output;
            out.message.Some? ==>
              var m := out.message.value;
              m.data == BodiesSince(c.own, ops, Key(m.from, m.to, m.sid)) && |m.data| <= c.maxSize
  {
    var before := After(c, ops);
    ReceptionIsHistory(c, ops);
    if Perform(before, op).output.message.Some? {
      DeliveryComesFromReception(before, op);
    }
  }

  /** So it is whenever every START carries its initiator's bit. */
  lemma ParityDelivers(c: Context, ops: seq<Op>, op: Op)
    requires Fresh(c) && forall k :: 0 <= k < |ops| ==> ParityOp(ops[k])
    ensures ContextOk(c)
    ensures var out := Perform(After(c, ops), op).output;
            out.message.Some? ==>
              var m := out.message.value;
              m.data == BodiesSince(c.own, ops, Key(m.from, m.to, m.sid)) && |m.data| <= c.maxSize
  {
    ParityKeepsApart(c, ops);
    DeliveredIsHistory(c, ops, op);
  }

  /** An ABORT_WA is never answered by a frame, whatever it meets. */
  lemma AbortNeverAnswered(c: Context, frame: Frame, now: nat, env: Env)
    requires ContextOk(c) && HeaderOf(frame.id).command == Some(AbortWa)
    ensures AddFrame(c, frame, now, env).output.frame == None
  {
    var h := HeaderOf(frame.id);
    if frame.len <= MAX_LEN && Addressed(c, h) {
      var i := FindSession(c.sessions, Key(h.from, h.to, h.sid));
      if i < |c.sessions| {
        DispatchFound(c, h, frame.Body(), now, env, i);
      }
    }
  }

  // ------------------------------------------------------------- cost of growing

  /** Appending bodies one by one: the final session and the sum of the
      capacities every reallocation had to copy. */
  ghost function AppendAll(s: Session, maxSize: nat, bodies: seq<seq<byte>>): (r: (Session, nat)) {
    if bodies == [] then (s, 0)
    else
      var (t, copied) := AppendAll(s, maxSize, bodies[..|bodies| - 1]);
      var u := Append(t, maxSize, bodies[|bodies| - 1], true).0;
      (u, copied + (if u.capacity != t.capacity then t.capacity else 0))
  }

  /** Growing by doubling is amortised: over any reception the recopied
      capacities sum to less than twice the final one. */
  lemma {:induction false} GrowthAmortised(s: Session, maxSize: nat, bodies: seq<seq<byte>>)
    requires s.payload == [] && s.capacity == 0 && maxSize > 0
    requires forall i :: 0 <= i < |bodies| ==> |bodies[i]| <= MAX_LEN
    ensures var (t, copied) := AppendAll(s, maxSize, bodies);
            && |t.payload| <= t.capacity <= maxSize && GrownCapacity(t.capacity, maxSize)
            && (t.capacity == 0 ==> copied == 0)
            && (t.capacity > 0 ==> copied < 2 * t.capacity)
            && (0 < t.capacity < maxSize ==> copied + INITIAL_CAPACITY <= t.capacity)
  {
    if bodies != [] {
      var init, last := bodies[..|bodies| - 1], bodies[|bodies| - 1];
      GrowthAmortised(s, maxSize, init);
      var (t, copied) := AppendAll(s, maxSize, init);
      AppendOk(t, maxSize, last, true);
      var u := Append(t, maxSize, last, true).0;
      if u.capacity != t.capacity && t.capacity > 0 {
        BigEnough(t.capacity, maxSize);
      }
    }
  }

  lemma BigEnough(capacity: nat, maxSize: nat)
    requires GrownCapacity(capacity, maxSize) && 0 < capacity < maxSize
    ensures capacity >= INITIAL_CAPACITY
  {
    var k: nat :| capacity == Min(INITIAL_CAPACITY * Pow2(k), maxSize);
    Pow2Positive(k);
  }
}
