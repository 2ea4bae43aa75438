/** What every call keeps, and what therefore holds in every reachable context:
    buffer bounds, distinct keys, conservation of sessions. */
module ImpInvariants {
  import opened Can
  import opened ImpCore

  // -------------------------------------------------------- buffers and ids kept

  lemma AppendOk(s: Session, maxSize: nat, body: seq<byte>, allocOk: bool)
    requires |s.payload| <= s.capacity <= maxSize && GrownCapacity(s.capacity, maxSize) && |body| <= MAX_LEN
    ensures var (t, result) := Append(s, maxSize, body, allocOk);
            && |t.payload| <= t.capacity <= maxSize && GrownCapacity(t.capacity, maxSize)
            && (result == Ok ==> t.payload == s.payload + body)
            && (result == MessageTooLarge <==> |s.payload| + |body| > maxSize)
            && (result != Ok ==> t == s)
  {
    var required := |s.payload| + |body|;
    if s.capacity < required <= maxSize {
      if s.capacity == 0 {
        assert NextCapacity(0, required, maxSize) == Min(INITIAL_CAPACITY * Pow2(0), maxSize);
      } else {
        var k: nat :| s.capacity == Min(INITIAL_CAPACITY * Pow2(k), maxSize);
        Pow2Positive(k);
        assert INITIAL_CAPACITY * Pow2(k + 1) == 2 * (INITIAL_CAPACITY * Pow2(k));
        assert NextCapacity(s.capacity, required, maxSize) == Min(INITIAL_CAPACITY * Pow2(k + 1), maxSize);
      }
    }
  }

  lemma Pow2Positive(k: nat)
    ensures Pow2(k) >= 1
  {
  }

  /** A session handed to a handler stays itself or is freed, mask kept. */
  ghost predicate Evolves(s: Session, t: Session) {
    && t.mask == s.mask
    && (t.state == Free || (s.state != Free && KeyOf(t) == KeyOf(s) && t.IsTx() == s.IsTx()))
  }

  lemma HandleTxOk(own: nat, maxSize: nat, s: Session, command: Command, now: nat)
    requires s.IsTx() && SessionOk(s, own, maxSize) && maxSize < 0x1_0000
    ensures var t := HandleTx(own, maxSize, s, command, now).session;
            SessionOk(t, own, maxSize) && Evolves(s, t)
    ensures var step := HandleTx(own, maxSize, s, command, now);
            step.session.state == Free <==> step.output.event != NoEvent
  {
  }

  /** An ACK of a transfer under way, case by case. */
  lemma AckIs(own: nat, maxSize: nat, s: Session, now: nat)
    requires s.IsTx() && SessionOk(s, own, maxSize) && maxSize < 0x1_0000
    ensures s.state == TxWaitDataAck ==> s.offset + s.lastLength <= |s.payload|
    ensures HandleTx(own, maxSize, s, Ack, now)
            == match s.state
               case TxWaitStartAck => EmitNextAcked(own, s, now)
               case TxWaitDataAck => EmitNextAcked(own, s.(offset := s.offset + s.lastLength), now)
               case TxWaitEndAck => Step(Release(s), Tell(s, TxFinished), Ok)
               case _ => Step(s, NO_OUTPUT, UnexpectedCommand)
  {
  }

  lemma HandleDataOk(own: nat, maxSize: nat, s: Session, command: Command, body: seq<byte>, now: nat, env: Env)
    requires s.state == Rx && SessionOk(s, own, maxSize) && |body| <= MAX_LEN && (command == Data || command == DataWa)
    ensures var step := HandleRx(own, maxSize, s, command, body, now, env);
            && SessionOk(step.session, own, maxSize) && Evolves(s, step.session)
            && (step.session.state == Free <==> step.output.event != NoEvent)
  {
    AppendOk(s, maxSize, body, env.allocOk);
    AppendKeeps(s, maxSize, body, env.allocOk);
  }

  lemma HandleRxOk(own: nat, maxSize: nat, s: Session, command: Command, body: seq<byte>, now: nat, env: Env)
    requires s.state == Rx && SessionOk(s, own, maxSize) && |body| <= MAX_LEN
    ensures var t := HandleRx(own, maxSize, s, command, body, now, env).session;
            SessionOk(t, own, maxSize) && Evolves(s, t)
    ensures var step := HandleRx(own, maxSize, s, command, body, now, env);
            step.session.state == Free <==> step.output.event != NoEvent
  {
    if command == Data || command == DataWa {
      HandleDataOk(own, maxSize, s, command, body, now, env);
    } else if !Opens(command) {
      assert HandleRx(own, maxSize, s, command, body, now, env).session == Release(s);
    }
  }

  lemma AppendKeeps(s: Session, maxSize: nat, body: seq<byte>, allocOk: bool)
    ensures var t := Append(s, maxSize, body, allocOk).0; t == s.(payload := t.payload, capacity := t.capacity)
  {
  }

  /** A successful send takes the first free slot that accepts the peer and an
      id no transfer to that peer holds; a failed one changes nothing. */
  lemma SendEffect(c: Context, msg: Message, now: nat, env: Env)
    requires ContextOk(c)
    ensures var r := StartSend(c, msg, now, env);
            var slot := FindFree(c.sessions, msg.to);
            && (r.result != Ok ==> r.ctx == c && r.output == NO_OUTPUT)
            && (r.result == Ok ==>
                  && slot < |c.sessions| && c.sessions[slot].state == Free
                  && r.ctx == c.(sessions := c.sessions[slot := r.ctx.sessions[slot]])
                  && SentSession(c, msg, now, slot, r.ctx.sessions[slot])
                  && r.output.event == NoEvent
                  && r.output.frame == Some(ToPeer(c.own, r.ctx.sessions[slot],
                                              if r.ctx.sessions[slot].mode == WithAck then Start else StartWa)))
  {
    if msg.to <= DEVICE_MAX {
      var slot := FindFree(c.sessions, msg.to);
      if slot < |c.sessions| {
        assert c.sessions[slot := Release(c.sessions[slot])] == c.sessions;
      }
    }
  }

  ghost predicate SentSession(c: Context, msg: Message, now: nat, slot: nat, s: Session)
    requires slot < |c.sessions|
  {
    && msg.from == c.own && msg.to <= DEVICE_MAX && msg.to != c.own && |msg.data| <= c.maxSize
    && exists id :: id < 8 && !Reserved(c.sessions, msg.to, id)
                    && s == OpenedTx(c.own, c.sessions[slot].mask, msg, id, now)
  }

  lemma StartSendOk(c: Context, msg: Message, now: nat, env: Env)
    requires ContextOk(c)
    ensures ContextOk(StartSend(c, msg, now, env).ctx)
  {
    SendEffect(c, msg, now, env);
  }

  lemma LookupOk(c: Context, h: Header, command: Command, now: nat)
    requires ContextOk(c) && h.from <= 31 && h.sid <= 15 && Addressed(c, h)
    ensures var (ss, i) := Lookup(c, h, command, now);
            && ContextOk(c.(sessions := ss))
            && (i < |ss| ==> ss[i].state != Free && KeyOf(ss[i]) == Key(h.from, h.to, h.sid)
                             && (ss[i] == c.sessions[i] || ss[i] == OpenedRx(c.sessions[i].mask, h, command, now)))
  {
  }

  lemma DispatchOk(c: Context, h: Header, body: seq<byte>, now: nat, env: Env)
    requires ContextOk(c) && h.from <= 31 && h.sid <= 15 && |body| <= MAX_LEN
    ensures ContextOk(Dispatch(c, h, body, now, env).ctx)
  {
    if Addressed(c, h) && h.command.Some? {
      var command := h.command.value;
      LookupOk(c, h, command, now);
      var (ss, i) := Lookup(c, h, command, now);
      if i < |ss| {
        HandleOk(c, ss[i], command, body, now, env);
      }
    }
  }

  lemma HandleOk(c: Context, s: Session, command: Command, body: seq<byte>, now: nat, env: Env)
    requires ContextOk(c) && SessionOk(s, c.own, c.maxSize) && s.state != Free && |body| <= MAX_LEN
    ensures var t := Handle(c, s, command, body, now, env).session;
            SessionOk(t, c.own, c.maxSize) && Evolves(s, t)
    ensures var step := Handle(c, s, command, body, now, env);
            step.session.state == Free <==> step.output.event != NoEvent
  {
    if s.IsTx() {
      HandleTxOk(c.own, c.maxSize, s, command, now);
    } else {
      HandleRxOk(c.own, c.maxSize, s, command, body, now, env);
    }
  }

  lemma ProcessOk(c: Context, now: nat)
    requires ContextOk(c)
    ensures ContextOk(Process(c, now).ctx)
  {
  }

  // ------------------------------------------------------------------------ runs

  datatype Op = Send(msg: Message, now: nat, env: Env)
              | Receive(frame: Frame, now: nat, env: Env)
              | Tick(now: nat)

  function Perform(c: Context, op: Op): Outcome
    requires ContextOk(c)
  {
    match op
    case Send(msg, now, env) => StartSend(c, msg, now, env)
    case Receive(frame, now, env) => AddFrame(c, frame, now, env)
    case Tick(now) => Process(c, now)
  }

  lemma PerformOk(c: Context, op: Op)
    requires ContextOk(c)
    ensures ContextOk(Perform(c, op).ctx)
    ensures Perform(c, op).ctx.own == c.own && Perform(c, op).ctx.maxSize == c.maxSize
    ensures |Perform(c, op).ctx.sessions| == |c.sessions|
  {
    match op
    case Send(msg, now, env) => StartSendOk(c, msg, now, env);
    case Receive(frame, now, env) =>
      if frame.len <= MAX_LEN {
        DispatchOk(c, HeaderOf(frame.id), frame.Body(), now, env);
      }
    case Tick(now) => ProcessOk(c, now);
  }

  /** The context after any list of calls. */
  function After(c: Context, ops: seq<Op>): (r: Context)
    requires ContextOk(c)
    ensures ContextOk(r) && r.own == c.own && r.maxSize == c.maxSize && |r.sessions| == |c.sessions|
  {
    if ops == [] then c
    else
      var before := After(c, ops[..|ops| - 1]);
      PerformOk(before, ops[|ops| - 1]);
      Perform(before, ops[|ops| - 1]).ctx
  }

  /** A context as `init` leaves it: any masks, no session in use. */
  ghost predicate Fresh(c: Context) {
    && SourceValid(c.own)
    && c.maxSize < 0x1_0000
    && forall i :: 0 <= i < |c.sessions| ==> c.sessions[i] == FreeSession(c.sessions[i].mask)
  }

  /** Every reachable context keeps its buffers in bounds: offset, size and
      capacity are ordered and no larger than the configured maximum, and the
      capacity of a reception is one the doubling rule produces. */
  lemma ReachableBuffers(c: Context, ops: seq<Op>, i: nat)
    requires Fresh(c) && i < |c.sessions|
    ensures ContextOk(c)
    ensures var s := After(c, ops).sessions[i];
            && s.offset <= |s.payload| <= s.capacity <= c.maxSize
            && (s.state == Rx ==> GrownCapacity(s.capacity, c.maxSize))
            && (s.state == Free ==> s.payload == [] && s.capacity == 0)
            && s.mask == c.sessions[i].mask
  {
    MasksFixed(c, ops, i);
  }

  lemma {:induction false} MasksFixed(c: Context, ops: seq<Op>, i: nat)
    requires ContextOk(c) && i < |c.sessions|
    ensures After(c, ops).sessions[i].mask == c.sessions[i].mask
  {
    if ops != [] {
      var init := ops[..|ops| - 1];
      MasksFixed(c, init, i);
      var op := ops[|ops| - 1];
      MasksStep(After(c, init), op, i);
    }
  }

  lemma MasksStep(c: Context, op: Op, i: nat)
    requires ContextOk(c) && i < |c.sessions|
    ensures Perform(c, op).ctx.sessions[i].mask == c.sessions[i].mask
  {
    match op
    case Send(msg, now, env) => SendEffect(c, msg, now, env);
    case Receive(frame, now, env) =>
      if frame.len <= MAX_LEN {
        var k, created := ReceiveEffect(c, frame, now, env);
      }
    case Tick(now) => var k := TickDistinct(c, now);
  }

  // -------------------------------------------------------------- distinct keys

  ghost predicate TxDistinct(ss: seq<Session>) {
    forall i, j :: 0 <= i < j < |ss| && ss[i].IsTx() && ss[j].IsTx() ==>
      ss[i].peer != ss[j].peer || ss[i].sid != ss[j].sid
  }

  ghost predicate RxDistinct(ss: seq<Session>) {
    forall i, j :: 0 <= i < j < |ss| && ss[i].state == Rx && ss[j].state == Rx ==> KeyOf(ss[i]) != KeyOf(ss[j])
  }

  ghost predicate DistinctKeys(ss: seq<Session>) {
    forall i, j :: 0 <= i < j < |ss| && ss[i].state != Free && ss[j].state != Free ==> KeyOf(ss[i]) != KeyOf(ss[j])
  }

  /** Receptions were created by the side whose parity bit their id carries. */
  ghost predicate RxParity(ss: seq<Session>) {
    forall i :: 0 <= i < |ss| && ss[i].state == Rx ==> ss[i].sid % 2 == InitiatorBit(ss[i].peer, ss[i].local)
  }

  ghost predicate InitiatorRespected(h: Header) {
    h.command.Some? && Opens(h.command.value) ==> h.sid % 2 == InitiatorBit(h.from, h.to)
  }

  ghost predicate ParityOp(op: Op) {
    op.Receive? ==> InitiatorRespected(HeaderOf(op.frame.id))
  }

  /** What a call does to the session table: nothing, one session evolving, or
      one free slot taken by a new session. */
  ghost predicate TableEffect(ss: seq<Session>, tt: seq<Session>, i: nat, created: Option<Session>) {
    && |tt| == |ss|
    && (i == |ss| ==> tt == ss)
    && (i < |ss| ==>
          && tt == ss[i := tt[i]]
          && (match created
              case None => ss[i].state != Free && Evolves(ss[i], tt[i])
              case Some(s) => ss[i].state == Free && s.mask == ss[i].mask && s.state != Free && Evolves(s, tt[i])))
  }

  /** What handling a frame does to the table: nothing, or entry `i` moves on, which
      may have been created for it. */
  ghost predicate DispatchEffect(c: Context, h: Header, now: nat, r: Outcome, i: nat, created: Option<Session>)
    requires ContextOk(c)
  {
    && i <= |c.sessions| && (created.Some? ==> i < |c.sessions|)
    && TableEffect(c.sessions, r.ctx.sessions, i, created)
    && (created.Some? ==>
          && Addressed(c, h) && h.command.Some? && Opens(h.command.value)
          && FindSession(c.sessions, Key(h.from, h.to, h.sid)) == |c.sessions|
          && created.value == OpenedRx(c.sessions[i].mask, h, h.command.value, now)
          && r.ctx.sessions[i].state == Rx && r.result == Ok && h.from in c.sessions[i].mask)
    && (r.output.event != NoEvent <==> i < |c.sessions| && r.ctx.sessions[i].state == Free)
    && (i == |c.sessions| ==> r.result != Ok)
    && (i < |c.sessions| && created.None? ==> FindSession(c.sessions, Key(h.from, h.to, h.sid)) == i)
  }

  lemma FoundEffect(c: Context, h: Header, body: seq<byte>, now: nat, env: Env, i: nat)
    requires ContextOk(c) && h.from <= 31 && h.sid <= 15 && |body| <= MAX_LEN && i < |c.sessions|
    requires Addressed(c, h) && h.command.Some? && (h.to == DEVICE_ALL ==> WithoutAckCommand(h.command.value))
    requires FindSession(c.sessions, Key(h.from, h.to, h.sid)) == i
    ensures DispatchEffect(c, h, now, Dispatch(c, h, body, now, env), i, None)
  {
    assert HasKey(Key(h.from, h.to, h.sid))(c.sessions[i]);
    HandleOk(c, c.sessions[i], h.command.value, body, now, env);
  }

  lemma NewEffect(c: Context, h: Header, body: seq<byte>, now: nat, env: Env, i: nat)
    requires ContextOk(c) && h.from <= 31 && h.sid <= 15 && |body| <= MAX_LEN && i < |c.sessions|
    requires Addressed(c, h) && h.command.Some? && (h.to == DEVICE_ALL ==> WithoutAckCommand(h.command.value))
    requires Opens(h.command.value) && FindSession(c.sessions, Key(h.from, h.to, h.sid)) == |c.sessions|
    requires FindFree(c.sessions, h.from) == i
    ensures DispatchEffect(c, h, now, Dispatch(c, h, body, now, env), i,
                           Some(OpenedRx(c.sessions[i].mask, h, h.command.value, now)))
  {
    assert FreeFor(h.from)(c.sessions[i]);
    LookupOk(c, h, h.command.value, now);
    HandleOk(c, OpenedRx(c.sessions[i].mask, h, h.command.value, now), h.command.value, body, now, env);
  }

  lemma ReceiveEffect(c: Context, frame: Frame, now: nat, env: Env) returns (i: nat, created: Option<Session>)
    requires ContextOk(c) && frame.len <= MAX_LEN
    ensures DispatchEffect(c, HeaderOf(frame.id), now, AddFrame(c, frame, now, env), i, created)
  {
    var h := HeaderOf(frame.id);
    i, created := |c.sessions|, None;
    if Addressed(c, h) && h.command.Some? && !(h.to == DEVICE_ALL && !WithoutAckCommand(h.command.value)) {
      var found, slot := FindSession(c.sessions, Key(h.from, h.to, h.sid)), FindFree(c.sessions, h.from);
      if found < |c.sessions| {
        i := found;
        FoundEffect(c, h, frame.Body(), now, env, i);
      } else if Opens(h.command.value) && slot < |c.sessions| {
        i, created := slot, Some(OpenedRx(c.sessions[slot].mask, h, h.command.value, now));
        NewEffect(c, h, frame.Body(), now, env, i);
      }
    }
  }

  lemma SendDistinct(c: Context, msg: Message, now: nat, slot: nat, s: Session)
    requires ContextOk(c) && slot < |c.sessions| && c.sessions[slot].state == Free
    requires SentSession(c, msg, now, slot, s)
    ensures TxDistinct(c.sessions) ==> TxDistinct(c.sessions[slot := s])
    ensures RxDistinct(c.sessions) ==> RxDistinct(c.sessions[slot := s])
    ensures DistinctKeys(c.sessions) && RxParity(c.sessions) ==>
              DistinctKeys(c.sessions[slot := s]) && RxParity(c.sessions[slot := s])
  {
    var ss := c.sessions;
    forall i | 0 <= i < |ss| && ss[i].IsTx() && ss[i].peer == s.peer ensures ss[i].sid != s.sid {
      assert !Reserved(ss, msg.to, Half(s.sid));
    }
    forall i | 0 <= i < |ss| && ss[i].state == Rx && RxParity(ss) ensures KeyOf(ss[i]) != KeyOf(s) {
    }
    forall i | 0 <= i < |ss| && ss[i].state != Free && RxParity(ss) ensures KeyOf(ss[i]) != KeyOf(s) {
    }
  }

  /** Receiving a frame keeps keys apart: a session is created only for a key
      that no session in use has. */
  lemma ReceiveDistinct(ss: seq<Session>, tt: seq<Session>, i: nat, created: Option<Session>)
    requires i <= |ss| && TableEffect(ss, tt, i, created)
    requires created.Some? ==> created.value.state == Rx && FindSession(ss, KeyOf(created.value)) == |ss|
    ensures TxDistinct(ss) ==> TxDistinct(tt)
    ensures RxDistinct(ss) ==> RxDistinct(tt)
    ensures DistinctKeys(ss) ==> DistinctKeys(tt)
  {
    if created.Some? {
      forall j | 0 <= j < |ss| && ss[j].state != Free ensures KeyOf(ss[j]) != KeyOf(created.value) {
        assert !HasKey(KeyOf(created.value))(ss[j]);
      }
    }
  }

  /** Releasing a session or moving it on never makes keys clash. */
  lemma TickDistinct(c: Context, now: nat) returns (i: nat)
    requires ContextOk(c)
    ensures i <= |c.sessions| && |Process(c, now).ctx.sessions| == |c.sessions|
    ensures i == |c.sessions| ==> Process(c, now).ctx == c && Process(c, now).output == NO_OUTPUT
    ensures i < |c.sessions| ==> TableEffect(c.sessions, Process(c, now).ctx.sessions, i, None)
  {
    var late := First(c.sessions, Overdue(now, c.timeoutMs));
    i := if late < |c.sessions| then late else First(c.sessions, Unacked());
    if i < |c.sessions| {
      assert c.sessions[i].state != Free;
    }
  }

  /** TX ids never clash, and neither do receptions, whatever frames arrive. */
  lemma {:induction false} ReachableDistinct(c: Context, ops: seq<Op>)
    requires ContextOk(c) && TxDistinct(c.sessions) && RxDistinct(c.sessions)
    ensures TxDistinct(After(c, ops).sessions) && RxDistinct(After(c, ops).sessions)
  {
    if ops != [] {
      var before := After(c, ops[..|ops| - 1]);
      ReachableDistinct(c, ops[..|ops| - 1]);
      DistinctStep(before, ops[|ops| - 1]);
    }
  }

  lemma DistinctStep(c: Context, op: Op)
    requires ContextOk(c)
    ensures var tt := Perform(c, op).ctx.sessions;
            && (TxDistinct(c.sessions) ==> TxDistinct(tt))
            && (RxDistinct(c.sessions) ==> RxDistinct(tt))
            && (ParityOp(op) && DistinctKeys(c.sessions) && RxParity(c.sessions) ==> DistinctKeys(tt) && RxParity(tt))
  {
    match op
    case Send(msg, now, env) =>
      SendEffect(c, msg, now, env);
      if StartSend(c, msg, now, env).result == Ok {
        var slot := FindFree(c.sessions, msg.to);
        SendDistinct(c, msg, now, slot, StartSend(c, msg, now, env).ctx.sessions[slot]);
      }
    case Receive(frame, now, env) =>
      if frame.len <= MAX_LEN {
        var i, created := ReceiveEffect(c, frame, now, env);
        ReceiveDistinct(c.sessions, AddFrame(c, frame, now, env).ctx.sessions, i, created);
      }
    case Tick(now) =>
      var i := TickDistinct(c, now);
      if i < |c.sessions| {
        ReceiveDistinct(c.sessions, Process(c, now).ctx.sessions, i, None);
      }
  }

  /** When every START carries its initiator's parity bit, all sessions in use
      have different keys. */
  lemma {:induction false} ReachableKeys(c: Context, ops: seq<Op>)
    requires ContextOk(c) && DistinctKeys(c.sessions) && RxParity(c.sessions)
    requires forall k :: 0 <= k < |ops| ==> ParityOp(ops[k])
    ensures DistinctKeys(After(c, ops).sessions) && RxParity(After(c, ops).sessions)
  {
    if ops != [] {
      var init := ops[..|ops| - 1];
      ReachableKeys(c, init);
      DistinctStep(After(c, init), ops[|ops| - 1]);
    }
  }

  /** Frames and `process` never make keys clash, whatever bit a START carries. */
  lemma OthersKeepKeys(c: Context, op: Op)
    requires ContextOk(c) && DistinctKeys(c.sessions) && !op.Send?
    ensures DistinctKeys(Perform(c, op).ctx.sessions)
  {
    match op
    case Receive(frame, now, env) =>
      if frame.len <= MAX_LEN {
        var i, created := ReceiveEffect(c, frame, now, env);
        ReceiveDistinct(c.sessions, AddFrame(c, frame, now, env).ctx.sessions, i, created);
      }
    case Tick(now) =>
      var i := TickDistinct(c, now);
      if i < |c.sessions| {
        ReceiveDistinct(c.sessions, Process(c, now).ctx.sessions, i, None);
      }
  }

  /** Slot `i` is the first free one whose mask has the bit of the peer. */
  ghost predicate FirstFree(ss: seq<Session>, i: nat, peer: nat) {
    && i < |ss| && ss[i].state == Free && peer in ss[i].mask
    && forall j :: 0 <= j < i ==> ss[j].state != Free || peer !in ss[j].mask
  }

  ghost predicate NoneFree(ss: seq<Session>, peer: nat) {
    forall j :: 0 <= j < |ss| ==> ss[j].state != Free || peer !in ss[j].mask
  }

  lemma FirstFreeIs(ss: seq<Session>, i: nat, peer: nat)
    ensures FirstFree(ss, i, peer) ==> FindFree(ss, peer) == i
    ensures NoneFree(ss, peer) ==> FindFree(ss, peer) == |ss|
  {
    var p := FreeFor(peer);
    assert forall j :: 0 <= j < |ss| ==> p(ss[j]) == (ss[j].state == Free && peer in ss[j].mask);
  }

  /** A transfer to the peer has this number. */
  ghost predicate HasNumber(s: Session, peer: nat, n: nat) {
    s.state != Free && s.state != Rx && s.peer == peer && s.sid / 2 == n
  }

  ghost predicate NumberTaken(ss: seq<Session>, peer: nat, n: nat) {
    exists i :: 0 <= i < |ss| && HasNumber(ss[i], peer, n)
  }

  /** The lowest of the eight numbers that no transfer to the peer has. */
  ghost predicate LowestNumber(ss: seq<Session>, peer: nat, n: nat) {
    n < 8 && !NumberTaken(ss, peer, n) && forall k :: 0 <= k < n ==> NumberTaken(ss, peer, k)
  }

  lemma NumberIs(ss: seq<Session>, peer: nat, n: nat)
    requires n <= 8 && (n < 8 ==> !NumberTaken(ss, peer, n)) && forall k :: 0 <= k < n ==> NumberTaken(ss, peer, k)
    ensures FreeId(ss, peer, 0) == n
  {
    forall k | 0 <= k < 8 ensures NumberTaken(ss, peer, k) == Reserved(ss, peer, k) {
      assert forall i :: 0 <= i < |ss| ==>
               HasNumber(ss[i], peer, k) == (ss[i].IsTx() && ss[i].peer == peer && Half(ss[i].sid) == k);
      if NumberTaken(ss, peer, k) {
        var i :| 0 <= i < |ss| && HasNumber(ss[i], peer, k);
        assert ss[i].IsTx() && ss[i].peer == peer && Half(ss[i].sid) == k;
      }
    }
    FreeIdIs(ss, peer, 0, n);
  }

  lemma {:induction false} FreeIdIs(ss: seq<Session>, peer: nat, from: nat, n: nat)
    requires from <= n <= 8 && (n < 8 ==> !Reserved(ss, peer, n)) && forall k :: from <= k < n ==> Reserved(ss, peer, k)
    ensures FreeId(ss, peer, from) == n
    decreases n - from
  {
    if from < n { FreeIdIs(ss, peer, from + 1, n); }
  }

  lemma SomeSlot(ss: seq<Session>, peer: nat) returns (i: nat)
    requires !NoneFree(ss, peer)
    ensures FirstFree(ss, i, peer)
  {
    i := 0;
    while ss[i].state != Free || peer !in ss[i].mask
      invariant i < |ss| && forall j :: 0 <= j < i ==> ss[j].state != Free || peer !in ss[j].mask
      decreases |ss| - i
    {
      i := i + 1;
    }
  }

  lemma SomeNumber(ss: seq<Session>, peer: nat) returns (n: nat)
    requires !(forall k :: 0 <= k < 8 ==> NumberTaken(ss, peer, k))
    ensures LowestNumber(ss, peer, n)
  {
    n := 0;
    while NumberTaken(ss, peer, n)
      invariant n < 8 && forall k :: 0 <= k < n ==> NumberTaken(ss, peer, k)
      decreases 8 - n
    {
      n := n + 1;
    }
  }

  /** What a send needs, all of it to be seen before the call. */
  ghost predicate SendGuards(c: Context, msg: Message, env: Env) {
    && msg.from == c.own && msg.to <= 31 && msg.to != c.own && |msg.data| <= c.maxSize
    && !NoneFree(c.sessions, msg.to) && (exists k: nat :: k < 8 && !NumberTaken(c.sessions, msg.to, k))
    && (msg.data == [] || env.allocOk)
  }

  lemma GuardsFind(c: Context, msg: Message)
    ensures FindFree(c.sessions, msg.to) < |c.sessions| <==> !NoneFree(c.sessions, msg.to)
    ensures FreeId(c.sessions, msg.to, 0) < 8 <==> exists k: nat :: k < 8 && !NumberTaken(c.sessions, msg.to, k)
  {
    var ss, peer := c.sessions, msg.to;
    if NoneFree(ss, peer) {
      FirstFreeIs(ss, 0, peer);
    } else {
      var i := SomeSlot(ss, peer);
      FirstFreeIs(ss, i, peer);
    }
    if forall k :: 0 <= k < 8 ==> NumberTaken(ss, peer, k) {
      NumberIs(ss, peer, 8);
    } else {
      var n := SomeNumber(ss, peer);
      NumberIs(ss, peer, n);
    }
  }

  /** The key the next transfer to `peer` takes: the lowest free id with the bit of
      this side as initiator. */
  ghost function NextKey(c: Context, peer: nat): Key {
    Key(peer, c.own, 2 * FreeId(c.sessions, peer, 0) + InitiatorBit(c.own, peer))
  }

  /** A send succeeds exactly when these guards hold. */
  lemma SendSucceeds(c: Context, msg: Message, now: nat, env: Env)
    requires ContextOk(c)
    ensures StartSend(c, msg, now, env).result == Ok <==> SendGuards(c, msg, env)
  {
    GuardsFind(c, msg);
  }

  /** A send keeps keys apart if and only if no reception from the peer has the key
      it is going to take; another transfer never has it. */
  lemma SendClashes(c: Context, msg: Message, now: nat, env: Env)
    requires ContextOk(c) && DistinctKeys(c.sessions) && SendGuards(c, msg, env)
    ensures DistinctKeys(StartSend(c, msg, now, env).ctx.sessions)
       <==> forall i :: 0 <= i < |c.sessions| && c.sessions[i].state == Rx ==>
         KeyOf(c.sessions[i]) != NextKey(c, msg.to)
  {
    var ss, slot, k := c.sessions, FindFree(c.sessions, msg.to), NextKey(c, msg.to);
    GuardsFind(c, msg);
    SendTakes(c, msg, now, env);
    var tt := StartSend(c, msg, now, env).ctx.sessions;
    HalfOf(FreeId(ss, msg.to, 0), InitiatorBit(c.own, msg.to));
    assert forall i :: 0 <= i < |ss| && ss[i].IsTx() ==> KeyOf(ss[i]) != k;
    forall i | 0 <= i < |ss| && ss[i].state == Rx && KeyOf(ss[i]) == k ensures !DistinctKeys(tt) {
      assert tt[i] == ss[i] && i != slot;
    }
  }

  /** The new session, in the first free slot with the bit of the peer in its mask. */
  lemma SendTakes(c: Context, msg: Message, now: nat, env: Env)
    requires ContextOk(c) && SendGuards(c, msg, env)
    ensures var slot := FindFree(c.sessions, msg.to);
            var tt := StartSend(c, msg, now, env).ctx.sessions;
            && FirstFree(c.sessions, slot, msg.to) && |tt| == |c.sessions| && tt == c.sessions[slot := tt[slot]]
            && tt[slot].state != Free && KeyOf(tt[slot]) == NextKey(c, msg.to)
  {
    GuardsFind(c, msg);
    var i := SomeSlot(c.sessions, msg.to);
    FirstFreeIs(c.sessions, i, msg.to);
    assert FreeFor(msg.to)(c.sessions[FindFree(c.sessions, msg.to)]);
  }

  lemma HalfOf(id: nat, bit: nat)
    requires bit <= 1
    ensures Half(2 * id + bit) == id
  {
  }

  // A peer at address 2 opens a session with id 0, though its bit has to be one.

  function WrongStart(): Op {
    Receive(Frame(CanIdCreate(2, 1, 0, Start), true, 0, Zeros(8)), 0, Env(true, true))
  }

  function Heard(): Session { OpenedRx({2}, Header(1, 2, 0, Some(Start)), Start, 0) }

  function TwoSlots(first: Session): Context { Context(1, 8, 1000, [first, FreeSession({2})]) }

  lemma WrongStartHeard()
    ensures ContextOk(TwoSlots(FreeSession({2}))) && !ParityOp(WrongStart())
    ensures Perform(TwoSlots(FreeSession({2})), WrongStart()).ctx == TwoSlots(Heard())
  {
    var c := TwoSlots(FreeSession({2}));
    HeaderOfPacked(2, 1, 0, Start);
    FirstIs(c.sessions, HasKey(Key(2, 1, 0)), 2);
    FirstIs(c.sessions, FreeFor(2), 0);
    assert c.sessions[0 := Heard()] == TwoSlots(Heard()).sessions;
  }

  /** The bit of a START is not checked on reception, and a peer that sets it wrong
      does make keys clash: after its START for id 0, sending to it takes id 0. */
  lemma WrongBitClashes()
    ensures ContextOk(TwoSlots(FreeSession({2}))) && !ParityOp(WrongStart())
    ensures var send := Send(Message(WithAck, 1, 2, 0, []), 0, Env(true, true));
            !DistinctKeys(After(TwoSlots(FreeSession({2})), [WrongStart(), send]).sessions)
  {
    var c, d := TwoSlots(FreeSession({2})), TwoSlots(Heard());
    var send := Send(Message(WithAck, 1, 2, 0, []), 0, Env(true, true));
    WrongStartHeard();
    assert [WrongStart(), send][..1] == [WrongStart()] && [WrongStart()][..0] == [];
    assert After(c, [WrongStart()]) == d;
    SendClashesHere();
  }

  lemma SendClashesHere()
    ensures var d := TwoSlots(Heard());
            ContextOk(d) && !DistinctKeys(StartSend(d, Message(WithAck, 1, 2, 0, []), 0, Env(true, true)).ctx.sessions)
  {
    FreeHere();
    EmptySend(TwoSlots(Heard()), Message(WithAck, 1, 2, 0, []), 0, Env(true, true), 1, 0, 0);
  }

  lemma FreeHere()
    ensures ContextOk(TwoSlots(Heard()))
    ensures var ss := TwoSlots(Heard()).sessions; FindFree(ss, 2) == 1 && FreeId(ss, 2, 0) == 0
  {
    var ss := TwoSlots(Heard()).sessions;
    FirstIs(ss, FreeFor(2), 1);
    assert !Reserved(ss, 2, 0);
  }

  /** Sending an empty message while session `j` has the key it takes. */
  lemma EmptySend(c: Context, msg: Message, now: nat, env: Env, slot: nat, id: nat, j: nat)
    requires msg.from == c.own && msg.to <= DEVICE_MAX && msg.to != c.own && msg.data == []
    requires FindFree(c.sessions, msg.to) == slot < |c.sessions| && FreeId(c.sessions, msg.to, 0) == id < 8
    requires j < slot && c.sessions[j].state != Free
    requires KeyOf(c.sessions[j]) == Key(msg.to, c.own, 2 * id + InitiatorBit(c.own, msg.to))
    ensures !DistinctKeys(StartSend(c, msg, now, env).ctx.sessions)
  {
    var s := OpenedTx(c.own, c.sessions[slot].mask, msg, id, now);
    var tt := StartSend(c, msg, now, env).ctx.sessions;
    assert tt == c.sessions[slot := s];
    assert tt[j].state != Free && tt[slot].state != Free && KeyOf(tt[j]) == KeyOf(tt[slot]);
  }

  /** With distinct keys the first-match scan is a map lookup: it finds the one
      session with the key, wherever it sits. */
  lemma ScanIsLookup(ss: seq<Session>, i: nat)
    requires DistinctKeys(ss) && i < |ss| && ss[i].state != Free
    ensures FindSession(ss, KeyOf(ss[i])) == i
  {
    FirstIs(ss, HasKey(KeyOf(ss[i])), i);
  }

  ghost function TxTo(ss: seq<Session>, peer: nat): set<nat> {
    set i: nat | i < |ss| && ss[i].IsTx() && ss[i].peer == peer
  }

  /** At most eight transfers to one peer are ever under way. */
  lemma AtMostEightPerPeer(c: Context, ops: seq<Op>, peer: nat)
    requires Fresh(c)
    ensures ContextOk(c) && |TxTo(After(c, ops).sessions, peer)| <= 8
  {
    ReachableDistinct(c, ops);
    EightIds(After(c, ops), peer);
  }

  lemma EightIds(c: Context, peer: nat)
    requires ContextOk(c) && TxDistinct(c.sessions)
    ensures |TxTo(c.sessions, peer)| <= 8
  {
    var ss := c.sessions;
    var half := (i: nat) => if i < |ss| then Half(ss[i].sid) else 0;
    forall i | i in TxTo(ss, peer) ensures half(i) in Eight() {
      HalfId(ss[i].sid);
    }
    forall i, j | i in TxTo(ss, peer) && j in TxTo(ss, peer) && half(i) == half(j) ensures i == j {
      SameHalfSameParity(ss[i].sid, ss[j].sid);
    }
    InjectiveImage(TxTo(ss, peer), half, Eight());
  }

  function Eight(): set<nat> { {0, 1, 2, 3, 4, 5, 6, 7} }

  lemma HalfId(sid: nat)
    requires sid <= 15
    ensures Half(sid) in Eight()
  {
  }

  lemma SameHalfSameParity(a: nat, b: nat)
    requires Half(a) == Half(b) && a % 2 == b % 2
    ensures a == b
  {
  }

  // ---------------------------------------------------------------- conservation

  ghost function InUse(): Session -> bool { (s: Session) => s.state != Free }

  ghost function SessionsInUse(c: Context): nat { Count(c.sessions, InUse()) }

  /** A session was created by a send that returned OK, or by a START for a key
      no session had that found a slot. */
  ghost predicate OpensSession(c: Context, op: Op)
    requires ContextOk(c)
  {
    match op
    case Send(msg, now, env) => Perform(c, op).result == Ok
    case Receive(frame, now, env) =>
      var h := HeaderOf(frame.id);
      && frame.len <= MAX_LEN && h.command.Some? && Opens(h.command.value)
      && FindSession(c.sessions, Key(h.from, h.to, h.sid)) == |c.sessions|
      && Perform(c, op).result == Ok
    case Tick(_) => false
  }

  /** Every event but `NoEvent` reports the end of a session. */
  ghost predicate EndsSession(c: Context, op: Op)
    requires ContextOk(c)
  {
    Perform(c, op).output.event != NoEvent
  }

  /** One call opens at most one session or ends at most one, never both, and
      the number of sessions in use moves by exactly that. */
  lemma CallConserves(c: Context, op: Op)
    requires ContextOk(c)
    ensures SessionsInUse(Perform(c, op).ctx) + (if EndsSession(c, op) then 1 else 0)
            == SessionsInUse(c) + (if OpensSession(c, op) then 1 else 0)
    ensures !(OpensSession(c, op) && EndsSession(c, op))
  {
    var i := TouchedSlot(c, op);
    var ss, tt := c.sessions, Perform(c, op).ctx.sessions;
    if i < |ss| {
      CountUpdate(ss, InUse(), i, tt[i], |ss|);
    }
  }

  /** The one slot a call may change, and what it tells about it. */
  lemma TouchedSlot(c: Context, op: Op) returns (i: nat)
    requires ContextOk(c)
    ensures var ss, tt := c.sessions, Perform(c, op).ctx.sessions;
            && i <= |ss| && |tt| == |ss|
            && (i == |ss| ==> tt == ss && !EndsSession(c, op) && !OpensSession(c, op))
            && (i < |ss| ==>
                  && tt == ss[i := tt[i]]
                  && (OpensSession(c, op) <==> ss[i].state == Free && tt[i].state != Free)
                  && (EndsSession(c, op) <==> ss[i].state != Free && tt[i].state == Free))
  {
    match op
    case Send(msg, now, env) =>
      SendEffect(c, msg, now, env);
      i := if StartSend(c, msg, now, env).result == Ok then FindFree(c.sessions, msg.to) else |c.sessions|;
    case Receive(frame, now, env) =>
      i := |c.sessions|;
      if frame.len <= MAX_LEN {
        var k, created := ReceiveEffect(c, frame, now, env);
        i := k;
      }
    case Tick(now) =>
      var late := First(c.sessions, Overdue(now, c.timeoutMs));
      i := if late < |c.sessions| then late else First(c.sessions, Unacked());
      // a slice of an unacknowledged transfer changes a session without ending it
  }

  /** Over any run: sessions in use = created - ended, so none is lost. */
  ghost function Opened(c: Context, ops: seq<Op>): nat
    requires ContextOk(c)
  {
    if ops == [] then 0
    else
      var init := ops[..|ops| - 1];
      Opened(c, init) + (if OpensSession(After(c, init), ops[|ops| - 1]) then 1 else 0)
  }

  ghost function Ended(c: Context, ops: seq<Op>): nat
    requires ContextOk(c)
  {
    if ops == [] then 0
    else
      var init := ops[..|ops| - 1];
      Ended(c, init) + (if EndsSession(After(c, init), ops[|ops| - 1]) then 1 else 0)
  }

  lemma {:induction false} SessionsConserved(c: Context, ops: seq<Op>)
    requires ContextOk(c)
    ensures SessionsInUse(After(c, ops)) + Ended(c, ops) == SessionsInUse(c) + Opened(c, ops)
  {
    if ops != [] {
      var init := ops[..|ops| - 1];
      SessionsConserved(c, init);
      CallConserves(After(c, init), ops[|ops| - 1]);
    }
  }
}
