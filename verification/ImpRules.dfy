/** The rules of IMP, as a user of the protocol would write them down: what each call
    answers, reports and leaves behind, in states, numbers and places of the table. */
module ImpRules {
  import opened Can
  import opened ImpCore
  import opened ImpInvariants
  import opened ImpReceive

  // ------------------------------------------------------------------------ the wire

  /** The fields of an identifier. */
  datatype Fields = Fields(from: nat, to: nat, sid: nat, code: nat)

  ghost predicate Says(f: Frame, h: Fields) {
    && h.to == f.id / 0x100_0000 % 32 && h.from == f.id / 0x8_0000 % 32
    && h.sid == f.id / 0x8000 % 16 && h.code == f.id / 0x400 % 32
  }

  /** Commands are numbered in this order from 0 on. */
  function Commands(): seq<Command> { [Start, StartWa, Ack, Nack, Data, DataWa, End, EndWa, AbortWa] }

  lemma CodeIs(command: Command, code: nat)
    requires code < 9 && Commands()[code] == command
    ensures CommandCode(command) == code
  {
  }

  lemma IdIs(from: nat, to: nat, sid: nat, command: Command)
    requires from < 32 && to < 32 && sid < 16
    ensures CanIdCreate(from, to, sid, command)
            == to * 0x100_0000 + from * 0x8_0000 + sid * 0x8000 + CommandCode(command) * 0x400
  {
  }

  lemma BytesInOrder(id: nat, body: seq<byte>)
    requires |body| <= 8
    ensures var f := MakeFrame(id, body);
            && f.id == id && f.extended && f.len == |body|
            && forall i :: 0 <= i < 8 ==> f.data[i] == if i < |body| then body[i] else 0
  {
  }

  /** What goes over the wire for a packet: an extended identifier with ten zero bits at
      the end, the bytes in order, and zeros behind them. */
  lemma OnTheWire(p: Packet, code: nat)
    requires p.from < 32 && p.to < 32 && p.sid < 16 && |p.body| <= 8 && code < 9 && Commands()[code] == p.command
    ensures var f := Encode(p);
            && f.id == p.to * 0x100_0000 + p.from * 0x8_0000 + p.sid * 0x8000 + code * 0x400
            && Says(f, Fields(p.from, p.to, p.sid, code))
            && f.extended && f.len == |p.body|
            && forall i :: 0 <= i < 8 ==> f.data[i] == if i < |p.body| then p.body[i] else 0
  {
    CodeIs(p.command, code);
    IdIs(p.from, p.to, p.sid, p.command);
    BytesInOrder(CanIdCreate(p.from, p.to, p.sid, p.command), p.body);
    SaysFields(Encode(p), p.from, p.to, p.sid, code);
  }

  lemma SaysFields(f: Frame, from: nat, to: nat, sid: nat, code: nat)
    requires f.id == to * 0x100_0000 + from * 0x8_0000 + sid * 0x8000 + code * 0x400
    requires from < 32 && to < 32 && sid < 16 && code < 32
    ensures Says(f, Fields(from, to, sid, code))
  {
    PackedFields(from, to, sid, code);
  }

  // ---------------------------------------------------------------------- the table

  /** Slot `i` is the first in use with these fields of its key. */
  ghost predicate Finds(ss: seq<Session>, i: nat, peer: nat, local: nat, sid: nat) {
    && i < |ss| && HasFields(ss[i], peer, local, sid)
    && forall j :: 0 <= j < i ==> !HasFields(ss[j], peer, local, sid)
  }

  ghost predicate HasFields(s: Session, peer: nat, local: nat, sid: nat) {
    s.state != Free && s.peer == peer && s.local == local && s.sid == sid
  }

  ghost predicate FindsNone(ss: seq<Session>, peer: nat, local: nat, sid: nat) {
    forall j :: 0 <= j < |ss| ==> !HasFields(ss[j], peer, local, sid)
  }

  lemma FindIs(ss: seq<Session>, i: nat, h: Fields)
    ensures Finds(ss, i, h.from, h.to, h.sid) ==> FindSession(ss, Key(h.from, h.to, h.sid)) == i
    ensures FindsNone(ss, h.from, h.to, h.sid) ==> FindSession(ss, Key(h.from, h.to, h.sid)) == |ss|
  {
    var p := HasKey(Key(h.from, h.to, h.sid));
    assert forall j :: 0 <= j < |ss| ==> p(ss[j]) == HasFields(ss[j], h.from, h.to, h.sid);
  }

  // ------------------------------------------------------------------ forms of outcome

  const SILENT := Output(None, None, NoEvent, 0, 0)

  /** Session `i` is over: it is reported, and its slot is empty but for the mask. */
  ghost function Ends(c: Context, i: nat, event: Event, frame: Option<Packet>, message: Option<Message>,
                      result: Result): Outcome
    requires i < |c.sessions|
  {
    var s := c.sessions[i];
    Outcome(c.(sessions := c.sessions[i := Session(s.mask, Free, WithAck, 0, 0, 0, 0, [], 0, 0, 0)]),
            Output(frame, message, event, s.peer, s.sid), result)
  }

  /** Session `i` goes on as `s`, and nothing is reported. */
  ghost function GoesOn(c: Context, i: nat, s: Session, frame: Option<Packet>, result: Result): Outcome
    requires i < |c.sessions|
  {
    Outcome(c.(sessions := c.sessions[i := s]), Output(frame, None, NoEvent, 0, 0), result)
  }

  /** A frame to the peer of session `i`. */
  ghost function Answer(c: Context, i: nat, command: Command, body: seq<byte> := []): Option<Packet>
    requires i < |c.sessions|
  {
    Some(Packet(c.own, c.sessions[i].peer, c.sessions[i].sid, command, body))
  }

  // ------------------------------------------------------------------------ add_frame

  /** The node looks at the frame: it is no longer than eight bytes, comes from an
      address, not from all of them, has a known command, and is for this node; or for
      all and does not ask for an answer. */
  ghost predicate Heeds(c: Context, f: Frame, h: Fields) {
    && Says(f, h) && f.len <= 8 && h.from != 31 && h.code <= 8
    && (h.to == c.own || (h.to == 31 && h.code in {1, 5, 7, 8}))
  }

  lemma HeaderIs(f: Frame, h: Fields)
    requires Says(f, h)
    ensures HeaderOf(f.id) == Header(h.to, h.from, h.sid, if h.code < 9 then Some(Commands()[h.code]) else None)
  {
  }

  /** A frame the node does not look at changes nothing; the first reason counts. */
  lemma Unheeded(c: Context, f: Frame, h: Fields, now: nat, env: Env)
    requires ContextOk(c) && Says(f, h) && !Heeds(c, f, h)
    ensures AddFrame(c, f, now, env)
            == Outcome(c, SILENT, if f.len > 8 then InvalidFrame
                                  else if (h.to != c.own && h.to != 31) || h.from == 31 then WrongAddress
                                  else InvalidFrame)
  {
    HeaderIs(f, h);
  }

  /** A frame for no session, unless it is a START that finds a slot: ABORT_WA in
      answer, if the frame asks for one. */
  lemma Unknown(c: Context, f: Frame, h: Fields, now: nat, env: Env)
    requires ContextOk(c) && Heeds(c, f, h) && FindsNone(c.sessions, h.from, h.to, h.sid)
    requires h.code >= 2 || NoneFree(c.sessions, h.from)
    ensures AddFrame(c, f, now, env)
            == Outcome(c, Output(if h.code in {0, 2, 3, 4, 6} then Some(Packet(c.own, h.from, h.sid, AbortWa, []))
                                 else None, None, NoEvent, 0, 0), NoFreeSession)
  {
    HeaderIs(f, h);
    FindIs(c.sessions, 0, h);
    FirstFreeIs(c.sessions, 0, h.from);
  }

  /** A START for no session that finds a slot opens an empty reception there. START is
      answered with ACK, START_WA is not. */
  lemma StartOpens(c: Context, f: Frame, h: Fields, i: nat, now: nat, env: Env)
    requires ContextOk(c) && Heeds(c, f, h) && FindsNone(c.sessions, h.from, h.to, h.sid)
    requires h.code <= 1 && FirstFree(c.sessions, i, h.from)
    ensures var s := Session(c.sessions[i].mask, Rx, if h.code == 0 then WithAck else WithoutAck, h.from, h.to, h.sid,
                             0, [], 0, 0, now);
            AddFrame(c, f, now, env)
            == GoesOn(c, i, s, if h.code == 0 then Some(Packet(c.own, h.from, h.sid, Ack, [])) else None, Ok)
  {
    HeaderIs(f, h);
    FindIs(c.sessions, 0, h);
    FirstFreeIs(c.sessions, i, h.from);
    DispatchCreated(c, HeaderOf(f.id), f.Body(), now, env);
  }

  /** A frame for session `i` goes to that session. */
  lemma Reaches(c: Context, f: Frame, h: Fields, i: nat, now: nat, env: Env)
    requires ContextOk(c) && Heeds(c, f, h) && Finds(c.sessions, i, h.from, h.to, h.sid)
    ensures var step := Handle(c, c.sessions[i], Commands()[h.code], f.Body(), now, env);
            AddFrame(c, f, now, env) == Outcome(c.(sessions := c.sessions[i := step.session]), step.output, step.result)
  {
    HeaderIs(f, h);
    FindIs(c.sessions, i, h);
    DispatchFound(c, HeaderOf(f.id), f.Body(), now, env, i);
  }

  /** The frame is for session `i`. */
  ghost predicate HeardBy(c: Context, f: Frame, h: Fields, i: nat) {
    Heeds(c, f, h) && Finds(c.sessions, i, h.from, h.to, h.sid)
  }

  /** ABORT_WA ends any session, with the matching report. */
  lemma AbortEnds(c: Context, f: Frame, h: Fields, i: nat, now: nat, env: Env)
    requires ContextOk(c) && HeardBy(c, f, h, i) && h.code == 8
    ensures AddFrame(c, f, now, env)
            == Ends(c, i, if c.sessions[i].state == Rx then RxAborted else TxAborted, None, None, Ok)
  {
    Reaches(c, f, h, i, now, env);
  }

  // ---- a reception

  /** START empties a reception and decides its mode; only START itself is answered. */
  lemma StartEmpties(c: Context, f: Frame, h: Fields, i: nat, now: nat, env: Env)
    requires ContextOk(c) && HeardBy(c, f, h, i) && c.sessions[i].state == Rx && h.code <= 1
    ensures var s := c.sessions[i].(payload := [], capacity := 0, offset := 0, lastMs := now,
                                    mode := if h.code == 0 then WithAck else WithoutAck);
            AddFrame(c, f, now, env) == GoesOn(c, i, s, if h.code == 0 then Answer(c, i, Ack) else None, Ok)
  {
    Reaches(c, f, h, i, now, env);
  }

  /** Room for more bytes in a buffer: what there is, twice as much, 32 to begin with, at
      least what is needed and at most the limit. */
  ghost function Room(capacity: nat, needed: nat, limit: nat): nat {
    if needed <= capacity then capacity
    else
      var more := if capacity == 0 then 32 else 2 * capacity;
      if limit < more || limit < needed then limit else if more < needed then needed else more
  }

  lemma AppendIs(s: Session, maxSize: nat, body: seq<byte>, allocOk: bool)
    requires |s.payload| <= s.capacity <= maxSize && |s.payload| + |body| <= maxSize
    requires body == [] || |s.payload| + |body| <= s.capacity || allocOk
    ensures ImpCore.Append(s, maxSize, body, allocOk)
            == (s.(payload := s.payload + body, capacity := if body == [] then s.capacity
                                                            else Room(s.capacity, |s.payload| + |body|, maxSize)), Ok)
  {
    assert s.payload + [] == s.payload;
  }

  lemma DataIsGrowth(own: nat, maxSize: nat, s: Session, command: Command, body: seq<byte>, now: nat, env: Env)
      returns (step: Step)
    requires command == Data || command == DataWa
    requires |s.payload| <= s.capacity <= maxSize && |s.payload| + |body| <= maxSize
    requires body == [] || |s.payload| + |body| <= s.capacity || env.allocOk
    ensures step == HandleRx(own, maxSize, s, command, body, now, env)
    ensures step
            == Step(s.(payload := s.payload + body, lastMs := now,
                       capacity := if body == [] then s.capacity
                                   else Room(s.capacity, |s.payload| + |body|, maxSize)),
                    Output(if command == Data then Some(Packet(own, s.peer, s.sid, Ack, [])) else None, None, NoEvent,
                           0, 0), Ok)
  {
    step := HandleRx(own, maxSize, s, command, body, now, env);
    AppendIs(s, maxSize, body, env.allocOk);
  }

  /** Data that fit and find memory are appended. */
  lemma DataGrow(c: Context, f: Frame, h: Fields, i: nat, now: nat, env: Env)
    requires ContextOk(c) && HeardBy(c, f, h, i) && c.sessions[i].state == Rx && h.code in {4, 5}
    requires var s := c.sessions[i];
             && |s.payload| + f.len <= c.maxSize
             && (f.len == 0 || |s.payload| + f.len <= s.capacity || env.allocOk)
    ensures var s := c.sessions[i];
            var t := s.(payload := s.payload + f.data[..f.len], lastMs := now,
                        capacity := if f.len == 0 then s.capacity
                                    else Room(s.capacity, |s.payload| + f.len, c.maxSize));
            AddFrame(c, f, now, env) == GoesOn(c, i, t, if h.code == 4 then Answer(c, i, Ack) else None, Ok)
  {
    var step := DataIsGrowth(c.own, c.maxSize, c.sessions[i], Commands()[h.code], f.Body(), now, env);
    var r := ReachesReception(c, f, h, i, now, env, step);
  }

  /** Data over the limit, or without memory, end the reception. */
  lemma DataEnd(c: Context, f: Frame, h: Fields, i: nat, now: nat, env: Env)
    requires ContextOk(c) && HeardBy(c, f, h, i) && c.sessions[i].state == Rx && h.code in {4, 5}
    requires var s := c.sessions[i];
             || |s.payload| + f.len > c.maxSize
             || (f.len > 0 && |s.payload| + f.len > s.capacity && !env.allocOk)
    ensures AddFrame(c, f, now, env)
            == Ends(c, i, RxAborted, if h.code == 4 then Answer(c, i, AbortWa) else None, None,
                    if |c.sessions[i].payload| + f.len > c.maxSize then MessageTooLarge else CantAllocate)
  {
    Reaches(c, f, h, i, now, env);
  }

  /** END hands the message out, if the validator accepts it and there is memory for the
      copy. Only END itself is answered: with ACK, NACK or ABORT_WA. */
  lemma EndDelivers(c: Context, f: Frame, h: Fields, i: nat, now: nat, env: Env)
    requires ContextOk(c) && HeardBy(c, f, h, i) && c.sessions[i].state == Rx && h.code in {6, 7}
    ensures var s := c.sessions[i];
            var m := Message(if s.local == 31 then WithoutAck else s.mode, s.peer, s.local, s.sid, s.payload);
            var reply := if !env.accept then Nack else if !env.allocOk then AbortWa else Ack;
            AddFrame(c, f, now, env)
            == Ends(c, i, if env.accept && env.allocOk then RxFinished else RxAborted,
                    if h.code == 6 then Answer(c, i, reply) else None,
                    if env.accept && env.allocOk then Some(m) else None,
                    if !env.accept then MessageRejected else if !env.allocOk then CantAllocate else Ok)
  {
    Reaches(c, f, h, i, now, env);
  }

  /** ACK and NACK have no place in a reception. */
  lemma ReplyEndsReception(c: Context, f: Frame, h: Fields, i: nat, now: nat, env: Env)
    requires ContextOk(c) && HeardBy(c, f, h, i) && c.sessions[i].state == Rx && h.code in {2, 3}
    ensures AddFrame(c, f, now, env) == Ends(c, i, RxAborted, Answer(c, i, AbortWa), None, UnexpectedCommand)
  {
    var step := ReplyIs(c.own, c.maxSize, c.sessions[i], Commands()[h.code], f.Body(), now, env);
    var r := ReachesReception(c, f, h, i, now, env, step);
  }

  /** A frame for a reception, given what becomes of it. */
  lemma ReachesReception(c: Context, f: Frame, h: Fields, i: nat, now: nat, env: Env, step: Step) returns (r: Outcome)
    requires ContextOk(c) && HeardBy(c, f, h, i) && c.sessions[i].state == Rx
    requires step == HandleRx(c.own, c.maxSize, c.sessions[i], Commands()[h.code], f.Body(), now, env)
    ensures r == AddFrame(c, f, now, env)
    ensures r == Outcome(c.(sessions := c.sessions[i := step.session]), step.output, step.result)
  {
    r := AddFrame(c, f, now, env);
    Reaches(c, f, h, i, now, env);
  }

  lemma ReplyIs(own: nat, maxSize: nat, s: Session, command: Command, body: seq<byte>, now: nat, env: Env)
      returns (step: Step)
    requires command == Ack || command == Nack
    ensures step == HandleRx(own, maxSize, s, command, body, now, env)
    ensures step
            == Step(Session(s.mask, Free, WithAck, 0, 0, 0, 0, [], 0, 0, 0),
                    Output(Some(Packet(own, s.peer, s.sid, AbortWa, [])), None, RxAborted, s.peer, s.sid),
                    UnexpectedCommand)
  {
    step := HandleRx(own, maxSize, s, command, body, now, env);
  }

  // ---- a transfer

  /** Bytes of the payload sent and confirmed once the frame under way is answered. */
  ghost function Confirmed(s: Session): nat {
    if s.state == TxWaitStartAck then 0 else if s.offset + 8 < |s.payload| then s.offset + 8 else |s.payload|
  }

  lemma SlicesFit(own: nat, maxSize: nat, s: Session)
    requires s.IsTx() && SessionOk(s, own, maxSize)
    ensures s.state == TxWaitStartAck ==> s.offset == 0
    ensures s.state == TxWaitDataAck ==>
              s.lastLength == (if |s.payload| - s.offset < 8 then |s.payload| - s.offset else 8)
              && s.offset < |s.payload| && s.offset + s.lastLength == Confirmed(s)
  {
  }

  lemma NextIs(own: nat, s: Session, at: nat, now: nat)
    requires at <= |s.payload|
    ensures var left := |s.payload| - at;
            var size := if left < 8 then left else 8;
            EmitNextAcked(own, s.(offset := at), now)
            == if left == 0 then
                 Step(s.(state := TxWaitEndAck, offset := at, lastMs := now),
                      Output(Some(Packet(own, s.peer, s.sid, End, [])), None, NoEvent, 0, 0), Ok)
               else
                 Step(s.(state := TxWaitDataAck, offset := at, lastLength := size, lastMs := now),
                      Output(Some(Packet(own, s.peer, s.sid, Data, s.payload[at..at + size])), None, NoEvent, 0, 0),
                      Ok)
  {
  }

  lemma AckIsNext(own: nat, maxSize: nat, s: Session, now: nat) returns (step: Step)
    requires s.IsTx() && SessionOk(s, own, maxSize) && maxSize < 0x1_0000
    ensures step == HandleTx(own, maxSize, s, Ack, now) == Advanced(own, s, now)
  {
    step := HandleTx(own, maxSize, s, Ack, now);
    AckIs(own, maxSize, s, now);
    SlicesFit(own, maxSize, s);
    NextIs(own, s, Confirmed(s), now);
    assert s.state == TxWaitStartAck ==> s.(offset := 0) == s;
  }

  /** A frame for a transfer, given what becomes of it. */
  lemma ReachesTransfer(c: Context, f: Frame, h: Fields, i: nat, now: nat, env: Env, step: Step) returns (r: Outcome)
    requires ContextOk(c) && HeardBy(c, f, h, i) && c.sessions[i].state != Rx
    requires step == HandleTx(c.own, c.maxSize, c.sessions[i], Commands()[h.code], now)
    ensures r == AddFrame(c, f, now, env)
    ensures r == Outcome(c.(sessions := c.sessions[i := step.session]), step.output, step.result)
  {
    r := AddFrame(c, f, now, env);
    Reaches(c, f, h, i, now, env);
  }

  /** ACK draws the next eight bytes, or what is left of them, or END when none is left;
      the last one ends the transfer. A transfer that needs no ACK stays as it is. */
  ghost function Advanced(own: nat, s: Session, now: nat): Step
    requires s.state != TxWaitStartAck ==> s.offset <= |s.payload|
  {
    var at := Confirmed(s);
    var left := |s.payload| - at;
    var size := if left < 8 then left else 8;
    if s.state == TxWithoutAck then Step(s, SILENT, UnexpectedCommand)
    else if s.state == TxWaitEndAck then
      Step(Session(s.mask, Free, WithAck, 0, 0, 0, 0, [], 0, 0, 0), Output(None, None, TxFinished, s.peer, s.sid), Ok)
    else if left == 0 then
      Step(s.(state := TxWaitEndAck, offset := at, lastMs := now),
           Output(Some(Packet(own, s.peer, s.sid, End, [])), None, NoEvent, 0, 0), Ok)
    else
      Step(s.(state := TxWaitDataAck, offset := at, lastLength := size, lastMs := now),
           Output(Some(Packet(own, s.peer, s.sid, Data, s.payload[at..at + size])), None, NoEvent, 0, 0), Ok)
  }

  lemma AckAdvances(c: Context, f: Frame, h: Fields, i: nat, now: nat, env: Env)
    requires ContextOk(c) && HeardBy(c, f, h, i) && h.code == 2 && c.sessions[i].state != Rx
    ensures c.sessions[i].offset <= |c.sessions[i].payload|
    ensures var step := Advanced(c.own, c.sessions[i], now);
            AddFrame(c, f, now, env) == Outcome(c.(sessions := c.sessions[i := step.session]), step.output, step.result)
  {
    var step := AckIsNext(c.own, c.maxSize, c.sessions[i], now);
    var r := ReachesTransfer(c, f, h, i, now, env, step);
  }

  lemma NackIsRepeat(own: nat, maxSize: nat, s: Session, now: nat) returns (step: Step)
    requires s.IsTx() && SessionOk(s, own, maxSize)
    ensures step == HandleTx(own, maxSize, s, Nack, now)
    ensures var left := |s.payload| - s.offset;
            var size := if left < 8 then left else 8;
            step
            == if s.state == TxWaitStartAck then
                 Step(s.(lastMs := now), Output(Some(Packet(own, s.peer, s.sid, Start, [])), None, NoEvent, 0, 0), Ok)
               else if s.state == TxWaitDataAck then
                 Step(s.(lastMs := now),
                      Output(Some(Packet(own, s.peer, s.sid, Data, s.payload[s.offset..s.offset + size])), None,
                             NoEvent, 0, 0), Ok)
               else
                 Step(Session(s.mask, Free, WithAck, 0, 0, 0, 0, [], 0, 0, 0),
                      Output(None, None, TxAborted, s.peer, s.sid), MessageRejected)
  {
    step := HandleTx(own, maxSize, s, Nack, now);
    SlicesFit(own, maxSize, s);
  }

  /** NACK draws START or the same bytes once more; after END it ends the transfer. */
  lemma NackRepeats(c: Context, f: Frame, h: Fields, i: nat, now: nat, env: Env)
    requires ContextOk(c) && HeardBy(c, f, h, i) && h.code == 3 && c.sessions[i].state != Rx
    ensures var s := c.sessions[i];
            var left := |s.payload| - s.offset;
            var size := if left < 8 then left else 8;
            AddFrame(c, f, now, env)
            == if s.state == TxWaitStartAck then GoesOn(c, i, s.(lastMs := now), Answer(c, i, Start), Ok)
               else if s.state == TxWaitDataAck then
                 GoesOn(c, i, s.(lastMs := now), Answer(c, i, Data, s.payload[s.offset..s.offset + size]), Ok)
               else Ends(c, i, TxAborted, None, None, MessageRejected)
  {
    var step := NackIsRepeat(c.own, c.maxSize, c.sessions[i], now);
    var r := ReachesTransfer(c, f, h, i, now, env, step);
  }

  /** What only a sender says ends a transfer. */
  lemma SenderFrameEndsTransfer(c: Context, f: Frame, h: Fields, i: nat, now: nat, env: Env)
    requires ContextOk(c) && HeardBy(c, f, h, i) && h.code in {0, 1, 4, 5, 6, 7} && c.sessions[i].state != Rx
    ensures AddFrame(c, f, now, env) == Ends(c, i, TxAborted, Answer(c, i, AbortWa), None, UnexpectedCommand)
  {
    Reaches(c, f, h, i, now, env);
  }

  // -------------------------------------------------------------------------- process

  /** The session has waited longer than the timeout on the 32-bit clock. An
      unacknowledged transfer waits for nobody. */
  ghost predicate Late(s: Session, now: nat, timeoutMs: nat) {
    && (s.state == Rx || s.state == TxWaitStartAck || s.state == TxWaitDataAck || s.state == TxWaitEndAck)
    && (now - s.lastMs) % 0x1_0000_0000 > timeoutMs
  }

  ghost predicate NoneLate(c: Context, now: nat) {
    forall j :: 0 <= j < |c.sessions| ==> !Late(c.sessions[j], now, c.timeoutMs)
  }

  lemma LateIs(c: Context, now: nat, i: nat)
    requires i <= |c.sessions| && (i < |c.sessions| ==> Late(c.sessions[i], now, c.timeoutMs))
    requires forall j :: 0 <= j < i ==> !Late(c.sessions[j], now, c.timeoutMs)
    ensures First(c.sessions, Overdue(now, c.timeoutMs)) == i
  {
    var p := Overdue(now, c.timeoutMs);
    assert forall j :: 0 <= j < |c.sessions| ==> p(c.sessions[j]) == Late(c.sessions[j], now, c.timeoutMs);
  }

  /** The lowest late session is reported and ended. */
  lemma TimesOut(c: Context, now: nat, i: nat)
    requires ContextOk(c) && i < |c.sessions| && Late(c.sessions[i], now, c.timeoutMs)
    requires forall j :: 0 <= j < i ==> !Late(c.sessions[j], now, c.timeoutMs)
    ensures Process(c, now)
            == Ends(c, i, if c.sessions[i].state == Rx then RxTimeout else TxTimeout, None, None, Ok)
  {
    LateIs(c, now, i);
  }

  /** Without one, the lowest unacknowledged transfer puts out its next eight bytes, or
      what is left of them, or END_WA, which ends it with success. */
  lemma Drains(c: Context, now: nat, i: nat)
    requires ContextOk(c) && NoneLate(c, now) && i < |c.sessions| && c.sessions[i].state == TxWithoutAck
    requires forall j :: 0 <= j < i ==> c.sessions[j].state != TxWithoutAck
    ensures var s := c.sessions[i];
            var left := |s.payload| - s.offset;
            var size := if left < 8 then left else 8;
            Process(c, now)
            == if left == 0 then Ends(c, i, TxFinished, Answer(c, i, EndWa), None, Ok)
               else
                 Outcome(c.(sessions := c.sessions[i := s.(offset := s.offset + size)]),
                         Output(Answer(c, i, DataWa, s.payload[s.offset..s.offset + size]), None, NoEvent,
                                s.peer, s.sid), Ok)
  {
    LateIs(c, now, |c.sessions|);
    FirstIs(c.sessions, Unacked(), i);
    assert SessionOk(c.sessions[i], c.own, c.maxSize);
  }

  /** Without either, the call does nothing. */
  lemma Rests(c: Context, now: nat)
    requires ContextOk(c) && NoneLate(c, now)
    requires forall j :: 0 <= j < |c.sessions| ==> c.sessions[j].state != TxWithoutAck
    ensures Process(c, now) == Outcome(c, SILENT, Ok)
  {
    LateIs(c, now, |c.sessions|);
    FirstIs(c.sessions, Unacked(), |c.sessions|);
  }

  // ----------------------------------------------------------------------- start_send

  /** The message may be sent at all. */
  ghost predicate MayBeSent(c: Context, msg: Message) {
    msg.from == c.own && msg.to <= 31 && msg.to != c.own && |msg.data| <= c.maxSize
  }

  /** A message that may be sent, with a slot and a number, and with memory for its bytes
      if it has any, opens a transfer in that slot, active from now on. Its id is twice
      the number, plus one if this side has the higher address; its first frame goes out. */
  lemma SendOpens(c: Context, msg: Message, now: nat, env: Env, i: nat, n: nat)
    requires ContextOk(c) && MayBeSent(c, msg)
    requires FirstFree(c.sessions, i, msg.to) && LowestNumber(c.sessions, msg.to, n)
    requires msg.data == [] || env.allocOk
    ensures var sid := 2 * n + (if c.own > msg.to then 1 else 0);
            var acked := msg.mode == WithAck && msg.to != 31;
            var s := Session(c.sessions[i].mask, if acked then TxWaitStartAck else TxWithoutAck,
                             if acked then WithAck else WithoutAck, msg.to, c.own, sid,
                             0, msg.data, |msg.data|, 0, now);
            StartSend(c, msg, now, env)
            == Outcome(c.(sessions := c.sessions[i := s]),
                       Output(Some(Packet(c.own, msg.to, sid, if acked then Start else StartWa, [])), None, NoEvent,
                              msg.to, sid), Ok)
  {
    FirstFreeIs(c.sessions, i, msg.to);
    NumberIs(c.sessions, msg.to, n);
  }

  /** Any other send changes nothing and is answered with the first reason there is. */
  lemma SendFails(c: Context, msg: Message, now: nat, env: Env)
    requires ContextOk(c)
    requires var ss := c.sessions;
             || !MayBeSent(c, msg) || NoneFree(ss, msg.to) || (forall k :: 0 <= k < 8 ==> NumberTaken(ss, msg.to, k))
             || (msg.data != [] && !env.allocOk)
    ensures StartSend(c, msg, now, env)
            == Outcome(c, SILENT,
                       if |msg.data| > c.maxSize then MessageTooLarge
                       else if !MayBeSent(c, msg) then WrongAddress
                       else if NoneFree(c.sessions, msg.to)
                               || (forall k :: 0 <= k < 8 ==> NumberTaken(c.sessions, msg.to, k)) then NoFreeSession
                       else CantAllocate)
  {
    SendEffect(c, msg, now, env);
    var ss := c.sessions;
    FirstFreeIs(ss, FindFree(ss, msg.to), msg.to);
    if MayBeSent(c, msg) && !NoneFree(ss, msg.to) {
      var i := SomeSlot(ss, msg.to);
      FirstFreeIs(ss, i, msg.to);
      if forall k :: 0 <= k < 8 ==> NumberTaken(ss, msg.to, k) {
        NumberIs(ss, msg.to, 8);
      } else {
        var n := SomeNumber(ss, msg.to);
        NumberIs(ss, msg.to, n);
      }
    }
  }
}
