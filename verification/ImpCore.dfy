/** The Intermodule Protocol as a state machine on values: one function for
    every branch structure of src/uni_can_protocol_imp.c. The class in
    ImpContext.dfy executes the same machine in place. */
module ImpCore {
  import opened Can

  const DEVICE_ALL: nat := 31
  const DEVICE_MAX: nat := 31
  const INITIAL_CAPACITY: nat := 32
  const TICKS: nat := 0x1_0000_0000

  datatype Mode = WithAck | WithoutAck

  datatype Command = Start | StartWa | Ack | Nack | Data | DataWa | End | EndWa | AbortWa

  datatype State = Free | Rx | TxWithoutAck | TxWaitStartAck | TxWaitDataAck | TxWaitEndAck

  datatype Event = NoEvent | TxFinished | TxTimeout | TxAborted | RxFinished | RxTimeout | RxAborted

  datatype Result = Ok | WrongAddress | InvalidFrame | NoFreeSession | CantAllocate
                  | MessageTooLarge | UnexpectedCommand | MessageRejected

  datatype Message = Message(mode: Mode, from: nat, to: nat, sid: nat, data: seq<byte>)

  /** A 32-bit peer mask, as the set of addresses whose bit is one. */
  type Mask = set<nat>

  /** `payload` is the filled part of the buffer, `capacity` its allocated size. */
  datatype Session = Session(mask: Mask, state: State, mode: Mode, peer: nat, local: nat, sid: nat,
                             lastLength: nat, payload: seq<byte>, capacity: nat, offset: nat, lastMs: nat) {
    predicate IsTx() { state != Free && state != Rx }

    /** The states `process` checks for a timeout. */
    predicate Timed() { state != Free && state != TxWithoutAck }
  }

  datatype Context = Context(own: nat, maxSize: nat, timeoutMs: nat, sessions: seq<Session>)

  /** A frame as the protocol means it; `Encode` and `HeaderOf` carry it over CAN. */
  datatype Packet = Packet(from: nat, to: nat, sid: nat, command: Command, body: seq<byte>)

  datatype Output = Output(frame: Option<Packet>, message: Option<Message>, event: Event, peer: nat, sid: nat)

  const NO_OUTPUT := Output(None, None, NoEvent, 0, 0)

  /** What one call finds outside the protocol: whether the allocation it may
      attempt succeeds, and what the user's validator says. */
  datatype Env = Env(allocOk: bool, accept: bool)

  // ---------------------------------------------------------------- identifiers

  datatype Header = Header(to: nat, from: nat, sid: nat, command: Option<Command>)

  function CommandCode(c: Command): nat {
    match c
    case Start => 0
    case StartWa => 1
    case Ack => 2
    case Nack => 3
    case Data => 4
    case DataWa => 5
    case End => 6
    case EndWa => 7
    case AbortWa => 8
  }

  function CommandOf(code: nat): Option<Command> {
    match code
    case 0 => Some(Start)
    case 1 => Some(StartWa)
    case 2 => Some(Ack)
    case 3 => Some(Nack)
    case 4 => Some(Data)
    case 5 => Some(DataWa)
    case 6 => Some(End)
    case 7 => Some(EndWa)
    case 8 => Some(AbortWa)
    case _ => None
  }

  // The fields of an identifier do not overlap, so masking and shifting them
  // into place is a sum of products: to * 2^24, from * 2^19, sid * 2^15,
  // command * 2^10.

  function CanIdCreate(from: nat, to: nat, sid: nat, command: Command): nat {
    (to % 0x20) * 0x100_0000 + (from % 0x20) * 0x8_0000 + (sid % 0x10) * 0x8000 + CommandCode(command) * 0x400
  }

  function HeaderOf(id: nat): Header {
    Header((id / 0x100_0000) % 0x20, (id / 0x8_0000) % 0x20, (id / 0x8000) % 0x10,
           CommandOf((id / 0x400) % 0x20))
  }

  function Encode(p: Packet): Frame
    requires |p.body| <= MAX_LEN
  {
    MakeFrame(CanIdCreate(p.from, p.to, p.sid, p.command), p.body)
  }

  /** Packing an identifier loses nothing but what exceeds the width of a field. */
  lemma CanIdRoundTrip(from: nat, to: nat, sid: nat, command: Command)
    ensures HeaderOf(CanIdCreate(from, to, sid, command)) == Header(to % 0x20, from % 0x20, sid % 0x10, Some(command))
  {
    CommandRoundTrip(command);
    PackedFields(from % 0x20, to % 0x20, sid % 0x10, CommandCode(command));
  }

  /** Fields in range come back as they are. */
  lemma HeaderOfPacked(from: nat, to: nat, sid: nat, command: Command)
    requires from <= DEVICE_MAX && to <= DEVICE_MAX && sid <= 15
    ensures HeaderOf(CanIdCreate(from, to, sid, command)) == Header(to, from, sid, Some(command))
  {
    CanIdRoundTrip(from, to, sid, command);
    assert from % 0x20 == from && to % 0x20 == to && sid % 0x10 == sid;
  }

  lemma CommandRoundTrip(command: Command)
    ensures CommandCode(command) < 0x20 && CommandOf(CommandCode(command)) == Some(command)
  {
  }

  lemma PackedFields(from: nat, to: nat, sid: nat, code: nat)
    requires from < 0x20 && to < 0x20 && sid < 0x10 && code < 0x20
    ensures var id := to * 0x100_0000 + from * 0x8_0000 + sid * 0x8000 + code * 0x400;
            && (id / 0x100_0000) % 0x20 == to && (id / 0x8_0000) % 0x20 == from
            && (id / 0x8000) % 0x10 == sid && (id / 0x400) % 0x20 == code
  {
    var id := to * 0x100_0000 + from * 0x8_0000 + sid * 0x8000 + code * 0x400;
    Quotient(id, 0x100_0000, to, from * 0x8_0000 + sid * 0x8000 + code * 0x400);
    Quotient(id, 0x8_0000, to * 0x20 + from, sid * 0x8000 + code * 0x400);
    Quotient(id, 0x8000, (to * 0x20 + from) * 0x10 + sid, code * 0x400);
    Quotient(id, 0x400, ((to * 0x20 + from) * 0x10 + sid) * 0x20 + code, 0);
  }

  lemma Quotient(n: nat, d: nat, q: nat, r: nat)
    requires d > 0 && r < d && n == q * d + r
    ensures n / d == q
  {
    var k := n / d;
    assert n == d * k + n % d;
    assert (q - k) * d == n % d - r;
    AtLeast(q - k, d);
    AtLeast(k - q, d);
    assert (k - q) * d == -((q - k) * d);
  }

  lemma AtLeast(x: int, d: nat)
    ensures x >= 1 ==> x * d >= d
  {
    if x >= 1 {
      assert x * d == d + (x - 1) * d;
    }
  }

  predicate SourceValid(address: nat) { address <= DEVICE_MAX && address != DEVICE_ALL }

  predicate WithoutAckCommand(c: Command) { c == StartWa || c == DataWa || c == EndWa || c == AbortWa }

  predicate Opens(c: Command) { c == Start || c == StartWa }

  function ModeOf(c: Command): Mode { if c == Start then WithAck else WithoutAck }

  // ------------------------------------------------------------------- sessions

  datatype Key = Key(peer: nat, local: nat, sid: nat)

  function KeyOf(s: Session): Key { Key(s.peer, s.local, s.sid) }

  function FreeSession(mask: Mask): Session {
    Session(mask, Free, WithAck, 0, 0, 0, 0, [], 0, 0, 0)
  }

  function Release(s: Session): Session { FreeSession(s.mask) }

  predicate Accepts(s: Session, peer: nat) { peer in s.mask }

  function HasKey(k: Key): Session -> bool { (s: Session) => s.state != Free && KeyOf(s) == k }

  function FreeFor(peer: nat): Session -> bool {
    (s: Session) => s.state == Free && Accepts(s, peer)
  }

  function FindSession(ss: seq<Session>, k: Key): nat { First(ss, HasKey(k)) }

  function FindFree(ss: seq<Session>, peer: nat): nat { First(ss, FreeFor(peer)) }

  function ToPeer(own: nat, s: Session, command: Command, body: seq<byte> := []): Packet {
    Packet(own, s.peer, s.sid, command, body)
  }

  /** What a handler did to its session, told its caller and answered. */
  datatype Step = Step(session: Session, output: Output, result: Result)

  function Tell(s: Session, event: Event): Output { Output(None, None, event, s.peer, s.sid) }

  // ------------------------------------------------------- per-session invariant

  ghost function Pow2(k: nat): nat { if k == 0 then 1 else 2 * Pow2(k - 1) }

  /** Capacities the growth rule can reach. */
  ghost predicate GrownCapacity(capacity: nat, maxSize: nat) {
    capacity == 0 || exists k: nat :: capacity == Min(INITIAL_CAPACITY * Pow2(k), maxSize)
  }

  function InitiatorBit(initiator: nat, responder: nat): nat { if initiator > responder then 1 else 0 }

  ghost predicate SessionOk(s: Session, own: nat, maxSize: nat) {
    && (s.state == Free ==> s == FreeSession(s.mask))
    && s.offset <= |s.payload| <= s.capacity <= maxSize
    && (s.state != Free ==> s.peer <= DEVICE_MAX && s.sid <= 15)
    && (s.state == Rx ==>
          && SourceValid(s.peer)
          && s.offset == 0
          && (s.local == own || s.local == DEVICE_ALL)
          && GrownCapacity(s.capacity, maxSize))
    && (s.IsTx() ==>
          && s.local == own && s.peer != own
          && s.capacity == |s.payload|
          && s.sid % 2 == InitiatorBit(own, s.peer)
          && (s.mode == WithoutAck <==> s.state == TxWithoutAck)
          && (s.peer == DEVICE_ALL ==> s.state == TxWithoutAck))
    && (s.state == TxWaitStartAck ==> s.offset == 0)
    && (s.state == TxWaitDataAck ==>
          s.offset < |s.payload| && s.lastLength == Min(|s.payload| - s.offset, MAX_LEN))
    && (s.state == TxWaitEndAck ==> s.offset == |s.payload|)
  }

  ghost predicate ContextOk(c: Context) {
    && SourceValid(c.own)
    && c.maxSize < 0x1_0000
    && forall i :: 0 <= i < |c.sessions| ==> SessionOk(c.sessions[i], c.own, c.maxSize)
  }

  // --------------------------------------------------------------- sending side

  function SliceLength(s: Session): (n: nat)
    ensures n <= MAX_LEN
  {
    if s.offset < |s.payload| then Min(|s.payload| - s.offset, MAX_LEN) else 0
  }

  function NextSlice(s: Session): (b: seq<byte>)
    requires s.offset <= |s.payload|
    ensures |b| == SliceLength(s)
  {
    s.payload[s.offset..s.offset + SliceLength(s)]
  }

  function EmitNextAcked(own: nat, s: Session, now: nat): Step
    requires s.offset <= |s.payload|
  {
    if s.offset < |s.payload| then
      Step(s.(lastLength := SliceLength(s), state := TxWaitDataAck, lastMs := now),
           NO_OUTPUT.(frame := Some(ToPeer(own, s, Data, NextSlice(s)))), Ok)
    else
      Step(s.(state := TxWaitEndAck, lastMs := now),
           NO_OUTPUT.(frame := Some(ToPeer(own, s, End))), Ok)
  }

  function ResendAcked(own: nat, s: Session, now: nat): Step
    requires s.state == TxWaitDataAck ==> s.offset + s.lastLength <= |s.payload| && s.lastLength <= MAX_LEN
  {
    var frame :=
      if s.state == TxWaitStartAck then Some(ToPeer(own, s, Start))
      else if s.state == TxWaitDataAck then
        Some(ToPeer(own, s, Data, s.payload[s.offset..s.offset + s.lastLength]))
      else None;
    Step(s.(lastMs := now), NO_OUTPUT.(frame := frame), Ok)
  }

  function HandleTx(own: nat, maxSize: nat, s: Session, command: Command, now: nat): Step
    requires s.IsTx() && SessionOk(s, own, maxSize)
  {
    if command == AbortWa then Step(Release(s), Tell(s, TxAborted), Ok)
    else if command == Nack then
      if s.state == TxWaitStartAck || s.state == TxWaitDataAck then ResendAcked(own, s, now)
      else Step(Release(s), Tell(s, TxAborted), MessageRejected)
    else if command != Ack then
      Step(Release(s), Tell(s, TxAborted).(frame := Some(ToPeer(own, s, AbortWa))), UnexpectedCommand)
    else if s.state == TxWaitStartAck then EmitNextAcked(own, s, now)
    else if s.state == TxWaitDataAck then
      EmitNextAcked(own, s.(offset := (s.offset + s.lastLength) % 0x1_0000), now)
    else if s.state == TxWaitEndAck then Step(Release(s), Tell(s, TxFinished), Ok)
    else Step(s, NO_OUTPUT, UnexpectedCommand)
  }

  // ------------------------------------------------------------- receiving side

  function NextCapacity(capacity: nat, required: nat, maxSize: nat): nat {
    var doubled := if capacity != 0 then capacity * 2 else INITIAL_CAPACITY;
    Min(if doubled < required then required else doubled, maxSize)
  }

  function Append(s: Session, maxSize: nat, body: seq<byte>, allocOk: bool): (Session, Result) {
    var required := |s.payload| + |body|;
    if required > maxSize then (s, MessageTooLarge)
    else if |body| == 0 then (s, Ok)
    else if required <= s.capacity then (s.(payload := s.payload + body), Ok)
    else if !allocOk then (s, CantAllocate)
    else (s.(payload := s.payload + body, capacity := NextCapacity(s.capacity, required, maxSize)), Ok)
  }

  /** Only END asks for an answer; END_WA does not. */
  function Answer(own: nat, s: Session, command: Command, reply: Command): Option<Packet> {
    if command == End then Some(ToPeer(own, s, reply)) else None
  }

  function FinishRx(own: nat, s: Session, command: Command, env: Env): Step {
    if !env.accept then
      Step(Release(s), Tell(s, RxAborted).(frame := Answer(own, s, command, Nack)), MessageRejected)
    else if !env.allocOk then
      Step(Release(s), Tell(s, RxAborted).(frame := Answer(own, s, command, AbortWa)), CantAllocate)
    else
      var mode := if s.local == DEVICE_ALL then WithoutAck else s.mode;
      Step(Release(s),
           Tell(s, RxFinished).(frame := Answer(own, s, command, Ack),
                                message := Some(Message(mode, s.peer, s.local, s.sid, s.payload))), Ok)
  }

  function HandleRx(own: nat, maxSize: nat, s: Session, command: Command, body: seq<byte>, now: nat, env: Env): Step
  {
    if command == AbortWa then Step(Release(s), Tell(s, RxAborted), Ok)
    else if Opens(command) then
      Step(s.(payload := [], capacity := 0, offset := 0, mode := ModeOf(command), lastMs := now),
           NO_OUTPUT.(frame := if command == Start && s.local != DEVICE_ALL then Some(ToPeer(own, s, Ack)) else None),
           Ok)
    else if command == Data || command == DataWa then
      var (grown, result) := Append(s, maxSize, body, env.allocOk);
      if result != Ok then
        Step(Release(s),
             Tell(s, RxAborted).(frame := if command == Data then Some(ToPeer(own, s, AbortWa)) else None), result)
      else
        Step(grown.(lastMs := now),
             NO_OUTPUT.(frame := if command == Data then Some(ToPeer(own, s, Ack)) else None), Ok)
    else if command == End || command == EndWa then FinishRx(own, s, command, env)
    else
      Step(Release(s), Tell(s, RxAborted).(frame := Some(ToPeer(own, s, AbortWa))), UnexpectedCommand)
  }

  // ---------------------------------------------------------------- entry points

  /** A context after a call, with what the call put out and returned. */
  datatype Outcome = Outcome(ctx: Context, output: Output, result: Result)

  /** An initiator chooses among eight ids. */
  const ID_COUNT: nat := 8

  /** The id of a session without its initiator bit. */
  function Half(sid: nat): nat { sid / 2 }

  predicate Reserved(ss: seq<Session>, peer: nat, id: nat) {
    exists i :: 0 <= i < |ss| && ss[i].IsTx() && ss[i].peer == peer && Half(ss[i].sid) == id
  }

  /** The lowest id from `from` on that no transfer to `peer` holds, or 8. */
  function FreeId(ss: seq<Session>, peer: nat, from: nat): (id: nat)
    requires from <= ID_COUNT
    ensures from <= id <= ID_COUNT && (id < ID_COUNT ==> !Reserved(ss, peer, id))
    decreases ID_COUNT - from
  {
    if from == ID_COUNT || !Reserved(ss, peer, from) then from else FreeId(ss, peer, from + 1)
  }

  function OpenedTx(own: nat, mask: Mask, msg: Message, id: nat, now: nat): Session {
    var mode := if msg.to == DEVICE_ALL then WithoutAck else msg.mode;
    Session(mask, if mode == WithoutAck then TxWithoutAck else TxWaitStartAck, mode, msg.to, own,
            2 * id + InitiatorBit(own, msg.to), 0, msg.data, |msg.data|, 0, now)
  }

  function StartSend(c: Context, msg: Message, now: nat, env: Env): Outcome {
    if msg.from != c.own || msg.to > DEVICE_MAX || msg.to == c.own || |msg.data| > c.maxSize then
      Outcome(c, NO_OUTPUT, if |msg.data| > c.maxSize then MessageTooLarge else WrongAddress)
    else
      var slot := FindFree(c.sessions, msg.to);
      var id := FreeId(c.sessions, msg.to, 0);
      if slot == |c.sessions| || id == ID_COUNT then Outcome(c, NO_OUTPUT, NoFreeSession)
      else if |msg.data| > 0 && !env.allocOk then
        Outcome(c.(sessions := c.sessions[slot := Release(c.sessions[slot])]), NO_OUTPUT, CantAllocate)
      else
        var s := OpenedTx(c.own, c.sessions[slot].mask, msg, id, now);
        var command := if s.mode == WithoutAck then StartWa else Start;
        Outcome(c.(sessions := c.sessions[slot := s]),
                Output(Some(ToPeer(c.own, s, command)), None, NoEvent, s.peer, s.sid), Ok)
  }

  function OpenedRx(mask: Mask, h: Header, command: Command, now: nat): Session {
    Session(mask, Rx, ModeOf(command), h.from, h.to, h.sid, 0, [], 0, 0, now)
  }

  /** The session a frame belongs to, after a START has been given a free slot. */
  function Lookup(c: Context, h: Header, command: Command, now: nat): (r: (seq<Session>, nat))
    ensures |r.0| == |c.sessions|
  {
    var found := FindSession(c.sessions, Key(h.from, h.to, h.sid));
    if found < |c.sessions| || !Opens(command) then (c.sessions, found)
    else
      var slot := FindFree(c.sessions, h.from);
      if slot == |c.sessions| then (c.sessions, slot)
      else (c.sessions[slot := OpenedRx(c.sessions[slot].mask, h, command, now)], slot)
  }

  predicate Addressed(c: Context, h: Header) {
    (h.to == c.own || h.to == DEVICE_ALL) && SourceValid(h.from)
  }

  function Handle(c: Context, s: Session, command: Command, body: seq<byte>, now: nat, env: Env): Step
    requires SessionOk(s, c.own, c.maxSize)
  {
    if s.IsTx() then HandleTx(c.own, c.maxSize, s, command, now)
    else HandleRx(c.own, c.maxSize, s, command, body, now, env)
  }

  function Dispatch(c: Context, h: Header, body: seq<byte>, now: nat, env: Env): Outcome
    requires ContextOk(c) && h.from <= 31 && h.sid <= 15
  {
    if !Addressed(c, h) then Outcome(c, NO_OUTPUT, WrongAddress)
    else if h.command.None? then Outcome(c, NO_OUTPUT, InvalidFrame)
    else
      var command := h.command.value;
      if h.to == DEVICE_ALL && !WithoutAckCommand(command) then Outcome(c, NO_OUTPUT, InvalidFrame)
      else
        var (sessions, i) := Lookup(c, h, command, now);
        if i == |sessions| then
          Outcome(c, NO_OUTPUT.(frame := if WithoutAckCommand(command) then None
                                         else Some(Packet(c.own, h.from, h.sid, AbortWa, []))), NoFreeSession)
        else
          var step := Handle(c, sessions[i], command, body, now, env);
          Outcome(c.(sessions := sessions[i := step.session]), step.output, step.result)
  }

  function AddFrame(c: Context, frame: Frame, now: nat, env: Env): Outcome
    requires ContextOk(c)
  {
    if frame.len > MAX_LEN then Outcome(c, NO_OUTPUT, InvalidFrame)
    else
      Dispatch(c, HeaderOf(frame.id), frame.Body(), now, env)
  }

  /** `now` and `lastMs` are readings of a 32-bit millisecond counter. */
  function Overdue(now: nat, timeoutMs: nat): Session -> bool {
    (s: Session) => s.Timed() && (now - s.lastMs) % TICKS > timeoutMs
  }

  function Unacked(): Session -> bool { (s: Session) => s.state == TxWithoutAck }

  /** One slice, or END_WA, of an unacknowledged transfer. */
  function PumpUnacked(own: nat, s: Session): Step
    requires s.offset <= |s.payload|
  {
    if s.offset < |s.payload| then
      Step(s.(offset := (s.offset + SliceLength(s)) % 0x1_0000),
           Output(Some(ToPeer(own, s, DataWa, NextSlice(s))), None, NoEvent, s.peer, s.sid), Ok)
    else
      Step(Release(s), Tell(s, TxFinished).(frame := Some(ToPeer(own, s, EndWa))), Ok)
  }

  function Process(c: Context, now: nat): Outcome
    requires ContextOk(c)
  {
    var late := First(c.sessions, Overdue(now, c.timeoutMs));
    if late < |c.sessions| then
      var s := c.sessions[late];
      Outcome(c.(sessions := c.sessions[late := Release(s)]),
              Tell(s, if s.state == Rx then RxTimeout else TxTimeout), Ok)
    else
      var i := First(c.sessions, Unacked());
      if i == |c.sessions| then Outcome(c, NO_OUTPUT, Ok)
      else
        var step := PumpUnacked(c.own, c.sessions[i]);
        Outcome(c.(sessions := c.sessions[i := step.session]), step.output, step.result)
  }
}
