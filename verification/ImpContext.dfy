/** The protocol as it runs: a table of session objects updated in place, proved
    to perform exactly the steps of ImpCore. */
module ImpContext {
  import opened Can
  import opened ImpCore
  import opened ImpInvariants

  /** The output record a call clears and fills. */
  class Output {
    var frameReady: bool
    var frame: Frame
    var received: Option<Message>
    var event: Event
    var peer: nat
    var sid: nat

    constructor ()
      ensures Shows(NO_OUTPUT)
    {
      frameReady, frame := false, Frame(0, false, 0, [0, 0, 0, 0, 0, 0, 0, 0]);
      received, event, peer, sid := None, NoEvent, 0, 0;
    }

    /** The record holds the bits of this output. */
    ghost predicate Shows(o: ImpCore.Output)
      reads this
    {
      && (frameReady <==> o.frame.Some?)
      && (frameReady ==> |o.frame.value.body| <= MAX_LEN && frame == Encode(o.frame.value))
      && received == o.message && event == o.event && peer == o.peer && sid == o.sid
    }

    method Clear()
      modifies this
      ensures Shows(NO_OUTPUT)
    {
      frameReady, frame := false, Frame(0, false, 0, [0, 0, 0, 0, 0, 0, 0, 0]);
      received, event, peer, sid := None, NoEvent, 0, 0;
    }

    method SetFrame(own: nat, to: nat, session: nat, command: Command, body: seq<byte>, ghost o: ImpCore.Output)
      requires |body| <= MAX_LEN && Shows(o)
      modifies this
      ensures Shows(o.(frame := Some(Packet(own, to, session, command, body))))
    {
      frameReady := true;
      frame := MakeFrame(CanIdCreate(own, to, session, command), body);
    }

    method SetEvent(e: Event, peerAddress: nat, session: nat, ghost o: ImpCore.Output)
      requires Shows(o)
      modifies this
      ensures Shows(o.(event := e, peer := peerAddress, sid := session))
    {
      event, peer, sid := e, peerAddress, session;
    }
  }

  /** One entry of the session table; it owns its payload buffer. */
  class Session {
    const mask: Mask
    var state: State
    var mode: Mode
    var peer: nat
    var local: nat
    var sid: nat
    var lastLength: nat
    var payload: array?<byte>
    var size: nat
    var capacity: nat
    var offset: nat
    var lastMs: nat

    constructor (mask: Mask)
      ensures Valid() && View() == FreeSession(mask) && payload == null
    {
      this.mask := mask;
      state, mode, peer, local, sid, lastLength := Free, WithAck, 0, 0, 0, 0;
      payload, size, capacity, offset, lastMs := null, 0, 0, 0, 0;
    }

    ghost predicate Valid()
      reads this
    {
      if payload == null then size == 0 && capacity == 0 else payload.Length == capacity && size <= capacity
    }

    ghost function Data(): seq<byte>
      reads this, payload
      requires Valid()
    {
      if payload == null then [] else payload[..size]
    }

    lemma SliceOfData(i: nat, j: nat)
      requires Valid() && payload != null && i <= j <= size
      ensures payload[i..j] == Data()[i..j]
    {
    }

    ghost function View(): ImpCore.Session
      reads this, payload
      requires Valid()
    {
      ImpCore.Session(mask, state, mode, peer, local, sid, lastLength, Data(), capacity, offset, lastMs)
    }

    /** The buffer is dropped and the record cleared, except for its mask. */
    method Release()
      requires Valid()
      modifies this
      ensures Valid() && View() == ImpCore.Release(old(View())) && payload == null
    {
      payload := null;
      state, mode, peer, local, sid, lastLength := Free, WithAck, 0, 0, 0, 0;
      size, capacity, offset, lastMs := 0, 0, 0, 0;
    }

    /** The cleared record becomes a reception. */
    method OpenRx(h: Header, command: Command, now: nat)
      requires Valid() && View() == FreeSession(mask) && payload == null
      modifies this
      ensures Valid() && View() == OpenedRx(mask, h, command, now) && payload == null
    {
      state, mode := Rx, if command == Start then WithAck else WithoutAck;
      peer, local, sid, lastMs := h.from, h.to, h.sid, now;
    }

    /** The cleared record becomes a transfer of `msg`, if its copy can be allocated. */
    method OpenTx(own: nat, msg: Message, id: nat, now: nat, allocOk: bool) returns (ok: bool)
      requires Valid() && View() == FreeSession(mask) && payload == null
      modifies this
      ensures Valid() && ok == (|msg.data| == 0 || allocOk) && (payload == null || fresh(payload))
      ensures View() == if ok then OpenedTx(own, mask, msg, id, now) else FreeSession(mask)
    {
      peer, local := msg.to, own;
      sid := 2 * id + if own > msg.to then 1 else 0;
      mode := if msg.to == DEVICE_ALL then WithoutAck else msg.mode;
      lastMs := now;
      ok := CopyPayload(msg.data, allocOk);
      if !ok {
        Release();
        return;
      }
      state := if mode == WithoutAck then TxWithoutAck else TxWaitStartAck;
    }

    /** One slice, or END_WA, of an unacknowledged transfer. */
    method Pump(own: nat, output: Output)
      requires Valid() && offset <= size && size < 0x1_0000 && output.Shows(NO_OUTPUT)
      modifies this, output
      ensures Valid() && (payload == old(payload) || payload == null)
      ensures var step := PumpUnacked(own, old(View()));
              View() == step.session && output.Shows(step.output)
    {
      if offset < size {
        var length := if size - offset > MAX_LEN then MAX_LEN else size - offset;
        var body := payload[offset..offset + length];
        SliceOfData(offset, offset + length);
        output.SetFrame(own, peer, sid, DataWa, body, NO_OUTPUT);
        offset := (offset + length) % 0x1_0000;
        output.peer, output.sid := peer, sid;
        return;
      }
      Finish(own, TxFinished, Some(EndWa), output, NO_OUTPUT);
    }

    /** False when the allocation fails; the session is then as it was. */
    method CopyPayload(data: seq<byte>, allocOk: bool) returns (ok: bool)
      requires Valid() && payload == null
      modifies this
      ensures Valid() && ok == (|data| == 0 || allocOk)
      ensures View() == if ok then old(View()).(payload := data, capacity := |data|) else old(View())
      ensures payload == null || fresh(payload)
    {
      if |data| == 0 { return true; }
      if !allocOk { return false; }
      var buffer := new byte[|data|](i requires 0 <= i < |data| => data[i]);
      payload, size, capacity := buffer, |data|, |data|;
      assert payload[..size] == data;
      return true;
    }

    method Append(maxSize: nat, data: seq<byte>, allocOk: bool) returns (r: Result)
      requires Valid() && |data| <= MAX_LEN
      modifies this, payload
      ensures Valid() && (View(), r) == ImpCore.Append(old(View()), maxSize, data, allocOk)
      ensures payload == old(payload) || (payload != null && fresh(payload))
    {
      var required := size + |data|;
      if required > maxSize { return MessageTooLarge; }
      if |data| == 0 { return Ok; }
      if required > capacity {
        if !allocOk { return CantAllocate; }
        Reallocate(required, maxSize);
      }
      ghost var was := Data();
      forall k | size <= k < size + |data| { payload[k] := data[k - size]; }
      size := required;
      assert payload[..size] == was + data;
      return Ok;
    }

    /** The buffer moves to one of the next capacity and keeps its contents. */
    method Reallocate(required: nat, maxSize: nat)
      requires Valid() && capacity < required <= maxSize
      modifies this
      ensures Valid() && payload != null && fresh(payload)
      ensures View() == old(View()).(capacity := NextCapacity(old(capacity), required, maxSize))
      ensures required <= capacity && size == old(size)
    {
      var grown := if capacity != 0 then capacity * 2 else INITIAL_CAPACITY;
      if grown < required { grown := required; }
      if grown > maxSize { grown := maxSize; }
      var held := if payload == null then [] else payload[..size];
      var buffer := new byte[grown](i => if 0 <= i < |held| then held[i] else 0);
      assert buffer[..size] == held;
      payload, capacity := buffer, grown;
    }

    method EmitNextAcked(own: nat, now: nat, output: Output)
      requires Valid() && offset <= size && output.Shows(NO_OUTPUT)
      modifies this, output
      ensures Valid() && payload == old(payload)
      ensures var step := ImpCore.EmitNextAcked(own, old(View()), now);
              View() == step.session && output.Shows(step.output)
    {
      if offset < size {
        var length := if size - offset > MAX_LEN then MAX_LEN else size - offset;
        var body := payload[offset..offset + length];
        SliceOfData(offset, offset + length);
        lastLength, state, lastMs := length, TxWaitDataAck, now;
        output.SetFrame(own, peer, sid, Command.Data, body, NO_OUTPUT);
      } else {
        state, lastMs := TxWaitEndAck, now;
        output.SetFrame(own, peer, sid, End, [], NO_OUTPUT);
      }
    }

    method ResendAcked(own: nat, now: nat, output: Output)
      requires Valid() && output.Shows(NO_OUTPUT)
      requires state == TxWaitDataAck ==> payload != null && offset + lastLength <= size && lastLength <= MAX_LEN
      modifies this, output
      ensures Valid() && payload == old(payload)
      ensures var step := ImpCore.ResendAcked(own, old(View()), now);
              View() == step.session && output.Shows(step.output)
    {
      lastMs := now;
      if state == TxWaitStartAck {
        output.SetFrame(own, peer, sid, Start, [], NO_OUTPUT);
      } else if state == TxWaitDataAck {
        var body := payload[offset..offset + lastLength];
        SliceOfData(offset, offset + lastLength);
        output.SetFrame(own, peer, sid, Command.Data, body, NO_OUTPUT);
      }
    }

    /** Report `e`, answer with `reply` if there is one, and free the session. */
    method Finish(own: nat, e: Event, reply: Option<Command>, output: Output, ghost o: ImpCore.Output)
      requires Valid() && output.Shows(o) && o.frame == None
      modifies this, output
      ensures Valid() && View() == ImpCore.Release(old(View())) && payload == null
      ensures output.Shows(o.(event := e, peer := old(peer), sid := old(sid),
                              frame := if reply == None then None
                                       else Some(Packet(own, old(peer), old(sid), reply.value, []))))
    {
      ghost var shown := o;
      if reply.Some? {
        output.SetFrame(own, peer, sid, reply.value, [], o);
        shown := o.(frame := Some(Packet(own, peer, sid, reply.value, [])));
      }
      output.SetEvent(e, peer, sid, shown);
      Release();
    }

    method HandleTx(own: nat, ghost maxSize: nat, command: Command, now: nat, output: Output) returns (r: Result)
      requires Valid() && View().IsTx() && SessionOk(View(), own, maxSize) && maxSize < 0x1_0000
      requires output.Shows(NO_OUTPUT)
      modifies this, output
      ensures Valid() && (payload == old(payload) || payload == null)
      ensures var step := ImpCore.HandleTx(own, maxSize, old(View()), command, now);
              View() == step.session && output.Shows(step.output) && r == step.result
    {
      if command == AbortWa {
        Finish(own, TxAborted, None, output, NO_OUTPUT);
        return Ok;
      }
      if command == Nack {
        if state == TxWaitStartAck || state == TxWaitDataAck {
          ResendAcked(own, now, output);
          return Ok;
        }
        Finish(own, TxAborted, None, output, NO_OUTPUT);
        return MessageRejected;
      }
      if command != Ack {
        Finish(own, TxAborted, Some(AbortWa), output, NO_OUTPUT);
        return UnexpectedCommand;
      }
      r := HandleAck(own, maxSize, now, output);
    }

    method HandleAck(own: nat, ghost maxSize: nat, now: nat, output: Output) returns (r: Result)
      requires Valid() && View().IsTx() && SessionOk(View(), own, maxSize) && maxSize < 0x1_0000
      requires output.Shows(NO_OUTPUT)
      modifies this, output
      ensures Valid() && (payload == old(payload) || payload == null)
      ensures var step := ImpCore.HandleTx(own, maxSize, old(View()), Ack, now);
              View() == step.session && output.Shows(step.output) && r == step.result
    {
      AckIs(own, maxSize, View(), now);
      if state == TxWaitStartAck {
        EmitNextAcked(own, now, output);
        return Ok;
      }
      if state == TxWaitDataAck {
        Advance(own, now, output);
        return Ok;
      }
      if state == TxWaitEndAck {
        Finish(own, TxFinished, None, output, NO_OUTPUT);
        return Ok;
      }
      return UnexpectedCommand;
    }

    /** The slice sent last has arrived; on with the next. */
    method Advance(own: nat, now: nat, output: Output)
      requires Valid() && offset + lastLength <= size < 0x1_0000 && output.Shows(NO_OUTPUT)
      modifies this, output
      ensures Valid() && payload == old(payload)
      ensures var s := old(View());
              var step := ImpCore.EmitNextAcked(own, s.(offset := s.offset + s.lastLength), now);
              View() == step.session && output.Shows(step.output)
    {
      ghost var s := View();
      offset := (offset + lastLength) % 0x1_0000;
      assert View() == s.(offset := s.offset + s.lastLength);
      EmitNextAcked(own, now, output);
    }

    method FinishRx(own: nat, command: Command, env: Env, output: Output) returns (r: Result)
      requires Valid() && output.Shows(NO_OUTPUT)
      modifies this, output
      ensures Valid() && payload == null
      ensures var step := ImpCore.FinishRx(own, old(View()), command, env);
              View() == step.session && output.Shows(step.output) && r == step.result
    {
      if !env.accept {
        Finish(own, RxAborted, if command == End then Some(Nack) else None, output, NO_OUTPUT);
        return MessageRejected;
      }
      if !env.allocOk {
        Finish(own, RxAborted, if command == End then Some(AbortWa) else None, output, NO_OUTPUT);
        return CantAllocate;
      }
      var message := Message(if local == DEVICE_ALL then WithoutAck else mode, peer, local, sid,
                             if payload == null then [] else payload[..size]);
      output.received := Some(message);
      Finish(own, RxFinished, if command == End then Some(Ack) else None, output, NO_OUTPUT.(message := Some(message)));
      return Ok;
    }

    method HandleRx(own: nat, maxSize: nat, command: Command, body: seq<byte>, now: nat, env: Env, output: Output)
      returns (r: Result)
      requires Valid() && |body| <= MAX_LEN && output.Shows(NO_OUTPUT)
      modifies this, payload, output
      ensures Valid() && (payload == old(payload) || payload == null || fresh(payload))
      ensures var step := ImpCore.HandleRx(own, maxSize, old(View()), command, body, now, env);
              View() == step.session && output.Shows(step.output) && r == step.result
    {
      if command == AbortWa {
        Finish(own, RxAborted, None, output, NO_OUTPUT);
        return Ok;
      }
      if command == Start || command == StartWa {
        payload, size, capacity, offset := null, 0, 0, 0;
        mode, lastMs := if command == Start then WithAck else WithoutAck, now;
        if command == Start && local != DEVICE_ALL { output.SetFrame(own, peer, sid, Ack, [], NO_OUTPUT); }
        return Ok;
      }
      if command == Command.Data || command == DataWa {
        r := HandleData(own, maxSize, command, body, now, env, output);
        return r;
      }
      if command == End || command == EndWa {
        r := FinishRx(own, command, env, output);
        return r;
      }
      Finish(own, RxAborted, Some(AbortWa), output, NO_OUTPUT);
      return UnexpectedCommand;
    }

    method HandleData(own: nat, maxSize: nat, command: Command, body: seq<byte>, now: nat, env: Env, output: Output)
      returns (r: Result)
      requires Valid() && |body| <= MAX_LEN && output.Shows(NO_OUTPUT) && (command == Command.Data || command == DataWa)
      modifies this, payload, output
      ensures Valid() && (payload == old(payload) || payload == null || fresh(payload))
      ensures var step := ImpCore.HandleRx(own, maxSize, old(View()), command, body, now, env);
              View() == step.session && output.Shows(step.output) && r == step.result
    {
      AppendKeeps(View(), maxSize, body, env.allocOk);
      r := Append(maxSize, body, env.allocOk);
      if r != Ok {
        Finish(own, RxAborted, if command == Command.Data then Some(AbortWa) else None, output, NO_OUTPUT);
        return r;
      }
      lastMs := now;
      if command == Command.Data { output.SetFrame(own, peer, sid, Ack, [], NO_OUTPUT); }
      return Ok;
    }
  }

  datatype Config = Config(own: nat, maxSessions: nat, maxSize: nat, timeoutMs: nat, masks: seq<Mask>)

  const DEFAULT_MAX_SESSIONS: nat := 8
  const DEFAULT_MAX_MESSAGE_SIZE: nat := 200
  const DEFAULT_SESSION_TIMEOUT_MS: nat := 1000

  class Context {
    const own: nat
    const maxSize: nat
    const timeoutMs: nat
    const sessions: seq<Session>
    /** The value this table represents. */
    ghost var model: ImpCore.Context

    /** Takes over a table of empty sessions. */
    constructor (config: Config, sessions: seq<Session>)
      requires SourceValid(config.own) && config.maxSize < 0x1_0000
      requires forall i :: 0 <= i < |sessions| ==>
                 && sessions[i].Valid() && sessions[i].payload == null
                 && sessions[i].View() == FreeSession(sessions[i].mask)
      requires forall i, j :: 0 <= i < j < |sessions| ==> sessions[i] != sessions[j]
      ensures Valid() && this.sessions == sessions && Fresh(model)
      ensures own == config.own
      ensures timeoutMs == (if config.timeoutMs != 0 then config.timeoutMs else 1000)
      ensures maxSize == (if config.maxSize != 0 then config.maxSize else 200)
    {
      own := config.own;
      maxSize := if config.maxSize != 0 then config.maxSize else DEFAULT_MAX_MESSAGE_SIZE;
      timeoutMs := if config.timeoutMs != 0 then config.timeoutMs else DEFAULT_SESSION_TIMEOUT_MS;
      this.sessions := sessions;
      model := ImpCore.Context(config.own, if config.maxSize != 0 then config.maxSize else DEFAULT_MAX_MESSAGE_SIZE,
                               if config.timeoutMs != 0 then config.timeoutMs else DEFAULT_SESSION_TIMEOUT_MS,
                               seq(|sessions|, i requires 0 <= i < |sessions| => FreeSession(sessions[i].mask)));
    }

    ghost function Buffers(): set<object>
      reads this, sessions
    {
      set i | 0 <= i < |sessions| && sessions[i].payload != null :: sessions[i].payload
    }

    /** Sessions are different objects with different buffers, and together they
        are the modelled table, which keeps the protocol's invariant. */
    ghost predicate Valid()
      reads this, sessions, Buffers()
    {
      && ContextOk(model)
      && model.own == own && model.maxSize == maxSize && model.timeoutMs == timeoutMs
      && |model.sessions| == |sessions|
      && (forall i :: 0 <= i < |sessions| ==> sessions[i].Valid() && sessions[i].View() == model.sessions[i])
      && (forall i, j :: 0 <= i < j < |sessions| ==> sessions[i] != sessions[j])
      && (forall i, j :: 0 <= i < j < |sessions| && sessions[i].payload != null ==>
           sessions[i].payload != sessions[j].payload)
    }

    /** Changing one session and nothing else keeps the table valid, if the
        session kept its buffer, dropped it or took a new one. */
    twostate lemma Updated(i: nat)
      requires old(Valid()) && i < |sessions|
      requires forall j :: 0 <= j < |sessions| && j != i ==> unchanged(sessions[j])
      requires forall j :: 0 <= j < |sessions| && j != i && sessions[j].payload != null ==>
                 unchanged(sessions[j].payload)
      requires sessions[i].payload == null || sessions[i].payload == old(sessions[i].payload)
               || fresh(sessions[i].payload)
      requires sessions[i].Valid() && ContextOk(model)
      requires model == old(model).(sessions := old(model).sessions[i := sessions[i].View()])
      ensures Valid()
      ensures forall b :: b in Buffers() ==> b in old(Buffers()) || fresh(b)
      ensures sessions[i].payload == null || sessions[i].payload == old(sessions[i].payload) ==>
                Buffers() <= old(Buffers())
    {
      assert forall j :: 0 <= j < |sessions| && j != i ==> sessions[j].View() == old(sessions[j].View());
    }

    method FindSession(k: Key) returns (i: nat)
      requires Valid()
      ensures i == ImpCore.FindSession(model.sessions, k)
    {
      i := 0;
      while i < |sessions|
        invariant 0 <= i <= |sessions|
        invariant forall j :: 0 <= j < i ==> !HasKey(k)(model.sessions[j])
      {
        var s := sessions[i];
        assert s.View() == model.sessions[i];
        if s.state != Free && s.peer == k.peer && s.local == k.local && s.sid == k.sid {
          break;
        }
        i := i + 1;
      }
      FirstIs(model.sessions, HasKey(k), i);
    }

    method FindFree(peer: nat) returns (i: nat)
      requires Valid()
      ensures i == ImpCore.FindFree(model.sessions, peer)
    {
      i := 0;
      while i < |sessions|
        invariant 0 <= i <= |sessions|
        invariant forall j :: 0 <= j < i ==> !FreeFor(peer)(model.sessions[j])
      {
        assert sessions[i].View() == model.sessions[i];
        if sessions[i].state == Free && peer in sessions[i].mask {
          break;
        }
        i := i + 1;
      }
      FirstIs(model.sessions, FreeFor(peer), i);
    }

    /** The first of the eight ids no transfer to `peer` holds, or 8. */
    method ChooseId(peer: nat) returns (id: nat)
      requires Valid()
      ensures id == FreeId(model.sessions, peer, 0)
    {
      var reserved := ReservedIds(peer);
      id := 0;
      while id < 8 && reserved[id]
        invariant 0 <= id <= 8 && FreeId(model.sessions, peer, 0) == FreeId(model.sessions, peer, id)
      {
        id := id + 1;
      }
    }

    /** For each of the eight ids, whether a transfer to `peer` holds it. */
    method ReservedIds(peer: nat) returns (reserved: seq<bool>)
      requires Valid()
      ensures |reserved| == 8 && forall k :: 0 <= k < 8 ==> (reserved[k] <==> Reserved(model.sessions, peer, k))
    {
      reserved := seq(8, _ => false);
      var i := 0;
      while i < |sessions|
        invariant 0 <= i <= |sessions|
        invariant |reserved| == 8 && forall k :: 0 <= k < 8 ==>
                    (reserved[k] <==> Reserved(model.sessions[..i], peer, k))
      {
        var s := sessions[i];
        assert s.View() == model.sessions[i];
        ReservedNext(model.sessions, peer, i);
        if s.state != Free && s.state != Rx && s.peer == peer {
          assert SessionOk(model.sessions[i], model.own, model.maxSize);
          reserved := reserved[s.sid / 2 := true];
        }
        i := i + 1;
      }
      assert model.sessions[..i] == model.sessions;
    }

    method StartSend(msg: Message, now: nat, env: Env, output: Output) returns (r: Result)
      requires Valid()
      modifies this, sessions, output
      ensures Valid()
      ensures var s := ImpCore.StartSend(old(model), msg, now, env);
              model == s.ctx && output.Shows(s.output) && r == s.result
      ensures forall b :: b in Buffers() ==> b in old(Buffers()) || fresh(b)
    {
      output.Clear();
      SendIs(model, msg, now, env);
      if msg.from != own || msg.to > DEVICE_MAX || msg.to == own || |msg.data| > maxSize {
        return if |msg.data| > maxSize then MessageTooLarge else WrongAddress;
      }
      r := Claim(msg, now, env, output);
    }

    /** A slot and an id for a transfer to `peer`; id 8 if either is missing. */
    method Choose(peer: nat) returns (slot: nat, id: nat)
      requires Valid()
      ensures slot == ImpCore.FindFree(model.sessions, peer)
      ensures id == if slot == |sessions| then 8 else FreeId(model.sessions, peer, 0)
    {
      slot := FindFree(peer);
      id := 8;
      if slot < |sessions| { id := ChooseId(peer); }
    }

    /** A send whose arguments are in order. */
    method Claim(msg: Message, now: nat, env: Env, output: Output) returns (r: Result)
      requires Valid() && output.Shows(NO_OUTPUT) && Claiming(model, msg)
      modifies this, sessions, output
      ensures Valid()
      ensures var s := SendOutcome(old(model), msg, now, env);
              model == s.ctx && output.Shows(s.output) && r == s.result
      ensures forall b :: b in Buffers() ==> b in old(Buffers()) || fresh(b)
    {
      var slot, id := Choose(msg.to);
      if id == 8 { return NoFreeSession; }
      Claimable(model, msg, now, env);
      r := Commit(slot, id, msg, now, env, output);
    }

    method Commit(slot: nat, id: nat, msg: Message, now: nat, env: Env, output: Output) returns (r: Result)
      requires Valid() && slot < |sessions| && model.sessions[slot].state == Free && output.Shows(NO_OUTPUT)
      requires ContextOk(Claimed(model, slot, id, msg, now, env).ctx)
      modifies this, sessions, output
      ensures Valid()
      ensures var s := Claimed(old(model), slot, id, msg, now, env);
              model == s.ctx && output.Shows(s.output) && r == s.result
      ensures forall b :: b in Buffers() ==> b in old(Buffers()) || fresh(b)
    {
      var ok := Open(slot, id, msg, now, env);
      if !ok { return CantAllocate; }
      Announce(sessions[slot], output);
      return Ok;
    }

    /** The first frame of a transfer. */
    method Announce(s: Session, output: Output)
      requires s.Valid() && output.Shows(NO_OUTPUT)
      modifies output
      ensures output.Shows(ImpCore.Output(Some(ToPeer(own, s.View(), if s.mode == WithoutAck then StartWa else Start)),
                                          None, NoEvent, s.peer, s.sid))
    {
      output.SetFrame(own, s.peer, s.sid, if s.mode == WithoutAck then StartWa else Start, [], NO_OUTPUT);
      output.peer, output.sid := s.peer, s.sid;
    }

    method Open(slot: nat, id: nat, msg: Message, now: nat, env: Env) returns (ok: bool)
      requires Valid() && slot < |sessions| && model.sessions[slot].state == Free
      requires var s := if |msg.data| == 0 || env.allocOk then OpenedTx(own, sessions[slot].mask, msg, id, now)
                        else FreeSession(sessions[slot].mask);
               ContextOk(model.(sessions := model.sessions[slot := s]))
      modifies this, sessions
      ensures Valid() && ok == (|msg.data| == 0 || env.allocOk)
      ensures var s := if ok then OpenedTx(own, old(model).sessions[slot].mask, msg, id, now)
                       else ImpCore.Release(old(model).sessions[slot]);
              model == old(model).(sessions := old(model).sessions[slot := s]) && sessions[slot].View() == s
      ensures forall b :: b in Buffers() ==> b in old(Buffers()) || fresh(b)
    {
      var s := sessions[slot];
      assert s.View() == model.sessions[slot] == FreeSession(s.mask);
      s.Release();
      ok := s.OpenTx(own, msg, id, now, env.allocOk);
      model := model.(sessions := model.sessions[slot := s.View()]);
      Updated(slot);
    }

    method AddFrame(frame: Frame, now: nat, env: Env, output: Output) returns (r: Result)
      requires Valid()
      modifies this, sessions, Buffers(), output
      ensures Valid()
      ensures var s := ImpCore.AddFrame(old(model), frame, now, env);
              model == s.ctx && output.Shows(s.output) && r == s.result
      ensures forall b :: b in Buffers() ==> b in old(Buffers()) || fresh(b)
    {
      output.Clear();
      if frame.len > MAX_LEN { return InvalidFrame; }
      var h := HeaderOf(frame.id);
      if (h.to != own && h.to != DEVICE_ALL) || !SourceValid(h.from) { return WrongAddress; }
      if h.command == None { return InvalidFrame; }
      var command := h.command.value;
      if h.to == DEVICE_ALL && !WithoutAckCommand(command) { return InvalidFrame; }
      r := Dispatch(h, command, frame.Body(), now, env, output);
    }

    method Dispatch(h: Header, command: Command, body: seq<byte>, now: nat, env: Env, output: Output)
      returns (r: Result)
      requires Valid() && |body| <= MAX_LEN && h.sid <= 15 && output.Shows(NO_OUTPUT)
      requires h.command == Some(command) && Addressed(model, h) && (h.to == DEVICE_ALL ==> WithoutAckCommand(command))
      modifies this, sessions, Buffers(), output
      ensures Valid()
      ensures var s := ImpCore.Dispatch(old(model), h, body, now, env);
              model == s.ctx && output.Shows(s.output) && r == s.result
      ensures forall b :: b in Buffers() ==> b in old(Buffers()) || fresh(b)
    {
      ghost var was := model;
      var i := Resolve(h, command, now);
      DispatchIs(was, h, body, now, env, model.sessions, i);
      if i == |sessions| {
        if !WithoutAckCommand(command) {
          output.SetFrame(own, h.from, h.sid, AbortWa, [], NO_OUTPUT);
        }
        return NoFreeSession;
      }
      r := Handle(i, command, body, now, env, output);
    }

    method Resolve(h: Header, command: Command, now: nat) returns (i: nat)
      requires Valid() && h.sid <= 15 && Addressed(model, h)
      modifies this, sessions
      ensures Valid() && Buffers() <= old(Buffers())
      ensures (model.sessions, i) == Lookup(old(model), h, command, now)
      ensures model == old(model).(sessions := model.sessions)
    {
      i := FindSession(Key(h.from, h.to, h.sid));
      if i == |sessions| && (command == Start || command == StartWa) {
        i := ResolveNew(h, command, now);
      } else {
        LookupCases(model, h, command, now);
      }
    }

    method ResolveNew(h: Header, command: Command, now: nat) returns (i: nat)
      requires Valid() && h.sid <= 15 && Addressed(model, h) && Opens(command)
      requires ImpCore.FindSession(model.sessions, Key(h.from, h.to, h.sid)) == |model.sessions|
      modifies this, sessions
      ensures Valid() && Buffers() <= old(Buffers())
      ensures (model.sessions, i) == Lookup(old(model), h, command, now)
      ensures model == old(model).(sessions := model.sessions)
    {
      LookupCases(model, h, command, now);
      i := Admit(h, command, now);
    }

    /** A START without session gets the first free slot that accepts its sender. */
    method Admit(h: Header, command: Command, now: nat) returns (i: nat)
      requires Valid() && h.sid <= 15 && Addressed(model, h)
      modifies this, sessions
      ensures Valid() && Buffers() <= old(Buffers())
      ensures i == ImpCore.FindFree(old(model).sessions, h.from)
      ensures model == if i == |sessions| then old(model)
                       else
                         old(model).(sessions :=
                           old(model).sessions[i := OpenedRx(old(model).sessions[i].mask, h, command, now)])
    {
      i := FindFree(h.from);
      if i < |sessions| {
        assert model.sessions[i].state == Free by { assert FreeFor(h.from)(model.sessions[i]); }
        Receive(h, command, i, now);
      }
    }

    method Receive(h: Header, command: Command, i: nat, now: nat)
      requires Valid() && i < |sessions| && model.sessions[i].state == Free
      requires SourceValid(h.from) && (h.to == own || h.to == DEVICE_ALL) && h.sid <= 15
      modifies this, sessions
      ensures Valid() && Buffers() <= old(Buffers())
      ensures model == old(model).(sessions :=
                old(model).sessions[i := OpenedRx(old(model).sessions[i].mask, h, command, now)])
    {
      var s := sessions[i];
      assert s.View() == model.sessions[i] == FreeSession(s.mask);
      s.Release();
      s.OpenRx(h, command, now);
      model := model.(sessions := model.sessions[i := s.View()]);
      Updated(i);
    }

    method Handle(i: nat, command: Command, body: seq<byte>, now: nat, env: Env, output: Output) returns (r: Result)
      requires Valid() && i < |sessions| && model.sessions[i].state != Free && |body| <= MAX_LEN
      requires output.Shows(NO_OUTPUT)
      modifies this, sessions, Buffers(), output
      ensures Valid()
      ensures var step := ImpCore.Handle(old(model), old(model).sessions[i], command, body, now, env);
              && model == old(model).(sessions := old(model).sessions[i := step.session])
              && output.Shows(step.output) && r == step.result
      ensures forall b :: b in Buffers() ==> b in old(Buffers()) || fresh(b)
    {
      var s := sessions[i];
      assert s.View() == model.sessions[i];
      HandleOk(model, s.View(), command, body, now, env);
      if s.state != Rx {
        r := s.HandleTx(own, maxSize, command, now, output);
      } else {
        r := s.HandleRx(own, maxSize, command, body, now, env, output);
      }
      model := model.(sessions := model.sessions[i := s.View()]);
      Updated(i);
    }

    method FindOverdue(now: nat) returns (i: nat)
      requires Valid()
      ensures i == First(model.sessions, Overdue(now, timeoutMs))
    {
      i := 0;
      while i < |sessions|
        invariant 0 <= i <= |sessions|
        invariant forall j :: 0 <= j < i ==> !Overdue(now, timeoutMs)(model.sessions[j])
      {
        var s := sessions[i];
        assert s.View() == model.sessions[i];
        if s.state == Rx || s.state == TxWaitStartAck || s.state == TxWaitDataAck || s.state == TxWaitEndAck {
          if (now - s.lastMs) % TICKS > timeoutMs { break; }
        }
        i := i + 1;
      }
      FirstIs(model.sessions, Overdue(now, timeoutMs), i);
    }

    method Process(now: nat, output: Output) returns (r: Result)
      requires Valid()
      modifies this, sessions, output
      ensures Valid()
      ensures var s := ImpCore.Process(old(model), now);
              model == s.ctx && output.Shows(s.output) && r == s.result
      ensures Buffers() <= old(Buffers())
    {
      output.Clear();
      r := Serve(now, output);
    }

    method Serve(now: nat, output: Output) returns (r: Result)
      requires Valid() && output.Shows(NO_OUTPUT)
      modifies this, sessions, output
      ensures Valid()
      ensures var s := ImpCore.Process(old(model), now);
              model == s.ctx && output.Shows(s.output) && r == s.result
      ensures Buffers() <= old(Buffers())
    {
      r := Ok;
      var i := FindOverdue(now);
      if i < |sessions| {
        ExpireFirst(i, now, output);
      } else {
        PumpFirst(now, output);
      }
    }

    method ExpireFirst(i: nat, ghost now: nat, output: Output)
      requires Valid() && i < |sessions| && output.Shows(NO_OUTPUT)
      requires i == First(model.sessions, Overdue(now, timeoutMs))
      modifies this, sessions, output
      ensures Valid()
      ensures var s := ImpCore.Process(old(model), now); model == s.ctx && output.Shows(s.output) && s.result == Ok
      ensures Buffers() <= old(Buffers())
    {
      ExpiryIs(model, now);
      Expire(i, output);
    }

    method Expire(i: nat, output: Output)
      requires Valid() && i < |sessions| && output.Shows(NO_OUTPUT)
      modifies this, sessions, output
      ensures Valid() && Buffers() <= old(Buffers())
      ensures var s := old(model).sessions[i];
              && model == old(model).(sessions := old(model).sessions[i := ImpCore.Release(s)])
              && output.Shows(Tell(s, if s.state == Rx then RxTimeout else TxTimeout))
    {
      var s := sessions[i];
      assert s.View() == model.sessions[i];
      s.Finish(own, if s.state == Rx then RxTimeout else TxTimeout, None, output, NO_OUTPUT);
      model := model.(sessions := model.sessions[i := s.View()]);
      Updated(i);
    }

    method PumpOne(i: nat, output: Output)
      requires Valid() && i < |sessions| && model.sessions[i].state == TxWithoutAck && output.Shows(NO_OUTPUT)
      requires SessionOk(PumpUnacked(own, model.sessions[i]).session, own, maxSize)
      modifies this, sessions, output
      ensures Valid() && Buffers() <= old(Buffers())
      ensures var step := PumpUnacked(own, old(model).sessions[i]);
              && model == old(model).(sessions := old(model).sessions[i := step.session])
              && output.Shows(step.output)
    {
      var s := sessions[i];
      assert s.View() == model.sessions[i];
      s.Pump(own, output);
      model := model.(sessions := model.sessions[i := s.View()]);
      Updated(i);
    }

    method PumpFirst(ghost now: nat, output: Output)
      requires Valid() && output.Shows(NO_OUTPUT)
      requires First(model.sessions, Overdue(now, timeoutMs)) == |model.sessions|
      modifies this, sessions, output
      ensures Valid()
      ensures var s := ImpCore.Process(old(model), now); model == s.ctx && output.Shows(s.output) && s.result == Ok
      ensures Buffers() <= old(Buffers())
    {
      ghost var was := model;
      ProcessOk(was, now);
      var i := 0;
      while i < |sessions|
        invariant 0 <= i <= |sessions|
        invariant forall j :: 0 <= j < i ==> !Unacked()(was.sessions[j])
      {
        assert sessions[i].View() == was.sessions[i];
        if sessions[i].state == TxWithoutAck {
          break;
        }
        i := i + 1;
      }
      FirstIs(was.sessions, Unacked(), i);
      if i < |sessions| {
        assert ImpCore.Process(was, now).ctx.sessions[i] == PumpUnacked(own, was.sessions[i]).session;
        PumpOne(i, output);
      }
    }
  }

  /** A send that has found its slot and its id. */
  ghost function Claimed(c: ImpCore.Context, slot: nat, id: nat, msg: Message, now: nat, env: Env): Outcome
    requires slot < |c.sessions|
  {
    var s := OpenedTx(c.own, c.sessions[slot].mask, msg, id, now);
    if |msg.data| == 0 || env.allocOk then
      Outcome(c.(sessions := c.sessions[slot := s]),
              ImpCore.Output(Some(ToPeer(c.own, s, if s.mode == WithoutAck then StartWa else Start)), None, NoEvent,
                             s.peer, s.sid), Ok)
    else Outcome(c.(sessions := c.sessions[slot := ImpCore.Release(c.sessions[slot])]), NO_OUTPUT, CantAllocate)
  }

  ghost predicate Claiming(c: ImpCore.Context, msg: Message) {
    msg.from == c.own && msg.to <= DEVICE_MAX && msg.to != c.own && |msg.data| <= c.maxSize
  }

  ghost function SendOutcome(c: ImpCore.Context, msg: Message, now: nat, env: Env): Outcome {
    var slot, id := ImpCore.FindFree(c.sessions, msg.to), FreeId(c.sessions, msg.to, 0);
    if slot == |c.sessions| || id == 8 then Outcome(c, NO_OUTPUT, NoFreeSession)
    else Claimed(c, slot, id, msg, now, env)
  }

  lemma SendIs(c: ImpCore.Context, msg: Message, now: nat, env: Env)
    requires ContextOk(c)
    ensures ImpCore.StartSend(c, msg, now, env)
            == if Claiming(c, msg) then SendOutcome(c, msg, now, env)
               else Outcome(c, NO_OUTPUT, if |msg.data| > c.maxSize then MessageTooLarge else WrongAddress)
  {
  }

  lemma Claimable(c: ImpCore.Context, msg: Message, now: nat, env: Env)
    requires ContextOk(c) && Claiming(c, msg)
    requires ImpCore.FindFree(c.sessions, msg.to) < |c.sessions| && FreeId(c.sessions, msg.to, 0) < 8
    ensures var slot, id := ImpCore.FindFree(c.sessions, msg.to), FreeId(c.sessions, msg.to, 0);
            c.sessions[slot].state == Free && ContextOk(Claimed(c, slot, id, msg, now, env).ctx)
  {
    SendIs(c, msg, now, env);
    StartSendOk(c, msg, now, env);
    assert FreeFor(msg.to)(c.sessions[ImpCore.FindFree(c.sessions, msg.to)]);
  }

  lemma LookupCases(c: ImpCore.Context, h: Header, command: Command, now: nat)
    ensures var found := ImpCore.FindSession(c.sessions, Key(h.from, h.to, h.sid));
            var slot := ImpCore.FindFree(c.sessions, h.from);
            Lookup(c, h, command, now)
            == if found < |c.sessions| || !Opens(command) then (c.sessions, found)
               else if slot == |c.sessions| then (c.sessions, slot)
               else (c.sessions[slot := OpenedRx(c.sessions[slot].mask, h, command, now)], slot)
  {
  }

  lemma DispatchIs(c: ImpCore.Context, h: Header, body: seq<byte>, now: nat, env: Env, ss: seq<ImpCore.Session>, i: nat)
    requires ContextOk(c) && Addressed(c, h) && h.from <= 31 && h.sid <= 15 && h.command.Some?
    requires h.to == DEVICE_ALL ==> WithoutAckCommand(h.command.value)
    requires (ss, i) == Lookup(c, h, h.command.value, now)
    ensures i == |ss| ==>
              ImpCore.Dispatch(c, h, body, now, env)
              == Outcome(c, NO_OUTPUT.(frame := if WithoutAckCommand(h.command.value) then None
                                                else Some(Packet(c.own, h.from, h.sid, AbortWa, []))), NoFreeSession)
    ensures i == |ss| ==> ss == c.sessions
    ensures i < |ss| ==> ss[i].state != Free && SessionOk(ss[i], c.own, c.maxSize)
    ensures i < |ss| ==>
              var step := ImpCore.Handle(c, ss[i], h.command.value, body, now, env);
              ImpCore.Dispatch(c, h, body, now, env)
              == Outcome(c.(sessions := ss[i := step.session]), step.output, step.result)
  {
    LookupOk(c, h, h.command.value, now);
  }

  lemma ExpiryIs(c: ImpCore.Context, now: nat)
    requires ContextOk(c)
    ensures var late := First(c.sessions, Overdue(now, c.timeoutMs));
            late < |c.sessions| ==>
              ImpCore.Process(c, now)
              == Outcome(c.(sessions := c.sessions[late := ImpCore.Release(c.sessions[late])]),
                         Tell(c.sessions[late], if c.sessions[late].state == Rx then RxTimeout else TxTimeout), Ok)
  {
  }

  lemma ReservedNext(ss: seq<ImpCore.Session>, peer: nat, i: nat)
    requires i < |ss|
    ensures forall k :: Reserved(ss[..i + 1], peer, k)
                        <==> Reserved(ss[..i], peer, k) || (ss[i].IsTx() && ss[i].peer == peer && Half(ss[i].sid) == k)
  {
    forall k
      ensures Reserved(ss[..i + 1], peer, k)
              <==> Reserved(ss[..i], peer, k) || (ss[i].IsTx() && ss[i].peer == peer && Half(ss[i].sid) == k)
    {
      if Reserved(ss[..i], peer, k) {
        var j :| 0 <= j < i && ss[..i][j].IsTx() && ss[..i][j].peer == peer && Half(ss[..i][j].sid) == k;
        assert ss[..i + 1][j] == ss[j];
      }
      if ss[i].IsTx() && ss[i].peer == peer && Half(ss[i].sid) == k {
        assert ss[..i + 1][i] == ss[i];
      }
      if Reserved(ss[..i + 1], peer, k) {
        var j :|
          && 0 <= j < i + 1 && ss[..i + 1][j].IsTx() && ss[..i + 1][j].peer == peer
          && Half(ss[..i + 1][j].sid) == k;
        assert j < i ==> ss[..i][j] == ss[j];
      }
    }
  }

  function PeersBelow(n: nat): (m: Mask)
    ensures forall p: nat :: p in m <==> p < n
  {
    if n == 0 then {} else PeersBelow(n - 1) + {n - 1}
  }

  function AllPeers(): Mask { PeersBelow(DEVICE_MAX + 1) }

  /** A mask of 32 ones: every address a frame can carry. */
  lemma EveryPeer(peer: nat)
    ensures peer in AllPeers() <==> peer < 32
  {
  }

  /** The table `init` allocates: one empty session per slot, accepting every
      peer unless a mask was configured for it. No context for an address no
      frame could come from, nor without memory for the table. */
  method Init(config: Config, granted: bool) returns (c: Context?)
    requires config.maxSize < 0x1_0000
    ensures c != null <==> config.own < 31 && granted
    ensures c != null ==>
              && fresh(c) && c.Valid() && Fresh(c.model) && c.own == config.own
              && c.maxSize == (if config.maxSize != 0 then config.maxSize else 200)
              && c.timeoutMs == (if config.timeoutMs != 0 then config.timeoutMs else 1000)
              && |c.sessions| == (if config.maxSessions != 0 then config.maxSessions else 8)
              && forall i :: 0 <= i < |c.sessions| ==>
                   && fresh(c.sessions[i])
                   && c.sessions[i].mask == if i < |config.masks| then config.masks[i] else AllPeers()
  {
    if !SourceValid(config.own) { return null; }
    if !granted { return null; }
    var n := if config.maxSessions != 0 then config.maxSessions else DEFAULT_MAX_SESSIONS;
    var table: seq<Session> := [];
    while |table| < n
      invariant |table| <= n
      invariant forall i :: 0 <= i < |table| ==>
                  && fresh(table[i]) && table[i].Valid() && table[i].payload == null
                  && table[i].mask == (if i < |config.masks| then config.masks[i] else AllPeers())
                  && table[i].View() == FreeSession(table[i].mask)
      invariant forall i, j :: 0 <= i < j < |table| ==> table[i] != table[j]
    {
      var s := new Session(if |table| < |config.masks| then config.masks[|table|] else AllPeers());
      table := table + [s];
    }
    c := new Context(config, table);
  }
}
