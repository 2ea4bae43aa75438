/** Why nothing of a key may be in flight when it is taken, and why its sender may not
    take it for granted: three runs of two nodes with one slot each, after which a frame
    of an earlier transfer is still on its way. In the first a transfer timed out; in the
    second it was not acknowledged, and its success is reported when its END_WA is put
    out; in the third the one after a timeout succeeded, on the START of the first. */
module ImpStale {
  import opened Can
  import opened ImpCore
  import opened ImpInvariants
  import opened ImpMany
  import opened ImpNetwork
  import opened ImpReceive
  import L = ImpLink

  // ------------------------------------------------------------------- calls at a node

  function Calm(): Env { Env(true, true) }

  /** A fresh node with one slot, for `peer`. */
  ghost predicate Lone(c: Context, peer: nat) {
    && SourceValid(c.own) && SourceValid(peer) && peer != c.own && c.maxSize < 0x1_0000
    && c.sessions == [FreeSession({peer})]
  }

  function Note(c: Context, peer: nat, mode: Mode, data: seq<byte>): Message { Message(mode, c.own, peer, 0, data) }

  function Sending(c: Context, peer: nat, mode: Mode, data: seq<byte>): Session {
    OpenedTx(c.own, {peer}, Note(c, peer, mode, data), 0, 0)
  }

  /** After the END of an empty message. */
  function Waiting(c: Context, peer: nat): Session { Sending(c, peer, WithAck, []).(state := TxWaitEndAck) }

  function Listening(c: Context, peer: nat, sid: nat, start: Command): Session {
    OpenedRx({peer}, Header(c.own, peer, sid, Some(start)), start, 0)
  }

  function Bit(c: Context, peer: nat): nat { InitiatorBit(c.own, peer) }

  lemma LoneOk(c: Context, peer: nat)
    requires Lone(c, peer)
    ensures ContextOk(c) && OneSlot(c, FreeSession({peer})) == c
    ensures ContextOk(OneSlot(c, Waiting(c, peer)))
    ensures ContextOk(OneSlot(c, Sending(c, peer, WithAck, [])))
    ensures ContextOk(OneSlot(c, Sending(c, peer, WithoutAck, [])))
  {
  }

  lemma ListeningOk(c: Context, peer: nat, sid: nat, start: Command)
    requires Lone(c, peer) && sid <= 15
    ensures ContextOk(OneSlot(c, Listening(c, peer, sid, start)))
  {
  }

  lemma LoneSend(c: Context, peer: nat, mode: Mode, data: seq<byte>)
    requires Lone(c, peer) && |data| <= c.maxSize
    ensures ContextOk(c)
    ensures var start := if mode == WithAck then Start else StartWa;
            StartSend(c, Note(c, peer, mode, data), 0, Calm())
            == Outcome(OneSlot(c, Sending(c, peer, mode, data)),
                       Output(Some(Packet(c.own, peer, Bit(c, peer), start, [])), None, NoEvent, peer, Bit(c, peer)),
                       Ok)
  {
    FirstIs(c.sessions, FreeFor(peer), 0);
    assert !Reserved(c.sessions, peer, 0);
    assert c.sessions[0 := Sending(c, peer, mode, data)] == [Sending(c, peer, mode, data)];
  }

  /** A sender hears an ACK: after START it puts out END, after END it has finished. */
  lemma LoneAck(c: Context, d: Context, peer: nat, x: Session, y: Session, out: Output)
    requires Lone(c, peer) && d == OneSlot(c, x) && ContextOk(d)
    requires var end := Some(Packet(c.own, peer, Bit(c, peer), End, []));
             || (x == Sending(c, peer, WithAck, []) && y == Waiting(c, peer) && out == NO_OUTPUT.(frame := end))
             || (x == Waiting(c, peer) && y == FreeSession({peer})
                 && out == Output(None, None, TxFinished, peer, Bit(c, peer)))
    ensures var r := Perform(d, Receive(Encode(Packet(peer, c.own, Bit(c, peer), Ack, [])), 0, Calm()));
            r.ctx == OneSlot(c, y) && r.output == out
  {
    var sid := Bit(c, peer);
    Carried(d, Packet(peer, c.own, sid, Ack, []), 0, Calm());
    FirstIs(d.sessions, HasKey(Key(peer, c.own, sid)), 0);
    DispatchFound(d, Header(c.own, peer, sid, Some(Ack)), [], 0, Calm(), 0);
    assert d.sessions[0 := y] == [y];
  }

  lemma LoneTimeout(c: Context, d: Context, peer: nat, x: Session)
    requires Lone(c, peer) && d == OneSlot(c, x) && ContextOk(d) && c.timeoutMs + 1 < TICKS
    requires x == Sending(c, peer, WithAck, []) || x == Waiting(c, peer)
    ensures var r := Perform(d, Tick(c.timeoutMs + 1));
            r.ctx == c && r.output == Output(None, None, TxTimeout, peer, Bit(c, peer))
  {
    assert Overdue(c.timeoutMs + 1, c.timeoutMs)(d.sessions[0]);
    FirstIs(d.sessions, Overdue(c.timeoutMs + 1, c.timeoutMs), 0);
    assert d.sessions[0 := FreeSession({peer})] == c.sessions;
  }

  /** `process` ends an empty unacknowledged transfer at once. */
  lemma LonePump(c: Context, d: Context, peer: nat)
    requires Lone(c, peer) && d == OneSlot(c, Sending(c, peer, WithoutAck, [])) && ContextOk(d)
    ensures var r := Perform(d, Tick(0));
            && r.ctx == c
            && r.output == Output(Some(Packet(c.own, peer, Bit(c, peer), EndWa, [])), None, TxFinished, peer,
                                  Bit(c, peer))
  {
    FirstIs(d.sessions, Overdue(0, c.timeoutMs), 1);
    FirstIs(d.sessions, Unacked(), 0);
    assert d.sessions[0 := FreeSession({peer})] == c.sessions;
  }

  lemma LoneStart(c: Context, peer: nat, sid: nat, start: Command)
    requires Lone(c, peer) && sid <= 15 && Opens(start)
    ensures ContextOk(c)
    ensures var r := Perform(c, Receive(Encode(Packet(peer, c.own, sid, start, [])), 0, Calm()));
            && r.ctx == OneSlot(c, Listening(c, peer, sid, start))
            && r.output == NO_OUTPUT.(frame := if start == Start then Some(Packet(c.own, peer, sid, Ack, [])) else None)
  {
    Carried(c, Packet(peer, c.own, sid, start, []), 0, Calm());
    FirstIs(c.sessions, HasKey(Key(peer, c.own, sid)), 1);
    FirstIs(c.sessions, FreeFor(peer), 0);
    DispatchCreated(c, Header(c.own, peer, sid, Some(start)), [], 0, Calm());
    assert c.sessions[0 := Listening(c, peer, sid, start)] == [Listening(c, peer, sid, start)];
  }

  lemma LoneEnd(c: Context, d: Context, peer: nat, sid: nat, start: Command, end: Command)
    requires Lone(c, peer) && sid <= 15 && d == OneSlot(c, Listening(c, peer, sid, start)) && ContextOk(d)
    requires (start == Start && end == End) || (start == StartWa && end == EndWa)
    ensures var r := Perform(d, Receive(Encode(Packet(peer, c.own, sid, end, [])), 0, Calm()));
            && r.ctx == c && r.output.message == Some(Message(ModeOf(start), peer, c.own, sid, []))
            && r.output.frame == if end == End then Some(Packet(c.own, peer, sid, Ack, [])) else None
  {
    Carried(d, Packet(peer, c.own, sid, end, []), 0, Calm());
    FirstIs(d.sessions, HasKey(Key(peer, c.own, sid)), 0);
    DispatchFound(d, Header(c.own, peer, sid, Some(end)), [], 0, Calm(), 0);
    assert d.sessions[0 := FreeSession({peer})] == c.sessions;
  }

  // ---------------------------------------------------------------- steps of two nodes

  /** Two nodes with one slot each, for the other. */
  datatype Duo = Duo(a: Context, b: Context) {
    ghost predicate Ok() { Lone(a, b.own) && Lone(b, a.own) && a.timeoutMs + 1 < TICKS }

    function Sid(): nat { InitiatorBit(a.own, b.own) }

    function Wire(): Line { Line(a.own, b.own, Sid()) }

    function Forth(command: Command): Frame { Encode(Packet(a.own, b.own, Sid(), command, [])) }

    function Back(): Frame { Encode(Packet(b.own, a.own, Sid(), Ack, [])) }

    function Free(): Session { FreeSession({b.own}) }

    function Deaf(): Session { FreeSession({a.own}) }

    function Tx(mode: Mode, data: seq<byte> := []): Session { Sending(a, b.own, mode, data) }

    function Wait(): Session { Waiting(a, b.own) }

    function Rx(start: Command): Session { Listening(b, a.own, Sid(), start) }

    function Empty(mode: Mode, data: seq<byte> := []): Message { Note(a, b.own, mode, data) }

    ghost function At(x: Session, y: Session, toA: seq<Frame>, toB: seq<Frame>): Net {
      Net(OneSlot(a, x), OneSlot(b, y), toA, toB, [], [], [])
    }
  }

  function Posts(d: Duo, mode: Mode): Action { Action(true, SendCall(d.Empty(mode), 0, Calm())) }

  function Gets(atA: bool, i: nat := 0): Action { Action(atA, Take(i, 0, Calm())) }

  function Expires(d: Duo): Action { Action(true, TickCall(d.a.timeoutMs + 1)) }

  function Pumps(): Action { Action(true, TickCall(0)) }

  /** The step leads there, but for the records. */
  ghost predicate Leads(n: Net, st: Action, n': Net) {
    && ContextOk(n.a) && ContextOk(n.b) && ContextOk(n'.a) && ContextOk(n'.b)
    && Legal(n, st) && SameBut(Next(n, st), n')
  }

  lemma PostLeads(d: Duo, mode: Mode, y: Session, toB: seq<Frame>)
    requires d.Ok() && ContextOk(OneSlot(d.b, y))
    ensures Leads(d.At(d.Free(), y, [], toB), Posts(d, mode),
                  d.At(d.Tx(mode), y, [], toB + [d.Forth(if mode == WithAck then Start else StartWa)]))
  {
    LoneOk(d.a, d.b.own);
    LoneSend(d.a, d.b.own, mode, []);
    var op := Send(d.Empty(mode), 0, Calm());
    CalledIs(d.At(d.Free(), y, [], toB), op, [], [], Perform(d.a, op).ctx, Perform(d.a, op).output);
  }

  lemma Leading(s: Net, st: Action, n: Net, n': Net)
    requires ContextOk(s.a) && ContextOk(s.b) && n == Next(s, st) && !st.call.Hear?
    requires SameBut(n, n') && ContextOk(n'.a) && ContextOk(n'.b)
    ensures Leads(s, st, n')
  {
  }

  /** A call of `process` that puts out no frame. */
  lemma TickedIs(s: Net, now: nat, c: Context, out: Output) returns (n: Net)
    requires ContextOk(s.a) && ContextOk(s.b) && Perform(s.a, Tick(now)).ctx == c
    requires Perform(s.a, Tick(now)).output == out && out.frame == None
    ensures n == Next(s, Action(true, TickCall(now))) && SameBut(n, s.(a := c)) && ContextOk(n.a) && ContextOk(n.b)
  {
    n := Next(s, Action(true, TickCall(now)));
    CalledIs(s, Tick(now), s.toA, [], c, out);
    assert s.toB + [] == s.toB;
  }

  lemma Expired(d: Duo, c: Context, x: Session) returns (out: Output)
    requires d.Ok() && c == OneSlot(d.a, x) && (x == d.Tx(WithAck) || x == d.Wait())
    ensures ContextOk(c) && ContextOk(OneSlot(d.a, d.Free())) && out.frame == None
    ensures var r := Perform(c, Tick(d.a.timeoutMs + 1)); r.ctx == OneSlot(d.a, d.Free()) && r.output == out
  {
    LoneOk(d.a, d.b.own);
    LoneTimeout(d.a, c, d.b.own, x);
    out := Output(None, None, TxTimeout, d.b.own, Bit(d.a, d.b.own));
  }

  lemma ExpireLeads(d: Duo, x: Session, y: Session, toB: seq<Frame>)
    requires d.Ok() && ContextOk(OneSlot(d.b, y)) && (x == d.Tx(WithAck) || x == d.Wait())
    ensures Leads(d.At(x, y, [], toB), Expires(d), d.At(d.Free(), y, [], toB))
  {
    var s := d.At(x, y, [], toB);
    var out := Expired(d, s.a, x);
    var n := TickedIs(s, d.a.timeoutMs + 1, OneSlot(d.a, d.Free()), out);
    Leading(s, Expires(d), n, d.At(d.Free(), y, [], toB));
  }

  lemma PumpLeads(d: Duo, y: Session, toB: seq<Frame>)
    requires d.Ok() && ContextOk(OneSlot(d.b, y))
    ensures Leads(d.At(d.Tx(WithoutAck), y, [], toB), Pumps(), d.At(d.Free(), y, [], toB + [d.Forth(EndWa)]))
    ensures Told(d.At(d.Tx(WithoutAck), y, [], toB), TickCall(0)).event == TxFinished
  {
    LoneOk(d.a, d.b.own);
    var s := d.At(d.Tx(WithoutAck), y, [], toB);
    LonePump(d.a, s.a, d.b.own);
    CalledIs(s, Tick(0), [], [], d.a, Perform(s.a, Tick(0)).output);
  }

  lemma StartLeads(d: Duo, x: Session, start: Command, toB: seq<Frame>)
    requires d.Ok() && ContextOk(OneSlot(d.a, x)) && Opens(start)
    ensures Leads(d.At(x, d.Deaf(), [], [d.Forth(start)] + toB), Gets(false),
                  d.At(x, d.Rx(start), if start == Start then [d.Back()] else [], toB))
  {
    LoneOk(d.b, d.a.own);
    ListeningOk(d.b, d.a.own, d.Sid(), start);
    LoneStart(d.b, d.a.own, d.Sid(), start);
    var s := Swap(d.At(x, d.Deaf(), [], [d.Forth(start)] + toB));
    var op := Receive(d.Forth(start), 0, Calm());
    CalledIs(s, op, toB, [FrameKey(s.toA[0])], Perform(s.a, op).ctx, Perform(s.a, op).output);
    assert L.Without(s.toA, 0) == toB;
  }

  /** The sender hears the ACK of its START or of its END. */
  lemma AckLeads(d: Duo, y: Session, toB: seq<Frame>)
    requires d.Ok() && ContextOk(OneSlot(d.b, y))
    ensures Leads(d.At(d.Tx(WithAck), y, [d.Back()], toB), Gets(true), d.At(d.Wait(), y, [], toB + [d.Forth(End)]))
    ensures Leads(d.At(d.Wait(), y, [d.Back()], toB), Gets(true), d.At(d.Free(), y, [], toB))
    ensures Told(d.At(d.Wait(), y, [d.Back()], toB), Take(0, 0, Calm())).event == TxFinished
  {
    var peer, op := d.b.own, Receive(d.Back(), 0, Calm());
    LoneOk(d.a, peer);
    var s := d.At(d.Tx(WithAck), y, [d.Back()], toB);
    var out := NO_OUTPUT.(frame := Some(Packet(d.a.own, peer, d.Sid(), End, [])));
    LoneAck(d.a, s.a, peer, d.Tx(WithAck), d.Wait(), out);
    CalledIs(s, op, [], [FrameKey(d.Back())], OneSlot(d.a, d.Wait()), out);
    var z := d.At(d.Wait(), y, [d.Back()], toB);
    var done := Output(None, None, TxFinished, peer, d.Sid());
    LoneAck(d.a, z.a, peer, d.Wait(), d.Free(), done);
    CalledIs(z, op, [], [FrameKey(d.Back())], d.a, done);
    assert L.Without([d.Back()], 0) == [] && toB + [] == toB;
  }

  /** The receiver hears an END or END_WA, which need not be the first frame. */
  lemma EndLeads(d: Duo, x: Session, start: Command, end: Command, toB: seq<Frame>, i: nat)
    requires d.Ok() && ContextOk(OneSlot(d.a, x)) && i < |toB| && toB[i] == d.Forth(end)
    requires (start == Start && end == End) || (start == StartWa && end == EndWa)
    ensures var s := d.At(x, d.Rx(start), [], toB);
            && Leads(s, Gets(false, i), d.At(x, d.Deaf(), if end == End then [d.Back()] else [], L.Without(toB, i)))
            && Next(s, Gets(false, i)).came == [Message(ModeOf(start), d.a.own, d.b.own, d.Sid(), [])]
  {
    LoneOk(d.b, d.a.own);
    ListeningOk(d.b, d.a.own, d.Sid(), start);
    var s := Swap(d.At(x, d.Rx(start), [], toB));
    LoneEnd(d.b, s.a, d.a.own, d.Sid(), start, end);
    var op := Receive(d.Forth(end), 0, Calm());
    CalledIs(s, op, L.Without(toB, i), [FrameKey(s.toA[i])], Perform(s.a, op).ctx, Perform(s.a, op).output);
  }

  // -------------------------------------------------------------------------- the runs

  ghost predicate Reaches(s: Net, steps: seq<Action>, n: Net) {
    && ContextOk(s.a) && ContextOk(s.b) && ContextOk(n.a) && ContextOk(n.b)
    && LegalRun(s, steps) && SameBut(Run(s, steps), n)
  }

  lemma Further(s: Net, steps: seq<Action>, n: Net, st: Action, n': Net)
    requires Reaches(s, steps, n) && Leads(n, st, n')
    ensures Reaches(s, steps + [st], n')
  {
    assert (steps + [st])[..|steps|] == steps;
    RecordsOnly(Run(s, steps), n, st);
  }

  ghost function Begin(d: Duo): Net { d.At(d.Free(), d.Deaf(), [], []) }

  lemma BeginOk(d: Duo)
    requires d.Ok()
    ensures FreshNet(Begin(d)) && Reaches(Begin(d), [], Begin(d)) && Begin(d).a == d.a && Begin(d).b == d.b
  {
    LoneOk(d.a, d.b.own);
    LoneOk(d.b, d.a.own);
  }

  /** A message is sent and not acknowledged in time; the receiver is left with an empty
      reception, and an END is on its way to it. */
  ghost function TimedOut(d: Duo): seq<Action> {
    [] + [Posts(d, WithAck)] + [Gets(false)] + [Gets(true)] + [Expires(d)]
  }

  ghost function Left(d: Duo, start: Command, end: Command): Net { d.At(d.Free(), d.Rx(start), [], [d.Forth(end)]) }

  lemma ToAck(d: Duo, s: Net, steps: seq<Action>)
    requires d.Ok() && Reaches(s, steps, Begin(d))
    ensures Reaches(s, steps + [Posts(d, WithAck)] + [Gets(false)], d.At(d.Tx(WithAck), d.Rx(Start), [d.Back()], []))
  {
    LoneOk(d.a, d.b.own);
    LoneOk(d.b, d.a.own);
    PostLeads(d, WithAck, d.Deaf(), []);
    assert [] + [d.Forth(Start)] == [d.Forth(Start)] && [d.Forth(Start)] + [] == [d.Forth(Start)];
    Further(s, steps, Begin(d), Posts(d, WithAck), d.At(d.Tx(WithAck), d.Deaf(), [], [d.Forth(Start)]));
    StartLeads(d, d.Tx(WithAck), Start, []);
    Further(s, steps + [Posts(d, WithAck)], d.At(d.Tx(WithAck), d.Deaf(), [], [d.Forth(Start)]), Gets(false),
            d.At(d.Tx(WithAck), d.Rx(Start), [d.Back()], []));
  }

  lemma FromAck(d: Duo, s: Net, steps: seq<Action>)
    requires d.Ok() && Reaches(s, steps, d.At(d.Tx(WithAck), d.Rx(Start), [d.Back()], []))
    ensures Reaches(s, steps + [Gets(true)] + [Expires(d)], Left(d, Start, End))
  {
    LoneOk(d.a, d.b.own);
    ListeningOk(d.b, d.a.own, d.Sid(), Start);
    AckLeads(d, d.Rx(Start), []);
    assert [] + [d.Forth(End)] == [d.Forth(End)];
    Further(s, steps, d.At(d.Tx(WithAck), d.Rx(Start), [d.Back()], []), Gets(true),
            d.At(d.Wait(), d.Rx(Start), [], [d.Forth(End)]));
    ExpireLeads(d, d.Wait(), d.Rx(Start), [d.Forth(End)]);
    Further(s, steps + [Gets(true)], d.At(d.Wait(), d.Rx(Start), [], [d.Forth(End)]), Expires(d), Left(d, Start, End));
  }

  lemma TimedOutLeft(d: Duo)
    requires d.Ok()
    ensures Reaches(Begin(d), TimedOut(d), Left(d, Start, End))
  {
    BeginOk(d);
    ToAck(d, Begin(d), []);
    FromAck(d, Begin(d), [] + [Posts(d, WithAck)] + [Gets(false)]);
  }

  /** An unacknowledged message is put out, and the receiver has heard its START_WA; the
      last call of the sender has reported success. */
  ghost function Unheard(d: Duo): seq<Action> {
    [] + [Posts(d, WithoutAck)] + [Pumps()] + [Gets(false)]
  }

  lemma UnheardLeft(d: Duo)
    requires d.Ok()
    ensures Reaches(Begin(d), Unheard(d), Left(d, StartWa, EndWa))
  {
    var s, n1 := Begin(d), d.At(d.Tx(WithoutAck), d.Deaf(), [], [d.Forth(StartWa)]);
    var n2 := d.At(d.Free(), d.Deaf(), [], [d.Forth(StartWa), d.Forth(EndWa)]);
    BeginOk(d);
    LoneOk(d.a, d.b.own);
    LoneOk(d.b, d.a.own);
    PostLeads(d, WithoutAck, d.Deaf(), []);
    assert [] + [d.Forth(StartWa)] == [d.Forth(StartWa)];
    Further(s, [], s, Posts(d, WithoutAck), n1);
    PumpLeads(d, d.Deaf(), [d.Forth(StartWa)]);
    assert [d.Forth(StartWa)] + [d.Forth(EndWa)] == [d.Forth(StartWa), d.Forth(EndWa)];
    Further(s, [] + [Posts(d, WithoutAck)], n1, Pumps(), n2);
    StartLeads(d, d.Free(), StartWa, [d.Forth(EndWa)]);
    Further(s, [] + [Posts(d, WithoutAck)] + [Pumps()], n2, Gets(false), Left(d, StartWa, EndWa));
  }

  /** The harm: the next acknowledged message takes the key, and what is still on the way
      makes the receiver hand out an empty one instead. */
  lemma LeftAlters(d: Duo, n: Net, start: Command, end: Command, data: seq<byte>)
    requires d.Ok() && NetOk(n) && SameBut(n, Left(d, start, end)) && |data| <= d.a.maxSize
    requires (start == Start && end == End) || (start == StartWa && end == EndWa)
    ensures var msg := d.Empty(WithAck, data);
            && Accepted(n, msg, 0, Calm()) && TakenLine(n, msg, 0, Calm()) == d.Wire() && !NoAir(n, d.Wire())
            && Next(Sent(n, msg, 0, Calm()), Gets(false)).came
               == [Message(ModeOf(start), d.a.own, d.b.own, d.Sid(), [])]
  {
    var msg := d.Empty(WithAck, data);
    LoneOk(d.a, d.b.own);
    LoneSend(d.a, d.b.own, WithAck, data);
    LeftInAir(d, n, end);
    var op := Send(msg, 0, Calm());
    CalledIs(n, op, [], [], Perform(n.a, op).ctx, Perform(n.a, op).output);
    var toB := [d.Forth(end), d.Forth(Start)];
    assert [d.Forth(end)] + [d.Forth(Start)] == toB;
    assert Sent(n, msg, 0, Calm()) == d.At(d.Tx(WithAck, data), d.Rx(start), [], toB);
    EndLeads(d, d.Tx(WithAck, data), start, end, toB, 0);
  }

  lemma LeftInAir(d: Duo, n: Net, command: Command)
    requires d.Ok() && n.toB == [d.Forth(command)]
    ensures !NoAir(n, d.Wire())
  {
    HeaderOfPacked(d.a.own, d.b.own, d.Sid(), command);
    FilterOne(n.toB, FrameOn(d.Wire()));
  }

  /** After a timeout: a run from fresh nodes after which the next message sent is lost
      and an empty one handed out in its place, under the name of an acknowledged one. */
  lemma StaleFrameAlters(d: Duo, data: seq<byte>)
    requires d.Ok() && |data| <= d.a.maxSize && data != []
    ensures FreshNet(Begin(d)) && ContextOk(Begin(d).a) && ContextOk(Begin(d).b) && LegalRun(Begin(d), TimedOut(d))
    ensures var n, msg := Run(Begin(d), TimedOut(d)), d.Empty(WithAck, data);
            && Accepted(n, msg, 0, Calm()) && TakenLine(n, msg, 0, Calm()) == d.Wire() && !NoAir(n, d.Wire())
            && exists m :: Next(Sent(n, msg, 0, Calm()), Gets(false)).came == [m] && m != Meant(d.Wire(), data)
  {
    BeginOk(d);
    TimedOutLeft(d);
    ReachableNet(Begin(d), TimedOut(d));
    LeftAlters(d, Run(Begin(d), TimedOut(d)), Start, End, data);
  }

  /** After an unacknowledged transfer that has reported success: the same. */
  lemma UnheardEndAlters(d: Duo, data: seq<byte>)
    requires d.Ok() && |data| <= d.a.maxSize
    ensures FreshNet(Begin(d)) && ContextOk(Begin(d).a) && ContextOk(Begin(d).b) && LegalRun(Begin(d), Unheard(d))
    ensures Told(Run(Begin(d), [] + [Posts(d, WithoutAck)]), TickCall(0)).event == TxFinished
    ensures var n, msg := Run(Begin(d), Unheard(d)), d.Empty(WithAck, data);
            && Accepted(n, msg, 0, Calm()) && TakenLine(n, msg, 0, Calm()) == d.Wire() && !NoAir(n, d.Wire())
            && exists m :: Next(Sent(n, msg, 0, Calm()), Gets(false)).came == [m] && m != Meant(d.Wire(), data)
  {
    BeginOk(d);
    UnheardLeft(d);
    UnheardTold(d);
    ReachableNet(Begin(d), Unheard(d));
    LeftAlters(d, Run(Begin(d), Unheard(d)), StartWa, EndWa, data);
  }

  lemma UnheardTold(d: Duo)
    requires d.Ok() && ContextOk(Begin(d).a) && ContextOk(Begin(d).b)
    ensures Told(Run(Begin(d), [] + [Posts(d, WithoutAck)]), TickCall(0)).event == TxFinished
  {
    BeginOk(d);
    LoneOk(d.b, d.a.own);
    PostLeads(d, WithoutAck, d.Deaf(), []);
    Further(Begin(d), [], Begin(d), Posts(d, WithoutAck),
            d.At(d.Tx(WithoutAck), d.Deaf(), [], [] + [d.Forth(StartWa)]));
    PumpLeads(d, d.Deaf(), [] + [d.Forth(StartWa)]);
  }

  // A transfer times out with its START on the way; the next one takes the key, and the
  // receiver answers the old START. The new one runs to success on that.

  ghost function LateSuccess(d: Duo): seq<Action> {
    [] + [Posts(d, WithAck)] + [Expires(d)] + [Posts(d, WithAck)] + [Gets(false)] + [Gets(true)] + [Gets(false, 1)]
  }

  lemma ToSecond(d: Duo, s: Net, steps: seq<Action>)
    requires d.Ok() && Reaches(s, steps, Begin(d))
    ensures var start := d.Forth(Start);
            Reaches(s, steps + [Posts(d, WithAck)] + [Expires(d)] + [Posts(d, WithAck)],
                    d.At(d.Tx(WithAck), d.Deaf(), [], [start, start]))
  {
    var start := d.Forth(Start);
    var n1, n2 := d.At(d.Tx(WithAck), d.Deaf(), [], [start]), d.At(d.Free(), d.Deaf(), [], [start]);
    LoneOk(d.a, d.b.own);
    LoneOk(d.b, d.a.own);
    PostLeads(d, WithAck, d.Deaf(), []);
    assert [] + [start] == [start] && [start] + [start] == [start, start];
    Further(s, steps, Begin(d), Posts(d, WithAck), n1);
    ExpireLeads(d, d.Tx(WithAck), d.Deaf(), [start]);
    Further(s, steps + [Posts(d, WithAck)], n1, Expires(d), n2);
    PostLeads(d, WithAck, d.Deaf(), [start]);
    Further(s, steps + [Posts(d, WithAck)] + [Expires(d)], n2, Posts(d, WithAck),
            d.At(d.Tx(WithAck), d.Deaf(), [], [start, start]));
  }

  lemma ToSuccess(d: Duo, s: Net, steps: seq<Action>)
    requires d.Ok() && Reaches(s, steps, d.At(d.Tx(WithAck), d.Deaf(), [], [d.Forth(Start), d.Forth(Start)]))
    ensures Reaches(s, steps + [Gets(false)] + [Gets(true)] + [Gets(false, 1)],
                    d.At(d.Wait(), d.Deaf(), [d.Back()], [d.Forth(Start)]))
  {
    var start, end := d.Forth(Start), d.Forth(End);
    var n0 := d.At(d.Tx(WithAck), d.Deaf(), [], [start, start]);
    var n1 := d.At(d.Tx(WithAck), d.Rx(Start), [d.Back()], [start]);
    var n2 := d.At(d.Wait(), d.Rx(Start), [], [start, end]);
    LoneOk(d.a, d.b.own);
    ListeningOk(d.b, d.a.own, d.Sid(), Start);
    StartLeads(d, d.Tx(WithAck), Start, [start]);
    assert [start] + [start] == [start, start] && [start] + [end] == [start, end];
    Further(s, steps, n0, Gets(false), n1);
    AckLeads(d, d.Rx(Start), [start]);
    Further(s, steps + [Gets(false)], n1, Gets(true), n2);
    EndLeads(d, d.Wait(), Start, End, [start, end], 1);
    assert L.Without([start, end], 1) == [start];
    Further(s, steps + [Gets(false)] + [Gets(true)], n2, Gets(false, 1), d.At(d.Wait(), d.Deaf(), [d.Back()], [start]));
  }

  lemma AlmostDone(d: Duo)
    requires d.Ok()
    ensures Reaches(Begin(d), LateSuccess(d), d.At(d.Wait(), d.Deaf(), [d.Back()], [d.Forth(Start)]))
  {
    BeginOk(d);
    ToSecond(d, Begin(d), []);
    ToSuccess(d, Begin(d), [] + [Posts(d, WithAck)] + [Expires(d)] + [Posts(d, WithAck)]);
  }

  /** After an acknowledged transfer that has reported success, if one before it timed
      out: a START is still in flight, and the next message is not safe. */
  lemma SuccessIsNotEnough(d: Duo, data: seq<byte>)
    requires d.Ok() && |data| <= d.a.maxSize
    ensures FreshNet(Begin(d)) && ContextOk(Begin(d).a) && ContextOk(Begin(d).b)
    ensures LegalRun(Begin(d), LateSuccess(d) + [Gets(true)])
    ensures Told(Run(Begin(d), LateSuccess(d)), Take(0, 0, Calm())).event == TxFinished
    ensures var n, msg := Run(Begin(d), LateSuccess(d) + [Gets(true)]), d.Empty(WithAck, data);
            && Accepted(n, msg, 0, Calm()) && TakenLine(n, msg, 0, Calm()) == d.Wire() && !NoAir(n, d.Wire())
            && !SafeThroughout(Sent(n, msg, 0, Calm()), d.Wire(), data)
  {
    BeginOk(d);
    AlmostDone(d);
    LastAck(d);
    ReachableNet(Begin(d), LateSuccess(d) + [Gets(true)]);
    var n, msg := Run(Begin(d), LateSuccess(d) + [Gets(true)]), d.Empty(WithAck, data);
    LoneSend(d.a, d.b.own, WithAck, data);
    LeftInAir(d, n, Start);
    ManyTransfers(n, msg, 0, Calm());
  }

  lemma LastAck(d: Duo)
    requires d.Ok() && Reaches(Begin(d), LateSuccess(d), d.At(d.Wait(), d.Deaf(), [d.Back()], [d.Forth(Start)]))
    ensures Reaches(Begin(d), LateSuccess(d) + [Gets(true)], d.At(d.Free(), d.Deaf(), [], [d.Forth(Start)]))
    ensures Told(Run(Begin(d), LateSuccess(d)), Take(0, 0, Calm())).event == TxFinished
  {
    LoneOk(d.a, d.b.own);
    LoneOk(d.b, d.a.own);
    AckLeads(d, d.Deaf(), [d.Forth(Start)]);
    Further(Begin(d), LateSuccess(d), d.At(d.Wait(), d.Deaf(), [d.Back()], [d.Forth(Start)]), Gets(true),
            d.At(d.Free(), d.Deaf(), [], [d.Forth(Start)]));
  }
}
