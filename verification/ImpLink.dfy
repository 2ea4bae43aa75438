/** One acknowledged transfer between two fresh nodes over a channel that may
    delay, reorder or drop frames but never duplicates them, with `process`
    called on either side at any time and any allocation or validation outcome. */
module ImpLink {
  import opened Can
  import opened ImpCore
  import opened ImpInvariants
  import ImpProcess
  import opened ImpReceive
  import opened ImpSender

  /** Both nodes, the frames on their way to each, the messages handed to either
      application, how often the sender reported success, and how many frames
      have been handled. */
  datatype Link = Link(a: Context, b: Context, toA: seq<Frame>, toB: seq<Frame>,
                       delivered: seq<Message>, finished: nat, handled: nat)

  datatype Move = DeliverA(i: nat, now: nat, env: Env) | DeliverB(i: nat, now: nat, env: Env)
                | LoseA(i: nat) | LoseB(i: nat)
                | TickA(now: nat) | TickB(now: nat)

  ghost predicate Fits(out: Output) { out.frame.Some? ==> |out.frame.value.body| <= MAX_LEN }

  /** Nothing the protocol emits is longer than a frame. */
  lemma OutputFits(c: Context, op: Op)
    requires ContextOk(c)
    ensures Fits(Perform(c, op).output)
  {
    match op
    case Send(msg, now, env) => SendEffect(c, msg, now, env);
    case Receive(frame, now, env) =>
      if frame.len <= MAX_LEN {
        var h := HeaderOf(frame.id);
        if For(c.own, op, Key(h.from, h.to, h.sid)) {
          var i := FindSession(c.sessions, Key(h.from, h.to, h.sid));
          if i < |c.sessions| {
            DispatchFound(c, h, frame.Body(), now, env, i);
            HandleFits(c, c.sessions[i], h.command.value, frame.Body(), now, env);
          } else if Opens(h.command.value) && FindFree(c.sessions, h.from) < |c.sessions| {
            DispatchCreated(c, h, frame.Body(), now, env);
          }
        }
      }
    case Tick(now) =>
  }

  lemma HandleFits(c: Context, s: Session, command: Command, body: seq<byte>, now: nat, env: Env)
    requires SessionOk(s, c.own, c.maxSize)
    ensures Fits(Handle(c, s, command, body, now, env).output)
  {
  }

  function OnAir(out: Output): (f: seq<Frame>)
    requires Fits(out)
    ensures |f| <= 1
  {
    if out.frame.Some? then [Encode(out.frame.value)] else []
  }

  function Handed(out: Output): seq<Message> {
    if out.message.Some? then [out.message.value] else []
  }

  function Reports(out: Output): nat { if out.event == TxFinished then 1 else 0 }

  function Without<T>(s: seq<T>, i: nat): seq<T>
    requires i < |s|
  {
    s[..i] + s[i + 1..]
  }

  function AtA(l: Link, op: Op, toA: seq<Frame>, handled: nat): (r: Link)
    requires ContextOk(l.a) && ContextOk(l.b)
    ensures ContextOk(r.a) && ContextOk(r.b)
  {
    PerformOk(l.a, op);
    OutputFits(l.a, op);
    var r := Perform(l.a, op);
    Link(r.ctx, l.b, toA, l.toB + OnAir(r.output), l.delivered + Handed(r.output),
         l.finished + Reports(r.output), handled)
  }

  function AtB(l: Link, op: Op, toB: seq<Frame>, handled: nat): (r: Link)
    requires ContextOk(l.a) && ContextOk(l.b)
    ensures ContextOk(r.a) && ContextOk(r.b)
  {
    PerformOk(l.b, op);
    OutputFits(l.b, op);
    var r := Perform(l.b, op);
    Link(l.a, r.ctx, l.toA + OnAir(r.output), toB, l.delivered + Handed(r.output),
         l.finished + Reports(r.output), handled)
  }

  lemma AtAIs(l: Link, op: Op, toA: seq<Frame>, handled: nat, c: Context, out: Output)
    requires ContextOk(l.a) && ContextOk(l.b) && Perform(l.a, op).ctx == c && Perform(l.a, op).output == out
    ensures Fits(out)
    ensures AtA(l, op, toA, handled)
            == Link(c, l.b, toA, l.toB + OnAir(out), l.delivered + Handed(out), l.finished + Reports(out), handled)
  {
    OutputFits(l.a, op);
  }

  lemma AtBIs(l: Link, op: Op, toB: seq<Frame>, handled: nat, c: Context, out: Output)
    requires ContextOk(l.a) && ContextOk(l.b) && Perform(l.b, op).ctx == c && Perform(l.b, op).output == out
    ensures Fits(out)
    ensures AtB(l, op, toB, handled)
            == Link(l.a, c, l.toA + OnAir(out), toB, l.delivered + Handed(out), l.finished + Reports(out), handled)
  {
    OutputFits(l.b, op);
  }

  /** A move naming a frame that is not there does nothing. */
  function Next(l: Link, m: Move): (r: Link)
    requires ContextOk(l.a) && ContextOk(l.b)
    ensures ContextOk(r.a) && ContextOk(r.b)
  {
    match m
    case DeliverA(i, now, env) =>
      if i < |l.toA| then AtA(l, Receive(l.toA[i], now, env), Without(l.toA, i), l.handled + 1) else l
    case DeliverB(i, now, env) =>
      if i < |l.toB| then AtB(l, Receive(l.toB[i], now, env), Without(l.toB, i), l.handled + 1) else l
    case LoseA(i) => if i < |l.toA| then l.(toA := Without(l.toA, i)) else l
    case LoseB(i) => if i < |l.toB| then l.(toB := Without(l.toB, i)) else l
    case TickA(now) => AtA(l, Tick(now), l.toA, l.handled)
    case TickB(now) => AtB(l, Tick(now), l.toB, l.handled)
  }

  lemma DeliveredA(l: Link, f: Frame, m: Move, c: Context, out: Output)
    requires ContextOk(l.a) && ContextOk(l.b) && m.DeliverA? && m.i == 0 && l.toA == [f]
    requires Perform(l.a, Receive(f, m.now, m.env)).ctx == c && Perform(l.a, Receive(f, m.now, m.env)).output == out
    ensures Fits(out)
    ensures Next(l, m) == Link(c, l.b, [], l.toB + OnAir(out), l.delivered + Handed(out),
                               l.finished + Reports(out), l.handled + 1)
  {
    AtAIs(l, Receive(f, m.now, m.env), [], l.handled + 1, c, out);
    assert Without(l.toA, 0) == [];
  }

  lemma DeliveredB(l: Link, f: Frame, m: Move, c: Context, out: Output)
    requires ContextOk(l.a) && ContextOk(l.b) && m.DeliverB? && m.i == 0 && l.toB == [f]
    requires Perform(l.b, Receive(f, m.now, m.env)).ctx == c && Perform(l.b, Receive(f, m.now, m.env)).output == out
    ensures Fits(out)
    ensures Next(l, m) == Link(l.a, c, l.toA + OnAir(out), [], l.delivered + Handed(out),
                               l.finished + Reports(out), l.handled + 1)
  {
    AtBIs(l, Receive(f, m.now, m.env), [], l.handled + 1, c, out);
    assert Without(l.toB, 0) == [];
  }

  function Run(l: Link, moves: seq<Move>): (r: Link)
    requires ContextOk(l.a) && ContextOk(l.b)
    ensures ContextOk(r.a) && ContextOk(r.b)
  {
    if moves == [] then l else Next(Run(l, moves[..|moves| - 1]), moves[|moves| - 1])
  }

  // ------------------------------------------------------------------ the transfer

  /** The two fresh nodes, and the session the send opened in slot `ia` of `a`. */
  datatype Transfer = Transfer(a: Context, b: Context, ia: nat, s: Session) {
    ghost predicate Valid() {
      && Fresh(a) && Fresh(b) && a.own != b.own
      && ia < |a.sessions| && s.state == TxWaitStartAck && SessionOk(s, a.own, a.maxSize)
      && s.peer == b.own && s.mask == a.sessions[ia].mask && s.mode == WithAck
    }

    /** The slot of `b` the START will be given, if any accepts the sender. */
    function Ib(): nat { FindFree(b.sessions, a.own) }

    ghost function Frames(): nat { SliceCount(s.payload) + 2 }

    function Sent(): Message { Message(WithAck, a.own, b.own, s.sid, s.payload) }

    function BKey(): Key { Key(a.own, b.own, s.sid) }

    function Back(c: Command): Packet { Packet(b.own, a.own, s.sid, c, []) }

    function Forth(c: Command): Packet { Packet(a.own, b.own, s.sid, c, []) }
  }

  /** The one frame that may be on the air, by what it means. */
  datatype Token = Script(p: nat) | AckOf(p: nat) | NackOfEnd | AbortToA | AbortToB | Silence

  ghost predicate AirOk(t: Transfer, l: Link, k: Token) {
    match k
    case Script(p) => p < t.Frames() && l.toA == [] && l.toB == [Encode(ImpSender.Script(t.a.own, t.s)[p])]
    case AckOf(p) => p < t.Frames() && l.toA == [Encode(t.Back(Ack))] && l.toB == []
    case NackOfEnd => l.toA == [Encode(t.Back(Nack))] && l.toB == []
    case AbortToA => l.toA == [Encode(t.Back(AbortWa))] && l.toB == []
    case AbortToB => l.toA == [] && l.toB == [Encode(t.Forth(AbortWa))]
    case Silence => l.toA == [] && l.toB == []
  }

  /** The sender's context is fresh but for its slot, which holds nothing or the
      transfer after some frame of its script. */
  ghost predicate SenderOk(t: Transfer, a: Context, k: Token)
    requires t.Valid()
  {
    && |a.sessions| == |t.a.sessions|
    && a == t.a.(sessions := t.a.sessions[t.ia := a.sessions[t.ia]])
    && var s := a.sessions[t.ia];
       && s.mask == t.s.mask
       && (s.state == Free || s.IsTx()) && SessionOk(s, t.a.own, t.a.maxSize)
       && (s.state != Free ==>
             && !k.AbortToB?
             && exists p :: AtFrame(t.s, s, p) && (k.Script? || k.AckOf? ==> p == k.p)
                            && (k.NackOfEnd? ==> p == t.Frames() - 1))
  }

  ghost function Received(t: Transfer, n: nat): seq<byte> { t.s.payload[..Min(MAX_LEN * n, |t.s.payload|)] }

  /** The receiver's context is fresh but for one slot, which holds nothing or
      exactly the part of the payload whose frames have arrived. */
  ghost predicate ReceiverOk(t: Transfer, b: Context, k: Token)
    requires t.Valid()
  {
    if t.Ib() == |t.b.sessions| then b == t.b
    else
      && |b.sessions| == |t.b.sessions|
      && b == t.b.(sessions := t.b.sessions[t.Ib() := b.sessions[t.Ib()]])
      && var s := b.sessions[t.Ib()];
         && s.mask == t.b.sessions[t.Ib()].mask
         && SessionOk(s, t.b.own, t.b.maxSize)
         && (s.state != Free ==>
               && s.state == Rx && KeyOf(s) == t.BKey() && s.mode == WithAck
               && (k.AbortToB? || k.Silence? || ReceptionAt(t, s, k)))
  }

  ghost predicate ReceptionAt(t: Transfer, s: Session, k: Token) {
    match k
    case Script(p) => p > 0 && s.payload == Received(t, p - 1)
    case AckOf(p) => p < t.Frames() - 1 && s.payload == Received(t, p)
    case _ => false
  }

  ghost predicate ResultOk(t: Transfer, l: Link, k: Token) {
    && (l.delivered == [] || (l.delivered == [t.Sent()] && l.b == t.b))
    && (k.Script? || k.NackOfEnd? || k.AbortToA? || (k.AckOf? && k.p < t.Frames() - 1) ==> l.delivered == [])
    && (k.AckOf? && k.p == t.Frames() - 1 ==> l.delivered == [t.Sent()])
    && (!k.Silence? ==> l.finished == 0)
    && (l.finished == 0 || (l.finished == 1 && l.delivered == [t.Sent()]))
  }

  /** Frames that can still be handled from here. */
  ghost function Left(t: Transfer, l: Link, k: Token): nat
    requires t.Valid() && |l.a.sessions| == |t.a.sessions|
  {
    var gone := l.a.sessions[t.ia].state == Free;
    match k
    case Script(p) => if gone || p >= t.Frames() then 3 else 2 * (t.Frames() - 1 - p) + 3
    case AckOf(p) => if gone || p >= t.Frames() then 2 else 2 * (t.Frames() - 1 - p) + 2
    case NackOfEnd => 2
    case AbortToA => 1
    case AbortToB => 1
    case Silence => 0
  }

  ghost predicate Inv(t: Transfer, l: Link, k: Token) {
    && t.Valid() && ContextOk(l.a) && ContextOk(l.b)
    && AirOk(t, l, k) && SenderOk(t, l.a, k) && ReceiverOk(t, l.b, k) && ResultOk(t, l, k)
    && l.handled + Left(t, l, k) <= 2 * t.Frames() + 1
  }

  // ------------------------------------------------------------ frames and look-ups

  lemma SoloLookup(c: Context, ss: seq<Session>, i: nat, k: Key)
    requires Fresh(c) && i < |c.sessions| && |ss| == |c.sessions| && ss == c.sessions[i := ss[i]]
    requires ss[i].state == Free || KeyOf(ss[i]) == k
    ensures FindSession(ss, k) == if ss[i].state == Free then |ss| else i
  {
    FirstIs(ss, HasKey(k), if ss[i].state == Free then |ss| else i);
  }

  lemma FreshLookup(c: Context, k: Key)
    requires Fresh(c)
    ensures FindSession(c.sessions, k) == |c.sessions|
  {
    FirstIs(c.sessions, HasKey(k), |c.sessions|);
  }

  /** A frame for a key without session: only a START opens one, and only
      commands that expect an answer get an ABORT. */
  lemma DispatchUnknown(c: Context, h: Header, body: seq<byte>, now: nat, env: Env)
    requires ContextOk(c) && h.from <= 31 && h.sid <= 15
    requires Addressed(c, h) && h.to != DEVICE_ALL && h.command.Some?
    requires FindSession(c.sessions, Key(h.from, h.to, h.sid)) == |c.sessions|
    requires !Opens(h.command.value) || FindFree(c.sessions, h.from) == |c.sessions|
    ensures Dispatch(c, h, body, now, env)
            == Outcome(c, NO_OUTPUT.(frame := if WithoutAckCommand(h.command.value) then None
                                              else Some(Packet(c.own, h.from, h.sid, AbortWa, []))), NoFreeSession)
  {
  }

  // --------------------------------------------------------------- moves at the sender

  lemma SenderLookup(t: Transfer, a: Context, k: Token)
    requires t.Valid() && SenderOk(t, a, k)
    ensures FindSession(a.sessions, Key(t.b.own, t.a.own, t.s.sid))
            == if a.sessions[t.ia].state == Free then |a.sessions| else t.ia
  {
    SoloLookup(t.a, a.sessions, t.ia, Key(t.b.own, t.a.own, t.s.sid));
  }

  /** The sender handles a frame of the receiver: ABORT_WA ends it silently, an
      answer moves it on, and an answer that comes too late is met with ABORT_WA. */
  lemma SenderHandles(t: Transfer, a: Context, k: Token, command: Command, now: nat, env: Env)
    requires t.Valid() && ContextOk(a) && SenderOk(t, a, k) && command in {Ack, Nack, AbortWa}
    ensures var r := Perform(a, Receive(Encode(t.Back(command)), now, env));
            var s := a.sessions[t.ia];
            if s.state == Free then
              r.ctx == a && r.output == NO_OUTPUT.(frame := if command == AbortWa then None else Some(t.Forth(AbortWa)))
            else
              var step := HandleTx(t.a.own, t.a.maxSize, s, command, now);
              r.ctx == a.(sessions := a.sessions[t.ia := step.session]) && r.output == step.output
  {
    Carried(a, t.Back(command), now, env);
    SenderLookup(t, a, k);
    var h := Header(t.a.own, t.b.own, t.s.sid, Some(command));
    if a.sessions[t.ia].state == Free {
      DispatchUnknown(a, h, [], now, env);
    } else {
      DispatchFound(a, h, [], now, env, t.ia);
    }
  }

  function Expected(k: Token): Command { if k.AckOf? then Ack else if k.NackOfEnd? then Nack else AbortWa }

  ghost function AfterA(t: Transfer, l: Link, k: Token): Token
    requires t.Valid() && |l.a.sessions| == |t.a.sessions|
  {
    if l.a.sessions[t.ia].state == Free then (if k.AbortToA? then Silence else AbortToB)
    else if k.AckOf? && k.p < t.Frames() - 1 then Script(k.p + 1)
    else Silence
  }

  lemma SenderGone(t: Transfer, l: Link, k: Token, m: Move)
    requires Inv(t, l, k) && m.DeliverA? && m.i == 0 && (k.AckOf? || k.NackOfEnd? || k.AbortToA?)
    requires l.a.sessions[t.ia].state == Free
    ensures var n := Next(l, m);
            && n.b == l.b && n.a == l.a && n.delivered == l.delivered && n.finished == l.finished
            && n.toA == [] && n.toB == (if k.AbortToA? then [] else [Encode(t.Forth(AbortWa))])
  {
    var out := NO_OUTPUT.(frame := if k.AbortToA? then None else Some(t.Forth(AbortWa)));
    SenderHandles(t, l.a, k, Expected(k), m.now, m.env);
    DeliveredA(l, Encode(t.Back(Expected(k))), m, l.a, out);
    assert l.delivered + [] == l.delivered;
  }

  lemma OnlyToA(t: Transfer, l: Link, k: Token)
    requires Inv(t, l, k) && (k.AckOf? || k.NackOfEnd? || k.AbortToA?)
    ensures l.toA == [Encode(t.Back(Expected(k)))] && l.toB == [] && l.finished == 0
  {
  }

  lemma ActsNext(t: Transfer, l: Link, k: Token, m: Move, step: Step)
    requires t.Valid() && ContextOk(l.a) && ContextOk(l.b) && SenderOk(t, l.a, k) && l.a.sessions[t.ia].state != Free
    requires l.toA == [Encode(t.Back(Expected(k)))] && l.toB == [] && l.finished == 0 && m.DeliverA? && m.i == 0
    requires step == HandleTx(t.a.own, t.a.maxSize, l.a.sessions[t.ia], Expected(k), m.now)
    ensures Fits(step.output)
    ensures Next(l, m) == Link(l.a.(sessions := l.a.sessions[t.ia := step.session]), l.b, [], OnAir(step.output),
                               l.delivered + Handed(step.output), Reports(step.output), l.handled + 1)
  {
    SenderHandles(t, l.a, k, Expected(k), m.now, m.env);
    DeliveredA(l, Encode(t.Back(Expected(k))), m, l.a.(sessions := l.a.sessions[t.ia := step.session]), step.output);
    assert [] + OnAir(step.output) == OnAir(step.output);
  }

  lemma SenderActs(t: Transfer, l: Link, k: Token, m: Move)
    requires Inv(t, l, k) && m.DeliverA? && m.i == 0 && (k.AckOf? || k.NackOfEnd? || k.AbortToA?)
    requires l.a.sessions[t.ia].state != Free
    ensures var s := l.a.sessions[t.ia];
            var step := HandleTx(t.a.own, t.a.maxSize, s, Expected(k), m.now);
            && Fits(step.output)
            && Next(l, m) == Link(l.a.(sessions := l.a.sessions[t.ia := step.session]), l.b, [], OnAir(step.output),
                                  l.delivered + Handed(step.output), Reports(step.output), l.handled + 1)
            && SessionOk(step.session, t.a.own, t.a.maxSize) && Evolves(s, step.session)
  {
    OnlyToA(t, l, k);
    ActsNext(t, l, k, m, HandleTx(t.a.own, t.a.maxSize, l.a.sessions[t.ia], Expected(k), m.now));
    HandleTxOk(t.a.own, t.a.maxSize, l.a.sessions[t.ia], Expected(k), m.now);
  }

  lemma SenderAnswered(t: Transfer, l: Link, k: Token, now: nat) returns (p: nat)
    requires Inv(t, l, k) && (k.AckOf? || k.NackOfEnd?) && l.a.sessions[t.ia].state != Free
    ensures p < t.Frames() && (k.AckOf? ==> p == k.p) && (k.NackOfEnd? ==> p == t.Frames() - 1)
    ensures var step := HandleTx(t.a.own, t.a.maxSize, l.a.sessions[t.ia], Expected(k), now);
            && step.output.message == None
            && if p < t.Frames() - 1 then
                 && AtFrame(t.s, step.session, p + 1)
                 && step.output.frame == Some(ImpSender.Script(t.a.own, t.s)[p + 1]) && step.output.event == NoEvent
               else step.session.state == Free && step.output.frame == None
                    && step.output.event == if k.AckOf? then TxFinished else TxAborted
  {
    var s := l.a.sessions[t.ia];
    p :| AtFrame(t.s, s, p) && (k.AckOf? ==> p == k.p) && (k.NackOfEnd? ==> p == t.Frames() - 1);
    AnswerStep(t.a.own, t.a.maxSize, t.s, s, p, Reply(k.AckOf?, now));
  }

  lemma DeliverToA(t: Transfer, l: Link, k: Token, m: Move)
    requires Inv(t, l, k) && m.DeliverA? && m.i == 0 && (k.AckOf? || k.NackOfEnd? || k.AbortToA?)
    ensures Inv(t, Next(l, m), AfterA(t, l, k)) && Next(l, m).b == l.b
  {
    if l.a.sessions[t.ia].state == Free {
      DeliverToGone(t, l, k, m);
    } else if k.AckOf? && k.p < t.Frames() - 1 {
      DeliverAck(t, l, k.p, m);
    } else {
      DeliverLast(t, l, k, m);
    }
  }

  // Each delivery is shown in two parts: what the link looks like afterwards, and
  // that such a link satisfies the invariant.

  lemma GoneMoved(t: Transfer, l: Link, k: Token, n: Link)
    requires Inv(t, l, k) && (k.AckOf? || k.NackOfEnd? || k.AbortToA?) && l.a.sessions[t.ia].state == Free
    requires n == l.(toA := [], toB := if k.AbortToA? then [] else [Encode(t.Forth(AbortWa))], handled := l.handled + 1)
    ensures Inv(t, n, AfterA(t, l, k))
  {
    assert SenderOk(t, n.a, AfterA(t, l, k));
    assert ReceiverOk(t, n.b, AfterA(t, l, k));
  }

  lemma DeliverToGone(t: Transfer, l: Link, k: Token, m: Move)
    requires Inv(t, l, k) && m.DeliverA? && m.i == 0 && (k.AckOf? || k.NackOfEnd? || k.AbortToA?)
    requires l.a.sessions[t.ia].state == Free
    ensures Inv(t, Next(l, m), AfterA(t, l, k)) && Next(l, m).b == l.b
  {
    SenderGone(t, l, k, m);
    GoneMoved(t, l, k, Next(l, m));
  }

  lemma SenderAdvanced(t: Transfer, a: Context, p: nat, s: Session)
    requires t.Valid() && SenderOk(t, a, AckOf(p))
    requires SessionOk(s, t.a.own, t.a.maxSize) && s.mask == t.s.mask && s.IsTx() && AtFrame(t.s, s, p + 1)
    ensures SenderOk(t, a.(sessions := a.sessions[t.ia := s]), Script(p + 1))
  {
  }

  lemma ReceiverWaits(t: Transfer, b: Context, p: nat)
    requires t.Valid() && ReceiverOk(t, b, AckOf(p)) && p < t.Frames() - 1
    ensures ReceiverOk(t, b, Script(p + 1))
  {
  }

  lemma AckMoved(t: Transfer, l: Link, p: nat, n: Link, s: Session)
    requires Inv(t, l, AckOf(p)) && p < t.Frames() - 1 && l.a.sessions[t.ia].state != Free
    requires n == l.(a := l.a.(sessions := l.a.sessions[t.ia := s]), toA := [],
                     toB := [Encode(ImpSender.Script(t.a.own, t.s)[p + 1])], handled := l.handled + 1)
    requires ContextOk(n.a) && SessionOk(s, t.a.own, t.a.maxSize) && s.mask == t.s.mask && s.IsTx()
    requires AtFrame(t.s, s, p + 1)
    ensures Inv(t, n, Script(p + 1))
  {
    SenderAdvanced(t, l.a, p, s);
    ReceiverWaits(t, l.b, p);
  }

  lemma AckEffect(t: Transfer, l: Link, p: nat, m: Move) returns (s: Session)
    requires Inv(t, l, AckOf(p)) && m.DeliverA? && m.i == 0 && p < t.Frames() - 1
    requires l.a.sessions[t.ia].state != Free
    ensures Next(l, m) == l.(a := l.a.(sessions := l.a.sessions[t.ia := s]), toA := [],
                             toB := [Encode(ImpSender.Script(t.a.own, t.s)[p + 1])], handled := l.handled + 1)
    ensures SessionOk(s, t.a.own, t.a.maxSize) && s.mask == t.s.mask && s.IsTx() && AtFrame(t.s, s, p + 1)
  {
    SenderActs(t, l, AckOf(p), m);
    var q := SenderAnswered(t, l, AckOf(p), m.now);
    var step := HandleTx(t.a.own, t.a.maxSize, l.a.sessions[t.ia], Ack, m.now);
    s := step.session;
    assert l.finished == 0;
    PlainFrame(l, Next(l, m), l.a.(sessions := l.a.sessions[t.ia := s]), step.output,
               ImpSender.Script(t.a.own, t.s)[p + 1]);
  }

  /** A handled frame at `a` that draws one frame and nothing else. */
  lemma PlainFrame(l: Link, n: Link, a: Context, out: Output, f: Packet)
    requires Fits(out) && out.frame == Some(f) && out.message == None && out.event == NoEvent && l.finished == 0
    requires n == Link(a, l.b, [], OnAir(out), l.delivered + Handed(out), Reports(out), l.handled + 1)
    ensures |f.body| <= MAX_LEN && n == l.(a := a, toA := [], toB := [Encode(f)], handled := l.handled + 1)
  {
    assert l.delivered + [] == l.delivered;
  }

  /** An ACK in time draws the next frame of the script. */
  lemma DeliverAck(t: Transfer, l: Link, p: nat, m: Move)
    requires Inv(t, l, AckOf(p)) && m.DeliverA? && m.i == 0 && p < t.Frames() - 1
    requires l.a.sessions[t.ia].state != Free
    ensures Inv(t, Next(l, m), Script(p + 1)) && Next(l, m).b == l.b
    ensures Next(l, m).a.sessions[t.ia].state != Free
  {
    var s := AckEffect(t, l, p, m);
    AckMoved(t, l, p, Next(l, m), s);
  }

  lemma LastMoved(t: Transfer, l: Link, k: Token, n: Link)
    requires Inv(t, l, k) && ((k.AckOf? && k.p == t.Frames() - 1) || k.NackOfEnd? || k.AbortToA?)
    requires n == l.(a := l.a.(sessions := l.a.sessions[t.ia := FreeSession(t.s.mask)]), toA := [], toB := [],
                     finished := if k.AckOf? then 1 else 0, handled := l.handled + 1)
    ensures Inv(t, n, Silence) && n.a == t.a
  {
    assert t.a.sessions[t.ia := FreeSession(t.s.mask)] == t.a.sessions;
    assert ReceiverOk(t, n.b, Silence);
    assert SenderOk(t, n.a, Silence);
  }

  /** The answer to END, or an ABORT, ends the transfer without a frame. */
  lemma DeliverLast(t: Transfer, l: Link, k: Token, m: Move)
    requires Inv(t, l, k) && m.DeliverA? && m.i == 0 && l.a.sessions[t.ia].state != Free
    requires (k.AckOf? && k.p == t.Frames() - 1) || k.NackOfEnd? || k.AbortToA?
    ensures Inv(t, Next(l, m), Silence) && Next(l, m).b == l.b && Next(l, m).a == t.a
    ensures Next(l, m).finished == if k.AckOf? then 1 else 0
  {
    SenderActs(t, l, k, m);
    if !k.AbortToA? {
      var p := SenderAnswered(t, l, k, m.now);
    }
    assert l.delivered + [] == l.delivered;
    LastMoved(t, l, k, Next(l, m));
  }

  // ------------------------------------------------------------- moves at the receiver

  ghost predicate HasReception(t: Transfer, b: Context)
    requires t.Valid() && |b.sessions| == |t.b.sessions|
  {
    t.Ib() < |b.sessions| && b.sessions[t.Ib()].state != Free
  }

  /** The receiver without a reception: it is as fresh as it started. */
  lemma ReceiverIdle(t: Transfer, b: Context, k: Token)
    requires t.Valid() && |b.sessions| == |t.b.sessions| && ReceiverOk(t, b, k) && !HasReception(t, b)
    ensures b == t.b
  {
    if t.Ib() < |t.b.sessions| {
      assert t.b.sessions[t.Ib()] == FreeSession(t.b.sessions[t.Ib()].mask);
      assert t.b.sessions[t.Ib() := b.sessions[t.Ib()]] == t.b.sessions;
    }
  }

  lemma ReceiverRefuses(t: Transfer, command: Command, body: seq<byte>, now: nat, env: Env)
    requires t.Valid() && |body| <= MAX_LEN
    requires !Opens(command) || (command == Start && t.Ib() == |t.b.sessions|)
    ensures ContextOk(t.b)
    ensures var r := Perform(t.b, Receive(Encode(t.Forth(command).(body := body)), now, env));
            && r.ctx == t.b
            && r.output == NO_OUTPUT.(frame := if WithoutAckCommand(command) then None else Some(t.Back(AbortWa)))
  {
    Carried(t.b, t.Forth(command).(body := body), now, env);
    FreshLookup(t.b, t.BKey());
    DispatchUnknown(t.b, Header(t.b.own, t.a.own, t.s.sid, Some(command)), body, now, env);
  }

  ghost function Reception(t: Transfer, now: nat): Session
    requires t.Valid() && t.Ib() < |t.b.sessions|
  {
    OpenedRx(t.b.sessions[t.Ib()].mask, Header(t.b.own, t.a.own, t.s.sid, Some(Start)), Start, now)
  }

  lemma ReceiverOpens(t: Transfer, now: nat, env: Env)
    requires t.Valid() && t.Ib() < |t.b.sessions|
    ensures ContextOk(t.b)
    ensures var r := Perform(t.b, Receive(Encode(t.Forth(Start)), now, env));
            && r.ctx == t.b.(sessions := t.b.sessions[t.Ib() := Reception(t, now)])
            && r.output == NO_OUTPUT.(frame := Some(t.Back(Ack)))
  {
    Carried(t.b, t.Forth(Start), now, env);
    FreshLookup(t.b, t.BKey());
    DispatchCreated(t.b, Header(t.b.own, t.a.own, t.s.sid, Some(Start)), [], now, env);
  }

  lemma ReceiverHandles(t: Transfer, b: Context, k: Token, command: Command, body: seq<byte>, now: nat, env: Env)
    requires t.Valid() && ContextOk(b) && |b.sessions| == |t.b.sessions| && ReceiverOk(t, b, k) && HasReception(t, b)
    requires |body| <= MAX_LEN
    ensures var r := Perform(b, Receive(Encode(t.Forth(command).(body := body)), now, env));
            var step := HandleRx(b.own, b.maxSize, b.sessions[t.Ib()], command, body, now, env);
            && r.ctx == b.(sessions := b.sessions[t.Ib() := step.session]) && r.output == step.output
            && SessionOk(step.session, b.own, b.maxSize) && Evolves(b.sessions[t.Ib()], step.session)
  {
    Carried(b, t.Forth(command).(body := body), now, env);
    SoloLookup(t.b, b.sessions, t.Ib(), t.BKey());
    DispatchFound(b, Header(t.b.own, t.a.own, t.s.sid, Some(command)), body, now, env, t.Ib());
    HandleRxOk(b.own, b.maxSize, b.sessions[t.Ib()], command, body, now, env);
  }

  lemma ReceivedGrows(t: Transfer, p: nat)
    requires 0 < p <= SliceCount(t.s.payload)
    ensures Received(t, p - 1) + Slice(t.s.payload, p - 1) == Received(t, p)
    ensures p == SliceCount(t.s.payload) ==> Received(t, p) == t.s.payload
  {
  }

  /** What the reception does with frame `p` of the script. */
  lemma ReceptionStep(t: Transfer, s: Session, p: nat, now: nat, env: Env)
    requires t.Valid() && s.state == Rx && KeyOf(s) == t.BKey() && s.mode == WithAck && 0 < p < t.Frames()
    requires s.payload == Received(t, p - 1)
    ensures var packet := ImpSender.Script(t.a.own, t.s)[p];
            var step := HandleRx(t.b.own, t.b.maxSize, s, packet.command, packet.body, now, env);
            && step.output.event != TxFinished
            && if p < t.Frames() - 1 then
                 && step.output.message == None
                 && (|t.s.payload| <= t.b.maxSize && env.allocOk ==> step.session.state != Free)
                 && if step.session.state == Free then step.output.frame == Some(t.Back(AbortWa))
                    else && step.output.frame == Some(t.Back(Ack)) && step.session.payload == Received(t, p)
                         && step.session.state == Rx && step.session.mode == WithAck
               else
                 && step.session.state == Free
                 && step.output.frame
                    == Some(t.Back(if !env.accept then Nack else if !env.allocOk then AbortWa else Ack))
                 && step.output.message == if env.accept && env.allocOk then Some(t.Sent()) else None
  {
    var n := SliceCount(t.s.payload);
    if p <= n {
      ReceivedGrows(t, p);
    } else if n > 0 {
      ReceivedGrows(t, n);
    }
  }

  /** What the frame on its way to the receiver looks like. */
  ghost function Outgoing(t: Transfer, k: Token): Packet
    requires t.Valid() && (k.AbortToB? || (k.Script? && k.p < t.Frames()))
  {
    match k
    case Script(p) => ImpSender.Script(t.a.own, t.s)[p]
    case _ => t.Forth(AbortWa)
  }

  lemma OutgoingShape(t: Transfer, k: Token)
    requires t.Valid() && (k.AbortToB? || (k.Script? && k.p < t.Frames()))
    ensures var p := Outgoing(t, k);
            && |p.body| <= MAX_LEN && p == t.Forth(p.command).(body := p.body)
            && (k.AbortToB? ==> p.command == AbortWa)
            && (k.Script? ==> p.command == if k.p == 0 then Start else if k.p == t.Frames() - 1 then End else Data)
            && (k.Script? && k.p == 0 ==> p.body == [])
  {
  }

  lemma OnlyToB(t: Transfer, l: Link, k: Token)
    requires Inv(t, l, k) && (k.Script? || k.AbortToB?)
    ensures |Outgoing(t, k).body| <= MAX_LEN && l.toA == [] && l.toB == [Encode(Outgoing(t, k))]
  {
    OutgoingShape(t, k);
  }

  lemma IdleAnswer(t: Transfer, k: Token, p: Packet, now: nat, env: Env)
    requires t.Valid() && (k.AbortToB? || (k.Script? && k.p < t.Frames())) && p == Outgoing(t, k) && |p.body| <= MAX_LEN
    ensures ContextOk(t.b)
    ensures var opens := k == Script(0) && t.Ib() < |t.b.sessions|;
            var r := Perform(t.b, Receive(Encode(p), now, env));
            && r.ctx == (if opens then t.b.(sessions := t.b.sessions[t.Ib() := Reception(t, now)]) else t.b)
            && r.output == NO_OUTPUT.(frame := if k.AbortToB? then None
                                                 else Some(t.Back(if opens then Ack else AbortWa)))
  {
    OutgoingShape(t, k);
    if k == Script(0) && t.Ib() < |t.b.sessions| {
      ReceiverOpens(t, now, env);
    } else {
      ReceiverRefuses(t, p.command, p.body, now, env);
    }
  }

  lemma FreshNext(t: Transfer, l: Link, k: Token, m: Move, p: Packet)
    requires t.Valid() && (k.AbortToB? || (k.Script? && k.p < t.Frames())) && p == Outgoing(t, k) && |p.body| <= MAX_LEN
    requires ContextOk(l.a) && ContextOk(l.b) && l.b == t.b && l.toA == [] && l.toB == [Encode(p)]
    requires m.DeliverB? && m.i == 0
    ensures var opens := k == Script(0) && t.Ib() < |t.b.sessions|;
            Next(l, m) == l.(
              b := if opens then t.b.(sessions := t.b.sessions[t.Ib() := Reception(t, m.now)]) else t.b,
              toA := if k.AbortToB? then [] else [Encode(t.Back(if opens then Ack else AbortWa))],
              toB := [], handled := l.handled + 1)
  {
    IdleAnswer(t, k, p, m.now, m.env);
    var r := Perform(t.b, Receive(Encode(p), m.now, m.env));
    DeliveredB(l, Encode(p), m, r.ctx, r.output);
    assert l.delivered + [] == l.delivered;
  }

  lemma IdleNext(t: Transfer, l: Link, k: Token, m: Move)
    requires Inv(t, l, k) && (k.Script? || k.AbortToB?) && m.DeliverB? && m.i == 0
    requires !HasReception(t, l.b)
    ensures l.b == t.b
    ensures var opens := k == Script(0) && t.Ib() < |t.b.sessions|;
            Next(l, m) == l.(
              b := if opens then t.b.(sessions := t.b.sessions[t.Ib() := Reception(t, m.now)]) else t.b,
              toA := if k.AbortToB? then [] else [Encode(t.Back(if opens then Ack else AbortWa))],
              toB := [], handled := l.handled + 1)
  {
    ReceiverIdle(t, l.b, k);
    OnlyToB(t, l, k);
    FreshNext(t, l, k, m, Outgoing(t, k));
  }

  ghost function AfterIdle(t: Transfer, k: Token): Token
    requires t.Valid()
  {
    if k == Script(0) && t.Ib() < |t.b.sessions| then AckOf(0) else if k.AbortToB? then Silence else AbortToA
  }

  lemma DeliverToIdle(t: Transfer, l: Link, k: Token, m: Move)
    requires Inv(t, l, k) && (k.Script? || k.AbortToB?) && m.DeliverB? && m.i == 0
    requires !HasReception(t, l.b)
    ensures Inv(t, Next(l, m), AfterIdle(t, k)) && Next(l, m).a == l.a
    ensures |Next(l, m).b.sessions| == |t.b.sessions|
    ensures k == Script(0) && t.Ib() < |t.b.sessions| ==> HasReception(t, Next(l, m).b)
  {
    IdleNext(t, l, k, m);
    IdleMoved(t, l, k, m.now, Next(l, m));
  }

  lemma IdleMoved(t: Transfer, l: Link, k: Token, now: nat, n: Link)
    requires Inv(t, l, k) && (k.Script? || k.AbortToB?) && l.b == t.b
    requires var opens := k == Script(0) && t.Ib() < |t.b.sessions|;
             n == l.(b := if opens then t.b.(sessions := t.b.sessions[t.Ib() := Reception(t, now)]) else t.b,
                     toA := if k.AbortToB? then [] else [Encode(t.Back(if opens then Ack else AbortWa))],
                     toB := [], handled := l.handled + 1)
    requires ContextOk(n.b)
    ensures Inv(t, n, AfterIdle(t, k)) && |n.b.sessions| == |t.b.sessions|
    ensures k == Script(0) && t.Ib() < |t.b.sessions| ==> HasReception(t, n.b)
  {
    assert SenderOk(t, n.a, AfterIdle(t, k));
    assert ReceiverOk(t, n.b, AfterIdle(t, k));
  }

  lemma ReceptionNext(t: Transfer, l: Link, k: Token, m: Move)
    requires Inv(t, l, k) && (k.Script? || k.AbortToB?) && m.DeliverB? && m.i == 0
    requires HasReception(t, l.b)
    ensures var s, p := l.b.sessions[t.Ib()], Outgoing(t, k);
            var step := HandleRx(l.b.own, l.b.maxSize, s, p.command, p.body, m.now, m.env);
            && Fits(step.output)
            && Next(l, m) == Link(l.a, l.b.(sessions := l.b.sessions[t.Ib() := step.session]),
                                  OnAir(step.output), [], l.delivered + Handed(step.output),
                                  l.finished + Reports(step.output), l.handled + 1)
            && SessionOk(step.session, l.b.own, l.b.maxSize) && Evolves(s, step.session)
  {
    OnlyToB(t, l, k);
    OutgoingShape(t, k);
    var p := Outgoing(t, k);
    ReceiverHandles(t, l.b, k, p.command, p.body, m.now, m.env);
    var step := HandleRx(l.b.own, l.b.maxSize, l.b.sessions[t.Ib()], p.command, p.body, m.now, m.env);
    DeliveredB(l, Encode(p), m, l.b.(sessions := l.b.sessions[t.Ib() := step.session]), step.output);
    assert [] + OnAir(step.output) == OnAir(step.output);
  }

  lemma DeliverAbort(t: Transfer, l: Link, m: Move)
    requires Inv(t, l, AbortToB) && m.DeliverB? && m.i == 0 && HasReception(t, l.b)
    ensures |Next(l, m).b.sessions| == |t.b.sessions|
    ensures Inv(t, Next(l, m), Silence) && Next(l, m).a == l.a && Next(l, m).b == t.b
  {
    OutgoingShape(t, AbortToB);
    ReceptionNext(t, l, AbortToB, m);
    assert l.delivered + [] == l.delivered;
    FreedMoved(t, l, AbortToB, Next(l, m), Silence);
  }

  /** The receiver ended its reception, with or without handing out the message. */
  lemma FreedMoved(t: Transfer, l: Link, k: Token, n: Link, k': Token)
    requires Inv(t, l, k) && HasReception(t, l.b) && ContextOk(n.b)
    requires n == l.(b := l.b.(sessions := l.b.sessions[t.Ib() := FreeSession(t.b.sessions[t.Ib()].mask)]),
                     toA := n.toA, toB := [], delivered := n.delivered, handled := l.handled + 1)
    requires AirOk(t, n, k') && ResultOk(t, n, k')
    requires (k.AbortToB? && k'.Silence?)
             || (k == Script(t.Frames() - 1) && (k' == AckOf(k.p) || k'.NackOfEnd? || k'.AbortToA?))
    ensures Inv(t, n, k') && n.b == t.b
  {
    assert SenderOk(t, n.a, k');
    assert t.b.sessions[t.Ib() := FreeSession(t.b.sessions[t.Ib()].mask)] == t.b.sessions;
    assert ReceiverOk(t, n.b, k');
  }

  lemma DeliverData(t: Transfer, l: Link, k: Token, m: Move)
    requires Inv(t, l, k) && k.Script? && 0 < k.p < t.Frames() - 1 && m.DeliverB? && m.i == 0 && HasReception(t, l.b)
    ensures |Next(l, m).b.sessions| == |t.b.sessions| && Next(l, m).a == l.a
    ensures Inv(t, Next(l, m), if HasReception(t, Next(l, m).b) then AckOf(k.p) else AbortToA)
    ensures |t.s.payload| <= t.b.maxSize && m.env == Env(true, true) ==> HasReception(t, Next(l, m).b)
  {
    OutgoingShape(t, k);
    ReceptionNext(t, l, k, m);
    ReceptionStep(t, l.b.sessions[t.Ib()], k.p, m.now, m.env);
    assert l.delivered + [] == l.delivered;
    DataMoved(t, l, k.p, Next(l, m), Next(l, m).b.sessions[t.Ib()]);
  }

  lemma DataMoved(t: Transfer, l: Link, p: nat, n: Link, s: Session)
    requires Inv(t, l, Script(p)) && 0 < p < t.Frames() - 1 && HasReception(t, l.b) && ContextOk(n.b)
    requires n == l.(b := l.b.(sessions := l.b.sessions[t.Ib() := s]),
                     toA := [Encode(t.Back(if s.state == Free then AbortWa else Ack))], toB := [],
                     handled := l.handled + 1)
    requires SessionOk(s, t.b.own, t.b.maxSize) && s.mask == t.b.sessions[t.Ib()].mask
    requires s.state != Free ==>
               s.state == Rx && KeyOf(s) == t.BKey() && s.mode == WithAck && s.payload == Received(t, p)
    ensures Inv(t, n, if s.state != Free then AckOf(p) else AbortToA)
  {
    if s.state != Free {
      assert ReceptionAt(t, s, AckOf(p));
      assert SenderOk(t, n.a, AckOf(p));
      assert ReceiverOk(t, n.b, AckOf(p));
    } else {
      assert SenderOk(t, n.a, AbortToA);
      assert ReceiverOk(t, n.b, AbortToA);
    }
  }

  function AfterEnd(p: nat, env: Env): Token {
    if !env.accept then NackOfEnd else if !env.allocOk then AbortToA else AckOf(p)
  }

  /** END frees the reception, and only an accepted message is handed out. */
  lemma EndNext(t: Transfer, l: Link, k: Token, m: Move)
    requires Inv(t, l, k) && k.Script? && k.p == t.Frames() - 1 && m.DeliverB? && m.i == 0 && HasReception(t, l.b)
    ensures Next(l, m) == l.(b := l.b.(sessions := l.b.sessions[t.Ib() := FreeSession(t.b.sessions[t.Ib()].mask)]),
                             toA := [Encode(t.Back(if !m.env.accept then Nack
                                                   else if !m.env.allocOk then AbortWa else Ack))],
                             toB := [], delivered := if m.env.accept && m.env.allocOk then [t.Sent()] else [],
                             handled := l.handled + 1)
  {
    OutgoingShape(t, k);
    ReceptionNext(t, l, k, m);
    ReceptionStep(t, l.b.sessions[t.Ib()], k.p, m.now, m.env);
  }

  lemma DeliverEnd(t: Transfer, l: Link, k: Token, m: Move)
    requires Inv(t, l, k) && k.Script? && k.p == t.Frames() - 1 && m.DeliverB? && m.i == 0 && HasReception(t, l.b)
    ensures |Next(l, m).b.sessions| == |t.b.sessions|
    ensures Inv(t, Next(l, m), AfterEnd(k.p, m.env)) && Next(l, m).a == l.a && Next(l, m).b == t.b
  {
    EndNext(t, l, k, m);
    FreedMoved(t, l, k, Next(l, m), AfterEnd(k.p, m.env));
  }

  // ------------------------------------------------------------------ losses and ticks

  ghost predicate SilentOutput(out: Output) { out.frame == None && out.message == None && out.event != TxFinished }

  /** `process` on a node without unacknowledged transfers can only release its
      session, silently towards the peer. */
  lemma TickSolo(c: Context, now: nat, c0: Context, i: nat)
    requires ContextOk(c) && Fresh(c0) && i < |c0.sessions| && |c.sessions| == |c0.sessions|
    requires c == c0.(sessions := c0.sessions[i := c.sessions[i]]) && c.sessions[i].state != TxWithoutAck
    ensures var r := Process(c, now);
            && (r.ctx == c || r.ctx == c.(sessions := c.sessions[i := Release(c.sessions[i])]))
            && SilentOutput(r.output)
  {
    forall j | 0 <= j < |c.sessions| && j != i
      ensures !Overdue(now, c.timeoutMs)(c.sessions[j]) && !Unacked()(c.sessions[j])
    {
      assert c.sessions[j] == c0.sessions[j];
    }
    FirstIs(c.sessions, Unacked(), |c.sessions|);
  }

  lemma TickFresh(c: Context, now: nat)
    requires Fresh(c)
    ensures ContextOk(c) && Process(c, now) == Outcome(c, NO_OUTPUT, Ok)
  {
    FirstIs(c.sessions, Overdue(now, c.timeoutMs), |c.sessions|);
    FirstIs(c.sessions, Unacked(), |c.sessions|);
  }

  lemma SilentTicks(l: Link, now: nat)
    requires ContextOk(l.a) && ContextOk(l.b)
    ensures SilentOutput(Process(l.a, now).output) ==> Next(l, TickA(now)) == l.(a := Process(l.a, now).ctx)
    ensures SilentOutput(Process(l.b, now).output) ==> Next(l, TickB(now)) == l.(b := Process(l.b, now).ctx)
  {
    AtAIs(l, Tick(now), l.toA, l.handled, Process(l.a, now).ctx, Process(l.a, now).output);
    AtBIs(l, Tick(now), l.toB, l.handled, Process(l.b, now).ctx, Process(l.b, now).output);
    assert l.toA + [] == l.toA && l.toB + [] == l.toB && l.delivered + [] == l.delivered;
  }

  lemma SenderTicks(t: Transfer, a: Context, k: Token, now: nat)
    requires t.Valid() && ContextOk(a) && SenderOk(t, a, k)
    ensures SilentOutput(Process(a, now).output)
    ensures var c := Process(a, now).ctx; c == a || c == a.(sessions := a.sessions[t.ia := Release(a.sessions[t.ia])])
  {
    TickSolo(a, now, t.a, t.ia);
  }

  lemma TickedA(t: Transfer, l: Link, k: Token, now: nat)
    requires Inv(t, l, k)
    ensures Inv(t, Next(l, TickA(now)), k)
  {
    PerformOk(l.a, Tick(now));
    SenderTicks(t, l.a, k, now);
    SilentTicks(l, now);
    ReleasedA(t, l, k, l.(a := Process(l.a, now).ctx));
  }

  lemma ReleasedA(t: Transfer, l: Link, k: Token, n: Link)
    requires Inv(t, l, k) && n == l.(a := n.a) && ContextOk(n.a)
    requires n.a == l.a || n.a == l.a.(sessions := l.a.sessions[t.ia := Release(l.a.sessions[t.ia])])
    ensures Inv(t, n, k)
  {
    assert SenderOk(t, n.a, k);
  }

  lemma ReceiverTicks(t: Transfer, b: Context, k: Token, now: nat)
    requires t.Valid() && ContextOk(b) && ReceiverOk(t, b, k)
    ensures SilentOutput(Process(b, now).output)
    ensures var c := Process(b, now).ctx;
            c == b || (t.Ib() < |b.sessions| == |t.b.sessions|
                       && c == b.(sessions := b.sessions[t.Ib() := Release(b.sessions[t.Ib()])]))
  {
    if t.Ib() == |t.b.sessions| {
      TickFresh(t.b, now);
    } else {
      TickSolo(b, now, t.b, t.Ib());
    }
  }

  lemma TickedB(t: Transfer, l: Link, k: Token, now: nat)
    requires Inv(t, l, k)
    ensures Inv(t, Next(l, TickB(now)), k)
  {
    PerformOk(l.b, Tick(now));
    ReceiverTicks(t, l.b, k, now);
    SilentTicks(l, now);
    ReleasedB(t, l, k, l.(b := Process(l.b, now).ctx));
  }

  lemma ReleasedB(t: Transfer, l: Link, k: Token, n: Link)
    requires Inv(t, l, k) && n == l.(b := n.b) && ContextOk(n.b)
    requires n.b == l.b || (t.Ib() < |t.b.sessions|
                            && n.b == l.b.(sessions := l.b.sessions[t.Ib() := Release(l.b.sessions[t.Ib()])]))
    ensures Inv(t, n, k)
  {
    assert ReceiverOk(t, n.b, k);
  }

  lemma SenderSilent(t: Transfer, a: Context, k: Token)
    requires t.Valid() && SenderOk(t, a, k)
    ensures SenderOk(t, a, Silence)
  {
  }

  lemma ReceiverSilent(t: Transfer, b: Context, k: Token)
    requires t.Valid() && ReceiverOk(t, b, k)
    ensures ReceiverOk(t, b, Silence)
  {
  }

  lemma OneLost(l: Link, m: Move)
    requires ContextOk(l.a) && ContextOk(l.b) && |l.toA| + |l.toB| <= 1
    requires (m.LoseA? && m.i < |l.toA|) || (m.LoseB? && m.i < |l.toB|)
    ensures Next(l, m) == l.(toA := [], toB := [])
  {
  }

  lemma Lost(t: Transfer, l: Link, k: Token, m: Move)
    requires Inv(t, l, k) && ((m.LoseA? && m.i < |l.toA|) || (m.LoseB? && m.i < |l.toB|))
    ensures Inv(t, Next(l, m), Silence)
  {
    OneLost(l, m);
    SenderSilent(t, l.a, k);
    ReceiverSilent(t, l.b, k);
  }

  lemma DeliverToB(t: Transfer, l: Link, k: Token, m: Move) returns (k': Token)
    requires Inv(t, l, k) && (k.Script? || k.AbortToB?) && m.DeliverB? && m.i == 0
    ensures Inv(t, Next(l, m), k')
  {
    if !HasReception(t, l.b) {
      DeliverToIdle(t, l, k, m);
      k' := AfterIdle(t, k);
    } else if k.AbortToB? {
      DeliverAbort(t, l, m);
      k' := Silence;
    } else if k.p < t.Frames() - 1 {
      DeliverData(t, l, k, m);
      k' := if HasReception(t, Next(l, m).b) then AckOf(k.p) else AbortToA;
    } else {
      DeliverEnd(t, l, k, m);
      k' := AfterEnd(k.p, m.env);
    }
  }

  /** Every move keeps the invariant, and every handled frame uses up some of
      what is left. */
  lemma MoveKeeps(t: Transfer, l: Link, k: Token, m: Move) returns (k': Token)
    requires Inv(t, l, k)
    ensures Inv(t, Next(l, m), k')
  {
    k' := k;
    match m
    case DeliverA(i, now, env) =>
      if i < |l.toA| {
        DeliverToA(t, l, k, m);
        k' := AfterA(t, l, k);
      }
    case DeliverB(i, now, env) =>
      if i < |l.toB| {
        k' := DeliverToB(t, l, k, m);
      }
    case LoseA(i) => if i < |l.toA| { Lost(t, l, k, m); k' := Silence; }
    case LoseB(i) => if i < |l.toB| { Lost(t, l, k, m); k' := Silence; }
    case TickA(now) => TickedA(t, l, k, now);
    case TickB(now) => TickedB(t, l, k, now);
  }

  lemma {:induction false} RunKeeps(t: Transfer, l: Link, k: Token, moves: seq<Move>) returns (k': Token)
    requires Inv(t, l, k)
    ensures Inv(t, Run(l, moves), k')
  {
    if moves == [] {
      k' := k;
    } else {
      var init := moves[..|moves| - 1];
      var mid := RunKeeps(t, l, k, init);
      k' := MoveKeeps(t, Run(l, init), mid, moves[|moves| - 1]);
    }
  }

  // ---------------------------------------------------------------------- theorems

  /** An acknowledged send between two fresh nodes, accepted by the sender. */
  ghost predicate Accepted(a: Context, b: Context, msg: Message, now: nat, env: Env) {
    && Fresh(a) && Fresh(b) && a.own != b.own && msg.mode == WithAck && msg.to == b.own
    && ContextOk(a) && StartSend(a, msg, now, env).result == Ok
  }

  ghost function Started(a: Context, b: Context, msg: Message, now: nat, env: Env): (l: Link)
    requires Accepted(a, b, msg, now, env)
    ensures ContextOk(l.a) && ContextOk(l.b)
  {
    StartSendOk(a, msg, now, env);
    OutputFits(a, Send(msg, now, env));
    var r := StartSend(a, msg, now, env);
    Link(r.ctx, b, [], OnAir(r.output), [], 0, 0)
  }

  lemma StartedInv(a: Context, b: Context, msg: Message, now: nat, env: Env) returns (t: Transfer)
    requires Accepted(a, b, msg, now, env)
    ensures Inv(t, Started(a, b, msg, now, env), Script(0))
    ensures t.a == a && t.b == b && t.s.payload == msg.data
    ensures t.Sent() == Message(WithAck, a.own, b.own, t.s.sid, msg.data)
    ensures t.s.sid == StartSend(a, msg, now, env).output.sid
    ensures Started(a, b, msg, now, env).a.sessions[t.ia].state != Free
  {
    SendEffect(a, msg, now, env);
    StartSendOk(a, msg, now, env);
    var r := StartSend(a, msg, now, env);
    var ia := FindFree(a.sessions, msg.to);
    t := Transfer(a, b, ia, r.ctx.sessions[ia]);
    var l := Started(a, b, msg, now, env);
    assert AtFrame(t.s, t.s, 0);
    assert SenderOk(t, l.a, Script(0));
    assert t.Ib() < |b.sessions| ==> b.sessions[t.Ib() := b.sessions[t.Ib()]] == b.sessions;
    assert ReceiverOk(t, l.b, Script(0));
  }

  /** Whatever the channel and the clocks do: at most one frame is ever in
      flight, at most one message comes out and it is the one sent, success is
      reported at most once and only after that delivery, and no more than
      2 * (slices + 2) + 1 frames are ever handled. */
  lemma TransferIsSafe(a: Context, b: Context, msg: Message, now: nat, env: Env, moves: seq<Move>)
    requires Accepted(a, b, msg, now, env)
    ensures var l := Run(Started(a, b, msg, now, env), moves);
            && |l.toA| + |l.toB| <= 1
            && (l.delivered == []
                || l.delivered == [Message(WithAck, a.own, b.own, StartSend(a, msg, now, env).output.sid, msg.data)])
            && l.finished <= |l.delivered|
            && l.handled <= 2 * (SliceCount(msg.data) + 2) + 1
  {
    var t := StartedInv(a, b, msg, now, env);
    var k := RunKeeps(t, Started(a, b, msg, now, env), Script(0), moves);
    InvMeans(t, Run(Started(a, b, msg, now, env), moves), k);
  }

  lemma InvMeans(t: Transfer, l: Link, k: Token)
    requires Inv(t, l, k)
    ensures |l.toA| + |l.toB| <= 1 && (l.delivered == [] || l.delivered == [t.Sent()])
    ensures l.finished <= |l.delivered| && l.handled <= 2 * t.Frames() + 1
    ensures l.finished > 0 ==> l.toA == [] && l.toB == [] && l.b == t.b
  {
  }

  /** Once the receiver has handled the ABORT_WA of a sender that gave up, it is as it was
      before the transfer, whatever it held by then. */
  lemma AbortFrees(a: Context, b: Context, msg: Message, now: nat, env: Env, moves: seq<Move>, m: Move)
    requires Accepted(a, b, msg, now, env) && m.DeliverB? && m.i == 0
    requires var l := Run(Started(a, b, msg, now, env), moves);
             |l.toB| == 1 && HeaderOf(l.toB[0].id).command == Some(AbortWa)
    ensures Next(Run(Started(a, b, msg, now, env), moves), m).b == b
  {
    var l := Run(Started(a, b, msg, now, env), moves);
    var t := StartedInv(a, b, msg, now, env);
    var k := RunKeeps(t, Started(a, b, msg, now, env), Script(0), moves);
    IsAbort(t, l, k);
    AbortHandled(t, l, m);
  }

  lemma AbortHandled(t: Transfer, l: Link, m: Move)
    requires Inv(t, l, AbortToB) && m.DeliverB? && m.i == 0
    ensures Next(l, m).b == t.b
  {
    if HasReception(t, l.b) {
      DeliverAbort(t, l, m);
    } else {
      IdleNext(t, l, AbortToB, m);
    }
  }

  lemma IsAbort(t: Transfer, l: Link, k: Token)
    requires Inv(t, l, k) && |l.toB| == 1 && HeaderOf(l.toB[0].id).command == Some(AbortWa)
    ensures k == AbortToB && |l.b.sessions| == |t.b.sessions|
  {
    OutgoingShape(t, k);
    var p := Outgoing(t, k);
    HeaderOfPacked(p.from, p.to, p.sid, p.command);
  }

  /** A move that loses no frame, fails no allocation, rejects no message and lets
      nothing time out. Calls of `process` are such moves whenever nothing is
      overdue. */
  ghost predicate Smooth(l: Link, m: Move) {
    match m
    case DeliverA(i, now, env) => i < |l.toA| ==> env == Env(true, true)
    case DeliverB(i, now, env) => i < |l.toB| ==> env == Env(true, true)
    case LoseA(i) => i >= |l.toA|
    case LoseB(i) => i >= |l.toB|
    case TickA(now) => ImpProcess.NothingOverdue(l.a, now)
    case TickB(now) => ImpProcess.NothingOverdue(l.b, now)
  }

  ghost predicate Undisturbed(l: Link, moves: seq<Move>)
    requires ContextOk(l.a) && ContextOk(l.b)
  {
    forall n :: 0 <= n < |moves| ==> Smooth(Run(l, moves[..n]), moves[n])
  }

  /** The delivery of frame `n` of an undisturbed exchange. */
  function Turn(n: nat, now: nat): Move {
    if n % 2 == 0 then DeliverB(0, now, Env(true, true)) else DeliverA(0, now, Env(true, true))
  }

  /** The token after `n` frames of an undisturbed exchange have been handled. */
  ghost function TokenAt(t: Transfer, n: nat): Token {
    if n == 2 * t.Frames() then Silence else if n % 2 == 0 then Script(n / 2) else AckOf(n / 2)
  }

  ghost predicate Healthy(t: Transfer, l: Link, n: nat) {
    && Inv(t, l, TokenAt(t, n)) && l.handled == n
    && (n < 2 * t.Frames() ==> l.a.sessions[t.ia].state != Free)
    && (0 < n < 2 * t.Frames() - 1 ==> |l.b.sessions| == |t.b.sessions| && HasReception(t, l.b))
    && (n >= 2 * t.Frames() - 1 ==> l.b == t.b)
    && (n == 2 * t.Frames() ==> l.finished == 1 && l.a == t.a)
  }

  lemma HealthyFirst(t: Transfer, l: Link, now: nat)
    requires Healthy(t, l, 0) && t.Ib() < |t.b.sessions|
    ensures Healthy(t, Next(l, Turn(0, now)), 1)
  {
    assert !HasReception(t, l.b);
    DeliverToIdle(t, l, Script(0), Turn(0, now));
  }

  lemma HealthyData(t: Transfer, l: Link, n: nat, now: nat)
    requires Healthy(t, l, n) && 0 < n < 2 * t.Frames() - 2 && n % 2 == 0
    requires t.Ib() < |t.b.sessions| && |t.s.payload| <= t.b.maxSize
    ensures Healthy(t, Next(l, Turn(n, now)), n + 1)
  {
    var p := n / 2;
    assert TokenAt(t, n) == Script(p) && TokenAt(t, n + 1) == AckOf(p);
    DataAcknowledged(t, l, p, now);
  }

  lemma DataAcknowledged(t: Transfer, l: Link, p: nat, now: nat)
    requires Inv(t, l, Script(p)) && 0 < p < t.Frames() - 1 && HasReception(t, l.b)
    requires |t.s.payload| <= t.b.maxSize
    ensures var n := Next(l, DeliverB(0, now, Env(true, true)));
            Inv(t, n, AckOf(p)) && HasReception(t, n.b) && n.a == l.a
  {
    DeliverData(t, l, Script(p), DeliverB(0, now, Env(true, true)));
  }

  lemma EndAcknowledged(t: Transfer, l: Link, p: nat, now: nat)
    requires Inv(t, l, Script(p)) && p == t.Frames() - 1 && HasReception(t, l.b)
    ensures var n := Next(l, DeliverB(0, now, Env(true, true)));
            Inv(t, n, AckOf(p)) && n.b == t.b && n.a == l.a
  {
    DeliverEnd(t, l, Script(p), DeliverB(0, now, Env(true, true)));
  }

  lemma HealthyEnd(t: Transfer, l: Link, n: nat, now: nat)
    requires Healthy(t, l, n) && n == 2 * t.Frames() - 2
    ensures Healthy(t, Next(l, Turn(n, now)), n + 1)
  {
    var p := n / 2;
    assert TokenAt(t, n) == Script(p) && TokenAt(t, n + 1) == AckOf(p);
    EndAcknowledged(t, l, p, now);
  }

  lemma HealthyBack(t: Transfer, l: Link, n: nat, now: nat)
    requires Healthy(t, l, n) && n < 2 * t.Frames() && n % 2 == 1
    ensures Healthy(t, Next(l, Turn(n, now)), n + 1)
  {
    var p := n / 2;
    assert TokenAt(t, n) == AckOf(p);
    if p < t.Frames() - 1 {
      assert TokenAt(t, n + 1) == Script(p + 1);
      DeliverAck(t, l, p, Turn(n, now));
    } else {
      DeliverLast(t, l, AckOf(p), Turn(n, now));
    }
  }

  lemma HealthyTurn(t: Transfer, l: Link, n: nat, now: nat)
    requires Healthy(t, l, n) && n < 2 * t.Frames()
    requires t.Ib() < |t.b.sessions| && |t.s.payload| <= t.b.maxSize
    ensures Healthy(t, Next(l, Turn(n, now)), n + 1)
  {
    if n == 0 {
      HealthyFirst(t, l, now);
    } else if n % 2 == 1 {
      HealthyBack(t, l, n, now);
    } else if n < 2 * t.Frames() - 2 {
      HealthyData(t, l, n, now);
    } else {
      HealthyEnd(t, l, n, now);
    }
  }

  /** `process` changes nothing while nothing is overdue and nothing unacknowledged
      is under way. */
  lemma TickQuiet(c: Context, now: nat)
    requires ContextOk(c) && ImpProcess.NothingOverdue(c, now)
    requires forall i :: 0 <= i < |c.sessions| ==> c.sessions[i].state != TxWithoutAck
    ensures Process(c, now) == Outcome(c, NO_OUTPUT, Ok)
  {
    FirstIs(c.sessions, Overdue(now, c.timeoutMs), |c.sessions|);
    FirstIs(c.sessions, Unacked(), |c.sessions|);
  }

  lemma SenderSmooth(t: Transfer, a: Context, k: Token, now: nat)
    requires t.Valid() && ContextOk(a) && SenderOk(t, a, k) && ImpProcess.NothingOverdue(a, now)
    ensures Process(a, now) == Outcome(a, NO_OUTPUT, Ok)
  {
    forall i | 0 <= i < |a.sessions| ensures a.sessions[i].state != TxWithoutAck {
      if i != t.ia { assert a.sessions[i] == t.a.sessions[i]; }
    }
    TickQuiet(a, now);
  }

  lemma ReceiverSmooth(t: Transfer, b: Context, k: Token, now: nat)
    requires t.Valid() && ContextOk(b) && ReceiverOk(t, b, k) && ImpProcess.NothingOverdue(b, now)
    ensures Process(b, now) == Outcome(b, NO_OUTPUT, Ok)
  {
    forall i | 0 <= i < |b.sessions| ensures b.sessions[i].state != TxWithoutAck {
      if i != t.Ib() { assert b.sessions[i] == t.b.sessions[i]; }
    }
    TickQuiet(b, now);
  }

  lemma TickSmooth(t: Transfer, l: Link, k: Token, m: Move)
    requires Inv(t, l, k) && (m.TickA? || m.TickB?) && Smooth(l, m)
    ensures Next(l, m) == l
  {
    if m.TickA? {
      SenderSmooth(t, l.a, k, m.now);
    } else {
      ReceiverSmooth(t, l.b, k, m.now);
    }
    SilentTicks(l, m.now);
  }

  /** A smooth move delivers the one frame in flight, or does nothing. */
  lemma SmoothMove(t: Transfer, l: Link, m: Move)
    requires Healthy(t, l, l.handled) && l.handled <= 2 * t.Frames() && Smooth(l, m)
    ensures Next(l, m) == l
            || (l.handled < 2 * t.Frames() && (m.DeliverA? || m.DeliverB?) && m == Turn(l.handled, m.now))
  {
    var k := TokenAt(t, l.handled);
    if m.TickA? || m.TickB? {
      TickSmooth(t, l, k, m);
    } else if l.handled < 2 * t.Frames() {
      assert if l.handled % 2 == 0 then k.Script? && l.toA == [] && |l.toB| == 1
             else k.AckOf? && |l.toA| == 1 && l.toB == [];
    }
  }

  lemma SmoothStep(t: Transfer, l: Link, m: Move)
    requires Healthy(t, l, l.handled) && l.handled <= 2 * t.Frames() && Smooth(l, m)
    requires t.Ib() < |t.b.sessions| && |t.s.payload| <= t.b.maxSize
    ensures var n := Next(l, m); Healthy(t, n, n.handled) && n.handled <= 2 * t.Frames()
  {
    SmoothMove(t, l, m);
    if Next(l, m) != l {
      HealthyTurn(t, l, l.handled, m.now);
    }
  }

  /** What holds at the start and survives every smooth move holds throughout. */
  lemma {:induction false} SmoothInvariant(inv: Link -> bool, l: Link, moves: seq<Move>)
    requires ContextOk(l.a) && ContextOk(l.b) && Undisturbed(l, moves) && inv(l)
    requires forall x: Link, m: Move :: inv(x) && ContextOk(x.a) && ContextOk(x.b) && Smooth(x, m) ==> inv(Next(x, m))
    ensures inv(Run(l, moves))
  {
    if moves != [] {
      var n := |moves| - 1;
      forall j | 0 <= j < n ensures Smooth(Run(l, moves[..n][..j]), moves[..n][j]) {
        assert moves[..n][..j] == moves[..j];
      }
      SmoothInvariant(inv, l, moves[..n]);
      assert Smooth(Run(l, moves[..n]), moves[n]);
    }
  }

  lemma RunHealthy(t: Transfer, l: Link, moves: seq<Move>)
    requires Healthy(t, l, 0) && Undisturbed(l, moves)
    requires t.Ib() < |t.b.sessions| && |t.s.payload| <= t.b.maxSize
    ensures var n := Run(l, moves); Healthy(t, n, n.handled) && n.handled <= 2 * t.Frames()
  {
    var inv := (x: Link) => Healthy(t, x, x.handled) && x.handled <= 2 * t.Frames();
    forall x: Link, m: Move | inv(x) && ContextOk(x.a) && ContextOk(x.b) && Smooth(x, m) ensures inv(Next(x, m)) {
      SmoothStep(t, x, m);
    }
    SmoothInvariant(inv, l, moves);
  }

  lemma HealthyMeans(t: Transfer, l: Link, n: nat)
    requires Healthy(t, l, n) && n <= 2 * t.Frames()
    ensures if n < 2 * t.Frames() then |l.toA| + |l.toB| == 1 && l.finished == 0
            else l.toA == [] && l.toB == [] && l.a == t.a && l.b == t.b && l.finished == 1 && l.delivered == [t.Sent()]
  {
  }

  /** With no loss, timeout or rejection, and room at the receiver, whenever the
      frames are delivered and `process` is called: the exchange takes exactly
      2 * (slices + 2) frames. Until then one is in flight and success is not
      reported; afterwards the message has been delivered, the sender has reported
      it, the air is empty and every slot on both sides is free again. */
  lemma TransferCompletes(a: Context, b: Context, msg: Message, now: nat, env: Env, moves: seq<Move>)
    requires Accepted(a, b, msg, now, env) && Undisturbed(Started(a, b, msg, now, env), moves)
    requires FindFree(b.sessions, a.own) < |b.sessions| && |msg.data| <= b.maxSize
    ensures var l := Run(Started(a, b, msg, now, env), moves);
            var total := 2 * (SliceCount(msg.data) + 2);
            && l.handled <= total
            && if l.handled < total then |l.toA| + |l.toB| == 1 && l.finished == 0
               else
                 && l.toA == [] && l.toB == [] && l.a == a && l.b == b && l.finished == 1
                 && l.delivered == [Message(WithAck, a.own, b.own, StartSend(a, msg, now, env).output.sid, msg.data)]
  {
    var t := StartedInv(a, b, msg, now, env);
    RunHealthy(t, Started(a, b, msg, now, env), moves);
    var l := Run(Started(a, b, msg, now, env), moves);
    HealthyMeans(t, l, l.handled);
  }

  predicate Plain(m: Move) { (m.DeliverA? || m.DeliverB?) && m.env == Env(true, true) }

  /** The lockstep exchange: each frame is delivered at once. */
  ghost function Exchange(n: nat, clock: nat -> nat): (m: seq<Move>)
    ensures |m| == n && forall j :: 0 <= j < n ==> Plain(m[j])
  {
    if n == 0 then [] else Exchange(n - 1, clock) + [Turn(n - 1, clock(n - 1))]
  }

  lemma PlainIsSmooth(l: Link, m: Move)
    requires Plain(m)
    ensures Smooth(l, m)
  {
  }

  lemma PlainIsUndisturbed(l: Link, moves: seq<Move>)
    requires ContextOk(l.a) && ContextOk(l.b) && forall j :: 0 <= j < |moves| ==> Plain(moves[j])
    ensures Undisturbed(l, moves)
  {
    forall j | 0 <= j < |moves| ensures Smooth(Run(l, moves[..j]), moves[j]) {
      PlainIsSmooth(Run(l, moves[..j]), moves[j]);
    }
  }

  lemma {:induction false} ExchangeCounts(t: Transfer, l: Link, n: nat, clock: nat -> nat)
    requires Healthy(t, l, 0) && n <= 2 * t.Frames()
    requires t.Ib() < |t.b.sessions| && |t.s.payload| <= t.b.maxSize
    ensures Run(l, Exchange(n, clock)).handled == n
  {
    if n > 0 {
      ExchangeCounts(t, l, n - 1, clock);
      PlainIsUndisturbed(l, Exchange(n - 1, clock));
      RunHealthy(t, l, Exchange(n - 1, clock));
      assert Exchange(n, clock)[..n - 1] == Exchange(n - 1, clock);
      TurnCounts(t, Run(l, Exchange(n - 1, clock)), n - 1, clock(n - 1));
    }
  }

  lemma TurnCounts(t: Transfer, l: Link, n: nat, now: nat)
    requires Healthy(t, l, n) && n < 2 * t.Frames()
    ensures Next(l, Turn(n, now)).handled == n + 1
  {
  }

  /** Such runs exist: the lockstep exchange completes. */
  lemma LockstepCompletes(a: Context, b: Context, msg: Message, now: nat, env: Env, clock: nat -> nat)
    requires Accepted(a, b, msg, now, env)
    requires FindFree(b.sessions, a.own) < |b.sessions| && |msg.data| <= b.maxSize
    ensures var l := Run(Started(a, b, msg, now, env), Exchange(2 * (SliceCount(msg.data) + 2), clock));
            && l.toA == [] && l.toB == [] && l.a == a && l.b == b && l.finished == 1
            && l.delivered == [Message(WithAck, a.own, b.own, StartSend(a, msg, now, env).output.sid, msg.data)]
  {
    var t := StartedInv(a, b, msg, now, env);
    var l, total := Started(a, b, msg, now, env), 2 * (SliceCount(msg.data) + 2);
    PlainIsUndisturbed(l, Exchange(total, clock));
    ExchangeCounts(t, l, total, clock);
    TransferCompletes(a, b, msg, now, env, Exchange(total, clock));
  }
}
