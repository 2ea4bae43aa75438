/** Any number of transfers at once, in any direction, among nodes that share a bus:
    what each acknowledged one is worth, when it is worth it, and what its sender can
    know of that. */
module ImpMany {
  import opened Can
  import opened ImpCore
  import opened ImpInvariants
  import opened ImpNetwork
  import opened ImpReceive
  import opened ImpRetry
  import opened ImpSender
  import L = ImpLink

  // --------------------------------------------------------- one transfer among many

  function LineOf(t: L.Transfer): Line { Line(t.a.own, t.b.own, t.s.sid) }

  /** Seen through its key, the network stands where the transfer does. */
  ghost predicate Stands(t: L.Transfer, s: Net, g: Stage) {
    && NetOk(s) && s.a.own == t.a.own && s.b.own == t.b.own && |t.a.sessions| == 1 && |t.b.sessions| == 1
    && Holds(t, View(s, LineOf(t)), g)
  }

  /** The bit of the id is the sender's, so no START of the receiver carries it. */
  lemma Bits(t: L.Transfer, s: Net, g: Stage)
    requires Stands(t, s, g)
    ensures t.s.sid % 2 == InitiatorBit(s.a.own, s.b.own) != InitiatorBit(s.b.own, s.a.own)
  {
  }

  /** Neither node has an unacknowledged transfer under the key. */
  lemma Acknowledged(t: L.Transfer, s: Net, g: Stage)
    requires Stands(t, s, g)
    ensures OneSession(s.a, KeyA(s, LineOf(t))).state != TxWithoutAck
    ensures OneSession(s.b, KeyA(Swap(s), LineOf(t))).state != TxWithoutAck
  {
    var l := View(s, LineOf(t));
    OnlyAcknowledged(t, l, g);
    assert l.a.sessions[t.ia] == OneSession(s.a, KeyA(s, LineOf(t)));
    assert l.b.sessions[0] == OneSession(s.b, KeyA(Swap(s), LineOf(t)));
  }

  lemma OnlyAcknowledged(t: L.Transfer, l: L.Link, g: Stage)
    requires Holds(t, l, g) && |t.a.sessions| == 1 && |t.b.sessions| == 1
    ensures |l.a.sessions| == 1 && l.a.sessions[t.ia].state != TxWithoutAck
    ensures |l.b.sessions| == 1 && l.b.sessions[0].state != TxWithoutAck
  {
    if t.Ib() == 1 { assert l.b == t.b; }
  }

  /** A refused START is answered with ABORT, like one that finds no slot at all. */
  lemma RefusedMoved(t: L.Transfer, l: L.Link, n: L.Link)
    requires L.Inv(t, l, L.Script(0)) && !L.HasReception(t, l.b)
    requires n == l.(toA := [Encode(t.Back(AbortWa))], toB := [], handled := l.handled + 1)
    ensures L.Inv(t, n, L.AbortToA)
  {
    assert L.SenderOk(t, n.a, L.AbortToA);
    assert L.ReceiverOk(t, n.b, L.AbortToA);
  }

  /** Only the first frame of the script opens a session. */
  lemma OpeningFrame(t: L.Transfer, l: L.Link, k: L.Token, f: Frame)
    requires L.Inv(t, l, k) && l.toB == [f] && HeaderOf(f.id).command.Some? && Opens(HeaderOf(f.id).command.value)
    ensures k == L.Script(0) && l.toA == [] && HeaderOf(f.id).command == Some(Start)
  {
    L.OutgoingShape(t, k);
    var p := L.Outgoing(t, k);
    HeaderOfPacked(p.from, p.to, p.sid, p.command);
  }

  lemma RefusedStep(t: L.Transfer, s: Net, g: Stage, i: nat, now: nat, env: Env)
    requires Stands(t, s, g) && Refuses(Swap(s), Take(i, now, env), LineOf(t))
    ensures Holds(t, View(Next(s, Action(false, Take(i, now, env))), LineOf(t)), Now(L.AbortToA))
  {
    var f, w, r := s.toB[i], LineOf(t), Swap(s);
    assert f in s.toB;
    HeardOn(r, f, w);
    FilterWithout(s.toB, i, FrameOn(w)) by { StageMeans(t, View(s, w), g); }
    assert OneSession(s.b, KeyA(r, w)).state == Free;
    assert View(s, w).b.sessions[0] == OneSession(s.b, KeyA(r, w));
    assert g.Now?;
    OpeningFrame(t, View(s, w), g.k, f);
    SwapKeeps(s);
    var p := Packet(s.b.own, s.a.own, t.s.sid, AbortWa, []);
    var n := RefusedNext(r, i, now, env, p, w);
    RefusedSeen(r, n, i, p, w);
    RefusedEnds(t, s, Swap(n), p);
  }

  lemma RefusedEnds(t: L.Transfer, s: Net, n: Net, p: Packet)
    requires L.Inv(t, View(s, LineOf(t)), L.Script(0)) && p == t.Back(AbortWa)
    requires FindSession(s.b.sessions, KeyA(Swap(s), LineOf(t))) == |s.b.sessions|
    requires var l := View(s, LineOf(t));
             View(Swap(n), LineOf(t)) == SwapLink(l).(toA := [], toB := [Encode(p)], handled := l.handled + 1)
    ensures L.Inv(t, View(n, LineOf(t)), L.AbortToA)
  {
    ViewSwaps(n, LineOf(t));
    assert SwapLink(View(Swap(n), LineOf(t))) == View(n, LineOf(t));
    RefusedMoved(t, View(s, LineOf(t)), View(n, LineOf(t)));
  }

  lemma RefusedNext(s: Net, i: nat, now: nat, env: Env, p: Packet, w: Line) returns (n: Net)
    requires NetOk(s) && Ends(s, w) && i < |s.toA| && FrameKey(s.toA[i]) == KeyA(s, w)
    requires Refused(s.a, s.toA[i]) && HeaderOf(s.toA[i].id).command == Some(Start)
    requires p == Packet(s.a.own, s.b.own, w.sid, AbortWa, [])
    ensures n == NextA(s, Take(i, now, env))
    ensures n == s.(toA := L.Without(s.toA, i), toB := s.toB + [Encode(p)], took := s.took + [KeyA(s, w)])
  {
    var f := s.toA[i];
    assert f in s.toA;
    RefusedAnswer(s.a, f, now, env, KeyA(s, w));
    n := NextA(s, Take(i, now, env));
    assert s.came + [] == s.came && s.done + [] == s.done;
  }

  lemma RefusedSeen(s: Net, n: Net, i: nat, p: Packet, w: Line)
    requires NetOk(s) && Ends(s, w) && i < |s.toA| && FrameKey(s.toA[i]) == KeyA(s, w)
    requires p == Packet(s.a.own, s.b.own, w.sid, AbortWa, []) && w.sid <= 15
    requires |Filter(s.toA, FrameOn(w))| <= 1 && Filter(s.toB, FrameOn(w)) == []
    requires n == s.(toA := L.Without(s.toA, i), toB := s.toB + [Encode(p)], took := s.took + [KeyA(s, w)])
    ensures var l := View(s, w);
            View(n, w) == l.(toA := [], toB := [Encode(p)], handled := l.handled + 1)
  {
    assert s.toA[i] in s.toA;
    HeaderOfPacked(p.from, p.to, p.sid, p.command);
    FilterWithout(s.toA, i, FrameOn(w));
    FilterMore(s.toB, [Encode(p)], FrameOn(w));
    FilterMore(s.took, [KeyA(s, w)], KeyOn(w));
  }

  /** The id of a successful send carries its sender's bit. */
  lemma SendBit(c: Context, msg: Message, now: nat, env: Env)
    requires ContextOk(c) && StartSend(c, msg, now, env).result == Ok
    ensures StartSend(c, msg, now, env).output.sid % 2 == InitiatorBit(c.own, msg.to)
    ensures StartSend(c, msg, now, env).output.sid <= 15
  {
    SendEffect(c, msg, now, env);
  }

  lemma AnswersOnly(t: L.Transfer, s: Net, g: Stage, call: Call)
    requires Stands(t, s, g)
    ensures !Refuses(s, call, LineOf(t))
  {
    Bits(t, s, g);
    if Concerns(s, call, LineOf(t)) { WrongBit(s, s.toA[call.i], LineOf(t)); }
  }

  lemma WrongBit(s: Net, f: Frame, w: Line)
    requires NetOk(s) && f in s.toA && FrameKey(f) == KeyA(s, w) && w.sid % 2 != InitiatorBit(s.b.own, s.a.own)
    ensures !Refused(s.a, f)
  {
  }

  /** An event at the sender, as a move of the transfer. */
  lemma SightA(t: L.Transfer, s: Net, g: Stage, call: Call) returns (m: L.Move)
    requires Stands(t, s, g) && Legal(s, Action(true, call)) && !Takes(s, call, LineOf(t))
    ensures Sight(s, call, LineOf(t), m)
    ensures View(NextA(s, call), LineOf(t)) == L.Next(View(s, LineOf(t)), m)
  {
    AnswersOnly(t, s, g, call);
    Acknowledged(t, s, g);
    StageMeans(t, View(s, LineOf(t)), g);
    m := ActSeen(s, call, LineOf(t));
  }

  /** An event at the receiver, but for a refused START. */
  lemma SightB(t: L.Transfer, s: Net, g: Stage, call: Call) returns (m: L.Move)
    requires Stands(t, s, g) && Legal(s, Action(false, call)) && !Refuses(Swap(s), call, LineOf(t))
    ensures Sight(Swap(s), call, LineOf(t), m)
    ensures View(Next(s, Action(false, call)), LineOf(t)) == L.Next(View(s, LineOf(t)), Mirror(m))
  {
    var w := LineOf(t);
    Bits(t, s, g);
    if Takes(Swap(s), call, w) {
      SendBit(s.b, call.msg, call.now, call.env);
      assert false;
    }
    Acknowledged(t, s, g);
    StageMeans(t, View(s, w), g);
    ViewSwaps(s, w);
    SwapKeeps(s);
    m := ActSeen(Swap(s), call, w);
    MirrorNext(View(s, w), m);
    ViewSwaps(NextA(Swap(s), call), w);
  }

  /** Whatever else is under way, an event keeps the transfer where it belongs, unless
      its key is taken again. */
  lemma StepKeeps(t: L.Transfer, s: Net, g: Stage, st: Action) returns (g': Stage)
    requires Stands(t, s, g) && Legal(s, st) && !(st.atA && Takes(s, st.call, LineOf(t)))
    ensures Stands(t, Next(s, st), g')
  {
    NextKeeps(s, st);
    if st.atA {
      var m := SightA(t, s, g, st.call);
      g' := StageKeeps(t, View(s, LineOf(t)), g, m);
    } else if Refuses(Swap(s), st.call, LineOf(t)) {
      RefusedStep(t, s, g, st.call.i, st.call.now, st.call.env);
      g' := Now(L.AbortToA);
    } else {
      var m := SightB(t, s, g, st.call);
      g' := StageKeeps(t, View(s, LineOf(t)), g, Mirror(m));
    }
  }

  // --------------------------------------------------------------------------- runs

  /** Two different nodes with valid addresses, nothing in use, nothing in flight. */
  ghost predicate FreshNet(s: Net) {
    Fresh(s.a) && Fresh(s.b) && s.a.own != s.b.own && s.toA == [] && s.toB == []
  }

  /** A run in which anything happens, but third nodes do not pose as the two. */
  ghost predicate LegalRun(s: Net, steps: seq<Action>)
    requires ContextOk(s.a) && ContextOk(s.b)
  {
    steps != [] ==> var n := |steps| - 1; LegalRun(s, steps[..n]) && Legal(Run(s, steps[..n]), steps[n])
  }

  /** In every run from fresh nodes each keeps its sessions with the other under different
      keys, and every frame in flight carries its sender's address and, if a START, its
      sender's bit. */
  lemma {:induction false} ReachableNet(s: Net, steps: seq<Action>)
    requires FreshNet(s)
    ensures ContextOk(s.a) && ContextOk(s.b)
    ensures LegalRun(s, steps) ==>
              var n := Run(s, steps);
              NetOk(n) && n.a.own == s.a.own && n.b.own == s.b.own
  {
    if steps != [] && LegalRun(s, steps) {
      ReachableNet(s, steps[..|steps| - 1]);
      NextKeeps(Run(s, steps[..|steps| - 1]), steps[|steps| - 1]);
    }
  }

  /** A run in which `a` does not take the key for another transfer. */
  ghost predicate KeepsKey(s: Net, steps: seq<Action>, w: Line)
    requires ContextOk(s.a) && ContextOk(s.b)
  {
    steps != [] ==>
      var n := |steps| - 1;
      KeepsKey(s, steps[..n], w) && !(steps[n].atA && Takes(Run(s, steps[..n]), steps[n].call, w))
  }

  lemma {:induction false} RunKeeps(t: L.Transfer, s: Net, g: Stage, steps: seq<Action>) returns (g': Stage)
    requires Stands(t, s, g) && LegalRun(s, steps) && KeepsKey(s, steps, LineOf(t))
    ensures Stands(t, Run(s, steps), g')
  {
    g' := g;
    if steps != [] {
      var n := |steps| - 1;
      g' := RunKeeps(t, s, g, steps[..n]);
      g' := StepKeeps(t, Run(s, steps[..n]), g', steps[n]);
    }
  }

  // ----------------------------------------------------------- an acknowledged send

  /** No frame of the transfer is in flight. */
  ghost predicate NoAir(s: Net, w: Line) {
    Filter(s.toA, FrameOn(w)) == [] && Filter(s.toB, FrameOn(w)) == []
  }

  /** Nor has the receiver a session under its key. */
  ghost predicate Idle(s: Net, w: Line) {
    NoAir(s, w) && FindSession(s.b.sessions, Key(w.x, w.y, w.sid)) == |s.b.sessions|
  }

  /** `a` accepts an acknowledged message for `b`. */
  ghost predicate Accepted(s: Net, msg: Message, now: nat, env: Env) {
    NetOk(s) && msg.mode == WithAck && msg.to == s.b.own && StartSend(s.a, msg, now, env).result == Ok
  }

  /** The key the send takes. */
  ghost function TakenLine(s: Net, msg: Message, now: nat, env: Env): Line {
    Line(s.a.own, s.b.own, StartSend(s.a, msg, now, env).output.sid)
  }

  /** What the receiver should hand out. */
  function Meant(w: Line, data: seq<byte>): Message { Message(WithAck, w.x, w.y, w.sid, data) }

  /** The network after the send; records start here. */
  ghost function Sent(s: Net, msg: Message, now: nat, env: Env): (n: Net)
    requires NetOk(s)
    ensures ContextOk(n.a) && ContextOk(n.b)
  {
    NextA(s, SendCall(msg, now, env)).(came := [], done := [], took := [])
  }

  /** One frame in flight at most, one message handed out at most and it is the one
      meant, success at most once and only after that, a bounded number of frames
      handled; and once success is reported the key is idle again. */
  ghost predicate Safe(n: Net, w: Line, data: seq<byte>) {
    var came := Filter(n.came, MessageOn(w));
    && |Filter(n.toA, FrameOn(w))| + |Filter(n.toB, FrameOn(w))| <= 1
    && (came == [] || came == [Meant(w, data)])
    && |Filter(n.done, KeyOn(w))| <= |came|
    && |Filter(n.took, KeyOn(w))| <= 2 * (SliceCount(data) + 2) + 1
    && (Filter(n.done, KeyOn(w)) != [] ==> Idle(n, w))
  }

  lemma StandsMeans(t: L.Transfer, n: Net, g: Stage)
    requires Stands(t, n, g)
    ensures Safe(n, LineOf(t), t.s.payload)
  {
    var w := LineOf(t);
    StageMeans(t, View(n, w), g);
    if Filter(n.done, KeyOn(w)) != [] {
      assert OneSession(n.b, KeyA(Swap(n), w)) == t.b.sessions[0];
    }
  }

  ghost function OneSlot(c: Context, x: Session): Context { Context(c.own, c.maxSize, c.timeoutMs, [x]) }

  /** The session of the send, as seen through its key, and its START on the air. */
  lemma SentSeen(s: Net, msg: Message, now: nat, env: Env) returns (x: Session)
    requires Accepted(s, msg, now, env)
    ensures var n, w := Sent(s, msg, now, env), TakenLine(s, msg, now, env);
            && NetOk(n) && n.b == s.b && n.a.maxSize == s.a.maxSize && n.a.timeoutMs == s.a.timeoutMs
            && n.a.own == s.a.own && OneSession(n.a, KeyA(s, w)) == x && x.mask == {s.b.own}
            && x.state == TxWaitStartAck && x.mode == WithAck && KeyOf(x) == KeyA(s, w) && x.payload == msg.data
            && n.toA == s.toA
            && Filter(n.toB, FrameOn(w)) == Filter(s.toB, FrameOn(w)) + [Encode(ToPeer(s.a.own, x, Start))]
            && w.sid <= 15 && w.sid % 2 == InitiatorBit(s.a.own, s.b.own)
  {
    var r, w := StartSend(s.a, msg, now, env), TakenLine(s, msg, now, env);
    SendEffect(s.a, msg, now, env);
    SendBit(s.a, msg, now, env);
    NextAKeeps(s, SendCall(msg, now, env));
    var j := FindFree(s.a.sessions, msg.to);
    PeerLookup(r.ctx.sessions, j);
    x := r.ctx.sessions[j].(mask := {s.b.own});
    var i, k := Effect(s.a, Send(msg, now, env));
    OutputSeen(s, r.output, [], k, w);
  }

  /** The receiver's session under the key, if any, is a reception. */
  lemma OnlyReceives(s: Net, w: Line)
    requires NetOk(s) && w.x == s.a.own && w.y == s.b.own && w.sid % 2 == InitiatorBit(w.x, w.y)
    ensures var y := OneSession(s.b, Key(w.x, w.y, w.sid));
            && SessionOk(y, s.b.own, s.b.maxSize) && y.mask == {w.x}
            && (y == FreeSession({w.x}) || (y.state == Rx && KeyOf(y) == Key(w.x, w.y, w.sid)))
  {
    var i := FindSession(s.b.sessions, Key(w.x, w.y, w.sid));
    if i < |s.b.sessions| {
      assert HasKey(Key(w.x, w.y, w.sid))(s.b.sessions[i]);
    }
  }

  lemma SentView(s: Net, n: Net, w: Line, x: Session, y: Session)
    requires n.b == s.b && n.a.own == s.a.own && n.a.maxSize == s.a.maxSize && n.a.timeoutMs == s.a.timeoutMs
    requires OneSession(n.a, KeyA(s, w)) == x && OneSession(s.b, KeyA(Swap(s), w)) == y && NoAir(s, w) && n.toA == s.toA
    requires Filter(n.toB, FrameOn(w)) == Filter(s.toB, FrameOn(w)) + [Encode(ToPeer(s.a.own, x, Start))]
    requires n.came == [] && n.done == [] && n.took == []
    ensures View(n, w) == L.Link(OneSlot(s.a, x), OneSlot(s.b, y), [], [Encode(ToPeer(s.a.own, x, Start))], [], 0, 0)
  {
  }

  /** With nothing of the key in flight, the transfer starts well. */
  lemma SentStands(s: Net, msg: Message, now: nat, env: Env) returns (t: L.Transfer, g: Stage)
    requires Accepted(s, msg, now, env) && NoAir(s, TakenLine(s, msg, now, env))
    ensures var n := Sent(s, msg, now, env);
            && Stands(t, n, g) && LineOf(t) == TakenLine(s, msg, now, env) && t.s.payload == msg.data
            && t.b.maxSize == s.b.maxSize && Well(t, View(n, LineOf(t)))
  {
    var x := SentSeen(s, msg, now, env);
    t, g := SentTransfer(s, Sent(s, msg, now, env), TakenLine(s, msg, now, env), x);
  }

  lemma SentTransfer(s: Net, n: Net, w: Line, x: Session) returns (t: L.Transfer, g: Stage)
    requires NetOk(s) && NetOk(n) && x.mask == {s.b.own} && x.state == TxWaitStartAck && x.mode == WithAck
    requires w.x == s.a.own && w.y == s.b.own && w.sid % 2 == InitiatorBit(w.x, w.y) && KeyOf(x) == KeyA(s, w)
    requires n.b == s.b && n.a.own == s.a.own && n.a.maxSize == s.a.maxSize && n.a.timeoutMs == s.a.timeoutMs
    requires OneSession(n.a, KeyA(s, w)) == x && NoAir(s, w) && n.toA == s.toA
    requires Filter(n.toB, FrameOn(w)) == Filter(s.toB, FrameOn(w)) + [Encode(ToPeer(s.a.own, x, Start))]
    requires n.came == [] && n.done == [] && n.took == []
    ensures Stands(t, n, g) && LineOf(t) == w && t.s == x && t.b.maxSize == s.b.maxSize && Well(t, View(n, w))
  {
    var y := OneSession(s.b, KeyA(Swap(s), w));
    OnlyReceives(s, w);
    SentView(s, n, w, x, y);
    SoloOk(n.a, KeyA(s, w));
    SoloOk(s.b, KeyA(Swap(s), w));
    t := L.Transfer(OneSlot(s.a, FreeSession({s.b.own})), OneSlot(s.b, FreeSession({s.a.own})), 0, x);
    g := SentStart(t, View(n, w), x, y);
  }

  lemma SentStart(t: L.Transfer, l: L.Link, x: Session, y: Session) returns (g: Stage)
    requires Fresh(t.a) && Fresh(t.b) && t.a.own != t.b.own && t.ia == 0 && t.s == x
    requires t.a.sessions == [FreeSession({t.b.own})] && t.b.sessions == [FreeSession({t.a.own})]
    requires x.mask == {t.b.own} && x.state == TxWaitStartAck && x.mode == WithAck && x.peer == t.b.own
    requires SessionOk(y, t.b.own, t.b.maxSize) && y.mask == {t.a.own}
    requires y == FreeSession({t.a.own}) || (y.state == Rx && KeyOf(y) == t.BKey())
    requires ContextOk(l.a) && ContextOk(l.b)
    requires l == L.Link(t.a.(sessions := [x]), t.b.(sessions := [y]), [], [Encode(ToPeer(t.a.own, x, Start))],
                         [], 0, 0)
    ensures Holds(t, l, g) && Well(t, l)
  {
    assert l.a.sessions[0] == x && t.a.sessions[0] == FreeSession({t.b.own}) && l.b.sessions[0] == y;
    assert SessionOk(x, t.a.own, t.a.maxSize);
    assert AtFrame(t.s, x, 0);
    FirstIs(t.b.sessions, FreeFor(t.a.own), 0);
    assert t.b.sessions[0 := y] == [y] && t.a.sessions[0 := x] == [x];
    assert L.SenderOk(t, l.a, L.Script(0));
    if y.state == Rx {
      g := Old;
    } else {
      assert L.ReceiverOk(t, l.b, L.Script(0));
      assert L.TokenAt(t, 0) == L.Script(0);
      g := Now(L.Script(0));
    }
  }

  // ------------------------------------------------------------------------ safety

  /** From the send until its key is taken again. */
  lemma SafeSend(s: Net, msg: Message, now: nat, env: Env, steps: seq<Action>)
    requires Accepted(s, msg, now, env) && NoAir(s, TakenLine(s, msg, now, env))
    requires LegalRun(Sent(s, msg, now, env), steps)
    requires KeepsKey(Sent(s, msg, now, env), steps, TakenLine(s, msg, now, env))
    ensures Safe(Run(Sent(s, msg, now, env), steps), TakenLine(s, msg, now, env), msg.data)
  {
    var t, g := SentStands(s, msg, now, env);
    g := RunKeeps(t, Sent(s, msg, now, env), g, steps);
    StandsMeans(t, Run(Sent(s, msg, now, env), steps), g);
  }

  /** In every run from here until the key is taken again. */
  ghost predicate SafeThroughout(n: Net, w: Line, data: seq<byte>)
    requires ContextOk(n.a) && ContextOk(n.b)
  {
    forall steps :: LegalRun(n, steps) && KeepsKey(n, steps, w) ==> Safe(Run(n, steps), w, data)
  }

  /** Any number of transfers at once, acknowledged or not, to anyone, on a bus that may
      delay, reorder or drop frames and that other nodes use as they like: an accepted
      acknowledged send is safe in every run until its key is taken again, if and only if
      no frame of that key is in flight at the send. What the receiver still holds under
      the key does not matter. */
  lemma ManyTransfers(s: Net, msg: Message, now: nat, env: Env)
    requires Accepted(s, msg, now, env)
    ensures var w := TakenLine(s, msg, now, env);
            NoAir(s, w) <==> SafeThroughout(Sent(s, msg, now, env), w, msg.data)
  {
    if NoAir(s, TakenLine(s, msg, now, env)) {
      ClearIsSafe(s, msg, now, env);
    } else {
      var x := SentSeen(s, msg, now, env);
      TwoAreUnsafe(Sent(s, msg, now, env), TakenLine(s, msg, now, env), msg.data);
    }
  }

  lemma ClearIsSafe(s: Net, msg: Message, now: nat, env: Env)
    requires Accepted(s, msg, now, env) && NoAir(s, TakenLine(s, msg, now, env))
    ensures SafeThroughout(Sent(s, msg, now, env), TakenLine(s, msg, now, env), msg.data)
  {
    var n, w := Sent(s, msg, now, env), TakenLine(s, msg, now, env);
    forall steps | LegalRun(n, steps) && KeepsKey(n, steps, w) ensures Safe(Run(n, steps), w, msg.data) {
      SafeSend(s, msg, now, env, steps);
    }
  }

  lemma TwoAreUnsafe(n: Net, w: Line, data: seq<byte>)
    requires ContextOk(n.a) && ContextOk(n.b) && |Filter(n.toA, FrameOn(w))| + |Filter(n.toB, FrameOn(w))| > 1
    ensures !SafeThroughout(n, w, data)
  {
    assert Run(n, []) == n && LegalRun(n, []) && KeepsKey(n, [], w);
  }

  // ------------------------------------------------------ what the sender can know

  /** Nothing of the key is left: no frame, and no session at either node. */
  ghost predicate Clear(n: Net, w: Line) {
    && NoAir(n, w) && FindSession(n.a.sessions, KeyA(n, w)) == |n.a.sessions|
    && FindSession(n.b.sessions, KeyA(Swap(n), w)) == |n.b.sessions|
  }

  /** What the call at `a` reports. */
  ghost function Told(s: Net, call: Call): Output
    requires ContextOk(s.a)
  {
    match call
    case SendCall(msg, now, env) => Perform(s.a, Send(msg, now, env)).output
    case Take(i, now, env) => if i < |s.toA| then Perform(s.a, Receive(s.toA[i], now, env)).output else NO_OUTPUT
    case Hear(frame, now, env) => Perform(s.a, Receive(frame, now, env)).output
    case Lose(_) => NO_OUTPUT
    case TickCall(now) => Perform(s.a, Tick(now)).output
  }

  /** What the sender knows of a key from its own calls: that every transfer under it so
      far was acknowledged and has reported success or an abort; that one more like that
      is under way; or that some transfer under it timed out or was not acknowledged. */
  datatype Trust = Clean | UnderWay | Spent

  ghost function TrustNext(s: Net, st: Action, w: Line, trust: Trust): Trust
    requires ContextOk(s.a)
  {
    if !st.atA then trust
    else if Takes(s, st.call, w) then
      if trust.Clean? && st.call.msg.mode == WithAck then UnderWay else Spent
    else
      var out := Told(s, st.call);
      if !trust.UnderWay? || out.peer != w.y || out.sid != w.sid || !ForTx(out.event) then trust
      else if out.event == TxTimeout then Spent else Clean
  }

  ghost function TrustAfter(s: Net, steps: seq<Action>, w: Line): Trust
    requires ContextOk(s.a) && ContextOk(s.b)
  {
    if steps == [] then Clean
    else
      var n := |steps| - 1;
      TrustNext(Run(s, steps[..n]), steps[n], w, TrustAfter(s, steps[..n], w))
  }

  ghost predicate Quiet(l: L.Link) {
    Fresh(l.a) && Fresh(l.b) && l.toA == [] && l.toB == []
  }

  lemma ClearIsQuiet(n: Net, w: Line)
    requires NetOk(n)
    ensures Clear(n, w) <==> Quiet(View(n, w))
  {
    var l := View(n, w);
    assert l.a.sessions == [OneSession(n.a, KeyA(n, w))] && l.b.sessions == [OneSession(n.b, KeyA(Swap(n), w))];
    assert Quiet(l) ==> l.a.sessions[0].state == Free && l.b.sessions[0].state == Free;
  }

  lemma QuietStays(l: L.Link, m: L.Move)
    requires ContextOk(l.a) && ContextOk(l.b) && Quiet(l)
    ensures Quiet(L.Next(l, m))
  {
    if m.TickA? {
      L.TickFresh(l.a, m.now);
      L.SilentTicks(l, m.now);
    } else if m.TickB? {
      L.TickFresh(l.b, m.now);
      L.SilentTicks(l, m.now);
    }
  }

  lemma ClearStaysA(n: Net, call: Call, w: Line)
    requires NetOk(n) && Ends(n, w) && Legal(n, Action(true, call)) && Clear(n, w) && !Takes(n, call, w)
    ensures Clear(NextA(n, call), w)
  {
    ClearIsQuiet(n, w);
    NextAKeeps(n, call);
    if Concerns(n, call, w) {
      assert n.toA[call.i] in n.toA;
      HeardOn(n, n.toA[call.i], w);
      FilterWithout(n.toA, call.i, FrameOn(w));
      assert false;
    }
    var m := ActSeen(n, call, w);
    QuietStays(View(n, w), m);
    ClearIsQuiet(NextA(n, call), w);
  }

  /** A key of which nothing is left stays so until it is taken. */
  lemma ClearStays(n: Net, st: Action, w: Line)
    requires NetOk(n) && w.x == n.a.own && w.y == n.b.own && w.sid % 2 == InitiatorBit(w.x, w.y)
    requires Legal(n, st) && Clear(n, w) && !(st.atA && Takes(n, st.call, w))
    ensures Clear(Next(n, st), w)
  {
    if st.atA {
      ClearStaysA(n, st.call, w);
    } else {
      SwapKeeps(n);
      if Takes(Swap(n), st.call, w) {
        SendBit(n.b, st.call.msg, st.call.now, st.call.env);
        assert false;
      }
      ClearStaysA(Swap(n), st.call, w);
    }
  }

  /** The call reports that a transfer under the key has succeeded or was aborted. */
  ghost predicate Reports(out: Output, k: Key) {
    out.event in {TxFinished, TxAborted} && out.peer == k.peer && out.sid == k.sid
  }

  lemma FrameReports(c: Context, f: Frame, now: nat, env: Env, k: Key)
    requires ContextOk(c) && k.local == c.own && Reports(Perform(c, Receive(f, now, env)).output, k)
    ensures FrameKey(f) == k
  {
    ReceiveSpeaks(c, f, now, env);
  }

  lemma TickReportsNone(c: Context, now: nat, k: Key)
    requires ContextOk(c) && PeerKeys(c.sessions, k.peer) && k.local == c.own && OneSession(c, k).state != TxWithoutAck
    ensures !Reports(Process(c, now).output, k)
  {
    var j, other := TickServes(c, now);
    if j < |c.sessions| && other == k { PeerLookup(c.sessions, j); }
  }

  /** The report comes from the frame taken. */
  lemma EndsAtFrame(s: Net, w: Line, call: Call)
    requires NetOk(s) && Ends(s, w) && Legal(s, Action(true, call)) && Reports(Told(s, call), KeyA(s, w))
    requires OneSession(s.a, KeyA(s, w)).state != TxWithoutAck
    ensures call.Take? && Concerns(s, call, w)
  {
    match call
    case SendCall(msg, now, env) => SendEffect(s.a, msg, now, env);
    case Take(i, now, env) => if i < |s.toA| { FrameReports(s.a, s.toA[i], now, env, KeyA(s, w)); }
    case Hear(frame, now, env) => FrameReports(s.a, frame, now, env, KeyA(s, w));
    case Lose(_) =>
    case TickCall(now) => TickReportsNone(s.a, now, KeyA(s, w));
  }

  lemma EndSeen(t: L.Transfer, s: Net, g: Stage, call: Call)
    requires Stands(t, s, g) && Legal(s, Action(true, call)) && Reports(Told(s, call), KeyA(s, LineOf(t)))
    ensures Clear(NextA(s, call), LineOf(t))
  {
    var w := LineOf(t);
    Acknowledged(t, s, g);
    EndsAtFrame(s, w, call);
    AnswersOnly(t, s, g, call);
    StageMeans(t, View(s, w), g);
    NextAKeeps(s, call);
    var f := s.toA[call.i];
    var op := Receive(f, call.now, call.env);
    assert f in s.toA;
    ReceiveThrough(s.a, f, call.now, call.env, KeyA(s, w));
    ReceiveSpeaks(s.a, f, call.now, call.env);
    TakeHere(s, f, call.i, op, w);
    DeliverNext(View(s, w), f, call.now, call.env);
    EndsClear(t, View(s, w), g, f, L.DeliverA(0, call.now, call.env));
    ClearIsQuiet(NextA(s, call), w);
  }

  ghost predicate SameBut(n: Net, x: Net) { n.a == x.a && n.b == x.b && n.toA == x.toA && n.toB == x.toB }

  /** The records have no influence. */
  lemma RecordsOnly(n: Net, x: Net, st: Action)
    requires ContextOk(n.a) && ContextOk(n.b) && SameBut(n, x)
    ensures SameBut(Next(n, st), Next(x, st))
  {
  }

  /** Clean keys have nothing left of them; one under way stands in the network with
      records that start at its send. */
  ghost predicate Trusted(n: Net, w: Line, trust: Trust, x: Net, t: L.Transfer, g: Stage) {
    match trust
    case Clean => Clear(n, w)
    case UnderWay => SameBut(n, x) && LineOf(t) == w && Stands(t, x, g)
    case Spent => true
  }

  ghost predicate Own(n: Net, w: Line) {
    NetOk(n) && w.x == n.a.own && w.y == n.b.own && w.sid % 2 == InitiatorBit(w.x, w.y)
  }

  lemma TrustOpens(n: Net, st: Action, w: Line) returns (x: Net, t: L.Transfer, g: Stage)
    requires Own(n, w) && Clear(n, w) && st.atA && Takes(n, st.call, w) && st.call.msg.mode == WithAck
    ensures Trusted(Next(n, st), w, UnderWay, x, t, g)
  {
    x := Sent(n, st.call.msg, st.call.now, st.call.env);
    t, g := SentStands(n, st.call.msg, st.call.now, st.call.env);
  }

  lemma TrustGoesOn(n: Net, st: Action, w: Line, x: Net, t: L.Transfer, g: Stage) returns (g': Stage)
    requires NetOk(n) && Legal(n, st) && SameBut(n, x) && LineOf(t) == w && Stands(t, x, g)
    requires !(st.atA && Takes(n, st.call, w))
    ensures SameBut(Next(n, st), Next(x, st)) && Stands(t, Next(x, st), g')
  {
    RecordsOnly(n, x, st);
    g' := StepKeeps(t, x, g, st);
  }

  lemma TrustReturns(n: Net, call: Call, w: Line, x: Net, t: L.Transfer, g: Stage)
    requires NetOk(n) && Legal(n, Action(true, call)) && SameBut(n, x) && LineOf(t) == w && Stands(t, x, g)
    requires Reports(Told(n, call), KeyA(n, w))
    ensures Clear(NextA(n, call), w)
  {
    EndSeen(t, x, g, call);
    RecordsOnly(n, x, Action(true, call));
    SameClear(NextA(n, call), NextA(x, call), w);
  }

  lemma SameClear(n: Net, x: Net, w: Line)
    requires SameBut(n, x) && Clear(x, w)
    ensures Clear(n, w)
  {
  }

  lemma FromClean(n: Net, st: Action, w: Line) returns (x: Net, t: L.Transfer, g: Stage)
    requires Own(n, w) && Legal(n, st) && Clear(n, w)
    ensures Trusted(Next(n, st), w, TrustNext(n, st, w, Clean), x, t, g)
  {
    x, t, g := n, L.Transfer(n.a, n.b, 0, FreeSession({})), Old;
    if !(st.atA && Takes(n, st.call, w)) {
      ClearStays(n, st, w);
    } else if st.call.msg.mode == WithAck {
      x, t, g := TrustOpens(n, st, w);
    }
  }

  /** When a key under way becomes clean, or stays under way. */
  lemma TrustCases(n: Net, st: Action, w: Line)
    requires Own(n, w)
    ensures var next := TrustNext(n, st, w, UnderWay);
            && (next.Clean? ==> st.atA && Reports(Told(n, st.call), KeyA(n, w)))
            && (next.UnderWay? ==> !(st.atA && Takes(n, st.call, w)))
  {
  }

  lemma FromUnderWay(n: Net, st: Action, w: Line, x: Net, t: L.Transfer, g: Stage) returns (x': Net, g': Stage)
    requires Own(n, w) && Legal(n, st) && SameBut(n, x) && LineOf(t) == w && Stands(t, x, g)
    ensures Trusted(Next(n, st), w, TrustNext(n, st, w, UnderWay), x', t, g')
  {
    x', g' := x, g;
    TrustCases(n, st, w);
    match TrustNext(n, st, w, UnderWay)
    case Clean => TrustReturns(n, st.call, w, x, t, g);
    case UnderWay =>
      x' := Next(x, st);
      g' := TrustGoesOn(n, st, w, x, t, g);
    case Spent =>
  }

  lemma TrustStep(n: Net, st: Action, w: Line, trust: Trust, x: Net, t: L.Transfer, g: Stage)
      returns (x': Net, t': L.Transfer, g': Stage)
    requires Own(n, w) && Legal(n, st) && Trusted(n, w, trust, x, t, g)
    ensures Trusted(Next(n, st), w, TrustNext(n, st, w, trust), x', t', g')
  {
    x', t', g' := x, t, g;
    match trust
    case Clean => x', t', g' := FromClean(n, st, w);
    case UnderWay => x', g' := FromUnderWay(n, st, w, x, t, g);
    case Spent =>
  }

  lemma {:induction false} TrustHolds(s: Net, steps: seq<Action>, w: Line) returns (x: Net, t: L.Transfer, g: Stage)
    requires FreshNet(s) && ContextOk(s.a) && ContextOk(s.b) && LegalRun(s, steps)
    requires w.x == s.a.own && w.y == s.b.own && w.sid % 2 == InitiatorBit(w.x, w.y)
    ensures Own(Run(s, steps), w) && Trusted(Run(s, steps), w, TrustAfter(s, steps, w), x, t, g)
  {
    ReachableNet(s, steps);
    x, t, g := s, L.Transfer(s.a, s.b, 0, FreeSession({})), Old;
    if steps == [] {
      L.FreshLookup(s.a, KeyA(s, w));
      L.FreshLookup(s.b, KeyA(Swap(s), w));
    } else {
      var n := |steps| - 1;
      x, t, g := TrustHolds(s, steps[..n], w);
      x, t, g := TrustStep(Run(s, steps[..n]), steps[n], w, TrustAfter(s, steps[..n], w), x, t, g);
    }
  }

  /** What a sender can rely on, from its own calls alone: in every run from fresh nodes,
      an acknowledged send that takes a key it has never taken, or under which every
      transfer so far was acknowledged and has reported success or an abort, finds
      nothing of the key left and is safe until the key is taken again. */
  lemma CleanKeysAreSafe(s: Net, steps: seq<Action>, msg: Message, now: nat, env: Env)
    requires FreshNet(s) && ContextOk(s.a) && ContextOk(s.b) && LegalRun(s, steps)
    requires var n := Run(s, steps);
             && msg.mode == WithAck && msg.to == s.b.own && StartSend(n.a, msg, now, env).result == Ok
             && TrustAfter(s, steps, TakenLine(n, msg, now, env)) == Clean
    ensures var n := Run(s, steps);
            var w := TakenLine(n, msg, now, env);
            && Accepted(n, msg, now, env) && Clear(n, w)
            && SafeThroughout(Sent(n, msg, now, env), w, msg.data)
  {
    var n := Run(s, steps);
    ReachableNet(s, steps);
    SendBit(n.a, msg, now, env);
    var x, t, g := TrustHolds(s, steps, TakenLine(n, msg, now, env));
    ManyTransfers(n, msg, now, env);
  }

  // ------------------------------------------------------------------- completion

  /** Nothing goes wrong with the transfer in this event, whatever else does: none of its
      frames is lost, rejected, refused or met with a failed allocation, and neither of
      its sessions is overdue at a call of `process`. */
  ghost predicate Untroubled(s: Net, st: Action, w: Line) {
    var n := if st.atA then s else Swap(s);
    match st.call
    case Take(i, now, env) =>
      Concerns(n, st.call, w) ==> env == Env(true, true) && !Refused(n.a, n.toA[i])
    case Lose(i) => !Concerns(n, st.call, w)
    case TickCall(now) => !Overdue(now, n.a.timeoutMs)(OneSession(n.a, KeyA(n, w)))
    case _ => true
  }

  ghost predicate UntroubledRun(s: Net, steps: seq<Action>, w: Line)
    requires ContextOk(s.a) && ContextOk(s.b)
  {
    steps != [] ==> var n := |steps| - 1; UntroubledRun(s, steps[..n], w) && Untroubled(Run(s, steps[..n]), steps[n], w)
  }

  lemma SmoothA(s: Net, call: Call, w: Line, m: L.Move)
    requires NetOk(s) && Untroubled(s, Action(true, call), w) && Sight(s, call, w, m)
    requires |Filter(s.toA, FrameOn(w))| <= 1
    requires Ends(s, w)
    ensures L.Smooth(View(s, w), m)
  {
    if m.LoseA? && m.i == 0 { assert false; }
  }

  lemma SmoothMirror(l: L.Link, m: L.Move)
    requires L.Smooth(SwapLink(l), m)
    ensures L.Smooth(l, Mirror(m))
  {
  }

  /** The one slot of the receiver, as seen, accepts the sender. */
  lemma HasRoom(t: L.Transfer, s: Net, g: Stage)
    requires Stands(t, s, g)
    ensures t.Ib() < |t.b.sessions|
  {
    var l := View(s, LineOf(t));
    assert l.b.sessions[0].mask == {t.a.own};
    assert t.b.sessions[0] == FreeSession(t.b.sessions[0].mask);
    assert l.b == t.b ==> FreeFor(t.a.own)(t.b.sessions[0]);
  }

  lemma UntroubledA(t: L.Transfer, s: Net, g: Stage, call: Call)
    requires Stands(t, s, g) && Legal(s, Action(true, call)) && !Takes(s, call, LineOf(t))
    requires Untroubled(s, Action(true, call), LineOf(t)) && Well(t, View(s, LineOf(t))) && |t.s.payload| <= t.b.maxSize
    ensures Well(t, View(NextA(s, call), LineOf(t)))
  {
    HasRoom(t, s, g);
    StageMeans(t, View(s, LineOf(t)), g);
    var m := SightA(t, s, g, call);
    SmoothA(s, call, LineOf(t), m);
    WellStep(t, View(s, LineOf(t)), m);
  }

  lemma UntroubledB(t: L.Transfer, s: Net, g: Stage, call: Call)
    requires Stands(t, s, g) && Legal(s, Action(false, call))
    requires Untroubled(s, Action(false, call), LineOf(t)) && Well(t, View(s, LineOf(t)))
    requires |t.s.payload| <= t.b.maxSize
    ensures Well(t, View(Next(s, Action(false, call)), LineOf(t)))
  {
    var w := LineOf(t);
    HasRoom(t, s, g);
    StageMeans(t, View(s, w), g);
    SwapKeeps(s);
    ViewSwaps(s, w);
    var m := SightB(t, s, g, call);
    SmoothA(Swap(s), call, w, m);
    SmoothMirror(View(s, w), m);
    WellStep(t, View(s, w), Mirror(m));
  }

  lemma UntroubledStep(t: L.Transfer, s: Net, g: Stage, st: Action) returns (g': Stage)
    requires Stands(t, s, g) && Legal(s, st) && !(st.atA && Takes(s, st.call, LineOf(t)))
    requires Untroubled(s, st, LineOf(t)) && Well(t, View(s, LineOf(t))) && |t.s.payload| <= t.b.maxSize
    ensures Stands(t, Next(s, st), g') && Well(t, View(Next(s, st), LineOf(t)))
  {
    if st.atA {
      UntroubledA(t, s, g, st.call);
    } else {
      UntroubledB(t, s, g, st.call);
    }
    g' := StepKeeps(t, s, g, st);
  }

  lemma {:induction false} UntroubledKeeps(t: L.Transfer, s: Net, g: Stage, steps: seq<Action>) returns (g': Stage)
    requires Stands(t, s, g) && LegalRun(s, steps) && KeepsKey(s, steps, LineOf(t))
    requires UntroubledRun(s, steps, LineOf(t)) && Well(t, View(s, LineOf(t))) && |t.s.payload| <= t.b.maxSize
    ensures Stands(t, Run(s, steps), g') && Well(t, View(Run(s, steps), LineOf(t)))
  {
    g' := g;
    if steps != [] {
      var n := |steps| - 1;
      g' := UntroubledKeeps(t, s, g, steps[..n]);
      g' := UntroubledStep(t, Run(s, steps[..n]), g', steps[n]);
    }
  }

  /** Completion of any of the transfers, whatever becomes of the others: a message the
      receiver has room for, sent with nothing of its key in flight, takes exactly
      2 * (slices + 2) frames as long as nothing goes wrong with it. Until then one of
      them is in flight and success is not reported; at that point it has been handed
      out, success has been reported, and nothing of its key is left. */
  lemma ManyComplete(s: Net, msg: Message, now: nat, env: Env, steps: seq<Action>)
    requires Accepted(s, msg, now, env) && NoAir(s, TakenLine(s, msg, now, env)) && |msg.data| <= s.b.maxSize
    requires var n, w := Sent(s, msg, now, env), TakenLine(s, msg, now, env);
             LegalRun(n, steps) && KeepsKey(n, steps, w) && UntroubledRun(n, steps, w)
    ensures var n, w := Run(Sent(s, msg, now, env), steps), TakenLine(s, msg, now, env);
            var total := 2 * (SliceCount(msg.data) + 2);
            var handled := |Filter(n.took, KeyOn(w))|;
            && handled <= total
            && if handled < total then
                 |Filter(n.toA, FrameOn(w))| + |Filter(n.toB, FrameOn(w))| == 1 && Filter(n.done, KeyOn(w)) == []
               else
                 && Clear(n, w) && |Filter(n.done, KeyOn(w))| == 1
                 && Filter(n.came, MessageOn(w)) == [Meant(w, msg.data)]
  {
    var t, g := SentStands(s, msg, now, env);
    var n := Run(Sent(s, msg, now, env), steps);
    g := UntroubledKeeps(t, Sent(s, msg, now, env), g, steps);
    WellMeans(t, View(n, LineOf(t)));
    if View(n, LineOf(t)).handled == 2 * t.Frames() {
      ClearIsQuiet(n, LineOf(t)) by { assert t.Valid(); }
    }
  }
}
