/** The acknowledged transfer of ImpLink, also for a receiver that still holds a
    reception of an earlier transfer under the same key: its START clears that. */
module ImpRetry {
  import opened Can
  import opened ImpCore
  import opened ImpInvariants
  import ImpProcess
  import opened ImpReceive
  import opened ImpSender
  import opened ImpLink

  /** Before its START is handled a transfer may meet an old reception; from then on it
      stands where its token says. */
  datatype Stage = Old | Now(k: Token)

  /** An old reception in the slot the START will find. */
  ghost predicate OldReception(t: Transfer, b: Context)
    requires t.Valid()
  {
    && |b.sessions| == |t.b.sessions| && t.Ib() < |t.b.sessions|
    && b == t.b.(sessions := t.b.sessions[t.Ib() := b.sessions[t.Ib()]])
    && var s := b.sessions[t.Ib()];
       && s.state == Rx && KeyOf(s) == t.BKey() && s.mask == t.b.sessions[t.Ib()].mask
       && SessionOk(s, t.b.own, t.b.maxSize)
  }

  /** The START is in flight or lost, and nothing has been handled. */
  ghost predicate Before(t: Transfer, l: Link) {
    && t.Valid() && ContextOk(l.a) && ContextOk(l.b) && SenderOk(t, l.a, Script(0)) && OldReception(t, l.b)
    && l.toA == [] && (l.toB == [] || l.toB == [Encode(t.Forth(Start))])
    && l.delivered == [] && l.finished == 0 && l.handled == 0
  }

  ghost predicate Holds(t: Transfer, l: Link, g: Stage) {
    match g
    case Old => Before(t, l)
    case Now(k) => Inv(t, l, k)
  }

  // ---------------------------------------------------------------- moves before START

  /** The START makes the old reception the transfer's own, empty again. */
  lemma StartClears(t: Transfer, l: Link, m: Move) returns (s: Session)
    requires Before(t, l) && m.DeliverB? && m.i == 0 && l.toB != []
    ensures s.state == Rx && KeyOf(s) == t.BKey() && s.mode == WithAck && s.payload == []
    ensures s.mask == t.b.sessions[t.Ib()].mask && SessionOk(s, t.b.own, t.b.maxSize)
    ensures Next(l, m) == l.(b := l.b.(sessions := l.b.sessions[t.Ib() := s]), toA := [Encode(t.Back(Ack))], toB := [],
                             handled := 1)
  {
    var p := t.Forth(Start);
    var was := l.b.sessions[t.Ib()];
    var step := HandleRx(l.b.own, l.b.maxSize, was, Start, [], m.now, m.env);
    Carried(l.b, p, m.now, m.env);
    SoloLookup(t.b, l.b.sessions, t.Ib(), t.BKey());
    DispatchFound(l.b, Header(t.b.own, t.a.own, t.s.sid, Some(Start)), [], m.now, m.env, t.Ib());
    HandleRxOk(l.b.own, l.b.maxSize, was, Start, [], m.now, m.env);
    s := step.session;
    DeliveredB(l, Encode(p), m, l.b.(sessions := l.b.sessions[t.Ib() := s]), step.output);
    assert l.delivered + [] == l.delivered;
  }

  lemma ClearedMoved(t: Transfer, l: Link, n: Link, s: Session)
    requires Before(t, l) && ContextOk(n.b)
    requires n == l.(b := l.b.(sessions := l.b.sessions[t.Ib() := s]), toA := [Encode(t.Back(Ack))], toB := [],
               handled := 1)
    requires s.state == Rx && KeyOf(s) == t.BKey() && s.mode == WithAck && s.payload == []
    requires s.mask == t.b.sessions[t.Ib()].mask && SessionOk(s, t.b.own, t.b.maxSize)
    ensures Inv(t, n, AckOf(0)) && HasReception(t, n.b)
  {
    assert ReceptionAt(t, s, AckOf(0));
    assert SenderOk(t, n.a, AckOf(0));
    assert ReceiverOk(t, n.b, AckOf(0));
  }

  lemma OldEnds(t: Transfer, l: Link, n: Link)
    requires Before(t, l) && ContextOk(n.b)
    requires n == l.(b := l.b.(sessions := l.b.sessions[t.Ib() := Release(l.b.sessions[t.Ib()])]))
    ensures Inv(t, n, if l.toB == [] then Silence else Script(0))
  {
    var k := if l.toB == [] then Silence else Script(0);
    assert n.b.sessions[t.Ib()] == FreeSession(t.b.sessions[t.Ib()].mask) == t.b.sessions[t.Ib()];
    assert n.b.sessions == t.b.sessions[t.Ib() := n.b.sessions[t.Ib()]] == t.b.sessions;
    assert ReceiverOk(t, n.b, k);
    assert SenderOk(t, n.a, k);
  }

  lemma TickBefore(t: Transfer, l: Link, m: Move) returns (g: Stage)
    requires Before(t, l) && (m.TickA? || m.TickB?)
    ensures Holds(t, Next(l, m), g)
  {
    g := Old;
    PerformOk(l.a, Tick(m.now));
    PerformOk(l.b, Tick(m.now));
    SenderTicks(t, l.a, Script(0), m.now);
    TickSolo(l.b, m.now, t.b, t.Ib());
    SilentTicks(l, m.now);
    if m.TickA? {
      assert SenderOk(t, Next(l, m).a, Script(0));
    } else if Next(l, m).b != l.b {
      OldEnds(t, l, Next(l, m));
      g := Now(if l.toB == [] then Silence else Script(0));
    }
  }

  lemma BeforeKeeps(t: Transfer, l: Link, m: Move) returns (g: Stage)
    requires Before(t, l)
    ensures Holds(t, Next(l, m), g)
  {
    g := Old;
    match m
    case DeliverA(i, now, env) =>
    case DeliverB(i, now, env) =>
      if i < |l.toB| {
        var s := StartClears(t, l, m);
        ClearedMoved(t, l, Next(l, m), s);
        g := Now(AckOf(0));
      }
    case LoseA(i) =>
    case LoseB(i) => if i < |l.toB| { OneLost(l, m); }
    case TickA(now) => g := TickBefore(t, l, m);
    case TickB(now) => g := TickBefore(t, l, m);
  }

  lemma StageKeeps(t: Transfer, l: Link, g: Stage, m: Move) returns (g': Stage)
    requires Holds(t, l, g)
    ensures Holds(t, Next(l, m), g')
  {
    match g
    case Old => g' := BeforeKeeps(t, l, m);
    case Now(k) =>
      var k' := MoveKeeps(t, l, k, m);
      g' := Now(k');
  }

  lemma StageMeans(t: Transfer, l: Link, g: Stage)
    requires Holds(t, l, g)
    ensures |l.toA| + |l.toB| <= 1 && (l.delivered == [] || l.delivered == [t.Sent()])
    ensures l.finished <= |l.delivered| && l.handled <= 2 * t.Frames() + 1
    ensures l.finished > 0 ==> l.toA == [] && l.toB == [] && l.b == t.b
  {
    if g.Now? { InvMeans(t, l, g.k); }
  }

  // ---------------------------------------------------------------- how a transfer ends

  /** The sender reports success or an abort when it handles the last frame there is:
      nothing is in flight afterwards, and both nodes are as before the transfer. */
  lemma EndsClear(t: Transfer, l: Link, g: Stage, f: Frame, m: Move)
    requires Holds(t, l, g) && m.DeliverA? && m.i == 0 && l.toA == [f]
    requires Perform(l.a, Receive(f, m.now, m.env)).output.event in {TxFinished, TxAborted}
    ensures var n := Next(l, m); n.toA == [] && n.toB == [] && n.a == t.a && n.b == t.b
  {
    var k := g.k;
    OnlyToA(t, l, k);
    SenderHandles(t, l.a, k, Expected(k), m.now, m.env);
    assert l.a.sessions[t.ia].state != Free;
    if k.AbortToA? || (k.AckOf? && k.p == t.Frames() - 1) || k.NackOfEnd? {
      DeliverLast(t, l, k, m);
      assert !HasReception(t, l.b) by { NoneLeft(t, l, k); }
      ReceiverIdle(t, l.b, k);
    } else {
      var p := SenderAnswered(t, l, k, m.now);
      assert false;
    }
  }

  lemma NoneLeft(t: Transfer, l: Link, k: Token)
    requires Inv(t, l, k) && (k.AbortToA? || (k.AckOf? && k.p == t.Frames() - 1) || k.NackOfEnd?)
    ensures |l.b.sessions| == |t.b.sessions| && ReceiverOk(t, l.b, k) && !HasReception(t, l.b)
  {
  }

  // ------------------------------------------------------------------ undisturbed runs

  /** Nothing has gone wrong so far. */
  ghost predicate Well(t: Transfer, l: Link) {
    || (Before(t, l) && l.toB != [] && l.a.sessions[t.ia].state != Free)
    || (Healthy(t, l, l.handled) && l.handled <= 2 * t.Frames())
  }

  lemma BeforeSmooth(t: Transfer, l: Link, m: Move)
    requires Before(t, l) && l.toB != [] && l.a.sessions[t.ia].state != Free && Smooth(l, m)
    ensures Well(t, Next(l, m))
  {
    if m.TickA? {
      SenderSmooth(t, l.a, Script(0), m.now);
      SilentTicks(l, m.now);
    } else if m.TickB? {
      forall i | 0 <= i < |l.b.sessions| ensures l.b.sessions[i].state != TxWithoutAck {
        if i != t.Ib() { assert l.b.sessions[i] == t.b.sessions[i]; }
      }
      TickQuiet(l.b, m.now);
      SilentTicks(l, m.now);
    } else if m.DeliverB? && m.i == 0 {
      var s := StartClears(t, l, m);
      ClearedMoved(t, l, Next(l, m), s);
      assert TokenAt(t, 1) == AckOf(0);
    }
  }

  lemma WellStep(t: Transfer, l: Link, m: Move)
    requires Well(t, l) && Smooth(l, m) && t.Ib() < |t.b.sessions| && |t.s.payload| <= t.b.maxSize
    ensures Well(t, Next(l, m))
  {
    if Before(t, l) && l.toB != [] && l.a.sessions[t.ia].state != Free {
      BeforeSmooth(t, l, m);
    } else {
      SmoothStep(t, l, m);
    }
  }

  /** The exact number of frames, and the state at the end. */
  lemma WellMeans(t: Transfer, l: Link)
    requires Well(t, l)
    ensures l.handled <= 2 * t.Frames()
    ensures if l.handled < 2 * t.Frames() then |l.toA| + |l.toB| == 1 && l.finished == 0
            else l.toA == [] && l.toB == [] && l.a == t.a && l.b == t.b && l.finished == 1 && l.delivered == [t.Sent()]
  {
    if Healthy(t, l, l.handled) && l.handled <= 2 * t.Frames() { HealthyMeans(t, l, l.handled); }
  }
}
