/** `process` called over and over: it falls silent, and releases what is overdue,
    lowest slot first. */
module ImpProcess {
  import opened Can
  import opened ImpCore
  import opened ImpInvariants
  import opened ImpSender

  // --------------------------------------------------------------------- silence

  /** Calls `process` may still answer for this session. */
  ghost function Work(s: Session): nat {
    if s.state == Free then 0
    else if s.state == TxWithoutAck then
      1 + CeilDiv(if s.offset <= |s.payload| then |s.payload| - s.offset else 0, MAX_LEN)
    else 1
  }

  ghost function WorkTo(ss: seq<Session>, n: nat): nat
    requires n <= |ss|
  {
    if n == 0 then 0 else WorkTo(ss, n - 1) + Work(ss[n - 1])
  }

  ghost function TotalWork(ss: seq<Session>): nat { WorkTo(ss, |ss|) }

  lemma {:induction false} WorkUpdate(ss: seq<Session>, i: nat, s: Session, n: nat)
    requires i < |ss| && n <= |ss|
    ensures i < n ==> WorkTo(ss[i := s], n) + Work(ss[i]) == WorkTo(ss, n) + Work(s)
    ensures i >= n ==> WorkTo(ss[i := s], n) == WorkTo(ss, n)
  {
    if n > 0 {
      WorkUpdate(ss, i, s, n - 1);
    }
  }

  ghost predicate Quiet(c: Context, now: nat) {
    forall i :: 0 <= i < |c.sessions| ==>
      !Overdue(now, c.timeoutMs)(c.sessions[i]) && c.sessions[i].state != TxWithoutAck
  }

  /** A call either does one piece of work, or is silent, changes nothing and
      leaves neither an unacknowledged transfer nor an overdue session. */
  lemma ProcessStep(c: Context, now: nat)
    requires ContextOk(c)
    ensures var r := Process(c, now);
            && (r.output.frame.Some? || r.output.event != NoEvent ==> TotalWork(r.ctx.sessions) < TotalWork(c.sessions))
            && (r.output.frame.None? && r.output.event == NoEvent <==> Quiet(c, now))
            && (Quiet(c, now) ==> r.ctx == c && r.output == NO_OUTPUT)
  {
    var ss := c.sessions;
    var late, i := First(ss, Overdue(now, c.timeoutMs)), First(ss, Unacked());
    if late < |ss| {
      WorkUpdate(ss, late, Release(ss[late]), |ss|);
    } else if i < |ss| {
      assert ss[i].state == TxWithoutAck;
      PumpWorks(c, i);
    } else {
      forall j | 0 <= j < |ss| ensures ss[j].state != TxWithoutAck {
        assert !Unacked()(ss[j]);
      }
    }
  }

  lemma PumpWorks(c: Context, i: nat)
    requires ContextOk(c) && i < |c.sessions| && c.sessions[i].state == TxWithoutAck
    ensures var step := PumpUnacked(c.own, c.sessions[i]);
            && (step.output.frame.Some? || step.output.event != NoEvent)
            && TotalWork(c.sessions[i := step.session]) < TotalWork(c.sessions)
  {
    assert SessionOk(c.sessions[i], c.own, c.maxSize);
    WorkUpdate(c.sessions, i, PumpUnacked(c.own, c.sessions[i]).session, |c.sessions|);
  }

  /** The context after `process` at each of these times. */
  ghost function Ticked(c: Context, nows: seq<nat>): (r: Context)
    requires ContextOk(c)
    ensures ContextOk(r) && r.own == c.own && r.maxSize == c.maxSize && r.timeoutMs == c.timeoutMs
    ensures |r.sessions| == |c.sessions|
  {
    if nows == [] then c
    else
      var before := Ticked(c, nows[..|nows| - 1]);
      ProcessOk(before, nows[|nows| - 1]);
      Process(before, nows[|nows| - 1]).ctx
  }

  /** How many of these calls put out a frame or an event. */
  ghost function Answered(c: Context, nows: seq<nat>): nat
    requires ContextOk(c)
  {
    if nows == [] then 0
    else
      var init, now := nows[..|nows| - 1], nows[|nows| - 1];
      var out := Process(Ticked(c, init), now).output;
      Answered(c, init) + (if out.frame.Some? || out.event != NoEvent then 1 else 0)
  }

  /** However often and whenever it is called, `process` alone answers no more
      often than there is work: it falls silent. */
  lemma {:induction false} FallsSilent(c: Context, nows: seq<nat>)
    requires ContextOk(c)
    ensures Answered(c, nows) + TotalWork(Ticked(c, nows).sessions) <= TotalWork(c.sessions)
  {
    if nows != [] {
      var init, now := nows[..|nows| - 1], nows[|nows| - 1];
      FallsSilent(c, init);
      ProcessStep(Ticked(c, init), now);
    }
  }

  ghost predicate NothingOverdue(c: Context, now: nat) {
    forall i :: 0 <= i < |c.sessions| ==> !Overdue(now, c.timeoutMs)(c.sessions[i])
  }

  // -------------------------------------------------------------------- timeouts

  /** Read modulo 2^32, the clock decides a timeout by the true elapsed time
      modulo 2^32; below 2^32 ms the decision is exact. */
  lemma TimeoutExact(s: Session, started: nat, current: nat, timeoutMs: nat)
    requires s.state == Rx || s.state == TxWaitStartAck || s.state == TxWaitDataAck || s.state == TxWaitEndAck
    requires started <= current && s.lastMs == started % TICKS
    ensures Overdue(current % TICKS, timeoutMs)(s) <==> (current - started) % TICKS > timeoutMs
    ensures current - started < TICKS ==>
              (Overdue(current % TICKS, timeoutMs)(s) <==> current - started > timeoutMs)
  {
    WrapDifference(current, started);
  }

  lemma WrapDifference(a: nat, b: nat)
    requires b <= a
    ensures (a % TICKS - b % TICKS) % TICKS == (a - b) % TICKS
  {
    assert a - b == TICKS * (a / TICKS - b / TICKS) + (a % TICKS - b % TICKS);
    var d := a % TICKS - b % TICKS;
    if d >= 0 {
      Residue(a - b, a / TICKS - b / TICKS, d);
    } else {
      Residue(a - b, a / TICKS - b / TICKS - 1, d + TICKS);
      Residue(d, -1, d + TICKS);
    }
  }

  lemma Residue(n: int, q: int, r: int)
    requires n == TICKS * q + r && 0 <= r < TICKS
    ensures n % TICKS == r
  {
  }

  /** `n` times: replace the first session satisfying `p` by its released form. */
  ghost function Peeled(ss: seq<Session>, p: Session -> bool, n: nat): (r: seq<Session>)
    ensures |r| == |ss|
    decreases n
  {
    var i := First(ss, p);
    if n == 0 || i == |ss| then ss else Peeled(ss[i := Release(ss[i])], p, n - 1)
  }

  /** The `n`-th replacement hits the session with `n` satisfying ones below it. */
  lemma {:induction false} PeeledInOrder(ss: seq<Session>, p: Session -> bool, i: nat)
    requires i < |ss| && p(ss[i]) && forall s: Session :: s.state == Free ==> !p(s)
    ensures var rest := Peeled(ss, p, CountTo(ss, p, i));
            First(rest, p) == i && rest[i] == ss[i]
    decreases CountTo(ss, p, i)
  {
    var f := First(ss, p);
    if f == i {
      CountNone(ss, p, i);
    } else {
      CountUpdate(ss, p, f, Release(ss[f]), i);
      PeeledInOrder(ss[f := Release(ss[f])], p, i);
    }
  }

  lemma {:induction false} PeeledBare(ss: seq<Session>, p: Session -> bool)
    requires forall s: Session :: s.state == Free ==> !p(s)
    ensures var rest := Peeled(ss, p, Count(ss, p)); First(rest, p) == |rest|
    decreases Count(ss, p)
  {
    var f := First(ss, p);
    if f == |ss| {
      CountNone(ss, p, |ss|);
    } else {
      CountUpdate(ss, p, f, Release(ss[f]), |ss|);
      PeeledBare(ss[f := Release(ss[f])], p);
    }
  }

  lemma {:induction false} PeeledAt(ss: seq<Session>, p: Session -> bool, i: nat)
    requires i < |ss| && forall s: Session :: s.state == Free ==> !p(s)
    ensures Peeled(ss, p, Count(ss, p))[i] == if p(ss[i]) then Release(ss[i]) else ss[i]
    decreases Count(ss, p)
  {
    var f := First(ss, p);
    if f == |ss| {
      CountNone(ss, p, |ss|);
    } else {
      CountUpdate(ss, p, f, Release(ss[f]), |ss|);
      PeeledAt(ss[f := Release(ss[f])], p, i);
    }
  }

  function TimeoutEvent(s: Session): Event { if s.state == Rx then RxTimeout else TxTimeout }

  /** `n` calls of `process` at the same instant. */
  ghost function TickedTimes(c: Context, now: nat, n: nat): (r: Context)
    requires ContextOk(c)
    ensures ContextOk(r)
    decreases n
  {
    if n == 0 then c
    else
      ProcessOk(c, now);
      TickedTimes(Process(c, now).ctx, now, n - 1)
  }

  lemma {:induction false} TicksPeel(c: Context, now: nat, n: nat)
    requires ContextOk(c) && n <= Count(c.sessions, Overdue(now, c.timeoutMs))
    ensures TickedTimes(c, now, n) == c.(sessions := Peeled(c.sessions, Overdue(now, c.timeoutMs), n))
    decreases n
  {
    var p, ss := Overdue(now, c.timeoutMs), c.sessions;
    if n > 0 {
      var f := First(ss, p);
      if f == |ss| {
        CountNone(ss, p, |ss|);
      } else {
        ProcessOk(c, now);
        CountUpdate(ss, p, f, Release(ss[f]), |ss|);
        TicksPeel(Process(c, now).ctx, now, n - 1);
      }
    }
  }

  /** An overdue session with `n` overdue sessions below it is reported and
      released by call number `n` at that instant: lowest slot first. */
  lemma ReleasedInOrder(c: Context, now: nat, i: nat)
    requires ContextOk(c) && i < |c.sessions| && Overdue(now, c.timeoutMs)(c.sessions[i])
    ensures var n := CountTo(c.sessions, Overdue(now, c.timeoutMs), i);
            var r := Process(TickedTimes(c, now, n), now);
            && r.output == Tell(c.sessions[i], TimeoutEvent(c.sessions[i]))
            && |r.ctx.sessions| == |c.sessions| && r.ctx.sessions[i] == Release(c.sessions[i])
  {
    var p := Overdue(now, c.timeoutMs);
    CountMonotone(c.sessions, p, i, |c.sessions|);
    TicksPeel(c, now, CountTo(c.sessions, p, i));
    PeeledInOrder(c.sessions, p, i);
  }

  /** With `k` sessions overdue, exactly `k` calls at that instant are timeouts:
      afterwards each of them is free, every other session is as it was, and
      nothing is overdue. */
  lemma AllReleased(c: Context, now: nat)
    requires ContextOk(c)
    ensures var p := Overdue(now, c.timeoutMs);
            var d := TickedTimes(c, now, Count(c.sessions, p));
            && NothingOverdue(d, now) && |d.sessions| == |c.sessions|
            && forall i :: 0 <= i < |c.sessions| ==>
                 d.sessions[i] == if p(c.sessions[i]) then Release(c.sessions[i]) else c.sessions[i]
  {
    var p := Overdue(now, c.timeoutMs);
    TicksPeel(c, now, Count(c.sessions, p));
    PeeledBare(c.sessions, p);
    forall i | 0 <= i < |c.sessions|
      ensures Peeled(c.sessions, p, Count(c.sessions, p))[i]
              == if p(c.sessions[i]) then Release(c.sessions[i]) else c.sessions[i]
    {
      PeeledAt(c.sessions, p, i);
    }
  }
}
