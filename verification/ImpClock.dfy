/** What a session's clock means: over every run the time of the last call that served
    the session, so that `process` ends it exactly when it has waited too long. */
module ImpClock {
  import opened Can
  import opened ImpCore
  import opened ImpInvariants
  import R = ImpRules
  import ImpProcess

  const WRAP: nat := 0x1_0000_0000

  ghost predicate Waits(s: Session) {
    s.state == Rx || s.state == TxWaitStartAck || s.state == TxWaitDataAck || s.state == TxWaitEndAck
  }

  ghost function FieldsOf(f: Frame): (h: R.Fields)
    ensures R.Says(f, h)
  {
    R.Fields(f.id / 0x8_0000 % 32, f.id / 0x100_0000 % 32, f.id / 0x8000 % 16, f.id / 0x400 % 32)
  }

  /** The call puts slot `i` to use; or it brings its reception a START or data, without
      ending it; or it draws a START, DATA or END from its transfer. */
  ghost predicate Serves(c: Context, op: Op, i: nat)
    requires ContextOk(c) && i < |c.sessions|
  {
    PerformOk(c, op);
    var s, r := c.sessions[i], Perform(c, op);
    var stays := r.ctx.sessions[i].state != Free;
    || (s.state == Free && stays)
    || (op.Receive? && stays && R.HeardBy(c, op.frame, FieldsOf(op.frame), i) &&
        if s.state == Rx then FieldsOf(op.frame).code in {0, 1, 4, 5}
        else r.output.frame.Some? && r.output.frame.value.command in {Start, Data, End})
  }

  // ------------------------------------------------------------------------ one call

  /** A session that waits after the call has the time of the call, if the call served
      it; otherwise it waited before, since the same time. */
  ghost predicate Clocked(c: Context, op: Op, i: nat)
    requires ContextOk(c) && i < |c.sessions|
  {
    PerformOk(c, op);
    var t := Perform(c, op).ctx.sessions[i];
    Waits(t) ==> if Serves(c, op, i) then t.lastMs == op.now
                 else Waits(c.sessions[i]) && t.lastMs == c.sessions[i].lastMs
  }

  lemma SendClocked(c: Context, op: Op, i: nat)
    requires ContextOk(c) && i < |c.sessions| && op.Send?
    ensures Clocked(c, op, i)
  {
    SendEffect(c, op.msg, op.now, op.env);
  }

  lemma TickClocked(c: Context, op: Op, i: nat)
    requires ContextOk(c) && i < |c.sessions| && op.Tick?
    ensures Clocked(c, op, i)
  {
    var j := TickDistinct(c, op.now);
    if j < |c.sessions| { TickMoves(c, op.now, j); }
  }

  /** `process` leaves a session that waits as it is, or ends it. */
  lemma TickMoves(c: Context, now: nat, j: nat)
    requires ContextOk(c) && j < |c.sessions| && TableEffect(c.sessions, Process(c, now).ctx.sessions, j, None)
    ensures var t := Process(c, now).ctx.sessions[j]; Waits(t) ==> t == c.sessions[j]
  {
  }

  /** A frame for no session opens a slot or does nothing. */
  lemma StrangeClocked(c: Context, op: Op, i: nat)
    requires ContextOk(c) && i < |c.sessions| && op.Receive?
    requires var h := FieldsOf(op.frame); R.FindsNone(c.sessions, h.from, h.to, h.sid) || !R.Heeds(c, op.frame, h)
    ensures Clocked(c, op, i)
  {
    var f, h, ss := op.frame, FieldsOf(op.frame), c.sessions;
    if !R.Heeds(c, f, h) {
      R.Unheeded(c, f, h, op.now, op.env);
    } else if h.code >= 2 || NoneFree(ss, h.from) {
      R.Unknown(c, f, h, op.now, op.env);
    } else {
      var j := SomeSlot(ss, h.from);
      R.StartOpens(c, f, h, j, op.now, op.env);
    }
  }

  /** What happens to the session a frame is for. */
  lemma HeardClocked(c: Context, op: Op, i: nat)
    requires ContextOk(c) && i < |c.sessions| && op.Receive? && R.HeardBy(c, op.frame, FieldsOf(op.frame), i)
    ensures Clocked(c, op, i)
    ensures Perform(c, op).ctx == c.(sessions := c.sessions[i := Perform(c, op).ctx.sessions[i]])
  {
    if FieldsOf(op.frame).code == 8 {
      R.AbortEnds(c, op.frame, FieldsOf(op.frame), i, op.now, op.env);
    } else if c.sessions[i].state == Rx {
      ReceptionClocked(c, op, i);
    } else {
      TransferClocked(c, op, i);
    }
  }

  lemma ReceptionClocked(c: Context, op: Op, i: nat)
    requires ContextOk(c) && i < |c.sessions| && op.Receive? && R.HeardBy(c, op.frame, FieldsOf(op.frame), i)
    requires c.sessions[i].state == Rx && FieldsOf(op.frame).code != 8
    ensures Clocked(c, op, i)
    ensures Perform(c, op).ctx == c.(sessions := c.sessions[i := Perform(c, op).ctx.sessions[i]])
  {
    var f, h, s := op.frame, FieldsOf(op.frame), c.sessions[i];
    if h.code <= 1 {
      R.StartEmpties(c, f, h, i, op.now, op.env);
    } else if h.code <= 3 {
      R.ReplyEndsReception(c, f, h, i, op.now, op.env);
    } else if h.code <= 5 {
      if |s.payload| + f.len > c.maxSize || (f.len > 0 && |s.payload| + f.len > s.capacity && !op.env.allocOk) {
        R.DataEnd(c, f, h, i, op.now, op.env);
      } else {
        R.DataGrow(c, f, h, i, op.now, op.env);
      }
    } else {
      R.EndDelivers(c, f, h, i, op.now, op.env);
    }
  }

  lemma TransferClocked(c: Context, op: Op, i: nat)
    requires ContextOk(c) && i < |c.sessions| && op.Receive? && R.HeardBy(c, op.frame, FieldsOf(op.frame), i)
    requires c.sessions[i].state != Rx && FieldsOf(op.frame).code != 8
    ensures Clocked(c, op, i)
    ensures Perform(c, op).ctx == c.(sessions := c.sessions[i := Perform(c, op).ctx.sessions[i]])
  {
    var f, h := op.frame, FieldsOf(op.frame);
    if h.code == 2 {
      R.AckAdvances(c, f, h, i, op.now, op.env);
    } else if h.code == 3 {
      R.NackRepeats(c, f, h, i, op.now, op.env);
    } else {
      R.SenderFrameEndsTransfer(c, f, h, i, op.now, op.env);
    }
  }

  lemma ReceiveClocked(c: Context, op: Op, i: nat)
    requires ContextOk(c) && i < |c.sessions| && op.Receive?
    ensures Clocked(c, op, i)
  {
    var h, ss := FieldsOf(op.frame), c.sessions;
    var j := First(ss, HasKey(Key(h.from, h.to, h.sid)));
    if !R.Heeds(c, op.frame, h) || j == |ss| {
      assert forall k :: 0 <= k < j ==> !HasKey(Key(h.from, h.to, h.sid))(ss[k]);
      StrangeClocked(c, op, i);
    } else {
      assert forall k :: 0 <= k < j ==> !HasKey(Key(h.from, h.to, h.sid))(ss[k]);
      assert R.HeardBy(c, op.frame, h, j);
      HeardClocked(c, op, j);
    }
  }

  lemma CallClocked(c: Context, op: Op, i: nat)
    requires ContextOk(c) && i < |c.sessions|
    ensures Clocked(c, op, i)
  {
    match op
    case Send(_, _, _) => SendClocked(c, op, i);
    case Receive(_, _, _) => ReceiveClocked(c, op, i);
    case Tick(_) => TickClocked(c, op, i);
  }

  // ---------------------------------------------------------------------------- runs

  /** The calls happen at these times, which do not go back; each reads its time on a
      32-bit millisecond counter. */
  ghost predicate Happen(ops: seq<Op>, times: seq<nat>) {
    && |times| == |ops|
    && (forall n :: 0 <= n < |ops| ==> ops[n].now == times[n] % WRAP)
    && forall m, n :: 0 <= m <= n < |times| ==> times[m] <= times[n]
  }

  /** How many calls the run has made up to and with the last that served slot `i`. */
  ghost function Served(c: Context, ops: seq<Op>, i: nat): (n: nat)
    requires ContextOk(c) && i < |c.sessions|
    ensures n <= |ops|
  {
    if ops == [] then 0
    else
      var init := ops[..|ops| - 1];
      if Serves(After(c, init), ops[|ops| - 1], i) then |ops| else Served(c, init, i)
  }

  /** In every run the clock of a session that waits is the reading of the last call that
      served it. */
  lemma {:induction false} ClockIsLastServed(c: Context, ops: seq<Op>, times: seq<nat>, i: nat)
    requires Fresh(c) && ContextOk(c) && i < |c.sessions| && Happen(ops, times)
    ensures var s := After(c, ops).sessions[i];
            Waits(s) ==> Served(c, ops, i) > 0 && s.lastMs == times[Served(c, ops, i) - 1] % WRAP
  {
    if ops != [] {
      var n := |ops| - 1;
      ClockIsLastServed(c, ops[..n], times[..n], i);
      CallClocked(After(c, ops[..n]), ops[n], i);
    }
  }

  lemma {:induction false} TimeoutKept(c: Context, ops: seq<Op>)
    requires ContextOk(c)
    ensures After(c, ops).timeoutMs == c.timeoutMs
  {
    if ops != [] {
      TimeoutKept(c, ops[..|ops| - 1]);
      CallKeepsTimeout(After(c, ops[..|ops| - 1]), ops[|ops| - 1]);
    }
  }

  lemma CallKeepsTimeout(c: Context, op: Op)
    requires ContextOk(c)
    ensures Perform(c, op).ctx.timeoutMs == c.timeoutMs
  {
  }

  /** How long the session in slot `i` has waited. */
  ghost function Waited(c: Context, ops: seq<Op>, times: seq<nat>, i: nat, at: nat): int
    requires ContextOk(c) && i < |c.sessions| && |times| == |ops| && Served(c, ops, i) > 0
  {
    at - times[Served(c, ops, i) - 1]
  }

  ghost predicate Before(times: seq<nat>, at: nat) { forall n :: 0 <= n < |times| ==> times[n] <= at }

  lemma LateIsWaited(c: Context, ops: seq<Op>, times: seq<nat>, i: nat, at: nat)
    requires Fresh(c) && ContextOk(c) && i < |c.sessions| && Happen(ops, times) && Before(times, at)
    requires Waits(After(c, ops).sessions[i])
    ensures Served(c, ops, i) > 0 && Waited(c, ops, times, i, at) >= 0
    ensures Waited(c, ops, times, i, at) < WRAP ==>
              (R.Late(After(c, ops).sessions[i], at % WRAP, c.timeoutMs)
               <==> Waited(c, ops, times, i, at) > c.timeoutMs)
  {
    ClockIsLastServed(c, ops, times, i);
    LateByTime(After(c, ops).sessions[i], times[Served(c, ops, i) - 1], at, c.timeoutMs);
  }

  lemma LateByTime(s: Session, since: nat, at: nat, timeoutMs: nat)
    requires Waits(s) && s.lastMs == since % WRAP && since <= at
    ensures at - since < WRAP ==> (R.Late(s, at % WRAP, timeoutMs) <==> at - since > timeoutMs)
  {
    if at - since < WRAP { ByTheClock(since, at); }
  }

  lemma ByTheClock(since: nat, at: nat)
    requires since <= at < since + WRAP
    ensures (at % WRAP - since % WRAP) % WRAP == at - since
  {
    ImpProcess.WrapDifference(at, since);
  }

  /** A session that a call served at most `timeoutMs` before is left alone by `process`:
      the call does not end it. */
  lemma NotTooEarly(c: Context, ops: seq<Op>, times: seq<nat>, i: nat, at: nat)
    requires Fresh(c) && ContextOk(c) && i < |c.sessions| && Happen(ops, times) && Before(times, at)
    requires Waits(After(c, ops).sessions[i]) && c.timeoutMs < WRAP
    requires Served(c, ops, i) > 0 ==> Waited(c, ops, times, i, at) <= c.timeoutMs
    ensures Process(After(c, ops), at % WRAP).ctx.sessions[i] == After(c, ops).sessions[i]
  {
    var d := After(c, ops);
    LateIsWaited(c, ops, times, i, at);
    TimeoutKept(c, ops);
    var j := TickDistinct(d, at % WRAP);
    if j == i { OnlyLate(d, at % WRAP, i); }
  }

  lemma OnlyLate(d: Context, now: nat, i: nat)
    requires ContextOk(d) && i < |d.sessions| && Waits(d.sessions[i]) && !R.Late(d.sessions[i], now, d.timeoutMs)
    ensures Process(d, now).ctx.sessions[i] == d.sessions[i]
  {
  }

  /** One that has waited longer is reported and ended by the next call, unless one in a
      lower slot has waited too long as well; in less than 2^32 ms since it was served. */
  lemma NotTooLate(c: Context, ops: seq<Op>, times: seq<nat>, i: nat, at: nat)
    requires Fresh(c) && ContextOk(c) && i < |c.sessions| && Happen(ops, times) && Before(times, at)
    requires Waits(After(c, ops).sessions[i])
    requires Served(c, ops, i) > 0 ==> c.timeoutMs < Waited(c, ops, times, i, at) < WRAP
    requires forall j :: 0 <= j < i && Waits(After(c, ops).sessions[j]) && Served(c, ops, j) > 0 ==>
               Waited(c, ops, times, j, at) <= c.timeoutMs < WRAP
    ensures var d := After(c, ops);
            Process(d, at % WRAP)
            == R.Ends(d, i, if d.sessions[i].state == Rx then RxTimeout else TxTimeout, None, None, Ok)
  {
    var d := After(c, ops);
    TimeoutKept(c, ops);
    LateIsWaited(c, ops, times, i, at);
    forall j | 0 <= j < i ensures !R.Late(d.sessions[j], at % WRAP, d.timeoutMs) {
      if Waits(d.sessions[j]) { LateIsWaited(c, ops, times, j, at); }
    }
    R.TimesOut(d, at % WRAP, i);
  }
}
