/** Two nodes on a bus they share with any others, with any number of transfers under
    way: seen through the key of one transfer, the network behaves as the single
    transfer of ImpLink. */
module ImpNetwork {
  import opened Can
  import opened ImpCore
  import opened ImpInvariants
  import opened ImpReceive
  import opened ImpSender
  import L = ImpLink

  // -------------------------------------------------------------------- the network

  /** Two contexts and the frames of each that the other has not heard; the messages
      handed out, the keys for which success was reported, and those of the frames
      taken. */
  datatype Net = Net(a: Context, b: Context, toA: seq<Frame>, toB: seq<Frame>,
                     came: seq<Message>, done: seq<Key>, took: seq<Key>)

  /** `Hear` brings a frame of a third node. */
  datatype Call = SendCall(msg: Message, now: nat, env: Env) | Take(i: nat, now: nat, env: Env)
                | Hear(frame: Frame, now: nat, env: Env) | Lose(i: nat) | TickCall(now: nat)

  datatype Action = Action(atA: bool, call: Call)

  function FrameKey(f: Frame): Key {
    var h := HeaderOf(f.id);
    Key(h.from, h.to, h.sid)
  }

  function MessageKey(m: Message): Key { Key(m.from, m.to, m.sid) }

  function Finished(own: nat, out: Output): seq<Key> {
    if out.event == TxFinished then [Key(out.peer, own, out.sid)] else []
  }

  /** A call of the protocol at `a`; `rest` is what is then still on the way to it. */
  function Called(s: Net, op: Op, rest: seq<Frame>, taken: seq<Key>): (n: Net)
    requires ContextOk(s.a) && ContextOk(s.b)
    ensures ContextOk(n.a) && ContextOk(n.b)
  {
    PerformOk(s.a, op);
    L.OutputFits(s.a, op);
    var r := Perform(s.a, op);
    Net(r.ctx, s.b, rest, s.toB + L.OnAir(r.output), s.came + L.Handed(r.output),
        s.done + Finished(s.a.own, r.output), s.took + taken)
  }

  /** One event at node `a`. A frame may be taken in any order, or lost. */
  function NextA(s: Net, call: Call): (n: Net)
    requires ContextOk(s.a) && ContextOk(s.b)
    ensures ContextOk(n.a) && ContextOk(n.b)
  {
    match call
    case SendCall(msg, now, env) => Called(s, Send(msg, now, env), s.toA, [])
    case Take(i, now, env) =>
      if i < |s.toA| then
        Called(s, Receive(s.toA[i], now, env), L.Without(s.toA, i), [FrameKey(s.toA[i])])
      else s
    case Hear(frame, now, env) => Called(s, Receive(frame, now, env), s.toA, [])
    case Lose(i) => if i < |s.toA| then s.(toA := L.Without(s.toA, i)) else s
    case TickCall(now) => Called(s, Tick(now), s.toA, [])
  }

  function Swap(s: Net): Net { Net(s.b, s.a, s.toB, s.toA, s.came, s.done, s.took) }

  function Next(s: Net, st: Action): (n: Net)
    requires ContextOk(s.a) && ContextOk(s.b)
    ensures ContextOk(n.a) && ContextOk(n.b)
  {
    if st.atA then NextA(s, st.call) else Swap(NextA(Swap(s), st.call))
  }

  function Run(s: Net, steps: seq<Action>): (n: Net)
    requires ContextOk(s.a) && ContextOk(s.b)
    ensures ContextOk(n.a) && ContextOk(n.b)
  {
    if steps == [] then s else Next(Run(s, steps[..|steps| - 1]), steps[|steps| - 1])
  }

  // ------------------------------------------------------------------ what is kept

  /** A frame `from` may have put out. */
  ghost predicate FrameFrom(f: Frame, from: nat) {
    f.len <= MAX_LEN && var h := HeaderOf(f.id);
    && h.from == from && h.command.Some?
    && (Opens(h.command.value) ==> h.sid % 2 == InitiatorBit(from, h.to))
  }

  predicate InUseWith(s: Session, peer: nat) { s.state != Free && s.peer == peer }

  /** Sessions in use with this peer have different keys, and its receptions carry its
      bit. */
  ghost predicate PeerKeys(ss: seq<Session>, peer: nat) {
    && (forall i, j :: 0 <= i < j < |ss| && InUseWith(ss[i], peer) && InUseWith(ss[j], peer) ==>
          KeyOf(ss[i]) != KeyOf(ss[j]))
    && (forall i :: 0 <= i < |ss| && ss[i].state == Rx && ss[i].peer == peer ==>
          ss[i].sid % 2 == InitiatorBit(peer, ss[i].local))
  }

  ghost predicate NetOk(s: Net) {
    && ContextOk(s.a) && ContextOk(s.b) && s.a.own != s.b.own
    && PeerKeys(s.a.sessions, s.b.own) && PeerKeys(s.b.sessions, s.a.own)
    && (forall f :: f in s.toA ==> FrameFrom(f, s.b.own))
    && (forall f :: f in s.toB ==> FrameFrom(f, s.a.own))
  }

  /** Third nodes send what they like, but not in the name of the two. */
  ghost predicate Legal(s: Net, st: Action) {
    st.call.Hear? ==> HeaderOf(st.call.frame.id).from != if st.atA then s.b.own else s.a.own
  }

  /** The first-match scan finds the session of a peer whose keys differ. */
  lemma PeerLookup(ss: seq<Session>, i: nat)
    requires i < |ss| && ss[i].state != Free && PeerKeys(ss, ss[i].peer)
    ensures FindSession(ss, KeyOf(ss[i])) == i
  {
    FirstIs(ss, HasKey(KeyOf(ss[i])), i);
  }

  lemma SendKeepsPeer(c: Context, msg: Message, now: nat, slot: nat, s: Session, peer: nat)
    requires ContextOk(c) && slot < |c.sessions| && c.sessions[slot].state == Free
    requires SentSession(c, msg, now, slot, s) && PeerKeys(c.sessions, peer)
    ensures PeerKeys(c.sessions[slot := s], peer)
  {
    var ss := c.sessions;
    forall i | 0 <= i < |ss| && ss[i].state != Free && ss[i].peer == peer ensures KeyOf(ss[i]) != KeyOf(s) {
      if ss[i].IsTx() && ss[i].peer == s.peer {
        assert !Reserved(ss, msg.to, Half(s.sid));
      }
    }
  }

  lemma TableKeepsPeer(ss: seq<Session>, tt: seq<Session>, i: nat, created: Option<Session>, peer: nat)
    requires i <= |ss| && TableEffect(ss, tt, i, created) && PeerKeys(ss, peer)
    requires created.Some? ==>
               && created.value.state == Rx && FindSession(ss, KeyOf(created.value)) == |ss|
               && (created.value.peer == peer ==> created.value.sid % 2 == InitiatorBit(peer, created.value.local))
    ensures PeerKeys(tt, peer)
  {
    if created.Some? {
      forall j | 0 <= j < |ss| && ss[j].state != Free ensures KeyOf(ss[j]) != KeyOf(created.value) {
        assert !HasKey(KeyOf(created.value))(ss[j]);
      }
    }
  }

  /** A call the other node may cause, or a third one, or the application. */
  ghost predicate Proper(op: Op, peer: nat) {
    op.Receive? && HeaderOf(op.frame.id).from == peer ==> FrameFrom(op.frame, peer)
  }

  lemma PeerStep(c: Context, op: Op, peer: nat)
    requires ContextOk(c) && PeerKeys(c.sessions, peer) && Proper(op, peer)
    ensures PeerKeys(Perform(c, op).ctx.sessions, peer)
  {
    match op
    case Send(msg, now, env) =>
      SendEffect(c, msg, now, env);
      if StartSend(c, msg, now, env).result == Ok {
        var slot := FindFree(c.sessions, msg.to);
        SendKeepsPeer(c, msg, now, slot, StartSend(c, msg, now, env).ctx.sessions[slot], peer);
      }
    case Receive(frame, now, env) =>
      if frame.len <= MAX_LEN {
        var i, created := ReceiveEffect(c, frame, now, env);
        TableKeepsPeer(c.sessions, AddFrame(c, frame, now, env).ctx.sessions, i, created, peer);
      }
    case Tick(now) =>
      var i := TickDistinct(c, now);
      if i < |c.sessions| {
        TableKeepsPeer(c.sessions, Process(c, now).ctx.sessions, i, None, peer);
      }
  }

  // ---------------------------------------------------- a call serves a single key

  predicate ForTx(e: Event) { e == TxFinished || e == TxTimeout || e == TxAborted }

  /** What a call puts out, hands out and reports belongs to key `k`. */
  ghost predicate Speaks(c: Context, out: Output, k: Key) {
    && (out.frame.Some? ==>
          var p := out.frame.value;
          && p.from == c.own && p.to == k.peer <= DEVICE_MAX && p.sid == k.sid <= 15 && k.local == c.own
          && |p.body| <= MAX_LEN && (Opens(p.command) ==> k.sid % 2 == InitiatorBit(c.own, k.peer)))
    && (out.message.Some? ==> MessageKey(out.message.value) == k && (k.local == c.own || k.local == DEVICE_ALL))
    && (out.event != NoEvent ==> out.peer == k.peer && out.sid == k.sid)
    && (ForTx(out.event) ==> k.local == c.own)
  }

  /** At most entry `j` changes, and it belongs to `k` before and after. */
  ghost predicate TouchesOnly(c: Context, d: Context, j: nat, k: Key) {
    && d.own == c.own && d.maxSize == c.maxSize && d.timeoutMs == c.timeoutMs && |d.sessions| == |c.sessions|
    && (j >= |c.sessions| ==> d.sessions == c.sessions)
    && (j < |c.sessions| ==>
          && d.sessions == c.sessions[j := d.sessions[j]]
          && (c.sessions[j].state != Free ==> KeyOf(c.sessions[j]) == k)
          && (d.sessions[j].state != Free ==> KeyOf(d.sessions[j]) == k))
  }

  ghost predicate Serves(c: Context, op: Op, j: nat, k: Key)
    requires ContextOk(c)
  {
    var r := Perform(c, op);
    TouchesOnly(c, r.ctx, j, k) && Speaks(c, r.output, k)
  }

  lemma HandleSpeaks(c: Context, s: Session, command: Command, body: seq<byte>, now: nat, env: Env)
    requires SessionOk(s, c.own, c.maxSize) && s.state != Free && SourceValid(c.own)
    requires s.local == DEVICE_ALL ==> WithoutAckCommand(command)
    ensures Speaks(c, Handle(c, s, command, body, now, env).output, KeyOf(s))
  {
    if s.IsTx() {
      TxSpeaks(c, s, command, now);
    } else {
      RxSpeaks(c, s, command, body, now, env);
    }
  }

  lemma TxSpeaks(c: Context, s: Session, command: Command, now: nat)
    requires SessionOk(s, c.own, c.maxSize) && s.IsTx()
    ensures Speaks(c, HandleTx(c.own, c.maxSize, s, command, now).output, KeyOf(s))
  {
  }

  lemma RxSpeaks(c: Context, s: Session, command: Command, body: seq<byte>, now: nat, env: Env)
    requires SessionOk(s, c.own, c.maxSize) && s.state == Rx && SourceValid(c.own)
    requires s.local == DEVICE_ALL ==> WithoutAckCommand(command)
    ensures Speaks(c, HandleRx(c.own, c.maxSize, s, command, body, now, env).output, KeyOf(s))
  {
  }

  lemma SettingsKept(c: Context, op: Op)
    requires ContextOk(c)
    ensures Perform(c, op).ctx == c.(sessions := Perform(c, op).ctx.sessions)
  {
  }

  lemma ReceiveSpeaks(c: Context, f: Frame, now: nat, env: Env)
    requires ContextOk(c)
    ensures Speaks(c, Perform(c, Receive(f, now, env)).output, FrameKey(f))
  {
    var h := HeaderOf(f.id);
    if For(c.own, Receive(f, now, env), FrameKey(f)) {
      var i := FindSession(c.sessions, FrameKey(f));
      if i < |c.sessions| {
        assert HasKey(FrameKey(f))(c.sessions[i]);
        DispatchFound(c, h, f.Body(), now, env, i);
        HandleSpeaks(c, c.sessions[i], h.command.value, f.Body(), now, env);
      } else if Opens(h.command.value) && FindFree(c.sessions, h.from) < |c.sessions| {
        DispatchCreated(c, h, f.Body(), now, env);
      } else {
        UnknownSpeaks(c, h, f.Body(), now, env);
      }
    }
  }

  lemma UnknownSpeaks(c: Context, h: Header, body: seq<byte>, now: nat, env: Env)
    requires ContextOk(c) && h.from <= 31 && h.sid <= 15 && Addressed(c, h) && h.command.Some?
    requires h.to == DEVICE_ALL ==> WithoutAckCommand(h.command.value)
    requires FindSession(c.sessions, Key(h.from, h.to, h.sid)) == |c.sessions|
    requires !Opens(h.command.value) || FindFree(c.sessions, h.from) == |c.sessions|
    ensures Speaks(c, Dispatch(c, h, body, now, env).output, Key(h.from, h.to, h.sid))
  {
  }

  lemma ReceiveServes(c: Context, f: Frame, now: nat, env: Env) returns (j: nat)
    requires ContextOk(c)
    ensures Serves(c, Receive(f, now, env), j, FrameKey(f))
  {
    ReceiveSpeaks(c, f, now, env);
    j := |c.sessions|;
    if f.len <= MAX_LEN {
      var created: Option<Session>;
      PerformOk(c, Receive(f, now, env));
      j, created := ReceiveEffect(c, f, now, env);
      if j < |c.sessions| && created.None? {
        assert HasKey(FrameKey(f))(c.sessions[j]);
      }
      SettingsKept(c, Receive(f, now, env));
    }
  }

  lemma SendServes(c: Context, msg: Message, now: nat, env: Env) returns (j: nat, k: Key)
    requires ContextOk(c)
    ensures Serves(c, Send(msg, now, env), j, k)
    ensures var r := StartSend(c, msg, now, env);
            if r.result == Ok then k == Key(msg.to, c.own, r.output.sid) else r.ctx == c && r.output == NO_OUTPUT
  {
    SendEffect(c, msg, now, env);
    StartSendOk(c, msg, now, env);
    var r := StartSend(c, msg, now, env);
    j, k := |c.sessions|, Key(0, 0, 0);
    if r.result == Ok { j, k := FindFree(c.sessions, msg.to), Key(msg.to, c.own, r.output.sid); }
  }

  lemma TickServes(c: Context, now: nat) returns (j: nat, k: Key)
    requires ContextOk(c)
    ensures Serves(c, Tick(now), j, k)
    ensures j <= |c.sessions| && (j < |c.sessions| ==> k == KeyOf(c.sessions[j]) && c.sessions[j].state != Free)
    ensures j < |c.sessions| && c.sessions[j].state != TxWithoutAck ==>
              j == First(c.sessions, Overdue(now, c.timeoutMs))
    ensures j < |c.sessions| && c.sessions[j].state == TxWithoutAck ==>
              First(c.sessions, Overdue(now, c.timeoutMs)) == |c.sessions| && j == First(c.sessions, Unacked())
    ensures j == |c.sessions| ==> Process(c, now) == Outcome(c, NO_OUTPUT, Ok)
  {
    var late := First(c.sessions, Overdue(now, c.timeoutMs));
    j := if late < |c.sessions| then late else First(c.sessions, Unacked());
    k := if j < |c.sessions| then KeyOf(c.sessions[j]) else Key(0, 0, 0);
    if j < |c.sessions| {
      assert c.sessions[j].state != Free && SessionOk(c.sessions[j], c.own, c.maxSize);
    }
  }

  /** Every call serves a single key: that of the frame, of the new transfer, or of the
      session `process` turns to. */
  lemma Effect(c: Context, op: Op) returns (j: nat, k: Key)
    requires ContextOk(c)
    ensures Serves(c, op, j, k)
    ensures op.Receive? ==> k == FrameKey(op.frame)
    ensures op.Send? && Perform(c, op).result == Ok ==> k == Key(op.msg.to, c.own, Perform(c, op).output.sid)
    ensures op.Send? && Perform(c, op).result != Ok ==> Perform(c, op).ctx == c && Perform(c, op).output == NO_OUTPUT
  {
    match op {
      case Send(msg, now, env) => j, k := SendServes(c, msg, now, env);
      case Receive(f, now, env) =>
        k := FrameKey(f);
        j := ReceiveServes(c, f, now, env);
      case Tick(now) => j, k := TickServes(c, now);
    }
  }

  lemma SpokenFrame(c: Context, out: Output, k: Key)
    requires SourceValid(c.own) && Speaks(c, out, k)
    ensures L.Fits(out)
    ensures forall f :: f in L.OnAir(out) ==>
              FrameFrom(f, c.own) && FrameKey(f) == Key(c.own, k.peer, k.sid) && k.local == c.own
  {
    if out.frame.Some? {
      var p := out.frame.value;
      HeaderOfPacked(p.from, p.to, p.sid, p.command);
    }
  }

  lemma NetKept(s: Net, n: Net, added: seq<Frame>)
    requires NetOk(s) && n.b == s.b && n.a.own == s.a.own && ContextOk(n.a) && PeerKeys(n.a.sessions, s.b.own)
    requires (forall f :: f in n.toA ==> f in s.toA) && n.toB == s.toB + added
    requires forall f :: f in added ==> FrameFrom(f, s.a.own)
    ensures NetOk(n)
  {
  }

  lemma CallFacts(s: Net, op: Op) returns (out: Output)
    requires NetOk(s) && Proper(op, s.b.own)
    ensures var r := Perform(s.a, op);
            && out == r.output && L.Fits(out) && ContextOk(r.ctx) && r.ctx.own == s.a.own
            && PeerKeys(r.ctx.sessions, s.b.own)
    ensures forall f :: f in L.OnAir(out) ==> FrameFrom(f, s.a.own)
  {
    var j, k := Effect(s.a, op);
    out := Perform(s.a, op).output;
    SpokenFrame(s.a, out, k);
    PerformOk(s.a, op);
    PeerStep(s.a, op, s.b.own);
  }

  lemma CalledKeeps(s: Net, op: Op, rest: seq<Frame>, taken: seq<Key>)
    requires NetOk(s) && Proper(op, s.b.own) && forall f :: f in rest ==> f in s.toA
    ensures NetOk(Called(s, op, rest, taken)) && Called(s, op, rest, taken).a.own == s.a.own
  {
    var out := CallFacts(s, op);
    NetKept(s, Called(s, op, rest, taken), L.OnAir(out));
  }

  lemma SwapKeeps(s: Net)
    requires NetOk(s)
    ensures NetOk(Swap(s))
  {
  }

  lemma NextAKeeps(s: Net, call: Call)
    requires NetOk(s) && Legal(s, Action(true, call))
    ensures NetOk(NextA(s, call)) && NextA(s, call).a.own == s.a.own && NextA(s, call).b == s.b
  {
    match call
    case SendCall(msg, now, env) => CalledKeeps(s, Send(msg, now, env), s.toA, []);
    case Take(i, now, env) =>
      if i < |s.toA| {
        assert s.toA[i] in s.toA;
        CalledKeeps(s, Receive(s.toA[i], now, env), L.Without(s.toA, i), [FrameKey(s.toA[i])]);
      }
    case Hear(frame, now, env) => CalledKeeps(s, Receive(frame, now, env), s.toA, []);
    case Lose(i) =>
    case TickCall(now) => CalledKeeps(s, Tick(now), s.toA, []);
  }

  lemma NextKeeps(s: Net, st: Action)
    requires NetOk(s) && Legal(s, st)
    ensures NetOk(Next(s, st)) && Next(s, st).a.own == s.a.own && Next(s, st).b.own == s.b.own
  {
    if st.atA {
      NextAKeeps(s, st.call);
    } else {
      SwapKeeps(s);
      NextAKeeps(Swap(s), st.call);
      SwapKeeps(NextA(Swap(s), st.call));
    }
  }

  // ------------------------------------------------- a context seen through one key

  /** The session with a key, with a mask that names the peer only. */
  ghost function OneSession(c: Context, k: Key): Session {
    var i := FindSession(c.sessions, k);
    if i < |c.sessions| then c.sessions[i].(mask := {k.peer}) else FreeSession({k.peer})
  }

  /** A context of one slot that knows only this key. */
  ghost function Solo(c: Context, k: Key): Context {
    Context(c.own, c.maxSize, c.timeoutMs, [OneSession(c, k)])
  }

  lemma SoloOk(c: Context, k: Key)
    requires ContextOk(c)
    ensures ContextOk(Solo(c, k))
  {
  }

  /** A call for another key leaves what is seen as it is. */
  lemma OtherKey(c: Context, d: Context, j: nat, other: Key, k: Key)
    requires TouchesOnly(c, d, j, other) && PeerKeys(d.sessions, k.peer) && k != other
    ensures Solo(d, k) == Solo(c, k)
  {
    var i := FindSession(c.sessions, k);
    if i < |c.sessions| {
      assert HasKey(k)(c.sessions[i]) && i != j;
      assert d.sessions[i] == c.sessions[i];
      PeerLookup(d.sessions, i);
    } else {
      forall x | 0 <= x < |d.sessions| ensures !HasKey(k)(d.sessions[x]) {
        assert !HasKey(k)(c.sessions[x]);
      }
      FirstIs(d.sessions, HasKey(k), |d.sessions|);
    }
  }

  /** The session with the key, wherever it is put. */
  lemma ThisKey(c: Context, d: Context, j: nat, k: Key)
    requires j < |c.sessions| && |d.sessions| == |c.sessions| && d.sessions == c.sessions[j := d.sessions[j]]
    requires PeerKeys(c.sessions, k.peer) && PeerKeys(d.sessions, k.peer)
    requires HasKey(k)(c.sessions[j]) || FindSession(c.sessions, k) == |c.sessions|
    requires d.sessions[j].state == Free || KeyOf(d.sessions[j]) == k
    ensures OneSession(d, k)
         == if d.sessions[j].state == Free then FreeSession({k.peer}) else d.sessions[j].(mask := {k.peer})
  {
    if d.sessions[j].state != Free {
      PeerLookup(d.sessions, j);
    } else {
      forall x | 0 <= x < |d.sessions| ensures !HasKey(k)(d.sessions[x]) {
        if HasKey(k)(c.sessions[j]) {
          PeerLookup(c.sessions, j);
        } else {
          assert !HasKey(k)(c.sessions[x]);
        }
      }
      FirstIs(d.sessions, HasKey(k), |d.sessions|);
    }
  }

  function Masked(step: Step, m: Mask): Step { step.(session := step.session.(mask := m)) }

  lemma TxMasked(own: nat, maxSize: nat, s: Session, m: Mask, command: Command, now: nat)
    requires s.IsTx() && SessionOk(s, own, maxSize) && SessionOk(s.(mask := m), own, maxSize)
    ensures HandleTx(own, maxSize, s.(mask := m), command, now) == Masked(HandleTx(own, maxSize, s, command, now), m)
  {
  }

  lemma RxMasked(own: nat, maxSize: nat, s: Session, m: Mask, command: Command, body: seq<byte>, now: nat, env: Env)
    ensures HandleRx(own, maxSize, s.(mask := m), command, body, now, env)
            == Masked(HandleRx(own, maxSize, s, command, body, now, env), m)
  {
  }

  /** Handlers do not look at the mask. */
  lemma HandleMasked(c: Context, e: Context, s: Session, m: Mask, command: Command, body: seq<byte>, now: nat, env: Env)
    requires e.own == c.own && e.maxSize == c.maxSize && SessionOk(s, c.own, c.maxSize) && s.state != Free
    ensures SessionOk(s.(mask := m), c.own, c.maxSize)
    ensures Handle(e, s.(mask := m), command, body, now, env) == Masked(Handle(c, s, command, body, now, env), m)
  {
    if s.IsTx() {
      TxMasked(c.own, c.maxSize, s, m, command, now);
    } else {
      RxMasked(c.own, c.maxSize, s, m, command, body, now, env);
    }
  }

  /** What a call does to a context is what it does to the context seen through `k`. */
  ghost predicate SameThrough(c: Context, op: Op, k: Key)
    requires ContextOk(c)
  {
    SoloOk(c, k);
    && Perform(Solo(c, k), op).ctx == Solo(Perform(c, op).ctx, k)
    && Perform(Solo(c, k), op).output == Perform(c, op).output
  }

  /** A START for which no slot is free. */
  ghost predicate Refused(c: Context, f: Frame) {
    var h := HeaderOf(f.id);
    && h.command.Some? && Opens(h.command.value) && FindFree(c.sessions, h.from) == |c.sessions|
    && FindSession(c.sessions, Key(h.from, h.to, h.sid)) == |c.sessions|
  }

  /** The frame is from the peer, to this node. */
  ghost predicate Direct(c: Context, f: Frame, k: Key) {
    && ContextOk(c) && PeerKeys(c.sessions, k.peer) && SourceValid(k.peer) && k.local == c.own
    && FrameFrom(f, k.peer) && FrameKey(f) == k
  }

  lemma FoundThrough(c: Context, f: Frame, now: nat, env: Env, k: Key)
    requires Direct(c, f, k) && FindSession(c.sessions, k) < |c.sessions|
    ensures SameThrough(c, Receive(f, now, env), k)
  {
    var h, i, e, op := HeaderOf(f.id), FindSession(c.sessions, k), Solo(c, k), Receive(f, now, env);
    assert HasKey(k)(c.sessions[i]);
    SoloOk(c, k);
    FirstIs(e.sessions, HasKey(k), 0);
    DispatchFound(c, h, f.Body(), now, env, i);
    DispatchFound(e, h, f.Body(), now, env, 0);
    HandleMasked(c, e, c.sessions[i], {k.peer}, h.command.value, f.Body(), now, env);
    HandleOk(c, c.sessions[i], h.command.value, f.Body(), now, env);
    PeerStep(c, op, k.peer);
    ThisKey(c, Perform(c, op).ctx, i, k);
    assert Perform(e, op).ctx.sessions == [OneSession(Perform(c, op).ctx, k)];
  }

  lemma NewThrough(c: Context, f: Frame, now: nat, env: Env, k: Key)
    requires Direct(c, f, k) && FindSession(c.sessions, k) == |c.sessions| && !Refused(c, f)
    ensures SameThrough(c, Receive(f, now, env), k)
  {
    var h, e, op := HeaderOf(f.id), Solo(c, k), Receive(f, now, env);
    SoloOk(c, k);
    FirstIs(e.sessions, HasKey(k), 1);
    FirstIs(e.sessions, FreeFor(k.peer), 0);
    if Opens(h.command.value) {
      DispatchCreated(c, h, f.Body(), now, env);
      DispatchCreated(e, h, f.Body(), now, env);
      PeerStep(c, op, k.peer);
      ThisKey(c, Perform(c, op).ctx, FindFree(c.sessions, k.peer), k);
      assert Perform(e, op).ctx.sessions == [OneSession(Perform(c, op).ctx, k)];
    } else {
      L.DispatchUnknown(c, h, f.Body(), now, env);
      L.DispatchUnknown(e, h, f.Body(), now, env);
    }
  }

  lemma ReceiveThrough(c: Context, f: Frame, now: nat, env: Env, k: Key)
    requires Direct(c, f, k) && !Refused(c, f)
    ensures SameThrough(c, Receive(f, now, env), k)
  {
    if FindSession(c.sessions, k) < |c.sessions| {
      FoundThrough(c, f, now, env, k);
    } else {
      NewThrough(c, f, now, env, k);
    }
  }

  lemma RefusedAnswer(c: Context, f: Frame, now: nat, env: Env, k: Key)
    requires Direct(c, f, k) && Refused(c, f)
    ensures var r := Perform(c, Receive(f, now, env));
            r.ctx == c && r.output == NO_OUTPUT.(frame := if HeaderOf(f.id).command == Some(StartWa) then None
                                                          else Some(Packet(c.own, k.peer, k.sid, AbortWa, [])))
  {
    L.DispatchUnknown(c, HeaderOf(f.id), f.Body(), now, env);
  }

  /** `process` releases the session seen. */
  lemma LateThrough(c: Context, now: nat, k: Key, i: nat)
    requires ContextOk(c) && PeerKeys(c.sessions, k.peer)
    requires i < |c.sessions| && i == First(c.sessions, Overdue(now, c.timeoutMs)) && KeyOf(c.sessions[i]) == k
    ensures SameThrough(c, Tick(now), k)
  {
    var e := Solo(c, k);
    SoloOk(c, k);
    assert Overdue(now, c.timeoutMs)(c.sessions[i]);
    PeerLookup(c.sessions, i);
    FirstIs(e.sessions, Overdue(now, e.timeoutMs), 0);
    PeerStep(c, Tick(now), k.peer);
    ThisKey(c, Perform(c, Tick(now)).ctx, i, k);
    assert Perform(e, Tick(now)).ctx.sessions == [OneSession(Perform(c, Tick(now)).ctx, k)];
  }

  // ------------------------------------------------------- the network through one key

  function Filter<T>(s: seq<T>, p: T -> bool): seq<T> {
    if s == [] then []
    else Filter(s[..|s| - 1], p) + (if p(s[|s| - 1]) then [s[|s| - 1]] else [])
  }

  lemma {:induction false} FilterAppend<T>(s: seq<T>, t: seq<T>, p: T -> bool)
    ensures Filter(s + t, p) == Filter(s, p) + Filter(t, p)
  {
    if t == [] {
      assert s + t == s;
    } else {
      assert (s + t)[..|s + t| - 1] == s + t[..|t| - 1];
      FilterAppend(s, t[..|t| - 1], p);
    }
  }

  lemma FilterOne<T>(s: seq<T>, p: T -> bool)
    requires |s| <= 1
    ensures Filter(s, p) == if s != [] && p(s[0]) then s else []
  {
    if s != [] {
      assert s[..0] == [];
    }
  }

  /** Appending at most one element. */
  lemma FilterMore<T>(s: seq<T>, t: seq<T>, p: T -> bool)
    requires |t| <= 1
    ensures Filter(s + t, p) == if t != [] && p(t[0]) then Filter(s, p) + t else Filter(s, p)
  {
    FilterAppend(s, t, p);
    FilterOne(t, p);
  }

  lemma FilterCut<T>(x: seq<T>, e: T, y: seq<T>, p: T -> bool)
    ensures Filter(x + [e] + y, p) == (if p(e) then Filter(x, p) + [e] else Filter(x, p)) + Filter(y, p)
    ensures Filter(x + y, p) == Filter(x, p) + Filter(y, p)
  {
    FilterAppend(x + [e], y, p);
    FilterMore(x, [e], p);
    FilterAppend(x, y, p);
  }

  /** Taking an element away takes it away from what is seen, where it is the only one. */
  lemma FilterWithout<T>(s: seq<T>, i: nat, p: T -> bool)
    requires i < |s| && |Filter(s, p)| <= 1
    ensures if p(s[i]) then Filter(s, p) == [s[i]] && Filter(L.Without(s, i), p) == []
            else Filter(L.Without(s, i), p) == Filter(s, p)
  {
    var x, e, y := s[..i], s[i], s[i + 1..];
    assert s == x + [e] + y;
    FilterCut(x, e, y, p);
    var fx, fy := Filter(x, p), Filter(y, p);
    if p(e) {
      assert |fx| + 1 + |fy| <= 1;
    }
  }

  /** The keys at both ends of one transfer. */
  datatype Line = Line(x: nat, y: nat, sid: nat)

  predicate On(w: Line, k: Key) {
    k.sid == w.sid && ((k.peer == w.x && k.local == w.y) || (k.peer == w.y && k.local == w.x))
  }

  function FrameOn(w: Line): Frame -> bool { (f: Frame) => On(w, FrameKey(f)) }

  function MessageOn(w: Line): Message -> bool { (m: Message) => On(w, MessageKey(m)) }

  function KeyOn(w: Line): Key -> bool { (k: Key) => On(w, k) }

  /** The key of the transfer at `a`. */
  function KeyA(s: Net, w: Line): Key { Key(s.b.own, s.a.own, w.sid) }

  ghost predicate Ends(s: Net, w: Line) {
    (s.a.own == w.x && s.b.own == w.y) || (s.a.own == w.y && s.b.own == w.x)
  }

  /** The sessions, frames and events of a transfer, as a link between two contexts that
      know no other. */
  ghost function View(s: Net, w: Line): L.Link {
    L.Link(Solo(s.a, KeyA(s, w)), Solo(s.b, KeyA(Swap(s), w)), Filter(s.toA, FrameOn(w)), Filter(s.toB, FrameOn(w)),
           Filter(s.came, MessageOn(w)), |Filter(s.done, KeyOn(w))|, |Filter(s.took, KeyOn(w))|)
  }

  function SwapLink(l: L.Link): L.Link { L.Link(l.b, l.a, l.toB, l.toA, l.delivered, l.finished, l.handled) }

  lemma ViewSwaps(s: Net, w: Line)
    ensures View(Swap(s), w) == SwapLink(View(s, w))
  {
  }

  lemma ViewOk(s: Net, w: Line)
    requires ContextOk(s.a) && ContextOk(s.b)
    ensures ContextOk(View(s, w).a) && ContextOk(View(s, w).b)
  {
    SoloOk(s.a, KeyA(s, w));
    SoloOk(s.b, KeyA(Swap(s), w));
  }

  /** A frame of `b` is of the transfer if and only if its key at `a` is. */
  lemma HeardOn(s: Net, f: Frame, w: Line)
    requires Ends(s, w) && s.a.own != s.b.own && HeaderOf(f.id).from == s.b.own
    ensures On(w, FrameKey(f)) <==> FrameKey(f) == KeyA(s, w)
  {
  }

  /** What a call for a key puts out is seen through that key and no other. */
  lemma FramesSeen(s: Net, out: Output, k: Key, w: Line, fs: seq<Frame>)
    requires NetOk(s) && Ends(s, w) && Speaks(s.a, out, k)
    ensures L.Fits(out)
    ensures Filter(fs + L.OnAir(out), FrameOn(w))
         == if k == KeyA(s, w) then Filter(fs, FrameOn(w)) + L.OnAir(out) else Filter(fs, FrameOn(w))
  {
    SpokenFrame(s.a, out, k);
    FilterMore(fs, L.OnAir(out), FrameOn(w));
    if L.OnAir(out) == [] { assert Filter(fs, FrameOn(w)) + [] == Filter(fs, FrameOn(w)); }
  }

  lemma MessagesSeen(s: Net, out: Output, k: Key, w: Line, ms: seq<Message>)
    requires NetOk(s) && Ends(s, w) && Speaks(s.a, out, k)
    ensures Filter(ms + L.Handed(out), MessageOn(w))
         == if k == KeyA(s, w) then Filter(ms, MessageOn(w)) + L.Handed(out) else Filter(ms, MessageOn(w))
  {
    FilterMore(ms, L.Handed(out), MessageOn(w));
    if L.Handed(out) == [] { assert Filter(ms, MessageOn(w)) + [] == Filter(ms, MessageOn(w)); }
  }

  lemma SuccessSeen(s: Net, out: Output, k: Key, w: Line, ks: seq<Key>)
    requires NetOk(s) && Ends(s, w) && Speaks(s.a, out, k)
    ensures |Filter(ks + Finished(s.a.own, out), KeyOn(w))|
         == |Filter(ks, KeyOn(w))| + (if k == KeyA(s, w) then L.Reports(out) else 0)
  {
    FilterMore(ks, Finished(s.a.own, out), KeyOn(w));
  }

  /** The frame taken, if any, is of the key the call serves. */
  ghost predicate Takings(s: Net, taken: seq<Key>, k: Key, w: Line) {
    taken == [] || (taken == [k] && (On(w, k) <==> k == KeyA(s, w)))
  }

  lemma OutputSeen(s: Net, out: Output, taken: seq<Key>, k: Key, w: Line)
    requires NetOk(s) && Ends(s, w) && Speaks(s.a, out, k) && Takings(s, taken, k, w)
    ensures L.Fits(out)
    ensures k != KeyA(s, w) ==>
              && Filter(s.toB + L.OnAir(out), FrameOn(w)) == Filter(s.toB, FrameOn(w))
              && Filter(s.came + L.Handed(out), MessageOn(w)) == Filter(s.came, MessageOn(w))
    ensures k == KeyA(s, w) ==>
              && Filter(s.toB + L.OnAir(out), FrameOn(w)) == Filter(s.toB, FrameOn(w)) + L.OnAir(out)
              && Filter(s.came + L.Handed(out), MessageOn(w)) == Filter(s.came, MessageOn(w)) + L.Handed(out)
    ensures |Filter(s.done + Finished(s.a.own, out), KeyOn(w))|
         == |Filter(s.done, KeyOn(w))| + (if k == KeyA(s, w) then L.Reports(out) else 0)
    ensures |Filter(s.took + taken, KeyOn(w))| == |Filter(s.took, KeyOn(w))| + (if k == KeyA(s, w) then |taken| else 0)
  {
    FramesSeen(s, out, k, w, s.toB);
    MessagesSeen(s, out, k, w, s.came);
    SuccessSeen(s, out, k, w, s.done);
    FilterMore(s.took, taken, KeyOn(w));
  }

  lemma CalledElsewhere(s: Net, op: Op, rest: seq<Frame>, taken: seq<Key>, j: nat, k: Key, w: Line)
    requires NetOk(s) && Ends(s, w) && k != KeyA(s, w) && Serves(s.a, op, j, k) && Takings(s, taken, k, w)
    requires PeerKeys(Perform(s.a, op).ctx.sessions, s.b.own)
    requires Filter(rest, FrameOn(w)) == Filter(s.toA, FrameOn(w))
    ensures View(Called(s, op, rest, taken), w) == View(s, w)
  {
    OtherKey(s.a, Perform(s.a, op).ctx, j, k, KeyA(s, w));
    OutputSeen(s, Perform(s.a, op).output, taken, k, w);
  }

  /** What a call leaves behind, given what it does to its context and puts out. */
  lemma CalledIs(s: Net, op: Op, rest: seq<Frame>, taken: seq<Key>, c: Context, out: Output)
    requires ContextOk(s.a) && ContextOk(s.b) && Perform(s.a, op).ctx == c && Perform(s.a, op).output == out
    ensures L.Fits(out) && ContextOk(c)
    ensures Called(s, op, rest, taken)
            == Net(c, s.b, rest, s.toB + L.OnAir(out), s.came + L.Handed(out), s.done + Finished(s.a.own, out),
                   s.took + taken)
  {
    L.OutputFits(s.a, op);
    PerformOk(s.a, op);
  }

  /** A call for the key looks like the same call between the contexts seen. */
  lemma CalledHere(s: Net, op: Op, rest: seq<Frame>, taken: seq<Key>, w: Line)
    requires NetOk(s) && Ends(s, w) && SameThrough(s.a, op, KeyA(s, w))
    requires Speaks(s.a, Perform(s.a, op).output, KeyA(s, w)) && Takings(s, taken, KeyA(s, w), w)
    ensures ContextOk(View(s, w).a) && ContextOk(View(s, w).b)
    ensures View(Called(s, op, rest, taken), w)
            == L.AtA(View(s, w), op, Filter(rest, FrameOn(w)), View(s, w).handled + |taken|)
  {
    var l, k := View(s, w), KeyA(s, w);
    var c, out := Perform(s.a, op).ctx, Perform(s.a, op).output;
    ViewOk(s, w);
    PerformOk(s.a, op);
    SeenSame(s.a, op, k, l.a, c, out);
    var n, r := BothCalled(s, op, rest, taken, l, Filter(rest, FrameOn(w)), c, Solo(c, k), out);
    SeenHere(s, n, l, r, c, Solo(c, k), out, rest, taken, w);
  }

  /** The same call at the node and between the contexts seen. */
  lemma BothCalled(s: Net, op: Op, rest: seq<Frame>, taken: seq<Key>, l: L.Link, toA: seq<Frame>, c: Context,
                   one: Context, out: Output) returns (n: Net, r: L.Link)
    requires ContextOk(s.a) && ContextOk(s.b) && ContextOk(l.a) && ContextOk(l.b)
    requires Perform(s.a, op).ctx == c && Perform(s.a, op).output == out
    requires Perform(l.a, op).ctx == one && Perform(l.a, op).output == out
    ensures L.Fits(out) && n == Called(s, op, rest, taken) && r == L.AtA(l, op, toA, l.handled + |taken|)
    ensures n == Net(c, s.b, rest, s.toB + L.OnAir(out), s.came + L.Handed(out), s.done + Finished(s.a.own, out),
                     s.took + taken)
    ensures r == L.Link(one, l.b, toA, l.toB + L.OnAir(out), l.delivered + L.Handed(out),
                        l.finished + L.Reports(out), l.handled + |taken|)
  {
    n, r := Called(s, op, rest, taken), L.AtA(l, op, toA, l.handled + |taken|);
    CalledIs(s, op, rest, taken, c, out);
    L.AtAIs(l, op, toA, l.handled + |taken|, one, out);
  }

  lemma SeenSame(c: Context, op: Op, k: Key, one: Context, c': Context, out: Output)
    requires ContextOk(c) && SameThrough(c, op, k) && one == Solo(c, k)
    requires Perform(c, op).ctx == c' && Perform(c, op).output == out
    ensures ContextOk(one) && Perform(one, op).ctx == Solo(c', k) && Perform(one, op).output == out
  {
    SoloOk(c, k);
  }

  lemma SeenHere(s: Net, n: Net, l: L.Link, r: L.Link, c: Context, one: Context, out: Output,
                 rest: seq<Frame>, taken: seq<Key>, w: Line)
    requires NetOk(s) && Ends(s, w) && Speaks(s.a, out, KeyA(s, w)) && Takings(s, taken, KeyA(s, w), w)
    requires c.own == s.a.own && L.Fits(out)
    requires n == Net(c, s.b, rest, s.toB + L.OnAir(out), s.came + L.Handed(out), s.done + Finished(s.a.own, out),
                      s.took + taken)
    requires l == View(s, w) && one == Solo(c, KeyA(s, w))
    requires r == L.Link(one, l.b, Filter(rest, FrameOn(w)), l.toB + L.OnAir(out), l.delivered + L.Handed(out),
                         l.finished + L.Reports(out), l.handled + |taken|)
    ensures View(n, w) == r
  {
    OutputSeen(s, out, taken, KeyA(s, w), w);
  }

  // ---------------------------------------------------------------- one event, seen

  /** The call takes the key of the transfer for a new one. */
  ghost predicate Takes(s: Net, call: Call, w: Line)
    requires ContextOk(s.a)
  {
    call.SendCall? &&
    var r := StartSend(s.a, call.msg, call.now, call.env);
    r.result == Ok && Key(call.msg.to, s.a.own, r.output.sid) == KeyA(s, w)
  }

  /** The frame the call takes or loses is of the transfer. */
  ghost predicate Concerns(s: Net, call: Call, w: Line) {
    (call.Take? || call.Lose?) && call.i < |s.toA| && FrameKey(s.toA[call.i]) == KeyA(s, w)
  }

  ghost predicate Refuses(s: Net, call: Call, w: Line) {
    call.Take? && Concerns(s, call, w) && Refused(s.a, s.toA[call.i])
  }

  lemma SendSeen(s: Net, op: Op, w: Line)
    requires NetOk(s) && Ends(s, w) && op.Send? && !Takes(s, SendCall(op.msg, op.now, op.env), w)
    ensures View(Called(s, op, s.toA, []), w) == View(s, w)
  {
    var j, k := Effect(s.a, op);
    PeerStep(s.a, op, s.b.own);
    if Perform(s.a, op).result == Ok {
      CalledElsewhere(s, op, s.toA, [], j, k, w);
    } else {
      NothingCalled(s, op);
    }
  }

  lemma HearSeen(s: Net, op: Op, w: Line)
    requires NetOk(s) && Ends(s, w) && op.Receive? && HeaderOf(op.frame.id).from != s.b.own
    ensures View(Called(s, op, s.toA, []), w) == View(s, w)
  {
    var j, k := Effect(s.a, op);
    PeerStep(s.a, op, s.b.own);
    CalledElsewhere(s, op, s.toA, [], j, k, w);
  }

  lemma TakeElsewhere(s: Net, f: Frame, i: nat, op: Op, w: Line)
    requires NetOk(s) && Ends(s, w) && i < |s.toA| && f == s.toA[i] && FrameKey(f) != KeyA(s, w)
    requires |Filter(s.toA, FrameOn(w))| <= 1 && op.Receive? && op.frame == f
    ensures View(Called(s, op, L.Without(s.toA, i), [FrameKey(f)]), w) == View(s, w)
  {
    assert f in s.toA;
    HeardOn(s, f, w);
    var j, k := Effect(s.a, op);
    PeerStep(s.a, op, s.b.own);
    FilterWithout(s.toA, i, FrameOn(w));
    CalledElsewhere(s, op, L.Without(s.toA, i), [k], j, k, w);
  }

  lemma TakeHere(s: Net, f: Frame, i: nat, op: Op, w: Line)
    requires NetOk(s) && Ends(s, w) && i < |s.toA| && f == s.toA[i] && FrameKey(f) == KeyA(s, w)
    requires |Filter(s.toA, FrameOn(w))| <= 1
    requires SameThrough(s.a, op, KeyA(s, w)) && Speaks(s.a, Perform(s.a, op).output, KeyA(s, w))
    ensures var l := View(s, w);
            && ContextOk(l.a) && ContextOk(l.b) && l.toA == [f]
            && View(Called(s, op, L.Without(s.toA, i), [FrameKey(f)]), w) == L.AtA(l, op, [], l.handled + 1)
  {
    FilterWithout(s.toA, i, FrameOn(w));
    CalledHere(s, op, L.Without(s.toA, i), [FrameKey(f)], w);
  }

  lemma DeliverNext(l: L.Link, f: Frame, now: nat, env: Env)
    requires ContextOk(l.a) && ContextOk(l.b) && l.toA == [f]
    ensures L.Next(l, L.DeliverA(0, now, env)) == L.AtA(l, Receive(f, now, env), [], l.handled + 1)
  {
    assert L.Without([f], 0) == [];
  }

  /** What is known of a call of `process`. */
  ghost predicate Served(c: Context, op: Op, j: nat, other: Key, k: Key)
    requires ContextOk(c)
  {
    && j <= |c.sessions| && Serves(c, op, j, other) && PeerKeys(Perform(c, op).ctx.sessions, k.peer)
    && (j == |c.sessions| ==> Perform(c, op).ctx == c && Perform(c, op).output == NO_OUTPUT)
    && (j < |c.sessions| && other == k ==> SameThrough(c, op, k))
  }

  lemma TickThrough(c: Context, now: nat, k: Key) returns (j: nat, other: Key)
    requires ContextOk(c) && PeerKeys(c.sessions, k.peer) && OneSession(c, k).state != TxWithoutAck
    ensures Served(c, Tick(now), j, other, k)
  {
    j, other := TickServes(c, now);
    PeerStep(c, Tick(now), k.peer);
    if j < |c.sessions| && other == k {
      PeerLookup(c.sessions, j);
      LateThrough(c, now, k, j);
    }
  }

  /** A call that takes no frame serves the session seen, or is not seen. */
  lemma CallSeen(s: Net, op: Op, j: nat, k: Key, w: Line, m: L.Move) returns (m': L.Move)
    requires NetOk(s) && Ends(s, w) && Served(s.a, op, j, k, KeyA(s, w))
    requires var l := View(s, w);
             && ContextOk(l.a) && ContextOk(l.b) && |l.toA| <= 1
             && L.Next(l, m) == L.AtA(l, op, l.toA, l.handled)
    ensures m' == m || m' == L.LoseA(1)
    ensures View(Called(s, op, s.toA, []), w) == L.Next(View(s, w), m')
  {
    NothingLost(View(s, w));
    m' := L.LoseA(1);
    if j == |s.a.sessions| {
      NothingCalled(s, op);
    } else if k != KeyA(s, w) {
      CalledElsewhere(s, op, s.toA, [], j, k, w);
    } else {
      CalledHere(s, op, s.toA, [], w);
      m' := m;
    }
  }

  lemma NothingLost(l: L.Link)
    requires ContextOk(l.a) && ContextOk(l.b) && |l.toA| <= 1
    ensures L.Next(l, L.LoseA(1)) == l
  {
  }

  lemma TickNext(l: L.Link, now: nat)
    requires ContextOk(l.a) && ContextOk(l.b)
    ensures L.Next(l, L.TickA(now)) == L.AtA(l, Tick(now), l.toA, l.handled)
  {
  }

  lemma NothingCalled(s: Net, op: Op)
    requires NetOk(s) && Perform(s.a, op).ctx == s.a && Perform(s.a, op).output == NO_OUTPUT
    ensures Called(s, op, s.toA, []) == s
  {
    assert s.toB + [] == s.toB && s.came + [] == s.came && s.done + [] == s.done && s.took + [] == s.took;
  }

  lemma TakeSeen(s: Net, f: Frame, i: nat, op: Op, w: Line) returns (m: L.Move)
    requires NetOk(s) && Ends(s, w) && i < |s.toA| && f == s.toA[i] && |Filter(s.toA, FrameOn(w))| <= 1
    requires op.Receive? && op.frame == f && (FrameKey(f) == KeyA(s, w) ==> !Refused(s.a, f))
    ensures m == if FrameKey(f) == KeyA(s, w) then L.DeliverA(0, op.now, op.env) else L.LoseA(1)
    ensures ContextOk(View(s, w).a) && ContextOk(View(s, w).b)
    ensures View(Called(s, op, L.Without(s.toA, i), [FrameKey(f)]), w) == L.Next(View(s, w), m)
  {
    ViewOk(s, w);
    if FrameKey(f) == KeyA(s, w) {
      assert f in s.toA;
      ReceiveThrough(s.a, f, op.now, op.env, KeyA(s, w));
      ReceiveSpeaks(s.a, f, op.now, op.env);
      TakeHere(s, f, i, op, w);
      DeliverNext(View(s, w), f, op.now, op.env);
      m := L.DeliverA(0, op.now, op.env);
    } else {
      NothingLost(View(s, w));
      TakeElsewhere(s, f, i, op, w);
      m := L.LoseA(1);
    }
  }

  lemma LoseSeen(s: Net, i: nat, w: Line) returns (m: L.Move)
    requires NetOk(s) && Ends(s, w) && i < |s.toA| && |Filter(s.toA, FrameOn(w))| <= 1
    ensures m == L.LoseA(if FrameKey(s.toA[i]) == KeyA(s, w) then 0 else 1)
    ensures ContextOk(View(s, w).a) && ContextOk(View(s, w).b)
    ensures View(s.(toA := L.Without(s.toA, i)), w) == L.Next(View(s, w), m)
  {
    ViewOk(s, w);
    NothingLost(View(s, w));
    assert s.toA[i] in s.toA;
    HeardOn(s, s.toA[i], w);
    FilterWithout(s.toA, i, FrameOn(w));
    m := L.LoseA(if FrameKey(s.toA[i]) == KeyA(s, w) then 0 else 1);
  }

  lemma TickServed(s: Net, now: nat, w: Line, j: nat, k: Key) returns (m: L.Move)
    requires NetOk(s) && Ends(s, w) && |Filter(s.toA, FrameOn(w))| <= 1 && Served(s.a, Tick(now), j, k, KeyA(s, w))
    requires ContextOk(View(s, w).a) && ContextOk(View(s, w).b)
    ensures m == L.TickA(now) || m == L.LoseA(1)
    ensures View(Called(s, Tick(now), s.toA, []), w) == L.Next(View(s, w), m)
  {
    TickNext(View(s, w), now);
    m := CallSeen(s, Tick(now), j, k, w, L.TickA(now));
  }

  lemma TickSeen(s: Net, now: nat, w: Line) returns (m: L.Move)
    requires NetOk(s) && Ends(s, w) && |Filter(s.toA, FrameOn(w))| <= 1
    requires OneSession(s.a, KeyA(s, w)).state != TxWithoutAck
    ensures ContextOk(View(s, w).a) && ContextOk(View(s, w).b)
    ensures m == L.TickA(now) || m == L.LoseA(1)
    ensures View(Called(s, Tick(now), s.toA, []), w) == L.Next(View(s, w), m)
  {
    ViewOk(s, w);
    var j, k := TickThrough(s.a, now, KeyA(s, w));
    m := TickServed(s, now, w, j, k);
  }

  /** The move of the single transfer that a call is, if it is one; losing what is not
      there stands for none. */
  ghost predicate Sight(s: Net, call: Call, w: Line, m: L.Move) {
    match m
    case DeliverA(i, now, env) => Concerns(s, call, w) && call.Take? && m == L.DeliverA(0, call.now, call.env)
    case LoseA(i) => i == 1 || (i == 0 && Concerns(s, call, w) && call.Lose?)
    case TickA(now) => call == TickCall(now)
    case _ => false
  }

  /** Every event at a node is seen as one of the single transfer, or not at all. */
  lemma ActSeen(s: Net, call: Call, w: Line) returns (m: L.Move)
    requires NetOk(s) && Ends(s, w) && Legal(s, Action(true, call)) && !Takes(s, call, w) && !Refuses(s, call, w)
    requires |Filter(s.toA, FrameOn(w))| <= 1 && OneSession(s.a, KeyA(s, w)).state != TxWithoutAck
    ensures Sight(s, call, w, m)
    ensures ContextOk(View(s, w).a) && ContextOk(View(s, w).b)
    ensures View(NextA(s, call), w) == L.Next(View(s, w), m)
  {
    ViewOk(s, w);
    NothingLost(View(s, w));
    m := L.LoseA(1);
    match call
    case SendCall(msg, now, env) => SendSeen(s, Send(msg, now, env), w);
    case Take(i, now, env) =>
      if i < |s.toA| {
        m := TakeSeen(s, s.toA[i], i, Receive(s.toA[i], now, env), w);
      }
    case Hear(frame, now, env) => HearSeen(s, Receive(frame, now, env), w);
    case Lose(i) =>
      if i < |s.toA| {
        m := LoseSeen(s, i, w);
      }
    case TickCall(now) => m := TickSeen(s, now, w);
  }

  function Mirror(m: L.Move): L.Move {
    match m
    case DeliverA(i, now, env) => L.DeliverB(i, now, env)
    case DeliverB(i, now, env) => L.DeliverA(i, now, env)
    case LoseA(i) => L.LoseB(i)
    case LoseB(i) => L.LoseA(i)
    case TickA(now) => L.TickB(now)
    case TickB(now) => L.TickA(now)
  }

  lemma MirrorNext(l: L.Link, m: L.Move)
    requires ContextOk(l.a) && ContextOk(l.b)
    ensures L.Next(SwapLink(l), m) == SwapLink(L.Next(l, Mirror(m)))
  {
  }

  function Turned(steps: seq<Action>): (r: seq<Action>)
    ensures |r| == |steps|
  {
    seq(|steps|, i requires 0 <= i < |steps| => steps[i].(atA := !steps[i].atA))
  }

  /** The two nodes play the same part: what holds of transfers from `a` to `b` holds of
      those from `b` to `a`. */
  lemma {:induction false} RunSwaps(s: Net, steps: seq<Action>)
    requires ContextOk(s.a) && ContextOk(s.b)
    ensures Run(Swap(s), Turned(steps)) == Swap(Run(s, steps))
  {
    if steps != [] {
      var n := |steps| - 1;
      RunSwaps(s, steps[..n]);
      assert Turned(steps)[..n] == Turned(steps[..n]);
    }
  }
}
