/** Two queue nodes joined by lossless wires: every message accepted for sending
    arrives unaltered and in order. */
module QueueLink {
  import opened Can
  import opened PlexCore
  import opened PlexInvariants
  import opened PlexStreams
  import opened QueueCore

  // --------------------------------------------- a receiver that hears a single sender

  /** Nothing is under way: every entry is free or lent out. */
  ghost predicate Quiet(r: Receiver) {
    ReceiverOk(r) && forall i :: 0 <= i < |r.slots| && r.slots[i].Busy? ==> r.view == Some(i)
  }

  /** Nothing but the message of entry `i` is under way. */
  ghost predicate OnlyUnderWay(r: Receiver, m: Message, c: nat, k: nat, i: nat)
    requires k > 0 && ChunkLengthValid(c)
  {
    && ReceiverOk(r) && At(r, i, Partial(m, m.data, Got(|m.data|, c, k)))
    && forall j :: 0 <= j < |r.slots| && j != i && r.slots[j].Busy? ==> r.view == Some(j)
  }

  /** The receiver after the first `k` chunks of `m`. A message it cannot take leaves
      nothing behind. */
  ghost predicate Midway(r: Receiver, m: Message, c: nat, k: nat)
    requires ChunkLengthValid(c)
  {
    if k == 0 || !Deliverable(r, m) then Quiet(r) else exists i :: OnlyUnderWay(r, m, c, k, i)
  }

  lemma QuietFree(r: Receiver, sig: nat)
    requires Quiet(r) && |r.slots| > 0
    ensures GetOrAlloc(Expire(r).slots, sig) < |r.slots|
    ensures forall i :: 0 <= i < |r.slots| ==> Expire(r).slots[i].Free?
  {
    ExpireKeeps(r);
    SlotChosen(Expire(r).slots, sig);
    assert Expire(r).slots[0].Free?;
  }

  lemma TableRefuses(e: Receiver, h: Route, f: Frame)
    requires f.len <= MAX_LEN && GetOrAlloc(e.slots, h.Sig()) < |e.slots|
    requires forall i :: 0 <= i < |e.slots| ==> e.slots[i].Free?
    requires h.to == e.own || e.monitoring ==>
               var t := if h.first then TakeFirst(e, h, f, Env(true, true)) else TakeNext(Free, f);
               t.slot == Free && !t.complete
    ensures var a := AddToTable(e, h, f, Env(true, true)); a.done == None && a.receiver == e
  {
    assert e.slots[GetOrAlloc(e.slots, h.Sig()) := Free] == e.slots;
  }

  lemma RefusedAt(e: Receiver, m: Message, c: nat, at: nat)
    requires (forall i :: 0 <= i < |e.slots| ==> e.slots[i].Free?) && |e.slots| > 0 && m.Typed() && !Deliverable(e, m)
    requires ChunkLengthValid(c) && at < HEADER_SIZE + |m.data|
    ensures var f := CutAt(m, m.data, c, at);
            var a := AddToTable(e, RouteOf(f.id), f, Env(true, true));
            a.done == None && a.receiver == e
  {
    var f := CutAt(m, m.data, c, at);
    FrameOf(m, m.data, c, at);
    FreeFound(e.slots, m.Sig());
    if at == 0 && (m.to % ADDRESSES == e.own || e.monitoring) {
      FirstRefused(e, m, c, Env(true, true));
    }
    TableRefuses(e, RouteOf(f.id), f);
  }

  /** The table when a chunk of such a message has been looked at. */
  lemma RefusedInTable(e: Receiver, m: Message, c: nat, k: nat)
    requires (forall i :: 0 <= i < |e.slots| ==> e.slots[i].Free?) && |e.slots| > 0 && m.Typed() && !Deliverable(e, m)
    requires ChunkLengthValid(c) && c * k < HEADER_SIZE + |m.data|
    ensures var f := Cut(m, m.data, c, k);
            var a := AddToTable(e, RouteOf(f.id), f, Env(true, true));
            a.done == None && a.receiver == e
  {
    RefusedAt(e, m, c, c * k);
  }

  lemma FreeFound(slots: seq<Slot>, sig: nat)
    requires |slots| > 0 && forall i :: 0 <= i < |slots| ==> slots[i].Free?
    ensures GetOrAlloc(slots, sig) < |slots|
  {
    var i := Find(slots, sig);
    if i < |slots| { assert Holds(slots[i], sig); }
    assert IsFree()(slots[0]);
  }

  lemma Refused(r: Receiver, m: Message, c: nat, k: nat)
    requires Quiet(r) && |r.slots| > 0 && m.Typed() && !Deliverable(r, m)
    requires ChunkLengthValid(c) && c * k < HEADER_SIZE + |m.data|
    ensures var (r', reply) := AddChunkView(r, Cut(m, m.data, c, k), Env(true, true));
            r' == Expire(r) && reply.message == None
  {
    FrameOf(m, m.data, c, c * k);
    QuietFree(r, m.Sig());
    RefusedInTable(Expire(r), m, c, k);
    NoneLent(r, Cut(m, m.data, c, k), Env(true, true));
  }

  lemma NoneLent(r: Receiver, f: Frame, env: Env)
    requires f.len <= MAX_LEN && AddToTable(Expire(r), RouteOf(f.id), f, env).done == None
    ensures var (r', reply) := AddChunkView(r, f, env);
            r' == AddToTable(Expire(r), RouteOf(f.id), f, env).receiver && reply.message == None
  {
  }

  /** Chunk `k` of a message from the only sender: the message is handed out if and
      only if it is deliverable and this was its last chunk. */
  lemma Consume(r: Receiver, m: Message, c: nat, k: nat)
    requires ChunkLengthValid(c) && Midway(r, m, c, k) && |r.slots| > 0 && m.Typed() && c * k < HEADER_SIZE + |m.data|
    ensures var (r', reply) := AddChunkView(r, Cut(m, m.data, c, k), Env(true, true));
            var last := k + 1 == ChunksCount(|m.data|, c);
            && SameSettings(r, r')
            && reply.message == (if last && Deliverable(r, m) then Some(m.OnWire()) else None)
            && (if last then Quiet(r') else Midway(r', m, c, k + 1))
  {
    if !Deliverable(r, m) {
      Refused(r, m, c, k);
      QuietFree(r, m.Sig());
      ExpireKeeps(r);
    } else {
      Taken(r, m, c, k);
    }
  }

  lemma Taken(r: Receiver, m: Message, c: nat, k: nat)
    requires ChunkLengthValid(c) && Midway(r, m, c, k) && |r.slots| > 0 && Deliverable(r, m)
    requires c * k < HEADER_SIZE + |m.data|
    ensures var (r', reply) := AddChunkView(r, Cut(m, m.data, c, k), Env(true, true));
            var last := k + 1 == ChunksCount(|m.data|, c);
            && SameSettings(r, r')
            && reply.message == (if last then Some(m.OnWire()) else None)
            && (if last then Quiet(r') else Midway(r', m, c, k + 1))
  {
    var call := Call(Cut(m, m.data, c, k), true, Env(true, true));
    var i: nat;
    if k == 0 {
      QuietFree(r, m.Sig());
      i := GetOrAlloc(Expire(r).slots, m.Sig());
    } else {
      i :| OnlyUnderWay(r, m, c, k, i);
    }
    ChunkStep(r, call, i, m, m.data, c, k);
    PerformKeeps(r, call);
    StillAlone(r, Perform(r, call).0, m, c, k, i);
  }

  lemma StillAlone(r: Receiver, r': Receiver, m: Message, c: nat, k: nat, i: nat)
    requires ReceiverOk(r) && ReceiverOk(r') && SameSettings(r, r') && Deliverable(r, m) && ChunkLengthValid(c)
    requires i < |r.slots|
    requires forall j :: 0 <= j < |r.slots| && j != i && r.slots[j].Busy? ==> r.view == Some(j)
    requires forall j :: 0 <= j < |r.slots| && j != i ==> r'.slots[j] == Expire(r).slots[j] && r'.view != Some(j)
    requires if k + 1 == ChunksCount(|m.data|, c) then r'.slots[i].Free? || r'.view == Some(i)
             else At(r', i, Partial(m, m.data, Got(|m.data|, c, k + 1)))
    ensures if k + 1 == ChunksCount(|m.data|, c) then Quiet(r') else Midway(r', m, c, k + 1)
  {
    ExpireKeeps(r);
    if k + 1 != ChunksCount(|m.data|, c) {
      assert OnlyUnderWay(r', m, c, k + 1, i);
    }
  }

  // -------------------------------------------------------------------- the two nodes

  /** A node, with a record of what it accepted for sending, what its receiver
      completed, what it gave to the application and how many messages found the
      inbox full. */
  datatype Node = Node(q: Queue, sent: seq<Message>, completed: seq<Message>, given: seq<Message>, refused: nat)

  /** Two nodes and the frames on the wires between them. */
  datatype Net = Net(a: Node, b: Node, ab: seq<Frame>, ba: seq<Frame>)

  datatype Op = SendOp(m: Message) | TxOp(hw: Hw) | RxOp | NewOp

  datatype Step = Step(atA: bool, op: Op) {
    /** The fields of a message have their widths, and no chunk is dropped. */
    ghost predicate Lossless() {
      match op
      case SendOp(m) => m.Typed()
      case TxOp(hw) => hw != HwNonRecoverable
      case _ => true
    }
  }

  function ActSend(n: Node, m: Message): Node {
    var (q, r) := Send(n.q, m);
    if r == Ok then n.(q := q, sent := n.sent + [m]) else n
  }

  function ActRx(n: Node, f: Frame): Node {
    var (q, reply) := Receive(n.q, f);
    n.(q := q,
       completed := n.completed + (if reply.message.Some? then [reply.message.value] else []),
       refused := n.refused + (if reply.result == CantSaveMessage then 1 else 0))
  }

  function ActNew(n: Node): Node {
    var (q, r, m) := PollNew(n.q);
    n.(q := q, given := n.given + (if m.Some? then [m.value] else []))
  }

  /** One call at node `a`. */
  function StepAtA(s: Net, op: Op): Net {
    match op
    case SendOp(m) => s.(a := ActSend(s.a, m))
    case TxOp(hw) =>
      var (q, r) := PollTx(s.a.q, hw);
      s.(a := s.a.(q := q), ab := s.ab + (if hw == HwOk && s.a.q.outbox != [] then [s.a.q.outbox[0]] else []))
    case RxOp => if s.ba == [] then s else s.(a := ActRx(s.a, s.ba[0]), ba := s.ba[1..])
    case NewOp => s.(a := ActNew(s.a))
  }

  function Swap(s: Net): Net { Net(s.b, s.a, s.ba, s.ab) }

  function Next(s: Net, st: Step): Net {
    if st.atA then StepAtA(s, st.op) else Swap(StepAtA(Swap(s), st.op))
  }

  function Run(s: Net, steps: seq<Step>): Net {
    if steps == [] then s else Next(Run(s, steps[..|steps| - 1]), steps[|steps| - 1])
  }

  // ------------------------------------------------------------- the flow from a to b

  /** One direction of the network: what was sent, the chunks not yet received, and
      what the receiving side made of the others. */
  datatype Flow = Flow(c: nat, sent: seq<Message>, line: seq<Frame>, receiver: Receiver,
                       completed: seq<Message>, stored: seq<Message>, refused: nat)

  function FlowOf(s: Net): Flow {
    Flow(s.a.q.chunkLength, s.a.sent, s.ab + s.a.q.outbox, s.b.q.receiver,
         s.b.completed, s.b.given + s.b.q.inbox, s.b.refused)
  }

  /** The chunks of the messages from number `n` on, without the first `k`. */
  function Rest(ms: seq<Message>, c: nat, n: nat, k: nat): seq<Frame>
    requires ChunkLengthValid(c) && n <= |ms|
    decreases |ms| - n
  {
    if n == |ms| then [] else Chunks(ms[n], c)[Min(k, ChunksCount(|ms[n].data|, c))..] + Rest(ms, c, n + 1, 0)
  }

  /** What a receiver with these settings delivers of the messages. */
  ghost function Arrivals(r: Receiver, ms: seq<Message>): seq<Message> {
    if ms == [] then []
    else
      var m := ms[|ms| - 1];
      Arrivals(r, ms[..|ms| - 1]) + (if Deliverable(r, m) then [m.OnWire()] else [])
  }

  /** `s` in order within `t`, with gaps. */
  ghost predicate Subsequence(s: seq<Message>, t: seq<Message>)
    decreases |t|
  {
    if s == [] then true
    else if t == [] then false
    else (s[|s| - 1] == t[|t| - 1] && Subsequence(s[..|s| - 1], t[..|t| - 1])) || Subsequence(s, t[..|t| - 1])
  }

  ghost predicate FlowFits(w: Flow) {
    ChunkLengthValid(w.c) && |w.receiver.slots| > 0 && forall i :: 0 <= i < |w.sent| ==> w.sent[i].Typed()
  }

  ghost predicate InLine(w: Flow, n: nat, k: nat)
    requires FlowFits(w) && n <= |w.sent|
  {
    && (if n == |w.sent| then k == 0 else k < ChunksCount(|w.sent[n].data|, w.c))
    && w.line == Rest(w.sent, w.c, n, k)
  }

  ghost predicate ReceiverAt(w: Flow, n: nat, k: nat)
    requires FlowFits(w) && n <= |w.sent|
  {
    if n == |w.sent| then Quiet(w.receiver) else Midway(w.receiver, w.sent[n], w.c, k)
  }

  /** What was completed is what could be delivered, and it was stored in order; all
      of it, if no message was refused. */
  ghost predicate Booked(w: Flow, n: nat)
    requires n <= |w.sent|
  {
    && w.completed == Arrivals(w.receiver, w.sent[..n])
    && Subsequence(w.stored, w.completed)
    && (w.refused == 0 ==> w.stored == w.completed)
  }

  /** The receiver has consumed `n` messages and `k` chunks of the next. */
  ghost predicate FlowAt(w: Flow, n: nat, k: nat) {
    FlowFits(w) && n <= |w.sent| && InLine(w, n, k) && ReceiverAt(w, n, k) && Booked(w, n)
  }

  ghost predicate FlowOk(w: Flow) { exists n: nat, k: nat :: FlowAt(w, n, k) }

  // ---- sequences

  lemma {:induction false} RestGrows(ms: seq<Message>, m: Message, c: nat, n: nat, k: nat)
    requires ChunkLengthValid(c) && n <= |ms| && (n == |ms| ==> k == 0)
    ensures Rest(ms + [m], c, n, k) == Rest(ms, c, n, k) + Chunks(m, c)
    decreases |ms| - n
  {
    if n < |ms| {
      RestGrows(ms, m, c, n + 1, 0);
    } else {
      assert Rest(ms + [m], c, n + 1, 0) == [];
    }
  }

  lemma RestShrinks(ms: seq<Message>, c: nat, n: nat, k: nat)
    requires ChunkLengthValid(c) && n < |ms| && k < ChunksCount(|ms[n].data|, c)
    ensures var last := k + 1 == ChunksCount(|ms[n].data|, c);
            && Rest(ms, c, n, k) != [] && Rest(ms, c, n, k)[0] == Chunks(ms[n], c)[k]
            && Rest(ms, c, n, k)[1..] == if last then Rest(ms, c, n + 1, 0) else Rest(ms, c, n, k + 1)
  {
    CutInside(|ms[n].data|, c, k);
    DropOne(Chunks(ms[n], c), Rest(ms, c, n + 1, 0), k);
  }

  lemma DropOne(s: seq<Frame>, t: seq<Frame>, k: nat)
    requires k < |s|
    ensures s[k..] + t != [] && (s[k..] + t)[0] == s[k] && (s[k..] + t)[1..] == s[k + 1..] + t
    ensures k + 1 == |s| ==> s[k + 1..] + t == t
  {
  }

  lemma SubsequenceGrows(s: seq<Message>, t: seq<Message>, m: Message)
    requires Subsequence(s, t)
    ensures Subsequence(s, t + [m]) && Subsequence(s + [m], t + [m])
  {
    assert (t + [m])[..|t|] == t && (s + [m])[..|s|] == s;
  }

  lemma SameArrivals(r: Receiver, r': Receiver, ms: seq<Message>)
    requires SameSettings(r, r')
    ensures Arrivals(r, ms) == Arrivals(r', ms)
  {
  }

  // ---- what the calls do to the flow

  /** A message is accepted. */
  lemma FlowSends(w: Flow, m: Message)
    requires FlowOk(w) && m.Typed()
    ensures FlowOk(w.(sent := w.sent + [m], line := w.line + Chunks(m, w.c)))
  {
    var n: nat, k: nat :| FlowAt(w, n, k);
    var w' := w.(sent := w.sent + [m], line := w.line + Chunks(m, w.c));
    RestGrows(w.sent, m, w.c, n, k);
    assert w'.sent[..n] == w.sent[..n];
    if n == |w.sent| { CutInside(|m.data|, w.c, 0); }
    assert FlowAt(w', n, k);
  }

  /** What the receiver makes of the next frame; `full` says whether the inbox is. */
  function Received(w: Flow, full: bool): Flow
    requires w.line != []
  {
    var (r, reply) := AddChunkView(w.receiver, w.line[0], Env(true, true));
    var ms := if reply.message.Some? then [reply.message.value] else [];
    w.(line := w.line[1..], receiver := r, completed := w.completed + ms,
       stored := w.stored + (if full then [] else ms), refused := w.refused + (if full then |ms| else 0))
  }

  lemma FlowReceives(w: Flow, full: bool)
    requires FlowOk(w) && w.line != []
    ensures FlowOk(Received(w, full)) && SameSettings(w.receiver, Received(w, full).receiver)
  {
    var n: nat, k: nat :| FlowAt(w, n, k);
    NextFrame(w, n, k);
    var m, w' := w.sent[n], Received(w, full);
    var last := k + 1 == ChunksCount(|m.data|, w.c);
    LineMoves(w, w', n, k);
    ReceiverMoves(w, w', n, k);
    BooksKept(w, w', n, last && Deliverable(w.receiver, m), full, last);
    assert if last then FlowAt(w', n + 1, 0) else FlowAt(w', n, k + 1);
  }

  lemma NextFrame(w: Flow, n: nat, k: nat)
    requires FlowAt(w, n, k) && w.line != []
    ensures n < |w.sent| && k < ChunksCount(|w.sent[n].data|, w.c) && w.c * k < HEADER_SIZE + |w.sent[n].data|
    ensures w.line[0] == Cut(w.sent[n], w.sent[n].data, w.c, k)
    ensures var m := w.sent[n];
            var (r', reply) := AddChunkView(w.receiver, w.line[0], Env(true, true));
            var last := k + 1 == ChunksCount(|m.data|, w.c);
            && SameSettings(w.receiver, r')
            && reply.message == (if last && Deliverable(w.receiver, m) then Some(m.OnWire()) else None)
            && (if last then Quiet(r') else Midway(r', m, w.c, k + 1))
  {
    assert n < |w.sent|;
    RestShrinks(w.sent, w.c, n, k);
    CutInside(|w.sent[n].data|, w.c, k);
    Consume(w.receiver, w.sent[n], w.c, k);
  }

  lemma LineMoves(w: Flow, w': Flow, n: nat, k: nat)
    requires FlowFits(w) && n < |w.sent| && InLine(w, n, k) && FlowFits(w')
    requires w'.c == w.c && w'.sent == w.sent && w.line != [] && w'.line == w.line[1..]
    ensures if k + 1 == ChunksCount(|w.sent[n].data|, w.c) then InLine(w', n + 1, 0) else InLine(w', n, k + 1)
  {
    RestShrinks(w.sent, w.c, n, k);
    if n + 1 < |w.sent| { CutInside(|w.sent[n + 1].data|, w.c, 0); }
  }

  lemma ReceiverMoves(w: Flow, w': Flow, n: nat, k: nat)
    requires FlowFits(w) && n < |w.sent| && FlowFits(w') && w'.c == w.c && w'.sent == w.sent
    requires if k + 1 == ChunksCount(|w.sent[n].data|, w.c) then Quiet(w'.receiver)
             else Midway(w'.receiver, w.sent[n], w.c, k + 1)
    ensures if k + 1 == ChunksCount(|w.sent[n].data|, w.c) then ReceiverAt(w', n + 1, 0) else ReceiverAt(w', n, k + 1)
  {
  }

  lemma BooksKept(w: Flow, w': Flow, n: nat, arrives: bool, full: bool, last: bool)
    requires n < |w.sent| && Booked(w, n) && SameSettings(w.receiver, w'.receiver) && w'.sent == w.sent
    requires arrives == (last && Deliverable(w.receiver, w.sent[n]))
    requires var ms := if arrives then [w.sent[n].OnWire()] else [];
             && w'.completed == w.completed + ms
             && w'.stored == w.stored + (if full then [] else ms)
             && w'.refused == w.refused + (if full then |ms| else 0)
    ensures Booked(w', if last then n + 1 else n)
  {
    SameArrivals(w.receiver, w'.receiver, w.sent[..n]);
    SameArrivals(w.receiver, w'.receiver, w.sent[..n + 1]);
    assert w.sent[..n + 1][..n] == w.sent[..n];
    assert w.stored + [] == w.stored && w.completed + [] == w.completed;
    if arrives {
      SubsequenceGrows(w.stored, w.completed, w.sent[n].OnWire());
    } else {
      assert w'.stored == w.stored;
    }
  }

  /** The receiver itself never reports a message that could not be saved. */
  lemma TakingSaves(r: Receiver, h: Route, f: Frame, env: Env)
    requires f.len <= MAX_LEN
    ensures TakeFirst(r, h, f, env).result != CantSaveMessage
  {
  }

  lemma TableSaves(r: Receiver, h: Route, f: Frame, env: Env)
    requires f.len <= MAX_LEN
    ensures AddToTable(r, h, f, env).result != CantSaveMessage
  {
    TakingSaves(r, h, f, env);
  }

  lemma ViewAlwaysSaves(r: Receiver, f: Frame)
    ensures AddChunkView(r, f, Env(true, true)).1.result != CantSaveMessage
  {
    if f.len <= MAX_LEN { TableSaves(Expire(r), RouteOf(f.id), f, Env(true, true)); }
  }

  // -------------------------------------------------------------------- whole runs

  lemma SendFlow(s: Net, m: Message)
    requires ChunkLengthValid(s.a.q.chunkLength)
    ensures var w, w' := FlowOf(s), FlowOf(StepAtA(s, SendOp(m)));
            w' == w || w' == w.(sent := w.sent + [m], line := w.line + Chunks(m, w.c))
  {
    assert (s.ab + s.a.q.outbox) + Chunks(m, s.a.q.chunkLength) == s.ab + (s.a.q.outbox + Chunks(m, s.a.q.chunkLength));
  }

  lemma TxFlow(s: Net, hw: Hw)
    requires hw != HwNonRecoverable
    ensures FlowOf(StepAtA(s, TxOp(hw))) == FlowOf(s)
  {
    if s.a.q.outbox != [] {
      assert s.ab + [s.a.q.outbox[0]] + s.a.q.outbox[1..] == s.ab + s.a.q.outbox;
    }
    assert s.ab + [] == s.ab;
  }

  /** Receiving and reading at `a` leaves the flow to `b` alone. */
  lemma OtherFlow(s: Net, op: Op)
    requires op.RxOp? || op.NewOp?
    ensures FlowOf(StepAtA(s, op)) == FlowOf(s)
  {
  }

  lemma RxFlow(s: Net)
    requires s.ab != []
    ensures FlowOf(Next(s, Step(false, RxOp))) == Received(FlowOf(s), |s.b.q.inbox| >= s.b.q.inboxSize)
  {
    var f := s.ab[0];
    ViewAlwaysSaves(s.b.q.receiver, f);
    assert FlowOf(s).line[0] == f && FlowOf(s).line[1..] == s.ab[1..] + s.a.q.outbox;
    var (r, reply) := AddChunkView(s.b.q.receiver, f, Env(true, true));
    if reply.message.Some? {
      assert s.b.given + (s.b.q.inbox + [reply.message.value]) == s.b.given + s.b.q.inbox + [reply.message.value];
    }
  }

  lemma NewFlow(s: Net)
    ensures FlowOf(Next(s, Step(false, NewOp))) == FlowOf(s)
  {
    if s.b.q.inbox != [] {
      assert s.b.given + [s.b.q.inbox[0]] + s.b.q.inbox[1..] == s.b.given + s.b.q.inbox;
    }
    assert s.b.given + [] == s.b.given;
  }

  /** Sending at `b` leaves the flow to `b` alone. */
  lemma BackFlow(s: Net, op: Op)
    requires op.SendOp? || op.TxOp?
    ensures FlowOf(Next(s, Step(false, op))) == FlowOf(s)
  {
  }

  /** Every call at either node keeps the flow in order. */
  lemma FlowKept(s: Net, st: Step)
    requires FlowOk(FlowOf(s)) && st.Lossless()
    ensures FlowOk(FlowOf(Next(s, st))) && SameSettings(s.b.q.receiver, Next(s, st).b.q.receiver)
  {
    match st {
      case Step(true, SendOp(m)) =>
        SendFlow(s, m);
        FlowSends(FlowOf(s), m);
      case Step(true, TxOp(hw)) => TxFlow(s, hw);
      case Step(true, op) => OtherFlow(s, op);
      case Step(false, RxOp) =>
        if s.ab != [] {
          RxFlow(s);
          FlowReceives(FlowOf(s), |s.b.q.inbox| >= s.b.q.inboxSize);
        }
      case Step(false, NewOp) => NewFlow(s);
      case Step(false, op) => BackFlow(s, op);
    }
  }

  /** Nothing sent or received yet; a chunk can hold the header and the receiver has
      an entry, which initialisation checks. */
  ghost predicate Initial(n: Node) {
    && ChunkLengthValid(n.q.chunkLength) && |n.q.receiver.slots| > 0
    && Idle(n.q.receiver) && n.q.outbox == [] && n.q.inbox == []
    && n.sent == [] && n.completed == [] && n.given == [] && n.refused == 0
  }

  lemma {:induction false} RunFlows(s: Net, steps: seq<Step>)
    requires Initial(s.a) && Initial(s.b) && s.ab == []
    requires forall i :: 0 <= i < |steps| ==> steps[i].Lossless()
    ensures FlowOk(FlowOf(Run(s, steps))) && SameSettings(s.b.q.receiver, Run(s, steps).b.q.receiver)
  {
    if steps == [] {
      assert FlowAt(FlowOf(s), 0, 0);
    } else {
      var n := |steps| - 1;
      RunFlows(s, steps[..n]);
      FlowKept(Run(s, steps[..n]), steps[n]);
    }
  }

  lemma {:induction false} ArrivalsPrefix(r: Receiver, ms: seq<Message>, n: nat)
    requires n <= |ms|
    ensures Arrivals(r, ms[..n]) <= Arrivals(r, ms)
  {
    if n < |ms| {
      ArrivalsPrefix(r, ms[..|ms| - 1], n);
      assert ms[..|ms| - 1][..n] == ms[..n];
    } else {
      assert ms[..n] == ms;
    }
  }

  lemma {:induction false} SubsequenceOfPrefix(s: seq<Message>, t: seq<Message>, u: seq<Message>)
    requires Subsequence(s, t) && t <= u
    ensures Subsequence(s, u)
    decreases |u|
  {
    if |t| < |u| {
      var v, x := u[..|u| - 1], u[|u| - 1];
      assert u == v + [x];
      SubsequenceOfPrefix(s, t, v);
      SubsequenceGrows(s, v, x);
    } else {
      assert t == u;
    }
  }

  /** For every schedule of calls at both nodes: the messages given to the application
      at `b`, followed by those in its inbox, are sent messages `b` can take,
      unaltered and in order; without gaps, if none found the inbox full; and all of
      them, once no chunk is left on the way. */
  lemma InOrder(s: Net, steps: seq<Step>)
    requires Initial(s.a) && Initial(s.b) && s.ab == []
    requires forall i :: 0 <= i < |steps| ==> steps[i].Lossless()
    ensures var t := Run(s, steps);
            var received, expected := t.b.given + t.b.q.inbox, Arrivals(s.b.q.receiver, t.a.sent);
            && Subsequence(received, expected)
            && (t.b.refused == 0 ==> received <= expected)
            && (t.b.refused == 0 && t.ab == [] && t.a.q.outbox == [] ==> received == expected)
  {
    var t := Run(s, steps);
    RunFlows(s, steps);
    var w := FlowOf(t);
    var n: nat, k: nat :| FlowAt(w, n, k);
    SameArrivals(s.b.q.receiver, w.receiver, w.sent);
    ArrivalsPrefix(w.receiver, w.sent, n);
    SubsequenceOfPrefix(w.stored, w.completed, Arrivals(w.receiver, w.sent));
    if t.ab == [] && t.a.q.outbox == [] {
      Drained(w, n, k);
    }
  }

  lemma Drained(w: Flow, n: nat, k: nat)
    requires FlowAt(w, n, k) && w.line == []
    ensures n == |w.sent| && w.sent[..n] == w.sent
  {
    if n < |w.sent| { RestShrinks(w.sent, w.c, n, k); }
  }

  function Mirrored(steps: seq<Step>): (r: seq<Step>)
    ensures |r| == |steps|
  {
    seq(|steps|, i requires 0 <= i < |steps| => Flipped(steps[i]))
  }

  function Flipped(st: Step): Step { st.(atA := !st.atA) }

  lemma NextFlips(s: Net, st: Step)
    ensures Next(Swap(s), Flipped(st)) == Swap(Next(s, st))
  {
  }

  lemma {:induction false} MirrorRun(s: Net, steps: seq<Step>)
    ensures Run(Swap(s), Mirrored(steps)) == Swap(Run(s, steps))
  {
    if steps != [] {
      var n := |steps| - 1;
      MirrorRun(s, steps[..n]);
      assert Mirrored(steps)[..n] == Mirrored(steps[..n]);
      NextFlips(Run(s, steps[..n]), steps[n]);
    }
  }

  /** The same for the other direction, at the same time. */
  lemma InOrderBack(s: Net, steps: seq<Step>)
    requires Initial(s.a) && Initial(s.b) && s.ba == []
    requires forall i :: 0 <= i < |steps| ==> steps[i].Lossless()
    ensures var t := Run(s, steps);
            var received, expected := t.a.given + t.a.q.inbox, Arrivals(s.a.q.receiver, t.b.sent);
            && Subsequence(received, expected)
            && (t.a.refused == 0 ==> received <= expected)
            && (t.a.refused == 0 && t.ba == [] && t.b.q.outbox == [] ==> received == expected)
  {
    MirrorRun(s, steps);
    InOrder(Swap(s), Mirrored(steps));
  }
}
