/** ProtoPlexer with queues: an outbox of chunks and an inbox of messages around the
    receiver, as step functions on sequences. */
module QueueCore {
  import opened Can
  import opened PlexCore

  const WORDS: nat := 0x1_0000_0000

  /** `limit` is the configured number of send attempts; `attempts` counts the times
      in a row the network asked for the same chunk again. */
  datatype Queue = Queue(receiver: Receiver, chunkLength: nat, maxPayload: nat,
                         outbox: seq<Frame>, outboxSize: nat, inbox: seq<Message>, inboxSize: nat,
                         attempts: nat, limit: nat)

  /** What a network may answer to a chunk. */
  datatype Hw = HwOk | HwResend | HwNonRecoverable | HwOther

  /** All chunks of a message are queued, or none. */
  function Send(q: Queue, m: Message): (Queue, Result) {
    if |m.data| > q.maxPayload then (q, InvalidSize)
    else if ChunksCount(|m.data|, q.chunkLength) == 0 then (q, CantSendHeader)
    else if |q.outbox| + ChunksCount(|m.data|, q.chunkLength) > q.outboxSize then (q, CantAddMessageChunks)
    else (q.(outbox := q.outbox + Chunks(m, q.chunkLength)), Ok)
  }

  /** The receiver lends a complete message, which goes to the inbox. */
  function Receive(q: Queue, f: Frame): (Queue, Reply) {
    var (r, reply) := AddChunkView(q.receiver, f, Env(true, true));
    var p := q.(receiver := r);
    if reply.message.None? then (p, reply)
    else if |q.inbox| >= q.inboxSize then (p, Reply(CantSaveMessage, reply.message))
    else (p.(inbox := q.inbox + [reply.message.value]), reply)
  }

  function PollRx(q: Queue, f: Option<Frame>): (Queue, Result) {
    if f.None? then (q, RxEmpty) else var (p, reply) := Receive(q, f.value); (p, reply.result)
  }

  function PollTx(q: Queue, hw: Hw): (Queue, Result) {
    if q.outbox == [] then (q, TxBufferEmpty)
    else match hw
      case HwResend =>
        var tries := (q.attempts + 1) % WORDS;
        if tries > q.limit then (q.(attempts := 0), TooManyAttempts) else (q.(attempts := tries), Ok)
      case HwOk => (q.(outbox := q.outbox[1..], attempts := 0), Ok)
      case HwNonRecoverable => (q.(outbox := q.outbox[1..], attempts := 0), NonRecoverable)
      case HwOther => (q, Failure)
  }

  function PollNew(q: Queue): (Queue, Result, Option<Message>) {
    if q.inbox == [] then (q, NoNewMessages, None) else (q.(inbox := q.inbox[1..]), Ok, Some(q.inbox[0]))
  }

  // ---------------------------------------------------------------------------- runs

  /** A call; `DoTx` names what the network answers, `DoRx` what it has. */
  datatype Act = DoSend(m: Message) | DoTx(hw: Hw) | DoRx(f: Option<Frame>) | DoNew

  function Do(q: Queue, act: Act): Queue {
    match act
    case DoSend(m) => Send(q, m).0
    case DoTx(hw) => PollTx(q, hw).0
    case DoRx(f) => PollRx(q, f).0
    case DoNew => PollNew(q).0
  }

  function After(q: Queue, acts: seq<Act>): Queue {
    if acts == [] then q else Do(After(q, acts[..|acts| - 1]), acts[|acts| - 1])
  }

  // ------------------------------------------------------------------- send attempts

  /** How often the network has asked for a chunk again since one last left the
      outbox, counted from the answers alone. */
  ghost function Asked(q: Queue, acts: seq<Act>): nat {
    if acts == [] then 0
    else AskedNext(After(q, acts[..|acts| - 1]), acts[|acts| - 1], Asked(q, acts[..|acts| - 1]))
  }

  ghost function AskedNext(q: Queue, act: Act, n: nat): nat {
    if !act.DoTx? || act.hw == HwOther || q.outbox == [] then n else if act.hw == HwResend then n + 1 else 0
  }

  lemma NextRemainder(n: nat, d: nat)
    requires d > 0
    ensures (n + 1) % d == if n % d + 1 == d then 0 else n % d + 1
  {
    var k, r := n / d, n % d;
    assert n == k * d + r;
    if r + 1 == d {
      assert (k + 1) * d == k * d + d;
      RemainderIs(n + 1, k + 1, 0, d);
    } else {
      RemainderIs(n + 1, k, r + 1, d);
    }
  }

  lemma OnceMore(q: Queue)
    requires q.outbox != [] && q.attempts <= q.limit < WORDS
    ensures PollTx(q, HwResend).0 == q.(attempts := if q.attempts == q.limit then 0 else q.attempts + 1)
    ensures PollTx(q, HwResend).1 == if q.attempts == q.limit && q.limit + 1 < WORDS then TooManyAttempts else Ok
  {
    if q.attempts + 1 < WORDS {
      assert (q.attempts + 1) % WORDS == q.attempts + 1;
    } else {
      assert (q.attempts + 1) % WORDS == 0;
    }
  }

  /** Every other call leaves the counter alone, except that a chunk that leaves
      clears it. */
  lemma CounterStep(q: Queue, act: Act)
    requires act != DoTx(HwResend) || q.outbox == []
    ensures var r := Do(q, act);
            && r.limit == q.limit
            && r.attempts == if act.DoTx? && act.hw != HwOther && q.outbox != [] then 0 else q.attempts
  {
  }

  lemma ZeroRemainder(d: nat)
    requires d > 0
    ensures 0 % d == 0
  {
    RemainderIs(0, 0, 0, d);
  }

  /** What every call keeps, with the count of requests, holds throughout. */
  lemma {:induction false} HoldsThroughout(q: Queue, acts: seq<Act>, inv: (Queue, nat) -> bool)
    requires inv(q, 0)
    requires forall p: Queue, act: Act, n: nat :: inv(p, n) ==> inv(Do(p, act), AskedNext(p, act, n))
    ensures inv(After(q, acts), Asked(q, acts))
  {
    if acts != [] {
      HoldsThroughout(q, acts[..|acts| - 1], inv);
    }
  }

  ghost predicate Counts(limit: nat, q: Queue, n: nat) {
    q.limit == limit && q.attempts == n % (limit + 1)
  }

  lemma CountsOn(limit: nat, q: Queue, act: Act, n: nat)
    requires limit < WORDS && Counts(limit, q, n)
    ensures Counts(limit, Do(q, act), AskedNext(q, act, n))
  {
    ZeroRemainder(limit + 1);
    if act == DoTx(HwResend) && q.outbox != [] {
      OnceMore(q);
      NextRemainder(n, limit + 1);
    } else {
      CounterStep(q, act);
    }
  }

  lemma AttemptsCounted(q: Queue, acts: seq<Act>)
    requires q.attempts == 0 && q.limit < WORDS
    ensures Counts(q.limit, After(q, acts), Asked(q, acts))
  {
    var inv := (p: Queue, n: nat) => Counts(q.limit, p, n);
    ZeroRemainder(q.limit + 1);
    forall p: Queue, act: Act, n: nat | inv(p, n) ensures inv(Do(p, act), AskedNext(p, act, n)) {
      CountsOn(q.limit, p, act, n);
    }
    HoldsThroughout(q, acts, inv);
  }

  /** In every reachable queue the counter is at most the limit. When the network
      asks again, the chunk stays first in the outbox, and the caller is told at
      every `limit + 1`st request, whatever other calls came between; unless the
      32-bit counter wraps before it can exceed the limit. */
  lemma AttemptsReported(q: Queue, acts: seq<Act>)
    requires q.attempts == 0 && q.limit < WORDS
    ensures var r := After(q, acts);
            && r.attempts <= r.limit == q.limit
            && (r.outbox != [] ==>
                  && PollTx(r, HwResend).0.outbox == r.outbox
                  && (PollTx(r, HwResend).1 == TooManyAttempts
                      <==> (Asked(q, acts) + 1) % (q.limit + 1) == 0 && q.limit + 1 < WORDS))
  {
    AttemptsCounted(q, acts);
    NextRemainder(Asked(q, acts), q.limit + 1);
    if After(q, acts).outbox != [] { OnceMore(After(q, acts)); }
  }

  /** `n` polls in a row at which the network asks again. */
  function Again(n: nat): (acts: seq<Act>)
    ensures |acts| == n
  {
    seq(n, _ => DoTx(HwResend))
  }

  lemma {:induction false} AgainAsks(q: Queue, n: nat)
    requires q.outbox != []
    ensures After(q, Again(n)).outbox == q.outbox && Asked(q, Again(n)) == n
  {
    if n > 0 {
      AgainAsks(q, n - 1);
      assert Again(n)[..n - 1] == Again(n - 1);
      StillFirst(After(q, Again(n - 1)));
    }
  }

  lemma StillFirst(q: Queue)
    ensures Do(q, DoTx(HwResend)).outbox == q.outbox
  {
  }

  /** With the largest limit the counter wraps instead: even the request after 2^32 - 1
      others in a row, one more than the limit, is answered OK. */
  lemma LargestLimitNeverReports(q: Queue)
    requires q.outbox != [] && q.attempts == 0 && q.limit == 0xFFFF_FFFF
    ensures Asked(q, Again(0xFFFF_FFFF)) == q.limit
    ensures PollTx(After(q, Again(0xFFFF_FFFF)), HwResend).1 == Ok
  {
    AgainAsks(q, 0xFFFF_FFFF);
    AttemptsCounted(q, Again(0xFFFF_FFFF));
    OnceMore(After(q, Again(0xFFFF_FFFF)));
  }
}
