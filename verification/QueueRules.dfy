/** The rules of the queue: which messages it accepts, what it does with each answer of
    the network, and when a message is lost at the inbox. */
module QueueRules {
  import opened Can
  import opened PlexCore
  import opened QueueCore
  import L = QueueLink

  // ------------------------------------------------------------------------- sending

  /** `k` is the least number of chunks of `c` bytes that hold a header of six bytes and
      `n` bytes of data. */
  ghost predicate Needs(n: nat, c: nat, k: nat) {
    k > 0 && k * c >= 6 + n && (k - 1) * c < 6 + n
  }

  lemma CountIs(n: nat, c: nat, k: nat)
    requires 6 <= c <= 8 && Needs(n, c, k)
    ensures ChunksCount(n, c) == k
  {
    CutInside(n, c, k);
    CutInside(n, c, k - 1);
    assert c * k == k * c && c * (k - 1) == (k - 1) * c;
  }

  /** The chunks that were put behind the others are those of the message. */
  ghost predicate AreChunks(fs: seq<Frame>, m: Message, c: nat) {
    forall j :: 0 <= j < |fs| ==> BuildChunk(m, c, j) == Chunk(fs[j])
  }

  lemma ChunksAre(m: Message, c: nat)
    requires ChunkLengthValid(c)
    ensures AreChunks(Chunks(m, c), m, c)
  {
  }

  /** A message is accepted if and only if its data are within the limit, a chunk can hold
      the header and the outbox has a place for each of its chunks, the last ones
      included. Otherwise nothing is queued, and the first reason is answered. */
  lemma SendAccepts(q: Queue, m: Message, k: nat)
    requires 6 <= q.chunkLength <= 8 ==> Needs(|m.data|, q.chunkLength, k)
    ensures Send(q, m).1 == Ok
       <==> |m.data| <= q.maxPayload && 6 <= q.chunkLength <= 8 && |q.outbox| + k <= q.outboxSize
    ensures Send(q, m).1 == Ok ==>
              var p := Send(q, m).0;
              && |p.outbox| == |q.outbox| + k && p == q.(outbox := p.outbox) && p.outbox[..|q.outbox|] == q.outbox
              && AreChunks(p.outbox[|q.outbox|..], m, q.chunkLength)
    ensures Send(q, m).1 != Ok ==>
              Send(q, m) == (q, if |m.data| > q.maxPayload then InvalidSize
                                else if q.chunkLength < 6 || q.chunkLength > 8 then CantSendHeader
                                else CantAddMessageChunks)
  {
    if 6 <= q.chunkLength <= 8 {
      CountIs(|m.data|, q.chunkLength, k);
      ChunksAre(m, q.chunkLength);
      var fs := Chunks(m, q.chunkLength);
      assert (q.outbox + fs)[|q.outbox|..] == fs && (q.outbox + fs)[..|q.outbox|] == q.outbox;
    }
  }

  /** `n` polls in a row at which the network takes a chunk. */
  function Sending(n: nat): (acts: seq<Act>)
    ensures |acts| == n
  {
    seq(n, _ => DoTx(HwOk))
  }

  /** Each of them takes the oldest chunk. */
  lemma {:induction false} Drains(q: Queue, n: nat)
    requires n <= |q.outbox|
    ensures var p := After(q, Sending(n));
            p == q.(outbox := q.outbox[n..], attempts := if n == 0 then q.attempts else 0)
  {
    if n == 0 {
      assert q.outbox[0..] == q.outbox;
    } else {
      Drains(q, n - 1);
      assert Sending(n)[..n - 1] == Sending(n - 1);
      assert q.outbox[n - 1..][1..] == q.outbox[n..];
    }
  }

  /** Once the network has taken what is queued, every message within the limit that has
      no more chunks than the outbox has places is accepted. */
  lemma DrainedAccepts(q: Queue, m: Message, k: nat)
    requires 6 <= q.chunkLength <= 8 && Needs(|m.data|, q.chunkLength, k)
    requires |m.data| <= q.maxPayload && k <= q.outboxSize
    ensures Send(After(q, Sending(|q.outbox|)), m).1 == Ok
  {
    Drains(q, |q.outbox|);
    SendAccepts(After(q, Sending(|q.outbox|)), m, k);
  }

  // ---------------------------------------------------------------- network and inbox

  /** What each answer of the network does to the oldest chunk, and what the caller is
      told. */
  lemma NetworkAnswers(q: Queue, hw: Hw)
    requires q.attempts <= q.limit < 0x1_0000_0000
    ensures q.outbox == [] ==> PollTx(q, hw) == (q, TxBufferEmpty)
    ensures q.outbox != [] && hw == HwOk ==> PollTx(q, hw) == (q.(outbox := q.outbox[1..], attempts := 0), Ok)
    ensures q.outbox != [] && hw == HwNonRecoverable ==>
              PollTx(q, hw) == (q.(outbox := q.outbox[1..], attempts := 0), NonRecoverable)
    ensures q.outbox != [] && hw == HwOther ==> PollTx(q, hw) == (q, Failure)
    ensures q.outbox != [] && hw == HwResend && q.attempts < q.limit ==>
              PollTx(q, hw) == (q.(attempts := q.attempts + 1), Ok)
    ensures q.outbox != [] && hw == HwResend && q.attempts == q.limit < 0xFFFF_FFFF ==>
              PollTx(q, hw) == (q.(attempts := 0), TooManyAttempts)
  {
    if q.outbox != [] { OnceMore(q); }
  }

  /** A chunk goes to the receiver, and a message it completes to the end of the inbox;
      if that is full the message is lost, and the caller is told. */
  lemma ChunkArrives(q: Queue, f: Frame)
    ensures PollRx(q, None) == (q, RxEmpty)
    ensures var (r, reply) := AddChunkView(q.receiver, f, Env(true, true));
            var full := |q.inbox| == q.inboxSize;
            |q.inbox| <= q.inboxSize ==>
              PollRx(q, Some(f))
              == (q.(receiver := r, inbox := if reply.message.None? || full then q.inbox
                                             else q.inbox + [reply.message.value]),
                  if reply.message.Some? && full then CantSaveMessage else reply.result)
  {
  }

  /** The oldest message is handed out, once. */
  lemma OldestHandedOut(q: Queue)
    ensures q.inbox == [] ==> PollNew(q) == (q, NoNewMessages, None)
    ensures q.inbox != [] ==> PollNew(q) == (q.(inbox := q.inbox[1..]), Ok, Some(q.inbox[0]))
  {
  }

  // ---------------------------------------------------------------------------- runs

  ghost predicate Within(q: Queue) { |q.inbox| <= q.inboxSize && |q.outbox| <= q.outboxSize }

  lemma DoKeepsWithin(q: Queue, act: Act)
    requires Within(q)
    ensures Within(Do(q, act))
  {
  }

  /** In every run the queue uses no more places than it has. */
  lemma {:induction false} PlacesSuffice(q: Queue, acts: seq<Act>)
    requires Within(q)
    ensures Within(After(q, acts))
  {
    if acts != [] {
      PlacesSuffice(q, acts[..|acts| - 1]);
      DoKeepsWithin(After(q, acts[..|acts| - 1]), acts[|acts| - 1]);
    }
  }

  lemma PlaceSaves(n: L.Node, f: Frame)
    requires |n.q.inbox| < n.q.inboxSize
    ensures L.ActRx(n, f).refused == n.refused
  {
    L.ViewAlwaysSaves(n.q.receiver, f);
  }

  lemma StepSaves(s: L.Net, st: L.Step)
    requires st == L.Step(false, L.RxOp) ==> |s.b.q.inbox| < s.b.q.inboxSize
    ensures L.Next(s, st).b.refused == s.b.refused
  {
    if st == L.Step(false, L.RxOp) && s.ab != [] { PlaceSaves(s.b, s.ab[0]); }
  }

  /** An application that reads its messages before the inbox is full loses none: in every
      run of two nodes, none is refused if a place is free whenever a chunk is taken. */
  lemma {:induction false} NoneRefused(s: L.Net, steps: seq<L.Step>)
    requires forall n :: 0 <= n < |steps| && steps[n] == L.Step(false, L.RxOp) ==>
               var q := L.Run(s, steps[..n]).b.q; |q.inbox| < q.inboxSize
    ensures L.Run(s, steps).b.refused == s.b.refused
  {
    if steps != [] {
      var n := |steps| - 1;
      forall k | 0 <= k < n && steps[..n][k] == L.Step(false, L.RxOp)
        ensures var q := L.Run(s, steps[..n][..k]).b.q; |q.inbox| < q.inboxSize
      {
        assert steps[..n][..k] == steps[..k];
      }
      NoneRefused(s, steps[..n]);
      StepSaves(L.Run(s, steps[..n]), steps[n]);
    }
  }
}
