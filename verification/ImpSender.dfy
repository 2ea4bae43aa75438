/** The acknowledged sender: whatever mixture of ACK and NACK it is fed, it walks
    through START, the slices of the payload and END in order. */
module ImpSender {
  import opened Can
  import opened ImpCore
  import opened ImpInvariants

  ghost function SliceCount(data: seq<byte>): nat { CeilDiv(|data|, MAX_LEN) }

  /** The `i`-th eight-byte slice of `data`; the last one may be shorter. */
  ghost function Slice(data: seq<byte>, i: nat): (b: seq<byte>)
    requires i < SliceCount(data)
    ensures 0 < |b| <= MAX_LEN
  {
    data[MAX_LEN * i..Min(MAX_LEN * (i + 1), |data|)]
  }

  /** The frames of one undisturbed acknowledged transfer, in order. */
  ghost function Script(own: nat, s: Session): (p: seq<Packet>)
    ensures |p| == SliceCount(s.payload) + 2
  {
    [ToPeer(own, s, Start)]
    + seq(SliceCount(s.payload), i requires 0 <= i < SliceCount(s.payload) => ToPeer(own, s, Data, Slice(s.payload, i)))
    + [ToPeer(own, s, End)]
  }

  /** `s` is the transfer `s0` after frame `p` of its script. */
  ghost predicate AtFrame(s0: Session, s: Session, p: nat) {
    && KeyOf(s) == KeyOf(s0) && s.payload == s0.payload
    && p <= SliceCount(s0.payload) + 1
    && (p == 0 ==> s.state == TxWaitStartAck && s.offset == 0)
    && (0 < p <= SliceCount(s0.payload) ==> s.state == TxWaitDataAck && s.offset == MAX_LEN * (p - 1))
    && (p == SliceCount(s0.payload) + 1 ==> s.state == TxWaitEndAck)
  }

  datatype Reply = Reply(ack: bool, now: nat)

  function CommandFor(r: Reply): Command { if r.ack then Ack else Nack }

  lemma ScriptAt(own: nat, s: Session, p: nat)
    requires p < SliceCount(s.payload) + 2
    ensures Script(own, s)[p] == if p == 0 then ToPeer(own, s, Start)
                                 else if p <= SliceCount(s.payload) then ToPeer(own, s, Data, Slice(s.payload, p - 1))
                                 else ToPeer(own, s, End)
  {
  }

  /** With `q` slices acknowledged, the next frame is number `q + 1`. */
  lemma EmitAt(own: nat, s0: Session, s: Session, q: nat, now: nat)
    requires KeyOf(s) == KeyOf(s0) && s.payload == s0.payload && q <= SliceCount(s0.payload)
    requires s.offset == Min(MAX_LEN * q, |s.payload|)
    ensures var step := EmitNextAcked(own, s, now);
            && step.result == Ok && step.output == NO_OUTPUT.(frame := Some(Script(own, s0)[q + 1]))
            && AtFrame(s0, step.session, q + 1)
  {
    ScriptAt(own, s0, q + 1);
  }

  lemma NextOffset(own: nat, maxSize: nat, s0: Session, s: Session, p: nat)
    requires SessionOk(s, own, maxSize) && AtFrame(s0, s, p) && 0 < p <= SliceCount(s0.payload)
    ensures s.offset + s.lastLength == Min(MAX_LEN * p, |s.payload|)
  {
  }

  /** Before the answer to END: an ACK draws the next frame. */
  lemma AckWithin(own: nat, maxSize: nat, s0: Session, s: Session, p: nat, now: nat)
    requires s.IsTx() && SessionOk(s, own, maxSize) && maxSize < 0x1_0000 && AtFrame(s0, s, p)
    requires p < SliceCount(s0.payload) + 1
    ensures var step := HandleTx(own, maxSize, s, Ack, now);
            && step.result == Ok && step.output == NO_OUTPUT.(frame := Some(Script(own, s0)[p + 1]))
            && AtFrame(s0, step.session, p + 1)
  {
    AckIs(own, maxSize, s, now);
    if p == 0 {
      EmitAt(own, s0, s, 0, now);
    } else {
      NextOffset(own, maxSize, s0, s, p);
      EmitAt(own, s0, s.(offset := s.offset + s.lastLength), p, now);
    }
  }

  /** And a NACK draws the same again. */
  lemma NackWithin(own: nat, maxSize: nat, s0: Session, s: Session, p: nat, now: nat)
    requires s.IsTx() && SessionOk(s, own, maxSize) && maxSize < 0x1_0000 && AtFrame(s0, s, p)
    requires p < SliceCount(s0.payload) + 1
    ensures var step := HandleTx(own, maxSize, s, Nack, now);
            && step.result == Ok && step.output == NO_OUTPUT.(frame := Some(Script(own, s0)[p]))
            && AtFrame(s0, step.session, p)
  {
    ScriptAt(own, s0, p);
  }

  /** One answer moves the transfer one frame on, repeats the frame, or ends it. */
  lemma AnswerStep(own: nat, maxSize: nat, s0: Session, s: Session, p: nat, r: Reply)
    requires s.IsTx() && SessionOk(s, own, maxSize) && maxSize < 0x1_0000 && AtFrame(s0, s, p)
    ensures var step := HandleTx(own, maxSize, s, CommandFor(r), r.now);
            var last := SliceCount(s0.payload) + 1;
            if p < last then
              && step.result == Ok && step.output.event == NoEvent && step.output.message == None
              && AtFrame(s0, step.session, if r.ack then p + 1 else p)
              && step.output.frame == Some(Script(own, s0)[if r.ack then p + 1 else p])
            else
              && step.session.state == Free && step.output.frame == None
              && step.output.event == (if r.ack then TxFinished else TxAborted)
              && step.result == (if r.ack then Ok else MessageRejected)
  {
    if p < SliceCount(s0.payload) + 1 {
      if r.ack {
        AckWithin(own, maxSize, s0, s, p, r.now);
      } else {
        NackWithin(own, maxSize, s0, s, p, r.now);
      }
    }
  }

  /** The session after a list of answers, and the frames its ACKs drew out. */
  ghost function Transmit(own: nat, maxSize: nat, s: Session, replies: seq<Reply>): (r: (Session, seq<Packet>))
    requires s.IsTx() && SessionOk(s, own, maxSize) && maxSize < 0x1_0000
    ensures r.0.state != Free ==> r.0.IsTx() && SessionOk(r.0, own, maxSize)
  {
    if replies == [] then (s, [])
    else
      var (t, sent) := Transmit(own, maxSize, s, replies[..|replies| - 1]);
      if t.state == Free then (t, sent)
      else
        var r := replies[|replies| - 1];
        HandleTxOk(own, maxSize, t, CommandFor(r), r.now);
        var step := HandleTx(own, maxSize, t, CommandFor(r), r.now);
        (step.session, if r.ack && step.output.frame.Some? then sent + [step.output.frame.value] else sent)
  }

  lemma ScriptGrows(own: nat, s: Session, sent: seq<Packet>)
    requires |sent| + 1 < |Script(own, s)| && [ToPeer(own, s, Start)] + sent == Script(own, s)[..|sent| + 1]
    ensures var more := sent + [Script(own, s)[|sent| + 1]];
            [ToPeer(own, s, Start)] + more == Script(own, s)[..|sent| + 2]
  {
    var script, more := Script(own, s), sent + [Script(own, s)[|sent| + 1]];
    assert [ToPeer(own, s, Start)] + more == script[..|sent| + 1] + [script[|sent| + 1]];
  }

  /** For any answers: START followed by what the ACKs drew out is a prefix of
      the script, and the transfer stands exactly at the last frame of it. */
  lemma {:induction false} SendsItsScript(own: nat, maxSize: nat, s: Session, replies: seq<Reply>)
    requires s.state == TxWaitStartAck && SessionOk(s, own, maxSize) && maxSize < 0x1_0000
    ensures var (t, sent) := Transmit(own, maxSize, s, replies);
            && |sent| < |Script(own, s)|
            && [ToPeer(own, s, Start)] + sent == Script(own, s)[..|sent| + 1]
            && (t.state != Free ==> AtFrame(s, t, |sent|))
  {
    if replies != [] {
      var init, r := replies[..|replies| - 1], replies[|replies| - 1];
      SendsItsScript(own, maxSize, s, init);
      var (t, sent) := Transmit(own, maxSize, s, init);
      if t.state != Free {
        ScriptStep(own, maxSize, s, t, sent, r);
      }
    }
  }

  lemma ScriptStep(own: nat, maxSize: nat, s: Session, t: Session, sent: seq<Packet>, r: Reply)
    requires t.IsTx() && SessionOk(t, own, maxSize) && maxSize < 0x1_0000 && AtFrame(s, t, |sent|)
    requires [ToPeer(own, s, Start)] + sent == Script(own, s)[..|sent| + 1]
    ensures var step := HandleTx(own, maxSize, t, CommandFor(r), r.now);
            var more := if r.ack && step.output.frame.Some? then sent + [step.output.frame.value] else sent;
            && |more| < |Script(own, s)|
            && [ToPeer(own, s, Start)] + more == Script(own, s)[..|more| + 1]
            && (step.session.state != Free ==> AtFrame(s, step.session, |more|))
  {
    AnswerStep(own, maxSize, s, t, |sent|, r);
    if r.ack && |sent| < SliceCount(s.payload) + 1 {
      ScriptGrows(own, s, sent);
    }
  }

  /** A NACK before END is answered with the frame sent last, unchanged; a NACK
      after END gives the transfer up. */
  lemma NackRepeats(own: nat, maxSize: nat, s: Session, replies: seq<Reply>, now: nat)
    requires s.state == TxWaitStartAck && SessionOk(s, own, maxSize) && maxSize < 0x1_0000
    requires Transmit(own, maxSize, s, replies).0.state != Free
    ensures var (t, sent) := Transmit(own, maxSize, s, replies);
            var answer := HandleTx(own, maxSize, t, Nack, now);
            var all := [ToPeer(own, s, Start)] + sent;
            if t.state == TxWaitEndAck then
              answer.session.state == Free && answer.output.event == TxAborted && answer.output.frame == None
            else
              && answer.output.frame == Some(all[|all| - 1])
              && Transmit(own, maxSize, s, replies + [Reply(false, now)]).1 == sent
  {
    SendsItsScript(own, maxSize, s, replies);
    var (t, sent) := Transmit(own, maxSize, s, replies);
    AnswerStep(own, maxSize, s, t, |sent|, Reply(false, now));
    assert (replies + [Reply(false, now)])[..|replies|] == replies;
  }
}
