/** Two queue nodes whose network may drop chunks: a message none of whose chunks was
    dropped is completed whatever the dropped ones left behind. */
module QueueLoss {
  import opened Can
  import opened PlexCore
  import I = PlexInvariants
  import opened PlexStreams
  import opened QueueCore
  import opened QueueLink

  // ------------------------------------------------------ a receiver and what it hears

  /** What `step` makes of the frames, one after the other. */
  function Fold(step: (Receiver, Frame) -> Receiver, r: Receiver, fs: seq<Frame>): Receiver {
    if fs == [] then r else step(Fold(step, r, fs[..|fs| - 1]), fs[|fs| - 1])
  }

  /** What `out` reads at each of these steps. */
  function Outputs(step: (Receiver, Frame) -> Receiver, out: (Receiver, Frame) -> seq<Message>,
                   r: Receiver, fs: seq<Frame>): seq<Message> {
    if fs == [] then []
    else Outputs(step, out, r, fs[..|fs| - 1]) + out(Fold(step, r, fs[..|fs| - 1]), fs[|fs| - 1])
  }

  function Lent(f: Frame): Call { Call(f, true, Env(true, true)) }

  function Taking(): (Receiver, Frame) -> Receiver { (r: Receiver, f: Frame) => Perform(r, Lent(f)).0 }

  function Completing(): (Receiver, Frame) -> seq<Message> {
    (r: Receiver, f: Frame) => Given(Perform(r, Lent(f)).1)
  }

  function Given(reply: Reply): seq<Message> { if reply.message.Some? then [reply.message.value] else [] }

  /** The receiver after these frames. */
  function Listen(r: Receiver, fs: seq<Frame>): Receiver { Fold(Taking(), r, fs) }

  /** The messages these frames complete. */
  function Came(r: Receiver, fs: seq<Frame>): seq<Message> { Outputs(Taking(), Completing(), r, fs) }

  lemma ListenNext(r: Receiver, fs: seq<Frame>, f: Frame)
    ensures Listen(r, fs + [f]) == Perform(Listen(r, fs), Lent(f)).0
    ensures Came(r, fs + [f]) == Came(r, fs) + Given(Perform(Listen(r, fs), Lent(f)).1)
    ensures Listen(r, []) == r && Came(r, []) == []
  {
    assert (fs + [f])[..|fs|] == fs;
  }

  lemma {:induction false} Split(step: (Receiver, Frame) -> Receiver, out: (Receiver, Frame) -> seq<Message>,
                                 r: Receiver, fs: seq<Frame>, gs: seq<Frame>)
    ensures Fold(step, r, fs + gs) == Fold(step, Fold(step, r, fs), gs)
    ensures Outputs(step, out, r, fs + gs) == Outputs(step, out, r, fs) + Outputs(step, out, Fold(step, r, fs), gs)
  {
    if gs == [] {
      assert fs + gs == fs;
    } else {
      var n := |gs| - 1;
      Split(step, out, r, fs, gs[..n]);
      assert (fs + gs)[..|fs| + n] == fs + gs[..n];
    }
  }

  lemma ListenSplit(r: Receiver, fs: seq<Frame>, gs: seq<Frame>)
    ensures Listen(r, fs + gs) == Listen(Listen(r, fs), gs)
    ensures Came(r, fs + gs) == Came(r, fs) + Came(Listen(r, fs), gs)
  {
    Split(Taking(), Completing(), r, fs, gs);
  }

  /** What the table holds is of these pairs. */
  ghost predicate PairsIn(r: Receiver, pairs: set<nat>) {
    I.ReceiverOk(r) && forall i :: 0 <= i < |r.slots| && r.slots[i].Busy? ==> r.slots[i].sig in pairs
  }

  lemma AddsOwn(r: Receiver, h: Route, f: Frame, pairs: set<nat>)
    requires PairsIn(r, pairs) && r.view == None && f.len <= MAX_LEN && h.Sig() in pairs
    ensures PairsIn(AddToTable(r, h, f, Env(true, true)).receiver, pairs)
  {
    var i := GetOrAlloc(r.slots, h.Sig());
    I.AddToTableKeeps(r, h, f, Env(true, true));
    if (h.to == r.own || r.monitoring) && i < |r.slots| {
      I.SlotChosen(r.slots, h.Sig());
      I.TakenKeeps(r, h, f, Env(true, true), i);
    }
  }

  lemma FrameKeepsPairs(r: Receiver, f: Frame, pairs: set<nat>)
    requires PairsIn(r, pairs) && RouteOf(f.id).Sig() in pairs
    ensures PairsIn(Perform(r, Lent(f)).0, pairs) && I.SameSettings(r, Perform(r, Lent(f)).0)
  {
    I.PerformKeeps(r, Lent(f));
    if f.len <= MAX_LEN {
      I.ExpireKeeps(r);
      AddsOwn(Expire(r), RouteOf(f.id), f, pairs);
    }
  }

  ghost predicate Speak(fs: seq<Frame>, pairs: set<nat>) {
    forall i :: 0 <= i < |fs| ==> RouteOf(fs[i].id).Sig() in pairs
  }

  lemma {:induction false} ListenKeeps(r: Receiver, fs: seq<Frame>, pairs: set<nat>)
    requires PairsIn(r, pairs) && Speak(fs, pairs)
    ensures PairsIn(Listen(r, fs), pairs) && I.SameSettings(r, Listen(r, fs))
  {
    if fs != [] {
      var n := |fs| - 1;
      ListenKeeps(r, fs[..n], pairs);
      assert fs == fs[..n] + [fs[n]];
      ListenNext(r, fs[..n], fs[n]);
      FrameKeepsPairs(Listen(r, fs[..n]), fs[n], pairs);
    }
  }

  /** An entry for the pair, or one that is free or only lent out. */
  ghost predicate Room(r: Receiver, sig: nat) { GetOrAlloc(Expire(r).slots, sig) < |r.slots| }

  /** Pairs no more than the entries always find one. */
  lemma RoomForFew(r: Receiver, pairs: set<nat>, sig: nat)
    requires PairsIn(r, pairs) && sig in pairs && |pairs| <= |r.slots|
    ensures Room(r, sig)
  {
    var e := Expire(r);
    I.ExpireKeeps(r);
    I.SlotChosen(e.slots, sig);
    if !Room(r, sig) {
      Crowded(e.slots, |e.slots|, pairs - {sig});
    }
  }

  // ------------------------------------------------------------ the chunks of a message

  /** The receiver `q`, once `r`, holds the first `k` chunks of the message; it has just
      completed it, if these are all. */
  ghost predicate Fills(r: Receiver, q: Receiver, came: seq<Message>, m: Message, c: nat, k: nat, i: nat)
    requires ChunkLengthValid(c) && k > 0
  {
    && I.ReceiverOk(q) && I.SameSettings(r, q) && Holding(q, i, m, m.data, c, k)
    && came == if k == ChunksCount(|m.data|, c) then [m.OnWire()] else []
  }

  lemma ChunkFills(r: Receiver, q: Receiver, m: Message, c: nat, k: nat, i: nat, f: Frame)
    requires I.ReceiverOk(q) && I.SameSettings(r, q) && Deliverable(r, m) && ChunkLengthValid(c)
    requires IsChunk(f, m, c, k)
    requires if k == 0 then i == GetOrAlloc(Expire(q).slots, m.Sig()) < |q.slots| else Holding(q, i, m, m.data, c, k)
    ensures Fills(r, Perform(q, Lent(f)).0, Given(Perform(q, Lent(f)).1), m, c, k + 1, i)
  {
    CutInside(|m.data|, c, k);
    ChunkStep(q, Lent(f), i, m, m.data, c, k);
    I.PerformKeeps(q, Lent(f));
  }

  lemma FillNext(r: Receiver, fs: seq<Frame>, m: Message, c: nat, i: nat, f: Frame)
    requires I.ReceiverOk(Listen(r, fs)) && I.SameSettings(r, Listen(r, fs)) && Came(r, fs) == []
    requires Deliverable(r, m) && ChunkLengthValid(c)
    requires IsChunk(f, m, c, |fs|)
    requires var q := Listen(r, fs);
             if fs == [] then i == GetOrAlloc(Expire(q).slots, m.Sig()) < |q.slots|
             else Holding(q, i, m, m.data, c, |fs|)
    ensures Fills(r, Listen(r, fs + [f]), Came(r, fs + [f]), m, c, |fs| + 1, i)
  {
    ListenNext(r, fs, f);
    ChunkFills(r, Listen(r, fs), m, c, |fs|, i, f);
  }

  ghost predicate IsChunk(f: Frame, m: Message, c: nat, k: nat)
    requires ChunkLengthValid(c)
  {
    c * k < HEADER_SIZE + |m.data| && f == Cut(m, m.data, c, k)
  }

  /** The first chunks of the message. */
  ghost predicate Lined(fs: seq<Frame>, m: Message, c: nat)
    requires ChunkLengthValid(c)
  {
    forall j :: 0 <= j < |fs| ==> IsChunk(fs[j], m, c, j)
  }

  lemma ChunkIs(f: Frame, m: Message, c: nat, k: nat)
    requires ChunkLengthValid(c) && IsChunk(f, m, c, k)
    ensures f.len <= MAX_LEN && RouteOf(f.id).Sig() == m.Sig() && RouteOf(f.id).to == m.to % ADDRESSES
  {
    RouteOfChunk(m, c, c * k);
  }

  lemma ChunkCounts(f: Frame, m: Message, c: nat, k: nat)
    requires ChunkLengthValid(c) && IsChunk(f, m, c, k)
    ensures k < ChunksCount(|m.data|, c)
  {
    CutInside(|m.data|, c, k);
  }

  lemma RouteOfChunk(m: Message, c: nat, at: nat)
    requires ChunkLengthValid(c) && at < HEADER_SIZE + |m.data|
    ensures var f := CutAt(m, m.data, c, at);
            f.len <= MAX_LEN && RouteOf(f.id).Sig() == m.Sig() && RouteOf(f.id).to == m.to % ADDRESSES
  {
    FrameOf(m, m.data, c, at);
  }

  /** The last of them, and those before it. */
  lemma LinedLast(fs: seq<Frame>, m: Message, c: nat) returns (init: seq<Frame>, f: Frame)
    requires ChunkLengthValid(c) && Lined(fs, m, c) && fs != []
    ensures fs == init + [f] && Lined(init, m, c) && IsChunk(f, m, c, |init|)
    ensures |init| < ChunksCount(|m.data|, c)
    ensures f.len <= MAX_LEN && RouteOf(f.id).Sig() == m.Sig() && RouteOf(f.id).to == m.to % ADDRESSES
  {
    init, f := fs[..|fs| - 1], fs[|fs| - 1];
    ChunkIs(f, m, c, |init|);
    ChunkCounts(f, m, c, |init|);
  }

  lemma AllLined(m: Message, c: nat)
    requires ChunkLengthValid(c)
    ensures Lined(Chunks(m, c), m, c) && |Chunks(m, c)| > 0
  {
    CutInside(|m.data|, c, 0);
    forall j | 0 <= j < |Chunks(m, c)| ensures IsChunk(Chunks(m, c)[j], m, c, j) {
      CutInside(|m.data|, c, j);
    }
  }

  lemma {:induction false} Fill(r: Receiver, m: Message, c: nat, fs: seq<Frame>) returns (i: nat)
    requires I.ReceiverOk(r) && Deliverable(r, m) && ChunkLengthValid(c) && Lined(fs, m, c) && fs != []
    requires Room(r, m.Sig())
    ensures Fills(r, Listen(r, fs), Came(r, fs), m, c, |fs|, i)
    decreases |fs|
  {
    var init, f := LinedLast(fs, m, c);
    if init == [] {
      i := GetOrAlloc(Expire(r).slots, m.Sig());
      NothingHeard(r);
    } else {
      i := Fill(r, m, c, init);
    }
    FillNext(r, init, m, c, i, f);
  }

  lemma NothingHeard(r: Receiver)
    ensures Listen(r, []) == r && Came(r, []) == []
  {
  }

  /** The frames `fs` left no trace, and there is no room for the pair. */
  ghost predicate Shut(r: Receiver, fs: seq<Frame>, sig: nat) {
    && I.ReceiverOk(Listen(r, fs)) && I.SameSettings(r, Listen(r, fs))
    && !Room(Listen(r, fs), sig) && Came(r, fs) == []
  }

  lemma TurnedAway(r: Receiver, f: Frame)
    requires I.ReceiverOk(r) && f.len <= MAX_LEN && !Room(r, RouteOf(f.id).Sig())
    requires RouteOf(f.id).to == r.own || r.monitoring
    ensures Perform(r, Lent(f)) == (Expire(r), Reply(CantAllocateNewMsg, None))
    ensures I.ReceiverOk(Expire(r)) && !Room(Expire(r), RouteOf(f.id).Sig()) && I.SameSettings(r, Expire(r))
  {
    I.ExpireKeeps(r);
    assert Expire(Expire(r)) == Expire(r);
  }

  lemma StaysShut(r: Receiver, fs: seq<Frame>, f: Frame)
    requires Shut(r, fs, RouteOf(f.id).Sig()) && f.len <= MAX_LEN && (RouteOf(f.id).to == r.own || r.monitoring)
    ensures Shut(r, fs + [f], RouteOf(f.id).Sig())
  {
    ListenNext(r, fs, f);
    TurnedAway(Listen(r, fs), f);
  }

  /** Without room, every chunk is turned away. */
  lemma {:induction false} NoneTaken(r: Receiver, m: Message, c: nat, fs: seq<Frame>)
    requires I.ReceiverOk(r) && Deliverable(r, m) && ChunkLengthValid(c) && Lined(fs, m, c) && !Room(r, m.Sig())
    ensures Shut(r, fs, m.Sig())
    decreases |fs|
  {
    if fs == [] {
      NothingHeard(r);
    } else {
      var init, f := LinedLast(fs, m, c);
      NoneTaken(r, m, c, init);
      StaysShut(r, init, f);
    }
  }

  /** Whatever the receiver holds: the chunks of a message complete it, and nothing
      else, if and only if there is room for its pair when they begin. */
  lemma WholeMessage(r: Receiver, m: Message, c: nat)
    requires I.ReceiverOk(r) && Deliverable(r, m) && ChunkLengthValid(c)
    ensures Came(r, Chunks(m, c)) == if Room(r, m.Sig()) then [m.OnWire()] else []
  {
    AllLined(m, c);
    if Room(r, m.Sig()) {
      var i := Fill(r, m, c, Chunks(m, c));
    } else {
      NoneTaken(r, m, c, Chunks(m, c));
    }
  }

  // ------------------------------------------------------------------- dropped chunks

  /** The frames that were not dropped. */
  function Keep(fs: seq<Frame>, fates: seq<bool>): seq<Frame>
    requires |fates| == |fs|
  {
    if fs == [] then []
    else Keep(fs[..|fs| - 1], fates[..|fs| - 1]) + (if fates[|fs| - 1] then [fs[|fs| - 1]] else [])
  }

  function Kept(fates: seq<bool>): nat {
    if fates == [] then 0 else Kept(fates[..|fates| - 1]) + (if fates[|fates| - 1] then 1 else 0)
  }

  lemma KeepNext(fs: seq<Frame>, fates: seq<bool>, f: Frame, kept: bool)
    requires |fates| == |fs|
    ensures Keep(fs + [f], fates + [kept]) == Keep(fs, fates) + (if kept then [f] else [])
  {
    assert (fs + [f])[..|fs|] == fs && (fates + [kept])[..|fs|] == fates;
  }

  lemma {:induction false} KeepSplit(fs: seq<Frame>, fates: seq<bool>, gs: seq<Frame>, more: seq<bool>)
    requires |fates| == |fs| && |more| == |gs|
    ensures Keep(fs + gs, fates + more) == Keep(fs, fates) + Keep(gs, more)
  {
    if gs == [] {
      assert fs + gs == fs && fates + more == fates;
    } else {
      var n := |gs| - 1;
      KeepSplit(fs, fates, gs[..n], more[..n]);
      assert fs + gs == (fs + gs[..n]) + [gs[n]] && fates + more == (fates + more[..n]) + [more[n]];
      KeepNext(fs + gs[..n], fates + more[..n], gs[n], more[n]);
    }
  }

  lemma {:induction false} KeepCounts(fs: seq<Frame>, fates: seq<bool>, pairs: set<nat>)
    requires |fates| == |fs|
    ensures |Keep(fs, fates)| == Kept(fates) <= |fs|
    ensures Kept(fates) == |fs| ==> Keep(fs, fates) == fs
    ensures Speak(fs, pairs) ==> Speak(Keep(fs, fates), pairs)
  {
    if fs != [] {
      KeepCounts(fs[..|fs| - 1], fates[..|fs| - 1], pairs);
    }
  }

  /** The message, if all its chunks came through and the receiver can take it. */
  ghost function FirstIntact(r: Receiver, m: Message, c: nat, kept: nat): seq<Message> {
    if kept == ChunksCount(|m.data|, c) && Deliverable(r, m) then [m.OnWire()] else []
  }

  /** Message `n` went out and what came through of it is heard. */
  ghost predicate HasAll(ms: seq<Message>, c: nat, n: nat, fates: seq<bool>, heard: nat)
    requires ChunkLengthValid(c) && n <= |ms|
  {
    n < |ms| && ChunksCount(|ms[n].data|, c) <= |fates| && Kept(fates[..ChunksCount(|ms[n].data|, c)]) <= heard
  }

  /** Of the messages from number `n` on, those a receiver with these settings can take
      and all of whose chunks are among the `heard` frames that came through. */
  ghost function Intact(r: Receiver, ms: seq<Message>, c: nat, n: nat, fates: seq<bool>, heard: nat): seq<Message>
    requires ChunkLengthValid(c) && n <= |ms|
    decreases |ms| - n
  {
    if !HasAll(ms, c, n, fates, heard) then []
    else
      var size := ChunksCount(|ms[n].data|, c);
      var kept := Kept(fates[..size]);
      FirstIntact(r, ms[n], c, kept) + Intact(r, ms, c, n + 1, fates[size..], heard - kept)
  }

  lemma IntactIs(r: Receiver, ms: seq<Message>, c: nat, n: nat, fates: seq<bool>, heard: nat)
    requires ChunkLengthValid(c) && n <= |ms|
    ensures !HasAll(ms, c, n, fates, heard) ==> Intact(r, ms, c, n, fates, heard) == []
    ensures HasAll(ms, c, n, fates, heard) ==>
              var size := ChunksCount(|ms[n].data|, c);
              var kept := Kept(fates[..size]);
              Intact(r, ms, c, n, fates, heard)
              == FirstIntact(r, ms[n], c, kept) + Intact(r, ms, c, n + 1, fates[size..], heard - kept)
  {
  }

  lemma NoneWithin(t: seq<Message>)
    ensures Subsequence([], t)
  {
  }

  lemma {:induction false} SubsequenceAdds(s: seq<Message>, t: seq<Message>, u: seq<Message>, v: seq<Message>)
    requires Subsequence(s, t) && Subsequence(u, v)
    ensures Subsequence(s + u, t + v)
    decreases |v|
  {
    if v == [] {
      assert s + u == s && t + v == t;
    } else if u == [] {
      assert Subsequence([], v[..|v| - 1]) && s + u == s;
      SubsequenceAdds(s, t, u, v[..|v| - 1]);
      assert (t + v)[..|t + v| - 1] == t + v[..|v| - 1];
    } else {
      var n := |v| - 1;
      assert (t + v)[..|t + v| - 1] == t + v[..n];
      if Subsequence(u, v[..n]) {
        SubsequenceAdds(s, t, u, v[..n]);
      } else {
        SubsequenceAdds(s, t, u[..|u| - 1], v[..n]);
        assert (s + u)[..|s + u| - 1] == s + u[..|u| - 1];
      }
    }
  }

  lemma {:induction false} RestSpeaks(ms: seq<Message>, c: nat, n: nat, pairs: set<nat>)
    requires ChunkLengthValid(c) && n <= |ms| && forall i :: 0 <= i < |ms| ==> ms[i].Sig() in pairs
    ensures Speak(Rest(ms, c, n, 0), pairs)
    decreases |ms| - n
  {
    if n < |ms| {
      RestSpeaks(ms, c, n + 1, pairs);
      AllLined(ms[n], c);
      forall k | 0 <= k < |Chunks(ms[n], c)| ensures RouteOf(Chunks(ms[n], c)[k].id).Sig() in pairs {
        ChunkIs(Chunks(ms[n], c)[k], ms[n], c, k);
      }
    }
  }

  /** What is heard of message `n`, and of the others. */
  lemma FirstHeard(ms: seq<Message>, c: nat, n: nat, fates: seq<bool>, heard: seq<Frame>, pairs: set<nat>)
      returns (seg: seq<Frame>)
    requires ChunkLengthValid(c) && n <= |ms| && HasAll(ms, c, n, fates, |heard|) && |fates| <= |Rest(ms, c, n, 0)|
    requires heard <= Keep(Rest(ms, c, n, 0)[..|fates|], fates) && Speak(Rest(ms, c, n, 0), pairs)
    ensures var size := ChunksCount(|ms[n].data|, c);
            && |seg| == Kept(fates[..size]) <= size && heard == seg + heard[|seg|..] && Speak(seg, pairs)
            && (|seg| == size ==> seg == Chunks(ms[n], c))
            && |fates[size..]| <= |Rest(ms, c, n + 1, 0)|
            && heard[|seg|..] <= Keep(Rest(ms, c, n + 1, 0)[..|fates[size..]|], fates[size..])
  {
    var fs, rest := Chunks(ms[n], c), Rest(ms, c, n + 1, 0);
    var more := fates[|fs|..];
    seg := Keep(fs, fates[..|fs|]);
    assert Rest(ms, c, n, 0) == fs + rest;
    assert Rest(ms, c, n, 0)[..|fates|] == fs + rest[..|more|] && fates == fates[..|fs|] + more;
    KeepSplit(fs, fates[..|fs|], rest[..|more|], more);
    assert forall k :: 0 <= k < |fs| ==> fs[k] == Rest(ms, c, n, 0)[k];
    KeepCounts(fs, fates[..|fs|], pairs);
  }

  lemma FirstComes(own: Receiver, r: Receiver, m: Message, c: nat, seg: seq<Frame>, pairs: set<nat>)
    requires PairsIn(r, pairs) && |pairs| <= |r.slots| && I.SameSettings(own, r) && m.Sig() in pairs
    requires ChunkLengthValid(c) && (|seg| == ChunksCount(|m.data|, c) ==> seg == Chunks(m, c))
    ensures Subsequence(FirstIntact(own, m, c, |seg|), Came(r, seg))
  {
    if FirstIntact(own, m, c, |seg|) != [] {
      RoomForFew(r, pairs, m.Sig());
      WholeMessage(r, m, c);
    }
  }

  /** The messages heard after these. */
  lemma {:induction false} OthersCome(own: Receiver, r: Receiver, ms: seq<Message>, c: nat, n: nat, fates: seq<bool>,
                                      heard: seq<Frame>, pairs: set<nat>, seg: seq<Frame>, rest: seq<Frame>)
    requires PairsIn(r, pairs) && |pairs| <= |r.slots| && I.SameSettings(own, r)
    requires ChunkLengthValid(c) && n < |ms| && forall i :: 0 <= i < |ms| ==> ms[i].Sig() in pairs
    requires |fates| <= |Rest(ms, c, n + 1, 0)| && rest <= Keep(Rest(ms, c, n + 1, 0)[..|fates|], fates)
    requires Speak(seg, pairs) && (|seg| == ChunksCount(|ms[n].data|, c) ==> seg == Chunks(ms[n], c))
    requires heard == seg + rest
    ensures Subsequence(FirstIntact(own, ms[n], c, |seg|) + Intact(own, ms, c, n + 1, fates, |rest|), Came(r, heard))
    decreases |ms| - n, 0
  {
    FirstComes(own, r, ms[n], c, seg, pairs);
    ListenKeeps(r, seg, pairs);
    ListenSplit(r, seg, rest);
    IntactCome(own, Listen(r, seg), ms, c, n + 1, fates, rest, pairs);
    SubsequenceAdds(FirstIntact(own, ms[n], c, |seg|), Came(r, seg), Intact(own, ms, c, n + 1, fates, |rest|),
                    Came(Listen(r, seg), rest));
  }

  /** The intact messages come out, in order, from any receiver whose table is of
      these pairs. */
  lemma {:induction false} IntactCome(own: Receiver, r: Receiver, ms: seq<Message>, c: nat, n: nat,
                                      fates: seq<bool>, heard: seq<Frame>, pairs: set<nat>)
    requires PairsIn(r, pairs) && |pairs| <= |r.slots| && I.SameSettings(own, r)
    requires ChunkLengthValid(c) && n <= |ms| && forall i :: 0 <= i < |ms| ==> ms[i].Sig() in pairs
    requires |fates| <= |Rest(ms, c, n, 0)| && heard <= Keep(Rest(ms, c, n, 0)[..|fates|], fates)
    ensures Subsequence(Intact(own, ms, c, n, fates, |heard|), Came(r, heard))
    decreases |ms| - n, 1
  {
    IntactIs(own, ms, c, n, fates, |heard|);
    if HasAll(ms, c, n, fates, |heard|) {
      RestSpeaks(ms, c, n, pairs);
      var seg := FirstHeard(ms, c, n, fates, heard, pairs);
      OthersCome(own, r, ms, c, n, fates[ChunksCount(|ms[n].data|, c)..], heard, pairs, seg, heard[|seg|..]);
    } else {
      NoneWithin(Came(r, heard));
    }
  }

  // ---------------------------------------------------------------------- whole runs

  /** What became of the chunks that left the outbox at `a`. */
  ghost function Fates(s: Net, steps: seq<Step>): seq<bool> {
    if steps == [] then []
    else Fates(s, steps[..|steps| - 1]) + FateAt(Run(s, steps[..|steps| - 1]), steps[|steps| - 1])
  }

  ghost function FateAt(s: Net, st: Step): seq<bool> {
    if !st.atA || !st.op.TxOp? || s.a.q.outbox == [] then []
    else match st.op.hw
      case HwOk => [true]
      case HwNonRecoverable => [false]
      case _ => []
  }

  /** The frames `b` has taken from the network. */
  ghost function Heard(s: Net, steps: seq<Step>): seq<Frame> {
    if steps == [] then []
    else Heard(s, steps[..|steps| - 1]) + HeardAt(Run(s, steps[..|steps| - 1]), steps[|steps| - 1])
  }

  ghost function HeardAt(s: Net, st: Step): seq<Frame> {
    if st == Step(false, RxOp) && s.ab != [] then [s.ab[0]] else []
  }

  /** The chunks of all messages went out, were dropped or wait, in order; those that
      came through were heard or are on the wire. */
  ghost predicate Carried(s: Net, c: nat, fates: seq<bool>, heard: seq<Frame>)
    requires ChunkLengthValid(c)
  {
    var all := Rest(s.a.sent, c, 0, 0);
    && s.a.q.chunkLength == c
    && |fates| <= |all| && s.a.q.outbox == all[|fates|..]
    && heard + s.ab == Keep(all[..|fates|], fates)
  }

  /** The receiver at `b` has heard just these frames. */
  ghost predicate ListenedTo(r: Receiver, n: Node, heard: seq<Frame>) {
    && n.q.receiver == Listen(r, heard) && n.completed == Came(r, heard)
    && (n.refused == 0 ==> n.given + n.q.inbox == n.completed)
  }

  /** One more chunk leaves the outbox. */
  lemma OneMoreOut(all: seq<Frame>, fates: seq<bool>, heard: seq<Frame>, ab: seq<Frame>, kept: bool)
    requires |fates| < |all| && heard + ab == Keep(all[..|fates|], fates)
    ensures all[|fates|..][1..] == all[|fates| + 1..]
    ensures heard + (ab + if kept then [all[|fates|]] else []) == Keep(all[..|fates| + 1], fates + [kept])
  {
    var f := all[|fates|];
    assert all[..|fates| + 1] == all[..|fates|] + [f];
    KeepNext(all[..|fates|], fates, f, kept);
    assert heard + (ab + [f]) == (heard + ab) + [f] && ab + [] == ab;
  }

  lemma TxCarries(s: Net, c: nat, hw: Hw, fates: seq<bool>, heard: seq<Frame>)
    requires ChunkLengthValid(c) && Carried(s, c, fates, heard)
    ensures Carried(Next(s, Step(true, TxOp(hw))), c, fates + FateAt(s, Step(true, TxOp(hw))), heard)
  {
    var n := TxMoves(s, hw);
    assert fates + [] == fates;
    if s.a.q.outbox != [] {
      OneMoreOut(Rest(s.a.sent, c, 0, 0), fates, heard, s.ab, hw == HwOk);
    }
  }

  lemma TxMoves(s: Net, hw: Hw) returns (n: Net)
    ensures n == Next(s, Step(true, TxOp(hw)))
    ensures n.a.sent == s.a.sent && n.a.q.chunkLength == s.a.q.chunkLength
    ensures var gone := FateAt(s, Step(true, TxOp(hw)));
            && (gone != [] ==> s.a.q.outbox != [])
            && n.a.q.outbox == (if gone == [] then s.a.q.outbox else s.a.q.outbox[1..])
            && (gone != [] ==> gone == [hw == HwOk])
            && n.ab == (if gone == [true] then s.ab + [s.a.q.outbox[0]] else s.ab)
  {
    n := Next(s, Step(true, TxOp(hw)));
    assert s.ab + [] == s.ab;
  }

  lemma SendCarries(s: Net, c: nat, m: Message, fates: seq<bool>, heard: seq<Frame>)
    requires ChunkLengthValid(c) && Carried(s, c, fates, heard)
    ensures Carried(Next(s, Step(true, SendOp(m))), c, fates, heard)
  {
    var all := Rest(s.a.sent, c, 0, 0);
    RestGrows(s.a.sent, m, c, 0, 0);
    assert (all + Chunks(m, c))[|fates|..] == all[|fates|..] + Chunks(m, c);
    assert (all + Chunks(m, c))[..|fates|] == all[..|fates|];
  }

  lemma MovesOne<T>(s: seq<T>, t: seq<T>)
    requires t != []
    ensures s + [t[0]] + t[1..] == s + t
  {
  }

  lemma RxCarries(s: Net, c: nat, fates: seq<bool>, heard: seq<Frame>)
    requires ChunkLengthValid(c) && Carried(s, c, fates, heard) && s.ab != []
    ensures Carried(Next(s, Step(false, RxOp)), c, fates, heard + [s.ab[0]])
  {
    MovesOne(heard, s.ab);
  }

  lemma RxListens(r: Receiver, n: Node, f: Frame, heard: seq<Frame>)
    requires ListenedTo(r, n, heard)
    ensures ListenedTo(r, ActRx(n, f), heard + [f])
  {
    ListenNext(r, heard, f);
    ViewAlwaysSaves(n.q.receiver, f);
    var reply := AddChunkView(n.q.receiver, f, Env(true, true)).1;
    if reply.message.Some? {
      assert n.given + (n.q.inbox + [reply.message.value]) == n.given + n.q.inbox + [reply.message.value];
    } else {
      assert n.completed + [] == n.completed;
    }
  }

  lemma NewListens(r: Receiver, n: Node, heard: seq<Frame>)
    requires ListenedTo(r, n, heard)
    ensures ListenedTo(r, ActNew(n), heard)
  {
    if n.q.inbox != [] { MovesOne(n.given, n.q.inbox); }
    assert n.given + [] == n.given;
  }

  ghost predicate Tracked(r: Receiver, c: nat, s: Net, fates: seq<bool>, heard: seq<Frame>)
    requires ChunkLengthValid(c)
  {
    Carried(s, c, fates, heard) && ListenedTo(r, s.b, heard)
  }

  lemma CallsAtA(s: Net, c: nat, op: Op, fates: seq<bool>, heard: seq<Frame>)
    requires ChunkLengthValid(c) && Carried(s, c, fates, heard)
    ensures Carried(Next(s, Step(true, op)), c, fates + FateAt(s, Step(true, op)), heard)
    ensures Next(s, Step(true, op)).b == s.b
  {
    assert fates + [] == fates;
    match op {
      case SendOp(m) => SendCarries(s, c, m, fates, heard);
      case TxOp(hw) => TxCarries(s, c, hw, fates, heard);
      case _ =>
    }
  }

  lemma HearTracked(r: Receiver, c: nat, s: Net, fates: seq<bool>, heard: seq<Frame>)
    requires ChunkLengthValid(c) && Tracked(r, c, s, fates, heard) && s.ab != []
    ensures Tracked(r, c, Next(s, Step(false, RxOp)), fates, heard + [s.ab[0]])
  {
    RxCarries(s, c, fates, heard);
    RxListens(r, s.b, s.ab[0], heard);
  }

  lemma SameListens(s: Net, op: Op)
    requires op.SendOp? || op.TxOp? || (op.RxOp? && s.ab == [])
    ensures var n := Next(s, Step(false, op));
            && n.a == s.a && n.ab == s.ab && n.b == s.b.(q := n.b.q, sent := n.b.sent)
            && n.b.q.receiver == s.b.q.receiver && n.b.q.inbox == s.b.q.inbox
  {
  }

  lemma CallsAtB(r: Receiver, c: nat, s: Net, op: Op, fates: seq<bool>, heard: seq<Frame>)
    requires ChunkLengthValid(c) && Tracked(r, c, s, fates, heard)
    ensures Tracked(r, c, Next(s, Step(false, op)), fates, heard + HeardAt(s, Step(false, op)))
  {
    assert heard + [] == heard;
    if op.RxOp? && s.ab != [] {
      HearTracked(r, c, s, fates, heard);
    } else if op.NewOp? {
      NewListens(r, s.b, heard);
    } else {
      SameListens(s, op);
    }
  }

  lemma StepTracked(r: Receiver, c: nat, s: Net, st: Step, fates: seq<bool>, heard: seq<Frame>)
    requires ChunkLengthValid(c) && Tracked(r, c, s, fates, heard)
    ensures Tracked(r, c, Next(s, st), fates + FateAt(s, st), heard + HeardAt(s, st))
  {
    assert fates + [] == fates && heard + [] == heard;
    if st.atA {
      CallsAtA(s, c, st.op, fates, heard);
    } else {
      CallsAtB(r, c, s, st.op, fates, heard);
    }
  }

  ghost predicate KeptBySteps(inv: (Net, seq<bool>, seq<Frame>) -> bool) {
    forall s: Net, st: Step, fates: seq<bool>, heard: seq<Frame> ::
      inv(s, fates, heard) ==> inv(Next(s, st), fates + FateAt(s, st), heard + HeardAt(s, st))
  }

  /** What every step keeps holds throughout. */
  lemma {:induction false} HoldsAlways(s: Net, steps: seq<Step>, inv: (Net, seq<bool>, seq<Frame>) -> bool)
    requires inv(s, [], []) && KeptBySteps(inv)
    ensures inv(Run(s, steps), Fates(s, steps), Heard(s, steps))
  {
    if steps != [] {
      HoldsAlways(s, steps[..|steps| - 1], inv);
    }
  }

  lemma RunTracked(s: Net, steps: seq<Step>)
    requires Initial(s.a) && Initial(s.b) && s.ab == []
    ensures Tracked(s.b.q.receiver, s.a.q.chunkLength, Run(s, steps), Fates(s, steps), Heard(s, steps))
  {
    var r, c := s.b.q.receiver, s.a.q.chunkLength;
    var inv := (n: Net, fates: seq<bool>, heard: seq<Frame>) => Tracked(r, c, n, fates, heard);
    forall n: Net, st: Step, fates: seq<bool>, heard: seq<Frame> | inv(n, fates, heard)
      ensures inv(Next(n, st), fates + FateAt(n, st), heard + HeardAt(n, st))
    {
      StepTracked(r, c, n, st, fates, heard);
    }
    HoldsAlways(s, steps, inv);
  }

  /** For every schedule of calls at both nodes, whichever chunks the network drops: if
      the messages sent are of no more pairs than `b` has entries, then every message
      `b` can take and all of whose chunks it heard was completed, in order; and what
      was completed is what the application got or will get, if none found the inbox
      full. */
  lemma IntactArrive(s: Net, steps: seq<Step>, pairs: set<nat>)
    requires Initial(s.a) && Initial(s.b) && s.ab == [] && |pairs| <= |s.b.q.receiver.slots|
    requires forall m :: m in Run(s, steps).a.sent ==> m.Sig() in pairs
    ensures var t := Run(s, steps);
            && Subsequence(Intact(s.b.q.receiver, t.a.sent, s.a.q.chunkLength, 0, Fates(s, steps), |Heard(s, steps)|),
                           t.b.completed)
            && (t.b.refused == 0 ==> t.b.given + t.b.q.inbox == t.b.completed)
  {
    RunTracked(s, steps);
    var t, r, heard := Run(s, steps), s.b.q.receiver, Heard(s, steps);
    IntactCome(r, r, t.a.sent, s.a.q.chunkLength, 0, Fates(s, steps), heard, pairs);
  }

  /** The same for the other direction, at the same time. */
  lemma IntactArriveBack(s: Net, steps: seq<Step>, pairs: set<nat>)
    requires Initial(s.a) && Initial(s.b) && s.ba == [] && |pairs| <= |s.a.q.receiver.slots|
    requires forall m :: m in Run(s, steps).b.sent ==> m.Sig() in pairs
    ensures var t := Run(s, steps);
            var fates, heard := Fates(Swap(s), Mirrored(steps)), Heard(Swap(s), Mirrored(steps));
            && Subsequence(Intact(s.a.q.receiver, t.b.sent, s.b.q.chunkLength, 0, fates, |heard|), t.a.completed)
            && (t.a.refused == 0 ==> t.a.given + t.a.q.inbox == t.a.completed)
  {
    MirrorRun(s, steps);
    IntactArrive(Swap(s), Mirrored(steps), pairs);
  }
}
