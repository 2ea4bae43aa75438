/** What every call of ProtoPlexer's receiver keeps, and where a delivered message
    comes from. */
module PlexInvariants {
  import opened Can
  import opened PlexCore
  import Crc16

  // --------------------------------------------------------------- the invariant

  /** A reassembly belongs to valid addresses this receiver listens to, has an
      identifier, and holds no more than announced and allowed. */
  ghost predicate SlotOk(r: Receiver, s: Slot) {
    s.Busy? ==>
      && s.id != ERROR_ID && AddressValid(s.from) && AddressValid(s.to) && s.priority < PRIORITIES
      && s.sig == Signature(s.from, s.to) && (s.to == r.own || r.monitoring)
      && |s.payload| <= s.expected < 0x1_0000 && Fits(r, s.expected)
  }

  ghost predicate DistinctPairs(slots: seq<Slot>) {
    forall i, j :: 0 <= i < j < |slots| && slots[i].Busy? && slots[j].Busy? ==> slots[i].sig != slots[j].sig
  }

  /** What is lent out is a complete message with the right CRC. */
  ghost predicate ViewOk(r: Receiver) {
    r.view.Some? ==>
      && r.view.value < |r.slots| && r.slots[r.view.value].Busy?
      && |r.slots[r.view.value].payload| == r.slots[r.view.value].expected
      && Crc16.Crc(r.slots[r.view.value].payload) == r.slots[r.view.value].crc
  }

  ghost predicate ReceiverOk(r: Receiver) {
    && (forall i :: 0 <= i < |r.slots| ==> SlotOk(r, r.slots[i]))
    && DistinctPairs(r.slots) && ViewOk(r)
  }

  ghost predicate SameSettings(r: Receiver, r': Receiver) {
    && r'.own == r.own && r'.monitoring == r.monitoring && r'.maxPayload == r.maxPayload
    && r'.fixed == r.fixed && |r'.slots| == |r.slots|
  }

  lemma FindIs(slots: seq<Slot>, sig: nat, i: nat)
    requires DistinctPairs(slots) && i < |slots| && Holds(slots[i], sig)
    ensures Find(slots, sig) == i
  {
    var j := Find(slots, sig);
    assert Holds(slots[j], sig);
  }

  /** The slot a chunk goes to is its pair's own, or a free one when its pair has
      none. */
  lemma SlotChosen(slots: seq<Slot>, sig: nat)
    requires DistinctPairs(slots)
    ensures var i := GetOrAlloc(slots, sig);
            && (i < |slots| ==> slots[i].Free? || slots[i].sig == sig)
            && (i < |slots| && slots[i].Free? ==> forall j :: 0 <= j < |slots| ==> !Holds(slots[j], sig))
            && (i == |slots| ==> forall j :: 0 <= j < |slots| ==> !Holds(slots[j], sig) && slots[j].Busy?)
  {
    var f := Find(slots, sig);
    if f < |slots| {
      assert Holds(slots[f], sig);
    } else {
      forall j | 0 <= j < |slots| ensures !Holds(slots[j], sig) {
      }
    }
  }

  lemma ExpireKeeps(r: Receiver)
    requires ReceiverOk(r)
    ensures ReceiverOk(Expire(r)) && SameSettings(r, Expire(r)) && Expire(r).view == None
    ensures forall i :: 0 <= i < |r.slots| ==> Expire(r).slots[i] == if r.view == Some(i) then Free else r.slots[i]
  {
  }

  lemma TakeFirstKeeps(r: Receiver, h: Route, f: Frame, env: Env)
    requires f.len <= MAX_LEN && (h.to == r.own || r.monitoring)
    ensures var t := TakeFirst(r, h, f, env);
            && SlotOk(r, t.slot) && (t.slot.Busy? ==> t.slot.sig == h.Sig())
            && (t.complete ==> t.slot.Busy? && |t.slot.payload| == t.slot.expected
                               && Crc16.Crc(t.slot.payload) == t.slot.crc)
  {
  }

  lemma TakeNextKeeps(r: Receiver, s: Slot, f: Frame)
    requires f.len <= MAX_LEN && SlotOk(r, s)
    ensures var t := TakeNext(s, f);
            && SlotOk(r, t.slot) && (t.slot.Busy? ==> s.Busy? && t.slot.sig == s.sig)
            && (t.complete ==> t.slot.Busy? && |t.slot.payload| == t.slot.expected
                               && Crc16.Crc(t.slot.payload) == t.slot.crc)
  {
  }

  /** Replacing the entry of one pair keeps the table in order. */
  lemma ReplaceKeeps(r: Receiver, i: nat, s: Slot, sig: nat)
    requires ReceiverOk(r) && r.view == None && i < |r.slots| && SlotOk(r, s)
    requires s.Busy? ==> s.sig == sig
    requires forall j :: 0 <= j < |r.slots| && j != i ==> !Holds(r.slots[j], sig)
    ensures ReceiverOk(r.(slots := r.slots[i := s]))
  {
  }

  lemma TakenKeeps(r: Receiver, h: Route, f: Frame, env: Env, i: nat)
    requires f.len <= MAX_LEN && (h.to == r.own || r.monitoring) && i < |r.slots| && SlotOk(r, r.slots[i])
    requires r.slots[i].Busy? ==> r.slots[i].sig == h.Sig()
    ensures var t := if h.first then TakeFirst(r, h, f, env) else TakeNext(r.slots[i], f);
            && SlotOk(r, t.slot) && (t.slot.Busy? ==> t.slot.sig == h.Sig())
            && (t.complete ==> t.slot.Busy? && |t.slot.payload| == t.slot.expected
                               && Crc16.Crc(t.slot.payload) == t.slot.crc
                               && t.result == Ok)
  {
    if h.first {
      TakeFirstKeeps(r, h, f, env);
    } else {
      TakeNextKeeps(r, r.slots[i], f);
    }
  }

  lemma AddToTableKeeps(r: Receiver, h: Route, f: Frame, env: Env)
    requires ReceiverOk(r) && r.view == None && f.len <= MAX_LEN
    ensures var a := AddToTable(r, h, f, env);
            && ReceiverOk(a.receiver) && SameSettings(r, a.receiver) && a.receiver.view == None
            && (a.done.Some? ==> a.result == Ok && ViewOk(a.receiver.(view := a.done)))
            && (forall j :: 0 <= j < |r.slots| && r.slots[j].Busy? && r.slots[j].sig != h.Sig()
                  ==> a.receiver.slots[j] == r.slots[j])
  {
    var sig := h.Sig();
    var i := GetOrAlloc(r.slots, sig);
    if (h.to == r.own || r.monitoring) && i < |r.slots| {
      SlotChosen(r.slots, sig);
      assert forall j :: 0 <= j < |r.slots| && j != i ==> !Holds(r.slots[j], sig);
      TakenKeeps(r, h, f, env, i);
      var t := if h.first then TakeFirst(r, h, f, env) else TakeNext(r.slots[i], f);
      ReplaceKeeps(r, i, t.slot, sig);
    }
  }

  /** Every call keeps the invariant, and a chunk of one pair leaves the entries of
      all other pairs alone, apart from a view that expires. */
  lemma PerformKeeps(r: Receiver, c: Call)
    requires ReceiverOk(r)
    ensures var r' := Perform(r, c).0;
            && ReceiverOk(r') && SameSettings(r, r')
            && (forall j :: 0 <= j < |r.slots| && r.view != Some(j) && r.slots[j].Busy?
                      && (r.slots[j].sig != RouteOf(c.frame.id).Sig() || c.frame.len > MAX_LEN)
                  ==> r'.slots[j] == r.slots[j] && r'.view != Some(j))
  {
    if c.frame.len <= MAX_LEN {
      ExpireKeeps(r);
      AddToTableKeeps(Expire(r), RouteOf(c.frame.id), c.frame, c.env);
      var a := AddToTable(Expire(r), RouteOf(c.frame.id), c.frame, c.env);
      DoneIsOwn(Expire(r), RouteOf(c.frame.id), c.frame, c.env);
      if a.done.Some? && !c.lend {
        FreeKeeps(a.receiver, a.done.value);
      }
    }
  }

  lemma DoneIsOwn(r: Receiver, h: Route, f: Frame, env: Env)
    requires ReceiverOk(r) && r.view == None && f.len <= MAX_LEN
    ensures var a := AddToTable(r, h, f, env);
            a.done.Some? ==> a.receiver.slots[a.done.value].sig == h.Sig()
  {
    SlotChosen(r.slots, h.Sig());
  }

  lemma FreeKeeps(r: Receiver, i: nat)
    requires ReceiverOk(r) && r.view == None && i < |r.slots|
    ensures ReceiverOk(r.(slots := r.slots[i := Free]))
  {
  }

  // -------------------------------------------------------------------------- runs

  /** A receiver after initialisation. */
  function Empty(own: nat, monitoring: bool, maxPayload: nat, fixed: bool, channels: nat): Receiver {
    Receiver(own % ADDRESSES, monitoring, maxPayload, fixed, seq(channels, _ => Free), None)
  }

  function Run(r: Receiver, calls: seq<Call>): Receiver {
    if calls == [] then r else Perform(Run(r, calls[..|calls| - 1]), calls[|calls| - 1]).0
  }

  lemma {:induction false} RunKeeps(r: Receiver, calls: seq<Call>)
    requires ReceiverOk(r)
    ensures ReceiverOk(Run(r, calls)) && SameSettings(r, Run(r, calls))
  {
    if calls != [] {
      var n := |calls| - 1;
      RunKeeps(r, calls[..n]);
      PerformKeeps(Run(r, calls[..n]), calls[n]);
    }
  }

  lemma ReachableOk(own: nat, monitoring: bool, maxPayload: nat, fixed: bool, channels: nat, calls: seq<Call>)
    ensures ReceiverOk(Run(Empty(own, monitoring, maxPayload, fixed, channels), calls))
  {
    RunKeeps(Empty(own, monitoring, maxPayload, fixed, channels), calls);
  }

  // ----------------------------------------------------------- where messages come from

  /** The chunks of one pair, as far as they follow a first chunk. */
  datatype Gathered = Gathered(first: Frame, data: seq<byte>)

  predicate Concerns(c: Call, sig: nat) { c.frame.len <= MAX_LEN && RouteOf(c.frame.id).Sig() == sig }

  /** The last first chunk of the pair in the history, and all bytes of the pair's
      chunks from then on: a definition that knows nothing of slots. */
  function History(calls: seq<Call>, sig: nat): (g: Option<Gathered>)
    ensures g.Some? ==> HEADER_SIZE <= g.value.first.len <= MAX_LEN
  {
    if calls == [] then None
    else
      var n := |calls| - 1;
      var f := calls[n].frame;
      if !Concerns(calls[n], sig) then History(calls[..n], sig)
      else if !RouteOf(f.id).first then Extended(History(calls[..n], sig), f)
      else if f.len < HEADER_SIZE then None
      else Some(Gathered(f, f.data[HEADER_SIZE..f.len]))
  }

  function Extended(g: Option<Gathered>, f: Frame): (h: Option<Gathered>)
    requires f.len <= MAX_LEN
  {
    if g.None? then None else Some(Gathered(g.value.first, g.value.data + f.Body()))
  }

  ghost predicate Records(s: Slot, g: Option<Gathered>) {
    g.Some? && var a := Announced(g.value.first.data, RouteOf(g.value.first.id)); s == a.(payload := g.value.data)
  }

  /** Every reassembly is what its pair's history says. */
  ghost predicate Traced(r: Receiver, calls: seq<Call>) {
    forall i :: 0 <= i < |r.slots| && r.slots[i].Busy? ==> Records(r.slots[i], History(calls, r.slots[i].sig))
  }

  lemma HistoryStep(calls: seq<Call>, c: Call, sig: nat)
    ensures History(calls + [c], sig) ==
      if !Concerns(c, sig) then History(calls, sig)
      else if !RouteOf(c.frame.id).first then Extended(History(calls, sig), c.frame)
      else if c.frame.len < HEADER_SIZE then None
      else Some(Gathered(c.frame, c.frame.data[HEADER_SIZE..c.frame.len]))
  {
    assert (calls + [c])[..|calls|] == calls;
  }

  lemma TableTraced(r: Receiver, calls: seq<Call>, c: Call)
    requires ReceiverOk(r) && r.view == None && c.frame.len <= MAX_LEN && Traced(r, calls)
    ensures Traced(AddToTable(r, RouteOf(c.frame.id), c.frame, c.env).receiver, calls + [c])
  {
    var f := c.frame;
    var h := RouteOf(f.id);
    var sig := h.Sig();
    var a := AddToTable(r, h, f, c.env);
    AddToTableKeeps(r, h, f, c.env);
    SlotChosen(r.slots, sig);
    forall i | 0 <= i < |a.receiver.slots| && a.receiver.slots[i].Busy?
      ensures Records(a.receiver.slots[i], History(calls + [c], a.receiver.slots[i].sig))
    {
      HistoryStep(calls, c, a.receiver.slots[i].sig);
      if a.receiver.slots[i].sig != sig {
        OthersStay(r, h, f, c.env, i);
      } else {
        OwnEntry(r, h, f, c.env, i);
      }
    }
  }

  lemma OthersStay(r: Receiver, h: Route, f: Frame, env: Env, i: nat)
    requires ReceiverOk(r) && r.view == None && f.len <= MAX_LEN && i < |r.slots|
    requires AddToTable(r, h, f, env).receiver.slots[i].Busy?
    requires AddToTable(r, h, f, env).receiver.slots[i].sig != h.Sig()
    ensures AddToTable(r, h, f, env).receiver.slots[i] == r.slots[i]
  {
    SlotChosen(r.slots, h.Sig());
  }

  /** The entry of the chunk's own pair after the call. */
  lemma OwnEntry(r: Receiver, h: Route, f: Frame, env: Env, i: nat)
    requires ReceiverOk(r) && r.view == None && f.len <= MAX_LEN && i < |r.slots|
    requires var s := AddToTable(r, h, f, env).receiver.slots[i]; s.Busy? && s.sig == h.Sig()
    ensures var s := AddToTable(r, h, f, env).receiver.slots[i];
            if h.first then HEADER_SIZE <= f.len && s == Announced(f.data, h).(payload := f.data[HEADER_SIZE..f.len])
            else
              && r.slots[i].Busy? && r.slots[i].sig == s.sig
              && s == r.slots[i].(payload := r.slots[i].payload + f.Body())
  {
    var sig := h.Sig();
    SlotChosen(r.slots, sig);
    if h.to != r.own && !r.monitoring {
      assert SlotOk(r, r.slots[i]);
      SignatureInjective(r.slots[i].from, r.slots[i].to, h.from, h.to);
      assert false;
    } else {
      var k := GetOrAlloc(r.slots, sig);
      assert k < |r.slots|;
      assert i == k;
    }
  }

  lemma {:induction false} ReceptionIsHistory(r: Receiver, calls: seq<Call>)
    requires ReceiverOk(r) && forall i :: 0 <= i < |r.slots| ==> r.slots[i].Free?
    ensures Traced(Run(r, calls), calls)
  {
    if calls != [] {
      var n := |calls| - 1;
      var q := Run(r, calls[..n]);
      ReceptionIsHistory(r, calls[..n]);
      RunKeeps(r, calls[..n]);
      assert calls == calls[..n] + [calls[n]];
      StepTraced(q, calls[..n], calls[n]);
    }
  }

  lemma StepTraced(r: Receiver, calls: seq<Call>, c: Call)
    requires ReceiverOk(r) && Traced(r, calls)
    ensures Traced(Perform(r, c).0, calls + [c])
  {
    if c.frame.len <= MAX_LEN {
      ExpireKeeps(r);
      assert Traced(Expire(r), calls);
      TableTraced(Expire(r), calls, c);
    } else {
      forall i | 0 <= i < |r.slots| && r.slots[i].Busy?
        ensures Records(r.slots[i], History(calls + [c], r.slots[i].sig))
      {
        HistoryStep(calls, c, r.slots[i].sig);
      }
    }
  }

  /** A delivered message is made of the bytes of its pair's chunks since the last
      first chunk, whatever came in between for other pairs; it has the identifier,
      length and CRC which that chunk announced. */
  lemma DeliveredIsHistory(r: Receiver, calls: seq<Call>, c: Call)
    requires ReceiverOk(r) && forall i :: 0 <= i < |r.slots| ==> r.slots[i].Free?
    requires Perform(Run(r, calls), c).1.message.Some?
    ensures var m := Perform(Run(r, calls), c).1.message.value;
            var g := History(calls + [c], m.Sig());
            && g.Some? && m.data == g.value.data && Concerns(c, m.Sig())
            && m.id == Word(g.value.first.data[0], g.value.first.data[1]) != ERROR_ID
            && |m.data| == Word(g.value.first.data[2], g.value.first.data[3])
            && Crc16.Crc(m.data) == CrcWord(g.value.first.data[4], g.value.first.data[5])
            && AddressValid(m.from) && AddressValid(m.to) && (m.to == r.own || r.monitoring) && Fits(r, |m.data|)
  {
    var q := Run(r, calls);
    RunKeeps(r, calls);
    ReceptionIsHistory(r, calls);
    ExpireKeeps(q);
    assert Traced(Expire(q), calls);
    TableTraced(Expire(q), calls, c);
    AddToTableKeeps(Expire(q), RouteOf(c.frame.id), c.frame, c.env);
    DoneIsOwn(Expire(q), RouteOf(c.frame.id), c.frame, c.env);
    var a := AddToTable(Expire(q), RouteOf(c.frame.id), c.frame, c.env);
    var s := a.receiver.slots[a.done.value];
    assert Records(s, History(calls + [c], s.sig));
    assert SlotOk(a.receiver, s);
    SmallAddress(s.from);
    SmallAddress(s.to);
  }

  lemma SmallAddress(a: nat)
    requires AddressValid(a)
    ensures a % ADDRESSES == a
  {
  }
}
