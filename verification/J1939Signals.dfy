/** Raw J1939 signals packed into the 64 data bits of a frame, each behind the ones
    before it in its message's descriptor. */
module J1939Signals {
  import opened Can

  // ------------------------------------------------------------------ 64-bit words

  /** A word is the sequence of its bits, least significant first. */
  type Word = w: seq<bool> | |w| == 64 witness seq(64, _ => false)

  function And(a: Word, b: Word): Word { seq(64, i requires 0 <= i < 64 => a[i] && b[i]) }

  function Or(a: Word, b: Word): Word { seq(64, i requires 0 <= i < 64 => a[i] || b[i]) }

  function Not(a: Word): Word { seq(64, i requires 0 <= i < 64 => !a[i]) }

  /** Shifts by less than the width; others have no defined result. */
  function ShiftLeft(a: Word, n: nat): Word
    requires n < 64
  {
    seq(64, i requires 0 <= i < 64 => i >= n && a[i - n])
  }

  function ShiftRight(a: Word, n: nat): Word
    requires n < 64
  {
    seq(64, i requires 0 <= i < 64 => i + n < 64 && a[i + n])
  }

  /** `(1 << n) - 1`. */
  function Ones(n: nat): Word
    requires n < 64
  {
    seq(64, i => i < n)
  }

  /** The number the first `n` bits stand for. */
  ghost function Value(a: Word, n: nat): nat
    requires n <= 64
  {
    if n == 0 then 0 else Value(a, n - 1) + (if a[n - 1] then PowerOfTwo(n - 1) else 0)
  }

  ghost function PowerOfTwo(n: nat): nat { if n == 0 then 1 else 2 * PowerOfTwo(n - 1) }

  lemma {:induction false} OnesIsPowerLessOne(n: nat, k: nat)
    requires n < 64 && k <= 64
    ensures Value(Ones(n), k) == PowerOfTwo(Min(n, k)) - 1
  {
    if k > 0 { OnesIsPowerLessOne(n, k - 1); }
  }

  // -------------------------------------------------------------------- descriptors

  /** A signal of a descriptor: identifier and number of bits. */
  datatype Signal = Signal(id: nat, length: nat)

  /** Where signal `k` starts: behind all signals before it. */
  function Offset(s: seq<Signal>, k: nat): nat
    requires k <= |s|
  {
    if k == 0 then 0 else Offset(s, k - 1) + s[k - 1].length
  }

  /** Every signal has 1 to 63 bits, and together they have at most 64. */
  ghost predicate Packed(s: seq<Signal>) {
    (forall k :: 0 <= k < |s| ==> 1 <= s[k].length <= 63) && Offset(s, |s|) <= 64
  }

  lemma {:induction false} InOrder(s: seq<Signal>, j: nat, k: nat)
    requires Packed(s) && j < k <= |s|
    ensures Offset(s, j) + s[j].length <= Offset(s, k) <= 64
  {
    if k < |s| {
      OffsetsGrow(s, k, |s|);
    }
    if j + 1 < k { InOrder(s, j, k - 1); }
  }

  lemma {:induction false} OffsetsGrow(s: seq<Signal>, j: nat, k: nat)
    requires j <= k <= |s|
    ensures Offset(s, j) <= Offset(s, k)
  {
    if j < k { OffsetsGrow(s, j, k - 1); }
  }

  lemma Fits(s: seq<Signal>, k: nat)
    requires Packed(s) && k < |s|
    ensures Offset(s, k) + s[k].length <= 64 && Offset(s, k) < 64
  {
    InOrder(s, k, k + 1);
  }

  /** The bits of the first signals, counted from the front. */
  ghost function BitsOf(s: seq<Signal>): nat {
    if s == [] then 0 else s[0].length + BitsOf(s[1..])
  }

  lemma {:induction false} BitsOfMore(s: seq<Signal>, x: Signal)
    ensures BitsOf(s + [x]) == BitsOf(s) + x.length
  {
    if s == [] {
      assert [x][1..] == [];
    } else {
      BitsOfMore(s[1..], x);
      assert (s + [x])[1..] == s[1..] + [x];
    }
  }

  /** A signal starts right behind the bits of all signals before it; so bits belong to
      one signal at most, and none is left out. */
  lemma {:induction false} StartsBehindOthers(s: seq<Signal>, k: nat)
    requires k <= |s|
    ensures Offset(s, k) == BitsOf(s[..k])
  {
    if k > 0 {
      StartsBehindOthers(s, k - 1);
      assert s[..k] == s[..k - 1] + [s[k - 1]];
      BitsOfMore(s[..k - 1], s[k - 1]);
    }
  }

  // ------------------------------------------------------------------- get and set

  function Field(w: Word, offset: nat, length: nat): Word
    requires offset < 64 && length < 64
  {
    And(ShiftRight(w, offset), Ones(length))
  }

  function WithField(w: Word, offset: nat, length: nat, value: Word): Word
    requires offset < 64 && length < 64
  {
    Or(And(w, Not(ShiftLeft(Ones(length), offset))), ShiftLeft(And(value, Ones(length)), offset))
  }

  /** What the first `n` signals with this identifier say: the last one counts. */
  function Got(w: Word, s: seq<Signal>, id: nat, n: nat): Option<Word>
    requires Packed(s) && n <= |s|
  {
    if n == 0 then None
    else if s[n - 1].id == id then Fits(s, n - 1); Some(Field(w, Offset(s, n - 1), s[n - 1].length))
    else Got(w, s, id, n - 1)
  }

  /** The word after all of the first `n` signals with this identifier were written. */
  function Put(w: Word, s: seq<Signal>, id: nat, value: Word, n: nat): Word
    requires Packed(s) && n <= |s|
  {
    if n == 0 then w
    else
      var v := Put(w, s, id, value, n - 1);
      if s[n - 1].id == id then Fits(s, n - 1); WithField(v, Offset(s, n - 1), s[n - 1].length, value) else v
  }

  predicate Present(s: seq<Signal>, id: nat) { exists k :: 0 <= k < |s| && s[k].id == id }

  /** The data bits of a frame. */
  class Data {
    var word: Word

    constructor (word: Word)
      ensures this.word == word
    {
      this.word := word;
    }

    /** `uni_can_j1939_msg_signal_get`. */
    method SignalGet(s: seq<Signal>, id: nat) returns (found: bool, value: Word)
      requires Packed(s)
      ensures found == Present(s, id)
      ensures found ==> Got(word, s, id, |s|) == Some(value)
    {
      var offset, k := 0, 0;
      found, value := false, Ones(0);
      while k < |s|
        invariant 0 <= k <= |s| && offset == Offset(s, k)
        invariant Got(word, s, id, k) == if found then Some(value) else None
        invariant found <==> exists j :: 0 <= j < k && s[j].id == id
      {
        Fits(s, k);
        if s[k].id == id {
          var mask := Ones(s[k].length);
          value := And(ShiftRight(word, offset), mask);
          found := true;
        }
        offset := offset + s[k].length;
        k := k + 1;
      }
    }

    /** `uni_can_j1939_msg_signal_set`. */
    method SignalSet(s: seq<Signal>, id: nat, value: Word) returns (found: bool)
      requires Packed(s)
      modifies this
      ensures found == Present(s, id) && word == Put(old(word), s, id, value, |s|)
    {
      var offset, k := 0, 0;
      found := false;
      while k < |s|
        invariant 0 <= k <= |s| && offset == Offset(s, k)
        invariant word == Put(old(word), s, id, value, k)
        invariant found <==> exists j :: 0 <= j < k && s[j].id == id
      {
        Fits(s, k);
        if s[k].id == id {
          var mask := Ones(s[k].length);
          word := And(word, Not(ShiftLeft(mask, offset)));
          word := Or(word, ShiftLeft(And(value, mask), offset));
          found := true;
        }
        offset := offset + s[k].length;
        k := k + 1;
      }
    }
  }

  // --------------------------------------------------------------------- properties

  /** Signal `k` covers bit `b`. */
  ghost predicate Covers(s: seq<Signal>, k: nat, b: nat)
    requires k < |s|
  {
    Offset(s, k) <= b < Offset(s, k) + s[k].length
  }

  /** Setting writes the bits of all signals with the identifier and no others. */
  lemma {:induction false} SetWritesOnly(w: Word, s: seq<Signal>, id: nat, value: Word, n: nat, b: nat)
    requires Packed(s) && n <= |s| && b < 64
    ensures (forall k :: 0 <= k < n && s[k].id == id ==> !Covers(s, k, b)) ==> Put(w, s, id, value, n)[b] == w[b]
    ensures forall k :: 0 <= k < n && s[k].id == id && Covers(s, k, b) ==>
              Put(w, s, id, value, n)[b] == value[b - Offset(s, k)]
  {
    if n > 0 {
      SetWritesOnly(w, s, id, value, n - 1, b);
      Fits(s, n - 1);
      forall k | 0 <= k < n - 1 && Covers(s, k, b) ensures !Covers(s, n - 1, b) {
        InOrder(s, k, n - 1);
      }
    }
  }

  lemma {:induction false} GotIsLast(w: Word, s: seq<Signal>, id: nat, n: nat, k: nat)
    requires Packed(s) && k < n <= |s| && s[k].id == id && forall j :: k < j < n ==> s[j].id != id
    ensures Offset(s, k) < 64 && Got(w, s, id, n) == Some(Field(w, Offset(s, k), s[k].length))
  {
    Fits(s, k);
    if n - 1 > k { GotIsLast(w, s, id, n - 1, k); }
  }

  lemma {:induction false} GotNone(w: Word, s: seq<Signal>, id: nat, n: nat)
    requires Packed(s) && n <= |s| && forall j :: 0 <= j < n ==> s[j].id != id
    ensures Got(w, s, id, n) == None
  {
    if n > 0 { GotNone(w, s, id, n - 1); }
  }

  /** Get after set returns the value, cut to the length of the last signal with the
      identifier. */
  lemma GetAfterSet(w: Word, s: seq<Signal>, id: nat, value: Word, k: nat)
    requires Packed(s) && k < |s| && s[k].id == id && forall j :: k < j < |s| ==> s[j].id != id
    ensures Got(Put(w, s, id, value, |s|), s, id, |s|) == Some(And(value, Ones(s[k].length)))
    ensures forall i :: 0 <= i < 64 ==> And(value, Ones(s[k].length))[i] == (i < s[k].length && value[i])
  {
    var v := Put(w, s, id, value, |s|);
    GotIsLast(v, s, id, |s|, k);
    Fits(s, k);
    forall i | 0 <= i < s[k].length ensures v[Offset(s, k) + i] == value[i] {
      SetWritesOnly(w, s, id, value, |s|, Offset(s, k) + i);
      assert Covers(s, k, Offset(s, k) + i);
    }
    assert Field(v, Offset(s, k), s[k].length) == And(value, Ones(s[k].length));
  }

  /** Reading takes the bits of the last signal with the identifier, the lowest first, and
      zeros above them. */
  lemma ReadsLastField(w: Word, s: seq<Signal>, id: nat, k: nat, i: nat)
    requires Packed(s) && k < |s| && s[k].id == id && (forall j :: k < j < |s| ==> s[j].id != id) && i < 64
    ensures var v := Got(w, s, id, |s|);
            v.Some? && Offset(s, k) + s[k].length <= 64
            && v.value[i] == (i < s[k].length && w[Offset(s, k) + i])
  {
    GotIsLast(w, s, id, |s|, k);
    Fits(s, k);
  }

  /** Setting one signal changes no other. */
  lemma {:induction false} OthersUnchanged(w: Word, s: seq<Signal>, id: nat, value: Word, other: nat, n: nat)
    requires Packed(s) && n <= |s| && other != id
    ensures Got(Put(w, s, id, value, |s|), s, other, n) == Got(w, s, other, n)
  {
    if n > 0 {
      OthersUnchanged(w, s, id, value, other, n - 1);
      if s[n - 1].id == other {
        Fits(s, n - 1);
        FieldUntouched(w, s, id, value, n - 1);
      }
    }
  }

  lemma FieldUntouched(w: Word, s: seq<Signal>, id: nat, value: Word, k: nat)
    requires Packed(s) && k < |s| && s[k].id != id && Offset(s, k) < 64
    ensures Field(Put(w, s, id, value, |s|), Offset(s, k), s[k].length) == Field(w, Offset(s, k), s[k].length)
  {
    var v := Put(w, s, id, value, |s|);
    Fits(s, k);
    forall b: nat | Covers(s, k, b) ensures v[b] == w[b] {
      SetWritesOnly(w, s, id, value, |s|, b);
      forall j | 0 <= j < |s| && s[j].id == id ensures !Covers(s, j, b) {
        if j < k { InOrder(s, j, k); } else { InOrder(s, k, j); }
      }
    }
    forall i | 0 <= i < 64
      ensures Field(v, Offset(s, k), s[k].length)[i] == Field(w, Offset(s, k), s[k].length)[i]
    {
      if i < s[k].length { assert Covers(s, k, Offset(s, k) + i); }
    }
  }
}
