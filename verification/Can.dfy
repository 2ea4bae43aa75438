/** CAN frames as the transports see them, and the small sequence vocabulary
    shared by all modules. */
module Can {

  /** An octet of payload. */
  type byte = bv8

  const MAX_LEN: nat := 8

  /** The eight data bytes every frame carries, used or not. */
  type Octets = s: seq<byte> | |s| == 8 witness [0, 0, 0, 0, 0, 0, 0, 0]

  /** `len` is a 16-bit field in the source: a received frame may announce more
      bytes than it holds. */
  datatype Frame = Frame(id: nat, extended: bool, len: nat, data: Octets) {
    ghost predicate WellSized() { len <= MAX_LEN }

    function Body(): (b: seq<byte>)
      requires len <= MAX_LEN
    {
      data[..len]
    }
  }

  datatype Option<+T> = None | Some(value: T)

  function Zeros(n: nat): (z: seq<byte>)
    ensures |z| == n
  {
    seq(n, _ => 0)
  }

  /** A cleared frame with an extended identifier, filled with `body`. */
  function MakeFrame(id: nat, body: seq<byte>): (f: Frame)
    requires |body| <= MAX_LEN
    ensures f.WellSized() && f.Body() == body && f.id == id
  {
    Frame(id, true, |body|, body + Zeros(MAX_LEN - |body|))
  }

  function Min(a: nat, b: nat): nat { if a < b then a else b }

  function CeilDiv(a: nat, b: nat): nat
    requires b > 0
  {
    (a + (b - 1)) / b
  }

  lemma {:induction false} MultiplesOrdered(a: nat, b: nat, m: nat)
    requires a <= b
    ensures a * m <= b * m
  {
    if a < b {
      MultiplesOrdered(a, b - 1, m);
      assert b * m == (b - 1) * m + m;
    }
  }

  lemma RemainderIs(n: nat, k: nat, r: nat, d: nat)
    requires r < d && n == k * d + r
    ensures n % d == r
  {
    var x := n / d;
    assert n == x * d + n % d && (x + 1) * d == x * d + d && (k + 1) * d == k * d + d;
    if x < k {
      MultiplesOrdered(x + 1, k, d);
    } else if k < x {
      MultiplesOrdered(k + 1, x, d);
    }
  }

  /** Index of the first element satisfying `p`, or the length: the scan
      `for (i = 0; i < n; i++) if (p(&s[i])) return &s[i];`. */
  function First<T>(s: seq<T>, p: T -> bool): (i: nat)
    ensures i <= |s|
    ensures i < |s| ==> p(s[i])
    ensures forall j :: 0 <= j < i ==> !p(s[j])
  {
    FirstFrom(s, p, 0)
  }

  function FirstFrom<T>(s: seq<T>, p: T -> bool, from: nat): (i: nat)
    requires from <= |s|
    ensures from <= i <= |s|
    ensures i < |s| ==> p(s[i])
    ensures forall j :: from <= j < i ==> !p(s[j])
    decreases |s| - from
  {
    if from == |s| || p(s[from]) then from else FirstFrom(s, p, from + 1)
  }

  lemma FirstIs<T>(s: seq<T>, p: T -> bool, i: nat)
    requires i <= |s|
    requires i < |s| ==> p(s[i])
    requires forall j :: 0 <= j < i ==> !p(s[j])
    ensures First(s, p) == i
  {
  }

  /** Number of elements satisfying `p` among the first `n`. */
  ghost function CountTo<T>(s: seq<T>, p: T -> bool, n: nat): (c: nat)
    requires n <= |s|
    ensures c <= n
  {
    if n == 0 then 0 else CountTo(s, p, n - 1) + (if p(s[n - 1]) then 1 else 0)
  }

  ghost function Count<T>(s: seq<T>, p: T -> bool): nat { CountTo(s, p, |s|) }

  lemma {:induction false} CountUpdate<T>(s: seq<T>, p: T -> bool, i: nat, x: T, n: nat)
    requires i < |s| && n <= |s|
    ensures i < n ==> CountTo(s[i := x], p, n) + (if p(s[i]) then 1 else 0)
                       == CountTo(s, p, n) + (if p(x) then 1 else 0)
    ensures i >= n ==> CountTo(s[i := x], p, n) == CountTo(s, p, n)
  {
    if n > 0 {
      CountUpdate(s, p, i, x, n - 1);
    }
  }

  lemma {:induction false} CountNone<T>(s: seq<T>, p: T -> bool, n: nat)
    requires n <= |s| && forall i :: 0 <= i < n ==> !p(s[i])
    ensures CountTo(s, p, n) == 0
  {
    if n > 0 {
      CountNone(s, p, n - 1);
    }
  }

  lemma {:induction false} CountMonotone<T>(s: seq<T>, p: T -> bool, i: nat, n: nat)
    requires i < n <= |s| && p(s[i])
    ensures CountTo(s, p, i) < CountTo(s, p, n)
  {
    if i < n - 1 {
      CountMonotone(s, p, i, n - 1);
    }
  }

  /** An injective image is as large as its source. */
  lemma {:induction false} InjectiveImage<A, B>(s: set<A>, f: A -> B, t: set<B>)
    requires forall x :: x in s ==> f(x) in t
    requires forall x, y :: x in s && y in s && f(x) == f(y) ==> x == y
    ensures |s| <= |t|
  {
    if s != {} {
      var a :| a in s;
      InjectiveImage(s - {a}, f, t - {f(a)});
    }
  }
}
