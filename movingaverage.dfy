// MovingAverage on the remote unit: a running mean over the last 2^sizeBase
// samples, kept as a ring buffer of uint16 slots with a uint16 running sum.
// The sum wraps modulo 2^16 like the C field; the mean is the sum shifted
// right by sizeBase.
module MovingAverageFilter {
  import opened Common

  const Uint16Modulus := 0x1_0000

  predicate IsUint16(x: int) { 0 <= x < Uint16Modulus }

  /** The total of the slots. */
  function Sum(s: seq<int>): int
    decreases |s|
  {
    if s == [] then 0 else Sum(s[..|s| - 1]) + s[|s| - 1]
  }

  /** The filter's fields: the window exponent, the head index, the running sum and the slots. */
  datatype Window = Window(base: nat, head: nat, sum: int, slots: seq<int>)

  /**
   * What the filter keeps true: the window exponent is 1..7 (so 2^base fits the
   * uint8 size field), the head is a slot index, every slot is a uint16 and the
   * running sum is the slot total modulo 2^16.
   */
  predicate Inv(w: Window)
  {
    1 <= w.base <= 7 && |w.slots| == Pow2(w.base) && w.head < |w.slots|
    && (forall i :: 0 <= i < |w.slots| ==> IsUint16(w.slots[i]))
    && w.sum == Sum(w.slots) % Uint16Modulus
  }

  /** The constructor's window: 2^base zero slots, head 0, sum 0. */
  function Init(base: nat): Window
  {
    Window(base, 0, 0, seq(Pow2(base), _ => 0))
  }

  /**
   * addNewValue: the slot after the head is the oldest one; its value leaves
   * the running sum, the new value enters it, and the head moves onto that slot.
   */
  function Add(w: Window, v: int): Window
    requires |w.slots| > 0
  {
    var t := (w.head + 1) % |w.slots|;
    Window(w.base, t, (w.sum - w.slots[t] + v) % Uint16Modulus, w.slots[t := v])
  }

  /** getCurrentValue: windowSum >> sizeBase. */
  function Average(w: Window): int
  {
    w.sum / Pow2(w.base)
  }

  /** The window after adding the values in order. */
  function Feed(w: Window, vs: seq<int>): Window
    requires |w.slots| > 0
    decreases |vs|
  {
    if vs == [] then w else Feed(Add(w, vs[0]), vs[1..])
  }

  // ---------------------------------------------------------------------------
  // Sums

  lemma {:induction false} SumConst(n: nat, v: int)
    ensures Sum(seq(n, _ => v)) == n * v
  {
    if n > 0 {
      assert seq(n, _ => v)[..n - 1] == seq(n - 1, _ => v);
      SumConst(n - 1, v);
    }
  }

  /** Replacing one slot changes the total by the difference. */
  lemma {:induction false} SumUpdate(s: seq<int>, i: nat, v: int)
    requires i < |s|
    ensures Sum(s[i := v]) == Sum(s) - s[i] + v
    decreases |s|
  {
    var n := |s|;
    if i == n - 1 {
      assert s[i := v][..n - 1] == s[..n - 1];
    } else {
      assert s[i := v][..n - 1] == s[..n - 1][i := v];
      SumUpdate(s[..n - 1], i, v);
    }
  }

  /** Slots below m add up to less than m per slot. */
  lemma {:induction false} SumBelow(s: seq<int>, m: int)
    requires forall i :: 0 <= i < |s| ==> 0 <= s[i] < m
    ensures 0 <= Sum(s) && (s != [] ==> Sum(s) < |s| * m)
    decreases |s|
  {
    if s != [] {
      SumBelow(s[..|s| - 1], m);
    }
  }

  lemma {:induction false} Pow2Add(a: nat, b: nat)
    ensures Pow2(a) * Pow2(b) == Pow2(a + b)
    decreases a
  {
    if a > 0 {
      Pow2Add(a - 1, b);
    }
  }

  // ---------------------------------------------------------------------------
  // The invariant

  /** The constructor establishes the invariant, with mean 0. */
  lemma InitValid(base: nat)
    requires 1 <= base <= 7
    ensures Inv(Init(base)) && Average(Init(base)) == 0
  {
    SumConst(Pow2(base), 0);
  }

  /**
   * addNewValue keeps the invariant. It writes exactly the slot after the head
   * — the head's new position — and the exact slot total changes by the new
   * value minus the value that slot held.
   */
  lemma AddValid(w: Window, v: int)
    requires Inv(w) && IsUint16(v)
    ensures var r, t := Add(w, v), (w.head + 1) % |w.slots|;
      Inv(r) && r.head == t && r.slots[t] == v
      && (forall j :: 0 <= j < |w.slots| && j != t ==> r.slots[j] == w.slots[j])
      && Sum(r.slots) == Sum(w.slots) - w.slots[t] + v
  {
    var t := (w.head + 1) % |w.slots|;
    SumUpdate(w.slots, t, v);
    ShiftMod(Sum(w.slots), w.slots[t], v);
  }

  /** Taking the sum modulo 2^16 before or after replacing one value gives the same result. */
  lemma ShiftMod(s: int, x: int, v: int)
    ensures (s % Uint16Modulus - x + v) % Uint16Modulus == (s - x + v) % Uint16Modulus
  {
    var q := s / Uint16Modulus;
    assert s == Uint16Modulus * q + s % Uint16Modulus;
    assert s - x + v == Uint16Modulus * q + (s % Uint16Modulus - x + v);
  }

  /** Euclidean division of a sum by the window size, written out. */
  lemma DivFloor(s: int, n: int)
    requires n > 0
    ensures (s / n) * n <= s < (s / n + 1) * n
  {
    assert s == n * (s / n) + s % n;
  }

  lemma MulNonneg(n: int, x: int)
    requires n >= 0 && x >= 0
    ensures n * x >= 0
  {
  }

  /** A product below n * m with n > 0 has its other factor below m. */
  lemma FactorBelow(a: int, n: int, m: int)
    requires n > 0 && a * n < n * m
    ensures a < m
  {
    if a >= m {
      MulNonneg(n, a - m);
      assert false;
    }
  }

  /** The window size and the largest unwrapped slot value multiply to 2^16. */
  lemma WindowSpan(base: nat)
    requires base <= 16
    ensures Pow2(base) * Pow2(16 - base) == Uint16Modulus
  {
    Pow2Add(base, 16 - base);
    Pow2Of16();
  }

  lemma Pow2Of16()
    ensures Pow2(16) == Uint16Modulus
  {
    assert Pow2(8) == 256;
    assert Pow2(16) == 256 * Pow2(8) by { Pow2Add(8, 8); }
  }

  /** The mean is the floor of the running sum over the window size, and below 2^(16-base). */
  lemma AverageBound(w: Window)
    requires Inv(w)
    ensures var a, n := Average(w), |w.slots|;
      a * n <= w.sum < (a + 1) * n && 0 <= a < Pow2(16 - w.base)
  {
    var n, m, s := |w.slots|, Pow2(16 - w.base), w.sum;
    WindowSpan(w.base);
    assert 0 <= s < n * m;
    DivFloor(s, n);
    FactorBelow(s / n, n, m);
  }

  /**
   * When every slot is below 2^(16-base) the running sum never wraps: it is the
   * exact slot total, and the mean is the floor of the exact mean. With a 10-bit
   * ADC and base 6 this is every reading.
   */
  lemma NoWrap(w: Window)
    requires Inv(w) && forall i :: 0 <= i < |w.slots| ==> w.slots[i] < Pow2(16 - w.base)
    ensures w.sum == Sum(w.slots) && Average(w) == Sum(w.slots) / |w.slots|
  {
    var n, m, t := |w.slots|, Pow2(16 - w.base), Sum(w.slots);
    SumBelow(w.slots, m);
    WindowSpan(w.base);
    assert 0 <= t < n * m;
    assert t % Uint16Modulus == t;
  }

  /** The ADC configuration: 10-bit samples averaged over 2^6 are never wrapped. */
  lemma AdcSamplesNoWrap(w: Window)
    requires Inv(w) && w.base == 6 && forall i :: 0 <= i < |w.slots| ==> w.slots[i] < 1024
    ensures w.sum == Sum(w.slots)
  {
    assert Pow2(10) == 1024;
    NoWrap(w);
  }

  // ---------------------------------------------------------------------------
  // The window holds the latest values

  /** The slot k places behind the head h in a ring of n slots. */
  function Behind(h: nat, k: nat, n: nat): nat
    requires k < n
  {
    if k <= h then h - k else h + n - k
  }

  /** The k-th latest of the values, 0 being the last one. */
  function Latest(vs: seq<int>, k: nat): int
    requires k < |vs|
  {
    vs[|vs| - 1 - k]
  }

  /** The head's next slot, as (head + 1) % size computes it. */
  lemma NextSlot(h: nat, n: nat)
    requires h < n
    ensures (h + 1) % n == if h + 1 < n then h + 1 else 0
  {
    if h + 1 == n {
      assert (h + 1) % n == n % n;
    }
  }

  /**
   * After adding vs to a fresh window, the slot k places behind the head holds
   * the k-th latest value, for every k below both |vs| and the window size.
   */
  lemma FeedLatest(base: nat, vs: seq<int>)
    requires 1 <= base <= 7 && forall i :: 0 <= i < |vs| ==> IsUint16(vs[i])
    ensures var w, n := Feed(Init(base), vs), Pow2(base);
      Inv(w) && w.base == base && forall k :: 0 <= k < |vs| && k < n ==> w.slots[Behind(w.head, k, n)] == Latest(vs, k)
  {
    InitValid(base);
    FeedLatestFrom(Init(base), vs, []);
    assert [] + vs == vs;
  }

  /** FeedLatest from any window that holds the values `done` in the same sense. */
  lemma {:induction false} FeedLatestFrom(w: Window, vs: seq<int>, done: seq<int>)
    requires Inv(w) && forall i :: 0 <= i < |vs| ==> IsUint16(vs[i])
    requires forall k :: 0 <= k < |done| && k < |w.slots| ==> w.slots[Behind(w.head, k, |w.slots|)] == Latest(done, k)
    ensures var r, all, n := Feed(w, vs), done + vs, |w.slots|;
      Inv(r) && |r.slots| == n && r.base == w.base
      && forall k :: 0 <= k < |all| && k < n ==> r.slots[Behind(r.head, k, n)] == Latest(all, k)
    decreases |vs|
  {
    if vs == [] {
      assert done + vs == done;
    } else {
      var n := |w.slots|;
      var a := Add(w, vs[0]);
      var d := done + [vs[0]];
      AddValid(w, vs[0]);
      NextSlot(w.head, n);
      forall k | 0 <= k < |d| && k < n
        ensures a.slots[Behind(a.head, k, n)] == Latest(d, k)
      {
        if k > 0 {
          assert Behind(a.head, k, n) == Behind(w.head, k - 1, n);
          assert Latest(d, k) == Latest(done, k - 1);
        }
      }
      assert d + vs[1..] == done + vs;
      FeedLatestFrom(a, vs[1..], d);
    }
  }

  /**
   * Feeding a fresh window `size` copies of v (more values before them are
   * allowed) fills every slot with v, so when size·v < 2^16 the mean is v.
   */
  lemma SteadyInput(base: nat, vs: seq<int>, v: int)
    requires 1 <= base <= 7 && |vs| >= Pow2(base) && IsUint16(v) && Pow2(base) * v < Uint16Modulus
    requires forall i :: 0 <= i < |vs| ==> IsUint16(vs[i])
    requires forall i :: |vs| - Pow2(base) <= i < |vs| ==> vs[i] == v
    ensures Average(Feed(Init(base), vs)) == v
  {
    FeedLatest(base, vs);
    SteadyRing(Feed(Init(base), vs), vs, v);
  }

  /** A valid window holding the latest values, the last size of them all v, has the mean v. */
  lemma SteadyRing(w: Window, vs: seq<int>, v: int)
    requires Inv(w) && |vs| >= |w.slots| && IsUint16(v) && |w.slots| * v < Uint16Modulus
    requires forall k :: 0 <= k < |vs| && k < |w.slots| ==> w.slots[Behind(w.head, k, |w.slots|)] == Latest(vs, k)
    requires forall i :: |vs| - |w.slots| <= i < |vs| ==> vs[i] == v
    ensures Average(w) == v
  {
    SteadySlots(w.slots, w.head, vs, v);
    MulNonneg(|w.slots|, v);
    FilledWindow(w, v);
  }

  /** A valid window whose every slot holds v, with size·v below 2^16, has the mean v. */
  lemma FilledWindow(w: Window, v: int)
    requires Inv(w) && 0 <= |w.slots| * v < Uint16Modulus
    requires forall j :: 0 <= j < |w.slots| ==> w.slots[j] == v
    ensures Average(w) == v
  {
    SumAll(w.slots, v);
    FilledMean(|w.slots|, v);
  }

  /** A ring whose slots hold the latest |slots| values, all equal to v, holds only v. */
  lemma SteadySlots(slots: seq<int>, h: nat, vs: seq<int>, v: int)
    requires h < |slots| <= |vs|
    requires forall k :: 0 <= k < |vs| && k < |slots| ==> slots[Behind(h, k, |slots|)] == Latest(vs, k)
    requires forall i :: |vs| - |slots| <= i < |vs| ==> vs[i] == v
    ensures forall j :: 0 <= j < |slots| ==> slots[j] == v
  {
    var n := |slots|;
    forall j | 0 <= j < n ensures slots[j] == v {
      var k := if j <= h then h - j else h + n - j;
      assert Behind(h, k, n) == j;
      assert slots[Behind(h, k, n)] == Latest(vs, k);
    }
  }

  lemma {:induction false} SumAll(s: seq<int>, v: int)
    requires forall j :: 0 <= j < |s| ==> s[j] == v
    ensures Sum(s) == |s| * v
    decreases |s|
  {
    if s != [] {
      SumAll(s[..|s| - 1], v);
    }
  }

  /** n slots holding v have the mean v when their total does not wrap. */
  lemma FilledMean(n: int, v: int)
    requires n > 0 && 0 <= n * v < Uint16Modulus
    ensures ((n * v) % Uint16Modulus) / n == v
  {
    assert (n * v) % Uint16Modulus == n * v;
    var q, r := (n * v) / n, (n * v) % n;
    assert n * v == n * q + r && 0 <= r < n;
    assert n * (v - q) == r;
    if v - q >= 1 {
      MulNonneg(n, v - q - 1);
      assert false;
    }
    if v - q <= -1 {
      MulNonneg(n, q - v - 1);
      assert false;
    }
  }

  // ---------------------------------------------------------------------------
  // The class

  class MovingAverage {
    const sizeBase: nat
    const size: nat
    var head: nat
    var windowSum: int
    const queue: array<int>

    ghost function Snapshot(): Window
      reads this, queue
    {
      Window(sizeBase, head, windowSum, queue[..])
    }

    ghost predicate Valid()
      reads this, queue
    {
      size == Pow2(sizeBase) && queue.Length == size && Inv(Snapshot())
    }

    /** MovingAverage(sizeBase): the firmware's uint8 size holds 2^sizeBase only for sizeBase up to 7. */
    constructor(sizeBase: nat)
      requires 1 <= sizeBase <= 7
      ensures Valid() && fresh(queue) && Snapshot() == Init(sizeBase)
    {
      this.sizeBase := sizeBase;
      size := Pow2(sizeBase);
      head := 0;
      windowSum := 0;
      queue := new int[Pow2(sizeBase)](_ => 0);
      new;
      assert queue[..] == seq(Pow2(sizeBase), _ => 0);
      InitValid(sizeBase);
    }

    method AddNewValue(val: int)
      requires Valid() && IsUint16(val)
      modifies this`head, this`windowSum, queue
      ensures Valid() && Snapshot() == Add(old(Snapshot()), val)
    {
      ghost var w := Snapshot();
      ghost var next := Add(w, val);
      AddValid(w, val);
      var tail := (head + 1) % size;
      windowSum := (windowSum - queue[tail] + val) % Uint16Modulus;
      head := (head + 1) % size;
      queue[head] := val;
      assert queue[..] == next.slots;
      assert Snapshot() == next;
    }

    function CurrentValue(): (v: int)
      requires Valid()
      reads this, queue
      ensures v == Average(Snapshot())
    {
      windowSum / size
    }
  }
}
