/** Signed timespec arithmetic: seconds and nanoseconds in 64-bit fields, normalised with
    C's truncating division, converted to nanoseconds with wrap-around. */
module TimeUtils {
  import opened Wrapping

  const NUMBER_10E9: int := 1000000000
  const TWO63: int := 0x8000_0000_0000_0000
  const TWO64: int := 0x1_0000_0000_0000_0000

  type int64 = x: int | -TWO63 <= x < TWO63
  type uint64 = x: int | 0 <= x < TWO64

  predicate FitsInt64(x: int) { -TWO63 <= x < TWO63 }

  predicate FitsInt32(x: int) { -0x8000_0000 <= x < 0x8000_0000 }

  // Division and remainder as C has them, towards zero.
  function TruncDiv(a: int, b: int): int
    requires b > 0
  {
    if a >= 0 then a / b else -((-a) / b)
  }

  function TruncRem(a: int, b: int): int
    requires b > 0
  {
    a - b * TruncDiv(a, b)
  }

  // Conversion to `int` as the usual compilers do it, keeping the low 32 bits.
  function ToInt32(x: int): (r: int)
    ensures FitsInt32(r)
  {
    (x + 0x8000_0000) % TWO32 - 0x8000_0000
  }

  function ToUint64(x: int): uint64 { x % TWO64 }

  // A timespec passed or returned by value.
  datatype Time = Time(sec: int64, nsec: int64)

  // The time it stands for, in nanoseconds.
  function Total(t: Time): int { t.sec * NUMBER_10E9 + t.nsec }

  predicate Balanced(t: Time) {
    -NUMBER_10E9 < t.nsec < NUMBER_10E9 && (t.sec == 0 || t.nsec == 0 || (t.sec < 0 <==> t.nsec < 0))
  }

  // The whole seconds in the nsec field, which the program keeps in an `int`.
  function Holes(nsec: int): int { TruncDiv(nsec, NUMBER_10E9) }

  // What is lost when they do not fit, in nanoseconds.
  function Lost(nsec: int): int { (Holes(nsec) - ToInt32(Holes(nsec))) * NUMBER_10E9 }

  // -------------------------------------------------------------------------
  // Facts about the division.

  lemma {:induction false} TruncBounds(a: int, b: int)
    requires b > 0
    ensures -b < TruncRem(a, b) < b
    ensures a > 0 ==> TruncRem(a, b) >= 0
    ensures a < 0 ==> TruncRem(a, b) <= 0
    ensures a == b * TruncDiv(a, b) + TruncRem(a, b)
  {
  }

  lemma {:induction false} Int32Exact(x: int)
    ensures ToInt32(x) == x <==> FitsInt32(x)
    ensures exists m {:trigger m * TWO32} :: ToInt32(x) == x - m * TWO32 && (m == 0 <==> FitsInt32(x))
  {
    var m := (x + 0x8000_0000) / TWO32;
    assert ToInt32(x) == x - m * TWO32;
  }

  lemma {:induction false} SameModulo(x: int, y: int, m: int)
    requires x == y + m * TWO64
    ensures ToUint64(x) == ToUint64(y)
  {
    DivModUnique(x, TWO64, y / TWO64 + m, y % TWO64);
  }

  // -------------------------------------------------------------------------
  // Balanced values.

  // A value has one balanced form at most.
  lemma {:induction false} BalancedIsUnique(a: Time, b: Time)
    requires Balanced(a) && Balanced(b) && Total(a) == Total(b)
    ensures a == b
  {
    assert (a.sec - b.sec) * NUMBER_10E9 == b.nsec - a.nsec;
  }

  // -------------------------------------------------------------------------
  // The program.

  class Timespec {
    var sec: int64
    var nsec: int64

    ghost function View(): Time
      reads this
    {
      Time(sec, nsec)
    }

    constructor (sec: int64, nsec: int64)
      ensures View() == Time(sec, nsec)
    {
      this.sec, this.nsec := sec, nsec;
    }
  }

  // timespec_rebalance: in place, the balanced form of the same time, short of what
  // does not fit in hole_parts. The caller answers for the sum of the seconds.
  method TimespecRebalance(ts: Timespec)
    requires FitsInt64(ts.sec + ToInt32(Holes(ts.nsec)))
    modifies ts
    ensures Balanced(ts.View())
    ensures Total(ts.View()) == Total(old(ts.View())) - Lost(old(ts.nsec))
  {
    TruncBounds(ts.nsec, NUMBER_10E9);
    var holeParts := ToInt32(TruncDiv(ts.nsec, NUMBER_10E9));
    ts.sec := ts.sec + holeParts;
    ts.nsec := TruncRem(ts.nsec, NUMBER_10E9);

    if ts.sec == 0 || ts.nsec == 0 {
      return;
    }

    var secNegative := ts.sec < 0;
    var nsecNegative := ts.nsec < 0;

    if secNegative == nsecNegative {
      return;
    }

    if nsecNegative {
      // sec > 0 && nsec < 0
      ts.nsec := ts.nsec + NUMBER_10E9;
      ts.sec := ts.sec - 1;
    } else {
      // sec < 0 && nsec > 0
      ts.nsec := ts.nsec - NUMBER_10E9;
      ts.sec := ts.sec + 1;
    }
  }

  // Where the two subtractions and the sum in timespec_rebalance stay in range.
  predicate DeltaInRange(a: Time, b: Time) {
    && FitsInt64(a.sec - b.sec) && FitsInt64(a.nsec - b.nsec)
    && FitsInt64(a.sec - b.sec + ToInt32(Holes(a.nsec - b.nsec)))
  }

  // time_delta
  method TimeDelta(minuend: Time, subtrahend: Time) returns (d: Time)
    requires DeltaInRange(minuend, subtrahend)
    ensures IsDelta(d, minuend, subtrahend)
  {
    var delta := new Timespec(minuend.sec - subtrahend.sec, minuend.nsec - subtrahend.nsec);
    TimespecRebalance(delta);
    return Time(delta.sec, delta.nsec);
  }

  ghost predicate IsDelta(d: Time, a: Time, b: Time) {
    Balanced(d) && Total(d) == Total(a) - Total(b) - Lost(a.nsec - b.nsec)
  }

  // timespec_lt
  predicate TimespecLt(a: Time, b: Time) {
    if a.sec == b.sec then a.nsec < b.nsec else a.sec < b.sec
  }

  // timespec_to_ns, in unsigned 64-bit arithmetic
  function TimespecToNs(ts: Time): uint64 {
    ToUint64(ToUint64(ToUint64(ts.sec) * NUMBER_10E9) + ToUint64(ts.nsec))
  }

  // ns_to_timespec
  function NsToTimespec(ns: uint64): Time { Time(ns / NUMBER_10E9, ns % NUMBER_10E9) }

  // -------------------------------------------------------------------------
  // What they promise.

  // The time is kept exactly when the quotient fits the `int` it is stored in.
  lemma {:induction false} RebalanceKeepsIff(t: Time)
    ensures Lost(t.nsec) == 0 <==> FitsInt32(Holes(t.nsec))
  {
    Int32Exact(Holes(t.nsec));
  }

  // And it can fail to fit: three thousand million seconds held in nsec come out negative.
  lemma {:induction false} RebalanceCanLose()
    ensures var t := Time(0, 3000000000 * NUMBER_10E9);
            FitsInt64(t.sec + ToInt32(Holes(t.nsec))) && Lost(t.nsec) > Total(t) > 0
  {
  }

  // What is balanced stays as it is, so rebalancing twice is rebalancing once.
  lemma {:induction false} RebalanceIsIdempotent(t: Time, r: Time)
    requires Balanced(t) && Balanced(r) && Total(r) == Total(t) - Lost(t.nsec)
    ensures r == t
  {
    assert Holes(t.nsec) == 0;
    BalancedIsUnique(r, t);
  }

  // The difference of balanced times is always exact.
  lemma {:induction false} DeltaOfBalanced(a: Time, b: Time, d: Time)
    requires Balanced(a) && Balanced(b) && IsDelta(d, a, b)
    ensures Total(d) == Total(a) - Total(b)
  {
    RebalanceKeepsIff(Time(0, a.nsec - b.nsec));
  }

  // On balanced times timespec_lt is the order of the values.
  lemma {:induction false} LtIsNumeric(a: Time, b: Time)
    requires Balanced(a) && Balanced(b)
    ensures TimespecLt(a, b) <==> Total(a) < Total(b)
  {
    if a.sec < b.sec {
      assert (b.sec - a.sec) * NUMBER_10E9 >= NUMBER_10E9;
    } else if b.sec < a.sec {
      assert (a.sec - b.sec) * NUMBER_10E9 >= NUMBER_10E9;
    }
  }

  // The order is the sign of the difference, which both fields of it show.
  lemma {:induction false} LtIsSignOfDelta(a: Time, b: Time, d: Time)
    requires Balanced(a) && Balanced(b) && IsDelta(d, a, b)
    ensures TimespecLt(a, b) <==> d.sec < 0 || d.nsec < 0
    ensures TimespecLt(b, a) <==> d.sec > 0 || d.nsec > 0
    ensures a == b <==> d == Time(0, 0)
  {
    DeltaOfBalanced(a, b, d);
    LtIsNumeric(a, b);
    LtIsNumeric(b, a);
    if Total(a) == Total(b) { BalancedIsUnique(a, b); }
  }

  lemma {:induction false} ToNsIsTotal(t: Time)
    ensures TimespecToNs(t) == ToUint64(Total(t))
  {
    var x := ToUint64(t.sec);
    var y := ToUint64(x * NUMBER_10E9);
    var z := ToUint64(t.nsec);
    var i, j, l := t.sec / TWO64, (x * NUMBER_10E9) / TWO64, t.nsec / TWO64;
    assert x * NUMBER_10E9 == t.sec * NUMBER_10E9 - i * NUMBER_10E9 * TWO64;
    assert Total(t) == y + z + (i * NUMBER_10E9 + j + l) * TWO64;
    SameModulo(Total(t), y + z, i * NUMBER_10E9 + j + l);
  }

  // Nanoseconds survive the trip through a timespec, which is balanced.
  lemma {:induction false} NsRoundTrip(ns: uint64)
    ensures Balanced(NsToTimespec(ns)) && TimespecToNs(NsToTimespec(ns)) == ns
  {
    ToNsIsTotal(NsToTimespec(ns));
  }

  // A balanced timespec survives the trip through nanoseconds exactly when its time is
  // not negative and fits in 64 bits.
  lemma {:induction false} TimespecRoundTripIff(t: Time)
    requires Balanced(t)
    ensures NsToTimespec(TimespecToNs(t)) == t <==> 0 <= Total(t) < TWO64
  {
    ToNsIsTotal(t);
    var n := TimespecToNs(t);
    NsRoundTrip(n);
    hide TimespecToNs;
    assert Total(NsToTimespec(n)) == n;
    hide NsToTimespec, Balanced;
    if 0 <= Total(t) < TWO64 {
      BalancedIsUnique(NsToTimespec(n), t);
    }
  }

  // The difference in nanoseconds is the difference of the nanoseconds, modulo 2^64,
  // exactly when the quotient fits; so it always is for balanced times.
  lemma {:induction false} DeltaToNsIff(a: Time, b: Time, d: Time)
    requires IsDelta(d, a, b) && FitsInt64(a.nsec - b.nsec)
    ensures TimespecToNs(d) == ToUint64(TimespecToNs(a) - TimespecToNs(b))
            <==> FitsInt32(Holes(a.nsec - b.nsec))
    ensures Balanced(a) && Balanced(b) ==> FitsInt32(Holes(a.nsec - b.nsec))
  {
    ToNsIsTotal(a);
    ToNsIsTotal(b);
    ToNsIsTotal(d);
    var i, j := Total(a) / TWO64, Total(b) / TWO64;
    SameModulo(Total(a) - Total(b), TimespecToNs(a) - TimespecToNs(b), i - j);
    var lost := Lost(a.nsec - b.nsec);
    LostIsSmall(a.nsec - b.nsec);
    CongruentIff(Total(a) - Total(b), lost);
  }

  lemma {:induction false} LostIsSmall(nsec: int64)
    ensures -TWO64 < Lost(nsec) < TWO64
    ensures Lost(nsec) == 0 <==> FitsInt32(Holes(nsec))
  {
    var q := Holes(nsec);
    assert -9300000000 < q < 9300000000;
    Int32Exact(q);
  }

  lemma {:induction false} CongruentIff(x: int, d: int)
    requires -TWO64 < d < TWO64
    ensures ToUint64(x - d) == ToUint64(x) <==> d == 0
  {
    var i, j := x / TWO64, (x - d) / TWO64;
    if ToUint64(x - d) == ToUint64(x) {
      assert d == (i - j) * TWO64;
      assert i == j;
    }
  }

  // The comment above timespec_rebalance takes 13e5 ns for more than a second. What the
  // code makes of its four examples, in their order:
  lemma {:induction false} CommentExamples(r: Time, t: Time)
    requires Balanced(r) && Total(r) == Total(t) - Lost(t.nsec)
    ensures t == Time(2, -1300000) ==> r == Time(1, 998700000)
    ensures t == Time(2, -300000) ==> r == Time(1, 999700000)
    ensures t == Time(-2, -1300000) ==> r == Time(-2, -1300000)
    ensures t == Time(-2, 1300000) ==> r == Time(-1, -998700000)
  {
    if t == Time(2, -1300000) { BalancedIsUnique(r, Time(1, 998700000)); }
    if t == Time(2, -300000) { BalancedIsUnique(r, Time(1, 999700000)); }
    if t == Time(-2, -1300000) { BalancedIsUnique(r, Time(-2, -1300000)); }
    if t == Time(-2, 1300000) { BalancedIsUnique(r, Time(-1, -998700000)); }
  }
}
