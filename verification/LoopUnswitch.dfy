/**
 * The loop-unswitching test: each snippet with a loop-invariant branch inside its loop must
 * compute what its reference, with the branch hoisted out of the loop by hand, computes.
 * Java int and long arithmetic wraps; the clock is an input sequence of readings.
 */
module LoopUnswitchTest {

  const TwoTo31: int := 0x8000_0000
  const TwoTo63: int := 0x8000_0000_0000_0000

  newtype int32 = x: int | -0x8000_0000 <= x < 0x8000_0000
  newtype int64 = x: int | -0x8000_0000_0000_0000 <= x < 0x8000_0000_0000_0000

  /** The int that a mathematical integer wraps to (two's complement, 32 bits). */
  function Wrap32(x: int): (r: int)
    ensures -TwoTo31 <= r < TwoTo31
    ensures -TwoTo31 <= x < TwoTo31 ==> r == x
    ensures (x - r) % 0x1_0000_0000 == 0
  {
    (x + 0x8000_0000) % 0x1_0000_0000 - 0x8000_0000
  }

  /** The long that a mathematical integer wraps to (two's complement, 64 bits). */
  function Wrap64(x: int): (r: int)
    ensures -TwoTo63 <= r < TwoTo63
  {
    (x + 0x8000_0000_0000_0000) % 0x1_0000_0000_0000_0000 - 0x8000_0000_0000_0000
  }

  /**
   * Java's int addition: the exact sum when it fits in an int, and otherwise the int that
   * differs from it by a multiple of 2^32.
   */
  function Add32(x: int32, y: int): (r: int32)
    ensures -TwoTo31 <= x as int + y < TwoTo31 ==> r as int == x as int + y
    ensures (x as int + y - r as int) % 0x1_0000_0000 == 0
    ensures r as int == Wrap32(x as int + y)
  {
    Wrap32(x as int + y) as int32
  }

  /**
   * `sum += t` for an int `sum` and a long `t`: the sum is computed as a long and narrowed
   * back to an int.
   */
  function AddLong(sum: int32, t: int64): (r: int32)
    ensures r as int == Wrap32(sum as int + t as int)
  {
    NarrowWrap(sum as int + t as int);
    Wrap32(Wrap64(sum as int + t as int)) as int32
  }

  /** Integers that differ by a multiple of 2^32 wrap to the same int. */
  lemma Wrap32Shift(x: int, k: int)
    ensures Wrap32(x + k * 0x1_0000_0000) == Wrap32(x)
  {
  }

  /** Wrapping to a long moves a value by a multiple of 2^64. */
  lemma Wrap64Offset(x: int) returns (k: int)
    ensures Wrap64(x) == x + k * 0x1_0000_0000_0000_0000
  {
    k := -((x + 0x8000_0000_0000_0000) / 0x1_0000_0000_0000_0000);
  }

  /** Narrowing a wrapped long to an int is wrapping the exact value to an int. */
  lemma NarrowWrap(x: int)
    ensures Wrap32(Wrap64(x)) == Wrap32(x)
  {
    var k := Wrap64Offset(x);
    assert k * 0x1_0000_0000_0000_0000 == (k * 0x1_0000_0000) * 0x1_0000_0000;
    Wrap32Shift(x, k * 0x1_0000_0000);
  }

  /** Adding to a wrapped sum wraps like adding to the exact sum. */
  lemma Wrap32Add(x: int, y: int)
    ensures Wrap32(Wrap32(x) + y) == Wrap32(x + y)
  {
    var k := -((x + 0x8000_0000) / 0x1_0000_0000);
    assert Wrap32(x) == x + k * 0x1_0000_0000;
    Wrap32Shift(x + y, k);
  }

  // ---------------------------------------------------------------------------------------
  // test1Snippet and referenceSnippet1

  /** One more iteration of `sum += a` after `i` of them. */
  lemma WrapStep(i: int, a: int)
    ensures Wrap32(Wrap32(i * a) + a) == Wrap32((i + 1) * a)
  {
    Wrap32Add(i * a, a);
    assert (i + 1) * a == i * a + a;
  }

  /** What both first snippets answer: 2000 when a > 2, otherwise 1000 * a as an int. */
  function Expected1(a: int32): int
  {
    if a > 2 then 2000 else Wrap32(1000 * a as int)
  }

  /** referenceSnippet1: the test on `a` hoisted out of two loops of 1000 iterations. */
  method ReferenceSnippet1(a: int32) returns (sum: int32)
    ensures sum as int == Expected1(a)
  {
    sum := 0;
    if a > 2 {
      for i := 0 to 1000
        invariant sum as int == 2 * i
      {
        sum := Add32(sum, 2);
      }
    } else {
      for i := 0 to 1000
        invariant sum as int == Wrap32(i * a as int)
      {
        WrapStep(i, a as int);
        sum := Add32(sum, a as int);
      }
    }
  }

  /** test1Snippet: one loop of 1000 iterations that tests `a` in every iteration. */
  method Test1Snippet(a: int32) returns (sum: int32)
    ensures sum as int == Expected1(a)
  {
    sum := 0;
    for i := 0 to 1000
      invariant a > 2 ==> sum as int == 2 * i
      invariant a <= 2 ==> sum as int == Wrap32(i * a as int)
    {
      if a > 2 {
        sum := Add32(sum, 2);
      } else {
        WrapStep(i, a as int);
        sum := Add32(sum, a as int);
      }
    }
  }

  // ---------------------------------------------------------------------------------------
  // test2Snippet and referenceSnippet2

  /** The int sum of clock readings, each added as `sum += t` with a long `t`. */
  function ClockSum(readings: seq<int64>): int32
  {
    if readings == [] then 0 else AddLong(ClockSum(readings[..|readings| - 1]), readings[|readings| - 1])
  }

  function Total(readings: seq<int64>): int
  {
    if readings == [] then 0 else Total(readings[..|readings| - 1]) + readings[|readings| - 1] as int
  }

  /**
   * The int sum of the readings is their exact total wrapped to an int: the long
   * intermediate never loses anything the int would keep.
   */
  lemma {:induction false} ClockSumIsWrappedTotal(readings: seq<int64>)
    ensures ClockSum(readings) as int == Wrap32(Total(readings))
  {
    if readings != [] {
      var front := readings[..|readings| - 1];
      ClockSumIsWrappedTotal(front);
      Wrap32Add(Total(front), readings[|readings| - 1] as int);
    }
  }

  /**
   * What both second snippets answer: the sum of the 1000 clock readings for a == 0,
   * 6000 for a == 1, 5000 for a == 55 and 0 otherwise.
   */
  function Expected2(a: int32, clock: seq<int64>): int
    requires |clock| == 1000
  {
    if a == 0 then ClockSum(clock) as int
    else if a == 1 then 6000
    else if a == 55 then 5000
    else 0
  }

  /** referenceSnippet2: the switch on `a` hoisted out of four loops of 1000 iterations. */
  method ReferenceSnippet2(a: int32, clock: seq<int64>) returns (sum: int32)
    requires |clock| == 1000
    ensures sum as int == Expected2(a, clock)
  {
    sum := 0;
    if a == 0 {
      for i := 0 to 1000
        invariant sum == ClockSum(clock[..i])
      {
        assert clock[..i + 1][..i] == clock[..i];
        sum := AddLong(sum, clock[i]);
      }
      assert clock[..1000] == clock;
    } else if a == 1 {
      for i := 0 to 1000
        invariant sum as int == 6 * i
      {
        sum := Add32(sum, 1);
        sum := Add32(sum, 5);
      }
    } else if a == 55 {
      for i := 0 to 1000
        invariant sum as int == 5 * i
      {
        sum := Add32(sum, 5);
      }
    } else {
      for i := 0 to 1000
        invariant sum == 0
      {
      }
    }
  }

  /**
   * test2Snippet: one loop of 1000 iterations that switches on `a` in every iteration; case 1
   * falls through into case 55.
   */
  method Test2Snippet(a: int32, clock: seq<int64>) returns (sum: int32)
    requires |clock| == 1000
    ensures sum as int == Expected2(a, clock)
  {
    sum := 0;
    for i := 0 to 1000
      invariant a == 0 ==> sum == ClockSum(clock[..i])
      invariant a == 1 ==> sum as int == 6 * i
      invariant a == 55 ==> sum as int == 5 * i
      invariant a != 0 && a != 1 && a != 55 ==> sum == 0
    {
      if a == 0 {
        assert clock[..i + 1][..i] == clock[..i];
        sum := AddLong(sum, clock[i]);
      } else if a == 1 || a == 55 {
        if a == 1 {
          sum := Add32(sum, 1);
        }
        sum := Add32(sum, 5);
      }
    }
    assert clock[..1000] == clock;
  }
}
