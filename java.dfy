/** The small part of Java's semantics that the order and join code relies on:
    32-bit `int` arithmetic, null references, exceptions, and the argument of
    `equals(Object)`. */
module Java {

  const INT_MIN: int := -0x8000_0000
  const INT_MAX: int := 0x7fff_ffff
  const INT_RANGE: int := 0x1_0000_0000

  /** Java's `int`. */
  type Int32 = x: int | -0x8000_0000 <= x < 0x8000_0000

  /** Two's-complement wrap-around of an exact result into `int`, as Java's
      `+`, `*` and `IntStream.sum` do on overflow. */
  function Wrap(x: int): (r: Int32)
    ensures INT_MIN <= x <= INT_MAX ==> r == x
    ensures (x - r) % INT_RANGE == 0
  {
    (x + 0x8000_0000) % INT_RANGE - 0x8000_0000
  }

  /** Wrapping an intermediate result does not change a wrapped sum. */
  lemma WrapAddLeft(a: int, b: int)
    ensures Wrap(Wrap(a) + b) == Wrap(a + b)
  {
  }

  /** The exact sum of a sequence of integers. */
  function Sum(xs: seq<int>): int
  {
    if xs == [] then 0 else Sum(xs[..|xs| - 1]) + xs[|xs| - 1]
  }

  /** `IntStream.sum()`: a left fold of `int` additions, each of which wraps. */
  function IntStreamSum(xs: seq<Int32>): Int32
  {
    if xs == [] then 0 else Wrap(IntStreamSum(xs[..|xs| - 1]) + xs[|xs| - 1])
  }

  /** The stream sum is the exact sum wrapped once, at the end. */
  lemma {:induction false} IntStreamSumIsWrappedSum(xs: seq<Int32>)
    ensures IntStreamSum(xs) == Wrap(Sum(xs))
  {
    if xs != [] {
      var init, last := xs[..|xs| - 1], xs[|xs| - 1];
      IntStreamSumIsWrappedSum(init);
      WrapAddLeft(Sum(init), last);
    }
  }

  /** Without overflow the stream sum is the exact sum. */
  lemma IntStreamSumExact(xs: seq<Int32>)
    requires INT_MIN <= Sum(xs) <= INT_MAX
    ensures IntStreamSum(xs) == Sum(xs)
  {
    IntStreamSumIsWrappedSum(xs);
  }

  /** A Java reference that may be null: `None` is `null`. */
  datatype Option<+T> = None | Some(value: T)

  /** How a `void` method ends: it returns normally or throws. */
  datatype Outcome<+E> = Pass | Fail(error: E)

  /** How a value-returning method ends: it returns a value or throws. */
  datatype Result<+T, +E> = Success(value: T) | Failure(error: E)

  /** The exceptions the order and user code throws, with their messages. */
  datatype Exception =
    | IllegalArgumentException(message: string)
    | IllegalStateException(message: string)
    | NullPointerException
      /** `new Exception()`: no message. */
    | PlainException

  /** The argument of `equals(Object o)`: null, an instance of the receiver's
      own class, or an instance of some other class. */
  datatype ObjectRef<+T> = Null | Instance(value: T) | OtherClass
}
