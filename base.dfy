/** Small value types shared by every module: optional values (Java's nullable
    references), results of operations that can fail, and the way Java renders
    a possibly-null string when it is concatenated. */
module Base {

  /** A database identifier (Java `Long`/`long` ids); non-negative. */
  type Id = nat

  /** A Java reference that may be null. */
  datatype Option<+T> = None | Some(value: T) {
    function GetOr(default: T): T {
      match this
      case Some(v) => v
      case None => default
    }
  }

  /** The outcome of an operation that either returns a value or raises an error. */
  datatype Result<+T, +E> = Ok(value: T) | Err(error: E)

  /** A Java `String` field, which may be null. */
  type NString = Option<string>

  /** What Java's string concatenation prints for a possibly-null string.
      `FullName` below, and the mappers' `customerName` and `sellerName`
      clauses built on it, say where this text ends up. */
  function Show(s: NString): (r: string)
    ensures s.Some? ==> r == s.value
    ensures s.None? ==> r == "null"
  {
    match s
    case Some(v) => v
    case None => "null"
  }

  /** The range of a Java `int`. */
  const IntMin: int := -0x8000_0000
  const IntMax: int := 0x7FFF_FFFF

  /** Java `int` arithmetic: `x` brought into the range of an `int` by
      adding or taking away multiples of 2^32, which is what an `int`
      addition or subtraction that leaves the range wraps around to. The sum
      or difference of two `int`s is at most one period away, so those cases
      come first; `Reduced` handles the rest. */
  function Int32(x: int): (r: int)
    ensures IntMin <= r <= IntMax
    ensures IntMin <= x <= IntMax ==> r == x
  {
    if IntMin <= x <= IntMax then x
    else if IntMin <= x + 0x1_0000_0000 <= IntMax then x + 0x1_0000_0000
    else if IntMin <= x - 0x1_0000_0000 <= IntMax then x - 0x1_0000_0000
    else Reduced(x)
  }

  /** `x` moved into the range of an `int` one period of 2^32 at a time. */
  function Reduced(x: int): (r: int)
    ensures IntMin <= r <= IntMax
    decreases if x < IntMin then IntMin - x else if x > IntMax then x - IntMax else 0
  {
    if x < IntMin then Reduced(x + 0x1_0000_0000)
    else if x > IntMax then Reduced(x - 0x1_0000_0000)
    else x
  }

  /** The shortcuts of `Int32` agree with the period-by-period reduction. */
  lemma Int32Reduced(x: int)
    ensures Int32(x) == Reduced(x)
  {
    if x < IntMin && IntMin <= x + 0x1_0000_0000 <= IntMax {
      assert Reduced(x + 0x1_0000_0000) == x + 0x1_0000_0000;
    } else if x > IntMax && IntMin <= x - 0x1_0000_0000 <= IntMax {
      assert Reduced(x - 0x1_0000_0000) == x - 0x1_0000_0000;
    }
  }

  /** Values 2^32 apart wrap to the same `int`; with the range and identity
      clauses of `Int32` this fixes it as reduction modulo 2^32. */
  lemma Int32Period(x: int)
    ensures Int32(x + 0x1_0000_0000) == Int32(x) == Int32(x - 0x1_0000_0000)
  {
    Int32Reduced(x);
    Int32Reduced(x + 0x1_0000_0000);
    Int32Reduced(x - 0x1_0000_0000);
  }

  /** Adding `c` to the wrapped `x` and wrapping again is wrapping `x + c`
      once: a run of `int` additions wraps only its total. */
  lemma Int32Add(x: int, c: int)
    ensures Int32(Int32(x) + c) == Int32(x + c)
  {
    Int32Reduced(x);
    Int32Reduced(Reduced(x) + c);
    Int32Reduced(x + c);
    ReducedAdd(x, c);
  }

  /** `Int32Add` for the period-by-period reduction, by induction on the
      number of periods. */
  lemma ReducedAdd(x: int, c: int)
    ensures Reduced(Reduced(x) + c) == Reduced(x + c)
    decreases if x < IntMin then IntMin - x else if x > IntMax then x - IntMax else 0
  {
    if x < IntMin {
      ReducedAdd(x + 0x1_0000_0000, c);
    } else if x > IntMax {
      ReducedAdd(x - 0x1_0000_0000, c);
    }
  }

  /** `first + " " + last`, the display name the mappers build for a person. */
  function FullName(first: NString, last: NString): (r: string)
    ensures |r| == |Show(first)| + 1 + |Show(last)|
    ensures r[|Show(first)|] == ' '
    ensures r[..|Show(first)|] == Show(first) && r[|Show(first)| + 1..] == Show(last)
  {
    Show(first) + " " + Show(last)
  }
}
