/** Option and Result wrappers, the exceptions the modelled Java code raises,
    and Java's 32-bit int arithmetic. */
module Common {

  datatype Option<+T> = None | Some(value: T) {
    function GetOr(default: T): T {
      match this
      case Some(v) => v
      case None => default
    }
  }

  datatype Result<+R, +E> = Success(value: R) | Failure(error: E)

  /** The Java exceptions that the modelled code can throw. */
  datatype Error =
    | InternalError          // java.lang.InternalError: unknown path segment type
    | NullPointer(what: string)   // java.lang.NullPointerException
    | IllegalArgument        // java.lang.IllegalArgumentException (BufferedImage of size <= 0)

  const INT_MIN: int := -0x8000_0000
  const INT_MAX: int := 0x7fff_ffff

  predicate IsInt32(a: int) {
    INT_MIN <= a <= INT_MAX
  }

  /** Java's int addition: the mathematical sum wrapped into 32 bits. */
  function Wrap32(a: int): (r: int)
    ensures IsInt32(r)
    ensures (r - a) % 0x1_0000_0000 == 0
    ensures IsInt32(a) ==> r == a
  {
    (a - INT_MIN) % 0x1_0000_0000 + INT_MIN
  }

  function Max(a: real, b: real): real { if a >= b then a else b }
  function Min(a: real, b: real): real { if a <= b then a else b }
  function Abs(a: real): real { if a < 0.0 then -a else a }

  /** Math.ceil for reals, as an int. */
  function Ceil(a: real): (r: int)
    ensures r as real >= a && (r - 1) as real < a
  {
    -((-a).Floor)
  }
}
