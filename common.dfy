/** Shared vocabulary: optional values, results carrying the exception the
    Python code would raise, bytes, and Python 2 integer division. */
module Common {

  datatype Option<+T> = None | Some(value: T)

  /** The exceptions the modelled code can raise. */
  datatype Error =
    | ZeroDivision        // ZeroDivisionError
    | IndexError          // pop from an empty list, index out of range
    | ValueError          // chr() argument out of range, min() of an empty list
    | BlockColorFailed    // "Failed to block color cpu"
    | TooManyPages        // "Too many pages"
    | WssBelowPage        // "Cannot have working set smaller than a page"
    | WssAboveCache       // "WSS larger than the cache!"

  datatype Result<+T> = Ok(value: T) | Err(error: Error)

  /** Which reading of a defective line to model: AsWritten follows the code
      line for line, Corrected repairs the defects listed under Findings. */
  datatype Policy = AsWritten | Corrected

  newtype byte = x: int | 0 <= x < 256

  /** Python 2 `a / b` on integers: floor division (Dafny's `/` is Euclidean). */
  function PyDiv(a: int, b: int): (q: int)
    requires b != 0
    ensures b > 0 ==> q * b <= a < q * b + b
    ensures b < 0 ==> q * b >= a > q * b + b
  {
    if b > 0 then a / b else (-a) / (-b)
  }

  function Min(a: int, b: int): int { if a <= b then a else b }
  function Max(a: int, b: int): int { if a >= b then a else b }

  /** `sum(xs)` over reals. */
  function Sum(xs: seq<real>): real
  {
    if xs == [] then 0.0 else Sum(xs[..|xs| - 1]) + xs[|xs| - 1]
  }

  /** Python slice `xs[:k]` for `k >= 0`: clamps at the end of the list. */
  function Take<T>(xs: seq<T>, k: nat): (r: seq<T>)
    ensures |r| == Min(k, |xs|)
    ensures forall i :: 0 <= i < |r| ==> r[i] == xs[i]
  {
    if k <= |xs| then xs[..k] else xs
  }

  /** Decimal digits of `n`, as `"%d" % n` writes them. */
  function Decimal(n: nat): (s: string)
    ensures |s| >= 1
    ensures forall i :: 0 <= i < |s| ==> '0' <= s[i] <= '9'
  {
    var d := [(('0' as int) + n % 10) as char];
    if n < 10 then d else Decimal(n / 10) + d
  }

  lemma Fraction(a: real, b: real)
    requires 0.0 <= a <= b && b != 0.0
    ensures 0.0 <= a / b <= 1.0
  {
    DivMono(a, b, b);
    assert b / b == 1.0;
  }

  lemma DivMono(a: real, b: real, c: real)
    requires a <= b && c > 0.0
    ensures a / c <= b / c
  {
  }

  lemma ScaleDown(x: real, r: real)
    requires 0.0 <= x && 0.0 <= r <= 1.0
    ensures 0.0 <= x * r <= x
  {
  }
}
