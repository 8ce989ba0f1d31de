/**
 * Shared vocabulary: optional values, results with an error message, and the
 * power-of-two arithmetic the bracket sizes are built from.
 */
module Common {

  datatype Option<T> = None | Some(value: T)

  datatype Result<T> = Ok(value: T) | Err(msg: string)

  /** The category of a message flashed or returned to the user. */
  datatype Kind = Success | Error | Info | Warning

  /** A {'message': ..., 'type': ...} reply of the services. */
  datatype Reply = Reply(kind: Kind, message: string)

  /** The two seats of a match. */
  datatype Side = Player1 | Player2

  /** (x, y) indexes a cell of a grid of rows. */
  predicate InGrid<T>(rows: seq<seq<T>>, x: int, y: int) {
    0 <= x < |rows| && 0 <= y < |rows[x]|
  }

  /** Cell (x, y) comes before (cx, cy) in row order, then column order. */
  predicate CellBefore(x: int, y: int, cx: int, cy: int) {
    x < cx || (x == cx && y < cy)
  }

  /** Concatenation is associative; calling it on function results keeps the proofs that need it cheap. */
  lemma ConcatAssoc<T>(h: seq<T>, x: seq<T>, y: seq<T>)
    ensures h + (x + y) == (h + x) + y
  {
  }

  function Min(a: int, b: int): int {
    if a <= b then a else b
  }

  /** 2^k. */
  function Pow2(k: nat): (r: nat)
    ensures r >= 1
  {
    if k == 0 then 1 else 2 * Pow2(k - 1)
  }

  /** The number of binary digits of x, as Python's int.bit_length(). */
  function BitLength(x: nat): (r: nat)
    ensures x == 0 <==> r == 0
  {
    if x == 0 then 0 else 1 + BitLength(x / 2)
  }

  /** BitLength(x) is the exponent of the smallest power of two above x. */
  lemma {:induction false} BitLengthBounds(x: nat)
    ensures x < Pow2(BitLength(x))
    ensures x >= 1 ==> Pow2(BitLength(x) - 1) <= x
  {
    if x > 0 {
      BitLengthBounds(x / 2);
    }
  }

  lemma {:induction false} Pow2Add(a: nat, b: nat)
    ensures Pow2(a + b) == Pow2(a) * Pow2(b)
  {
    if a > 0 {
      Pow2Add(a - 1, b);
    }
  }

  /** Dividing a power of two by a smaller one leaves the power of the difference. */
  lemma Pow2Div(n: nat, k: nat)
    requires k <= n
    ensures Pow2(n) / Pow2(k) == Pow2(n - k)
  {
    Pow2Add(n - k, k);
    MulDiv(Pow2(n - k), Pow2(k));
  }

  /** Dividing by a power of two that exceeds the dividend gives zero. */
  lemma Pow2DivBeyond(n: nat, k: nat)
    requires n < k
    ensures Pow2(n) / Pow2(k) == 0
  {
    Pow2Mono(n, k);
    DivUnique(Pow2(n), Pow2(k), 0);
  }

  lemma {:induction false} Pow2Mono(a: nat, b: nat)
    requires a < b
    ensures Pow2(a) < Pow2(b)
  {
    if b > a + 1 {
      Pow2Mono(a, b - 1);
    }
  }

  lemma MulDiv(x: nat, y: nat)
    requires y > 0
    ensures (x * y) / y == x
  {
    DivUnique(x * y, y, x);
  }

  /** Floor division is determined by the bracketing multiples of the divisor. */
  lemma DivUnique(a: int, d: int, q: int)
    requires d > 0 && q * d <= a < q * d + d
    ensures a / d == q
  {
    var q' := a / d;
    assert a == q' * d + a % d;
    if q' < q {
      assert (q - q') * d >= 1 * d by { MulMono(q - q', 1, d); }
      assert false;
    } else if q' > q {
      assert (q' - q) * d >= 1 * d by { MulMono(q' - q, 1, d); }
      assert false;
    }
  }

  lemma DivNonneg(a: int, d: int)
    requires a >= 0 && d > 0
    ensures a / d >= 0
  {
  }

  lemma MulMono(a: int, b: int, d: int)
    requires a >= b && d > 0
    ensures a * d >= b * d
  {
  }

  /** The elements of s back to front, as Python's reversed(). */
  function Reversed<T>(s: seq<T>): (r: seq<T>)
    ensures |r| == |s|
    ensures forall j :: 0 <= j < |s| ==> r[j] == s[|s| - 1 - j]
  {
    if s == [] then [] else Reversed(s[1..]) + [s[0]]
  }
}
