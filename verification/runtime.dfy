/** The parts of Go's semantics the benchmark code leans on: bytes and byte
    strings, fixed-width integer conversions, truncating division, the ways a
    Go program stops, and math/rand, which the model replaces by an oracle. */
module Runtime {
  import opened Arith

  /** A Go byte. It is written as a character below 256 so that the string
      literals of the source can be used unchanged. */
  type byte = c: char | c as int < 256

  const TWO_63: int := 0x8000_0000_0000_0000
  const TWO_64: int := 0x1_0000_0000_0000_0000

  type uint64 = x: int | 0 <= x < TWO_64
  type int64 = x: int | -TWO_63 <= x < TWO_63

  /** time.Second, in nanoseconds (a time.Duration counts nanoseconds). */
  const Second: nat := 1_000_000_000

  /** How a step of a Go program ends: normally with a value, through
      log.Fatal (the process exits), or through a run-time panic. */
  datatype Outcome<T> = Ok(value: T) | Fatal(msg: string) | Panic(msg: string)
  {
    predicate IsFailure() {
      !Ok?
    }

    function PropagateFailure<U>(): Outcome<U>
      requires IsFailure()
    {
      match this
      case Fatal(m) => Fatal(m)
      case Panic(m) => Panic(m)
    }

    function Extract(): T
      requires Ok?
    {
      value
    }
  }

  function Abs(x: int): nat {
    if x < 0 then -x else x
  }

  /** Go's integer division `a / b`, which truncates toward zero (Dafny's
      `/` is Euclidean). QuotIsGoDivision states the definition from the Go
      specification that this meets. */
  function Quot(a: int, b: int): int
    requires b != 0
  {
    if (a >= 0) == (b > 0) then Abs(a) / Abs(b) else -(Abs(a) / Abs(b))
  }

  /** Go's remainder `a % b`. */
  function Rem(a: int, b: int): int
    requires b != 0
  {
    a - Quot(a, b) * b
  }

  /** The Go specification's definition: a == q*b + r with |r| < |b|, and r
      is zero or carries the sign of a. */
  lemma QuotIsGoDivision(a: int, b: int)
    requires b != 0
    ensures Rem(a, b) == a - Quot(a, b) * b
    ensures Abs(Rem(a, b)) < Abs(b)
    ensures a >= 0 ==> Rem(a, b) >= 0
    ensures a <= 0 ==> Rem(a, b) <= 0
  {
    var x: nat := Abs(a);
    var y: nat := Abs(b);
    DivMod(x, y);
    MulSigns(x / y, y);
  }

  /** On a non-negative dividend and a positive divisor Go's and Dafny's
      division and remainder coincide. */
  lemma QuotOfNatural(a: nat, b: int)
    requires b > 0
    ensures Quot(a, b) == a / b && Rem(a, b) == a % b
    ensures Quot(a, b) >= 0
  {
    DivMod(a, b);
    DivNonneg(a, b);
  }

  /** Go's remainder of a non-negative dividend ignores the divisor's
      sign. */
  lemma RemOfNatural(a: nat, b: int)
    requires b != 0
    ensures Rem(a, b) == a % Abs(b)
  {
    if b > 0 {
      QuotOfNatural(a, b);
    } else {
      var q := a / Abs(b);
      MulSigns(q, Abs(b));
      assert Quot(a, b) * b == q * Abs(b);
    }
  }

  /** Truncating division never grows the magnitude. */
  lemma QuotShrinks(a: int, b: int)
    requires b != 0
    ensures Abs(Quot(a, b)) <= Abs(a)
  {
    var q := Abs(a) / Abs(b);
    DivMod(Abs(a), Abs(b));
    MulMono(1, Abs(b), q);
  }

  /** The Go conversion uint64(x) of a signed 64-bit value: two's complement
      reinterpretation, so a negative value becomes x + 2^64. */
  function ToUint64(x: int64): (r: uint64)
    ensures x >= 0 ==> r == x
    ensures x < 0 ==> r == x + TWO_64
  {
    if x >= 0 then x else x + TWO_64
  }

  /** x++ on a uint64: the largest value wraps to 0. */
  function Succ64(x: uint64): (y: uint64)
    ensures y == (x + 1) % TWO_64
  {
    if x == TWO_64 - 1 then 0 else x + 1
  }

  /** Wrap-around of an arbitrary integer into int64, as Go's signed
      multiplication does on overflow. */
  function WrapInt64(x: int): (r: int64)
    ensures (r - x) % TWO_64 == 0
    ensures -TWO_63 <= x < TWO_63 ==> r == x
  {
    (x + TWO_63) % TWO_64 - TWO_63
  }

  /** A *rand.Rand: an oracle stream of draws and the position of the next
      one. Each call of the generator consumes one draw; nothing is claimed
      about the distribution of the values. */
  datatype Rand = Rand(stream: nat -> nat, pos: nat)
  {
    function Next(): Rand {
      Rand(stream, pos + 1)
    }

    function Draw(): nat {
      stream(pos)
    }
  }

  /** rand.Int31n(n) and rand.Int63n(n): a value in [0, n). The library
      panics for n <= 0, which is what the requires clause records. */
  function Intn(r: Rand, n: int): (res: (nat, Rand))
    requires n > 0
    ensures res.0 < n
    ensures res.1.stream == r.stream && res.1.pos == r.pos + 1
  {
    (r.Draw() % n, r.Next())
  }

  /** rand.Int(): a non-negative value of unconstrained size. */
  function Int(r: Rand): (res: (nat, Rand))
    ensures res.1.stream == r.stream && res.1.pos == r.pos + 1
  {
    (r.Draw(), r.Next())
  }

  /** rand.Float64(): the draw is consumed; floating point is not modelled. */
  function Float64(r: Rand): (r': Rand)
    ensures r'.stream == r.stream && r'.pos == r.pos + 1
  {
    r.Next()
  }
}
