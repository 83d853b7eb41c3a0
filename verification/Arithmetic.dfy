/** What a client is told, in numbers, when the math library computes correctly. */
module Arithmetic {
  import opened Wrappers
  import opened ErrorCodes
  import opened Calculator
  import opened Protocol
  import opened Storage
  import opened RequestHandler
  import opened Soundness
  import opened Service
  import opened Failures
  import opened Answers

  predicate Fits(x: int) {
    INT32_MIN <= x <= INT32_MAX
  }

  function Abs(x: int): nat {
    if x < 0 then -x else x
  }

  /** The quotient rounds toward zero: what remains is smaller than the divisor and has the dividend's sign. */
  predicate IsQuotient(a: int, b: int, q: int) {
    var r := a - q * b;
    Abs(r) < Abs(b) && (a >= 0 ==> r >= 0) && (a <= 0 ==> r <= 0)
  }

  function Power(base: int, exponent: nat): int {
    if exponent == 0 then 1 else base * Power(base, exponent - 1)
  }

  function FactorialOf(n: nat): nat {
    if n == 0 then 1 else n * FactorialOf(n - 1)
  }

  // What the routines must compute. Arguments the checker rejects are left open.

  predicate Gives(x: int, r: MathReturn) {
    if Fits(x) then r.status.MathNone? && r.result == x else r.status.MathOverflow?
  }

  predicate Divides(a: Int32, b: Int32, r: MathReturn) {
    if b == 0 then r.status.MathDivisionByZero?
    else if a == INT32_MIN && b == -1 then r.status.MathOverflow?
    else r.status.MathNone? && IsQuotient(a, b, r.result)
  }

  predicate GivesFactorial(n: Int32, r: MathReturn) {
    && (0 <= n <= 12 ==> r.status.MathNone? && r.result == FactorialOf(n))
    && (n > 12 ==> r.status.MathOverflow?)
  }

  /** A math library that computes each operation, and overflows only where no 32-bit result exists. */
  ghost predicate Arithmetical(math: MathLibrary) {
    && (forall a: Int32, b: Int32 :: Gives(a + b, math.addition(a, b)))
    && (forall a: Int32, b: Int32 :: Gives(a - b, math.subtraction(a, b)))
    && (forall a: Int32, b: Int32 :: Gives(a * b, math.multiplication(a, b)))
    && (forall a: Int32, b: Int32 :: Divides(a, b, math.division(a, b)))
    && (forall a: Int32, b: Int32 :: b >= 0 ==> Gives(Power(a, b), math.exponentiation(a, b)))
    && (forall a: Int32 :: GivesFactorial(a, math.factorial(a)))
  }

  // Such a library exists: exact integer arithmetic that reports what does not fit 32 bits.

  function Bounded(x: int): MathReturn {
    if Fits(x) then MathReturn(MathNone, x) else MathReturn(MathOverflow, 0)
  }

  /** Division as C++ divides, by Euclidean division of the magnitude of the dividend. */
  function Truncated(a: int, b: int): int
    requires b != 0
  {
    if a >= 0 then a / b else -((-a) / b)
  }

  function ExactAddition(a: Int32, b: Int32): MathReturn {
    Bounded(a + b)
  }

  function ExactSubtraction(a: Int32, b: Int32): MathReturn {
    Bounded(a - b)
  }

  function ExactMultiplication(a: Int32, b: Int32): MathReturn {
    Bounded(a * b)
  }

  function ExactDivision(a: Int32, b: Int32): MathReturn {
    if b == 0 then MathReturn(MathDivisionByZero, 0) else Bounded(Truncated(a, b))
  }

  function ExactPower(a: Int32, b: Int32): MathReturn {
    if b < 0 then MathReturn(MathInvalidArguments, 0) else Bounded(Power(a, b))
  }

  function ExactFactorial(n: Int32): MathReturn {
    if n < 0 then MathReturn(MathInvalidArguments, 0) else Bounded(FactorialOf(n))
  }

  const EXACT_MATH: MathLibrary := MathLibrary(
    ExactAddition, ExactSubtraction, ExactMultiplication, ExactDivision, ExactPower, ExactFactorial)

  lemma MagnitudeOfProduct(x: int, y: int)
    ensures Abs(x * y) == Abs(x) * Abs(y)
  {
    assert (-x) * y == -(x * y) && x * (-y) == -(x * y) && (-x) * (-y) == x * y;
    assert x >= 0 && y >= 0 ==> x * y >= 0;
    assert x < 0 && y < 0 ==> (-x) * (-y) >= 0;
    assert x < 0 && y >= 0 ==> (-x) * y >= 0;
    assert x >= 0 && y < 0 ==> x * (-y) >= 0;
  }

  /** A factor of magnitude at least `k` makes a product at least `k` times as large. */
  lemma ProductGrows(k: nat, x: int, y: int)
    requires Abs(x) >= k
    ensures Abs(x * y) >= k * Abs(y)
  {
    MagnitudeOfProduct(x, y);
    assert Abs(x) * Abs(y) == k * Abs(y) + (Abs(x) - k) * Abs(y);
  }

  lemma QuotientIsUnique(a: int, b: int, p: int, q: int)
    requires IsQuotient(a, b, p) && IsQuotient(a, b, q)
    ensures p == q
  {
    if p != q {
      assert (a - q * b) - (a - p * b) == (p - q) * b;
      ProductGrows(1, p - q, b);
    }
  }

  lemma TruncatedIsAQuotient(a: int, b: int)
    requires b != 0
    ensures IsQuotient(a, b, Truncated(a, b))
  {
    var n := Abs(a);
    assert n == (n / b) * b + n % b;
    assert a < 0 ==> Truncated(a, b) * b == -((n / b) * b);
  }

  /** Truncating division gives the quotient, and nothing else is one. */
  lemma TruncatedIsTheQuotient(a: int, b: int, q: int)
    requires b != 0
    ensures IsQuotient(a, b, q) <==> q == Truncated(a, b)
  {
    TruncatedIsAQuotient(a, b);
    if IsQuotient(a, b, q) {
      QuotientIsUnique(a, b, q, Truncated(a, b));
    }
  }

  lemma QuotientIsNoLarger(a: int, b: int, q: int)
    requires b != 0 && IsQuotient(a, b, q)
    ensures Abs(q) <= Abs(a) && (Abs(b) >= 2 ==> 2 * Abs(q) <= Abs(a))
  {
    if q != 0 {
      ProductGrows(1, q, b);
      assert Abs(q * b) <= Abs(a);
      ProductGrows(if Abs(b) >= 2 then 2 else 1, b, q);
    }
  }

  /** The only division of 32-bit numbers whose quotient does not fit. */
  lemma QuotientFitsExactly(a: Int32, b: Int32, q: int)
    requires b != 0 && IsQuotient(a, b, q)
    ensures Fits(q) <==> !(a == INT32_MIN && b == -1)
  {
    QuotientIsNoLarger(a, b, q);
    if b == 1 || b == -1 {
      assert q * b == a;
    }
  }

  lemma {:induction false} FactorialGrows(m: nat, n: nat)
    requires m <= n
    ensures 1 <= FactorialOf(m) <= FactorialOf(n)
    decreases n
  {
    if m < n {
      FactorialGrows(m, n - 1);
      assert n * FactorialOf(n - 1) >= FactorialOf(n - 1);
    } else if n > 0 {
      FactorialGrows(m - 1, n - 1);
    }
  }

  /** Of all factorials, those up to 12 fit. */
  lemma FactorialFitsExactly(n: nat)
    ensures Fits(FactorialOf(n)) <==> n <= 12
  {
    assert FactorialOf(4) == 24;
    assert FactorialOf(8) == 40320;
    assert FactorialOf(12) == 479001600;
    assert FactorialOf(13) == 6227020800;
    if n <= 12 {
      FactorialGrows(n, 12);
    } else {
      FactorialGrows(13, n);
    }
  }

  lemma ExactDivisionDivides(a: Int32, b: Int32)
    ensures Divides(a, b, ExactDivision(a, b))
  {
    if b != 0 {
      TruncatedIsAQuotient(a, b);
      QuotientFitsExactly(a, b, Truncated(a, b));
    }
  }

  lemma ExactFactorialIsRight(n: Int32)
    ensures GivesFactorial(n, ExactFactorial(n))
  {
    if n >= 0 {
      FactorialFitsExactly(n);
    }
  }

  lemma ExactMathIsLinear()
    ensures forall a: Int32, b: Int32 :: Gives(a + b, EXACT_MATH.addition(a, b))
    ensures forall a: Int32, b: Int32 :: Gives(a - b, EXACT_MATH.subtraction(a, b))
  {
  }

  lemma ExactMathMultiplies()
    ensures forall a: Int32, b: Int32 :: Gives(a * b, EXACT_MATH.multiplication(a, b))
    ensures forall a: Int32, b: Int32 :: b >= 0 ==> Gives(Power(a, b), EXACT_MATH.exponentiation(a, b))
  {
  }

  lemma ExactMathDivides()
    ensures forall a: Int32, b: Int32 :: Divides(a, b, EXACT_MATH.division(a, b))
    ensures forall n: Int32 :: GivesFactorial(n, EXACT_MATH.factorial(n))
  {
    forall a: Int32, b: Int32 ensures Divides(a, b, EXACT_MATH.division(a, b)) {
      ExactDivisionDivides(a, b);
    }
    forall n: Int32 ensures GivesFactorial(n, EXACT_MATH.factorial(n)) {
      ExactFactorialIsRight(n);
    }
  }

  /** The specification of the library can be met. */
  lemma ExactMathIsArithmetical()
    ensures Arithmetical(EXACT_MATH)
  {
    ExactMathIsLinear();
    ExactMathMultiplies();
    ExactMathDivides();
  }

  lemma {:induction false} PowerDoubles(base: int, exponent: nat)
    requires Abs(base) >= 2
    ensures Abs(Power(base, exponent)) >= 1
    ensures Abs(Power(base, exponent + 1)) >= 2 * Abs(Power(base, exponent))
  {
    if exponent > 0 {
      PowerDoubles(base, exponent - 1);
    }
    ProductGrows(2, base, Power(base, exponent));
  }

  lemma {:induction false} OverflowStays(base: int, m: nat, n: nat)
    requires Abs(base) >= 2 && m <= n && !Fits(Power(base, m))
    ensures !Fits(Power(base, n))
    decreases n
  {
    if m < n {
      OverflowStays(base, m, n - 1);
      PowerDoubles(base, n - 1);
    }
  }

  function TwoTo(n: nat): nat {
    if n == 0 then 1 else 2 * TwoTo(n - 1)
  }

  lemma {:induction false} PowerIsLarge(base: int, n: nat)
    requires Abs(base) >= 2
    ensures Abs(Power(base, n)) >= TwoTo(n)
  {
    if n > 0 {
      PowerIsLarge(base, n - 1);
      PowerDoubles(base, n - 1);
    }
  }

  lemma NoPowerBeyond(base: int)
    requires Abs(base) >= 2
    ensures !Fits(Power(base, 32))
  {
    PowerIsLarge(base, 32);
    assert TwoTo(8) == 256 && TwoTo(16) == 65536 && TwoTo(24) == 16777216 && TwoTo(32) == 0x1_0000_0000;
  }

  lemma {:induction false} SmallPowersFit(base: int, exponent: nat)
    requires Abs(base) <= 1
    ensures Abs(Power(base, exponent)) <= 1
  {
    if exponent > 0 {
      SmallPowersFit(base, exponent - 1);
    }
  }

  /** All powers of -1, 0 and 1 fit; those of other numbers up to an exponent of at most 31, and no further. */
  lemma PowerFitsExactly(base: Int32) returns (last: Option<nat>)
    ensures last.None? <==> Abs(base) <= 1
    ensures last.None? ==> forall n: nat :: Fits(Power(base, n))
    ensures last.Some? ==> 1 <= last.value <= 31 && forall n: nat :: Fits(Power(base, n)) <==> n <= last.value
  {
    if Abs(base) <= 1 {
      last := None;
      forall n: nat ensures Fits(Power(base, n)) {
        SmallPowersFit(base, n);
      }
    } else {
      var e := LastPower(base);
      last := Some(e);
    }
  }

  lemma LastPower(base: Int32) returns (last: nat)
    requires Abs(base) >= 2
    ensures 1 <= last <= 31 && forall n: nat :: Fits(Power(base, n)) <==> n <= last
  {
    NoPowerBeyond(base);
    last := 1;
    while Fits(Power(base, last + 1))
      invariant 1 <= last <= 31 && forall n: nat | n <= last :: Fits(Power(base, n))
      decreases 31 - last
    {
      last := last + 1;
    }
    forall n: nat | n > last ensures !Fits(Power(base, n)) {
      OverflowStays(base, last + 1, n);
    }
  }

  /** All the cache asks of the library follows. */
  lemma ArithmeticalCommutes(math: MathLibrary)
    requires Arithmetical(math)
    ensures Commutes(math)
  {
    forall a: Int32, b: Int32
      ensures Outcome(math.addition(a, b)) == Outcome(math.addition(b, a))
      ensures Outcome(math.multiplication(a, b)) == Outcome(math.multiplication(b, a))
    {
      assert a * b == b * a && a + b == b + a;
      assert Gives(a + b, math.addition(a, b)) && Gives(b + a, math.addition(b, a));
      assert Gives(a * b, math.multiplication(a, b)) && Gives(b * a, math.multiplication(b, a));
    }
  }

  // The client's view.

  predicate IsValue(response: Response, v: int) {
    response.Response? && response.status == OK && response.value.Some? && response.value.value == v
  }

  predicate IsError(response: Response, status: Status) {
    Agrees(response, Failure(status))
  }

  predicate Says(response: Response, x: int) {
    if Fits(x) then IsValue(response, x) else IsError(response, NUMERIC_OVERFLOW)
  }

  /** The right answer to an operation on two numbers. */
  predicate RightFor(operation: Operation, a: Int32, b: Int32, response: Response) {
    match operation
    case UNKNOWN => IsError(response, INVALID_OPERATION)
    case ADDITION => Says(response, a + b)
    case SUBTRACTION => Says(response, a - b)
    case MULTIPLICATION => Says(response, a * b)
    case DIVISION =>
      if b == 0 then IsError(response, Status.DIVISION_BY_ZERO)
      else if a == INT32_MIN && b == -1 then IsError(response, NUMERIC_OVERFLOW)
      else response.Response? && response.status == OK && response.value.Some? && IsQuotient(a, b, response.value.value)
    case EXPONENTIATION => if b < 0 then IsError(response, INVALID_OPERANDS) else Says(response, Power(a, b))
    case FACTORIAL =>
      if a < 0 then IsError(response, FACTORIAL_OF_NEGATIVE_NUMBER)
      else if a > 12 then IsError(response, NUMERIC_OVERFLOW)
      else IsValue(response, FactorialOf(a))
  }

  /** The right answer to any request; operands after the second are ignored. */
  predicate Right(request: Request, response: Response) {
    var operands := request.operands;
    if request.operation.UNKNOWN? then IsError(response, INVALID_OPERATION)
    else if exists i :: 0 <= i < 2 && i < |operands| && !FitsInt(operands[i]) then IsError(response, OPERAND_OUT_OF_RANGE)
    else if |operands| < (if request.operation.FACTORIAL? then 1 else 2) then IsError(response, OPERANDS_COUNT_MISMATCH)
    else RightFor(request.operation, operands[0], if |operands| > 1 then operands[1] else 0, response)
  }

  lemma RejectionsAreReported()
    ensures MapInternalError(ERROR_NEGATIVE_FACTORIAL) == FACTORIAL_OF_NEGATIVE_NUMBER
    ensures MapInternalError(ERROR_NEGATIVE_POWER) == INVALID_OPERANDS
    ensures MapInternalError(ERROR_OVERFLOW) == NUMERIC_OVERFLOW
    ensures MapInternalError(ERROR_MISSING_FIRST_NUMBER) == OPERANDS_COUNT_MISMATCH
    ensures MapInternalError(ERROR_MISSING_SECOND_NUMBER) == OPERANDS_COUNT_MISMATCH
    ensures MapInternalError(ERROR_DIVISION_BY_ZERO) == Status.DIVISION_BY_ZERO
  {
  }

  lemma EvaluateIsRight(math: MathLibrary, operation: Operation, a: Int32, b: Int32)
    requires Arithmetical(math) && !operation.UNKNOWN?
    requires (operation.FACTORIAL? ==> a >= 0) && (operation.EXPONENTIATION? ==> b >= 0)
    ensures RightFor(operation, a, b, Reported(Evaluate(math, ToInternalOperation(operation).value, a, b)))
  {
    RejectionsAreReported();
    match operation {
      case ADDITION => assert Gives(a + b, math.addition(a, b));
      case SUBTRACTION => assert Gives(a - b, math.subtraction(a, b));
      case MULTIPLICATION => assert Gives(a * b, math.multiplication(a, b));
      case DIVISION => assert Divides(a, b, math.division(a, b));
      case EXPONENTIATION => assert Gives(Power(a, b), math.exponentiation(a, b));
      case FACTORIAL => assert GivesFactorial(a, math.factorial(a));
    }
  }

  lemma DirectIsRight(math: MathLibrary, request: Request)
    requires Arithmetical(math)
    ensures Right(request, Direct(math, request))
  {
    RejectionsAreReported();
    if Accepted(request) {
      var d := ToCalculatorData(request).value;
      EvaluateIsRight(math, request.operation, d.first, d.second);
    }
  }

  /**
   * Over any math library that computes correctly, in every run of the service, an answer is right
   * unless a save under the request's own key has failed.
   */
  lemma ServiceIsRight(math: MathLibrary, faults: Faults, s: System, i: nat)
    requires Arithmetical(math) && Reachable(math, faults, s)
    requires i < |s.answered| && !Unposed(s.answered[i].request)
    requires !MayFail(Failed(s), s.answered[i].request)
    ensures Right(s.answered[i].request, s.answered[i].response)
  {
    ArithmeticalCommutes(math);
    ConcurrentTransparency(math, faults, s, i);
    DirectIsRight(math, s.answered[i].request);
  }
}
