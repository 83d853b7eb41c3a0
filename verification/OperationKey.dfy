/** Cache keys: the printed form of a stored question (storage/src/operation-key.cpp). */
module OperationKey {
  import opened Wrappers
  import opened Decimal
  import opened ErrorCodes

  /** The arguments of a storage lookup. */
  datatype Query = Query(first: Int32, second: Option<Int32>, operation: string)

  predicate IsCommutative(operation: string) {
    operation == "add" || operation == "+" || operation == "mul" || operation == "*"
  }

  predicate IsFactorial(operation: string) {
    operation == "fact" || operation == "factorial" || operation == "!"
  }

  function SymbolFor(operation: string): Result<string, Int32> {
    if operation == "add" || operation == "+" then Ok("+")
    else if operation == "sub" || operation == "-" then Ok("-")
    else if operation == "mul" || operation == "*" then Ok("*")
    else if operation == "div" || operation == "/" then Ok("/")
    else if operation == "pow" || operation == "^" then Ok("^")
    else if IsFactorial(operation) then Ok("fact")
    else Err(ERROR_INVALID_OPERATION)
  }

  function Make(q: Query): Result<string, Int32> {
    if IsFactorial(q.operation) then Ok("fact(" + ToString(q.first) + ")")
    else if q.second.None? then Err(ERROR_MISSING_SECOND_NUMBER)
    else
      var swapped := IsCommutative(q.operation) && q.first > q.second.value;
      var left := if swapped then q.second.value else q.first;
      var right := if swapped then q.first else q.second.value;
      match SymbolFor(q.operation)
      case Err(e) => Err(e)
      case Ok(symbol) => Ok(ToString(left) + symbol + ToString(right))
  }

  /**
   * Two questions are the same when they ask for the same operation on the same operands, where
   * addition and multiplication do not order their operands and factorial has only one.
   */
  predicate SameQuestion(a: Query, b: Query) {
    && SymbolFor(a.operation) == SymbolFor(b.operation)
    && if IsFactorial(a.operation) then a.first == b.first
       else
         || (a.first == b.first && a.second == b.second)
         || (IsCommutative(a.operation) && a.second == Some(b.first) && b.second == Some(a.first))
  }

  /** The text of a binary key splits in one way only: at its first non-digit after position 0. */
  lemma UniqueSplit(l: int, c: char, r: int, l': int, c': char, r': int)
    requires !IsDigit(c) && !IsDigit(c')
    requires ToString(l) + [c] + ToString(r) == ToString(l') + [c'] + ToString(r')
    ensures l == l' && c == c' && r == r'
  {
    var s, s' := ToString(l) + [c] + ToString(r), ToString(l') + [c'] + ToString(r');
    var n, n' := |ToString(l)|, |ToString(l')|;
    assert s[n] == c && s'[n'] == c';
    assert n == n';
    assert ToString(l) == s[..n] == ToString(l');
    assert ToString(r) == s[n + 1..] == ToString(r');
    ToStringInjective(l, l');
    ToStringInjective(r, r');
  }

  lemma FactorialKeyInjective(x: int, y: int)
    requires "fact(" + ToString(x) + ")" == "fact(" + ToString(y) + ")"
    ensures x == y
  {
    var s, s' := "fact(" + ToString(x) + ")", "fact(" + ToString(y) + ")";
    assert ToString(x) == s[5..|s| - 1] == ToString(y);
    ToStringInjective(x, y);
  }

  lemma FactorialKeyIsNotBinary(x: int, l: int, symbol: string, r: int)
    ensures "fact(" + ToString(x) + ")" != ToString(l) + symbol + ToString(r)
  {
    assert ("fact(" + ToString(x) + ")")[0] == 'f';
    assert (ToString(l) + symbol + ToString(r))[0] == ToString(l)[0];
  }

  /** A binary question with its operands in the order its key prints them. */
  datatype Normal = Normal(left: Int32, symbol: char, right: Int32)

  function SymbolChar(operation: string): (c: char)
    requires SymbolFor(operation).Ok? && !IsFactorial(operation)
    ensures SymbolFor(operation).value == [c] && c in "+-*/^"
  {
    SymbolFor(operation).value[0]
  }

  function Normalise(q: Query): (n: Normal)
    requires Make(q).Ok? && !IsFactorial(q.operation)
    ensures Make(q).value == ToString(n.left) + [n.symbol] + ToString(n.right)
    ensures !IsDigit(n.symbol)
  {
    var swapped := IsCommutative(q.operation) && q.first > q.second.value;
    Normal(if swapped then q.second.value else q.first, SymbolChar(q.operation),
           if swapped then q.first else q.second.value)
  }

  lemma SymbolDecidesCommutativity(operation: string)
    requires SymbolFor(operation).Ok? && !IsFactorial(operation)
    ensures IsCommutative(operation) <==> SymbolChar(operation) == '+' || SymbolChar(operation) == '*'
  {
  }

  lemma NormalFormsAgree(a: Query, b: Query)
    requires Make(a).Ok? && Make(b).Ok?
    requires !IsFactorial(a.operation) && !IsFactorial(b.operation)
    ensures Normalise(a) == Normalise(b) <==> SameQuestion(a, b)
  {
    SymbolDecidesCommutativity(a.operation);
    SymbolDecidesCommutativity(b.operation);
    assert SymbolFor(a.operation) == SymbolFor(b.operation) <==> SymbolChar(a.operation) == SymbolChar(b.operation);
  }

  lemma BinaryKeyInjective(a: Query, b: Query)
    requires Make(a).Ok? && Make(b).Ok?
    requires !IsFactorial(a.operation) && !IsFactorial(b.operation)
    ensures Make(a) == Make(b) <==> SameQuestion(a, b)
  {
    var m, n := Normalise(a), Normalise(b);
    if Make(a) == Make(b) {
      UniqueSplit(m.left, m.symbol, m.right, n.left, n.symbol, n.right);
    }
    NormalFormsAgree(a, b);
  }

  lemma MixedKeysDiffer(f: Query, q: Query)
    requires Make(f).Ok? && Make(q).Ok?
    requires IsFactorial(f.operation) && !IsFactorial(q.operation)
    ensures Make(f) != Make(q) && SymbolFor(f.operation) != SymbolFor(q.operation)
  {
    var n := Normalise(q);
    FactorialKeyIsNotBinary(f.first, n.left, [n.symbol], n.right);
    assert |SymbolFor(f.operation).value| == 4 && |SymbolFor(q.operation).value| == 1;
  }

  /** Keys are injective up to commutation, for every pair of questions that have keys. */
  lemma KeyInjective(a: Query, b: Query)
    requires Make(a).Ok? && Make(b).Ok?
    ensures Make(a) == Make(b) <==> SameQuestion(a, b)
  {
    if IsFactorial(a.operation) && IsFactorial(b.operation) {
      if Make(a) == Make(b) {
        FactorialKeyInjective(a.first, b.first);
      }
    } else if IsFactorial(a.operation) {
      MixedKeysDiffer(a, b);
    } else if IsFactorial(b.operation) {
      MixedKeysDiffer(b, a);
    } else {
      BinaryKeyInjective(a, b);
    }
  }

  const KEY_NAMES := {"fact", "factorial", "!", "add", "+", "mul", "*", "sub", "-", "div", "/", "pow", "^"}

  /** What the key says, name by name: which symbol, which operand first, and when there is no key. */
  lemma KeyText(q: Query)
    ensures q.operation in {"fact", "factorial", "!"} ==> Make(q) == Ok("fact(" + ToString(q.first) + ")")
    ensures q.operation !in {"fact", "factorial", "!"} && q.second.None? ==> Make(q) == Err(4)
    ensures q.second.Some? ==>
              var a, b := q.first, q.second.value;
              var low, high := if a <= b then a else b, if a <= b then b else a;
              && (q.operation in {"add", "+"} ==> Make(q) == Ok(ToString(low) + "+" + ToString(high)))
              && (q.operation in {"mul", "*"} ==> Make(q) == Ok(ToString(low) + "*" + ToString(high)))
              && (q.operation in {"sub", "-"} ==> Make(q) == Ok(ToString(a) + "-" + ToString(b)))
              && (q.operation in {"div", "/"} ==> Make(q) == Ok(ToString(a) + "/" + ToString(b)))
              && (q.operation in {"pow", "^"} ==> Make(q) == Ok(ToString(a) + "^" + ToString(b)))
    ensures q.second.Some? && q.operation !in KEY_NAMES ==> Make(q) == Err(6)
  {
  }

  /** A key holds no NUL, so it survives being passed as a C string. */
  lemma KeyHasNoNul(q: Query)
    requires Make(q).Ok?
    ensures '\0' !in Make(q).value
  {
    assert '\0' !in ToString(q.first);
    if !IsFactorial(q.operation) {
      var n := Normalise(q);
      assert '\0' !in ToString(n.left) && '\0' !in ToString(n.right) && n.symbol != '\0';
    }
  }
}
