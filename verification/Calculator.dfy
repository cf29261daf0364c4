/**
  The bounded arithmetic tool (worker/genai/exception_analysis/tools/calculator.py)
  on its integer fragment.  Where the source would produce a float, the model
  answers `LeavesIntegers` and claims nothing further.
*/
module Calculator {
  import opened Prelude

  const MAX_INTEGER_BITS: nat := 4096
  const MAX_EXPONENT: nat := 1000
  const MAX_CHARACTERS: nat := 500

  // ---------------------------------------------------------------- numbers

  function Power(b: int, e: nat): int { if e == 0 then 1 else b * Power(b, e - 1) }

  function Abs(n: int): nat { if n < 0 then -n else n }

  function BitLength(n: int): nat
    decreases Abs(n)
  {
    if n == 0 then 0 else 1 + BitLength(Abs(n) / 2)
  }

  /** Python's `%`: the result has the sign of the divisor. */
  function FloorMod(a: int, m: int): int
    requires m != 0
  {
    if m > 0 then a % m else -((-a) % (-m))
  }

  predicate Quotient(a: int, m: int, q: int, r: int) { a == q * m + r }

  /** What a remainder is: what some multiple leaves, below the divisor and on its side of zero. */
  ghost predicate Remainder(a: int, m: int, r: int) {
    Abs(r) < Abs(m) && (r == 0 || (r > 0 <==> m > 0)) && exists q :: Quotient(a, m, q, r)
  }

  lemma RemainderUnique(a: int, m: int, r: int, s: int)
    requires Remainder(a, m, r) && Remainder(a, m, s)
    ensures r == s
  {
    var p :| Quotient(a, m, p, r);
    var q :| Quotient(a, m, q, s);
    assert (q - p) * m == r - s;
    if q > p {
      MultipleExceeds(q - p, m);
    } else if q < p {
      assert (p - q) * m == s - r;
      MultipleExceeds(p - q, m);
    }
  }

  lemma MultipleExceeds(k: int, m: int)
    requires k >= 1
    ensures Abs(k * m) >= Abs(m)
  {
    if m >= 0 {
      assert k * m >= m;
    } else {
      assert k * m <= m;
    }
  }

  lemma FloorModIsBounded(a: int, m: int)
    requires m != 0
    ensures Abs(FloorMod(a, m)) < Abs(m)
    ensures FloorMod(a, m) == 0 || (FloorMod(a, m) > 0 <==> m > 0)
    ensures Remainder(a, m, FloorMod(a, m))
  {
    if m > 0 {
      assert Quotient(a, m, a / m, FloorMod(a, m));
    } else {
      var n := -m;
      assert -a == ((-a) / n) * n + (-a) % n;
      assert a == ((-a) / n) * m + FloorMod(a, m);
      assert Quotient(a, m, (-a) / n, FloorMod(a, m));
    }
  }

  lemma {:induction false} PowerPositive(k: nat)
    ensures Power(2, k) >= 1
  {
    if k > 0 { PowerPositive(k - 1); }
  }

  /** What a bit length means. */
  lemma {:induction false} BitLengthMeans(n: int, k: nat)
    ensures BitLength(n) <= k <==> Abs(n) < Power(2, k)
    decreases k
  {
    PowerPositive(k);
    if n != 0 && k > 0 {
      BitLengthMeans(Abs(n) / 2, k - 1);
      assert Abs(n) / 2 < Power(2, k - 1) <==> Abs(n) < 2 * Power(2, k - 1);
    }
  }

  lemma {:induction false} PowerAdds(b: int, j: nat, k: nat)
    ensures Power(b, j + k) == Power(b, j) * Power(b, k)
  {
    if j > 0 {
      PowerAdds(b, j - 1, k);
      assert Power(b, j + k) == b * (Power(b, j - 1) * Power(b, k)) == Power(b, j) * Power(b, k);
    }
  }

  lemma {:induction false} PowerGrows(j: nat, k: nat)
    requires j <= k
    ensures Power(2, j) <= Power(2, k)
  {
    PowerAdds(2, j, k - j);
    PowerPositive(j);
    PowerPositive(k - j);
    assert Power(2, j) * 1 <= Power(2, j) * Power(2, k - j);
  }

  lemma ProductBits(a: int, b: int, j: nat, k: nat)
    requires BitLength(a) <= j && BitLength(b) <= k
    ensures BitLength(a * b) <= j + k
  {
    hide BitLength;
    BitLengthMeans(a, j);
    BitLengthMeans(b, k);
    AbsProduct(a, b);
    SmallerProduct(Abs(a), Abs(b), Power(2, j), Power(2, k));
    PowerAdds(2, j, k);
    BitLengthMeans(a * b, j + k);
  }

  lemma AbsProduct(a: int, b: int)
    ensures Abs(a * b) == Abs(a) * Abs(b)
  {
    assert Abs(a) * Abs(b) == a * b || Abs(a) * Abs(b) == -(a * b) by {
      assert (-a) * b == -(a * b) && a * (-b) == -(a * b) && (-a) * (-b) == a * b;
    }
  }

  lemma SmallerProduct(a: nat, b: nat, c: nat, d: nat)
    requires a < c && b < d
    ensures a * b < c * d
  {
    assert a * b <= a * d <= (c - 1) * d == c * d - d;
  }

  lemma SumBits(a: int, b: int, k: nat)
    requires BitLength(a) <= k && BitLength(b) <= k
    ensures BitLength(a + b) <= k + 1 && BitLength(a - b) <= k + 1
  {
    hide BitLength;
    BitLengthMeans(a, k);
    BitLengthMeans(b, k);
    BitLengthMeans(a + b, k + 1);
    BitLengthMeans(a - b, k + 1);
  }

  /** b^e has at most bit_length(b) * e bits. */
  lemma {:induction false} PowerBits(b: int, e: nat, k: nat)
    requires BitLength(b) <= k && k >= 1
    ensures BitLength(Power(b, e)) <= if e == 0 then 1 else k * e
    decreases e
  {
    if e == 0 {
      BitLengthMeans(1, 1);
    } else if e > 1 {
      PowerBits(b, e - 1, k);
      ProductBits(b, Power(b, e - 1), k, k * (e - 1));
      assert k + k * (e - 1) == k * e;
    } else {
      assert Power(b, 1) == b * Power(b, 0) == b;
    }
  }

  // ------------------------------------------------------------ expressions

  datatype UnaryOp = Plus | Minus

  datatype BinaryOp = Add | Sub | Mult | Div | Pow | Mod

  /** An integer literal is its digits in its base; `Other` is any syntax the evaluator does not know. */
  datatype Expr =
    | Literal(base: nat, digits: seq<nat>)
    | FloatLiteral
    | Name(name: string)
    | Unary(uop: UnaryOp, operand: Expr)
    | Binary(bop: BinaryOp, left: Expr, right: Expr)
    | Call(function_: string, args: seq<Expr>, keywords: bool)
    | Other

  function LiteralValue(base: nat, digits: seq<nat>): nat {
    if digits == [] then 0 else LiteralValue(base, digits[..|digits| - 1]) * base + digits[|digits| - 1]
  }

  /** Literals are written in base 2, 8, 10 or 16 and fit the expression's 500 characters. */
  predicate WellFormed(e: Expr) {
    match e
    case Literal(base, digits) =>
      && 2 <= base <= 16
      && |digits| <= MAX_CHARACTERS
      && (forall d :: d in digits ==> d < base)
    case Unary(_, operand) => WellFormed(operand)
    case Binary(_, left, right) => WellFormed(left) && WellFormed(right)
    case Call(_, args, _) => forall i :: 0 <= i < |args| ==> WellFormed(args[i])
    case _ => true
  }

  datatype Outcome = Value(value: int) | LeavesIntegers | Fails(message: string)

  /** `_bounded` on an integer. */
  function Bounded(v: int): Outcome {
    if BitLength(v) > MAX_INTEGER_BITS then Fails("Result is too large") else Value(v)
  }

  /** `_safe_power` on integers. */
  function SafePower(b: int, e: int): Outcome {
    if Abs(e) > MAX_EXPONENT then Fails("Exponent is too large")
    else if e > 0 && Larger(1, BitLength(b)) * e > MAX_INTEGER_BITS then Fails("Result is too large")
    else if e < 0 then LeavesIntegers
    else Bounded(Power(b, e))
  }

  function Larger(a: int, b: int): int { if a < b then b else a }

  /** The operator's own result, before any bound is looked at. */
  function Raw(op: BinaryOp, a: int, b: int): Outcome {
    match op
    case Add => Value(a + b)
    case Sub => Value(a - b)
    case Mult => Value(a * b)
    case Div => LeavesIntegers
    case Mod => if b == 0 then Fails("integer modulo by zero") else Value(FloorMod(a, b))
    case Pow => SafePower(a, b)
  }

  function BoundedOutcome(o: Outcome): Outcome { if o.Value? then Bounded(o.value) else o }

  function Least(vs: seq<int>): int
    requires vs != []
  {
    if |vs| == 1 then vs[0] else
    var rest := Least(vs[1..]);
    if rest < vs[0] then rest else vs[0]
  }

  function Greatest(vs: seq<int>): int
    requires vs != []
  {
    if |vs| == 1 then vs[0] else
    var rest := Greatest(vs[1..]);
    if rest > vs[0] then rest else vs[0]
  }

  const FUNCTIONS: set<string> := {"abs", "round", "min", "max", "pow", "sqrt", "ceil", "floor"}

  /** The allowlisted functions other than two-argument `pow`. */
  function Apply(name: string, vs: seq<int>): Outcome {
    if name == "abs" then (if |vs| == 1 then Value(Abs(vs[0])) else Fails("TypeError"))
    else if name == "ceil" || name == "floor" then (if |vs| == 1 then Value(vs[0]) else Fails("TypeError"))
    else if name == "round" then
      (if |vs| == 1 then Value(vs[0]) else if |vs| == 2 then LeavesIntegers else Fails("TypeError"))
    else if name == "min" then (if |vs| >= 2 then Value(Least(vs)) else Fails("TypeError"))
    else if name == "max" then (if |vs| >= 2 then Value(Greatest(vs)) else Fails("TypeError"))
    else if name == "sqrt" then (if |vs| == 1 then LeavesIntegers else Fails("TypeError"))
    else if name == "pow" then
      (if |vs| != 3 then Fails("TypeError")
       else if vs[2] == 0 then Fails("pow() 3rd argument cannot be 0")
       else if vs[1] < 0 then LeavesIntegers
       else Value(FloorMod(Power(vs[0], vs[1]), vs[2])))
    else Fails("Expression uses an unsupported operation")
  }

  /** Arguments are evaluated left to right; the first that is no integer decides. */
  datatype Arguments = Integers(values: seq<int>) | Stopped(outcome: Outcome)

  function Evaluate(e: Expr): Outcome
    decreases e, 0
  {
    match e
    case Literal(base, digits) => Value(LiteralValue(base, digits))
    case FloatLiteral => LeavesIntegers
    case Name(name) => if name == "pi" || name == "e" then LeavesIntegers else Fails("Expression uses an unsupported operation")
    case Unary(op, operand) =>
      var v := Evaluate(operand);
      if !v.Value? then v else Value(if op == Minus then -v.value else v.value)
    case Binary(op, left, right) =>
      var l := Evaluate(left);
      if !l.Value? then l else
      var r := Evaluate(right);
      if !r.Value? then r else BoundedOutcome(Raw(op, l.value, r.value))
    case Call(name, args, keywords) =>
      if keywords || name !in FUNCTIONS || |args| > 20 then Fails("Expression uses an unsupported operation")
      else
        var vs := EvaluateAll(args);
        if vs.Stopped? then vs.outcome
        else if name == "pow" && |args| == 2 then SafePower(vs.values[0], vs.values[1])
        else BoundedOutcome(Apply(name, vs.values))
    case Other => Fails("Expression uses an unsupported operation")
  }

  function EvaluateAll(args: seq<Expr>): (vs: Arguments)
    ensures vs.Integers? ==> |vs.values| == |args|
    ensures vs.Stopped? ==> !vs.outcome.Value?
    decreases args, 1
  {
    if args == [] then Integers([])
    else
      var first := Evaluate(args[0]);
      if !first.Value? then Stopped(first) else
      var rest := EvaluateAll(args[1..]);
      if rest.Stopped? then rest else Integers([first.value] + rest.values)
  }

  // ----------------------------------------------------------------- bounds

  lemma {:induction false} LiteralBits(base: nat, digits: seq<nat>)
    requires 2 <= base <= 16 && forall d :: d in digits ==> d < base
    ensures LiteralValue(base, digits) < Power(16, |digits|)
  {
    if digits != [] {
      var before := digits[..|digits| - 1];
      assert digits[|digits| - 1] in digits;
      assert forall d :: d in before ==> d in digits;
      LiteralBits(base, before);
      DigitFits(LiteralValue(base, before), base, digits[|digits| - 1], Power(16, |before|));
      assert Power(16, |digits|) == 16 * Power(16, |before|);
    }
  }

  lemma DigitFits(value: nat, base: nat, digit: nat, bound: int)
    requires 2 <= base <= 16 && digit < base && value < bound
    ensures value * base + digit < 16 * bound
  {
    assert value * base <= (bound - 1) * base;
    assert bound * base <= bound * 16;
  }

  lemma {:induction false} SixteenIsFourBits(n: nat)
    ensures Power(16, n) == Power(2, 4 * n)
  {
    if n > 0 {
      SixteenIsFourBits(n - 1);
      PowerAdds(2, 4, 4 * (n - 1));
      assert Power(2, 4) == 16;
    }
  }

  lemma LiteralsFit(base: nat, digits: seq<nat>)
    requires 2 <= base <= 16 && |digits| <= MAX_CHARACTERS && forall d :: d in digits ==> d < base
    ensures BitLength(LiteralValue(base, digits)) <= MAX_INTEGER_BITS
  {
    LiteralBits(base, digits);
    SixteenIsFourBits(|digits|);
    PowerGrows(4 * |digits|, MAX_INTEGER_BITS);
    BitLengthMeans(LiteralValue(base, digits), MAX_INTEGER_BITS);
  }

  /** The guard is sound before anything is computed: what it lets through fits, so the final check never fires. */
  lemma PowerGuardIsSound(b: int, e: nat)
    requires e <= MAX_EXPONENT && (e > 0 ==> Larger(1, BitLength(b)) * e <= MAX_INTEGER_BITS)
    ensures BitLength(Power(b, e)) <= MAX_INTEGER_BITS
    ensures SafePower(b, e) == Value(Power(b, e))
  {
    PowerBits(b, e, Larger(1, BitLength(b)));
  }

  lemma SafePowerFits(b: int, e: int)
    ensures SafePower(b, e).Value? ==> BitLength(SafePower(b, e).value) <= MAX_INTEGER_BITS
  {
  }

  lemma NegationKeepsBits(v: int)
    ensures BitLength(-v) == BitLength(v)
  {
    if v != 0 {
      assert Abs(-v) == Abs(v);
    }
  }

  predicate Fits(o: Outcome) { o.Value? ==> BitLength(o.value) <= MAX_INTEGER_BITS }

  /** Every integer any expression evaluates to has at most 4096 bits. */
  lemma {:induction false} EveryResultFits(e: Expr)
    requires WellFormed(e)
    ensures Fits(Evaluate(e))
    decreases e, 0
  {
    match e {
      case Literal(base, digits) => LiteralsFit(base, digits);
      case Unary(op, operand) =>
        EveryResultFits(operand);
        var v := Evaluate(operand);
        if v.Value? {
          NegationKeepsBits(v.value);
        }
      case _ =>
    }
  }

  /** No operator ever computes more than 8192 bits, even before its result is checked. */
  lemma RawResultsFit(op: BinaryOp, left: Expr, right: Expr)
    requires WellFormed(left) && WellFormed(right)
    requires Evaluate(left).Value? && Evaluate(right).Value?
    ensures var raw := Raw(op, Evaluate(left).value, Evaluate(right).value);
            raw.Value? ==> BitLength(raw.value) <= 2 * MAX_INTEGER_BITS
  {
    hide BitLength, Power, Evaluate;
    EveryResultFits(left);
    EveryResultFits(right);
    var a, b := Evaluate(left).value, Evaluate(right).value;
    match op {
      case Mult => ProductBits(a, b, MAX_INTEGER_BITS, MAX_INTEGER_BITS);
      case Mod =>
        if b != 0 {
          FloorModIsBounded(a, b);
          BitLengthMeans(b, MAX_INTEGER_BITS);
          BitLengthMeans(FloorMod(a, b), MAX_INTEGER_BITS);
        }
      case Pow => SafePowerFits(a, b);
      case _ => SumBits(a, b, MAX_INTEGER_BITS);
    }
  }

  lemma {:induction false} ArgumentsFit(args: seq<Expr>)
    requires forall i :: 0 <= i < |args| ==> WellFormed(args[i])
    requires EvaluateAll(args).Integers?
    ensures forall v :: v in EvaluateAll(args).values ==> BitLength(v) <= MAX_INTEGER_BITS
  {
    if args != [] {
      EveryResultFits(args[0]);
      ArgumentsFit(args[1..]);
      assert EvaluateAll(args).values == [Evaluate(args[0]).value] + EvaluateAll(args[1..]).values;
    }
  }

  ghost predicate Minimum(r: int, vs: seq<int>) { r in vs && forall v :: v in vs ==> r <= v }

  ghost predicate Maximum(r: int, vs: seq<int>) { r in vs && forall v :: v in vs ==> v <= r }

  lemma {:induction false} LeastIsMinimum(vs: seq<int>)
    requires vs != []
    ensures Minimum(Least(vs), vs)
  {
    if |vs| > 1 {
      LeastIsMinimum(vs[1..]);
      assert forall v :: v in vs <==> v == vs[0] || v in vs[1..];
    }
  }

  lemma {:induction false} GreatestIsMaximum(vs: seq<int>)
    requires vs != []
    ensures Maximum(Greatest(vs), vs)
  {
    if |vs| > 1 {
      GreatestIsMaximum(vs[1..]);
      assert forall v :: v in vs <==> v == vs[0] || v in vs[1..];
    }
  }

  // ---------------------------------------------------------------- meaning

  /** What a function of integers means, two-argument pow aside: which integer, if any, is its value. */
  ghost predicate Denotes(name: string, vs: seq<int>, r: int) {
    || (name == "abs" && |vs| == 1 && r >= 0 && (r == vs[0] || r == -vs[0]))
    || (name in {"ceil", "floor", "round"} && |vs| == 1 && r == vs[0])
    || (name == "min" && |vs| >= 2 && Minimum(r, vs))
    || (name == "max" && |vs| >= 2 && Maximum(r, vs))
    || (name == "pow" && |vs| == 3 && vs[1] >= 0 && vs[2] != 0 && Remainder(Power(vs[0], vs[1]), vs[2], r))
  }

  /** Nor does any function but two-argument pow, which is the operator. */
  lemma RawCallsFit(name: string, args: seq<Expr>)
    requires forall i :: 0 <= i < |args| ==> WellFormed(args[i])
    requires EvaluateAll(args).Integers?
    ensures var raw := Apply(name, EvaluateAll(args).values);
            raw.Value? ==> BitLength(raw.value) <= MAX_INTEGER_BITS
  {
    hide Apply, Denotes, BitLength;
    ArgumentsFit(args);
    var vs := EvaluateAll(args).values;
    if Apply(name, vs).Value? {
      ApplyDenotes(name, vs);
      DenotedFits(name, vs, Apply(name, vs).value);
    }
  }

  lemma DenotedFits(name: string, vs: seq<int>, r: int)
    requires Denotes(name, vs, r) && forall v :: v in vs ==> BitLength(v) <= MAX_INTEGER_BITS
    ensures BitLength(r) <= MAX_INTEGER_BITS
  {
    hide BitLength, Power;
    if name == "pow" {
      BitLengthMeans(vs[2], MAX_INTEGER_BITS);
      BitLengthMeans(r, MAX_INTEGER_BITS);
    } else if name == "abs" {
      NegationKeepsBits(vs[0]);
    }
  }

  lemma DenotesOne(name: string, vs: seq<int>, r: int, s: int)
    requires Denotes(name, vs, r) && Denotes(name, vs, s)
    ensures r == s
  {
    if name == "pow" {
      RemainderUnique(Power(vs[0], vs[1]), vs[2], r, s);
    }
  }

  /** The functions as they are computed are the functions as they are meant. */
  lemma ApplyDenotes(name: string, vs: seq<int>)
    ensures Apply(name, vs).Value? <==> exists r :: Denotes(name, vs, r)
    ensures Apply(name, vs).Value? ==> Denotes(name, vs, Apply(name, vs).value)
  {
    if Apply(name, vs).Value? {
      if name == "min" {
        LeastIsMinimum(vs);
      } else if name == "max" {
        GreatestIsMaximum(vs);
      } else if name == "pow" {
        FloorModIsBounded(Power(vs[0], vs[1]), vs[2]);
      }
      assert Denotes(name, vs, Apply(name, vs).value);
    }
  }

  ghost function Denoted(name: string, vs: seq<int>): Option<int> {
    if exists r :: Denotes(name, vs, r) then
      var r :| Denotes(name, vs, r);
      Some(r)
    else
      None
  }

  lemma ApplyIsDenoted(name: string, vs: seq<int>)
    ensures Denoted(name, vs) == if Apply(name, vs).Value? then Some(Apply(name, vs).value) else None
  {
    hide Apply, Denotes;
    ApplyDenotes(name, vs);
    if Apply(name, vs).Value? {
      var r :| Denotes(name, vs, r) && Denoted(name, vs) == Some(r);
      DenotesOne(name, vs, r, Apply(name, vs).value);
    }
  }

  /** Exact integer arithmetic with no bound at all: what the expression means. */
  ghost function Meaning(e: Expr): Option<int>
    decreases e, 0
  {
    match e
    case Literal(base, digits) => Some(LiteralValue(base, digits))
    case Unary(op, operand) =>
      var v := Meaning(operand);
      if v.None? then None else Some(if op == Minus then -v.value else v.value)
    case Binary(op, left, right) =>
      var l, r := Meaning(left), Meaning(right);
      if l.None? || r.None? then None else
      (match op
       case Add => Some(l.value + r.value)
       case Sub => Some(l.value - r.value)
       case Mult => Some(l.value * r.value)
       case Div => None
       case Mod => if r.value == 0 then None else Some(FloorMod(l.value, r.value))
       case Pow => if r.value < 0 then None else Some(Power(l.value, r.value)))
    case Call(name, args, keywords) =>
      var vs := MeaningAll(args);
      if keywords || vs.None? then None
      else if name == "pow" && |args| == 2 then
        (if vs.value[1] < 0 then None else Some(Power(vs.value[0], vs.value[1])))
      else Denoted(name, vs.value)
    case _ => None
  }

  ghost function MeaningAll(args: seq<Expr>): (vs: Option<seq<int>>)
    ensures vs.Some? ==> |vs.value| == |args|
    decreases args, 1
  {
    if args == [] then Some([])
    else
      var first, rest := Meaning(args[0]), MeaningAll(args[1..]);
      if first.None? || rest.None? then None else Some([first.value] + rest.value)
  }

  /** The bounds only ever refuse: an integer that is returned is the exact one. */
  lemma {:induction false} ResultsAreExact(e: Expr)
    ensures Evaluate(e).Value? ==> Meaning(e) == Some(Evaluate(e).value)
    decreases e, 0
  {
    hide Apply, Denoted, Power, BitLength;
    match e {
      case Unary(_, operand) => ResultsAreExact(operand);
      case Binary(op, left, right) =>
        ResultsAreExact(left);
        ResultsAreExact(right);
      case Call(name, args, _) =>
        ArgumentsAreExact(args);
        if EvaluateAll(args).Integers? {
          ApplyIsDenoted(name, EvaluateAll(args).values);
        }
      case _ =>
    }
  }

  lemma {:induction false} ArgumentsAreExact(args: seq<Expr>)
    ensures EvaluateAll(args).Integers? ==> MeaningAll(args) == Some(EvaluateAll(args).values)
    decreases args, 1
  {
    if args != [] {
      ResultsAreExact(args[0]);
      ArgumentsAreExact(args[1..]);
    }
  }

  /** What the power guard lets through. */
  predicate PowerAllowed(b: int, e: nat) {
    e <= 1000 && (e == 0 || Larger(1, BitLength(b)) * e <= 4096)
  }

  /** The exact integers of an expression and of all its parts stay within the limits. */
  ghost predicate WithinLimits(e: Expr)
    decreases e, 0
  {
    match e
    case Literal(_, _) => true
    case Unary(_, operand) => WithinLimits(operand)
    case Binary(op, left, right) =>
      && WithinLimits(left) && WithinLimits(right)
      && (Meaning(e).Some? ==>
            if op == Pow then PowerAllowed(Meaning(left).value, Meaning(right).value) else BitLength(Meaning(e).value) <= 4096)
    case Call(name, args, _) =>
      && |args| <= 20 && AllWithinLimits(args)
      && (Meaning(e).Some? ==>
            if name == "pow" && |args| == 2 then PowerAllowed(MeaningAll(args).value[0], MeaningAll(args).value[1])
            else BitLength(Meaning(e).value) <= 4096)
    case _ => true
  }

  ghost predicate AllWithinLimits(args: seq<Expr>)
    decreases args, 1
  {
    args == [] || (WithinLimits(args[0]) && AllWithinLimits(args[1..]))
  }

  lemma SafePowerReturns(b: int, e: int)
    ensures SafePower(b, e).Value? <==> e >= 0 && PowerAllowed(b, e)
    ensures SafePower(b, e).Value? ==> SafePower(b, e).value == Power(b, e)
  {
    if e >= 0 && PowerAllowed(b, e) {
      PowerGuardIsSound(b, e);
    }
  }

  /** A function with a meaning is on the allowlist, and two-argument pow has none beside the operator's. */
  lemma DenotedIsAllowed(name: string, vs: seq<int>)
    ensures Denoted(name, vs).Some? ==> name in FUNCTIONS && !(name == "pow" && |vs| == 2)
  {
  }

  /**
    And nothing else is ever refused: an expression is answered with an integer
    exactly when it has one and it stays within the limits throughout.
  */
  lemma {:induction false} ReturnsExactly(e: Expr)
    ensures Evaluate(e).Value? <==> Meaning(e).Some? && WithinLimits(e)
    decreases e, 0
  {
    ResultsAreExact(e);
    hide Apply, Denoted, Denotes, Power, BitLength, SafePower, PowerAllowed;
    match e {
      case Unary(_, operand) => ReturnsExactly(operand);
      case Binary(op, left, right) =>
        ReturnsExactly(left);
        ReturnsExactly(right);
        ResultsAreExact(left);
        ResultsAreExact(right);
        if Meaning(left).Some? && Meaning(right).Some? {
          SafePowerReturns(Meaning(left).value, Meaning(right).value);
          if op == Pow && SafePower(Meaning(left).value, Meaning(right).value).Value? {
            SafePowerFits(Meaning(left).value, Meaning(right).value);
          }
        }
      case Call(name, args, _) =>
        ArgumentsReturn(args);
        ArgumentsAreExact(args);
        if MeaningAll(args).Some? {
          var vs := MeaningAll(args).value;
          ApplyIsDenoted(name, vs);
          DenotedIsAllowed(name, vs);
          if name == "pow" && |args| == 2 {
            SafePowerReturns(vs[0], vs[1]);
          }
        }
      case _ =>
    }
  }

  lemma {:induction false} ArgumentsReturn(args: seq<Expr>)
    ensures EvaluateAll(args).Integers? <==> MeaningAll(args).Some? && AllWithinLimits(args)
    decreases args, 1
  {
    if args != [] {
      ReturnsExactly(args[0]);
      ResultsAreExact(args[0]);
      ArgumentsReturn(args[1..]);
    }
  }
}
