/**
 * Rust's operators and intrinsic methods on machine words, with overflow checks on, as the
 * language defines them: the exact result, and then what becomes of one that does not fit.
 * The evaluator of the let-language (provium/src/ir.rs) is proved to compute these.
 */
module RustOperators {
  import opened Types
  import opened Divisions
  import opened ScalarIr

  // ---- Exact results.

  /** How many values a word of this width has. */
  function Limit(bits: nat): nat
    requires Width(bits)
  {
    if bits == 8 then 0x100 else if bits == 16 then 0x1_0000
    else if bits == 32 then 0x1_0000_0000 else 0x1_0000_0000_0000_0000
  }

  /** An exact result that does not fit is an overflow. */
  function Checked(bits: nat, x: int): Outcome
    requires Width(bits)
  {
    if 0 <= x < Limit(bits) then Ok(VUInt(bits, x)) else Err(Overflow)
  }

  /** The value in range that is nearest to the exact result. */
  function Saturated(bits: nat, x: int): Outcome
    requires Width(bits)
  {
    Ok(VUInt(bits, if x < 0 then 0 else if x < Limit(bits) then x else Limit(bits) - 1))
  }

  /** The value in range that differs from the exact result by a multiple of the limit. */
  function Wrapped(bits: nat, x: int): Outcome
    requires Width(bits)
  {
    Ok(VUInt(bits, x % Limit(bits)))
  }

  /** How often b can be taken away from a, and what is left then. */
  function Quotients(a: nat, b: nat): nat
    requires b > 0
    decreases a
  {
    if a < b then 0 else 1 + Quotients(a - b, b)
  }

  function LeftOver(a: nat, b: nat): nat
    requires b > 0
    decreases a
  {
    if a < b then a else LeftOver(a - b, b)
  }

  /** Bit i of a number. */
  predicate HasBit(x: nat, i: nat)
    decreases i
  {
    if i == 0 then x % 2 == 1 else HasBit(x / 2, i - 1)
  }

  /** The number with these bits, the lowest first. */
  function Assembled(bits: seq<bool>): nat {
    if bits == [] then 0 else (if bits[0] then 1 else 0) + 2 * Assembled(bits[1..])
  }

  predicate Together(op: Op, a: bool, b: bool) {
    match op
    case BitAnd => a && b
    case BitOr => a || b
    case _ => a != b
  }

  /** Every bit is made of the two in its place. */
  function BitByBit(op: Op, a: nat, b: nat, width: nat): nat {
    Assembled(seq(width, i requires 0 <= i < width => Together(op, HasBit(a, i), HasBit(b, i))))
  }

  function Doubled(a: nat, times: nat): nat
    decreases times
  {
    if times == 0 then a else Doubled(2 * a, times - 1)
  }

  function Halved(a: nat, times: nat): nat
    decreases times
  {
    if times == 0 then a else Halved(a / 2, times - 1)
  }

  /** What an operator makes of two words of one width. */
  function Answer(op: Op, bits: nat, a: nat, b: nat): Outcome
    requires Width(bits)
  {
    match op
    case Eq => Ok(VBool(a == b))
    case Ne => Ok(VBool(!(a == b)))
    case Lt => Ok(VBool(b > a))
    case Gt => Ok(VBool(!(a == b || b > a)))
    case Le => Ok(VBool(a == b || b > a))
    case Ge => Ok(VBool(!(b > a)))
    case Add => Checked(bits, a + b)
    case Sub => Checked(bits, a - b)
    case Mul => Checked(bits, a * b)
    case Div => if b == 0 then Err(DivisionByZero) else Ok(VUInt(bits, Quotients(a, b)))
    case Rem => if b == 0 then Err(DivisionByZero) else Ok(VUInt(bits, LeftOver(a, b)))
    case Minimum => Ok(VUInt(bits, if b > a then a else b))
    case Maximum => Ok(VUInt(bits, if b > a then b else a))
    case SaturatingAdd => Saturated(bits, a + b)
    case SaturatingSub => Saturated(bits, a - b)
    case WrappingAdd => Wrapped(bits, a + b)
    case WrappingSub => Wrapped(bits, a - b)
    case WrappingMul => Wrapped(bits, a * b)
    case BitAnd => Ok(VUInt(bits, BitByBit(op, a, b, bits)))
    case BitOr => Ok(VUInt(bits, BitByBit(op, a, b, bits)))
    case BitXor => Ok(VUInt(bits, BitByBit(op, a, b, bits)))
    case Shl => if b >= bits then Err(Overflow) else Wrapped(bits, Doubled(a, b))
    case Shr => if b >= bits then Err(Overflow) else Ok(VUInt(bits, Halved(a, b)))
  }

  // ---- What the exact results are.

  /** Division with remainder, said by multiplication. */
  lemma {:induction false} DivisionMeans(a: nat, b: nat)
    requires b > 0
    ensures a == Quotients(a, b) * b + LeftOver(a, b) && LeftOver(a, b) < b
    decreases a
  {
    if a >= b {
      DivisionMeans(a - b, b);
    }
  }

  /** The number put together from bits has exactly those bits. */
  lemma {:induction false} AssembledHas(bits: seq<bool>, i: nat)
    ensures HasBit(Assembled(bits), i) <==> i < |bits| && bits[i]
    decreases i, |bits|
  {
    if bits == [] {
      NoBits(i);
    } else if i > 0 {
      AssembledHas(bits[1..], i - 1);
      assert Assembled(bits) / 2 == Assembled(bits[1..]);
    }
  }

  lemma {:induction false} NoBits(i: nat)
    ensures !HasBit(0, i)
    decreases i
  {
    if i > 0 {
      NoBits(i - 1);
    }
  }

  /** Bit i of the result is made of bit i of each side. */
  lemma BitsMean(op: Op, a: nat, b: nat, width: nat, i: nat)
    ensures HasBit(BitByBit(op, a, b, width), i) <==> i < width && Together(op, HasBit(a, i), HasBit(b, i))
  {
    AssembledHas(seq(width, k requires 0 <= k < width => Together(op, HasBit(a, k), HasBit(b, k))), i);
  }

  // ---- The evaluator computes them.

  lemma LimitIsPower(bits: nat)
    requires Width(bits)
    ensures Limit(bits) == Pow2(bits)
  {
    EightPower();
    hide Pow2;
    PowerSum(8, 8);
    PowerSum(16, 16);
    PowerSum(32, 32);
  }

  lemma EightPower()
    ensures Pow2(8) == 0x100
  {
    assert Pow2(2) == 4;
    assert Pow2(4) == 16;
    assert Pow2(6) == 64;
  }

  lemma {:induction false} PowerSum(m: nat, n: nat)
    ensures Pow2(m + n) == Pow2(m) * Pow2(n)
    decreases m
  {
    if m > 0 {
      PowerSum(m - 1, n);
    }
  }

  /** Quotient and remainder are determined by their equation. */
  lemma DivisionIs(a: nat, b: nat)
    requires b > 0
    ensures Quotients(a, b) == a / b && LeftOver(a, b) == a % b
  {
    DivisionMeans(a, b);
    Unique(a, b, Quotients(a, b), LeftOver(a, b));
  }

  function BitOpOf(op: Op): BitOp {
    match op
    case BitAnd => AndBits
    case BitOr => OrBits
    case _ => XorBits
  }

  lemma {:induction false} BitwiseIs(op: Op, a: nat, b: nat, width: nat)
    requires op.BitAnd? || op.BitOr? || op.BitXor?
    ensures Bitwise(BitOpOf(op), a, b, width) == BitByBit(op, a, b, width)
    decreases width
  {
    if width > 0 {
      BitwiseIs(op, a / 2, b / 2, width - 1);
      var all := seq(width, i requires 0 <= i < width => Together(op, HasBit(a, i), HasBit(b, i)));
      var rest := seq(width - 1, i requires 0 <= i < width - 1 => Together(op, HasBit(a / 2, i), HasBit(b / 2, i)));
      assert all[1..] == rest;
    }
  }

  lemma {:induction false} DoubledIs(a: nat, times: nat)
    ensures Doubled(a, times) == a * Pow2(times)
    decreases times
  {
    if times > 0 {
      DoubledIs(2 * a, times - 1);
    }
  }

  lemma {:induction false} HalvedIs(a: nat, times: nat)
    ensures Halved(a, times) == a / Pow2(times)
    decreases times
  {
    if times > 0 {
      HalvedIs(a / 2, times - 1);
      HalvesTwice(a, Pow2(times - 1));
    }
  }

  lemma HalvesTwice(a: nat, d: nat)
    requires d > 0
    ensures a / 2 / d == a / (2 * d)
  {
    var q, r := a / 2 / d, a / 2 % d;
    assert a == 2 * (d * q + r) + a % 2;
    Unique(a, 2 * d, q, 2 * r + a % 2);
  }

  lemma WordFits(bits: nat, v: nat)
    requires Width(bits) && v < Pow2(bits)
    ensures Word(bits, v) == Ok(VUInt(bits, v))
  {
    hide Pow2;
  }

  lemma CheckedIs(bits: nat, v: nat)
    requires Width(bits)
    ensures Word(bits, v) == Checked(bits, v)
  {
    LimitIsPower(bits);
    hide Pow2, Limit;
  }

  lemma NoLarger(a: nat, b: nat)
    requires b > 0
    ensures a / b <= a
  {
    if a / b > a {
      Multiples(b, a, a / b);
      Multiples(a + 1, 0, b);
    }
  }

  /** A negative difference wraps once. */
  lemma WrapsOnce(x: int, m: nat)
    requires x < 0 < x + m
    ensures x % m == x + m
  {
    var q, r := x / m, x % m;
    assert x == m * q + r && 0 <= r < m;
    if q >= 0 {
      Signed(m, q);
    } else if q <= -2 {
      assert m * -q == -(m * q);
      Multiples(m, 1, -q);
    }
  }

  lemma Signed(m: nat, q: nat)
    ensures m * q >= 0
  {
  }

  lemma DifferenceWraps(a: nat, b: nat, m: nat)
    requires a < m && b < m
    ensures (a - b) % m == (a + m - b) % m
  {
    if a >= b {
      Unique(a - b, m, 0, a - b);
      Unique(a + m - b, m, 1, a - b);
    } else {
      WrapsOnce(a - b, m);
      Unique(a + m - b, m, 0, a + m - b);
    }
  }

  lemma QuotientWord(bits: nat, a: nat, b: nat)
    requires Width(bits) && a < Pow2(bits) && b > 0
    ensures Word(bits, Quotient(a, b)) == Ok(VUInt(bits, Quotients(a, b)))
    ensures b < Pow2(bits) ==> Word(bits, Remainder(a, b)) == Ok(VUInt(bits, LeftOver(a, b)))
  {
    DivisionIs(a, b);
    NoLarger(a, b);
    hide Pow2;
    WordFits(bits, a / b);
    if b < Pow2(bits) {
      WordFits(bits, a % b);
    }
  }

  lemma WrappedWord(bits: nat, v: nat)
    requires Width(bits)
    ensures Word(bits, Remainder(v, Pow2(bits))) == Wrapped(bits, v)
  {
    LimitIsPower(bits);
    hide Pow2, Limit;
    WordFits(bits, v % Pow2(bits));
  }

  lemma ShiftedWord(bits: nat, a: nat, b: nat)
    requires Width(bits) && a < Pow2(bits)
    ensures Word(bits, Remainder(Times(a, Pow2(b)), Pow2(bits))) == Wrapped(bits, Doubled(a, b))
    ensures Word(bits, Quotient(a, Pow2(b))) == Ok(VUInt(bits, Halved(a, b)))
  {
    DoubledIs(a, b);
    HalvedIs(a, b);
    hide Pow2, Doubled, Halved;
    WrappedWord(bits, a * Pow2(b));
    NoLarger(a, Pow2(b));
    WordFits(bits, a / Pow2(b));
  }

  /** Every operator of the let-language, on every two words of every width, computes what Rust's does. */
  lemma ArithmeticIsRusts(op: Op, bits: nat, a: nat, b: nat)
    requires Width(bits) && a < Pow2(bits) && b < Pow2(bits)
    ensures Arithmetic(op, bits, a, b) == Answer(op, bits, a, b)
  {
    hide Pow2, Quotient, Remainder, Word, Bitwise, BitByBit, Quotients, LeftOver, Doubled, Halved, Limit, Width;
    LimitIsPower(bits);
    match op
    case Add => CheckedIs(bits, a + b);
    case Mul => CheckedIs(bits, a * b);
    case Sub => if a >= b { CheckedIs(bits, a - b); }
    case Div => if b > 0 { QuotientWord(bits, a, b); }
    case Rem => if b > 0 { QuotientWord(bits, a, b); }
    case Minimum => WordFits(bits, if a <= b then a else b);
    case Maximum => WordFits(bits, if a <= b then b else a);
    case SaturatingAdd => WordFits(bits, if a + b < Pow2(bits) then a + b else Pow2(bits) - 1);
    case SaturatingSub => WordFits(bits, if a < b then 0 else a - b);
    case WrappingAdd => WrappedWord(bits, a + b);
    case WrappingSub =>
      WrappedWord(bits, a + Pow2(bits) - b);
      DifferenceWraps(a, b, Pow2(bits));
    case WrappingMul => WrappedWord(bits, a * b);
    case BitAnd =>
      BitwiseIs(op, a, b, bits);
      WordFits(bits, Bitwise(AndBits, a, b, bits));
    case BitOr =>
      BitwiseIs(op, a, b, bits);
      WordFits(bits, Bitwise(OrBits, a, b, bits));
    case BitXor =>
      BitwiseIs(op, a, b, bits);
      WordFits(bits, Bitwise(XorBits, a, b, bits));
    case Shl => ShiftedWord(bits, a, b);
    case Shr => ShiftedWord(bits, a, b);
    case _ =>
  }

  // ---- On values.

  /** What Rust makes of two values; None where its types leave nothing to compute. */
  function Computed(op: Op, a: Value, b: Value): Option<Outcome> {
    match (a, b)
    case (VBool(x), VBool(y)) =>
      if op.Eq? then Some(Ok(VBool(x == y))) else if op.Ne? then Some(Ok(VBool(x != y))) else None
    case (VUInt(v, x), VUInt(w, y)) =>
      if v == w && Width(v) && x < Limit(v) && y < Limit(v) then Some(Answer(op, v, x, y)) else None
    case _ => None
  }

  /** On values of one type, for every operator of that type. */
  lemma BinaryIsRusts(op: Op, operand: Ty, result: Ty, a: Value, b: Value, usizeBits: nat)
    requires (usizeBits == 32 || usizeBits == 64) && OperatorTyped(op, operand, result)
    requires Admits(operand, a, usizeBits) && Admits(operand, b, usizeBits)
    ensures Computed(op, a, b) == Some(Binary(op, a, b))
  {
    hide Pow2, Arithmetic, Answer, Limit;
    if a.VUInt? {
      LimitIsPower(a.bits);
      ArithmeticIsRusts(op, a.bits, a.value, b.value);
    }
  }
}
