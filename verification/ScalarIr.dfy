/**
 * The typed let-language with de Bruijn variables that scalar functions are lowered to,
 * and its evaluator (provium/src/ir.rs).
 */
module ScalarIr {
  import opened Types

  datatype Ty = TBool | TU8 | TU16 | TU32 | TU64 | TUsize

  function BitsOf(t: Ty, usizeBits: nat): Option<nat> {
    match t
    case TBool => None
    case TU8 => Some(8)
    case TU16 => Some(16)
    case TU32 => Some(32)
    case TU64 => Some(64)
    case TUsize => Some(usizeBits)
  }

  datatype Op =
    | Add | Sub | Mul | Div | Rem | Eq | Ne | Lt | Le | Gt | Ge | Minimum | Maximum
    | SaturatingAdd | SaturatingSub | WrappingAdd | WrappingSub | WrappingMul
    | BitAnd | BitOr | BitXor | Shl | Shr

  predicate Comparison(op: Op) {
    op.Eq? || op.Ne? || op.Lt? || op.Le? || op.Gt? || op.Ge?
  }

  datatype Expr = Expr(ty: Ty, kind: Kind)

  datatype Kind =
    | KBool(b: bool)
    | KUInt(bits: nat, value: nat)
    | KVar(index: nat)
    | KNot(x: Expr)
    | KBinary(op: Op, left: Expr, right: Expr)
    | KIf(condition: Expr, yes: Expr, no: Expr)
    | KLet(bound: Expr, body: Expr)
    | KAssert(condition: Expr, body: Expr)

  function Size(e: Expr): nat {
    1 + match e.kind
        case KNot(x) => Size(x)
        case KBinary(_, l, r) => Size(l) + Size(r)
        case KIf(c, y, n) => Size(c) + Size(y) + Size(n)
        case KLet(v, b) => Size(v) + Size(b)
        case KAssert(c, b) => Size(c) + Size(b)
        case _ => 0
  }

  /** Rename the variables that are free below `depth` binders. */
  function MapFree(e: Expr, depth: nat, f: nat -> nat): Expr {
    var kind :=
      match e.kind
      case KVar(i) => if i >= depth then KVar(f(i - depth) + depth) else e.kind
      case KNot(x) => KNot(MapFree(x, depth, f))
      case KBinary(op, l, r) => KBinary(op, MapFree(l, depth, f), MapFree(r, depth, f))
      case KIf(c, y, n) => KIf(MapFree(c, depth, f), MapFree(y, depth, f), MapFree(n, depth, f))
      case KLet(v, b) => KLet(MapFree(v, depth, f), MapFree(b, depth + 1, f))
      case KAssert(c, b) => KAssert(MapFree(c, depth, f), MapFree(b, depth, f))
      case _ => e.kind;
    Expr(e.ty, kind)
  }

  datatype Value = VBool(b: bool) | VUInt(bits: nat, value: nat)

  datatype Fault = TypeFault | Overflow | DivisionByZero | Assertion | Input

  type Outcome = Result<Value, Fault>

  function Pow2(n: nat): (r: nat)
    ensures r > 0
  {
    if n == 0 then 1 else 2 * Pow2(n - 1)
  }

  predicate Width(bits: nat) {
    bits == 8 || bits == 16 || bits == 32 || bits == 64
  }

  function Word(bits: nat, value: nat): Outcome {
    if !Width(bits) then Err(TypeFault)
    else if value >= Pow2(bits) then Err(Overflow)
    else Ok(VUInt(bits, value))
  }

  datatype BitOp = AndBits | OrBits | XorBits

  function Bit(op: BitOp, a: bool, b: bool): bool {
    match op case AndBits => a && b case OrBits => a || b case XorBits => a != b
  }

  /** The low `width` bits combined one by one. */
  function Bitwise(op: BitOp, a: nat, b: nat, width: nat): (r: nat)
    ensures r < Pow2(width)
  {
    if width == 0 then 0
    else
      2 * Bitwise(op, a / 2, b / 2, width - 1) + if Bit(op, a % 2 == 1, b % 2 == 1) then 1 else 0
  }

  function Times(a: nat, b: nat): nat { a * b }

  function Quotient(a: nat, b: nat): nat
    requires b > 0
  {
    a / b
  }

  function Remainder(a: nat, b: nat): (r: nat)
    requires b > 0
    ensures r < b
  {
    a % b
  }

  function Arithmetic(op: Op, bits: nat, a: nat, b: nat): Outcome
    requires Width(bits) && a < Pow2(bits) && b < Pow2(bits)
  {
    var bound := Pow2(bits);
    match op
    case Eq => Ok(VBool(a == b))
    case Ne => Ok(VBool(a != b))
    case Lt => Ok(VBool(a < b))
    case Le => Ok(VBool(a <= b))
    case Gt => Ok(VBool(a > b))
    case Ge => Ok(VBool(a >= b))
    case Add => Word(bits, a + b)
    case Mul => Word(bits, Times(a, b))
    case Sub => if a < b then Err(Overflow) else Word(bits, a - b)
    case Div => if b == 0 then Err(DivisionByZero) else Word(bits, Quotient(a, b))
    case Rem => if b == 0 then Err(DivisionByZero) else Word(bits, Remainder(a, b))
    case Minimum => Word(bits, if a <= b then a else b)
    case Maximum => Word(bits, if a <= b then b else a)
    case SaturatingAdd => Word(bits, if a + b < bound then a + b else bound - 1)
    case SaturatingSub => Word(bits, if a < b then 0 else a - b)
    case WrappingAdd => Word(bits, Remainder(a + b, bound))
    case WrappingSub => Word(bits, Remainder(a + bound - b, bound))
    case WrappingMul => Word(bits, Remainder(Times(a, b), bound))
    case BitAnd => Word(bits, Bitwise(AndBits, a, b, bits))
    case BitOr => Word(bits, Bitwise(OrBits, a, b, bits))
    case BitXor => Word(bits, Bitwise(XorBits, a, b, bits))
    case Shl => if b >= bits then Err(Overflow) else Word(bits, Remainder(Times(a, Pow2(b)), bound))
    case Shr => if b >= bits then Err(Overflow) else Word(bits, Quotient(a, Pow2(b)))
  }

  function Binary(op: Op, a: Value, b: Value): Outcome {
    if a.VBool? && b.VBool? then
      match op
      case Eq => Ok(VBool(a.b == b.b))
      case Ne => Ok(VBool(a.b != b.b))
      case _ => Err(TypeFault)
    else if a.VBool? || b.VBool? || a.bits != b.bits then Err(TypeFault)
    else if Word(a.bits, a.value).Err? then Err(Word(a.bits, a.value).error)
    else if Word(a.bits, b.value).Err? then Err(Word(a.bits, b.value).error)
    else Arithmetic(op, a.bits, a.value, b.value)
  }

  type Values = seq<Value>

  function Evaluate(e: Expr, env: Values): Outcome
    decreases e
  {
    match e.kind
    case KBool(b) => Ok(VBool(b))
    case KUInt(bits, value) => Word(bits, value)
    case KVar(i) => if i < |env| then Ok(env[i]) else Err(Input)
    case KNot(x) =>
      (match Evaluate(x, env)
       case Err(f) => Err(f)
       case Ok(v) => if v.VBool? then Ok(VBool(!v.b)) else Err(TypeFault))
    case KBinary(op, l, r) =>
      (match Evaluate(l, env)
       case Err(f) => Err(f)
       case Ok(a) =>
         match Evaluate(r, env)
         case Err(f) => Err(f)
         case Ok(b) => Binary(op, a, b))
    case KIf(c, y, n) =>
      (match Evaluate(c, env)
       case Err(f) => Err(f)
       case Ok(v) =>
         if !v.VBool? then Err(TypeFault) else if v.b then Evaluate(y, env) else Evaluate(n, env))
    case KLet(v, b) =>
      (match Evaluate(v, env)
       case Err(f) => Err(f)
       case Ok(x) => Evaluate(b, [x] + env))
    case KAssert(c, b) =>
      (match Evaluate(c, env)
       case Err(f) => Err(f)
       case Ok(v) =>
         if !v.VBool? then Err(TypeFault) else if v.b then Evaluate(b, env) else Err(Assertion))
  }

  datatype Parameter = Parameter(name: string, ty: Ty)

  datatype Function = Function(parameters: seq<Parameter>, result: Ty, body: Expr)

  /** A value run admits for a parameter of this type. */
  predicate Admits(t: Ty, v: Value, usizeBits: nat) {
    match BitsOf(t, usizeBits)
    case None => v.VBool?
    case Some(w) => v.VUInt? && v.bits == w && v.value < Pow2(w)
  }

  function RunFunction(f: Function, args: Values, usizeBits: nat): Outcome {
    if |f.parameters| != |args| || exists k | 0 <= k < |args| :: !Admits(f.parameters[k].ty, args[k], usizeBits)
    then Err(Input)
    else Evaluate(f.body, args)
  }

  // ---- Renaming.

  /** Every variable free below `depth` binders is one of the first n of the environment. */
  predicate Closed(e: Expr, n: nat) {
    match e.kind
    case KBool(_) => true
    case KUInt(_, _) => true
    case KVar(i) => i < n
    case KNot(x) => Closed(x, n)
    case KBinary(_, l, r) => Closed(l, n) && Closed(r, n)
    case KIf(c, y, no) => Closed(c, n) && Closed(y, n) && Closed(no, n)
    case KLet(v, b) => Closed(v, n) && Closed(b, n + 1)
    case KAssert(c, b) => Closed(c, n) && Closed(b, n)
  }

  function Renamed(i: nat, depth: nat, f: nat -> nat): nat {
    if i >= depth then f(i - depth) + depth else i
  }

  /** The new environment has at the new place what the old one has at the old place. */
  ghost predicate Relocates(env: Values, env1: Values, depth: nat, f: nat -> nat, n: nat) {
    && n <= |env| && depth <= n
    && forall i: nat | i < n :: Renamed(i, depth, f) < |env1| && env1[Renamed(i, depth, f)] == env[i]
  }

  lemma RelocatesUnder(env: Values, env1: Values, depth: nat, f: nat -> nat, n: nat, x: Value)
    requires Relocates(env, env1, depth, f, n)
    ensures Relocates([x] + env, [x] + env1, depth + 1, f, n + 1)
  {
    forall i: nat | i < n + 1
      ensures Renamed(i, depth + 1, f) < |[x] + env1|
      ensures ([x] + env1)[Renamed(i, depth + 1, f)] == ([x] + env)[i]
    {
      if i > 0 {
        assert Renamed(i, depth + 1, f) == Renamed(i - 1, depth, f) + 1;
      }
    }
  }

  /** Renaming an expression and rearranging its environment to match changes nothing. */
  lemma {:induction false} RenamingKeepsMeaning(
    e: Expr, depth: nat, f: nat -> nat, env: Values, env1: Values, n: nat)
    requires Closed(e, n) && Relocates(env, env1, depth, f, n)
    ensures Evaluate(MapFree(e, depth, f), env1) == Evaluate(e, env)
    decreases e
  {
    match e.kind
    case KVar(i) =>
      assert env1[Renamed(i, depth, f)] == env[i];
    case KNot(x) => RenamingKeepsMeaning(x, depth, f, env, env1, n);
    case KBinary(op, l, r) =>
      RenamingKeepsMeaning(l, depth, f, env, env1, n);
      RenamingKeepsMeaning(r, depth, f, env, env1, n);
    case KIf(c, y, no) =>
      RenamingKeepsMeaning(c, depth, f, env, env1, n);
      RenamingKeepsMeaning(y, depth, f, env, env1, n);
      RenamingKeepsMeaning(no, depth, f, env, env1, n);
    case KLet(v, b) =>
      RenamingKeepsMeaning(v, depth, f, env, env1, n);
      if Evaluate(v, env).Ok? {
        var x := Evaluate(v, env).value;
        RelocatesUnder(env, env1, depth, f, n, x);
        RenamingKeepsMeaning(b, depth + 1, f, [x] + env, [x] + env1, n + 1);
      }
    case KAssert(c, b) =>
      RenamingKeepsMeaning(c, depth, f, env, env1, n);
      RenamingKeepsMeaning(b, depth, f, env, env1, n);
    case _ =>
  }

  // ---- Types.

  predicate OperatorTyped(op: Op, operand: Ty, result: Ty) {
    && (operand.TBool? ==> op.Eq? || op.Ne?)
    && result == if Comparison(op) then TBool else operand
  }

  predicate WellTyped(e: Expr, env: seq<Ty>, usizeBits: nat)
    decreases e
  {
    match e.kind
    case KBool(_) => e.ty == TBool
    case KUInt(bits, value) => BitsOf(e.ty, usizeBits) == Some(bits) && value < Pow2(bits)
    case KVar(i) => i < |env| && env[i] == e.ty
    case KNot(x) => WellTyped(x, env, usizeBits) && x.ty == TBool && e.ty == TBool
    case KBinary(op, l, r) =>
      && WellTyped(l, env, usizeBits) && WellTyped(r, env, usizeBits)
      && l.ty == r.ty && OperatorTyped(op, l.ty, e.ty)
    case KIf(c, y, n) =>
      && WellTyped(c, env, usizeBits) && WellTyped(y, env, usizeBits) && WellTyped(n, env, usizeBits)
      && c.ty == TBool && y.ty == e.ty && n.ty == e.ty
    case KLet(v, b) =>
      WellTyped(v, env, usizeBits) && WellTyped(b, [v.ty] + env, usizeBits) && b.ty == e.ty
    case KAssert(c, b) =>
      WellTyped(c, env, usizeBits) && WellTyped(b, env, usizeBits) && c.ty == TBool && b.ty == e.ty
  }

  ghost predicate EnvTyped(env: Values, types: seq<Ty>, usizeBits: nat) {
    |env| == |types| && forall i | 0 <= i < |env| :: Admits(types[i], env[i], usizeBits)
  }

  /** The faults a well-typed program may end in. */
  predicate Honest(f: Fault) {
    f.Overflow? || f.DivisionByZero? || f.Assertion?
  }

  /** An in-range value of the type, or an honest fault. */
  ghost predicate Typed(r: Outcome, t: Ty, usizeBits: nat) {
    match r
    case Ok(v) => Admits(t, v, usizeBits)
    case Err(f) => Honest(f)
  }

  /** Two words of one width: a truth value, a word of that width, or an honest fault. */
  lemma ArithmeticStays(op: Op, bits: nat, a: nat, b: nat)
    requires Width(bits) && a < Pow2(bits) && b < Pow2(bits)
    ensures
      match Arithmetic(op, bits, a, b)
      case Ok(v) => if Comparison(op) then v.VBool? else v.VUInt? && v.bits == bits && v.value < Pow2(bits)
      case Err(f) => Honest(f)
  {
    hide Pow2, Bitwise, Times, Quotient, Remainder;
  }

  lemma BinaryTyped(op: Op, operand: Ty, result: Ty, a: Value, b: Value, usizeBits: nat)
    requires (usizeBits == 32 || usizeBits == 64) && OperatorTyped(op, operand, result)
    requires Admits(operand, a, usizeBits) && Admits(operand, b, usizeBits)
    ensures Typed(Binary(op, a, b), result, usizeBits)
  {
    hide Pow2, Arithmetic;
    if a.VUInt? {
      ArithmeticStays(op, a.bits, a.value, b.value);
    }
  }

  /** Every operator, every let: a well-typed program never ends in a type or input fault. */
  lemma {:induction false} EvaluationIsTyped(e: Expr, types: seq<Ty>, env: Values, usizeBits: nat)
    requires (usizeBits == 32 || usizeBits == 64) && WellTyped(e, types, usizeBits) && EnvTyped(env, types, usizeBits)
    ensures Typed(Evaluate(e, env), e.ty, usizeBits)
    decreases e
  {
    hide Pow2, Binary;
    match e.kind
    case KNot(x) => EvaluationIsTyped(x, types, env, usizeBits);
    case KBinary(op, l, r) =>
      EvaluationIsTyped(l, types, env, usizeBits);
      EvaluationIsTyped(r, types, env, usizeBits);
      if Evaluate(l, env).Ok? && Evaluate(r, env).Ok? {
        BinaryTyped(op, l.ty, e.ty, Evaluate(l, env).value, Evaluate(r, env).value, usizeBits);
      }
    case KIf(c, y, n) =>
      EvaluationIsTyped(c, types, env, usizeBits);
      EvaluationIsTyped(y, types, env, usizeBits);
      EvaluationIsTyped(n, types, env, usizeBits);
    case KLet(v, b) =>
      EvaluationIsTyped(v, types, env, usizeBits);
      if Evaluate(v, env).Ok? {
        var x := Evaluate(v, env).value;
        EvaluationIsTyped(b, [v.ty] + types, [x] + env, usizeBits);
      }
    case KAssert(c, b) =>
      EvaluationIsTyped(c, types, env, usizeBits);
      EvaluationIsTyped(b, types, env, usizeBits);
    case _ =>
  }

  lemma {:induction false} TypedIsClosed(e: Expr, types: seq<Ty>, usizeBits: nat)
    requires WellTyped(e, types, usizeBits)
    ensures Closed(e, |types|)
    decreases e
  {
    match e.kind
    case KNot(x) => TypedIsClosed(x, types, usizeBits);
    case KBinary(op, l, r) =>
      TypedIsClosed(l, types, usizeBits);
      TypedIsClosed(r, types, usizeBits);
    case KIf(c, y, n) =>
      TypedIsClosed(c, types, usizeBits);
      TypedIsClosed(y, types, usizeBits);
      TypedIsClosed(n, types, usizeBits);
    case KLet(v, b) =>
      TypedIsClosed(v, types, usizeBits);
      TypedIsClosed(b, [v.ty] + types, usizeBits);
    case KAssert(c, b) =>
      TypedIsClosed(c, types, usizeBits);
      TypedIsClosed(b, types, usizeBits);
    case _ =>
  }

  ghost predicate RelocatesTypes(types: seq<Ty>, types1: seq<Ty>, depth: nat, f: nat -> nat) {
    && depth <= |types|
    && forall i: nat | i < |types| :: Renamed(i, depth, f) < |types1| && types1[Renamed(i, depth, f)] == types[i]
  }

  lemma RelocatesTypesUnder(types: seq<Ty>, types1: seq<Ty>, depth: nat, f: nat -> nat, t: Ty)
    requires RelocatesTypes(types, types1, depth, f)
    ensures RelocatesTypes([t] + types, [t] + types1, depth + 1, f)
  {
    forall i: nat | i < |[t] + types|
      ensures Renamed(i, depth + 1, f) < |[t] + types1|
      ensures ([t] + types1)[Renamed(i, depth + 1, f)] == ([t] + types)[i]
    {
      if i > 0 {
        assert Renamed(i, depth + 1, f) == Renamed(i - 1, depth, f) + 1;
      }
    }
  }

  /** Renaming keeps types as well. */
  lemma {:induction false} RenamingKeepsTypes(
    e: Expr, depth: nat, f: nat -> nat, types: seq<Ty>, types1: seq<Ty>, usizeBits: nat)
    requires WellTyped(e, types, usizeBits) && RelocatesTypes(types, types1, depth, f)
    ensures WellTyped(MapFree(e, depth, f), types1, usizeBits) && MapFree(e, depth, f).ty == e.ty
    decreases e
  {
    match e.kind
    case KVar(i) =>
      assert types1[Renamed(i, depth, f)] == types[i];
    case KNot(x) => RenamingKeepsTypes(x, depth, f, types, types1, usizeBits);
    case KBinary(op, l, r) =>
      RenamingKeepsTypes(l, depth, f, types, types1, usizeBits);
      RenamingKeepsTypes(r, depth, f, types, types1, usizeBits);
    case KIf(c, y, n) =>
      RenamingKeepsTypes(c, depth, f, types, types1, usizeBits);
      RenamingKeepsTypes(y, depth, f, types, types1, usizeBits);
      RenamingKeepsTypes(n, depth, f, types, types1, usizeBits);
    case KLet(v, b) =>
      RenamingKeepsTypes(v, depth, f, types, types1, usizeBits);
      RelocatesTypesUnder(types, types1, depth, f, v.ty);
      RenamingKeepsTypes(b, depth + 1, f, [v.ty] + types, [v.ty] + types1, usizeBits);
    case KAssert(c, b) =>
      RenamingKeepsTypes(c, depth, f, types, types1, usizeBits);
      RenamingKeepsTypes(b, depth, f, types, types1, usizeBits);
    case _ =>
  }
}
