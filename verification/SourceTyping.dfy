/**
 * When a program of the source language is well typed, and when its calls are not cyclic:
 * what a program needs to be accepted (provium/src/frontend.rs), apart from its size.
 */
module SourceTyping {
  import opened Types
  import opened ScalarIr
  import opened ScalarSource
  import opened LoweringMeaning
  import opened LoweringCalls

  predicate InfixOperator(op: Op) {
    match op
    case Minimum => false
    case Maximum => false
    case SaturatingAdd => false
    case SaturatingSub => false
    case WrappingAdd => false
    case WrappingSub => false
    case WrappingMul => false
    case _ => true
  }

  /** The methods with one argument that are allowed. */
  predicate Intrinsic(op: Op) { !InfixOperator(op) }

  // ---- Types.

  /** The type, unless another one is expected. */
  function AsExpected(ty: Ty, expected: Option<Ty>): Option<Ty> {
    if expected.Some? && expected.value != ty then None else Some(ty)
  }

  /** The type of an expression where this one is expected, if it has one. */
  function TypeOf(p: Program, bits: nat, e: Src, env: Env, expected: Option<Ty>): Option<Ty>
    decreases e
  {
    match e
    case Path(name) =>
      if Lookup(env, name).None? then None else AsExpected(Lookup(env, name).value.1.ty, expected)
    case BoolLit(_) => AsExpected(TBool, expected)
    case IntLit(value, suffix) => LiteralType(bits, value, suffix, expected)
    case Paren(x) => TypeOf(p, bits, x, env, expected)
    case Block(body) =>
      if expected.Some? && StmtsFit(p, bits, body, env, expected.value, false) then expected else None
    case NotOf(x) => if TypeOf(p, bits, x, env, Some(TBool)).None? then None else AsExpected(TBool, expected)
    case AndOf(l, r) =>
      if TypeOf(p, bits, l, env, Some(TBool)).None? || TypeOf(p, bits, r, env, Some(TBool)).None? then None
      else AsExpected(TBool, expected)
    case OrOf(l, r) =>
      if TypeOf(p, bits, l, env, Some(TBool)).None? || TypeOf(p, bits, r, env, Some(TBool)).None? then None
      else AsExpected(TBool, expected)
    case Infix(op, l, r) =>
      var a := TypeOf(p, bits, l, env, LeftExpected(p, op, l, r, BindingTypes(env), expected));
      if a.None? || !InfixOperator(op) then None
      else if TypeOf(p, bits, r, env, RightExpected(p, op, r, BindingTypes(env), a.value)) != a then None
      else if !Operates(op, a.value) then None
      else AsExpected(if Comparison(op) then TBool else a.value, expected)
    case IfElse(c, yes, no) =>
      if expected.None? || TypeOf(p, bits, c, env, Some(TBool)).None? then None
      else if !StmtsFit(p, bits, yes, env, expected.value, false) then None
      else if TypeOf(p, bits, no, env, expected).None? then None
      else expected
    case Method(op, l, r) =>
      var a := TypeOf(p, bits, l, env, OrElse(Hint(p, l, BindingTypes(env)), expected));
      if a.None? || a.value.TBool? || !Intrinsic(op) then None
      else if TypeOf(p, bits, r, env, a).None? then None
      else AsExpected(a.value, expected)
    case Call(name, args) =>
      if Lookup(env, name).Some? || name !in p then None
      else if !ArgsFit(p, bits, args, env, p[name].formals) then None
      else AsExpected(p[name].result, expected)
    case _ => None
  }

  /** A literal takes its suffix or else the expected type, and has to fit. */
  function LiteralType(bits: nat, value: nat, suffix: Option<Ty>, expected: Option<Ty>): Option<Ty> {
    var ty := OrElse(suffix, expected);
    if ty.None? || BitsOf(ty.value, bits).None? then None
    else if value > MAX_U64 || value >= Pow2(BitsOf(ty.value, bits).value) then None
    else AsExpected(ty.value, expected)
  }

  /** Truth values are only compared for equality. */
  predicate Operates(op: Op, ty: Ty) { ty.TBool? ==> op.Eq? || op.Ne? }

  /** As many arguments as formals, each of its formal's type. */
  predicate ArgsFit(p: Program, bits: nat, args: Args, env: Env, formals: seq<Formal>)
    decreases args
  {
    match args
    case NoArgs => formals == []
    case Arg(e, rest) =>
      && formals != [] && TypeOf(p, bits, e, env, Some(formals[0].ty)).Some?
      && ArgsFit(p, bits, rest, env, formals[1..])
  }

  /** A block that ends in an expression of its type; only a function's own body may assign. */
  predicate StmtsFit(p: Program, bits: nat, stmts: Stmts, env: Env, result: Ty, assigns: bool)
    decreases stmts
  {
    match stmts
    case End => false
    case Then(Local(name, mutable, annotation, init), rest) =>
      var ty := TypeOf(p, bits, init, env, annotation);
      ty.Some? && StmtsFit(p, bits, rest, env + [Binding(name, ty.value, mutable)], result, assigns)
    case Then(Assign(name, e), rest) =>
      && assigns && Lookup(env, name).Some? && Lookup(env, name).value.1.mutable
      && var ty := Lookup(env, name).value.1.ty;
         && TypeOf(p, bits, e, env, Some(ty)).Some?
         && StmtsFit(p, bits, rest, env + [Binding(name, ty, true)], result, assigns)
    case Then(XorAssign(name, e), rest) =>
      && assigns && Lookup(env, name).Some? && Lookup(env, name).value.1.mutable
      && var ty := Lookup(env, name).value.1.ty;
         && !ty.TBool? && TypeOf(p, bits, e, env, Some(ty)).Some?
         && StmtsFit(p, bits, rest, env + [Binding(name, ty, true)], result, assigns)
    case Then(AssertThat(c), rest) =>
      TypeOf(p, bits, c, env, Some(TBool)).Some? && StmtsFit(p, bits, rest, env, result, assigns)
    case Then(Tail(e), rest) => rest.End? && TypeOf(p, bits, e, env, Some(result)).Some?
    case Then(OtherStmt, _) => false
  }

  /** Distinct parameters and a body of the declared type. */
  predicate ItemFits(p: Program, bits: nat, item: Item) {
    DistinctFormals(item.formals) && StmtsFit(p, bits, item.body, ParamEnv(item.formals), item.result, true)
  }

  ghost predicate ProgramFits(p: Program, bits: nat) {
    forall name | name in p :: ItemFits(p, bits, p[name])
  }

  /** A type that was expected is the type there is. */
  lemma {:induction false} TypeIsExpected(p: Program, bits: nat, e: Src, env: Env, expected: Option<Ty>)
    requires expected.Some? && TypeOf(p, bits, e, env, expected).Some?
    ensures TypeOf(p, bits, e, env, expected) == expected
    decreases e
  {
    if e.Paren? {
      TypeIsExpected(p, bits, e.inner, env, expected);
    }
  }

  /** The common type of both operands of an operator, if they have one that it takes. */
  function OperandsType(
    p: Program, bits: nat, op: Op, l: Src, r: Src, env: Env, expected: Option<Ty>): Option<Ty>
  {
    var a := TypeOf(p, bits, l, env, LeftExpected(p, op, l, r, BindingTypes(env), expected));
    if a.None? then None
    else if TypeOf(p, bits, r, env, RightExpected(p, op, r, BindingTypes(env), a.value)) != a then None
    else if !Operates(op, a.value) then None
    else a
  }

  lemma OperandsLeft(p: Program, bits: nat, op: Op, l: Src, r: Src, env: Env, expected: Option<Ty>)
    ensures OperandsType(p, bits, op, l, r, env, expected).Some? ==>
              TypeOf(p, bits, l, env, LeftExpected(p, op, l, r, BindingTypes(env), expected)).Some?
  {
    hide LeftExpected;
  }

  lemma OperandsRight(p: Program, bits: nat, op: Op, l: Src, r: Src, env: Env, expected: Option<Ty>, left: Ty)
    requires TypeOf(p, bits, l, env, LeftExpected(p, op, l, r, BindingTypes(env), expected)) == Some(left)
    ensures
      var right := RightExpected(p, op, r, BindingTypes(env), left);
      && (OperandsType(p, bits, op, l, r, env, expected) ==
          if TypeOf(p, bits, r, env, right) == Some(left) && Operates(op, left) then Some(left) else None)
      && (!Shift(op) ==> right == Some(left))
  {
    hide LeftExpected, TypeOf;
  }

  /** The operands that a compound assignment stands for. */
  lemma XorOperandsType(p: Program, bits: nat, name: string, e: Src, env: Env)
    requires Lookup(env, name).Some?
    ensures
      var ty := Lookup(env, name).value.1.ty;
      OperandsType(p, bits, BitXor, Path(name), Paren(e), env, Some(ty)) ==
      if ty.TBool? || TypeOf(p, bits, e, env, Some(ty)).None? then None else Some(ty)
  {
    var ty := Lookup(env, name).value.1.ty;
    var l, r := Path(name), Paren(e);
    assert Hint(p, l, BindingTypes(env)) == Some(ty);
    assert LeftExpected(p, BitXor, l, r, BindingTypes(env), Some(ty)) == Some(ty);
    assert RightExpected(p, BitXor, r, BindingTypes(env), ty) == Some(ty);
    assert TypeOf(p, bits, r, env, Some(ty)) == TypeOf(p, bits, e, env, Some(ty));
    if TypeOf(p, bits, e, env, Some(ty)).Some? {
      TypeIsExpected(p, bits, e, env, Some(ty));
    }
  }

  // ---- Calls.

  /** Everything called has a lower rank than the bound. */
  predicate CallsBelow(e: Src, rank: string -> nat, bound: nat)
    decreases e
  {
    match e
    case Paren(x) => CallsBelow(x, rank, bound)
    case Block(body) => StmtsBelow(body, rank, bound)
    case NotOf(x) => CallsBelow(x, rank, bound)
    case AndOf(l, r) => CallsBelow(l, rank, bound) && CallsBelow(r, rank, bound)
    case OrOf(l, r) => CallsBelow(l, rank, bound) && CallsBelow(r, rank, bound)
    case Infix(_, l, r) => CallsBelow(l, rank, bound) && CallsBelow(r, rank, bound)
    case IfElse(c, yes, no) => CallsBelow(c, rank, bound) && StmtsBelow(yes, rank, bound) && CallsBelow(no, rank, bound)
    case IfOnly(c, yes) => CallsBelow(c, rank, bound) && StmtsBelow(yes, rank, bound)
    case Method(_, l, r) => CallsBelow(l, rank, bound) && CallsBelow(r, rank, bound)
    case Call(name, args) => rank(name) < bound && ArgsBelow(args, rank, bound)
    case _ => true
  }

  predicate ArgsBelow(args: Args, rank: string -> nat, bound: nat)
    decreases args
  {
    match args
    case NoArgs => true
    case Arg(e, rest) => CallsBelow(e, rank, bound) && ArgsBelow(rest, rank, bound)
  }

  predicate StmtsBelow(stmts: Stmts, rank: string -> nat, bound: nat)
    decreases stmts
  {
    match stmts
    case End => true
    case Then(Local(_, _, _, e), rest) => CallsBelow(e, rank, bound) && StmtsBelow(rest, rank, bound)
    case Then(Assign(_, e), rest) => CallsBelow(e, rank, bound) && StmtsBelow(rest, rank, bound)
    case Then(XorAssign(_, e), rest) => CallsBelow(e, rank, bound) && StmtsBelow(rest, rank, bound)
    case Then(AssertThat(e), rest) => CallsBelow(e, rank, bound) && StmtsBelow(rest, rank, bound)
    case Then(Tail(e), rest) => CallsBelow(e, rank, bound) && StmtsBelow(rest, rank, bound)
    case Then(OtherStmt, rest) => StmtsBelow(rest, rank, bound)
  }

  /** Calls only lead downwards, from below the limit: no cycle, and no chain longer than the limit. */
  ghost predicate Ranked(p: Program, rank: string -> nat, limit: nat) {
    forall name | name in p :: rank(name) < limit && StmtsBelow(p[name].body, rank, rank(name))
  }
}
