/**
 * What it means for lowered code to be right, and why each lowering step is: the store
 * of mutable locals and the environment of immutable lets always agree on every visible
 * name (provium/src/frontend.rs, provium/src/ir.rs).
 */
module LoweringMeaning {
  import opened Types
  import opened ScalarIr
  import opened RustOperators
  import opened ScalarSource

  // ---- Compile-time environments.

  datatype Binding = Binding(name: string, ty: Ty, mutable: bool)

  type Env = seq<Binding>

  /** The de Bruijn index and binding of the innermost variable of this name. */
  function Lookup(env: Env, name: string): (r: Option<(nat, Binding)>)
    ensures r.Some? ==> r.value.0 < |env| && r.value.1 == env[|env| - 1 - r.value.0] && r.value.1.name == name
  {
    if env == [] then None
    else if env[|env| - 1].name == name then Some((0, env[|env| - 1]))
    else
      var rest := Lookup(env[..|env| - 1], name);
      if rest.None? then None else Some((rest.value.0 + 1, rest.value.1))
  }

  function EnvTypes(env: Env): seq<Ty> {
    seq(|env|, i requires 0 <= i < |env| => env[|env| - 1 - i].ty)
  }

  function BindingTypes(env: Env): NameTypes {
    name => var b := Lookup(env, name); if b.Some? then Some(b.value.1.ty) else None
  }

  // ---- Agreement of the store and the lets.

  ghost predicate SameVariable(env: Env, scope: Scope, store: Store, vals: Values, name: string) {
    match Lookup(env, name)
    case None => Find(scope, name).None?
    case Some(found) =>
      && Find(scope, name).Some?
      && var slot := Find(scope, name).value;
         slot.ty == found.1.ty && slot.loc < |store| && found.0 < |vals| && store[slot.loc] == vals[found.0]
  }

  /** No two slots share a location, and all are in the store. */
  ghost predicate Apart(scope: Scope, store: Store) {
    && (forall i | 0 <= i < |scope| :: scope[i].loc < |store|)
    && (forall i, k | 0 <= i < k < |scope| :: scope[i].loc != scope[k].loc)
  }

  ghost predicate Related(env: Env, scope: Scope, store: Store, vals: Values, bits: nat) {
    && EnvTyped(vals, EnvTypes(env), bits)
    && Apart(scope, store)
    && forall name :: SameVariable(env, scope, store, vals, name)
  }

  /** Everything that was in the store is still there. */
  ghost predicate Extends(store: Store, more: Store) {
    |store| <= |more| && more[..|store|] == store
  }

  lemma ExtendsTrans(a: Store, b: Store, c: Store)
    requires Extends(a, b) && Extends(b, c)
    ensures Extends(a, c)
  {
    assert c[..|a|] == c[..|b|][..|a|];
  }

  lemma {:induction false} FindIn(scope: Scope, name: string)
    ensures Find(scope, name).Some? ==> exists i :: 0 <= i < |scope| && scope[i] == Find(scope, name).value
    ensures Find(scope, name).Some? ==> Find(scope, name).value.name == name
    decreases |scope|
  {
    if scope != [] && scope[|scope| - 1].name != name {
      FindIn(scope[..|scope| - 1], name);
      if Find(scope[..|scope| - 1], name).Some? {
        var i :| 0 <= i < |scope| - 1 && scope[..|scope| - 1][i] == Find(scope[..|scope| - 1], name).value;
        assert scope[i] == Find(scope, name).value;
      }
    }
  }

  lemma RelatedExtends(env: Env, scope: Scope, store: Store, more: Store, vals: Values, bits: nat)
    requires Related(env, scope, store, vals, bits) && Extends(store, more)
    ensures Related(env, scope, more, vals, bits)
  {
    forall name ensures SameVariable(env, scope, more, vals, name) {
      assert SameVariable(env, scope, store, vals, name);
    }
  }

  /** A let: a fresh location on one side, a new innermost value on the other. */
  lemma RelatedLet(env: Env, scope: Scope, store: Store, vals: Values, bits: nat, b: Binding, v: Value)
    requires Related(env, scope, store, vals, bits) && Admits(b.ty, v, bits)
    ensures Related(env + [b], scope + [Slot(b.name, |store|, b.ty)], store + [v], [v] + vals, bits)
  {
    var env1, scope1 := env + [b], scope + [Slot(b.name, |store|, b.ty)];
    assert EnvTypes(env1) == [b.ty] + EnvTypes(env);
    assert env1[..|env1| - 1] == env && scope1[..|scope1| - 1] == scope;
    forall name ensures SameVariable(env1, scope1, store + [v], [v] + vals, name) {
      assert SameVariable(env, scope, store, vals, name);
    }
  }

  /** An assignment: the location changes on one side, a shadowing let appears on the other. */
  lemma RelatedAssign(
    env: Env, scope: Scope, store: Store, vals: Values, bits: nat, name: string, mutable: bool, v: Value)
    requires Related(env, scope, store, vals, bits) && Find(scope, name).Some?
    requires Admits(Find(scope, name).value.ty, v, bits)
    ensures Find(scope, name).value.loc < |store|
    ensures
      var slot := Find(scope, name).value;
      Related(env + [Binding(name, slot.ty, mutable)], scope, store[slot.loc := v], [v] + vals, bits)
  {
    var slot := Find(scope, name).value;
    var b := Binding(name, slot.ty, mutable);
    var env1 := env + [b];
    assert EnvTypes(env1) == [b.ty] + EnvTypes(env);
    assert env1[..|env1| - 1] == env;
    FindIn(scope, name);
    var store1, vals1 := store[slot.loc := v], [v] + vals;
    forall other ensures SameVariable(env1, scope, store1, vals1, other) {
      assert SameVariable(env, scope, store, vals, other);
      FindIn(scope, other);
    }
  }

  lemma TypesAgree(env: Env, scope: Scope, store: Store, vals: Values, bits: nat)
    requires Related(env, scope, store, vals, bits)
    ensures forall name :: BindingTypes(env)(name) == ScopeTypes(scope)(name)
  {
    forall name ensures BindingTypes(env)(name) == ScopeTypes(scope)(name) {
      assert SameVariable(env, scope, store, vals, name);
    }
  }

  // ---- Right code.

  /** The run ends as the evaluator does, and only allocates. */
  ghost predicate Agrees(run: Run, out: Outcome, ty: Ty, store: Store) {
    match out
    case Ok(v) => run.Finished? && run.value == v && run.ty == ty && Extends(store, run.store)
    case Err(f) => run == Faulted(f)
  }

  /** The run ends as the evaluator does, whatever it leaves in the store. */
  ghost predicate Yields(run: Run, out: Outcome, ty: Ty) {
    match out
    case Ok(v) => run.Finished? && run.value == v && run.ty == ty
    case Err(f) => run == Faulted(f)
  }

  ghost predicate MeansExpr(p: Program, bits: nat, d: nat, e: Src, env: Env, expected: Option<Ty>, ir: Expr) {
    forall fuel: nat, scope, store, vals | fuel >= d && Related(env, scope, store, vals, bits) ::
      Agrees(EvalExpr(p, bits, fuel, e, scope, store, expected), Evaluate(ir, vals), ir.ty, store)
  }

  /** A block that may not assign only allocates; the body of a function may. */
  ghost predicate MeansStmts(
    p: Program, bits: nat, d: nat, stmts: Stmts, env: Env, result: Ty, assigns: bool, ir: Expr)
  {
    forall fuel: nat, scope, store, vals | fuel >= d && Related(env, scope, store, vals, bits) ::
      var run := EvalStmts(p, bits, fuel, stmts, scope, store, result);
      Yields(run, Evaluate(ir, vals), ir.ty) && (!assigns ==> Agrees(run, Evaluate(ir, vals), ir.ty, store))
  }

  ghost predicate Right(p: Program, bits: nat, d: nat, e: Src, env: Env, expected: Option<Ty>, ir: Expr) {
    && WellTyped(ir, EnvTypes(env), bits) && (expected.Some? ==> ir.ty == expected.value)
    && MeansExpr(p, bits, d, e, env, expected, ir)
  }

  ghost predicate RightStmts(
    p: Program, bits: nat, d: nat, stmts: Stmts, env: Env, result: Ty, assigns: bool, ir: Expr)
  {
    && WellTyped(ir, EnvTypes(env), bits) && ir.ty == result
    && MeansStmts(p, bits, d, stmts, env, result, assigns, ir)
  }

  /** The next part of an expression runs in what the previous part left. */
  lemma Continue(
    p: Program, bits: nat, d: nat, fuel: nat, e: Src, env: Env, expected: Option<Ty>, ir: Expr,
    scope: Scope, store: Store, mid: Store, vals: Values)
    requires MeansExpr(p, bits, d, e, env, expected, ir) && fuel >= d
    requires Related(env, scope, store, vals, bits) && Extends(store, mid)
    ensures Agrees(EvalExpr(p, bits, fuel, e, scope, mid, expected), Evaluate(ir, vals), ir.ty, store)
    ensures Agrees(EvalExpr(p, bits, fuel, e, scope, mid, expected), Evaluate(ir, vals), ir.ty, mid)
  {
    hide Related, EvalExpr, Evaluate;
    RelatedExtends(env, scope, store, mid, vals, bits);
    var run := EvalExpr(p, bits, fuel, e, scope, mid, expected);
    if run.Finished? && Evaluate(ir, vals).Ok? {
      ExtendsTrans(store, mid, run.store);
    }
  }

  lemma RelatedTyped(env: Env, scope: Scope, store: Store, vals: Values, bits: nat, ir: Expr)
    requires (bits == 32 || bits == 64) && Related(env, scope, store, vals, bits)
    requires WellTyped(ir, EnvTypes(env), bits)
    ensures Typed(Evaluate(ir, vals), ir.ty, bits)
  {
    EvaluationIsTyped(ir, EnvTypes(env), vals, bits);
  }

  // ---- Leaves.

  lemma PathRight(p: Program, bits: nat, name: string, env: Env)
    requires Lookup(env, name).Some?
    ensures
      var found := Lookup(env, name).value;
      Right(p, bits, 0, Path(name), env, Some(found.1.ty), Expr(found.1.ty, KVar(found.0)))
    ensures
      var found := Lookup(env, name).value;
      Right(p, bits, 0, Path(name), env, None, Expr(found.1.ty, KVar(found.0)))
  {
    var found := Lookup(env, name).value;
    var ir := Expr(found.1.ty, KVar(found.0));
    forall fuel: nat, scope, store, vals, expected: Option<Ty> | Related(env, scope, store, vals, bits)
      ensures Agrees(EvalExpr(p, bits, fuel, Path(name), scope, store, expected), Evaluate(ir, vals), ir.ty, store)
    {
      assert SameVariable(env, scope, store, vals, name);
    }
  }

  lemma BoolRight(p: Program, bits: nat, b: bool, env: Env, expected: Option<Ty>)
    requires expected.Some? ==> expected.value == TBool
    ensures Right(p, bits, 0, BoolLit(b), env, expected, Expr(TBool, KBool(b)))
  {
    hide Related;
  }

  lemma IntRight(p: Program, bits: nat, value: nat, suffix: Option<Ty>, env: Env, expected: Option<Ty>)
    requires (bits == 32 || bits == 64) && OrElse(suffix, expected).Some?
    requires expected.Some? ==> expected == OrElse(suffix, expected)
    requires BitsOf(OrElse(suffix, expected).value, bits).Some?
    requires value < Pow2(BitsOf(OrElse(suffix, expected).value, bits).value)
    ensures
      var ty := OrElse(suffix, expected).value;
      Right(p, bits, 0, IntLit(value, suffix), env, expected, Expr(ty, KUInt(BitsOf(ty, bits).value, value)))
  {
    hide Related, Pow2;
  }

  // ---- Operators.

  lemma ParenRight(p: Program, bits: nat, d: nat, e: Src, env: Env, expected: Option<Ty>, ir: Expr)
    requires Right(p, bits, d, e, env, expected, ir)
    ensures Right(p, bits, d, Paren(e), env, expected, ir)
  {
    hide Related, Evaluate, Agrees, WellTyped;
    forall fuel: nat, scope, store, vals | fuel >= d && Related(env, scope, store, vals, bits)
      ensures Agrees(EvalExpr(p, bits, fuel, Paren(e), scope, store, expected), Evaluate(ir, vals), ir.ty, store)
    {
      assert EvalExpr(p, bits, fuel, Paren(e), scope, store, expected) ==
             EvalExpr(p, bits, fuel, e, scope, store, expected);
    }
  }

  lemma BlockRight(p: Program, bits: nat, d: nat, body: Stmts, env: Env, result: Ty, ir: Expr)
    requires RightStmts(p, bits, d, body, env, result, false, ir)
    ensures Right(p, bits, d, Block(body), env, Some(result), ir)
  {
    hide Related, Evaluate, Agrees, Yields, WellTyped;
    forall fuel: nat, scope, store, vals | fuel >= d && Related(env, scope, store, vals, bits)
      ensures Agrees(EvalExpr(p, bits, fuel, Block(body), scope, store, Some(result)), Evaluate(ir, vals), ir.ty, store)
    {
      assert EvalExpr(p, bits, fuel, Block(body), scope, store, Some(result)) ==
             EvalStmts(p, bits, fuel, body, scope, store, result);
    }
  }

  lemma NotRight(p: Program, bits: nat, d: nat, e: Src, env: Env, ir: Expr)
    requires (bits == 32 || bits == 64) && Right(p, bits, d, e, env, Some(TBool), ir)
    ensures Right(p, bits, d, NotOf(e), env, Some(TBool), Expr(TBool, KNot(ir)))
    ensures Right(p, bits, d, NotOf(e), env, None, Expr(TBool, KNot(ir)))
  {
    hide Related;
    forall fuel: nat, scope, store, vals, expected: Option<Ty> | fuel >= d && Related(env, scope, store, vals, bits)
      ensures Agrees(EvalExpr(p, bits, fuel, NotOf(e), scope, store, expected),
                     Evaluate(Expr(TBool, KNot(ir)), vals), TBool, store)
    {
      RelatedTyped(env, scope, store, vals, bits, ir);
      Continue(p, bits, d, fuel, e, env, Some(TBool), ir, scope, store, store, vals);
    }
  }

  /** && is an if on the left operand. */
  lemma EvalAnd(
    p: Program, bits: nat, fuel: nat, l: Src, r: Src, scope: Scope, store: Store, expected: Option<Ty>)
    ensures
      var left := EvalExpr(p, bits, fuel, l, scope, store, Some(TBool));
      EvalExpr(p, bits, fuel, AndOf(l, r), scope, store, expected) ==
      if !left.Finished? then left
      else if !left.value.VBool? then Stuck
      else if left.value.b then EvalExpr(p, bits, fuel, r, scope, left.store, Some(TBool))
      else Finished(VBool(false), TBool, left.store)
  {
  }

  lemma AndMeans(
    p: Program, bits: nat, d: nat, l: Src, r: Src, env: Env, il: Expr, ir: Expr,
    fuel: nat, scope: Scope, store: Store, vals: Values, expected: Option<Ty>)
    requires bits == 32 || bits == 64
    requires Right(p, bits, d, l, env, Some(TBool), il) && Right(p, bits, d, r, env, Some(TBool), ir)
    requires fuel >= d && Related(env, scope, store, vals, bits)
    ensures Agrees(EvalExpr(p, bits, fuel, AndOf(l, r), scope, store, expected),
                   Evaluate(Expr(TBool, KIf(il, ir, Expr(TBool, KBool(false)))), vals), TBool, store)
  {
    EvalAnd(p, bits, fuel, l, r, scope, store, expected);
    hide Related, WellTyped, EvalExpr;
    RelatedTyped(env, scope, store, vals, bits, il);
    Continue(p, bits, d, fuel, l, env, Some(TBool), il, scope, store, store, vals);
    if Evaluate(il, vals).Ok? {
      var s := EvalExpr(p, bits, fuel, l, scope, store, Some(TBool)).store;
      Continue(p, bits, d, fuel, r, env, Some(TBool), ir, scope, store, s, vals);
    }
  }

  lemma AndRight(p: Program, bits: nat, d: nat, l: Src, r: Src, env: Env, il: Expr, ir: Expr)
    requires bits == 32 || bits == 64
    requires Right(p, bits, d, l, env, Some(TBool), il) && Right(p, bits, d, r, env, Some(TBool), ir)
    ensures
      var whole := Expr(TBool, KIf(il, ir, Expr(TBool, KBool(false))));
      Right(p, bits, d, AndOf(l, r), env, Some(TBool), whole) && Right(p, bits, d, AndOf(l, r), env, None, whole)
  {
    hide Related, EvalExpr, Evaluate, Agrees;
    var whole := Expr(TBool, KIf(il, ir, Expr(TBool, KBool(false))));
    assert WellTyped(whole, EnvTypes(env), bits);
    forall fuel: nat, scope, store, vals, expected: Option<Ty> | fuel >= d && Related(env, scope, store, vals, bits)
      ensures Agrees(EvalExpr(p, bits, fuel, AndOf(l, r), scope, store, expected), Evaluate(whole, vals), TBool, store)
    {
      AndMeans(p, bits, d, l, r, env, il, ir, fuel, scope, store, vals, expected);
    }
  }

  /** || too. */
  lemma EvalOr(
    p: Program, bits: nat, fuel: nat, l: Src, r: Src, scope: Scope, store: Store, expected: Option<Ty>)
    ensures
      var left := EvalExpr(p, bits, fuel, l, scope, store, Some(TBool));
      EvalExpr(p, bits, fuel, OrOf(l, r), scope, store, expected) ==
      if !left.Finished? then left
      else if !left.value.VBool? then Stuck
      else if left.value.b then Finished(VBool(true), TBool, left.store)
      else EvalExpr(p, bits, fuel, r, scope, left.store, Some(TBool))
  {
  }

  lemma OrMeans(
    p: Program, bits: nat, d: nat, l: Src, r: Src, env: Env, il: Expr, ir: Expr,
    fuel: nat, scope: Scope, store: Store, vals: Values, expected: Option<Ty>)
    requires bits == 32 || bits == 64
    requires Right(p, bits, d, l, env, Some(TBool), il) && Right(p, bits, d, r, env, Some(TBool), ir)
    requires fuel >= d && Related(env, scope, store, vals, bits)
    ensures Agrees(EvalExpr(p, bits, fuel, OrOf(l, r), scope, store, expected),
                   Evaluate(Expr(TBool, KIf(il, Expr(TBool, KBool(true)), ir)), vals), TBool, store)
  {
    EvalOr(p, bits, fuel, l, r, scope, store, expected);
    hide Related, WellTyped, EvalExpr;
    RelatedTyped(env, scope, store, vals, bits, il);
    Continue(p, bits, d, fuel, l, env, Some(TBool), il, scope, store, store, vals);
    if Evaluate(il, vals).Ok? {
      var s := EvalExpr(p, bits, fuel, l, scope, store, Some(TBool)).store;
      Continue(p, bits, d, fuel, r, env, Some(TBool), ir, scope, store, s, vals);
    }
  }

  lemma OrRight(p: Program, bits: nat, d: nat, l: Src, r: Src, env: Env, il: Expr, ir: Expr)
    requires bits == 32 || bits == 64
    requires Right(p, bits, d, l, env, Some(TBool), il) && Right(p, bits, d, r, env, Some(TBool), ir)
    ensures
      var whole := Expr(TBool, KIf(il, Expr(TBool, KBool(true)), ir));
      Right(p, bits, d, OrOf(l, r), env, Some(TBool), whole) && Right(p, bits, d, OrOf(l, r), env, None, whole)
  {
    hide Related, EvalExpr, Evaluate, Agrees;
    var whole := Expr(TBool, KIf(il, Expr(TBool, KBool(true)), ir));
    assert WellTyped(whole, EnvTypes(env), bits);
    forall fuel: nat, scope, store, vals, expected: Option<Ty> | fuel >= d && Related(env, scope, store, vals, bits)
      ensures Agrees(EvalExpr(p, bits, fuel, OrOf(l, r), scope, store, expected), Evaluate(whole, vals), TBool, store)
    {
      OrMeans(p, bits, d, l, r, env, il, ir, fuel, scope, store, vals, expected);
    }
  }

  /** Two operands, left first, then the operation; for infix operators and intrinsic methods alike. */
  lemma OperandsAgree(
    p: Program, bits: nat, d: nat, fuel: nat, op: Op, l: Src, r: Src, env: Env, le: Option<Ty>, re: Option<Ty>,
    il: Expr, ir: Expr, ty: Ty, scope: Scope, store: Store, vals: Values)
    requires bits == 32 || bits == 64
    requires Right(p, bits, d, l, env, le, il) && Right(p, bits, d, r, env, re, ir) && il.ty == ir.ty
    requires OperatorTyped(op, il.ty, ty) && fuel >= d && Related(env, scope, store, vals, bits)
    ensures
      var a := EvalExpr(p, bits, fuel, l, scope, store, le);
      var whole := Expr(ty, KBinary(op, il, ir));
      if !a.Finished? then Agrees(a, Evaluate(whole, vals), ty, store)
      else
        var b := EvalExpr(p, bits, fuel, r, scope, a.store, re);
        && a.ty == il.ty
        && if !b.Finished? then Agrees(b, Evaluate(whole, vals), ty, store)
           else Agrees(Operated(op, a.value, a.ty, b.value, b.store), Evaluate(whole, vals), ty, store)
  {
    hide Related, Binary, EvalExpr, Operated, Evaluate, Admits, EnvTypes, WellTyped, OperatorTyped, MeansExpr;
    WholeEvaluates(op, il, ir, ty, vals);
    Continue(p, bits, d, fuel, l, env, le, il, scope, store, store, vals);
    if Evaluate(il, vals).Ok? {
      var s := EvalExpr(p, bits, fuel, l, scope, store, le).store;
      Continue(p, bits, d, fuel, r, env, re, ir, scope, store, s, vals);
      if Evaluate(ir, vals).Ok? {
        RelatedTyped(env, scope, store, vals, bits, il);
        RelatedTyped(env, scope, store, vals, bits, ir);
        var more := EvalExpr(p, bits, fuel, r, scope, s, re).store;
        OperatedIsBinary(op, il.ty, ty, Evaluate(il, vals).value, Evaluate(ir, vals).value, bits, more);
      }
    }
  }

  lemma WholeEvaluates(op: Op, il: Expr, ir: Expr, ty: Ty, vals: Values)
    ensures
      Evaluate(Expr(ty, KBinary(op, il, ir)), vals) ==
      match Evaluate(il, vals)
      case Err(f) => Err(f)
      case Ok(a) =>
        match Evaluate(ir, vals)
        case Err(f) => Err(f)
        case Ok(b) => Binary(op, a, b)
  {
    hide Binary;
  }

  /** Rust's operation on two values of a type ends as the evaluator's. */
  lemma OperatedIsBinary(op: Op, operand: Ty, ty: Ty, a: Value, b: Value, bits: nat, store: Store)
    requires (bits == 32 || bits == 64) && OperatorTyped(op, operand, ty)
    requires Admits(operand, a, bits) && Admits(operand, b, bits)
    ensures Operated(op, a, operand, b, store) ==
            match Binary(op, a, b)
            case Ok(v) => Finished(v, ty, store)
            case Err(f) => Faulted(f)
  {
    hide Binary, Computed, Admits;
    BinaryIsRusts(op, operand, ty, a, b, bits);
  }

  lemma HintsAgree(p: Program, e: Src, env: Env, scope: Scope, store: Store, vals: Values, bits: nat)
    requires Related(env, scope, store, vals, bits)
    ensures Hint(p, e, BindingTypes(env)) == Hint(p, e, ScopeTypes(scope))
  {
    TypesAgree(env, scope, store, vals, bits);
    HintSame(p, e, BindingTypes(env), ScopeTypes(scope));
  }

  lemma InfixRight(
    p: Program, bits: nat, d: nat, op: Op, l: Src, r: Src, env: Env, expected: Option<Ty>, il: Expr, ir: Expr, ty: Ty)
    requires bits == 32 || bits == 64
    requires Right(p, bits, d, l, env, LeftExpected(p, op, l, r, BindingTypes(env), expected), il)
    requires Right(p, bits, d, r, env, RightExpected(p, op, r, BindingTypes(env), il.ty), ir)
    requires il.ty == ir.ty && OperatorTyped(op, il.ty, ty) && (expected.Some? ==> expected.value == ty)
    ensures Right(p, bits, d, Infix(op, l, r), env, expected, Expr(ty, KBinary(op, il, ir)))
  {
    hide Related, Binary, Hint, OperatorTyped, Operated, Agrees;
    var whole := Expr(ty, KBinary(op, il, ir));
    forall fuel: nat, scope, store, vals | fuel >= d && Related(env, scope, store, vals, bits)
      ensures Agrees(EvalExpr(p, bits, fuel, Infix(op, l, r), scope, store, expected), Evaluate(whole, vals), ty, store)
    {
      HintsAgree(p, l, env, scope, store, vals, bits);
      HintsAgree(p, r, env, scope, store, vals, bits);
      OperandsAgree(p, bits, d, fuel, op, l, r, env, LeftExpected(p, op, l, r, BindingTypes(env), expected),
                    RightExpected(p, op, r, BindingTypes(env), il.ty), il, ir, ty, scope, store, vals);
    }
  }

  lemma MethodRight(
    p: Program, bits: nat, d: nat, op: Op, l: Src, r: Src, env: Env, expected: Option<Ty>, il: Expr, ir: Expr)
    requires bits == 32 || bits == 64
    requires Right(p, bits, d, l, env, OrElse(Hint(p, l, BindingTypes(env)), expected), il)
    requires Right(p, bits, d, r, env, Some(il.ty), ir)
    requires !Comparison(op) && il.ty != TBool && (expected.Some? ==> expected.value == il.ty)
    ensures Right(p, bits, d, Method(op, l, r), env, expected, Expr(il.ty, KBinary(op, il, ir)))
  {
    hide Related, Binary, Hint, Operated, Agrees;
    var whole := Expr(il.ty, KBinary(op, il, ir));
    forall fuel: nat, scope, store, vals | fuel >= d && Related(env, scope, store, vals, bits)
      ensures Agrees(EvalExpr(p, bits, fuel, Method(op, l, r), scope, store, expected), Evaluate(whole, vals), il.ty,
          store)
    {
      HintsAgree(p, l, env, scope, store, vals, bits);
      OperandsAgree(p, bits, d, fuel, op, l, r, env, OrElse(Hint(p, l, BindingTypes(env)), expected),
                    Some(il.ty), il, ir, il.ty, scope, store, vals);
    }
  }

  /** One if, from the store it starts in to what its branch leaves. */
  lemma IfMeans(
    p: Program, bits: nat, d: nat, c: Src, yes: Stmts, no: Src, env: Env, result: Ty, ic: Expr, iy: Expr, no_: Expr,
    fuel: nat, scope: Scope, store: Store, vals: Values)
    requires (bits == 32 || bits == 64) && Right(p, bits, d, c, env, Some(TBool), ic)
    requires RightStmts(p, bits, d, yes, env, result, false, iy) && Right(p, bits, d, no, env, Some(result), no_)
    requires fuel >= d && Related(env, scope, store, vals, bits)
    ensures Agrees(EvalExpr(p, bits, fuel, IfElse(c, yes, no), scope, store, Some(result)),
                   Evaluate(Expr(result, KIf(ic, iy, no_)), vals), result, store)
  {
    hide Related, WellTyped, EvalStmts;
    RelatedTyped(env, scope, store, vals, bits, ic);
    Continue(p, bits, d, fuel, c, env, Some(TBool), ic, scope, store, store, vals);
    if Evaluate(ic, vals).Ok? {
      var s := EvalExpr(p, bits, fuel, c, scope, store, Some(TBool)).store;
      Continue(p, bits, d, fuel, no, env, Some(result), no_, scope, store, s, vals);
      ContinueStmts(p, bits, d, fuel, yes, env, result, iy, scope, store, s, vals);
    }
  }

  lemma IfRight(
    p: Program, bits: nat, d: nat, c: Src, yes: Stmts, no: Src, env: Env, result: Ty, ic: Expr, iy: Expr, no_: Expr)
    requires (bits == 32 || bits == 64) && Right(p, bits, d, c, env, Some(TBool), ic)
    requires RightStmts(p, bits, d, yes, env, result, false, iy) && Right(p, bits, d, no, env, Some(result), no_)
    ensures Right(p, bits, d, IfElse(c, yes, no), env, Some(result), Expr(result, KIf(ic, iy, no_)))
  {
    hide Related, EvalExpr, EvalStmts, Evaluate, Agrees;
    forall fuel: nat, scope, store, vals | fuel >= d && Related(env, scope, store, vals, bits)
      ensures Agrees(EvalExpr(p, bits, fuel, IfElse(c, yes, no), scope, store, Some(result)),
                     Evaluate(Expr(result, KIf(ic, iy, no_)), vals), result, store)
    {
      IfMeans(p, bits, d, c, yes, no, env, result, ic, iy, no_, fuel, scope, store, vals);
    }
  }

  lemma ContinueStmts(
    p: Program, bits: nat, d: nat, fuel: nat, stmts: Stmts, env: Env, result: Ty, ir: Expr,
    scope: Scope, store: Store, mid: Store, vals: Values)
    requires MeansStmts(p, bits, d, stmts, env, result, false, ir) && fuel >= d
    requires Related(env, scope, store, vals, bits) && Extends(store, mid)
    ensures Agrees(EvalStmts(p, bits, fuel, stmts, scope, mid, result), Evaluate(ir, vals), ir.ty, store)
  {
    hide Related, EvalStmts, Evaluate;
    RelatedExtends(env, scope, store, mid, vals, bits);
    var run := EvalStmts(p, bits, fuel, stmts, scope, mid, result);
    if run.Finished? && Evaluate(ir, vals).Ok? {
      ExtendsTrans(store, mid, run.store);
    }
  }

  // ---- Statements.

  lemma TailRight(p: Program, bits: nat, d: nat, e: Src, env: Env, result: Ty, assigns: bool, ir: Expr)
    requires Right(p, bits, d, e, env, Some(result), ir)
    ensures RightStmts(p, bits, d, Then(Tail(e), End), env, result, assigns, ir)
  {
    hide Related, Evaluate, WellTyped;
    forall fuel: nat, scope, store, vals | fuel >= d && Related(env, scope, store, vals, bits)
      ensures Agrees(EvalStmts(p, bits, fuel, Then(Tail(e), End), scope, store, result), Evaluate(ir, vals), ir.ty,
          store)
    {
      assert EvalStmts(p, bits, fuel, Then(Tail(e), End), scope, store, result) ==
             EvalExpr(p, bits, fuel, e, scope, store, Some(result));
    }
  }

  /** The rest of a block after its environment, scope and store have all moved on. */
  ghost predicate RestMeans(run: Run, out: Outcome, ty: Ty, store: Store, assigns: bool) {
    Yields(run, out, ty) && (!assigns ==> Agrees(run, out, ty, store))
  }

  /** The rest of a block runs in what the statement before it left. */
  lemma RestFollows(
    p: Program, bits: nat, d: nat, fuel: nat, rest: Stmts, env: Env, result: Ty, assigns: bool, body: Expr,
    scope: Scope, store: Store, mid: Store, vals: Values)
    requires RightStmts(p, bits, d, rest, env, result, assigns, body) && fuel >= d
    requires Related(env, scope, mid, vals, bits) && Extends(store, mid)
    ensures RestMeans(EvalStmts(p, bits, fuel, rest, scope, mid, result), Evaluate(body, vals), result, store, assigns)
  {
    hide Related, WellTyped, EvalStmts, Evaluate;
    var run := EvalStmts(p, bits, fuel, rest, scope, mid, result);
    if !assigns && run.Finished? {
      ExtendsTrans(store, mid, run.store);
    }
  }

  /** One assertion, from the store it starts in to what the rest of the block leaves. */
  lemma AssertMeans(
    p: Program, bits: nat, d: nat, c: Src, rest: Stmts, env: Env, result: Ty, assigns: bool, ic: Expr, body: Expr,
    fuel: nat, scope: Scope, store: Store, vals: Values)
    requires (bits == 32 || bits == 64) && Right(p, bits, d, c, env, Some(TBool), ic)
    requires RightStmts(p, bits, d, rest, env, result, assigns, body)
    requires fuel >= d && Related(env, scope, store, vals, bits)
    ensures RestMeans(EvalStmts(p, bits, fuel, Then(AssertThat(c), rest), scope, store, result),
                      Evaluate(Expr(result, KAssert(ic, body)), vals), result, store, assigns)
  {
    hide Related, WellTyped, EvalExpr;
    RelatedTyped(env, scope, store, vals, bits, ic);
    Continue(p, bits, d, fuel, c, env, Some(TBool), ic, scope, store, store, vals);
    if Evaluate(ic, vals).Ok? {
      var s := EvalExpr(p, bits, fuel, c, scope, store, Some(TBool)).store;
      RelatedExtends(env, scope, store, s, vals, bits);
      RestFollows(p, bits, d, fuel, rest, env, result, assigns, body, scope, store, s, vals);
    }
  }

  lemma AssertRight(
    p: Program, bits: nat, d: nat, c: Src, rest: Stmts, env: Env, result: Ty, assigns: bool, ic: Expr, body: Expr)
    requires (bits == 32 || bits == 64) && Right(p, bits, d, c, env, Some(TBool), ic)
    requires RightStmts(p, bits, d, rest, env, result, assigns, body)
    ensures RightStmts(p, bits, d, Then(AssertThat(c), rest), env, result, assigns, Expr(result, KAssert(ic, body)))
  {
    hide Related, EvalExpr, EvalStmts, Evaluate, Agrees, Yields;
    forall fuel: nat, scope, store, vals | fuel >= d && Related(env, scope, store, vals, bits)
      ensures RestMeans(EvalStmts(p, bits, fuel, Then(AssertThat(c), rest), scope, store, result),
                        Evaluate(Expr(result, KAssert(ic, body)), vals), result, store, assigns)
    {
      AssertMeans(p, bits, d, c, rest, env, result, assigns, ic, body, fuel, scope, store, vals);
    }
  }

  /** One let, from the store it starts in to what the rest of the block leaves. */
  lemma LocalMeans(
    p: Program, bits: nat, d: nat, name: string, mutable: bool, annotation: Option<Ty>, init: Src, rest: Stmts,
    env: Env, result: Ty, assigns: bool, value: Expr, body: Expr,
    fuel: nat, scope: Scope, store: Store, vals: Values)
    requires (bits == 32 || bits == 64) && Right(p, bits, d, init, env, annotation, value)
    requires RightStmts(p, bits, d, rest, env + [Binding(name, value.ty, mutable)], result, assigns, body)
    requires fuel >= d && Related(env, scope, store, vals, bits)
    ensures RestMeans(EvalStmts(p, bits, fuel, Then(Local(name, mutable, annotation, init), rest), scope, store,
        result),
                      Evaluate(Expr(result, KLet(value, body)), vals), result, store, assigns)
  {
    hide Related, WellTyped, EvalExpr, EnvTypes;
    RelatedTyped(env, scope, store, vals, bits, value);
    Continue(p, bits, d, fuel, init, env, annotation, value, scope, store, store, vals);
    if Evaluate(value, vals).Ok? {
      var v := Evaluate(value, vals).value;
      var s := EvalExpr(p, bits, fuel, init, scope, store, annotation).store;
      RelatedExtends(env, scope, store, s, vals, bits);
      RelatedLet(env, scope, s, vals, bits, Binding(name, value.ty, mutable), v);
      assert Extends(s, s + [v]);
      ExtendsTrans(store, s, s + [v]);
      RestFollows(p, bits, d, fuel, rest, env + [Binding(name, value.ty, mutable)], result, assigns, body,
                  scope + [Slot(name, |s|, value.ty)], store, s + [v], [v] + vals);
    }
  }

  lemma LocalRight(
    p: Program, bits: nat, d: nat, name: string, mutable: bool, annotation: Option<Ty>, init: Src, rest: Stmts,
    env: Env, result: Ty, assigns: bool, value: Expr, body: Expr)
    requires (bits == 32 || bits == 64) && Right(p, bits, d, init, env, annotation, value)
    requires RightStmts(p, bits, d, rest, env + [Binding(name, value.ty, mutable)], result, assigns, body)
    ensures RightStmts(p, bits, d, Then(Local(name, mutable, annotation, init), rest), env, result, assigns,
                       Expr(result, KLet(value, body)))
  {
    hide Related, EvalExpr, EvalStmts, Evaluate, Agrees, Yields;
    assert EnvTypes(env + [Binding(name, value.ty, mutable)]) == [value.ty] + EnvTypes(env);
    forall fuel: nat, scope, store, vals | fuel >= d && Related(env, scope, store, vals, bits)
      ensures RestMeans(EvalStmts(p, bits, fuel, Then(Local(name, mutable, annotation, init), rest), scope, store,
          result),
                        Evaluate(Expr(result, KLet(value, body)), vals), result, store, assigns)
    {
      LocalMeans(p, bits, d, name, mutable, annotation, init, rest, env, result, assigns, value, body,
                 fuel, scope, store, vals);
    }
  }
}
