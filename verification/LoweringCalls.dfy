/**
 * Assignments and calls: a compound assignment reads its variable late, and inlining a
 * call as a chain of lets over renamed code is evaluating the arguments left to right
 * and then the body in a frame of its own.
 */
module LoweringCalls {
  import opened Types
  import opened ScalarIr
  import opened RustOperators
  import opened ScalarSource
  import opened LoweringMeaning

  // ---- Assignments.

  /** One assignment, on both sides. */
  lemma AssignStep(
    p: Program, bits: nat, d: nat, fuel: nat, name: string, e: Src, env: Env, value: Expr,
    scope: Scope, store: Store, vals: Values)
    requires (bits == 32 || bits == 64) && Lookup(env, name).Some? && fuel >= d
    requires Right(p, bits, d, e, env, Some(Lookup(env, name).value.1.ty), value)
    requires Related(env, scope, store, vals, bits)
    ensures Find(scope, name).Some? && Find(scope, name).value.ty == value.ty
    ensures
      var run := EvalExpr(p, bits, fuel, e, scope, store, Some(value.ty));
      match Evaluate(value, vals)
      case Err(f) => run == Faulted(f)
      case Ok(v) =>
        && run.Finished? && run.value == v && Find(scope, name).value.loc < |run.store|
        && Related(env + [Binding(name, value.ty, true)], scope,
                   run.store[Find(scope, name).value.loc := v], [v] + vals, bits)
  {
    hide Evaluate, EvalExpr, WellTyped;
    assert SameVariable(env, scope, store, vals, name);
    RelatedTyped(env, scope, store, vals, bits, value);
    Continue(p, bits, d, fuel, e, env, Some(value.ty), value, scope, store, store, vals);
    if Evaluate(value, vals).Ok? {
      var s := EvalExpr(p, bits, fuel, e, scope, store, Some(value.ty)).store;
      RelatedExtends(env, scope, store, s, vals, bits);
      RelatedAssign(env, scope, s, vals, bits, name, true, Evaluate(value, vals).value);
    }
  }

  lemma AssignMeans(
    p: Program, bits: nat, d: nat, name: string, e: Src, rest: Stmts, env: Env, result: Ty, value: Expr, body: Expr,
    fuel: nat, scope: Scope, store: Store, vals: Values)
    requires (bits == 32 || bits == 64) && Lookup(env, name).Some?
    requires Right(p, bits, d, e, env, Some(Lookup(env, name).value.1.ty), value)
    requires RightStmts(p, bits, d, rest, env + [Binding(name, value.ty, true)], result, true, body)
    requires fuel >= d && Related(env, scope, store, vals, bits)
    ensures Yields(EvalStmts(p, bits, fuel, Then(Assign(name, e), rest), scope, store, result),
                   Evaluate(Expr(result, KLet(value, body)), vals), result)
  {
    hide Related, Agrees, WellTyped, EvalExpr;
    AssignStep(p, bits, d, fuel, name, e, env, value, scope, store, vals);
  }

  lemma AssignRight(
    p: Program, bits: nat, d: nat, name: string, e: Src, rest: Stmts, env: Env, result: Ty, value: Expr, body: Expr)
    requires (bits == 32 || bits == 64) && Lookup(env, name).Some?
    requires Right(p, bits, d, e, env, Some(Lookup(env, name).value.1.ty), value)
    requires RightStmts(p, bits, d, rest, env + [Binding(name, value.ty, true)], result, true, body)
    ensures RightStmts(p, bits, d, Then(Assign(name, e), rest), env, result, true, Expr(result, KLet(value, body)))
  {
    hide Related, Agrees, Yields, EvalExpr, EvalStmts, Evaluate;
    assert EnvTypes(env + [Binding(name, value.ty, true)]) == [value.ty] + EnvTypes(env);
    forall fuel: nat, scope, store, vals | fuel >= d && Related(env, scope, store, vals, bits)
      ensures Yields(EvalStmts(p, bits, fuel, Then(Assign(name, e), rest), scope, store, result),
                     Evaluate(Expr(result, KLet(value, body)), vals), result)
    {
      AssignMeans(p, bits, d, name, e, rest, env, result, value, body, fuel, scope, store, vals);
    }
  }

  /** x ^= e is x = x ^ (e), although Rust computes e first: e cannot change x. */
  lemma XorIsAssign(
    p: Program, bits: nat, d: nat, fuel: nat, name: string, e: Src, rest: Stmts, env: Env, result: Ty,
    value: Expr, scope: Scope, store: Store, vals: Values)
    requires fuel >= d && Lookup(env, name).Some? && Related(env, scope, store, vals, bits)
    requires MeansExpr(p, bits, d, e, env, Some(Lookup(env, name).value.1.ty), value)
    ensures EvalStmts(p, bits, fuel, Then(XorAssign(name, e), rest), scope, store, result) ==
            EvalStmts(p, bits, fuel, Then(Assign(name, Infix(BitXor, Path(name), Paren(e))), rest), scope, store,
                result)
  {
    hide Related, Evaluate, Operated;
    var ty := Lookup(env, name).value.1.ty;
    assert SameVariable(env, scope, store, vals, name) by { RelatedVariable(env, scope, store, vals, bits, name); }
    var slot := Find(scope, name).value;
    Continue(p, bits, d, fuel, e, env, Some(ty), value, scope, store, store, vals);
    var run := EvalExpr(p, bits, fuel, e, scope, store, Some(ty));
    XorParts(p, bits, fuel, name, e, scope, store, ty);
    if run.Finished? {
      OperatedStore(BitXor, store[slot.loc], ty, run.value, run.store);
      assert run.store[slot.loc] == store[slot.loc] by {
        assert run.store[..|store|][slot.loc] == store[slot.loc];
      }
    }
  }

  lemma OperatedStore(op: Op, a: Value, ty: Ty, b: Value, store: Store)
    ensures Operated(op, a, ty, b, store).Finished? ==> Operated(op, a, ty, b, store).store == store
  {
    hide Computed;
  }

  lemma RelatedVariable(env: Env, scope: Scope, store: Store, vals: Values, bits: nat, name: string)
    requires Related(env, scope, store, vals, bits)
    ensures SameVariable(env, scope, store, vals, name)
  {
  }

  /** What the normalized right-hand side evaluates to. */
  lemma XorParts(p: Program, bits: nat, fuel: nat, name: string, e: Src, scope: Scope, store: Store, ty: Ty)
    requires Find(scope, name).Some? && Find(scope, name).value.ty == ty && Find(scope, name).value.loc < |store|
    ensures
      var old_ := store[Find(scope, name).value.loc];
      EvalExpr(p, bits, fuel, Infix(BitXor, Path(name), Paren(e)), scope, store, Some(ty)) ==
      match EvalExpr(p, bits, fuel, e, scope, store, Some(ty))
      case Finished(v, _, s) => Operated(BitXor, old_, ty, v, s)
      case other => other
  {
    hide Operated;
    var l, r := Path(name), Paren(e);
    assert Hint(p, l, ScopeTypes(scope)) == Some(ty);
    assert LeftExpected(p, BitXor, l, r, ScopeTypes(scope), Some(ty)) == Some(ty);
    assert EvalExpr(p, bits, fuel, l, scope, store, Some(ty)) ==
           Finished(store[Find(scope, name).value.loc], ty, store);
    assert EvalExpr(p, bits, fuel, r, scope, store, Some(ty)) == EvalExpr(p, bits, fuel, e, scope, store, Some(ty));
  }

  // ---- Frames.

  predicate DistinctFormals(formals: seq<Formal>) {
    forall i, k | 0 <= i < k < |formals| :: formals[i].name != formals[k].name
  }

  function BindingOf(f: Formal): Binding { Binding(f.name, f.ty, f.mutable) }

  /** The formals in reverse, so that the first one has index zero. */
  function ParamEnv(formals: seq<Formal>): Env {
    seq(|formals|, k requires 0 <= k < |formals| => BindingOf(formals[|formals| - 1 - k]))
  }

  function ParamTypes(formals: seq<Formal>): seq<Ty> {
    seq(|formals|, k requires 0 <= k < |formals| => formals[k].ty)
  }

  lemma ParamEnvTypes(formals: seq<Formal>)
    ensures EnvTypes(ParamEnv(formals)) == ParamTypes(formals)
  {
    var env := ParamEnv(formals);
    forall i | 0 <= i < |formals| ensures EnvTypes(env)[i] == formals[i].ty {
      assert env[|env| - 1 - i] == BindingOf(formals[i]);
    }
  }

  lemma {:induction false} LookupParam(formals: seq<Formal>, name: string)
    ensures
      match Lookup(ParamEnv(formals), name)
      case None => forall k | 0 <= k < |formals| :: formals[k].name != name
      case Some(found) =>
        found.0 < |formals| && formals[found.0].name == name && found.1 == BindingOf(formals[found.0])
    decreases |formals|
  {
    if formals != [] {
      var n := |formals| - 1;
      assert ParamEnv(formals)[..n] == ParamEnv(formals[1..]);
      assert ParamEnv(formals)[n] == BindingOf(formals[0]);
      assert forall k | 0 <= k < n :: formals[1..][k] == formals[k + 1];
      assert forall k | 0 < k <= n :: formals[1..][k - 1] == formals[k];
      LookupParam(formals[1..], name);
    }
  }

  lemma {:induction false} FindParam(formals: seq<Formal>, name: string)
    ensures
      match Find(FrameScope(formals), name)
      case None => forall k | 0 <= k < |formals| :: formals[k].name != name
      case Some(slot) => slot.loc < |formals| && formals[slot.loc].name == name && slot.ty == formals[slot.loc].ty
    decreases |formals|
  {
    if formals != [] {
      var n := |formals| - 1;
      assert FrameScope(formals)[..n] == FrameScope(formals[..n]);
      FindParam(formals[..n], name);
    }
  }

  /** A frame holds its arguments on both sides. */
  lemma FrameRelated(formals: seq<Formal>, args: Values, bits: nat)
    requires DistinctFormals(formals) && EnvTyped(args, ParamTypes(formals), bits)
    ensures Related(ParamEnv(formals), FrameScope(formals), args, args, bits)
  {
    ParamEnvTypes(formals);
    forall name ensures SameVariable(ParamEnv(formals), FrameScope(formals), args, args, name) {
      LookupParam(formals, name);
      FindParam(formals, name);
    }
  }

  /** A compiled function that does what its source says on all arguments it may get. */
  ghost predicate FunctionRight(p: Program, bits: nat, d: nat, item: Item, f: Function) {
    && |f.parameters| == |item.formals|
    && (forall k | 0 <= k < |item.formals| ::
          f.parameters[k] == Parameter(item.formals[k].name, item.formals[k].ty))
    && f.result == item.result
    && WellTyped(f.body, ParamTypes(item.formals), bits) && f.body.ty == item.result
    && forall fuel: nat, args: Values | fuel >= d && EnvTyped(args, ParamTypes(item.formals), bits) ::
         Yields(EvalCall(p, bits, fuel, item, args), Evaluate(f.body, args), item.result)
  }

  lemma BodyMakesFunction(p: Program, bits: nat, d: nat, item: Item, f: Function)
    requires DistinctFormals(item.formals)
    requires RightStmts(p, bits, d, item.body, ParamEnv(item.formals), item.result, true, f.body)
    requires |f.parameters| == |item.formals| && f.result == item.result
    requires forall k | 0 <= k < |item.formals| ::
      f.parameters[k] == Parameter(item.formals[k].name, item.formals[k].ty)
    ensures FunctionRight(p, bits, d, item, f)
  {
    hide Related, Evaluate, EvalStmts, WellTyped, Yields, Agrees;
    ParamEnvTypes(item.formals);
    forall fuel: nat, args: Values | fuel >= d && EnvTyped(args, ParamTypes(item.formals), bits)
      ensures Yields(EvalCall(p, bits, fuel, item, args), Evaluate(f.body, args), item.result)
    {
      FrameRelated(item.formals, args, bits);
    }
  }

  // ---- Arguments.

  /** The arguments, left to right, each in the caller's environment. */
  function EvalAll(irs: seq<Expr>, vals: Values): Result<seq<Value>, Fault> {
    if irs == [] then Ok([])
    else
      match Evaluate(irs[0], vals)
      case Err(f) => Err(f)
      case Ok(v) =>
        match EvalAll(irs[1..], vals)
        case Err(f) => Err(f)
        case Ok(rest) => Ok([v] + rest)
  }

  ghost predicate ArgsAgree(run: ArgsRun, out: Result<seq<Value>, Fault>, store: Store) {
    match out
    case Ok(values) => run.ArgsFinished? && run.values == values && Extends(store, run.store)
    case Err(f) => run == ArgsFaulted(f)
  }

  ghost predicate RightArgs(
    p: Program, bits: nat, d: nat, args: Args, env: Env, formals: seq<Formal>, irs: seq<Expr>)
  {
    && |irs| == |formals|
    && (forall k | 0 <= k < |irs| :: WellTyped(irs[k], EnvTypes(env), bits) && irs[k].ty == formals[k].ty)
    && forall fuel: nat, scope, store, vals | fuel >= d && Related(env, scope, store, vals, bits) ::
         ArgsAgree(EvalArgs(p, bits, fuel, args, scope, store, formals), EvalAll(irs, vals), store)
  }

  lemma NoArgsRight(p: Program, bits: nat, env: Env)
    ensures RightArgs(p, bits, 0, NoArgs, env, [], [])
  {
    hide Related;
  }

  lemma ArgRight(
    p: Program, bits: nat, d: nat, e: Src, rest: Args, env: Env, formals: seq<Formal>, ir: Expr, irs: seq<Expr>)
    requires formals != [] && Right(p, bits, d, e, env, Some(formals[0].ty), ir)
    requires RightArgs(p, bits, d, rest, env, formals[1..], irs)
    ensures RightArgs(p, bits, d, Arg(e, rest), env, formals, [ir] + irs)
  {
    hide Related, Evaluate, WellTyped;
    forall fuel: nat, scope, store, vals | fuel >= d && Related(env, scope, store, vals, bits)
      ensures ArgsAgree(EvalArgs(p, bits, fuel, Arg(e, rest), scope, store, formals), EvalAll([ir] + irs, vals), store)
    {
      assert ([ir] + irs)[1..] == irs;
      Continue(p, bits, d, fuel, e, env, Some(formals[0].ty), ir, scope, store, store, vals);
      if Evaluate(ir, vals).Ok? {
        var s := EvalExpr(p, bits, fuel, e, scope, store, Some(formals[0].ty)).store;
        RelatedExtends(env, scope, store, s, vals, bits);
        var run := EvalArgs(p, bits, fuel, rest, scope, s, formals[1..]);
        assert ArgsAgree(run, EvalAll(irs, vals), s);
        if run.ArgsFinished? {
          ExtendsTrans(store, s, run.store);
        }
      }
    }
  }

  lemma {:induction false} EvalAllTyped(irs: seq<Expr>, types: seq<Ty>, vals: Values, bits: nat)
    requires (bits == 32 || bits == 64) && EnvTyped(vals, types, bits)
    requires forall k | 0 <= k < |irs| :: WellTyped(irs[k], types, bits)
    ensures EvalAll(irs, vals).Ok? ==>
              |EvalAll(irs, vals).value| == |irs|
              && forall k | 0 <= k < |irs| :: Admits(irs[k].ty, EvalAll(irs, vals).value[k], bits)
    decreases |irs|
  {
    if irs != [] {
      EvaluationIsTyped(irs[0], types, vals, bits);
      EvalAllTyped(irs[1..], types, vals, bits);
    }
  }

  // ---- Inlining.

  function ShiftBy(i: nat): nat -> nat { v => v + i }

  /** Parameter i is bound by the let i places from the outermost one. */
  function Reversing(count: nat): nat -> nat { i => if i < count then count - 1 - i else 0 }

  /** Lets for the arguments from i on, around the body. */
  function Wrapped(irs: seq<Expr>, i: nat, body: Expr, result: Ty): Expr
    requires i <= |irs|
    decreases |irs| - i
  {
    if i == |irs| then body
    else Expr(result, KLet(MapFree(irs[i], 0, ShiftBy(i)), Wrapped(irs, i + 1, body, result)))
  }

  function Backwards<T>(s: seq<T>): (r: seq<T>)
    ensures |r| == |s| && forall i | 0 <= i < |s| :: r[i] == s[|s| - 1 - i]
  {
    seq(|s|, i requires 0 <= i < |s| => s[|s| - 1 - i])
  }

  lemma BackwardsSnoc<T>(s: seq<T>, x: T)
    ensures Backwards(s + [x]) == [x] + Backwards(s)
  {
  }

  /** The i-th argument, shifted past the lets around it, still means what it meant. */
  lemma ShiftedMeans(ir: Expr, types: seq<Ty>, vals: Values, done: Values, bits: nat)
    requires WellTyped(ir, types, bits) && |vals| == |types|
    ensures Evaluate(MapFree(ir, 0, ShiftBy(|done|)), Backwards(done) + vals) == Evaluate(ir, vals)
  {
    TypedIsClosed(ir, types, bits);
    var env1 := Backwards(done) + vals;
    forall i: nat | i < |types| ensures Renamed(i, 0, ShiftBy(|done|)) < |env1|
        && env1[Renamed(i, 0, ShiftBy(|done|))] == vals[i] {
    }
    RenamingKeepsMeaning(ir, 0, ShiftBy(|done|), vals, env1, |types|);
  }

  lemma {:induction false} WrappedMeans(
    irs: seq<Expr>, i: nat, body: Expr, result: Ty, types: seq<Ty>, vals: Values, done: Values, bits: nat)
    requires i <= |irs| && |done| == i && |vals| == |types|
    requires forall k | 0 <= k < |irs| :: WellTyped(irs[k], types, bits)
    ensures
      Evaluate(Wrapped(irs, i, body, result), Backwards(done) + vals) ==
      match EvalAll(irs[i..], vals)
      case Err(f) => Err(f)
      case Ok(rest) => Evaluate(body, Backwards(done + rest) + vals)
    decreases |irs| - i
  {
    hide WellTyped, MapFree;
    if i == |irs| {
      assert done + [] == done;
    } else {
      ShiftedMeans(irs[i], types, vals, done, bits);
      assert irs[i..][1..] == irs[i + 1..];
      if Evaluate(irs[i], vals).Ok? {
        var v := Evaluate(irs[i], vals).value;
        BackwardsSnoc(done, v);
        assert [v] + (Backwards(done) + vals) == Backwards(done + [v]) + vals;
        WrappedMeans(irs, i + 1, body, result, types, vals, done + [v], bits);
        if EvalAll(irs[i + 1..], vals).Ok? {
          assert done + [v] + EvalAll(irs[i + 1..], vals).value == done + ([v] + EvalAll(irs[i + 1..], vals).value);
        }
      }
    }
  }

  /** The body, renamed to find its parameters in the lets, means what it means on its own. */
  lemma ReversedMeans(body: Expr, types: seq<Ty>, args: Values, vals: Values, bits: nat)
    requires WellTyped(body, types, bits) && |args| == |types|
    ensures Evaluate(MapFree(body, 0, Reversing(|args|)), Backwards(args) + vals) == Evaluate(body, args)
  {
    TypedIsClosed(body, types, bits);
    var env1 := Backwards(args) + vals;
    forall i: nat | i < |types|
      ensures Renamed(i, 0, Reversing(|args|)) < |env1| && env1[Renamed(i, 0, Reversing(|args|))] == args[i]
    {
    }
    RenamingKeepsMeaning(body, 0, Reversing(|args|), args, env1, |types|);
  }

  function Inlined(irs: seq<Expr>, f: Function): Expr {
    Wrapped(irs, 0, MapFree(f.body, 0, Reversing(|irs|)), f.result)
  }

  /** Inlining is evaluating the arguments and then the body on their values alone. */
  lemma InlinedMeans(irs: seq<Expr>, f: Function, types: seq<Ty>, params: seq<Ty>, vals: Values, bits: nat)
    requires |vals| == |types| && |params| == |irs| && WellTyped(f.body, params, bits)
    requires forall k | 0 <= k < |irs| :: WellTyped(irs[k], types, bits)
    requires EvalAll(irs, vals).Ok? ==> |EvalAll(irs, vals).value| == |irs|
    ensures
      Evaluate(Inlined(irs, f), vals) ==
      match EvalAll(irs, vals) case Err(e) => Err(e) case Ok(args) => Evaluate(f.body, args)
  {
    hide WellTyped, MapFree, Evaluate;
    assert Backwards<Value>([]) + vals == vals && irs[0..] == irs;
    WrappedMeans(irs, 0, MapFree(f.body, 0, Reversing(|irs|)), f.result, types, vals, [], bits);
    if EvalAll(irs, vals).Ok? {
      var args := EvalAll(irs, vals).value;
      assert [] + args == args;
      ReversedMeans(f.body, params, args, vals, bits);
    }
  }

  // ---- Types of inlined code.

  lemma {:induction false} WrappedTyped(
    irs: seq<Expr>, i: nat, body: Expr, result: Ty, types: seq<Ty>, params: seq<Ty>, bits: nat)
    requires i <= |irs| == |params| && body.ty == result
    requires forall k | 0 <= k < |irs| :: WellTyped(irs[k], types, bits) && irs[k].ty == params[k]
    requires WellTyped(body, Backwards(params) + types, bits)
    ensures WellTyped(Wrapped(irs, i, body, result), Backwards(params[..i]) + types, bits)
    ensures Wrapped(irs, i, body, result).ty == result
    decreases |irs| - i
  {
    hide MapFree;
    if i == |irs| {
      assert params[..i] == params;
    } else {
      WrappedTyped(irs, i + 1, body, result, types, params, bits);
      assert params[..i + 1] == params[..i] + [params[i]];
      BackwardsSnoc(params[..i], params[i]);
      assert [params[i]] + (Backwards(params[..i]) + types) == Backwards(params[..i + 1]) + types;
      var types1 := Backwards(params[..i]) + types;
      assert RelocatesTypes(types, types1, 0, ShiftBy(i));
      RenamingKeepsTypes(irs[i], 0, ShiftBy(i), types, types1, bits);
    }
  }

  lemma InlinedTyped(irs: seq<Expr>, f: Function, types: seq<Ty>, params: seq<Ty>, bits: nat)
    requires |irs| == |params| && WellTyped(f.body, params, bits) && f.body.ty == f.result
    requires forall k | 0 <= k < |irs| :: WellTyped(irs[k], types, bits) && irs[k].ty == params[k]
    ensures WellTyped(Inlined(irs, f), types, bits) && Inlined(irs, f).ty == f.result
  {
    hide WellTyped, MapFree;
    var types1 := Backwards(params) + types;
    assert RelocatesTypes(params, types1, 0, Reversing(|irs|));
    RenamingKeepsTypes(f.body, 0, Reversing(|irs|), params, types1, bits);
    WrappedTyped(irs, 0, MapFree(f.body, 0, Reversing(|irs|)), f.result, types, params, bits);
    assert Backwards(params[..0]) + types == types;
  }

  /** Call inlining is right. */
  lemma CallRight(
    p: Program, bits: nat, d: nat, name: string, args: Args, env: Env, irs: seq<Expr>, f: Function)
    requires (bits == 32 || bits == 64) && name in p && FunctionRight(p, bits, d, p[name], f)
    requires RightArgs(p, bits, d, args, env, p[name].formals, irs)
    ensures Right(p, bits, d + 1, Call(name, args), env, Some(f.result), Inlined(irs, f))
    ensures Right(p, bits, d + 1, Call(name, args), env, None, Inlined(irs, f))
  {
    hide Related, Evaluate, WellTyped, EvalAll, Inlined, EvalStmts, EvalArgs;
    var item := p[name];
    var params := ParamTypes(item.formals);
    InlinedTyped(irs, f, EnvTypes(env), params, bits);
    forall fuel: nat, scope, store, vals, expected: Option<Ty> |
      fuel >= d + 1 && Related(env, scope, store, vals, bits)
      ensures Agrees(EvalExpr(p, bits, fuel, Call(name, args), scope, store, expected),
                     Evaluate(Inlined(irs, f), vals), f.result, store)
    {
      RelatedEnv(env, scope, store, vals, bits);
      EvalAllTyped(irs, EnvTypes(env), vals, bits);
      InlinedMeans(irs, f, EnvTypes(env), params, vals, bits);
      assert ArgsAgree(EvalArgs(p, bits, fuel, args, scope, store, item.formals), EvalAll(irs, vals), store);
      if EvalAll(irs, vals).Ok? {
        var values := EvalAll(irs, vals).value;
        assert EnvTyped(values, params, bits);
        assert Yields(EvalCall(p, bits, fuel - 1, item, values), Evaluate(f.body, values), item.result);
      }
    }
  }

  lemma RelatedEnv(env: Env, scope: Scope, store: Store, vals: Values, bits: nat)
    requires Related(env, scope, store, vals, bits)
    ensures EnvTyped(vals, EnvTypes(env), bits)
  {
  }
}
