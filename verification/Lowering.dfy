/**
 * The compiler object (provium/src/frontend.rs): a cache of lowered functions, the
 * stack of functions being lowered, and the mutually recursive lowering of statements
 * and expressions. Whatever it accepts is right in the sense of LoweringMeaning.dfy.
 */
module Lowering {
  import opened Types
  import opened ScalarIr
  import opened ScalarSource
  import opened LoweringMeaning
  import opened LoweringCalls
  import opened SourceTyping

  datatype Refusal =
    | NoExpression | Unbound | Immutable | NestedAssignment | Unsupported
    | UnknownFunction | Recursive | TooDeep | TooLarge | Shadowed | ArgumentCount
    | Mismatch | NoType | LiteralRange | OperandType | DuplicateParameter

  const MAX_ACTIVE: nat := 32
  const MAX_NODES: nat := 100_000

  // ---- Sizes, for termination.

  function SizeOf(e: Src): nat {
    1 + match e
        case Paren(x) => SizeOf(x)
        case Block(b) => SizeOfStmts(b)
        case NotOf(x) => SizeOf(x)
        case AndOf(l, r) => SizeOf(l) + SizeOf(r)
        case OrOf(l, r) => SizeOf(l) + SizeOf(r)
        case Infix(_, l, r) => SizeOf(l) + SizeOf(r) + 1
        case IfElse(c, y, n) => SizeOf(c) + SizeOfStmts(y) + SizeOf(n)
        case IfOnly(c, y) => SizeOf(c) + SizeOfStmts(y)
        case Method(_, l, r) => SizeOf(l) + SizeOf(r)
        case Call(_, args) => SizeOfArgs(args)
        case _ => 0
  }

  function SizeOfArgs(args: Args): nat {
    match args case NoArgs => 1 case Arg(e, rest) => 1 + SizeOf(e) + SizeOfArgs(rest)
  }

  function SizeOfStmts(s: Stmts): nat {
    match s
    case End => 1
    case Then(Local(_, _, _, e), rest) => 1 + SizeOf(e) + SizeOfStmts(rest)
    case Then(Assign(_, e), rest) => 1 + SizeOf(e) + SizeOfStmts(rest)
    case Then(XorAssign(_, e), rest) => 5 + SizeOf(e) + SizeOfStmts(rest)
    case Then(AssertThat(e), rest) => 1 + SizeOf(e) + SizeOfStmts(rest)
    case Then(Tail(e), rest) => 1 + SizeOf(e) + SizeOfStmts(rest)
    case Then(OtherStmt, rest) => 1 + SizeOfStmts(rest)
  }

  // ---- A larger call depth is never wrong.

  lemma DeeperRight(p: Program, bits: nat, d: nat, d1: nat, e: Src, env: Env, expected: Option<Ty>, ir: Expr)
    requires Right(p, bits, d, e, env, expected, ir) && d <= d1
    ensures Right(p, bits, d1, e, env, expected, ir)
  {
    hide Related, Agrees, WellTyped;
  }

  lemma DeeperStmts(
    p: Program, bits: nat, d: nat, d1: nat, s: Stmts, env: Env, result: Ty, assigns: bool, ir: Expr)
    requires RightStmts(p, bits, d, s, env, result, assigns, ir) && d <= d1
    ensures RightStmts(p, bits, d1, s, env, result, assigns, ir)
  {
    hide Related, Agrees, Yields, WellTyped;
  }

  lemma DeeperArgs(
    p: Program, bits: nat, d: nat, d1: nat, args: Args, env: Env, formals: seq<Formal>, irs: seq<Expr>)
    requires RightArgs(p, bits, d, args, env, formals, irs) && d <= d1
    ensures RightArgs(p, bits, d1, args, env, formals, irs)
  {
    hide Related, ArgsAgree, WellTyped;
  }

  lemma DeeperFunction(p: Program, bits: nat, d: nat, d1: nat, item: Item, f: Function)
    requires FunctionRight(p, bits, d, item, f) && d <= d1
    ensures FunctionRight(p, bits, d1, item, f)
  {
    hide Yields, WellTyped, EnvTyped;
  }

  function Larger(a: nat, b: nat): nat { if a <= b then b else a }

  lemma DeeperBoth(
    p: Program, bits: nat, d: nat, d1: nat, l: Src, r: Src, env: Env, le: Option<Ty>, re: Option<Ty>, il: Expr,
        ir: Expr)
    requires Right(p, bits, d, l, env, le, il) && Right(p, bits, d1, r, env, re, ir)
    ensures Right(p, bits, Larger(d, d1), l, env, le, il) && Right(p, bits, Larger(d, d1), r, env, re, ir)
  {
    hide Right;
    DeeperRight(p, bits, d, Larger(d, d1), l, env, le, il);
    DeeperRight(p, bits, d1, Larger(d, d1), r, env, re, ir);
  }

  /** The normalized right-hand side of a compound assignment, and what it is for the statement. */
  lemma XorRight(
    p: Program, bits: nat, d: nat, name: string, e: Src, rest: Stmts, env: Env, result: Ty, value: Expr,
    whole: Expr, body: Expr)
    requires (bits == 32 || bits == 64) && Lookup(env, name).Some?
    requires Right(p, bits, d, Paren(e), env, Some(Lookup(env, name).value.1.ty), value)
    requires Right(p, bits, d, Infix(BitXor, Path(name), Paren(e)), env, Some(Lookup(env, name).value.1.ty), whole)
    requires RightStmts(p, bits, d, rest, env + [Binding(name, whole.ty, true)], result, true, body)
    ensures RightStmts(p, bits, d, Then(XorAssign(name, e), rest), env, result, true, Expr(result, KLet(whole, body)))
  {
    hide Related, Agrees, Yields, Evaluate;
    var ty := Lookup(env, name).value.1.ty;
    var assign := Then(Assign(name, Infix(BitXor, Path(name), Paren(e))), rest);
    AssignRight(p, bits, d, name, Infix(BitXor, Path(name), Paren(e)), rest, env, result, whole, body);
    ParenMeans(p, bits, d, e, env, Some(ty), value);
    forall fuel: nat, scope, store, vals | fuel >= d && Related(env, scope, store, vals, bits)
      ensures Yields(EvalStmts(p, bits, fuel, Then(XorAssign(name, e), rest), scope, store, result),
                     Evaluate(Expr(result, KLet(whole, body)), vals), result)
    {
      XorIsAssign(p, bits, d, fuel, name, e, rest, env, result, value, scope, store, vals);
      assert Yields(EvalStmts(p, bits, fuel, assign, scope, store, result),
                    Evaluate(Expr(result, KLet(whole, body)), vals), result);
    }
  }

  lemma ParenMeans(p: Program, bits: nat, d: nat, e: Src, env: Env, expected: Option<Ty>, ir: Expr)
    requires MeansExpr(p, bits, d, Paren(e), env, expected, ir)
    ensures MeansExpr(p, bits, d, e, env, expected, ir)
  {
    hide Related, Agrees, Evaluate;
    forall fuel: nat, scope, store, vals | fuel >= d && Related(env, scope, store, vals, bits)
      ensures Agrees(EvalExpr(p, bits, fuel, e, scope, store, expected), Evaluate(ir, vals), ir.ty, store)
    {
      assert EvalExpr(p, bits, fuel, Paren(e), scope, store, expected) ==
             EvalExpr(p, bits, fuel, e, scope, store, expected);
    }
  }

  // ---- Ranks of the functions being lowered.

  ghost predicate Descending(active: seq<string>, rank: string -> nat) {
    && (forall i, k | 0 <= i < k < |active| :: rank(active[i]) > rank(active[k]))
    && (forall i | 0 <= i < |active| :: rank(active[i]) + i < MAX_ACTIVE)
  }

  ghost function FloorOf(active: seq<string>, rank: string -> nat): nat {
    if active == [] then MAX_ACTIVE else rank(active[|active| - 1])
  }

  /** A call downwards is never one of a cycle, and never one too many. */
  lemma CallsDown(active: seq<string>, rank: string -> nat, name: string)
    requires Descending(active, rank) && rank(name) < FloorOf(active, rank)
    ensures name !in active && |active| < MAX_ACTIVE
    ensures Descending(active + [name], rank) && FloorOf(active + [name], rank) == rank(name)
  {
  }

  class Compiler {
    const functions: Program
    const bits: nat
    ghost const rank: string -> nat
    var cache: map<string, Function>
    var active: seq<string>
    ghost var depth: map<string, nat>

    /** Everything cached does what its source says. */
    ghost predicate Valid()
      reads this
      ensures Valid() ==> bits == 32 || bits == 64
    {
      && (bits == 32 || bits == 64) && |active| <= MAX_ACTIVE
      && forall name | name in cache ::
           name in functions && name in depth && ItemFits(functions, bits, functions[name])
           && FunctionRight(functions, bits, depth[name], functions[name], cache[name])
    }

    /** The functions being lowered call downwards. */
    ghost predicate Descends()
      reads this
    {
      Descending(active, rank)
    }

    /** What is called next has to lie below this. */
    ghost function Floor(): nat
      reads this
    {
      FloorOf(active, rank)
    }

    /**
     * Who is to blame for a refusal: calls that do not lead downwards, an expansion that is
     * too large, or something that is not well typed, here or in some function.
     */
    ghost predicate Blamed(error: Refusal, typed: bool, grounded: bool) {
      if error.Recursive? || error.TooDeep? then !(Ranked(functions, rank, MAX_ACTIVE) && grounded)
      else error.TooLarge? || !(ProgramFits(functions, bits) && typed)
    }

    /** Blame passes from a part to the whole. */
    lemma BlameWhole(error: Refusal, typed: bool, grounded: bool, whole: bool, base: bool)
      requires Blamed(error, typed, grounded) && (whole ==> typed) && (base ==> grounded)
      ensures Blamed(error, whole, base)
    {
    }

    lemma BlameTypes(error: Refusal, base: bool)
      requires !error.Recursive? && !error.TooDeep?
      ensures Blamed(error, false, base)
    {
    }

    /** The ranks are for the proof alone. */
    constructor (functions: Program, bits: nat, ghost rank: string -> nat)
      requires bits == 32 || bits == 64
      ensures Valid() && this.functions == functions && this.bits == bits && this.rank == rank
      ensures active == [] && cache == map[]
    {
      this.functions, this.bits, this.rank := functions, bits, rank;
      cache, active, depth := map[], [], map[];
    }

    method Parameters(item: Item) returns (r: Result<seq<Parameter>, Refusal>)
      ensures r.Ok? <==> DistinctFormals(item.formals)
      ensures r.Err? ==> r.error == DuplicateParameter
      ensures r.Ok? ==> |r.value| == |item.formals| && forall k | 0 <= k < |item.formals| ::
                          r.value[k] == Parameter(item.formals[k].name, item.formals[k].ty)
    {
      var parameters := [];
      for k := 0 to |item.formals|
        invariant |parameters| == k
        invariant forall i | 0 <= i < k :: parameters[i] == Parameter(item.formals[i].name, item.formals[i].ty)
        invariant forall i, j | 0 <= i < j < k :: item.formals[i].name != item.formals[j].name
      {
        for i := 0 to k
          invariant forall j | 0 <= j < i :: parameters[j].name != item.formals[k].name
        {
          if parameters[i].name == item.formals[k].name {
            return Err(DuplicateParameter);
          }
        }
        parameters := parameters + [Parameter(item.formals[k].name, item.formals[k].ty)];
      }
      return Ok(parameters);
    }

    /** Lower a function once; a call cycle or a deep chain is refused. */
    method FunctionOf(name: string) returns (r: Result<Function, Refusal>, ghost d: nat)
      requires Valid()
      modifies this
      ensures Valid() && old(cache.Keys) <= cache.Keys
      ensures r.Ok? ==> active == old(active) && name in functions && name in cache
                        && FunctionRight(functions, bits, d, functions[name], r.value)
                        && ItemFits(functions, bits, functions[name])
      ensures r.Err? ==> Blamed(r.error, name in functions, old(Descends()) && rank(name) < old(Floor()))
      decreases MAX_ACTIVE - |active|, 0, 0
    {
      hide FunctionRight, RightStmts, Right, Ranked, ProgramFits, ItemFits, StmtsFit, StmtsBelow, Descending, FloorOf,
           DistinctFormals;
      d := 0;
      if Descends() && rank(name) < Floor() {
        CallsDown(active, rank, name);
      }
      if name in cache {
        d := depth[name];
        return Ok(cache[name]), d;
      }
      if name in active {
        return Err(Recursive), d;
      }
      if |active| >= MAX_ACTIVE {
        return Err(TooDeep), d;
      }
      if name !in functions {
        return Err(UnknownFunction), d;
      }
      var item := functions[name];
      InProgram(functions, bits, rank, name);
      var parameters := Parameters(item);
      if parameters.Err? {
        return Err(parameters.error), d;
      }
      active := active + [name];
      var body;
      body, d := StmtsOf(item.body, ParamEnv(item.formals), item.result, true);
      if body.Err? {
        return Err(body.error), d;
      }
      active := active[..|active| - 1];
      if Size(body.value) > MAX_NODES {
        return Err(TooLarge), d;
      }
      var f := Function(parameters.value, item.result, body.value);
      BodyMakesFunction(functions, bits, d, item, f);
      cache := cache[name := f];
      depth := depth[name := d];
      return Ok(f), d;
    }

    method StmtsOf(stmts: Stmts, env: Env, result: Ty, assigns: bool) returns (r: Result<Expr, Refusal>, ghost d: nat)
      requires Valid()
      modifies this
      ensures Valid() && old(cache.Keys) <= cache.Keys
      ensures r.Ok? ==> active == old(active) && RightStmts(functions, bits, d, stmts, env, result, assigns, r.value)
      ensures r.Ok? ==> StmtsFit(functions, bits, stmts, env, result, assigns)
      ensures r.Err? ==> Blamed(r.error, StmtsFit(functions, bits, stmts, env, result, assigns),
                                old(Descends()) && StmtsBelow(stmts, rank, old(Floor())))
      decreases MAX_ACTIVE - |active|, SizeOfStmts(stmts), 1
    {
      hide Valid, FunctionRight, RightStmts, Right, Descending, FloorOf, Ranked, ProgramFits, ItemFits, TypeOf,
           CallsBelow;
      d := 0;
      match stmts {
        case End => return Err(NoExpression), d;
        case Then(Local(_, _, _, _), _) => r, d := LocalOf(stmts, env, result, assigns);
        case Then(Assign(_, _), _) => r, d := AssignOf(stmts, env, result, assigns);
        case Then(XorAssign(_, _), _) => r, d := XorAssignOf(stmts, env, result, assigns);
        case Then(AssertThat(_), _) => r, d := AssertOf(stmts, env, result, assigns);
        case Then(Tail(e), rest) =>
          if rest.End? {
            r, d := ExprOf(e, env, Some(result));
            if r.Ok? {
              TailRight(functions, bits, d, e, env, result, assigns, r.value);
            }
          } else {
            return Err(Unsupported), d;
          }
        case Then(OtherStmt, _) => return Err(Unsupported), d;
      }
    }

    method LocalOf(stmts: Stmts, env: Env, result: Ty, assigns: bool) returns (r: Result<Expr, Refusal>, ghost d: nat)
      requires Valid() && stmts.Then? && stmts.head.Local?
      modifies this
      ensures Valid() && old(cache.Keys) <= cache.Keys
      ensures r.Ok? ==> active == old(active) && RightStmts(functions, bits, d, stmts, env, result, assigns, r.value)
      ensures r.Ok? ==> StmtsFit(functions, bits, stmts, env, result, assigns)
      ensures r.Err? ==> Blamed(r.error, StmtsFit(functions, bits, stmts, env, result, assigns),
                                old(Descends()) && StmtsBelow(stmts, rank, old(Floor())))
      decreases MAX_ACTIVE - |active|, SizeOfStmts(stmts), 0
    {
      hide Valid, FunctionRight, RightStmts, Right, Descending, FloorOf, Ranked, ProgramFits, ItemFits, TypeOf,
           CallsBelow;
      var h := stmts.head;
      var value;
      value, d := ExprOf(h.init, env, h.annotation);
      if value.Err? {
        return Err(value.error), d;
      }
      var body;
      ghost var d1;
      body, d1 := StmtsOf(stmts.rest, env + [Binding(h.name, value.value.ty, h.mutable)], result, assigns);
      if body.Err? {
        return Err(body.error), d;
      }
      ghost var m := Larger(d, d1);
      DeeperRight(functions, bits, d, m, h.init, env, h.annotation, value.value);
      DeeperStmts(functions, bits, d1, m, stmts.rest, env + [Binding(h.name, value.value.ty, h.mutable)],
                  result, assigns, body.value);
      LocalRight(functions, bits, m, h.name, h.mutable, h.annotation, h.init, stmts.rest, env, result, assigns,
                 value.value, body.value);
      return Ok(Expr(result, KLet(value.value, body.value))), m;
    }

    method AssignOf(stmts: Stmts, env: Env, result: Ty, assigns: bool) returns (r: Result<Expr, Refusal>, ghost d: nat)
      requires Valid() && stmts.Then? && stmts.head.Assign?
      modifies this
      ensures Valid() && old(cache.Keys) <= cache.Keys
      ensures r.Ok? ==> active == old(active) && RightStmts(functions, bits, d, stmts, env, result, assigns, r.value)
      ensures r.Ok? ==> StmtsFit(functions, bits, stmts, env, result, assigns)
      ensures r.Err? ==> Blamed(r.error, StmtsFit(functions, bits, stmts, env, result, assigns),
                                old(Descends()) && StmtsBelow(stmts, rank, old(Floor())))
      decreases MAX_ACTIVE - |active|, SizeOfStmts(stmts), 0
    {
      hide Valid, FunctionRight, RightStmts, Right, Descending, FloorOf, Ranked, ProgramFits, ItemFits, TypeOf,
           CallsBelow;
      d := 0;
      var h := stmts.head;
      if !assigns {
        return Err(NestedAssignment), d;
      }
      var found := Lookup(env, h.name);
      if found.None? {
        return Err(Unbound), d;
      }
      if !found.value.1.mutable {
        return Err(Immutable), d;
      }
      var value;
      value, d := ExprOf(h.value, env, Some(found.value.1.ty));
      if value.Err? {
        return Err(value.error), d;
      }
      RightType(functions, bits, d, h.value, env, found.value.1.ty, value.value);
      var inner := env + [Binding(h.name, found.value.1.ty, true)];
      var body;
      ghost var d1;
      body, d1 := StmtsOf(stmts.rest, inner, result, assigns);
      if body.Err? {
        return Err(body.error), d;
      }
      ghost var m := Larger(d, d1);
      DeeperRight(functions, bits, d, m, h.value, env, Some(found.value.1.ty), value.value);
      DeeperStmts(functions, bits, d1, m, stmts.rest, inner, result, assigns, body.value);
      AssignRight(functions, bits, m, h.name, h.value, stmts.rest, env, result, value.value, body.value);
      return Ok(Expr(result, KLet(value.value, body.value))), m;
    }

    method XorAssignOf(stmts: Stmts, env: Env, result: Ty, assigns: bool)
      returns (r: Result<Expr, Refusal>, ghost d: nat)
      requires Valid() && stmts.Then? && stmts.head.XorAssign?
      modifies this
      ensures Valid() && old(cache.Keys) <= cache.Keys
      ensures r.Ok? ==> active == old(active) && RightStmts(functions, bits, d, stmts, env, result, assigns, r.value)
      ensures r.Ok? ==> StmtsFit(functions, bits, stmts, env, result, assigns)
      ensures r.Err? ==> Blamed(r.error, StmtsFit(functions, bits, stmts, env, result, assigns),
                                old(Descends()) && StmtsBelow(stmts, rank, old(Floor())))
      decreases MAX_ACTIVE - |active|, SizeOfStmts(stmts), 0
    {
      hide Valid, FunctionRight, RightStmts, Right, Descending, FloorOf, Ranked, ProgramFits, ItemFits, TypeOf,
           CallsBelow;
      d := 0;
      var h := stmts.head;
      if !assigns {
        return Err(NestedAssignment), d;
      }
      var found := Lookup(env, h.name);
      if found.None? {
        return Err(Unbound), d;
      }
      if !found.value.1.mutable {
        return Err(Immutable), d;
      }
      var ty := found.value.1.ty;
      // The statement stands for name = name ^ (value).
      XorOperandsType(functions, bits, h.name, h.value, env);
      BelowParen(h.name, h.value, rank, Floor());
      var left, right;
      left, right, d := OperandsOf(BitXor, Path(h.name), Paren(h.value), env, Some(ty));
      if right.Err? {
        return Err(right.error), d;
      }
      var whole := Expr(left.ty, KBinary(BitXor, left, right.value));
      if whole.ty != ty {
        return Err(Mismatch), d;
      }
      XorOperands(functions, bits, d, h.name, h.value, env, left, right.value);
      var inner := env + [Binding(h.name, ty, true)];
      var body;
      ghost var d1;
      body, d1 := StmtsOf(stmts.rest, inner, result, assigns);
      if body.Err? {
        return Err(body.error), d;
      }
      ghost var m := Larger(d, d1);
      DeeperRight(functions, bits, d, m, Paren(h.value), env, Some(ty), right.value);
      DeeperRight(functions, bits, d, m, Infix(BitXor, Path(h.name), Paren(h.value)), env, Some(ty), whole);
      DeeperStmts(functions, bits, d1, m, stmts.rest, inner, result, assigns, body.value);
      XorRight(functions, bits, m, h.name, h.value, stmts.rest, env, result, right.value, whole, body.value);
      return Ok(Expr(result, KLet(whole, body.value))), m;
    }

    method AssertOf(stmts: Stmts, env: Env, result: Ty, assigns: bool) returns (r: Result<Expr, Refusal>, ghost d: nat)
      requires Valid() && stmts.Then? && stmts.head.AssertThat?
      modifies this
      ensures Valid() && old(cache.Keys) <= cache.Keys
      ensures r.Ok? ==> active == old(active) && RightStmts(functions, bits, d, stmts, env, result, assigns, r.value)
      ensures r.Ok? ==> StmtsFit(functions, bits, stmts, env, result, assigns)
      ensures r.Err? ==> Blamed(r.error, StmtsFit(functions, bits, stmts, env, result, assigns),
                                old(Descends()) && StmtsBelow(stmts, rank, old(Floor())))
      decreases MAX_ACTIVE - |active|, SizeOfStmts(stmts), 0
    {
      hide Valid, FunctionRight, RightStmts, Right, Descending, FloorOf, Ranked, ProgramFits, ItemFits, TypeOf,
           CallsBelow;
      var h := stmts.head;
      var condition;
      condition, d := ExprOf(h.condition, env, Some(TBool));
      if condition.Err? {
        return Err(condition.error), d;
      }
      var body;
      ghost var d1;
      body, d1 := StmtsOf(stmts.rest, env, result, assigns);
      if body.Err? {
        return Err(body.error), d;
      }
      ghost var m := Larger(d, d1);
      DeeperRight(functions, bits, d, m, h.condition, env, Some(TBool), condition.value);
      DeeperStmts(functions, bits, d1, m, stmts.rest, env, result, assigns, body.value);
      AssertRight(functions, bits, m, h.condition, stmts.rest, env, result, assigns, condition.value, body.value);
      return Ok(Expr(result, KAssert(condition.value, body.value))), m;
    }

    // ---- Expressions.

    method ExprOf(e: Src, env: Env, expected: Option<Ty>) returns (r: Result<Expr, Refusal>, ghost d: nat)
      requires Valid()
      modifies this
      ensures Valid() && old(cache.Keys) <= cache.Keys
      ensures r.Ok? ==> active == old(active) && Right(functions, bits, d, e, env, expected, r.value)
      ensures r.Ok? ==> TypeOf(functions, bits, e, env, expected) == Some(r.value.ty)
      ensures r.Err? ==> Blamed(r.error, TypeOf(functions, bits, e, env, expected).Some?,
                                old(Descends()) && CallsBelow(e, rank, old(Floor())))
      decreases MAX_ACTIVE - |active|, SizeOf(e), 1
    {
      hide Valid, FunctionRight, RightStmts, Right, Descending, FloorOf, Ranked, ProgramFits, ItemFits, MeansExpr,
           WellTyped, Pow2,
           StmtsFit, StmtsBelow, ArgsFit, ArgsBelow;
      d := 0;
      match e {
        case Path(name) =>
          var found := Lookup(env, name);
          if found.None? {
            return Err(Unbound), d;
          }
          if expected.Some? && expected.value != found.value.1.ty {
            return Err(Mismatch), d;
          }
          PathRight(functions, bits, name, env);
          return Ok(Expr(found.value.1.ty, KVar(found.value.0))), d;
        case BoolLit(b) =>
          if expected.Some? && expected.value != TBool {
            return Err(Mismatch), d;
          }
          BoolRight(functions, bits, b, env, expected);
          return Ok(Expr(TBool, KBool(b))), d;
        case IntLit(value, suffix) => r := LiteralOf(value, suffix, env, expected);
        case Paren(inner) =>
          r, d := ExprOf(inner, env, expected);
          if r.Ok? {
            ParenRight(functions, bits, d, inner, env, expected, r.value);
          }
        case Block(body) =>
          if expected.None? {
            return Err(NoType), d;
          }
          r, d := StmtsOf(body, env, expected.value, false);
          if r.Ok? {
            BlockRight(functions, bits, d, body, env, expected.value, r.value);
            RightType(functions, bits, d, e, env, expected.value, r.value);
          }
        case NotOf(inner) =>
          r, d := ExprOf(inner, env, Some(TBool));
          if r.Ok? {
            if expected.Some? && expected.value != TBool {
              return Err(Mismatch), d;
            }
            NotRight(functions, bits, d, inner, env, r.value);
            return Ok(Expr(TBool, KNot(r.value))), d;
          }
        case AndOf(_, _) => r, d := LogicOf(e, env, expected);
        case OrOf(_, _) => r, d := LogicOf(e, env, expected);
        case Infix(_, _, _) => r, d := InfixOf(e, env, expected);
        case IfElse(_, _, _) => r, d := IfOf(e, env, expected);
        case IfOnly(_, _) => return Err(Unsupported), d;
        case Method(_, _, _) => r, d := MethodOf(e, env, expected);
        case Call(_, _) => r, d := CallOf(e, env, expected);
        case OtherExpr => return Err(Unsupported), d;
      }
    }

    method LiteralOf(value: nat, suffix: Option<Ty>, env: Env, expected: Option<Ty>) returns (r: Result<Expr, Refusal>)
      requires bits == 32 || bits == 64
      ensures r.Ok? ==> Right(functions, bits, 0, IntLit(value, suffix), env, expected, r.value)
      ensures r.Ok? ==> LiteralType(bits, value, suffix, expected) == Some(r.value.ty)
      ensures r.Err? ==> LiteralType(bits, value, suffix, expected).None? && r.error in {NoType, Mismatch, LiteralRange}
    {
      hide Right, Pow2;
      var ty := OrElse(suffix, expected);
      if ty.None? {
        return Err(NoType);
      }
      var width := BitsOf(ty.value, bits);
      if width.None? {
        return Err(Mismatch);
      }
      if value > MAX_U64 || value >= Pow2(width.value) {
        return Err(LiteralRange);
      }
      if expected.Some? && expected != ty {
        return Err(Mismatch);
      }
      IntRight(functions, bits, value, suffix, env, expected);
      return Ok(Expr(ty.value, KUInt(width.value, value)));
    }

    method LogicOf(e: Src, env: Env, expected: Option<Ty>) returns (r: Result<Expr, Refusal>, ghost d: nat)
      requires Valid() && (e.AndOf? || e.OrOf?)
      modifies this
      ensures Valid() && old(cache.Keys) <= cache.Keys
      ensures r.Ok? ==> active == old(active) && Right(functions, bits, d, e, env, expected, r.value)
      ensures r.Ok? ==> TypeOf(functions, bits, e, env, expected) == Some(r.value.ty)
      ensures r.Err? ==> Blamed(r.error, TypeOf(functions, bits, e, env, expected).Some?,
                                old(Descends()) && CallsBelow(e, rank, old(Floor())))
      decreases MAX_ACTIVE - |active|, SizeOf(e), 0
    {
      hide Valid, FunctionRight, RightStmts, Right, Ranked, ProgramFits, ItemFits, StmtsFit, StmtsBelow, ArgsFit,
           ArgsBelow;
      var left, right;
      ghost var d1;
      left, d := ExprOf(e.left, env, Some(TBool));
      if left.Err? {
        return Err(left.error), d;
      }
      right, d1 := ExprOf(e.right, env, Some(TBool));
      if right.Err? {
        return Err(right.error), d;
      }
      if expected.Some? && expected.value != TBool {
        return Err(Mismatch), d;
      }
      ghost var m := Larger(d, d1);
      DeeperRight(functions, bits, d, m, e.left, env, Some(TBool), left.value);
      DeeperRight(functions, bits, d1, m, e.right, env, Some(TBool), right.value);
      if e.AndOf? {
        AndRight(functions, bits, m, e.left, e.right, env, left.value, right.value);
        return Ok(Expr(TBool, KIf(left.value, right.value, Expr(TBool, KBool(false))))), m;
      } else {
        OrRight(functions, bits, m, e.left, e.right, env, left.value, right.value);
        return Ok(Expr(TBool, KIf(left.value, Expr(TBool, KBool(true)), right.value))), m;
      }
    }

    /** The right operand, of the left one's type, which the operator takes. */
    method RightOperandOf(op: Op, r: Src, env: Env, wanted: Option<Ty>, left: Ty)
      returns (right: Result<Expr, Refusal>, ghost d: nat)
      requires Valid() && (!Shift(op) ==> wanted == Some(left))
      modifies this
      ensures Valid() && old(cache.Keys) <= cache.Keys
      ensures right.Ok? ==>
                && active == old(active) && Right(functions, bits, d, r, env, wanted, right.value)
                && left == right.value.ty && TypeOf(functions, bits, r, env, wanted) == Some(left) && Operates(op, left)
      ensures
        var fits := TypeOf(functions, bits, r, env, wanted) == Some(left) && Operates(op, left);
        right.Err? ==> Blamed(right.error, fits, old(Descends()) && CallsBelow(r, rank, old(Floor())))
      decreases MAX_ACTIVE - |active|, SizeOf(r) + 1, 0
    {
      hide Valid, Blamed, FunctionRight, RightStmts, Right, TypeOf, CallsBelow, Descending, FloorOf;
      ghost var typed := TypeOf(functions, bits, r, env, wanted);
      ghost var fits := typed == Some(left) && Operates(op, left);
      ghost var grounded := Descends() && CallsBelow(r, rank, Floor());
      right, d := ExprOf(r, env, wanted);
      if right.Err? {
        BlameWhole(right.error, typed.Some?, grounded, fits, grounded);
        return;
      }
      BlameTypes(OperandType, grounded);
      if Shift(op) {
        if right.value.ty != left {
          return Err(OperandType), d;
        }
      } else {
        RightType(functions, bits, d, r, env, left, right.value);
      }
      if left == TBool && !(op.Eq? || op.Ne?) {
        return Err(OperandType), d;
      }
    }

    /** Both operands of an infix operator, of one type the operator takes. */
    method OperandsOf(op: Op, l: Src, r: Src, env: Env, expected: Option<Ty>)
      returns (left: Expr, right: Result<Expr, Refusal>, ghost d: nat)
      requires Valid()
      modifies this
      ensures Valid() && old(cache.Keys) <= cache.Keys
      ensures right.Ok? ==>
                && active == old(active) && left.ty == right.value.ty
                && Right(functions, bits, d, l, env, LeftExpected(functions, op, l, r, BindingTypes(env), expected),
                    left)
                && Right(functions, bits, d, r, env, RightExpected(functions, op, r, BindingTypes(env), left.ty),
                         right.value)
                && Operates(op, left.ty) && OperandsType(functions, bits, op, l, r, env, expected) == Some(left.ty)
      ensures
        var fits := OperandsType(functions, bits, op, l, r, env, expected).Some?;
        var grounded := old(Descends()) && CallsBelow(l, rank, old(Floor())) && CallsBelow(r, rank, old(Floor()));
        right.Err? ==> Blamed(right.error, fits, grounded)
      decreases MAX_ACTIVE - |active|, SizeOf(l) + SizeOf(r) + 1, 1
    {
      hide Valid, Blamed, FunctionRight, RightStmts, Right, TypeOf, OperandsType, CallsBelow, Descending, FloorOf,
           Operates,
           BindingTypes, LeftExpected, RightExpected, SizeOf, Hint, Shift, Larger;
      left := Expr(TBool, KBool(false));
      var hint := LeftExpected(functions, op, l, r, BindingTypes(env), expected);
      ghost var fits := OperandsType(functions, bits, op, l, r, env, expected);
      ghost var groundedL := Descends() && CallsBelow(l, rank, Floor());
      ghost var groundedR := Descends() && CallsBelow(r, rank, Floor());
      OperandsLeft(functions, bits, op, l, r, env, expected);
      var a;
      a, d := ExprOf(l, env, hint);
      if a.Err? {
        BlameWhole(a.error, TypeOf(functions, bits, l, env, hint).Some?, groundedL, fits.Some?, groundedL && groundedR);
        return left, Err(a.error), d;
      }
      left := a.value;
      OperandsRight(functions, bits, op, l, r, env, expected, left.ty);
      var wanted := RightExpected(functions, op, r, BindingTypes(env), left.ty);
      ghost var d1;
      right, d1 := RightOperandOf(op, r, env, wanted, left.ty);
      if right.Err? {
        BlameWhole(right.error, TypeOf(functions, bits, r, env, wanted) == Some(left.ty) && Operates(op, left.ty),
            groundedR,
                   fits.Some?, groundedL && groundedR);
        return;
      }
      DeeperBoth(functions, bits, d, d1, l, r, env, hint, wanted, left, right.value);
      d := Larger(d, d1);
    }

    method InfixOf(e: Src, env: Env, expected: Option<Ty>) returns (r: Result<Expr, Refusal>, ghost d: nat)
      requires Valid() && e.Infix?
      modifies this
      ensures Valid() && old(cache.Keys) <= cache.Keys
      ensures r.Ok? ==> active == old(active) && Right(functions, bits, d, e, env, expected, r.value)
      ensures r.Ok? ==> TypeOf(functions, bits, e, env, expected) == Some(r.value.ty)
      ensures r.Err? ==> Blamed(r.error, TypeOf(functions, bits, e, env, expected).Some?,
                                old(Descends()) && CallsBelow(e, rank, old(Floor())))
      decreases MAX_ACTIVE - |active|, SizeOf(e), 0
    {
      hide Valid, FunctionRight, RightStmts, Right, Descending, FloorOf, Ranked, ProgramFits, ItemFits, Hint,
           LeftExpected,
           RightExpected, StmtsFit, StmtsBelow, ArgsFit, ArgsBelow;
      d := 0;
      if !InfixOperator(e.op) {
        return Err(Unsupported), d;
      }
      var left, right;
      left, right, d := OperandsOf(e.op, e.left, e.right, env, expected);
      if right.Err? {
        return Err(right.error), d;
      }
      var ty := if Comparison(e.op) then TBool else left.ty;
      if expected.Some? && expected.value != ty {
        return Err(Mismatch), d;
      }
      InfixRight(functions, bits, d, e.op, e.left, e.right, env, expected, left, right.value, ty);
      return Ok(Expr(ty, KBinary(e.op, left, right.value))), d;
    }

    method IfOf(e: Src, env: Env, expected: Option<Ty>) returns (r: Result<Expr, Refusal>, ghost d: nat)
      requires Valid() && e.IfElse?
      modifies this
      ensures Valid() && old(cache.Keys) <= cache.Keys
      ensures r.Ok? ==> active == old(active) && Right(functions, bits, d, e, env, expected, r.value)
      ensures r.Ok? ==> TypeOf(functions, bits, e, env, expected) == Some(r.value.ty)
      ensures r.Err? ==> Blamed(r.error, TypeOf(functions, bits, e, env, expected).Some?,
                                old(Descends()) && CallsBelow(e, rank, old(Floor())))
      decreases MAX_ACTIVE - |active|, SizeOf(e), 0
    {
      hide Valid, FunctionRight, RightStmts, Right, Ranked, ProgramFits, ItemFits, StmtsFit, StmtsBelow, ArgsFit,
           ArgsBelow;
      var condition, yes, no;
      ghost var d1, d2;
      condition, d := ExprOf(e.condition, env, Some(TBool));
      if condition.Err? {
        return Err(condition.error), d;
      }
      if expected.None? {
        return Err(NoType), d;
      }
      yes, d1 := StmtsOf(e.yes, env, expected.value, false);
      if yes.Err? {
        return Err(yes.error), d;
      }
      no, d2 := ExprOf(e.no, env, expected);
      if no.Err? {
        return Err(no.error), d;
      }
      ghost var m := Larger(d, Larger(d1, d2));
      DeeperRight(functions, bits, d, m, e.condition, env, Some(TBool), condition.value);
      DeeperStmts(functions, bits, d1, m, e.yes, env, expected.value, false, yes.value);
      DeeperRight(functions, bits, d2, m, e.no, env, expected, no.value);
      IfRight(functions, bits, m, e.condition, e.yes, e.no, env, expected.value, condition.value, yes.value, no.value);
      return Ok(Expr(expected.value, KIf(condition.value, yes.value, no.value))), m;
    }

    method MethodOf(e: Src, env: Env, expected: Option<Ty>) returns (r: Result<Expr, Refusal>, ghost d: nat)
      requires Valid() && e.Method?
      modifies this
      ensures Valid() && old(cache.Keys) <= cache.Keys
      ensures r.Ok? ==> active == old(active) && Right(functions, bits, d, e, env, expected, r.value)
      ensures r.Ok? ==> TypeOf(functions, bits, e, env, expected) == Some(r.value.ty)
      ensures r.Err? ==> Blamed(r.error, TypeOf(functions, bits, e, env, expected).Some?,
                                old(Descends()) && CallsBelow(e, rank, old(Floor())))
      decreases MAX_ACTIVE - |active|, SizeOf(e), 0
    {
      hide Valid, FunctionRight, RightStmts, Right, Descending, FloorOf, Ranked, ProgramFits, ItemFits, Hint,
           StmtsFit, StmtsBelow, ArgsFit, ArgsBelow;
      d := 0;
      if !Intrinsic(e.op) {
        return Err(Unsupported), d;
      }
      var hint := OrElse(Hint(functions, e.receiver, BindingTypes(env)), expected);
      var left, right;
      ghost var d1;
      left, d := ExprOf(e.receiver, env, hint);
      if left.Err? {
        return Err(left.error), d;
      }
      if left.value.ty == TBool {
        return Err(OperandType), d;
      }
      right, d1 := ExprOf(e.arg, env, Some(left.value.ty));
      if right.Err? {
        return Err(right.error), d;
      }
      if expected.Some? && expected.value != left.value.ty {
        return Err(Mismatch), d;
      }
      ghost var m := Larger(d, d1);
      DeeperRight(functions, bits, d, m, e.receiver, env, hint, left.value);
      DeeperRight(functions, bits, d1, m, e.arg, env, Some(left.value.ty), right.value);
      MethodRight(functions, bits, m, e.op, e.receiver, e.arg, env, expected, left.value, right.value);
      return Ok(Expr(left.value.ty, KBinary(e.op, left.value, right.value))), m;
    }

    method ArgsOf(args: Args, env: Env, formals: seq<Formal>) returns (r: Result<seq<Expr>, Refusal>, ghost d: nat)
      requires Valid()
      modifies this
      ensures Valid() && old(cache.Keys) <= cache.Keys
      ensures r.Ok? ==> active == old(active) && RightArgs(functions, bits, d, args, env, formals, r.value)
      ensures r.Ok? ==> ArgsFit(functions, bits, args, env, formals)
      ensures r.Err? ==> Blamed(r.error, ArgsFit(functions, bits, args, env, formals),
                                old(Descends()) && ArgsBelow(args, rank, old(Floor())))
      decreases MAX_ACTIVE - |active|, SizeOfArgs(args), 1
    {
      hide Valid, FunctionRight, RightStmts, Right, Descending, FloorOf, Ranked, ProgramFits, ItemFits, RightArgs,
           TypeOf, CallsBelow;
      d := 0;
      match args {
        case NoArgs =>
          if formals != [] {
            return Err(ArgumentCount), d;
          }
          NoArgsRight(functions, bits, env);
          return Ok([]), d;
        case Arg(e, rest) =>
          if formals == [] {
            return Err(ArgumentCount), d;
          }
          var first, others;
          ghost var d1;
          first, d := ExprOf(e, env, Some(formals[0].ty));
          if first.Err? {
            return Err(first.error), d;
          }
          others, d1 := ArgsOf(rest, env, formals[1..]);
          if others.Err? {
            return Err(others.error), d;
          }
          ghost var m := Larger(d, d1);
          DeeperRight(functions, bits, d, m, e, env, Some(formals[0].ty), first.value);
          DeeperArgs(functions, bits, d1, m, rest, env, formals[1..], others.value);
          ArgRight(functions, bits, m, e, rest, env, formals, first.value, others.value);
          return Ok([first.value] + others.value), m;
      }
    }

    /** Inline a call: the lets are wrapped around the renamed body from the last argument back. */
    method CallOf(e: Src, env: Env, expected: Option<Ty>) returns (r: Result<Expr, Refusal>, ghost d: nat)
      requires Valid() && e.Call?
      modifies this
      ensures Valid() && old(cache.Keys) <= cache.Keys
      ensures r.Ok? ==> active == old(active) && Right(functions, bits, d, e, env, expected, r.value)
      ensures r.Ok? ==> TypeOf(functions, bits, e, env, expected) == Some(r.value.ty)
      ensures r.Err? ==> Blamed(r.error, TypeOf(functions, bits, e, env, expected).Some?,
                                old(Descends()) && CallsBelow(e, rank, old(Floor())))
      decreases MAX_ACTIVE - |active|, SizeOf(e), 0
    {
      hide FunctionRight, RightStmts, Right, Descending, FloorOf, Ranked, ProgramFits, ItemFits, RightArgs,
           StmtsFit, StmtsBelow, ArgsFit, ArgsBelow;
      d := 0;
      if Lookup(env, e.name).Some? {
        return Err(Shadowed), d;
      }
      var f;
      f, d := FunctionOf(e.name);
      if f.Err? {
        return Err(f.error), d;
      }
      var args;
      ghost var d1;
      args, d1 := ArgsOf(e.args, env, functions[e.name].formals);
      if args.Err? {
        return Err(args.error), d;
      }
      var count := |args.value|;
      var body := MapFree(f.value.body, 0, Reversing(count));
      ghost var inner := body;
      var i := count;
      while i > 0
        invariant 0 <= i <= count
        invariant body == Wrapped(args.value, i, inner, f.value.result)
      {
        i := i - 1;
        body := Expr(f.value.result, KLet(MapFree(args.value[i], 0, ShiftBy(i)), body));
      }
      ghost var m := Larger(d, d1);
      DeeperFunction(functions, bits, d, m, functions[e.name], f.value);
      DeeperArgs(functions, bits, d1, m, e.args, env, functions[e.name].formals, args.value);
      CallRight(functions, bits, m, e.name, e.args, env, args.value, f.value);
      InlinedResult(functions, bits, m, e.name, args.value, f.value, env, e.args);
      FunctionResult(functions, bits, m, functions[e.name], f.value);
      if expected.Some? && expected.value != body.ty {
        return Err(Mismatch), d;
      }
      return Ok(body), m + 1;
    }

    /** Lower every function. */
    method Compile(names: seq<string>) returns (r: Result<map<string, Function>, Refusal>)
      requires Valid() && active == []
      modifies this
      ensures Valid()
      ensures r.Ok? ==>
                (forall name | name in names :: name in r.value)
                && forall name | name in r.value ::
                     && name in functions && ItemFits(functions, bits, functions[name])
                     && exists d: nat :: FunctionRight(functions, bits, d, functions[name], r.value[name])
      ensures
        && r.Err? && (forall name | name in names :: name in functions)
        && ProgramFits(functions, bits) && Ranked(functions, rank, MAX_ACTIVE)
        ==> r.error == TooLarge
    {
      hide FunctionRight, ItemFits, StmtsBelow;
      for i := 0 to |names|
        invariant Valid() && active == []
        invariant forall k | 0 <= k < i :: names[k] in cache
      {
        var f, d := FunctionOf(names[i]);
        if f.Err? {
          return Err(f.error);
        }
      }
      assert forall name | name in cache :: FunctionRight(functions, bits, depth[name], functions[name], cache[name]);
      return Ok(cache);
    }
  }

  /**
   * Meaning preserved, and no type or input fault: a function the compiler accepts, run on
   * arguments that `run` admits, ends exactly as its source does, in an in-range value of
   * its result type or in an overflow, division or assertion fault.
   */
  lemma AcceptedRunsRight(p: Program, bits: nat, d: nat, item: Item, f: Function, args: Values, fuel: nat)
    requires (bits == 32 || bits == 64) && FunctionRight(p, bits, d, item, f) && fuel >= d
    requires RunFunction(f, args, bits) != Err(Input)
    ensures Typed(RunFunction(f, args, bits), item.result, bits)
    ensures Yields(EvalCall(p, bits, fuel, item, args), RunFunction(f, args, bits), item.result)
  {
    hide WellTyped, Evaluate, EvalStmts, EvalCall;
    assert EnvTyped(args, ParamTypes(item.formals), bits);
    EvaluationIsTyped(f.body, ParamTypes(item.formals), args, bits);
  }

  /** Run refuses exactly the arguments that do not fit the parameters. */
  lemma RunRefusesInput(p: Program, bits: nat, d: nat, item: Item, f: Function, args: Values)
    requires (bits == 32 || bits == 64) && FunctionRight(p, bits, d, item, f)
    ensures RunFunction(f, args, bits) == Err(Input) <==> !EnvTyped(args, ParamTypes(item.formals), bits)
  {
    hide WellTyped, Evaluate, EvalStmts, EvalCall;
    if EnvTyped(args, ParamTypes(item.formals), bits) {
      EvaluationIsTyped(f.body, ParamTypes(item.formals), args, bits);
    }
  }

  lemma RightType(p: Program, bits: nat, d: nat, e: Src, env: Env, ty: Ty, ir: Expr)
    requires Right(p, bits, d, e, env, Some(ty), ir)
    ensures ir.ty == ty
  {
  }

  lemma FunctionResult(p: Program, bits: nat, d: nat, item: Item, f: Function)
    requires FunctionRight(p, bits, d, item, f)
    ensures f.result == item.result
  {
  }

  lemma InProgram(p: Program, bits: nat, rank: string -> nat, name: string)
    requires name in p
    ensures ProgramFits(p, bits) ==> DistinctFormals(p[name].formals)
    ensures ProgramFits(p, bits) ==> StmtsFit(p, bits, p[name].body, ParamEnv(p[name].formals), p[name].result, true)
    ensures DistinctFormals(p[name].formals)
            && StmtsFit(p, bits, p[name].body, ParamEnv(p[name].formals), p[name].result, true) ==>
              ItemFits(p, bits, p[name])
    ensures Ranked(p, rank, MAX_ACTIVE) ==> rank(name) < MAX_ACTIVE && StmtsBelow(p[name].body, rank, rank(name))
  {
    hide StmtsFit, StmtsBelow, DistinctFormals;
  }

  lemma BelowParen(name: string, e: Src, rank: string -> nat, bound: nat)
    ensures CallsBelow(Path(name), rank, bound) && CallsBelow(Paren(e), rank, bound) == CallsBelow(e, rank, bound)
  {
  }

  lemma InlinedResult(
    p: Program, bits: nat, d: nat, name: string, irs: seq<Expr>, f: Function, env: Env, args: Args)
    requires name in p && Right(p, bits, d + 1, Call(name, args), env, Some(f.result), Inlined(irs, f))
    ensures Inlined(irs, f).ty == f.result
  {
  }

  /** Both sides of a compound assignment have the variable's own type. */
  lemma XorOperands(p: Program, bits: nat, d: nat, name: string, e: Src, env: Env, left: Expr, right: Expr)
    requires (bits == 32 || bits == 64) && Lookup(env, name).Some?
    requires
      var ty := Lookup(env, name).value.1.ty;
      var l, r := Path(name), Paren(e);
      && Right(p, bits, d, l, env, LeftExpected(p, BitXor, l, r, BindingTypes(env), Some(ty)), left)
      && Right(p, bits, d, r, env, RightExpected(p, BitXor, r, BindingTypes(env), left.ty), right)
      && left.ty == right.ty && OperatorTyped(BitXor, left.ty, left.ty) && left.ty == ty
    ensures
      var ty := Lookup(env, name).value.1.ty;
      && Right(p, bits, d, Paren(e), env, Some(ty), right)
      && Right(p, bits, d, Infix(BitXor, Path(name), Paren(e)), env, Some(ty), Expr(ty, KBinary(BitXor, left, right)))
  {
    hide Right, OperatorTyped;
    var ty := Lookup(env, name).value.1.ty;
    InfixRight(p, bits, d, BitXor, Path(name), Paren(e), env, Some(ty), left, right, ty);
  }
}
