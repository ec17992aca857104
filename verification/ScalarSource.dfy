/**
 * The accepted subset of Rust and what it means: mutable locals live in a store, blocks
 * open scopes, operators short-circuit, calls evaluate their arguments left to right in
 * a frame of their own (provium/src/frontend.rs says which syntax is accepted).
 */
module ScalarSource {
  import opened Types
  import opened ScalarIr
  import opened RustOperators

  datatype Src =
    | Path(name: string)
    | BoolLit(b: bool)
    | IntLit(value: nat, suffix: Option<Ty>)
    | Paren(inner: Src)
    | Block(body: Stmts)
    | NotOf(inner: Src)
    | AndOf(left: Src, right: Src)
    | OrOf(left: Src, right: Src)
    | Infix(op: Op, left: Src, right: Src)
    | IfElse(condition: Src, yes: Stmts, no: Src)
    | IfOnly(condition: Src, yes: Stmts)
    | Method(op: Op, receiver: Src, arg: Src)
    | Call(name: string, args: Args)
    | OtherExpr

  datatype Args = NoArgs | Arg(e: Src, rest: Args)

  datatype Stmt =
    | Local(name: string, mutable: bool, annotation: Option<Ty>, init: Src)
    | Assign(name: string, value: Src)
    | XorAssign(name: string, value: Src)
    | AssertThat(condition: Src)
    | Tail(e: Src)
    | OtherStmt

  datatype Stmts = End | Then(head: Stmt, rest: Stmts)

  datatype Formal = Formal(name: string, mutable: bool, ty: Ty)

  datatype Item = Item(formals: seq<Formal>, result: Ty, body: Stmts)

  type Program = map<string, Item>

  // ---- Static types that literals take from their context.

  type NameTypes = string -> Option<Ty>

  function OrElse<T>(a: Option<T>, b: Option<T>): Option<T> {
    if a.Some? then a else b
  }

  /** Compiler::hint: what an operand says about its own type. */
  function Hint(p: Program, e: Src, types: NameTypes): Option<Ty> {
    match e
    case Path(name) => types(name)
    case BoolLit(_) => Some(TBool)
    case IntLit(_, suffix) => suffix
    case Paren(inner) => Hint(p, inner, types)
    case Method(_, receiver, _) => Hint(p, receiver, types)
    case Call(name, _) => if name in p then Some(p[name].result) else None
    case AndOf(_, _) => Some(TBool)
    case OrOf(_, _) => Some(TBool)
    case Infix(op, l, r) =>
      if Comparison(op) then Some(TBool)
      else if op.Shl? || op.Shr? then Hint(p, l, types)
      else OrElse(Hint(p, l, types), Hint(p, r, types))
    case _ => None
  }

  predicate Shift(op: Op) { op.Shl? || op.Shr? }

  /** The type an operator expects of its left operand. */
  function LeftExpected(p: Program, op: Op, l: Src, r: Src, types: NameTypes, expected: Option<Ty>): Option<Ty> {
    if Shift(op) then OrElse(Hint(p, l, types), expected)
    else OrElse(OrElse(Hint(p, l, types), Hint(p, r, types)), if Comparison(op) then None else expected)
  }

  /** The type it expects of its right one, once the left one's is known. */
  function RightExpected(p: Program, op: Op, r: Src, types: NameTypes, left: Ty): Option<Ty> {
    if Shift(op) then OrElse(Hint(p, r, types), Some(left)) else Some(left)
  }

  lemma {:induction false} HintSame(p: Program, e: Src, a: NameTypes, b: NameTypes)
    requires forall name :: a(name) == b(name)
    ensures Hint(p, e, a) == Hint(p, e, b)
    decreases e
  {
    match e
    case Paren(inner) => HintSame(p, inner, a, b);
    case Method(_, receiver, _) => HintSame(p, receiver, a, b);
    case Infix(_, l, r) =>
      HintSame(p, l, a, b);
      HintSame(p, r, a, b);
    case _ =>
  }

  // ---- Running.

  /** A visible variable, where it lives and its type. */
  datatype Slot = Slot(name: string, loc: nat, ty: Ty)

  type Scope = seq<Slot>

  type Store = seq<Value>

  /** The innermost variable of this name. */
  function Find(scope: Scope, name: string): Option<Slot> {
    if scope == [] then None
    else if scope[|scope| - 1].name == name then Some(scope[|scope| - 1])
    else Find(scope[..|scope| - 1], name)
  }

  function ScopeTypes(scope: Scope): NameTypes {
    name => var slot := Find(scope, name); if slot.Some? then Some(slot.value.ty) else None
  }

  datatype Run = Finished(value: Value, ty: Ty, store: Store) | Faulted(fault: Fault) | Stuck

  datatype ArgsRun = ArgsFinished(values: seq<Value>, store: Store) | ArgsFaulted(fault: Fault) | ArgsStuck

  /** Rust's operation on two values already computed. */
  function Operated(op: Op, a: Value, ty: Ty, b: Value, store: Store): Run {
    match Computed(op, a, b)
    case None => Stuck
    case Some(Ok(v)) => Finished(v, if Comparison(op) then TBool else ty, store)
    case Some(Err(f)) => Faulted(f)
  }

  function FrameScope(formals: seq<Formal>): Scope {
    seq(|formals|, k requires 0 <= k < |formals| => Slot(formals[k].name, k, formals[k].ty))
  }

  function EvalExpr(p: Program, bits: nat, fuel: nat, e: Src, scope: Scope, store: Store, expected: Option<Ty>): Run
    decreases fuel, e
  {
    match e
    case Path(name) =>
      var slot := Find(scope, name);
      if slot.Some? && slot.value.loc < |store| then Finished(store[slot.value.loc], slot.value.ty, store) else Stuck
    case BoolLit(b) => Finished(VBool(b), TBool, store)
    case IntLit(value, suffix) =>
      var ty := OrElse(suffix, expected);
      if ty.None? || BitsOf(ty.value, bits).None? then Stuck
      else Finished(VUInt(BitsOf(ty.value, bits).value, value), ty.value, store)
    case Paren(inner) => EvalExpr(p, bits, fuel, inner, scope, store, expected)
    case Block(body) =>
      if expected.None? then Stuck else EvalStmts(p, bits, fuel, body, scope, store, expected.value)
    case NotOf(inner) =>
      (match EvalExpr(p, bits, fuel, inner, scope, store, Some(TBool))
       case Finished(v, _, s) => if v.VBool? then Finished(VBool(!v.b), TBool, s) else Stuck
       case other => other)
    case AndOf(l, r) =>
      (match EvalExpr(p, bits, fuel, l, scope, store, Some(TBool))
       case Finished(v, _, s) =>
         if !v.VBool? then Stuck
         else if v.b then EvalExpr(p, bits, fuel, r, scope, s, Some(TBool))
         else Finished(VBool(false), TBool, s)
       case other => other)
    case OrOf(l, r) =>
      (match EvalExpr(p, bits, fuel, l, scope, store, Some(TBool))
       case Finished(v, _, s) =>
         if !v.VBool? then Stuck
         else if v.b then Finished(VBool(true), TBool, s)
         else EvalExpr(p, bits, fuel, r, scope, s, Some(TBool))
       case other => other)
    case Infix(op, l, r) =>
      (match EvalExpr(p, bits, fuel, l, scope, store, LeftExpected(p, op, l, r, ScopeTypes(scope), expected))
       case Finished(a, ty, s) =>
         (match EvalExpr(p, bits, fuel, r, scope, s, RightExpected(p, op, r, ScopeTypes(scope), ty))
          case Finished(b, _, s2) => Operated(op, a, ty, b, s2)
          case other => other)
       case other => other)
    case IfElse(c, yes, no) =>
      (match EvalExpr(p, bits, fuel, c, scope, store, Some(TBool))
       case Finished(v, _, s) =>
         if !v.VBool? || expected.None? then Stuck
         else if v.b then EvalStmts(p, bits, fuel, yes, scope, s, expected.value)
         else EvalExpr(p, bits, fuel, no, scope, s, expected)
       case other => other)
    case IfOnly(_, _) => Stuck
    case Method(op, receiver, arg) =>
      (match EvalExpr(p, bits, fuel, receiver, scope, store, OrElse(Hint(p, receiver, ScopeTypes(scope)), expected))
       case Finished(a, ty, s) =>
         (match EvalExpr(p, bits, fuel, arg, scope, s, Some(ty))
          case Finished(b, _, s2) => Operated(op, a, ty, b, s2)
          case other => other)
       case other => other)
    case Call(name, args) =>
      if name !in p then Stuck
      else
        (match EvalArgs(p, bits, fuel, args, scope, store, p[name].formals)
         case ArgsFaulted(f) => Faulted(f)
         case ArgsStuck => Stuck
         case ArgsFinished(values, s) =>
           if fuel == 0 then Stuck
           else
             match EvalStmts(p, bits, fuel - 1, p[name].body, FrameScope(p[name].formals), values, p[name].result)
             case Finished(v, ty, _) => Finished(v, ty, s)
             case other => other)
    case OtherExpr => Stuck
  }

  function EvalArgs(
    p: Program, bits: nat, fuel: nat, args: Args, scope: Scope, store: Store, formals: seq<Formal>): ArgsRun
    decreases fuel, args
  {
    match args
    case NoArgs => if formals == [] then ArgsFinished([], store) else ArgsStuck
    case Arg(e, rest) =>
      if formals == [] then ArgsStuck
      else
        match EvalExpr(p, bits, fuel, e, scope, store, Some(formals[0].ty))
        case Faulted(f) => ArgsFaulted(f)
        case Stuck => ArgsStuck
        case Finished(v, _, s) =>
          match EvalArgs(p, bits, fuel, rest, scope, s, formals[1..])
          case ArgsFinished(values, s2) => ArgsFinished([v] + values, s2)
          case other => other
  }

  function EvalStmts(p: Program, bits: nat, fuel: nat, stmts: Stmts, scope: Scope, store: Store, result: Ty): Run
    decreases fuel, stmts
  {
    match stmts
    case End => Stuck
    case Then(Local(name, _, annotation, init), rest) =>
      (match EvalExpr(p, bits, fuel, init, scope, store, annotation)
       case Finished(v, ty, s) => EvalStmts(p, bits, fuel, rest, scope + [Slot(name, |s|, ty)], s + [v], result)
       case other => other)
    case Then(Assign(name, value), rest) =>
      var slot := Find(scope, name);
      if slot.None? then Stuck
      else
        (match EvalExpr(p, bits, fuel, value, scope, store, Some(slot.value.ty))
         case Finished(v, _, s) =>
           if slot.value.loc < |s| then EvalStmts(p, bits, fuel, rest, scope, s[slot.value.loc := v], result) else Stuck
         case other => other)
    case Then(XorAssign(name, value), rest) =>
      // The right-hand side first, then the place it is combined with.
      var slot := Find(scope, name);
      if slot.None? then Stuck
      else
        (match EvalExpr(p, bits, fuel, value, scope, store, Some(slot.value.ty))
         case Finished(v, _, s) =>
           if slot.value.loc >= |s| then Stuck
           else
             (match Operated(BitXor, s[slot.value.loc], slot.value.ty, v, s)
              case Finished(x, _, _) => EvalStmts(p, bits, fuel, rest, scope, s[slot.value.loc := x], result)
              case other => other)
         case other => other)
    case Then(AssertThat(c), rest) =>
      (match EvalExpr(p, bits, fuel, c, scope, store, Some(TBool))
       case Finished(v, _, s) =>
         if !v.VBool? then Stuck
         else if v.b then EvalStmts(p, bits, fuel, rest, scope, s, result)
         else Faulted(Assertion)
       case other => other)
    case Then(Tail(e), rest) =>
      if rest.End? then EvalExpr(p, bits, fuel, e, scope, store, Some(result)) else Stuck
    case Then(OtherStmt, _) => Stuck
  }

  /** Calling a function with values for its formals. */
  function EvalCall(p: Program, bits: nat, fuel: nat, item: Item, values: seq<Value>): Run {
    EvalStmts(p, bits, fuel, item.body, FrameScope(item.formals), values, item.result)
  }
}
