/**
 The expression language of the finsh shell, by itself: what an expression computes and
 which expressions the compiler of components/finsh/finsh_compiler.c handles. Nothing here
 mentions nodes, type annotations, byte code or a stack.
 */
module FinshLang {
  import opened FinshOps

  /** enum finsh_type */
  datatype Ty = TUnknown | TVoid | TVoidP | TChar | TUChar | TCharP | TShort | TUShort | TShortP
              | TInt | TUInt | TIntP | TLong | TULong | TLongP

  /** The type that finsh_type_check gives a variable. */
  function CheckDt(ty: Ty): Dt {
    match ty
    case TUnknown => Void
    case TVoid => Void
    case TChar => Byte
    case TUChar => Byte
    case TShort => Word
    case TUShort => Word
    case _ => Dword
  }

  /** The type as which finsh_compile accesses a variable; with Void it emits nothing. */
  function CodeDt(ty: Ty): Dt {
    match ty
    case TUnknown => Void
    case TVoid => Void
    case TVoidP => Void
    case TChar => Byte
    case TUChar => Byte
    case TShort => Word
    case TUShort => Word
    case _ => Dword
  }

  /**
   Expressions. A variable is a user's (`user`) or the system's; Num is an int, a long, the
   address of a string or null; Fun is the address of a system call. Step is ++ or --,
   before or behind its variable.
   */
  datatype Expr = Var(ty: Ty, a: Cell, user: bool) | Char(c: Octet) | Num(v: Cell) | Fun(f: Cell)
                | Binary(op: BinOp, l: Expr, r: Expr) | Compl(e: Expr)
                | Apply(callee: Expr, args: Exprs)
                | Assign(place: Expr, val: Expr) | Step(pre: bool, down: bool, target: Expr)
                | Deref(ptr: Expr) | AddrOf(obj: Expr)

  datatype Exprs = Done | More(head: Expr, tail: Exprs)

  function Count(es: Exprs): nat {
    if es.Done? then 0 else 1 + Count(es.tail)
  }

  /** The type at which an operator with this first operand works. */
  function Type(e: Expr): Dt {
    match e
    case Var(ty, _, _) => CheckDt(ty)
    case Char(_) => Byte
    case Num(_) => Dword
    case Fun(_) => Void
    case Binary(_, l, _) => Type(l)
    case Compl(e) => Type(e)
    case Apply(callee, _) => Type(callee)
    case Assign(place, _) => Type(place)
    case Step(_, _, target) => Type(target)
    case Deref(ptr) => Type(ptr)
    case AddrOf(obj) => Type(obj)
  }

  /** The part of a cell that an expression's value fills. */
  function Width(e: Expr): Dt {
    match e
    case Fun(_) => Dword
    case Apply(_, _) => Dword
    case AddrOf(_) => Dword
    case _ => Type(e)
  }

  /**
   Expressions with an instruction for everything they say: every operator has a type,
   variables are of types that can be accessed, a call has at most 16 arguments, and ++ and --
   apply to users' variables.
   */
  predicate Fair(e: Expr) {
    match e
    case Var(ty, _, _) => CodeDt(ty) != Void
    case Char(_) => true
    case Num(_) => true
    case Fun(_) => true
    case Binary(_, l, r) => Fair(l) && Fair(r) && Type(l) != Void
    case Compl(e) => Fair(e) && Type(e) != Void
    case Apply(callee, args) => Fair(callee) && FairArgs(args) && Count(args) <= 16
    case Assign(place, val) => FairPlace(place) && Fair(val) && Type(place) != Void
    case Step(_, _, target) => target.Var? && target.user && Fair(target)
    case Deref(ptr) => Fair(ptr) && Type(ptr) != Void
    case AddrOf(obj) => FairPlace(obj)
  }

  predicate FairPlace(e: Expr) {
    match e
    case Var(ty, _, _) => CodeDt(ty) != Void
    case Deref(ptr) => Fair(ptr)
    case _ => false
  }

  predicate FairArgs(es: Exprs) {
    es.Done? || (Fair(es.head) && FairArgs(es.tail))
  }

  /**
   Fair expressions that read no value wider than it is: operands are at least as wide as their
   operator, and arguments, callees and pointers are whole cells.
   */
  predicate Fine(e: Expr) {
    match e
    case Var(ty, _, _) => CodeDt(ty) != Void
    case Char(_) => true
    case Num(_) => true
    case Fun(_) => true
    case Binary(_, l, r) => Fine(l) && Fine(r) && Type(l) != Void && Size(Type(l)) <= Size(Width(r))
    case Compl(e) => Fine(e) && Type(e) != Void
    case Apply(callee, args) => Fine(callee) && Width(callee) == Dword && FineArgs(args) && Count(args) <= 16
    case Assign(place, val) =>
      FinePlace(place) && Fine(val) && Type(place) != Void && Size(Type(place)) <= Size(Width(val))
    case Step(_, _, target) => target.Var? && target.user && Fine(target)
    case Deref(ptr) => Fine(ptr) && Width(ptr) == Dword && Type(ptr) != Void
    case AddrOf(obj) => FinePlace(obj)
  }

  predicate FinePlace(e: Expr) {
    match e
    case Var(ty, _, _) => CodeDt(ty) != Void
    case Deref(ptr) => Fine(ptr) && Width(ptr) == Dword
    case _ => false
  }

  predicate FineArgs(es: Exprs) {
    es.Done? || (Fine(es.head) && Width(es.head) == Dword && FineArgs(es.tail))
  }

  // ----- evaluation -----

  datatype Result = Undefined | Value(v: Cell, m: Memory)
  datatype Results = NotAll | All(vs: seq<Cell>, m: Memory)

  function LoadAt(m: Memory, a: Cell, dt: Dt): Result {
    if Mapped(m, a, Size(dt)) then Value(Load(m, a, dt), m) else Undefined
  }

  /** The value of an expression, with the memory it leaves. */
  function Eval(env: Env, e: Expr, m: Memory): Result
    decreases e, 0
  {
    match e
    case Var(ty, a, _) => LoadAt(m, a, CheckDt(ty))
    case Char(c) => Value(c, m)
    case Num(v) => Value(v, m)
    case Fun(f) => Value(f, m)
    case Binary(op, l, r) =>
      var x := Eval(env, l, m);
      if x.Undefined? then Undefined
      else (
        var y := Eval(env, r, x.m);
        if y.Undefined? then Undefined
        else (
          var z := Alu(env, op, Type(l), Low(Type(l), x.v), Low(Type(l), y.v));
          if z.None? then Undefined else Value(z.value, y.m)))
    case Compl(e) =>
      var x := Eval(env, e, m);
      if x.Undefined? then Undefined else Value(Complement(Type(e), Low(Type(e), x.v)), x.m)
    case Apply(callee, args) =>
      var f := Eval(env, callee, m);
      if f.Undefined? then Undefined
      else (
        var xs := EvalArgs(env, args, f.m);
        if xs.NotAll? then Undefined
        else (
          var (r, m') := env.sys(f.v, xs.vs, xs.m);
          Value(r, m')))
    case Assign(place, val) =>
      var p := Place(env, place, m);
      if p.Undefined? then Undefined
      else (
        var x := Eval(env, val, p.m);
        if x.Undefined? || !Mapped(x.m, p.v, Size(Type(place))) then Undefined
        else Value(Low(Type(place), x.v), Store(x.m, p.v, Type(place), Low(Type(place), x.v))))
    case Step(pre, down, target) =>
      if !target.Var? || !Mapped(m, target.a, if pre then 4 else Size(Type(target))) then Undefined
      else StepVar(env, pre, down, Type(target), target.a, m)
    case Deref(ptr) =>
      var p := Eval(env, ptr, m);
      if p.Undefined? then Undefined else LoadAt(p.m, p.v, Type(ptr))
    case AddrOf(obj) => Place(env, obj, m)
  }

  /** ++ and --: the variable's new contents, and its new or old value as the result. */
  function StepVar(env: Env, pre: bool, down: bool, dt: Dt, a: Cell, m: Memory): Result
    requires Mapped(m, a, Size(dt))
  {
    if dt == Void then Undefined
    else (
      var x := Load(m, a, dt);
      var y := Alu(env, if down then Sub else Add, dt, x, 1).value;
      Value(if pre then y else x, Store(m, a, dt, y)))
  }

  /** The address of what an expression denotes. */
  function Place(env: Env, e: Expr, m: Memory): Result
    decreases e, 1
  {
    match e
    case Var(_, a, _) => Value(a, m)
    case Deref(ptr) => Eval(env, ptr, m)
    case _ => Undefined
  }

  function EvalArgs(env: Env, es: Exprs, m: Memory): (r: Results)
    ensures r.All? ==> |r.vs| == Count(es)
    decreases es
  {
    if es.Done? then All([], m)
    else (
      var x := Eval(env, es.head, m);
      if x.Undefined? then NotAll
      else (
        var xs := EvalArgs(env, es.tail, x.m);
        if xs.NotAll? then NotAll else All([x.v] + xs.vs, xs.m)))
  }

  /** A list of statements: each is evaluated in the memory the one before left. */
  function EvalList(env: Env, es: Exprs, m: Memory): Result
    requires es.More?
  {
    var x := Eval(env, es.head, m);
    if x.Undefined? || es.tail.Done? then x else EvalList(env, es.tail, x.m)
  }

  predicate FineList(es: Exprs) {
    es.Done? || (Fine(es.head) && FineList(es.tail))
  }

  lemma {:induction false} FineIsFair(e: Expr)
    ensures Fine(e) ==> Fair(e)
    ensures FinePlace(e) ==> FairPlace(e)
    decreases e
  {
    match e
    case Binary(_, l, r) => FineIsFair(l); FineIsFair(r);
    case Compl(x) => FineIsFair(x);
    case Apply(callee, args) => FineIsFair(callee); FineAreFair(args);
    case Assign(place, val) => FineIsFair(place); FineIsFair(val);
    case Step(_, _, target) => FineIsFair(target);
    case Deref(ptr) => FineIsFair(ptr);
    case AddrOf(obj) => FineIsFair(obj);
    case _ =>
  }

  lemma {:induction false} FineAreFair(es: Exprs)
    ensures FineArgs(es) ==> FairArgs(es)
    decreases es
  {
    if es.More? {
      FineIsFair(es.head);
      FineAreFair(es.tail);
    }
  }

  function Last(es: Exprs): Expr
    requires es.More?
  {
    if es.tail.Done? then es.head else Last(es.tail)
  }

  // ----- the stack an expression needs -----

  function Max(a: nat, b: nat): nat { if a < b then b else a }

  function Depth(e: Expr): (d: nat)
    ensures d >= 1
  {
    match e
    case Binary(_, l, r) => Max(Depth(l), 1 + Depth(r))
    case Compl(e) => Depth(e)
    case Apply(callee, args) => Max(Depth(callee), 1 + DepthArgs(args))
    case Assign(place, val) => Max(Depth(place), 1 + Depth(val))
    case Step(pre, _, _) => if pre then 3 else 4
    case Deref(ptr) => Depth(ptr)
    case AddrOf(obj) => Depth(obj)
    case _ => 1
  }

  function DepthArgs(es: Exprs): nat {
    if es.Done? then 0 else Max(Depth(es.head), 1 + DepthArgs(es.tail))
  }

  function DepthList(es: Exprs): nat {
    if es.Done? then 0 else Max(Depth(es.head), DepthList(es.tail))
  }

  lemma {:induction false} WideEnough(e: Expr)
    ensures Size(Type(e)) <= Size(Width(e))
    ensures Width(e) != Dword ==> Width(e) == Type(e)
  {
  }

  /** Values fit the part of the cell that their expression fills. */
  lemma {:induction false} EvalFits(env: Env, e: Expr, m: Memory)
    requires Fair(e) && Eval(env, e, m).Value?
    ensures Eval(env, e, m).v < Range(Width(e))
  {
    WideEnough(e);
  }
}
