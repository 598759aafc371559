/**
 The compiler of the finsh shell, components/finsh/finsh_compiler.c: the type annotation of
 the node table and the emission of byte code, proved to run as the language says.
 */
module FinshTree {
  import opened FinshOps
  import opened FinshVm
  import opened FinshLang

  /** FINSH_NODE_*; the ten binary operators are one constructor. */
  datatype Kind = NId | NChar | NInt | NLong | NString | NNull | NBinary(op: BinOp) | NBitwise | NFunc | NAssign
                | NPreInc | NPreDec | NInc | NDec | NGetValue | NGetAddr | NSysNull | NOther

  /** FINSH_IDTYPE_VAR, _SYSVAR, _SYSCALL; no bit set on nodes that are no identifier. */
  datatype IdClass = NoId | IsVar | IsSysVar | IsSyscall

  /**
   What a node holds besides its links and annotations: `value` for constants, and for
   identifiers the type and address of what is named. `cell` is the address of the value
   union of the finsh_var that id.var points to.
   */
  datatype Info = Info(kind: Kind, value: Cell, cls: IdClass, ty: Ty, at: Cell, cell: Cell)

  /** A node with everything below and behind it; `addr` is FINSH_IDTYPE_ADDRESS. */
  datatype Tree = Nil | Node(id: nat, info: Info, dt: Dt, addr: bool, child: Tree, sibling: Tree)

  // ----- finsh_type_check -----

  /** Whether the child of a node is checked as an address. */
  predicate ChildMode(kind: Kind, isAddr: bool) {
    if kind == NAssign || kind == NPreInc || kind == NPreDec || kind == NGetAddr then true
    else if kind == NGetValue && isAddr then false
    else isAddr
  }

  function NodeDt(t: Tree, child: Tree): Dt
    requires t.Node?
  {
    if child.Node? then child.dt
    else
      match t.info.kind
      case NId =>
        if t.info.cls == IsVar || t.info.cls == IsSysVar then
          if t.info.ty == TUnknown then t.dt else CheckDt(t.info.ty)
        else t.dt
      case NChar => Byte
      case NInt => Dword
      case NLong => Dword
      case NString => Dword
      case NNull => Dword
      case _ => t.dt
  }

  /** idtype is exactly FINSH_IDTYPE_SYSCALL */
  predicate PlainSyscall(t: Tree)
    requires t.Node?
  {
    t.info.cls == IsSyscall && !t.addr
  }

  function Annotate(t: Tree, isAddr: bool): (r: Tree)
    ensures r.Node? <==> t.Node?
  {
    if t.Nil? then Nil
    else (
      var child := Annotate(t.child, ChildMode(t.info.kind, isAddr));
      var sibling := Annotate(t.sibling, false);
      Node(t.id, t.info, NodeDt(t, child), t.addr || (isAddr && !PlainSyscall(t)), child, sibling))
  }

  // ----- finsh_compile -----

  function Length(t: Tree): nat {
    if t.Nil? then 0 else 1 + Length(t.sibling)
  }

  function If(dt: Dt, code: seq<Instr>): seq<Instr> {
    if dt == Void then [] else code
  }

  /** The increment or decrement of the variable at `a` whose address is on the stack. */
  function Bump(dt: Dt, a: Cell, down: bool): seq<Instr> {
    [LdVal(dt, a), Ld(dt, 1), Bin(if down then Sub else Add, dt), St(dt)]
  }

  /** What is emitted for a node itself, after the code of its children. */
  function Own(t: Tree): seq<Instr>
    requires t.Node?
  {
    match t.info.kind
    case NId =>
      if t.info.cls == IsSyscall then [Ld(Dword, t.info.at)]
      else (
        var a := if t.info.cls == IsSysVar then t.info.at else t.info.cell;
        If(CodeDt(t.info.ty), if t.addr then [Ld(Dword, a)] else [LdVal(CodeDt(t.info.ty), a)]))
    case NChar => [Ld(Byte, t.info.value % 0x100)]
    case NInt => [Ld(Dword, t.info.value)]
    case NLong => [Ld(Dword, t.info.value)]
    case NString => [Ld(Dword, t.info.value)]
    case NNull => [Ld(Dword, t.info.value)]
    case NBinary(op) => If(t.dt, [Bin(op, t.dt)])
    case NBitwise => If(t.dt, [Not(t.dt)])
    case NFunc => if t.child.Nil? then [] else [Call(Length(t.child.sibling) % 0x100)]
    case NAssign =>
      if t.child.Node? && (t.child.info.kind == NId || t.child.info.kind == NGetValue)
      then If(t.child.dt, [St(t.child.dt), LdStk(t.child.dt)]) else []
    case NPreInc => OnId(t, If(t.dt, Bump(t.dt, ChildCell(t), false) + [LdStk(Dword)]))
    case NPreDec => OnId(t, If(t.dt, Bump(t.dt, ChildCell(t), true) + [LdStk(Dword)]))
    case NInc => OnId(t, If(t.dt, [Ld(Dword, ChildCell(t))] + Bump(t.dt, ChildCell(t), false) + [Pop]))
    case NDec => OnId(t, If(t.dt, [Ld(Dword, ChildCell(t))] + Bump(t.dt, ChildCell(t), true) + [Pop]))
    case NGetValue => if t.addr then [] else If(t.dt, [LdStk(t.dt)])
    case NGetAddr => []
    case NSysNull => [Noop, Noop, Noop, Noop]
    case NOther => []
  }

  function OnId(t: Tree, code: seq<Instr>): seq<Instr>
    requires t.Node?
  {
    if t.child.Node? && t.child.info.kind == NId then code else []
  }

  function ChildCell(t: Tree): Cell
    requires t.Node?
  {
    if t.child.Node? then t.child.info.cell else 0
  }

  /** A node without the ones behind it, and a chain of nodes. */
  function Code(t: Tree): seq<Instr>
    requires t.Node?
    decreases t, 0
  {
    Chain(t.child) + Own(t)
  }

  function Chain(t: Tree): seq<Instr>
    decreases t, 1
  {
    if t.Nil? then [] else Code(t) + Chain(t.sibling)
  }

  /** The statements of a list, their values popped in between. */
  function Statements(t: Tree): seq<Instr> {
    if t.Nil? then []
    else if t.sibling.Nil? then Code(t)
    else Code(t) + [Pop] + Statements(t.sibling)
  }

  // ----- the trees the parser builds -----

  predicate IsNode(t: Tree, kind: Kind) {
    t.Node? && t.info.kind == kind && t.info.cls == NoId && !t.addr
  }

  /** `t`, without what is behind it, is the fresh tree of the expression. */
  predicate Builds(e: Expr, t: Tree)
    decreases e
  {
    match e
    case Var(ty, a, user) =>
      && t.Node? && t.info.kind == NId && !t.addr && t.child.Nil? && t.info.ty == ty && t.info.at == a
      && t.info.cls == (if user then IsVar else IsSysVar) && (user ==> t.info.cell == a)
      && (ty == TUnknown ==> t.dt == Void)
    case Char(c) => IsNode(t, NChar) && t.child.Nil? && t.info.value == c
    case Num(v) =>
      && (IsNode(t, NInt) || IsNode(t, NLong) || IsNode(t, NString) || IsNode(t, NNull))
      && t.child.Nil? && t.info.value == v
    case Fun(f) =>
      && t.Node? && t.info.kind == NId && t.info.cls == IsSyscall && t.info.at == f && !t.addr && t.dt == Void
      && t.child.Nil?
    case Binary(op, l, r) =>
      IsNode(t, NBinary(op)) && Builds(l, t.child) && Builds(r, t.child.sibling) && t.child.sibling.sibling.Nil?
    case Compl(e) => IsNode(t, NBitwise) && Builds(e, t.child) && t.child.sibling.Nil?
    case Apply(callee, args) => IsNode(t, NFunc) && Builds(callee, t.child) && BuildsAll(args, t.child.sibling)
    case Assign(place, val) =>
      IsNode(t, NAssign) && Builds(place, t.child) && Builds(val, t.child.sibling) && t.child.sibling.sibling.Nil?
    case Step(pre, down, target) =>
      && IsNode(t, if pre then if down then NPreDec else NPreInc else if down then NDec else NInc)
      && Builds(target, t.child) && t.child.sibling.Nil?
    case Deref(ptr) => IsNode(t, NGetValue) && Builds(ptr, t.child) && t.child.sibling.Nil?
    case AddrOf(obj) => IsNode(t, NGetAddr) && Builds(obj, t.child) && t.child.sibling.Nil?
  }

  lemma BuildsNode(e: Expr, t: Tree)
    requires Builds(e, t)
    ensures t.Node? && !t.addr
  {
  }

  /** The chain is made of the trees of the expressions. */
  predicate BuildsAll(es: Exprs, t: Tree)
    decreases es
  {
    if es.Done? then t.Nil? else t.Node? && Builds(es.head, t) && BuildsAll(es.tail, t.sibling)
  }

  /** Annotation finds the type of the expression. */
  lemma {:induction false} AnnotatedType(e: Expr, t: Tree, isAddr: bool)
    requires Builds(e, t)
    ensures t.Node? && Annotate(t, isAddr).dt == Type(e)
    decreases e
  {
    BuildsNode(e, t);
    match e
    case Var(_, _, _) =>
    case Char(_) =>
    case Num(_) =>
    case Fun(_) =>
    case Binary(_, l, _) => AnnotatedType(l, t.child, ChildMode(t.info.kind, isAddr));
    case Compl(e) => AnnotatedType(e, t.child, ChildMode(t.info.kind, isAddr));
    case Apply(callee, _) => AnnotatedType(callee, t.child, ChildMode(t.info.kind, isAddr));
    case Assign(place, _) => AnnotatedType(place, t.child, ChildMode(t.info.kind, isAddr));
    case Step(_, _, target) => AnnotatedType(target, t.child, ChildMode(t.info.kind, isAddr));
    case Deref(ptr) => AnnotatedType(ptr, t.child, ChildMode(t.info.kind, isAddr));
    case AddrOf(obj) => AnnotatedType(obj, t.child, ChildMode(t.info.kind, isAddr));
  }

  lemma {:induction false} LengthBuilt(es: Exprs, t: Tree)
    requires BuildsAll(es, t)
    ensures Length(Annotate(t, false)) == Count(es)
    decreases es
  {
    if es.More? {
      LengthBuilt(es.tail, t.sibling);
    }
  }
}

module FinshCorrect {
  import opened FinshOps
  import opened FinshVm
  import opened FinshLang
  import opened FinshTree
  import opened FinshCells

  /** Running `code` from `s` pushes a cell whose `w` part is the result. */
  ghost predicate Gives(env: Env, code: seq<Instr>, s: State, w: Dt, r: Result) {
    r.Value? ==>
      && DoAll(env, code, s).Some?
      && var s' := DoAll(env, code, s).value;
        Room(s) && Room(s') && s'.sp == s.sp + 1 && Lands(s, s', s'.stack[s.sp], r.m) && Low(w, s'.stack[s.sp]) == r.v
  }

  // ----- the shape of the code -----

  lemma AnnotatedNode(t: Tree, isAddr: bool)
    requires t.Node?
    ensures var t' := Annotate(t, isAddr);
      && t'.Node? && t'.info == t.info && t'.child == Annotate(t.child, ChildMode(t.info.kind, isAddr))
      && t'.sibling == Annotate(t.sibling, false) && t'.dt == NodeDt(t, t'.child)
      && t'.addr == (t.addr || (isAddr && !PlainSyscall(t)))
  {
  }

  lemma CodeOfLeaf(t: Tree)
    requires t.Node? && t.child.Nil?
    ensures Code(t) == Own(t)
  {
    hide Own;
    assert [] + Own(t) == Own(t);
  }

  lemma CodeOfOne(t: Tree)
    requires t.Node? && t.child.Node? && t.child.sibling.Nil?
    ensures Code(t) == Code(t.child) + Own(t)
  {
    hide Own;
    ChainOfOne(t.child);
  }

  lemma ChainOfOne(t: Tree)
    requires t.Node? && t.sibling.Nil?
    ensures Chain(t) == Code(t)
  {
    hide Own;
    assert Code(t) + [] == Code(t);
  }

  lemma CodeOfTwo(t: Tree)
    requires t.Node? && t.child.Node? && t.child.sibling.Node? && t.child.sibling.sibling.Nil?
    ensures Code(t) == Code(t.child) + Code(t.child.sibling) + Own(t)
  {
    hide Own;
    ChainOfOne(t.child.sibling);
    assert Chain(t.child) == Code(t.child) + Chain(t.child.sibling);
  }

  // ----- the code of an expression -----

  lemma AnnotatedNil(isAddr: bool)
    ensures Annotate(Nil, isAddr) == Nil
  {
  }

  lemma OwnBinary(t: Tree)
    requires t.Node? && t.info.kind.NBinary? && t.dt != Void
    ensures Own(t) == [Bin(t.info.kind.op, t.dt)]
  {
  }

  lemma OwnAssign(t: Tree)
    requires t.Node? && t.info.kind.NAssign? && t.child.Node? && t.child.dt != Void
    requires t.child.info.kind == NId || t.child.info.kind == NGetValue
    ensures Own(t) == [St(t.child.dt), LdStk(t.child.dt)]
  {
  }

  lemma OwnCall(t: Tree, n: nat)
    requires t.Node? && t.info.kind == NFunc && t.child.Node? && Length(t.child.sibling) == n <= 16
    ensures Own(t) == [Call(n)]
  {
  }

  lemma ChainOfMore(t: Tree)
    requires t.Node?
    ensures Chain(t) == Code(t) + Chain(t.sibling)
  {
  }

  /** The code of a fair expression, run anywhere, does what `Leave` says. */
  lemma {:induction false} CodeLeaves(env: Env, e: Expr, t: Tree, place: bool, s: State)
    requires Builds(e, t) && (if place then FairPlace(e) else Fair(e))
    ensures t.Node? && DoAll(env, Code(Annotate(t, place)), s) == Leave(env, e, place, s)
    decreases e, 1
  {
    hide Do, DoAll, Builds, Fair, FairPlace, Annotate, Code, Leave;
    BuildsNode(e, t);
    match e
    case Binary(_, _, _) => NoPlace(e, place); CodeOfBinary(env, e, t, s);
    case Compl(_) => NoPlace(e, place); CodeOfCompl(env, e, t, s);
    case Apply(_, _) => NoPlace(e, place); CodeOfCall(env, e, t, s);
    case Assign(_, _) => NoPlace(e, place); CodeOfAssign(env, e, t, s);
    case Step(_, _, _) => NoPlace(e, place); CodeOfStep(env, e, t, s);
    case Deref(_) => CodeOfDeref(env, e, t, place, s);
    case AddrOf(_) => NoPlace(e, place); CodeOfAddrOf(env, e, t, s);
    case _ => CodeOfConst(env, e, t, place, s);
  }

  /** Constants and variables. */
  lemma CodeOfConst(env: Env, e: Expr, t: Tree, place: bool, s: State)
    requires e.Var? || e.Char? || e.Num? || e.Fun?
    requires Builds(e, t) && (if place then FairPlace(e) else Fair(e))
    ensures t.Node? && DoAll(env, Code(Annotate(t, place)), s) == Leave(env, e, place, s)
  {
    hide Do, DoAll, Annotate, Code;
    BuildsNode(e, t);
    AnnotatedNode(t, place);
    AnnotatedNil(ChildMode(t.info.kind, place));
    var t' := Annotate(t, place);
    CodeOfLeaf(t');
    assert |Own(t')| == 1;
    DoOne(env, Own(t')[0], s);
  }

  lemma {:induction false} CodeOfCompl(env: Env, e: Expr, t: Tree, s: State)
    requires e.Compl? && Builds(e, t) && Fair(e)
    ensures t.Node? && DoAll(env, Code(Annotate(t, false)), s) == Leave(env, e, false, s)
    decreases e, 0
  {
    hide Do, DoAll, Annotate, Code;
    BuildsNode(e.e, t.child);
    AnnotatedNode(t, false);
    AnnotatedNode(t.child, false);
    AnnotatedNil(false);
    AnnotatedType(e.e, t.child, false);
    CodeOfOne(Annotate(t, false));
    CodeLeaves(env, e.e, t.child, false, s);
    DoThen(env, Code(Annotate(t.child, false)), Not(Type(e.e)), s);
  }

  lemma {:induction false} CodeOfDeref(env: Env, e: Expr, t: Tree, place: bool, s: State)
    requires e.Deref? && Builds(e, t) && (if place then FairPlace(e) else Fair(e))
    ensures t.Node? && DoAll(env, Code(Annotate(t, place)), s) == Leave(env, e, place, s)
    decreases e, 0
  {
    hide Do, DoAll, Annotate, Code;
    BuildsNode(e.ptr, t.child);
    var c' := Annotate(t.child, false);
    AnnotatedNode(t, place);
    AnnotatedNode(t.child, false);
    AnnotatedNil(false);
    AnnotatedType(e.ptr, t.child, false);
    CodeOfOne(Annotate(t, place));
    CodeLeaves(env, e.ptr, t.child, false, s);
    if place {
      assert Code(c') + [] == Code(c');
    } else {
      DoThen(env, Code(c'), LdStk(Type(e.ptr)), s);
    }
  }

  lemma {:induction false} CodeOfAddrOf(env: Env, e: Expr, t: Tree, s: State)
    requires e.AddrOf? && Builds(e, t) && Fair(e)
    ensures t.Node? && DoAll(env, Code(Annotate(t, false)), s) == Leave(env, e, false, s)
    decreases e, 0
  {
    hide Do, DoAll, Annotate, Code;
    BuildsNode(e.obj, t.child);
    var c' := Annotate(t.child, true);
    AnnotatedNode(t, false);
    AnnotatedNode(t.child, true);
    AnnotatedNil(false);
    CodeOfOne(Annotate(t, false));
    assert Code(c') + [] == Code(c');
    CodeLeaves(env, e.obj, t.child, true, s);
  }

  lemma {:induction false} CodeOfBinary(env: Env, e: Expr, t: Tree, s: State)
    requires e.Binary? && Builds(e, t) && Fair(e)
    ensures t.Node? && DoAll(env, Code(Annotate(t, false)), s) == Leave(env, e, false, s)
    decreases e, 0
  {
    hide Do, DoAll, Annotate, Code, Own;
    var c, d := t.child, t.child.sibling;
    BuildsNode(e.l, c);
    BuildsNode(e.r, d);
    var c', d' := Annotate(c, false), Annotate(d, false);
    AnnotatedNode(t, false);
    AnnotatedNode(c, false);
    AnnotatedNode(d, false);
    AnnotatedNil(false);
    AnnotatedType(e.l, c, false);
    CodeOfTwo(Annotate(t, false));
    OwnBinary(Annotate(t, false));
    CodeLeaves(env, e.l, c, false, s);
    DoAppend(env, Code(c'), Code(d'), s);
    DoThen(env, Code(c') + Code(d'), Bin(e.op, Type(e.l)), s);
    if DoAll(env, Code(c'), s).Some? {
      CodeLeaves(env, e.r, d, false, DoAll(env, Code(c'), s).value);
    }
  }

  lemma {:induction false} CodeOfAssign(env: Env, e: Expr, t: Tree, s: State)
    requires e.Assign? && Builds(e, t) && Fair(e)
    ensures t.Node? && DoAll(env, Code(Annotate(t, false)), s) == Leave(env, e, false, s)
    decreases e, 0
  {
    hide Do, DoAll, Annotate, Code, Own;
    var c, d := t.child, t.child.sibling;
    BuildsNode(e.place, c);
    BuildsNode(e.val, d);
    var c', d' := Annotate(c, true), Annotate(d, false);
    AnnotatedNode(t, false);
    AnnotatedNode(c, true);
    AnnotatedNode(d, false);
    AnnotatedNil(false);
    var dt := Type(e.place);
    AnnotatedType(e.place, c, true);
    CodeOfTwo(Annotate(t, false));
    OwnAssign(Annotate(t, false));
    CodeLeaves(env, e.place, c, true, s);
    DoAppend(env, Code(c'), Code(d'), s);
    DoThen(env, Code(c') + Code(d'), St(dt), s);
    DoThen(env, Code(c') + Code(d') + [St(dt)], LdStk(dt), s);
    assert Code(c') + Code(d') + [St(dt)] + [LdStk(dt)] == Code(c') + Code(d') + [St(dt), LdStk(dt)];
    if DoAll(env, Code(c'), s).Some? {
      CodeLeaves(env, e.val, d, false, DoAll(env, Code(c'), s).value);
    }
  }

  lemma CodeOfStep(env: Env, e: Expr, t: Tree, s: State)
    requires e.Step? && Builds(e, t) && Fair(e)
    ensures t.Node? && DoAll(env, Code(Annotate(t, false)), s) == Leave(env, e, false, s)
  {
    hide Do, DoAll, Bump, Annotate, Code;
    BuildsNode(e.target, t.child);
    var t', c' := Annotate(t, false), Annotate(t.child, e.pre);
    AnnotatedNode(t, false);
    AnnotatedNode(t.child, e.pre);
    AnnotatedNil(false);
    AnnotatedNil(e.pre);
    var a, dt := e.target.a, Type(e.target);
    AnnotatedType(e.target, t.child, e.pre);
    CodeOfOne(t');
    CodeOfLeaf(c');
    if e.pre {
      assert Own(c') == [Ld(Dword, a)];
      assert Own(t') == Bump(dt, a, e.down) + [LdStk(Dword)];
    } else {
      assert Own(c') == [LdVal(dt, a)];
      assert Own(t') == [Ld(Dword, a)] + Bump(dt, a, e.down) + [Pop];
    }
  }

  lemma BuildsCall(e: Expr, t: Tree)
    requires e.Apply? && Builds(e, t) && Fair(e)
    ensures t.Node? && t.info.kind == NFunc && t.child.Node? && Count(e.args) <= 16
    ensures Builds(e.callee, t.child) && BuildsAll(e.args, t.child.sibling)
  {
    BuildsNode(e.callee, t.child);
  }

  lemma CallCode(e: Expr, t: Tree)
    requires e.Apply? && Builds(e, t) && Fair(e)
    ensures t.Node? && t.child.Node? && Count(e.args) <= 16
    ensures Code(Annotate(t, false))
      == Code(Annotate(t.child, false)) + Chain(Annotate(t.child.sibling, false)) + [Call(Count(e.args))]
  {
    hide Annotate, Chain, Length, Builds, Fair, Own;
    BuildsCall(e, t);
    AnnotatedNode(t, false);
    AnnotatedNode(t.child, false);
    ChainOfMore(Annotate(t.child, false));
    LengthBuilt(e.args, t.child.sibling);
    OwnCall(Annotate(t, false), Count(e.args));
  }

  lemma {:induction false} CodeOfCall(env: Env, e: Expr, t: Tree, s: State)
    requires e.Apply? && Builds(e, t) && Fair(e)
    ensures t.Node? && DoAll(env, Code(Annotate(t, false)), s) == Leave(env, e, false, s)
    decreases e, 0
  {
    hide Do, DoAll, Annotate, Chain, Code, Own;
    CallCode(e, t);
    var c', d' := Annotate(t.child, false), Annotate(t.child.sibling, false);
    CodeLeaves(env, e.callee, t.child, false, s);
    DoAppend(env, Code(c'), Chain(d'), s);
    DoThen(env, Code(c') + Chain(d'), Call(Count(e.args)), s);
    if DoAll(env, Code(c'), s).Some? {
      CodeOfArgs(env, e.args, t.child.sibling, DoAll(env, Code(c'), s).value);
    }
  }

  lemma {:induction false} CodeOfArgs(env: Env, es: Exprs, t: Tree, s: State)
    requires BuildsAll(es, t) && FairArgs(es)
    ensures DoAll(env, Chain(Annotate(t, false)), s) == LeaveAll(env, es, s)
    decreases es, 0
  {
    hide Do;
    if es.More? {
      hide DoAll, Annotate, Chain, Code;
      var c', d' := Annotate(t, false), Annotate(t.sibling, false);
      AnnotatedNode(t, false);
      ChainOfMore(c');
      CodeLeaves(env, es.head, t, false, s);
      DoAppend(env, Code(c'), Chain(d'), s);
      if DoAll(env, Code(c'), s).Some? {
        CodeOfArgs(env, es.tail, t.sibling, DoAll(env, Code(c'), s).value);
      }
    }
  }

  // ----- the main theorem -----

  /**
   The code of a fair expression computes its value, or its address where an address is
   wanted, in the memory the evaluation leaves, and pushes just that on the stack, wherever no
   cell is read with stale bytes above its value.
   */
  lemma Compiled(env: Env, e: Expr, t: Tree, place: bool, s: State)
    requires Builds(e, t) && (if place then FairPlace(e) else Fair(e)) && Clean(env, e, place, s)
    requires Room(s) && s.sp + Depth(e) <= STACK_MAX
    ensures t.Node?
    ensures Gives(env, Code(Annotate(t, place)), s, if place then Dword else Width(e), ResultOf(env, e, place, s.mem))
    ensures Left(s, DoAll(env, Code(Annotate(t, place)), s), CellOf(env, e, place, Start(s), s.mem),
                 ResultOf(env, e, place, s.mem))
  {
    hide DoAll, Annotate, Code, CellOf, Eval, Place, Leave, Clean, Low;
    CodeLeaves(env, e, t, place, s);
    LeaveLands(env, e, place, s);
    var r, c := ResultOf(env, e, place, s.mem), CellOf(env, e, place, Start(s), s.mem);
    if r.Value? {
      WholeLow(c);
      if !place && !e.AddrOf? {
        CellShows(env, e, Start(s), s.mem);
      }
    }
  }

  /** Clean arguments are pushed as their values, one after the other. */
  lemma CompiledArgs(env: Env, es: Exprs, t: Tree, s: State)
    requires BuildsAll(es, t) && FairArgs(es) && CleanArgs(env, es, s)
    requires Room(s) && s.sp + DepthArgs(es) <= STACK_MAX && EvalArgs(env, es, s.mem).All?
    ensures DoAll(env, Chain(Annotate(t, false)), s).Some?
    ensures var xs := EvalArgs(env, es, s.mem);
      LandsAll(s, DoAll(env, Chain(Annotate(t, false)), s).value, xs.vs, xs.m)
  {
    hide DoAll, Annotate, Chain, LandsAll, LeaveAll, EvalArgs, FairArgs;
    CodeOfArgs(env, es, t, s);
    CleanIff(env, es, s);
    ArgsLand(env, es, s);
  }

  // ----- where nothing is read wider than it is -----

  lemma {:induction false} FineCell(env: Env, e: Expr, c: Cell, m: Memory)
    requires Fine(e) && Eval(env, e, m).Value?
    ensures Low(Width(e), CellOf(env, e, false, c, m)) == Eval(env, e, m).v
  {
    hide Low;
    FineIsFair(e);
    if e.AddrOf? {
      WholeLow(Eval(env, e, m).v);
      if e.obj.Deref? {
        FineCell(env, e.obj.ptr, c, m);
        WholeLow(CellOf(env, e.obj.ptr, false, c, m));
      }
    } else {
      CellShows(env, e, c, m);
    }
  }

  lemma FineReads(env: Env, dt: Dt, e: Expr, s: State)
    requires Fine(e) && Size(dt) <= Size(Width(e))
    ensures ReadsCell(env, dt, e, s)
  {
    hide CellOf, Eval, Low;
    if Eval(env, e, s.mem).Value? {
      FineCell(env, e, Start(s), s.mem);
      LowLow(dt, Width(e), CellOf(env, e, false, Start(s), s.mem));
    }
  }

  /** A fine expression is clean whatever the stack holds. */
  lemma {:induction false} FineIsClean(env: Env, e: Expr, place: bool, s: State)
    requires if place then FinePlace(e) else Fine(e)
    ensures (if place then FairPlace(e) else Fair(e)) && Clean(env, e, place, s)
    decreases e
  {
    hide Leave, ReadsCell, Fair;
    FineIsFair(e);
    match e
    case Binary(_, l, r) =>
      FineIsClean(env, l, false, s);
      if Leave(env, l, false, s).Some? {
        FineIsClean(env, r, false, Leave(env, l, false, s).value);
        FineReads(env, Type(l), r, Leave(env, l, false, s).value);
      }
    case Compl(x) => FineIsClean(env, x, false, s);
    case Apply(callee, args) =>
      FineIsClean(env, callee, false, s);
      FineReads(env, Dword, callee, s);
      if Leave(env, callee, false, s).Some? {
        FineAreClean(env, args, Leave(env, callee, false, s).value);
      }
    case Assign(p, val) =>
      FineIsClean(env, p, true, s);
      if Leave(env, p, true, s).Some? {
        FineIsClean(env, val, false, Leave(env, p, true, s).value);
        FineReads(env, Type(p), val, Leave(env, p, true, s).value);
      }
    case Deref(ptr) => FineIsClean(env, ptr, false, s); FineReads(env, Dword, ptr, s);
    case AddrOf(obj) => FineIsClean(env, obj, true, s);
    case _ =>
  }

  lemma {:induction false} FineAreClean(env: Env, es: Exprs, s: State)
    requires FineArgs(es)
    ensures CleanArgs(env, es, s)
    decreases es
  {
    hide Leave, ReadsCell;
    if es.More? {
      FineIsClean(env, es.head, false, s);
      FineReads(env, Dword, es.head, s);
      if Leave(env, es.head, false, s).Some? {
        FineAreClean(env, es.tail, Leave(env, es.head, false, s).value);
      }
    }
  }

  // ----- lists of statements -----

  predicate FairList(es: Exprs) {
    es.Done? || (Fair(es.head) && FairList(es.tail))
  }

  /** Each statement is clean on the stack that those before it leave. */
  ghost predicate CleanList(env: Env, es: Exprs, s: State)
    decreases es
  {
    es.More? ==>
      && Clean(env, es.head, false, s)
      && var s1 := Leave(env, es.head, false, s);
        s1.Some? ==> CleanList(env, es.tail, s1.value.(sp := s.sp))
  }

  lemma {:induction false} FineListIsClean(env: Env, es: Exprs, s: State)
    requires FineList(es)
    ensures FairList(es) && CleanList(env, es, s)
    decreases es
  {
    hide Leave;
    if es.More? {
      FineIsClean(env, es.head, false, s);
      if Leave(env, es.head, false, s).Some? {
        FineListIsClean(env, es.tail, Leave(env, es.head, false, s).value.(sp := s.sp));
      } else {
        FineListIsClean(env, es.tail, s);
      }
    }
  }

  lemma DoPopOne(env: Env, s: State, s1: State, c: Cell, m: Memory)
    requires Lands(s, s1, c, m)
    ensures Do(env, Pop, s1) == Some(s1.(sp := s.sp)) && Room(s1.(sp := s.sp)) && s1.mem == m
    ensures s1.(sp := s.sp).stack[..s.sp] == s.stack[..s.sp]
  {
  }

  lemma GivesFrom(env: Env, code: seq<Instr>, s: State, s2: State, code2: seq<Instr>, w: Dt, r: Result)
    requires r.Value? && Gives(env, code2, s2, w, r) && DoAll(env, code, s) == DoAll(env, code2, s2)
    requires Room(s) && s2.sp == s.sp && Room(s2) && s2.stack[..s.sp] == s.stack[..s.sp]
    ensures Gives(env, code, s, w, r)
  {
    hide DoAll, Low;
    var s' := DoAll(env, code, s).value;
    assert s'.stack[..s.sp] == s2.stack[..s.sp];
  }

  /** A list of clean statements leaves the value of the last one, in the memory all of them make. */
  lemma {:induction false} CompiledList(env: Env, es: Exprs, t: Tree, s: State)
    requires es.More? && BuildsAll(es, t) && FairList(es) && CleanList(env, es, s)
    requires Room(s) && s.sp + DepthList(es) <= STACK_MAX
    ensures Gives(env, Statements(Annotate(t, false)), s, Width(Last(es)), EvalList(env, es, s.mem))
    decreases es
  {
    hide Do, DoAll, Lands, Gives, Annotate, Code, Builds, Eval, Fair, CellOf, Clean;
    var t' := Annotate(t, false);
    AnnotatedNode(t, false);
    AnnotatedNil(false);
    Compiled(env, es.head, t, false, s);
    CodeLeaves(env, es.head, t, false, s);
    var x := Eval(env, es.head, s.mem);
    NoResult(env, Statements(t'), s, Width(Last(es)));
    if es.tail.More? && x.Value? {
      var s1 := DoAll(env, Code(t'), s).value;
      DoPopOne(env, s, s1, CellOf(env, es.head, false, Start(s), s.mem), x.m);
      var s2 := s1.(sp := s.sp);
      CompiledList(env, es.tail, t.sibling, s2);
      DoThen(env, Code(t'), Pop, s);
      DoAppend(env, Code(t') + [Pop], Statements(t'.sibling), s);
      var y := EvalList(env, es.tail, x.m);
      if y.Value? {
        GivesFrom(env, Statements(t'), s, s2, Statements(t'.sibling), Width(Last(es)), y);
      }
    }
  }

  lemma NoResult(env: Env, code: seq<Instr>, s: State, w: Dt)
    ensures Gives(env, code, s, w, Undefined)
  {
  }

  /** The text segment holds the code and zeros behind it. */
  ghost predicate Loaded(text: seq<Octet>, code: seq<Octet>) {
    |text| == TEXT_MAX && CodeAt(text, 0, code) && (forall k :: |code| <= k < TEXT_MAX ==> text[k] == 0)
  }

  /**
   Compiler correctness, down to the bytes: the machine runs through the text segment, no
   operation is undefined, the memory is the one that evaluation leaves, the stack holds
   one cell, and the value of the last statement is in the bottom of the stack.
   */
  lemma {:induction false} RunsAsEvaluated(env: Env, es: Exprs, t: Tree, text: seq<Octet>, s: State)
    requires es.More? && BuildsAll(es, t) && FairList(es) && CleanList(env, es, s) && DepthList(es) <= STACK_MAX
    requires Room(s) && s.sp == 0 && Loaded(text, EncodeAll(Statements(Annotate(t, false))))
    requires EvalList(env, es, s.mem).Value?
    ensures var r := Exec(env, text, 0, TEXT_MAX, s);
      && r.Some? && r.value.sp == 1 && |r.value.stack| == STACK_MAX
      && Low(Width(Last(es)), r.value.stack[0]) == EvalList(env, es, s.mem).v
      && r.value.mem == EvalList(env, es, s.mem).m
  {
    hide Do, Fetch, Annotate, Statements, EvalList, EncodeAll, DoAll, Builds, FairList, CleanList;
    CompiledList(env, es, t, s);
    var code := Statements(Annotate(t, false));
    ExecEncoded(env, text, 0, TEXT_MAX, code, s);
    ExecZeros(env, text, |EncodeAll(code)|, TEXT_MAX, DoAll(env, code, s).value);
  }

  // ----- where the compiler does not meet the language -----

  /** How many cells an instruction adds. */
  function Growth(i: Instr): int {
    match i
    case Noop => 0
    case Bin(_, _) => -1
    case Not(_) => 0
    case Ld(_, _) => 1
    case LdVal(_, _) => 1
    case St(_) => -1
    case Pop => -1
    case Call(n) => -(n as int)
    case LdStk(_) => 0
  }

  lemma DoGrowth(env: Env, i: Instr, s: State)
    requires Do(env, i, s).Some?
    ensures Do(env, i, s).value.sp == s.sp + Growth(i)
  {
  }

  function TotalGrowth(code: seq<Instr>): int {
    if code == [] then 0 else Growth(code[0]) + TotalGrowth(code[1..])
  }

  lemma {:induction false} GrowthAppend(a: seq<Instr>, b: seq<Instr>)
    ensures TotalGrowth(a + b) == TotalGrowth(a) + TotalGrowth(b)
  {
    if a == [] {
      assert a + b == b;
    } else {
      GrowthAppend(a[1..], b);
      assert (a + b)[1..] == a[1..] + b;
    }
  }

  lemma {:induction false} DoAllGrowth(env: Env, code: seq<Instr>, s: State)
    requires DoAll(env, code, s).Some?
    ensures DoAll(env, code, s).value.sp == s.sp + TotalGrowth(code)
  {
    hide Do;
    if code != [] {
      DoGrowth(env, code[0], s);
      DoAllGrowth(env, code[1..], Do(env, code[0], s).value);
    }
  }

  /** Every variable can be accessed, and the number of every call's arguments fits its byte. */
  predicate Accessible(e: Expr) {
    match e
    case Var(ty, _, _) => CodeDt(ty) != Void
    case Binary(_, l, r) => Accessible(l) && Accessible(r)
    case Compl(e) => Accessible(e)
    case Apply(callee, args) => Accessible(callee) && AccessibleAll(args) && Count(args) < 0x100
    case Assign(place, val) => Accessible(place) && Accessible(val)
    case Step(_, _, target) => Accessible(target)
    case Deref(ptr) => Accessible(ptr)
    case AddrOf(obj) => Accessible(obj)
    case _ => true
  }

  predicate AccessibleAll(es: Exprs) {
    es.Done? || (Accessible(es.head) && AccessibleAll(es.tail))
  }

  /**
   An instruction is emitted for every operator of two operands: the first operand has a
   type, and the left side of an assignment is a variable or a dereference.
   */
  predicate Emitted(e: Expr) {
    match e
    case Binary(_, l, r) => Emitted(l) && Emitted(r) && Type(l) != Void
    case Compl(e) => Emitted(e)
    case Apply(callee, args) => Emitted(callee) && EmittedAll(args)
    case Assign(place, val) => Emitted(place) && Emitted(val) && (place.Var? || place.Deref?) && Type(place) != Void
    case Step(_, _, target) => Emitted(target)
    case Deref(ptr) => Emitted(ptr)
    case AddrOf(obj) => Emitted(obj)
    case _ => true
  }

  predicate EmittedAll(es: Exprs) {
    es.Done? || (Emitted(es.head) && EmittedAll(es.tail))
  }

  function Grown(t: Tree): int
    requires t.Node?
  {
    TotalGrowth(Code(t))
  }

  lemma GrownOfOne(t: Tree)
    requires t.Node? && t.child.Node? && t.child.sibling.Nil?
    ensures Grown(t) == Grown(t.child) + TotalGrowth(Own(t))
  {
    hide Own, TotalGrowth, Code;
    CodeOfOne(t);
    GrowthAppend(Code(t.child), Own(t));
  }

  lemma GrownOfTwo(t: Tree)
    requires t.Node? && t.child.Node? && t.child.sibling.Node? && t.child.sibling.sibling.Nil?
    ensures Grown(t) == Grown(t.child) + Grown(t.child.sibling) + TotalGrowth(Own(t))
  {
    hide Own, TotalGrowth, Code;
    CodeOfTwo(t);
    GrowthAppend(Code(t.child) + Code(t.child.sibling), Own(t));
    GrowthAppend(Code(t.child), Code(t.child.sibling));
  }

  lemma GrowthOfOne(i: Instr)
    ensures TotalGrowth([i]) == Growth(i)
  {
  }

  /** What a node adds besides its children, when it is no leaf and no call. */
  lemma OwnGrowth(t: Tree)
    requires t.Node? && t.info.kind != NId && t.info.kind != NFunc && t.info.kind != NSysNull
    requires !(t.info.kind in {NChar, NInt, NLong, NString, NNull})
    ensures TotalGrowth(Own(t)) == -(
      if t.info.kind.NBinary? then if t.dt == Void then 0 else 1
      else if t.info.kind == NAssign && t.child.Node? && t.child.dt != Void
              && (t.child.info.kind == NId || t.child.info.kind == NGetValue) then 1
      else 0)
  {
    hide Growth;
    var dt := if t.info.kind == NAssign && t.child.Node? then t.child.dt else t.dt;
    GrowthOfOne(Not(dt));
    GrowthOfOne(LdStk(dt));
    GrowthOfOne(LdStk(Dword));
    GrowthOfOne(Pop);
    GrowthOfOne(Ld(Dword, ChildCell(t)));
    if t.info.kind.NBinary? {
      GrowthOfOne(Bin(t.info.kind.op, dt));
      BinGrowth(t.info.kind.op, dt);
    }
    GrowthOfOne(St(dt));
    GrowthAppend([St(dt)], [LdStk(dt)]);
    assert [St(dt)] + [LdStk(dt)] == [St(dt), LdStk(dt)];
    BumpGrowth(dt, ChildCell(t), false);
    BumpGrowth(dt, ChildCell(t), true);
    GrowthAppend(Bump(dt, ChildCell(t), false), [LdStk(Dword)]);
    GrowthAppend(Bump(dt, ChildCell(t), true), [LdStk(Dword)]);
    GrowthAppend([Ld(Dword, ChildCell(t))] + Bump(dt, ChildCell(t), false), [Pop]);
    GrowthAppend([Ld(Dword, ChildCell(t))] + Bump(dt, ChildCell(t), true), [Pop]);
    GrowthAppend([Ld(Dword, ChildCell(t))], Bump(dt, ChildCell(t), false));
    GrowthAppend([Ld(Dword, ChildCell(t))], Bump(dt, ChildCell(t), true));
    SomeGrowth(dt, ChildCell(t));
  }

  lemma BinGrowth(op: BinOp, dt: Dt)
    ensures Growth(Bin(op, dt)) == -1
  {
  }

  lemma SomeGrowth(dt: Dt, a: Cell)
    ensures Growth(Not(dt)) == 0 && Growth(LdStk(dt)) == 0 && Growth(LdStk(Dword)) == 0 && Growth(Pop) == -1
    ensures Growth(St(dt)) == -1 && Growth(Ld(Dword, a)) == 1
  {
  }

  lemma BumpGrowth(dt: Dt, a: Cell, down: bool)
    ensures TotalGrowth(Bump(dt, a, down)) == 0
  {
    hide TotalGrowth;
    var op := if down then Sub else Add;
    GrowthOfOne(LdVal(dt, a));
    GrowthOfOne(Ld(dt, 1));
    GrowthOfOne(Bin(op, dt));
    GrowthOfOne(St(dt));
    GrowthAppend([LdVal(dt, a)], [Ld(dt, 1)]);
    GrowthAppend([LdVal(dt, a)] + [Ld(dt, 1)], [Bin(op, dt)]);
    GrowthAppend([LdVal(dt, a)] + [Ld(dt, 1)] + [Bin(op, dt)], [St(dt)]);
    assert Bump(dt, a, down) == [LdVal(dt, a)] + [Ld(dt, 1)] + [Bin(op, dt)] + [St(dt)];
  }

  lemma GrownLeaf(e: Expr, t: Tree, isAddr: bool)
    requires (e.Var? || e.Char? || e.Num? || e.Fun?) && Builds(e, t) && Accessible(e)
    ensures t.Node? && Grown(Annotate(t, isAddr)) == 1
  {
    hide Growth, Code, Annotate;
    BuildsNode(e, t);
    AnnotatedNode(t, isAddr);
    AnnotatedNil(ChildMode(t.info.kind, isAddr));
    var t' := Annotate(t, isAddr);
    CodeOfLeaf(t');
    var i := Own(t')[0];
    assert Own(t') == [i];
    GrowthOfOne(i);
    LoadGrowth(i);
  }

  lemma LoadGrowth(i: Instr)
    requires i.Ld? || i.LdVal?
    ensures Growth(i) == 1
  {
  }

  /**
   The code of a tree, run anywhere, pushes at least one cell, and just one if and only if
   an instruction was emitted for each of its operators of two operands.
   */
  lemma {:induction false} OneCellIff(e: Expr, t: Tree, isAddr: bool)
    requires Builds(e, t) && Accessible(e)
    ensures t.Node? && Grown(Annotate(t, isAddr)) >= 1
    ensures Grown(Annotate(t, isAddr)) == 1 <==> Emitted(e)
    decreases e
  {
    hide Grown, Own, Annotate, TotalGrowth;
    BuildsNode(e, t);
    AnnotatedNode(t, isAddr);
    AnnotatedNil(false);
    var t' := Annotate(t, isAddr);
    var mode := ChildMode(t.info.kind, isAddr);
    AnnotatedType(e, t, isAddr);
    match e
    case Binary(_, l, r) =>
      OneCellIff(l, t.child, mode);
      OneCellIff(r, t.child.sibling, false);
      AnnotatedNode(t.child, mode);
      AnnotatedNode(t.child.sibling, false);
      GrownOfTwo(t');
      OwnGrowth(t');
    case Assign(place, val) =>
      OneCellIff(place, t.child, mode);
      OneCellIff(val, t.child.sibling, false);
      AnnotatedNode(t.child, mode);
      AnnotatedType(place, t.child, mode);
      AnnotatedNode(t.child.sibling, false);
      GrownOfTwo(t');
      OwnGrowth(t');
      AssignKind(place, t.child);
    case Apply(callee, args) =>
      OneCellIff(callee, t.child, mode);
      EachCellIff(args, t.child.sibling);
      AnnotatedNode(t.child, mode);
      LengthBuilt(args, t.child.sibling);
      GrownCall(t', Count(args));
    case Compl(e) => OneCellIff(e, t.child, mode); GrownUnary(t, isAddr);
    case Step(_, _, target) => OneCellIff(target, t.child, mode); GrownUnary(t, isAddr);
    case Deref(ptr) => OneCellIff(ptr, t.child, mode); GrownUnary(t, isAddr);
    case AddrOf(obj) => OneCellIff(obj, t.child, mode); GrownUnary(t, isAddr);
    case _ => GrownLeaf(e, t, isAddr);
  }

  lemma AssignKind(place: Expr, c: Tree)
    requires Builds(place, c)
    ensures c.Node? && (Type(place) != Void ==>
      (c.info.kind == NId || c.info.kind == NGetValue <==> place.Var? || place.Deref?))
  {
  }

  lemma GrownUnary(t: Tree, isAddr: bool)
    requires t.Node? && t.child.Node? && t.child.sibling.Nil?
    requires t.info.kind in {NBitwise, NPreInc, NPreDec, NInc, NDec, NGetValue, NGetAddr}
    ensures Grown(Annotate(t, isAddr)) == Grown(Annotate(t.child, ChildMode(t.info.kind, isAddr)))
  {
    hide Grown, Own, Annotate, TotalGrowth;
    AnnotatedNode(t, isAddr);
    AnnotatedNode(t.child, ChildMode(t.info.kind, isAddr));
    AnnotatedNil(false);
    GrownOfOne(Annotate(t, isAddr));
    OwnGrowth(Annotate(t, isAddr));
  }

  lemma GrownCall(t: Tree, n: nat)
    requires t.Node? && t.info.kind == NFunc && t.child.Node? && Length(t.child.sibling) == n < 0x100
    ensures Grown(t) == Grown(t.child) + TotalGrowth(Chain(t.child.sibling)) - n
  {
    hide TotalGrowth, Growth;
    assert Own(t) == [Call(n)];
    assert Code(t) == Chain(t.child) + Own(t);
    ChainOfMore(t.child);
    GrowthAppend(Code(t.child) + Chain(t.child.sibling), [Call(n)]);
    GrowthAppend(Code(t.child), Chain(t.child.sibling));
    GrowthOfOne(Call(n));
    CallGrowth(n);
  }

  lemma CallGrowth(n: Octet)
    ensures Growth(Call(n)) == -(n as int)
  {
  }

  lemma {:induction false} EachCellIff(es: Exprs, t: Tree)
    requires BuildsAll(es, t) && AccessibleAll(es)
    ensures TotalGrowth(Chain(Annotate(t, false))) >= Count(es)
    ensures TotalGrowth(Chain(Annotate(t, false))) == Count(es) <==> EmittedAll(es)
    decreases es
  {
    if es.More? {
      hide Annotate, TotalGrowth, Code;
      OneCellIff(es.head, t, false);
      EachCellIff(es.tail, t.sibling);
      AnnotatedNode(t, false);
      var t' := Annotate(t, false);
      ChainOfMore(t');
      GrowthAppend(Code(t'), Chain(t'.sibling));
    }
  }

  /** A call as the first operand: no instruction is emitted, and a second cell stays. */
  lemma CallFirstLeavesTwo(op: BinOp, f: Cell, args: Exprs, r: Expr, t: Tree)
    requires Builds(Binary(op, Apply(Fun(f), args), r), t) && Accessible(Binary(op, Apply(Fun(f), args), r))
    ensures t.Node? && Grown(Annotate(t, false)) >= 2
  {
    hide Grown, Annotate;
    assert Type(Apply(Fun(f), args)) == Type(Fun(f)) == Void;
    OneCellIff(Binary(op, Apply(Fun(f), args), r), t, false);
  }

  /** A variable of type void* is checked like other pointers, but its code is empty. */
  lemma VoidPointerHasNoCode(a: Cell, user: bool, t: Tree, isAddr: bool)
    requires Builds(Var(TVoidP, a, user), t)
    ensures t.Node? && Annotate(t, isAddr).dt == Dword && Code(Annotate(t, isAddr)) == []
  {
    CodeOfLeaf(Annotate(t, isAddr));
  }
}
