/**
 Where components/finsh/finsh_compiler.c accepts an expression and its code does not do what
 the expression says: for each such place the exact condition, as it can be read off the
 expression or the stack before the code runs.
 */
module FinshLimits {
  import opened FinshOps
  import opened FinshVm
  import opened FinshLang
  import opened FinshTree
  import opened FinshCells
  import opened FinshCorrect

  /**
   The node of the expression emits nothing of its own: the type it works at is void, the
   left side of an assignment or the target of ++ or -- is not of the right kind, or only an
   address is wanted.
   */
  predicate Silent(e: Expr, isAddr: bool) {
    match e
    case Var(ty, _, _) => CodeDt(ty) == Void
    case Binary(_, l, _) => Type(l) == Void
    case Compl(x) => Type(x) == Void
    case Assign(place, _) => !(place.Var? || place.Deref?) || Type(place) == Void
    case Step(_, _, target) => !target.Var? || Type(target) == Void
    case Deref(ptr) => isAddr || Type(ptr) == Void
    case AddrOf(_) => true
    case _ => false
  }

  lemma SilentIff(e: Expr, t: Tree, isAddr: bool)
    requires Builds(e, t)
    ensures t.Node? && (Own(Annotate(t, isAddr)) == [] <==> Silent(e, isAddr))
  {
    hide Annotate, Builds, Own;
    BuildsNode(e, t);
    AnnotatedNode(t, isAddr);
    AnnotatedType(e, t, isAddr);
    AnnotatedNil(ChildMode(t.info.kind, isAddr));
    BuildsPart(e, t);
    var t' := Annotate(t, isAddr);
    if e.Assign? {
      AnnotatedType(e.place, t.child, true);
      AnnotatedNode(t.child, true);
      AssignKind(e.place, t.child);
      SilentAssign(t');
    } else if e.Step? {
      AnnotatedNode(t.child, ChildMode(t.info.kind, isAddr));
      TargetKind(e.target, t.child);
      SilentStep(t');
    } else {
      SilentNode(t');
    }
  }

  lemma SilentAssign(t: Tree)
    requires t.Node? && t.info.kind == NAssign && t.child.Node?
    ensures Own(t) == [] <==> !(t.child.info.kind == NId || t.child.info.kind == NGetValue) || t.child.dt == Void
  {
  }

  lemma SilentStep(t: Tree)
    requires t.Node? && t.info.kind in {NPreInc, NPreDec, NInc, NDec} && t.child.Node?
    ensures Own(t) == [] <==> t.child.info.kind != NId || t.dt == Void
  {
  }

  lemma SilentNode(t: Tree)
    requires t.Node? && t.info.kind !in {NAssign, NPreInc, NPreDec, NInc, NDec, NOther}
    ensures t.info.kind == NId ==> (Own(t) == [] <==> t.info.cls != IsSyscall && CodeDt(t.info.ty) == Void)
    ensures t.info.kind.NBinary? || t.info.kind == NBitwise ==> (Own(t) == [] <==> t.dt == Void)
    ensures t.info.kind == NGetValue ==> (Own(t) == [] <==> t.addr || t.dt == Void)
    ensures t.info.kind == NGetAddr ==> Own(t) == []
    ensures t.info.kind == NFunc ==> (Own(t) == [] <==> t.child.Nil?)
    ensures t.info.kind in {NChar, NInt, NLong, NString, NNull} ==> Own(t) != []
  {
  }

  /** What the tree of an expression is made of. */
  lemma BuildsPart(e: Expr, t: Tree)
    requires Builds(e, t)
    ensures t.Node? && !t.addr
    ensures e.Var? ==> t.info.kind == NId && t.info.cls != IsSyscall && t.info.ty == e.ty && t.child.Nil?
    ensures e.Binary? ==> t.info.kind == NBinary(e.op) && t.info.cls == NoId
    ensures e.Compl? ==> t.info.kind == NBitwise && Builds(e.e, t.child) && t.child.Node? && t.child.sibling.Nil?
    ensures e.Deref? ==> t.info.kind == NGetValue && t.info.cls == NoId && Builds(e.ptr, t.child)
    ensures e.Deref? ==> t.child.Node? && t.child.sibling.Nil?
    ensures e.Step? ==> t.info.kind in {NPreInc, NPreDec, NInc, NDec} && Builds(e.target, t.child)
    ensures e.Step? ==> t.child.Node? && t.child.sibling.Nil? && (t.info.kind in {NPreInc, NPreDec} <==> e.pre)
    ensures e.Assign? ==> t.info.kind == NAssign && Builds(e.place, t.child) && t.child.Node?
    ensures e.AddrOf? ==> t.info.kind == NGetAddr
    ensures e.Apply? ==> t.info.kind == NFunc && Builds(e.callee, t.child) && t.child.Node?
    ensures e.Char? ==> t.info.kind == NChar
    ensures e.Num? ==> t.info.kind in {NInt, NLong, NString, NNull}
    ensures e.Fun? ==> t.info.kind == NId && t.info.cls == IsSyscall
  {
    if e.Compl? { BuildsNode(e.e, t.child); }
    if e.Deref? { BuildsNode(e.ptr, t.child); }
    if e.Step? { BuildsNode(e.target, t.child); }
    if e.Assign? { BuildsNode(e.place, t.child); }
    if e.Apply? { BuildsNode(e.callee, t.child); }
  }

  lemma TargetKind(target: Expr, c: Tree)
    requires Builds(target, c)
    ensures c.Node? && (Type(target) != Void ==> (c.info.kind == NId <==> target.Var?))
  {
    BuildsNode(target, c);
  }

  // ----- ~ and * on an operand without a type -----

  /** The width at which ~e and *e are meant: the operand's type, or without one its value. */
  function Meant(e: Expr): Dt {
    if Type(e) == Void then Width(e) else Type(e)
  }

  lemma NoTypeIsWhole(e: Expr)
    requires Fair(e) && Type(e) == Void
    ensures Width(e) == Dword
  {
  }

  /** A node over one operand that is silent has the operand's code. */
  lemma CodeOfOperand(e: Expr, t: Tree)
    requires (e.Compl? || e.Deref?) && Builds(e, t) && Silent(e, false)
    ensures t.Node? && t.child.Node? && Code(Annotate(t, false)) == Code(Annotate(t.child, false))
  {
    hide Annotate, Code, Own, Builds;
    BuildsPart(e, t);
    AnnotatedNode(t, false);
    AnnotatedNode(t.child, false);
    AnnotatedNil(false);
    CodeOfOne(Annotate(t, false));
    SilentIff(e, t, false);
    assert Code(Annotate(t.child, false)) + [] == Code(Annotate(t.child, false));
  }

  /**
   ~e for a clean operand: one cell is pushed and the memory is as the operand leaves it. The
   cell holds the complement if and only if the operand has a type; else it holds the operand.
   */
  lemma ComplementIff(env: Env, e: Expr, t: Tree, s: State)
    requires Builds(Compl(e), t) && Fair(e) && Clean(env, e, false, s)
    requires Room(s) && s.sp + Depth(e) <= STACK_MAX && Eval(env, e, s.mem).Value?
    ensures t.Node? && DoAll(env, Code(Annotate(t, false)), s).Some?
    ensures var s', v := DoAll(env, Code(Annotate(t, false)), s).value, Eval(env, e, s.mem).v;
      && Room(s') && s'.sp == s.sp + 1 && s'.mem == Eval(env, e, s.mem).m && s'.stack[..s.sp] == s.stack[..s.sp]
      && (Low(Meant(e), s'.stack[s.sp]) == Complement(Meant(e), Low(Meant(e), v)) <==> Type(e) != Void)
      && (Type(e) == Void ==> s'.stack[s.sp] == v)
  {
    hide Annotate, Code, DoAll, Builds, Own, CellOf, Leave;
    BuildsPart(Compl(e), t);
    if Type(e) == Void {
      NoTypeIsWhole(e);
      CodeOfOperand(Compl(e), t);
      Compiled(env, e, t.child, false, s);
      NoOwnComplement(Eval(env, e, s.mem).v);
    } else {
      assert Fair(Compl(e)) && Clean(env, Compl(e), false, s);
      Compiled(env, Compl(e), t, false, s);
    }
  }

  lemma NoOwnComplement(v: Cell)
    ensures Low(Dword, v) == v && Complement(Dword, v) != v
  {
    assert (Complement(Dword, v) + v) % 2 == 1;
  }

  /** A call without arguments is a clean expression without a type. */
  lemma PlainCall(env: Env, f: Cell, m: Memory)
    ensures var e := Apply(Fun(f), Done);
      && Fine(e) && Fair(e) && Depth(e) == 1 && Type(e) == Void && Meant(e) == Dword
      && Accessible(Compl(e)) && Emitted(Compl(e))
      && Eval(env, e, m) == Value(env.sys(f, [], m).0, env.sys(f, [], m).1)
  {
    var e := Apply(Fun(f), Done);
    assert Count(Done) == 0 && Fine(Fun(f)) && Depth(Fun(f)) == 1 && DepthArgs(Done) == 0 && Width(Fun(f)) == Dword;
    assert Accessible(Fun(f)) && AccessibleAll(Done) && Emitted(Fun(f)) && EmittedAll(Done) && FineArgs(Done);
    assert Eval(env, Fun(f), m) == Value(f, m) && EvalArgs(env, Done, m) == All([], m);
    assert Accessible(e) && Emitted(e);
  }

  /** The complement of what a system call returns: the line answers what it returned. */
  lemma ComplementOfCall(env: Env, f: Cell, t: Tree, s: State)
    requires Builds(Compl(Apply(Fun(f), Done)), t) && Room(s) && s.sp < STACK_MAX
    ensures t.Node? && t.child.Node? && Code(Annotate(t, false)) == Code(Annotate(t.child, false))
    ensures Grown(Annotate(t, false)) == 1
    ensures DoAll(env, Code(Annotate(t, false)), s).Some?
    ensures var s' := DoAll(env, Code(Annotate(t, false)), s).value;
      Room(s') && s'.sp == s.sp + 1
        && s'.stack[s.sp] == env.sys(f, [], s.mem).0 != Complement(Dword, env.sys(f, [], s.mem).0)
  {
    hide Annotate, Code, DoAll, Builds, Own, Grown;
    var e := Apply(Fun(f), Done);
    PlainCall(env, f, s.mem);
    CodeOfOperand(Compl(e), t);
    FineIsClean(env, e, false, s);
    ComplementIff(env, e, t, s);
    OneCellIff(Compl(e), t, false);
    NoOwnComplement(env.sys(f, [], s.mem).0);
  }

  /**
   *e for a clean pointer that fills its cell: one cell is pushed. It holds what the pointer
   points to if and only if the pointer has a type, or what it points to happens to be its own
   value, which is what the cell holds else.
   */
  lemma DereferenceIff(env: Env, e: Expr, t: Tree, s: State)
    requires Builds(Deref(e), t) && Fair(e) && Clean(env, Deref(e), false, s)
    requires Room(s) && s.sp + Depth(e) <= STACK_MAX
    requires Eval(env, e, s.mem).Value? && Mapped(Eval(env, e, s.mem).m, Eval(env, e, s.mem).v, Size(Meant(e)))
    ensures t.Node? && DoAll(env, Code(Annotate(t, false)), s).Some?
    ensures var s', p := DoAll(env, Code(Annotate(t, false)), s).value, Eval(env, e, s.mem);
      && Room(s') && s'.sp == s.sp + 1 && s'.mem == p.m && s'.stack[..s.sp] == s.stack[..s.sp]
      && (Low(Meant(e), s'.stack[s.sp]) == Load(p.m, p.v, Meant(e)) <==>
        Type(e) != Void || Load(p.m, p.v, Dword) == p.v)
      && (Type(e) == Void ==> s'.stack[s.sp] == p.v)
  {
    hide Annotate, Code, DoAll, Builds, Own, Load, CellOf, Leave;
    BuildsPart(Deref(e), t);
    if Type(e) == Void {
      NoTypeIsWhole(e);
      CodeOfOperand(Deref(e), t);
      Compiled(env, e, t.child, false, s);
      NoOwnComplement(Eval(env, e, s.mem).v);
    } else {
      assert Fair(Deref(e));
      Compiled(env, Deref(e), t, false, s);
    }
  }

  // ----- ++ and -- of something else than a variable -----

  /** The memory with the target stepped. */
  function Stepped(env: Env, down: bool, dt: Dt, p: Result): Memory
    requires p.Value? && dt != Void && Mapped(p.m, p.v, Size(dt))
  {
    SumDefined(env, if down then Sub else Add, dt, Load(p.m, p.v, dt));
    Store(p.m, p.v, dt, Alu(env, if down then Sub else Add, dt, Load(p.m, p.v, dt), 1).value)
  }

  /**
   ++ and --, before or behind a variable of the user's or a dereference: the code changes
   the target if and only if it is a variable. Of a dereference it leaves everything as it is.
   */
  lemma StepIff(env: Env, pre: bool, down: bool, target: Expr, t: Tree, s: State)
    requires Builds(Step(pre, down, target), t) && FairPlace(target) && Type(target) != Void
    requires Clean(env, target, true, s)
    requires target.Var? ==> target.user
    requires Room(s) && s.sp + Max(Depth(target), 4) <= STACK_MAX
    requires Place(env, target, s.mem).Value? && Mapped(Place(env, target, s.mem).m, Place(env, target, s.mem).v, 4)
    ensures t.Node? && DoAll(env, Code(Annotate(t, false)), s).Some?
    ensures var m', p := DoAll(env, Code(Annotate(t, false)), s).value.mem, Place(env, target, s.mem);
      && (m' == Stepped(env, down, Type(target), p) <==> target.Var?)
      && (target.Deref? ==> m' == p.m)
  {
    hide Annotate, Code, DoAll, Builds, Own, Load, Store, Alu, CellOf, Leave;
    var e := Step(pre, down, target);
    BuildsPart(e, t);
    if target.Var? {
      StepClean(env, e, s);
      assert Fair(e);
      Compiled(env, e, t, false, s);
    } else {
      CodeOfTarget(e, t);
      CleanAnyway(env, target, pre, s);
      Compiled(env, target, t.child, pre, s);
      SteppedDiffers(env, down, Type(target), Place(env, target, s.mem));
    }
  }

  lemma StepClean(env: Env, e: Expr, s: State)
    requires e.Step?
    ensures Clean(env, e, false, s)
  {
  }

  /** A dereference is as clean as its address. */
  lemma CleanAnyway(env: Env, e: Expr, place: bool, s: State)
    requires e.Deref? && FairPlace(e) && Type(e) != Void && Clean(env, e, true, s)
    ensures (if place then FairPlace(e) else Fair(e)) && Clean(env, e, place, s)
  {
  }

  lemma CodeOfTarget(e: Expr, t: Tree)
    requires e.Step? && Builds(e, t) && !e.target.Var?
    ensures t.Node? && t.child.Node? && Code(Annotate(t, false)) == Code(Annotate(t.child, e.pre))
  {
    hide Annotate, Code, Own, Builds;
    BuildsPart(e, t);
    AnnotatedNode(t, false);
    AnnotatedNode(t.child, e.pre);
    AnnotatedNil(false);
    CodeOfOne(Annotate(t, false));
    SilentIff(e, t, false);
    assert Code(Annotate(t.child, e.pre)) + [] == Code(Annotate(t.child, e.pre));
  }

  lemma SteppedDiffers(env: Env, down: bool, dt: Dt, p: Result)
    requires p.Value? && dt != Void && Mapped(p.m, p.v, Size(dt))
    ensures Stepped(env, down, dt, p) != p.m
  {
    hide Load, Store, Alu;
    var x, op := Load(p.m, p.v, dt), if down then Sub else Add;
    SumDefined(env, op, dt, x);
    LoadStore(p.m, p.v, dt, Alu(env, op, dt, x, 1).value);
    StepsAway(env, op, dt, x);
  }

  /** Adding or subtracting 1 gives something else at every width. */
  lemma StepsAway(env: Env, op: BinOp, dt: Dt, x: Cell)
    requires (op == Add || op == Sub) && dt != Void && x < Range(dt)
    ensures Alu(env, op, dt, x, 1).Some? && Alu(env, op, dt, x, 1).value != x
  {
  }

  // ----- cells read wider than their value -----

  /** A cell with the value in its low part is the value if and only if the bytes above are 0. */
  lemma UpperZero(w: Dt, c: Cell, v: Cell)
    requires Low(w, c) == v
    ensures c == v <==> c / Range(w) == 0
  {
    assert c == c / Range(w) * Range(w) + c % Range(w);
  }

  lemma CellUpper(env: Env, e: Expr, s: State)
    requires Fair(e) && Clean(env, e, false, s) && Room(s) && s.sp + Depth(e) <= STACK_MAX
    requires Eval(env, e, s.mem).Value?
    ensures var c, v := CellOf(env, e, false, Start(s), s.mem), Eval(env, e, s.mem).v;
      Low(Width(e), c) == v && (c == v <==> c / Range(Width(e)) == 0)
  {
    hide CellOf, Low, Leave, Clean, Eval, Lands, Fair;
    var c, v := CellOf(env, e, false, Start(s), s.mem), Eval(env, e, s.mem).v;
    if e.AddrOf? {
      LeaveLands(env, e, false, s);
      WholeLow(v);
    } else {
      CellShows(env, e, Start(s), s.mem);
    }
    UpperZero(Width(e), c, v);
  }

  /**
   *e for a typed pointer of any width: the load goes through the pointer's whole cell. It gives
   what the pointer points to if and only if the bytes above the pointer's value are 0, or what
   is at the other address happens to be the same.
   */
  lemma PointerIff(env: Env, e: Expr, t: Tree, s: State)
    requires Builds(Deref(e), t) && Fair(Deref(e)) && Clean(env, e, false, s)
    requires Room(s) && s.sp + Depth(e) <= STACK_MAX
    requires Eval(env, e, s.mem).Value? && Mapped(Eval(env, e, s.mem).m, Eval(env, e, s.mem).v, Size(Type(e)))
    ensures t.Node?
    ensures var r, p := DoAll(env, Code(Annotate(t, false)), s), Eval(env, e, s.mem);
      var dt, c := Type(e), CellOf(env, e, false, s.stack[s.sp], s.mem);
      && (c == p.v <==> c / Range(Width(e)) == 0)
      && (r.Some? <==> Mapped(p.m, c, Size(dt)))
      && (r.Some? ==> Room(r.value) && r.value.sp == s.sp + 1 && r.value.mem == p.m)
      && (r.Some? && Low(dt, r.value.stack[s.sp]) == Load(p.m, p.v, dt) <==>
        c == p.v || (Mapped(p.m, c, Size(dt)) && Load(p.m, c, dt) == Load(p.m, p.v, dt)))
  {
    hide Annotate, Code, DoAll, Builds, Load, CellOf, Do, Low, Clean, Eval;
    CodeLeaves(env, Deref(e), t, false, s);
    var p, dt, c := Eval(env, e, s.mem), Type(e), CellOf(env, e, false, Start(s), s.mem);
    LeaveLands(env, e, false, s);
    CellUpper(env, e, s);
    DoLdStk(env, dt, s, Leave(env, e, false, s).value, c, p.m);
    if Mapped(p.m, c, Size(dt)) {
      FilledShows(dt, c, Load(p.m, c, dt));
    }
  }

  /** *v for a variable v of a user's: the bytes above are those of the cell before the line. */
  lemma StarOfVariable(env: Env, ty: Ty, a: Cell, t: Tree, s: State)
    requires Builds(Deref(Var(ty, a, true)), t) && CodeDt(ty) != Void && Room(s) && s.sp < STACK_MAX
    requires Mapped(s.mem, a, Size(CodeDt(ty))) && Mapped(s.mem, Load(s.mem, a, CodeDt(ty)), Size(CodeDt(ty)))
    ensures t.Node?
    ensures var r, dt, p := DoAll(env, Code(Annotate(t, false)), s), CodeDt(ty), Load(s.mem, a, CodeDt(ty));
      var c := Splice(dt, s.stack[s.sp], p);
      && (c == p <==> s.stack[s.sp] < Range(dt))
      && (r.Some? ==> Room(r.value))
      && (r.Some? && Low(dt, r.value.stack[s.sp]) == Load(s.mem, p, dt) <==>
        c == p || (Mapped(s.mem, c, Size(dt)) && Load(s.mem, c, dt) == Load(s.mem, p, dt)))
  {
    hide Annotate, Code, DoAll, Builds, Load, Splice, Low;
    var e, dt, p := Var(ty, a, true), CodeDt(ty), Load(s.mem, a, CodeDt(ty));
    PointerIff(env, e, t, s);
    FilledIs(dt, s.stack[s.sp], p);
    assert CellOf(env, e, false, s.stack[s.sp], s.mem) == Splice(dt, s.stack[s.sp], p);
    FilledShows(dt, s.stack[s.sp], p);
    NoneAbove(s.stack[s.sp], dt);
  }

  lemma NoneAbove(c: Cell, dt: Dt)
    ensures c / Range(dt) == 0 <==> c < Range(dt)
  {
  }

  // ----- stores -----

  lemma StoreSame(m: Memory, a: nat, dt: Dt)
    requires Mapped(m, a, Size(dt))
    ensures Store(m, a, dt, Load(m, a, dt)) == m
  {
    hide Join2, Join4, ByteOf;
    match dt
    case Void =>
    case Byte => Small(m[a]);
    case Word => BytesOf2(m[a], m[a + 1]);
    case Dword => BytesOf4(m[a], m[a + 1], m[a + 2], m[a + 3]);
  }

  lemma BytesOf2(b0: Octet, b1: Octet)
    ensures ByteOf(Join2(b0, b1), 0) == b0 && ByteOf(Join2(b0, b1), 1) == b1
  {
  }

  lemma BytesOf4(b0: Octet, b1: Octet, b2: Octet, b3: Octet)
    ensures ByteOf(Join4(b0, b1, b2, b3), 0) == b0 && ByteOf(Join4(b0, b1, b2, b3), 1) == b1
    ensures ByteOf(Join4(b0, b1, b2, b3), 2) == b2 && ByteOf(Join4(b0, b1, b2, b3), 3) == b3
  {
    var v := Join4(b0, b1, b2, b3);
    assert v == (b0 as nat) + 0x100 * ((b1 as nat) + 0x100 * ((b2 as nat) + 0x100 * (b3 as nat)));
    assert v / 0x100 == (b1 as nat) + 0x100 * ((b2 as nat) + 0x100 * (b3 as nat));
    assert v / 0x1_0000 == (b2 as nat) + 0x100 * (b3 as nat);
    assert v / 0x100_0000 == b3 as nat;
  }

  lemma LoadFrame(m: Memory, m': Memory, a: nat, dt: Dt)
    requires Mapped(m, a, Size(dt)) && forall x: nat :: a <= x < a + Size(dt) ==> x in m' && m'[x] == m[x]
    ensures Mapped(m', a, Size(dt)) && Load(m', a, dt) == Load(m, a, dt)
  {
  }

  /** Storing at one of two places apart is storing at the other if and only if both hold it already. */
  lemma StoresApart(m: Memory, a: nat, b: nat, dt: Dt, v: Cell)
    requires v < Range(dt) && Mapped(m, a, Size(dt)) && Mapped(m, b, Size(dt)) && a + 4 <= b
    ensures Store(m, a, dt, v) == Store(m, b, dt, v) <==> Load(m, a, dt) == v && Load(m, b, dt) == v
  {
    hide Load, Store;
    LoadStore(m, a, dt, v);
    LoadStore(m, b, dt, v);
    LoadFrame(m, Store(m, a, dt, v), b, dt);
    LoadFrame(m, Store(m, b, dt, v), a, dt);
    StoreSame(m, a, dt);
    StoreSame(m, b, dt);
  }

  /** Another address with the same low part is at least 256 away. */
  lemma FarAway(w: Dt, c: Cell, v: Cell)
    requires w != Void && Low(w, c) == v && c != v
    ensures v + 4 <= c
  {
    assert c == c / Range(w) * Range(w) + v;
    UpperZero(w, c, v);
  }

  /** The two first parts of an assignment through a pointer are clean, but for the pointer's cell. */
  ghost predicate CleanStore(env: Env, e: Expr, val: Expr, s: State) {
    && Clean(env, e, false, s)
    && var s1 := Leave(env, e, false, s);
      s1.Some? ==> Clean(env, val, false, s1.value) && ReadsCell(env, Type(e), val, s1.value)
  }

  /**
   *e = x for a typed pointer of any width: the store goes through the pointer's whole cell. The
   memory is as the assignment makes it if and only if the bytes above the pointer's value are 0,
   or both places hold what is assigned already.
   */
  lemma StoreIff(env: Env, e: Expr, val: Expr, t: Tree, s: State)
    requires Builds(Assign(Deref(e), val), t) && Fair(Assign(Deref(e), val)) && CleanStore(env, e, val, s)
    requires Room(s) && s.sp + Depth(Assign(Deref(e), val)) <= STACK_MAX
    requires Eval(env, Assign(Deref(e), val), s.mem).Value?
    ensures t.Node? && Eval(env, e, s.mem).Value? && Eval(env, val, Eval(env, e, s.mem).m).Value?
    ensures var r, p := DoAll(env, Code(Annotate(t, false)), s), Eval(env, e, s.mem);
      var dt, c, x := Type(e), CellOf(env, e, false, s.stack[s.sp], s.mem), Eval(env, val, p.m);
      var v := Low(dt, x.v);
      && (c == p.v <==> c / Range(Width(e)) == 0)
      && Mapped(x.m, p.v, Size(dt))
      && (r.Some? <==> Mapped(x.m, c, Size(dt)))
      && (r.Some? && r.value.mem == Eval(env, Assign(Deref(e), val), s.mem).m <==>
        c == p.v || (Mapped(x.m, c, Size(dt)) && Load(x.m, c, dt) == v && Load(x.m, p.v, dt) == v))
  {
    hide Annotate, Code, DoAll, Builds, Load, Store, CellOf, Do, Low, Lands, Clean;
    CodeLeaves(env, Assign(Deref(e), val), t, false, s);
    var p, dt, c := Eval(env, e, s.mem), Type(e), CellOf(env, e, false, Start(s), s.mem);
    LeaveLands(env, e, false, s);
    CellUpper(env, e, s);
    var s1 := Leave(env, e, false, s).value;
    LandsRoom(s, s1, c, p.m);
    LeaveLands(env, val, false, s1);
    var x, s2 := Eval(env, val, p.m), Leave(env, val, false, s1).value;
    var d := CellOf(env, val, false, Start(s1), p.m);
    DoSt(env, dt, s, s1, s2, c, d, p.m, x.m);
    if Mapped(x.m, c, Size(dt)) {
      StoreLands(env, dt, s, s1, s2, c, d, x.v, p.m, x.m);
      var v := Low(dt, x.v);
      LandsRoom(s, Then(env, Do(env, St(dt), s2), LdStk(dt)).value, Filled(dt, c, v), Store(x.m, c, dt, v));
      if c != p.v {
        WideType(e);
        FarAway(Width(e), c, p.v);
        StoresApart(x.m, p.v, c, dt, Low(dt, x.v));
      }
    }
  }

  lemma WideType(e: Expr)
    requires Type(e) != Void
    ensures Width(e) != Void
  {
  }

  // ----- operands -----

  /**
   An operation: the second operand is what the operator sees of its cell. The value is right if
   and only if that gives the same as the operand; for + and - if and only if it is the operand.
   */
  lemma OperandIff(env: Env, e: Expr, t: Tree, s: State)
    requires e.Binary? && Builds(e, t) && Fair(e) && Room(s) && s.sp + Depth(e) <= STACK_MAX
    requires Clean(env, e.l, false, s) && Eval(env, e, s.mem).Value?
    requires Leave(env, e.l, false, s).Some? ==> Clean(env, e.r, false, Leave(env, e.l, false, s).value)
    ensures t.Node? && Leave(env, e.l, false, s).Some?
    ensures var r, dt, s1 := DoAll(env, Code(Annotate(t, false)), s), Type(e.l), Leave(env, e.l, false, s).value;
      var x := Eval(env, e.l, s.mem);
      var y, c := Eval(env, e.r, x.m), CellOf(env, e.r, false, Start(s1), x.m);
      var z := Alu(env, e.op, dt, Low(dt, x.v), Low(dt, c));
      && (r.Some? <==> z.Some?)
      && (r.Some? ==> Room(r.value) && r.value.sp == s.sp + 1 && Low(dt, r.value.stack[s.sp]) == z.value)
      && (e.op == Add || e.op == Sub ==> (z == Some(Eval(env, e, s.mem).v) <==> Sees(dt, c, y.v)))
      && (c == y.v <==> c / Range(Width(e.r)) == 0)
  {
    hide Annotate, Code, DoAll, Builds, CellOf, Do, Low, Lands, Clean, Alu, Filled;
    CodeLeaves(env, e, t, false, s);
    var dt, x := Type(e.l), Eval(env, e.l, s.mem);
    LeaveLands(env, e.l, false, s);
    var s1, b := Leave(env, e.l, false, s).value, CellOf(env, e.l, false, Start(s), s.mem);
    LandsRoom(s, s1, b, x.m);
    LeaveLands(env, e.r, false, s1);
    CellUpper(env, e.r, s1);
    WideEnough(e.l);
    Operand(env, e.l, dt, Start(s), s.mem);
    var y, c := Eval(env, e.r, x.m), CellOf(env, e.r, false, Start(s1), x.m);
    BinDefined(env, e.op, dt, s, s1, Leave(env, e.r, false, s1).value, b, c, x.m, y.m);
    if e.op == Add || e.op == Sub {
      SumTells(env, e.op, dt, Low(dt, x.v), Low(dt, c), Low(dt, y.v));
    }
  }

  lemma BinDefined(env: Env, op: BinOp, dt: Dt, s: State, s1: State, s2: State, b: Cell, c: Cell,
      m1: Memory, m2: Memory)
    requires Lands(s, s1, b, m1) && Lands(s1, s2, c, m2) && dt != Void
    ensures var z, r := Alu(env, op, dt, Low(dt, b), Low(dt, c)), Do(env, Bin(op, dt), s2);
      (r.Some? <==> z.Some?)
      && (r.Some? ==> Room(r.value) && r.value.sp == s.sp + 1 && Low(dt, r.value.stack[s.sp]) == z.value)
  {
    hide Alu, Splice;
    CellsBelow(s, s1, s2, b, c, m1, m2);
  }

  /** A sum or a difference tells its second operand. */
  lemma SumTells(env: Env, op: BinOp, dt: Dt, x: Cell, y: Cell, z: Cell)
    requires (op == Add || op == Sub) && y < Range(dt) && z < Range(dt)
    ensures Alu(env, op, dt, x, y) == Alu(env, op, dt, x, z) <==> y == z
  {
    hide IntOf;
    var u, a, b := IntOf(env, dt, x), IntOf(env, dt, y), IntOf(env, dt, z);
    IntTells(env, dt, y, z);
    IntTells(env, dt, z, y);
    if op == Add && Wrap(dt, u + a) == Wrap(dt, u + b) {
      SameWrap(dt, u + a, u + b);
    }
    if op == Sub && Wrap(dt, u - a) == Wrap(dt, u - b) {
      SameWrap(dt, u - a, u - b);
    }
  }

  lemma IntTells(env: Env, dt: Dt, y: Cell, z: Cell)
    requires y < Range(dt) && z < Range(dt)
    ensures IntOf(env, dt, y) == IntOf(env, dt, z) <==> y == z
    ensures IntOf(env, dt, y) - IntOf(env, dt, z) < Range(dt)
  {
  }

  lemma SameWrap(dt: Dt, x: int, y: int)
    requires Wrap(dt, x) == Wrap(dt, y) && x - y < Range(dt) && y - x < Range(dt)
    ensures x == y
  {
    SameRest(x, y, Range(dt));
  }

  lemma SameRest(x: int, y: int, n: nat)
    requires n > 0 && x % n == y % n && x - y < n && y - x < n
    ensures x == y
  {
    assert x == n * (x / n) + x % n && y == n * (y / n) + y % n;
    if x / n > y / n {
      AtLeast(x / n, y / n, n);
    }
    if y / n > x / n {
      AtLeast(y / n, x / n, n);
    }
  }

  lemma AtLeast(p: int, q: int, n: nat)
    requires p > q
    ensures n * p >= n * q + n
  {
    Grows(p - q, n);
    assert n * p == n * q + n * (p - q);
  }

  lemma {:induction false} Grows(k: nat, n: nat)
    requires k > 0
    ensures n * k >= n
  {
    if k > 1 {
      Grows(k - 1, n);
      assert n * k == n * (k - 1) + n;
    }
  }

  /**
   An assignment: what is stored is what the store sees of the value's cell. The memory is right
   if and only if that is the value.
   */
  lemma StoredIff(env: Env, e: Expr, t: Tree, s: State)
    requires e.Assign? && Builds(e, t) && Fair(e) && Room(s) && s.sp + Depth(e) <= STACK_MAX
    requires Clean(env, e.place, true, s) && Eval(env, e, s.mem).Value?
    requires Leave(env, e.place, true, s).Some? ==> Clean(env, e.val, false, Leave(env, e.place, true, s).value)
    ensures t.Node? && Leave(env, e.place, true, s).Some? && DoAll(env, Code(Annotate(t, false)), s).Some?
    ensures var r, s1 := DoAll(env, Code(Annotate(t, false)), s).value, Leave(env, e.place, true, s).value;
      var dt, p := Type(e.place), Place(env, e.place, s.mem);
      var x, c := Eval(env, e.val, p.m), CellOf(env, e.val, false, Start(s1), p.m);
      && r.mem == Store(x.m, p.v, dt, Low(dt, c))
      && (r.mem == Eval(env, e, s.mem).m <==> Sees(dt, c, x.v))
  {
    hide Annotate, Code, DoAll, Builds, CellOf, Do, Low, Lands, Clean, Load, Store, Filled;
    CodeLeaves(env, e, t, false, s);
    var dt, p := Type(e.place), Place(env, e.place, s.mem);
    LeaveLands(env, e.place, true, s);
    var s1 := Leave(env, e.place, true, s).value;
    LandsRoom(s, s1, p.v, p.m);
    LeaveLands(env, e.val, false, s1);
    var x, c := Eval(env, e.val, p.m), CellOf(env, e.val, false, Start(s1), p.m);
    var s2 := Leave(env, e.val, false, s1).value;
    StoreLands(env, dt, s, s1, s2, p.v, c, c, p.m, x.m);
    LandsRoom(s, Then(env, Do(env, St(dt), s2), LdStk(dt)).value, Filled(dt, p.v, Low(dt, c)),
              Store(x.m, p.v, dt, Low(dt, c)));
    LoadStore(x.m, p.v, dt, Low(dt, c));
    LoadStore(x.m, p.v, dt, Low(dt, x.v));
  }

  // ----- calls -----

  function Arg(es: Exprs, i: nat): Expr
    requires i < Count(es)
  {
    if i == 0 then es.head else Arg(es.tail, i - 1)
  }

  /** The bytes above the value are 0 in each cell. */
  ghost predicate AllWhole(es: Exprs, cs: seq<Cell>)
    requires |cs| == Count(es)
  {
    forall i :: 0 <= i < |cs| ==> cs[i] / Range(Width(Arg(es, i))) == 0
  }

  lemma WholeMore(es: Exprs, c: Cell, cs: seq<Cell>)
    requires es.More? && |cs| == Count(es.tail)
    ensures AllWhole(es, [c] + cs) <==> c / Range(Width(es.head)) == 0 && AllWhole(es.tail, cs)
  {
    hide Width;
    var ds := [c] + cs;
    assert forall i :: 0 < i < |ds| ==> Arg(es, i) == Arg(es.tail, i - 1) && ds[i] == cs[i - 1];
    if AllWhole(es, ds) {
      forall i | 0 <= i < |cs| ensures cs[i] / Range(Width(Arg(es.tail, i))) == 0 {
        assert ds[i + 1] == cs[i] && Arg(es, i + 1) == Arg(es.tail, i);
      }
      assert ds[0] == c && Arg(es, 0) == es.head;
    }
  }

  /** The cells are the arguments if and only if the bytes above each are 0. */
  lemma {:induction false} CellsIff(env: Env, es: Exprs, s: State)
    requires FairArgs(es) && Inside(env, es, s) && Room(s) && s.sp + DepthArgs(es) <= STACK_MAX
    requires EvalArgs(env, es, s.mem).All?
    ensures |CellsOf(env, es, s)| == Count(es)
    ensures CellsOf(env, es, s) == EvalArgs(env, es, s.mem).vs <==> AllWhole(es, CellsOf(env, es, s))
    decreases es
  {
    hide Do, Lands, CellOf, Eval, Clean, Width, AllWhole, LandsAll;
    ArgsLand(env, es, s);
    if es.More? {
      LeaveLands(env, es.head, false, s);
      var x, c := Eval(env, es.head, s.mem), CellOf(env, es.head, false, Start(s), s.mem);
      var s1 := Leave(env, es.head, false, s).value;
      LandsRoom(s, s1, c, x.m);
      CellUpper(env, es.head, s);
      CellsIff(env, es.tail, s1);
      var cs, vs := CellsOf(env, es.tail, s1), EvalArgs(env, es.tail, x.m).vs;
      WholeMore(es, c, cs);
      assert ([c] + cs)[1..] == cs && ([x.v] + vs)[1..] == vs;
    } else {
      NoneWhole(es);
    }
  }

  lemma NoneWhole(es: Exprs)
    requires es.Done?
    ensures AllWhole(es, [])
  {
  }

  /** Callee and arguments are clean, whether they fill their cells or not. */
  ghost predicate CleanInside(env: Env, callee: Expr, args: Exprs, s: State) {
    && Clean(env, callee, false, s)
    && (Leave(env, callee, false, s).Some? ==> Inside(env, args, Leave(env, callee, false, s).value))
  }

  /**
   A call: the function is called by the callee's whole cell, with the arguments' whole cells.
   These are the callee and the arguments if and only if the bytes above each value are 0.
   */
  lemma CallIff(env: Env, callee: Expr, args: Exprs, t: Tree, s: State)
    requires Builds(Apply(callee, args), t) && Fair(Apply(callee, args)) && CleanInside(env, callee, args, s)
    requires Room(s) && s.sp + Depth(Apply(callee, args)) <= STACK_MAX
    requires Eval(env, Apply(callee, args), s.mem).Value?
    ensures t.Node? && Leave(env, callee, false, s).Some?
    ensures Eval(env, callee, s.mem).Value? && EvalArgs(env, args, Eval(env, callee, s.mem).m).All?
    ensures var r, f := DoAll(env, Code(Annotate(t, false)), s), Eval(env, callee, s.mem);
      var xs, c := EvalArgs(env, args, f.m), CellOf(env, callee, false, s.stack[s.sp], s.mem);
      var cs := CellsOf(env, args, Leave(env, callee, false, s).value);
      && |cs| == Count(args)
      && r.Some? && Room(r.value) && r.value.sp == s.sp + 1
      && (r.value.stack[s.sp], r.value.mem) == env.sys(c, cs, xs.m)
      && (c == f.v <==> c / Range(Width(callee)) == 0)
      && (cs == xs.vs <==> AllWhole(args, cs))
  {
    hide Annotate, Code, DoAll, Builds, CellOf, Do, Low, LandsAll, Clean, Width, AllWhole;
    CodeLeaves(env, Apply(callee, args), t, false, s);
    var f, c := Eval(env, callee, s.mem), CellOf(env, callee, false, Start(s), s.mem);
    LeaveLands(env, callee, false, s);
    CellUpper(env, callee, s);
    var s1 := Leave(env, callee, false, s).value;
    ArgsLand(env, args, s1);
    CellsIff(env, args, s1);
    var xs := EvalArgs(env, args, f.m);
    DoCall(env, s, s1, LeaveAll(env, args, s1).value, c, CellsOf(env, args, s1), f.m, xs.m);
  }

  /** Variables and constants. */
  predicate Leaf(e: Expr) {
    e.Var? || e.Char? || e.Num?
  }

  predicate Leaves(es: Exprs) {
    es.Done? || (Leaf(es.head) && Leaves(es.tail))
  }

  /** The cells `was` with the values of leaves put in. */
  function Put(es: Exprs, was: seq<Cell>, vs: seq<Cell>): (cs: seq<Cell>)
    requires |was| == |vs| == Count(es)
    ensures |cs| == Count(es)
  {
    if es.Done? then [] else [Filled(Width(es.head), was[0], vs[0])] + Put(es.tail, was[1..], vs[1..])
  }

  /** Arguments that are variables or constants start from the cells before the line. */
  lemma {:induction false} LeafCells(env: Env, es: Exprs, s: State)
    requires Leaves(es) && FairArgs(es) && Room(s) && s.sp + Count(es) <= STACK_MAX && EvalArgs(env, es, s.mem).All?
    ensures Inside(env, es, s)
    ensures CellsOf(env, es, s) == Put(es, s.stack[s.sp..s.sp + Count(es)], EvalArgs(env, es, s.mem).vs)
    decreases es
  {
    hide Do, Filled, Load, CellOf, Width, Leave, Eval;
    if es.More? {
      LeafLeaves(env, es.head, s);
      var s1, n := Leave(env, es.head, false, s).value, Count(es);
      LeafCells(env, es.tail, s1);
      assert s.stack[s.sp..s.sp + n][1..] == s1.stack[s1.sp..s1.sp + Count(es.tail)];
      var x := Eval(env, es.head, s.mem);
      assert EvalArgs(env, es, s.mem).vs[1..] == EvalArgs(env, es.tail, x.m).vs;
    }
  }

  /** Cells with values put in hold above them what they held before. */
  lemma {:induction false} PutWhole(es: Exprs, was: seq<Cell>, vs: seq<Cell>)
    requires |was| == |vs| == Count(es)
    ensures AllWhole(es, Put(es, was, vs)) <==> AllWhole(es, was)
    decreases es
  {
    hide Width, AllWhole, Filled;
    if es.More? {
      PutWhole(es.tail, was[1..], vs[1..]);
      FilledShows(Width(es.head), was[0], vs[0]);
      WholeMore(es, Filled(Width(es.head), was[0], vs[0]), Put(es.tail, was[1..], vs[1..]));
      WholeMore(es, was[0], was[1..]);
      assert was == [was[0]] + was[1..];
    } else {
      assert Put(es, was, vs) == was;
    }
  }

  /**
   f(a, ..., z) for variables and constants: each argument is put in the cell that the stack holds
   for it before the call. The arguments are right if and only if these cells hold nothing above
   the width of each.
   */
  lemma CallOfLeaves(env: Env, f: Cell, args: Exprs, t: Tree, s: State)
    requires Builds(Apply(Fun(f), args), t) && FairArgs(args) && Leaves(args) && Count(args) <= 16
    requires Room(s) && s.sp + Depth(Apply(Fun(f), args)) <= STACK_MAX && s.sp + 1 + Count(args) <= STACK_MAX
    requires EvalArgs(env, args, s.mem).All?
    ensures t.Node?
    ensures var r, xs := DoAll(env, Code(Annotate(t, false)), s), EvalArgs(env, args, s.mem);
      var was := s.stack[s.sp + 1..s.sp + 1 + Count(args)];
      var cs := Put(args, was, xs.vs);
      && r.Some? && Room(r.value) && r.value.sp == s.sp + 1
      && (r.value.stack[s.sp], r.value.mem) == env.sys(f, cs, xs.m)
      && (cs == xs.vs <==> AllWhole(args, was))
  {
    hide Annotate, Code, DoAll, Builds, Width, AllWhole, Inside, CellsOf, Lands, Filled;
    var s1 := State(s.stack[s.sp := f], s.sp + 1, s.mem);
    assert Leave(env, Fun(f), false, s) == Some(s1);
    LeafCells(env, args, s1);
    CallIff(env, Fun(f), args, t, s);
    var was := s.stack[s.sp + 1..s.sp + 1 + Count(args)];
    assert s1.stack[s1.sp..s1.sp + Count(args)] == was;
    PutWhole(args, was, EvalArgs(env, args, s.mem).vs);
  }

  lemma LeafLeaves(env: Env, e: Expr, s: State)
    requires Leaf(e) && Fair(e) && Room(s) && s.sp < STACK_MAX && Eval(env, e, s.mem).Value?
    ensures Leave(env, e, false, s).Some? && Clean(env, e, false, s)
    ensures var s', c := Leave(env, e, false, s).value, CellOf(env, e, false, Start(s), s.mem);
      && s' == State(s.stack[s.sp := c], s.sp + 1, s.mem) && Eval(env, e, s.mem).m == s.mem
      && c == Filled(Width(e), s.stack[s.sp], Eval(env, e, s.mem).v)
  {
    hide Load, Splice, Low;
    var c, v := s.stack[s.sp], Eval(env, e, s.mem).v;
    match e
    case Var(ty, a, _) => FilledIs(CodeDt(ty), c, v);
    case Char(_) => FilledIs(Byte, c, v);
    case Num(_) => WholeFilled(c, v);
  }
}
