/**
 What the code of a finsh expression leaves in whole cells. A narrow value fills the low bytes
 of its cell and leaves the upper bytes there: what the cell held before, the rest of an
 address, or the rest of an operand. Whoever reads the cell wider than the value is, sees them.
 */
module FinshCells {
  import opened FinshOps
  import opened FinshVm
  import opened FinshLang
  import opened FinshTree

  function ResultOf(env: Env, e: Expr, place: bool, m: Memory): Result {
    if place then Place(env, e, m) else Eval(env, e, m)
  }

  // ----- the stack after an expression -----

  function Then(env: Env, s: Option<State>, i: Instr): Option<State> {
    if s.None? then None else Do(env, i, s.value)
  }

  /** The instructions of ++ and --, with those of the variable. */
  function Stepping(pre: bool, down: bool, dt: Dt, a: Cell): seq<Instr> {
    if pre then [Ld(Dword, a)] + (Bump(dt, a, down) + [LdStk(Dword)])
    else [LdVal(dt, a)] + ([Ld(Dword, a)] + Bump(dt, a, down) + [Pop])
  }

  /** The machine after an expression, or after the address of what it denotes. */
  function Leave(env: Env, e: Expr, place: bool, s: State): Option<State>
    decreases e
  {
    match e
    case Var(ty, a, _) => Do(env, if place then Ld(Dword, a) else LdVal(CodeDt(ty), a), s)
    case Char(c) => Do(env, Ld(Byte, c), s)
    case Num(v) => Do(env, Ld(Dword, v), s)
    case Fun(f) => Do(env, Ld(Dword, f), s)
    case Binary(op, l, r) =>
      var s1 := Leave(env, l, false, s);
      if s1.None? then None else Then(env, Leave(env, r, false, s1.value), Bin(op, Type(l)))
    case Compl(x) => Then(env, Leave(env, x, false, s), Not(Type(x)))
    case Apply(callee, args) =>
      var s1 := Leave(env, callee, false, s);
      if s1.None? || Count(args) > 16 then None else Then(env, LeaveAll(env, args, s1.value), Call(Count(args)))
    case Assign(place, val) =>
      var s1 := Leave(env, place, true, s);
      if s1.None? then None
      else Then(env, Then(env, Leave(env, val, false, s1.value), St(Type(place))), LdStk(Type(place)))
    case Step(pre, down, target) =>
      if target.Var? then DoAll(env, Stepping(pre, down, Type(target), target.a), s) else None
    case Deref(ptr) =>
      if place then Leave(env, ptr, false, s) else Then(env, Leave(env, ptr, false, s), LdStk(Type(ptr)))
    case AddrOf(obj) => Leave(env, obj, true, s)
  }

  function LeaveAll(env: Env, es: Exprs, s: State): Option<State>
    decreases es
  {
    if es.Done? then Some(s)
    else (
      var s1 := Leave(env, es.head, false, s);
      if s1.None? then None else LeaveAll(env, es.tail, s1.value))
  }

  // ----- the cell of an expression -----

  /** The cell that an expression will be put in. */
  function Start(s: State): Cell {
    if s.sp < |s.stack| then s.stack[s.sp] else 0
  }

  /** The low part of a cell is written. */
  function Filled(dt: Dt, c: Cell, v: Cell): Cell {
    Splice(dt, c, Low(dt, v))
  }

  /**
   The whole cell of an expression that starts from cell `c`: upper bytes are kept by loads and
   operators, those of an address by assignments and dereferences; calls, constants, addresses
   and ++ or -- before a variable fill the cell.
   */
  function CellOf(env: Env, e: Expr, place: bool, c: Cell, m: Memory): Cell
    decreases e
  {
    var r := ResultOf(env, e, place, m);
    if r.Undefined? then c
    else
      match e
      case Var(ty, _, _) => if place then r.v else Filled(CodeDt(ty), c, r.v)
      case Char(_) => Filled(Byte, c, r.v)
      case Binary(_, l, _) => Filled(Type(l), CellOf(env, l, false, c, m), r.v)
      case Compl(x) => Filled(Type(x), CellOf(env, x, false, c, m), r.v)
      case Assign(p, _) => Filled(Type(p), CellOf(env, p, true, c, m), r.v)
      case Step(pre, _, target) =>
        if pre && target.Var? && Mapped(r.m, target.a, 4) then Load(r.m, target.a, Dword)
        else Filled(Type(target), c, r.v)
      case Deref(ptr) =>
        if place then CellOf(env, ptr, false, c, m) else Filled(Type(ptr), CellOf(env, ptr, false, c, m), r.v)
      case AddrOf(obj) => CellOf(env, obj, true, c, m)
      case _ => r.v
  }

  /** Whoever reads the cell at this width sees the value. */
  predicate Sees(dt: Dt, c: Cell, v: Cell) {
    Low(dt, c) == Low(dt, v)
  }

  /**
   Each time the code of an expression reads a cell wider than the value in it is, the bytes above
   the value are 0: the second operand of an operator, what is assigned, a pointer, a callee and
   the arguments of a call.
   */
  ghost predicate Clean(env: Env, e: Expr, place: bool, s: State)
    decreases e
  {
    match e
    case Binary(_, l, r) =>
      && Clean(env, l, false, s)
      && var s1 := Leave(env, l, false, s);
        s1.Some? ==> Clean(env, r, false, s1.value) && ReadsCell(env, Type(l), r, s1.value)
    case Compl(x) => Clean(env, x, false, s)
    case Apply(callee, args) =>
      && Clean(env, callee, false, s) && ReadsCell(env, Dword, callee, s)
      && var s1 := Leave(env, callee, false, s);
        s1.Some? ==> CleanArgs(env, args, s1.value)
    case Assign(p, val) =>
      && Clean(env, p, true, s)
      && var s1 := Leave(env, p, true, s);
        s1.Some? ==> Clean(env, val, false, s1.value) && ReadsCell(env, Type(p), val, s1.value)
    case Deref(ptr) => Clean(env, ptr, false, s) && ReadsCell(env, Dword, ptr, s)
    case AddrOf(obj) => Clean(env, obj, true, s)
    case _ => true
  }

  ghost predicate CleanArgs(env: Env, es: Exprs, s: State)
    decreases es
  {
    es.More? ==>
      && Clean(env, es.head, false, s) && ReadsCell(env, Dword, es.head, s)
      && var s1 := Leave(env, es.head, false, s);
        s1.Some? ==> CleanArgs(env, es.tail, s1.value)
  }

  predicate ReadsCell(env: Env, dt: Dt, e: Expr, s: State) {
    var r := Eval(env, e, s.mem);
    r.Value? ==> Sees(dt, CellOf(env, e, false, Start(s), s.mem), r.v)
  }

  // ----- the low part of the cell is the value -----

  lemma FilledShows(dt: Dt, c: Cell, v: Cell)
    ensures Low(dt, Filled(dt, c, v)) == Low(dt, v) && (v < Range(dt) ==> Low(dt, Filled(dt, c, v)) == v)
    ensures Filled(dt, c, v) / Range(dt) == c / Range(dt)
  {
  }

  lemma {:induction false} CellShows(env: Env, e: Expr, c: Cell, m: Memory)
    requires Fair(e) && Eval(env, e, m).Value? && !e.AddrOf?
    ensures Low(Width(e), CellOf(env, e, false, c, m)) == Eval(env, e, m).v
  {
    hide Load, Store, Alu, Filled, Low, Splice, Complement;
    var r := Eval(env, e, m);
    EvalFits(env, e, m);
    match e
    case Var(ty, _, _) => FilledShows(CodeDt(ty), c, r.v);
    case Char(_) => FilledShows(Byte, c, r.v);
    case Binary(_, l, _) => FilledShows(Type(l), CellOf(env, l, false, c, m), r.v);
    case Compl(x) => FilledShows(Type(x), CellOf(env, x, false, c, m), r.v);
    case Assign(p, _) => FilledShows(Type(p), CellOf(env, p, true, c, m), r.v);
    case Deref(ptr) => FilledShows(Type(ptr), CellOf(env, ptr, false, c, m), r.v);
    case Step(pre, down, target) => StepShows(env, e, c, m);
    case AddrOf(_) => assert false;
    case _ => WholeLow(r.v);
  }

  lemma WholeLow(v: Cell)
    ensures Low(Dword, v) == v
  {
  }

  lemma StepShows(env: Env, e: Expr, c: Cell, m: Memory)
    requires e.Step? && Fair(e) && Eval(env, e, m).Value?
    ensures Low(Width(e), CellOf(env, e, false, c, m)) == Eval(env, e, m).v
  {
    hide Load, Store, Alu, Low, Splice;
    var a, dt, r := e.target.a, Type(e.target), Eval(env, e, m);
    EvalFits(env, e, m);
    FilledShows(dt, c, r.v);
    if e.pre {
      assert Mapped(m, a, Size(dt));
      var op := if e.down then Sub else Add;
      assert Alu(env, op, dt, Load(m, a, dt), 1).Some? by { SumDefined(env, op, dt, Load(m, a, dt)); }
      LoadStore(m, a, dt, r.v);
      assert Mapped(r.m, a, 4);
      LoadWhole(r.m, a, dt);
    }
  }

  lemma SumDefined(env: Env, op: BinOp, dt: Dt, x: Cell)
    requires op == Add || op == Sub
    ensures Alu(env, op, dt, x, 1).Some?
  {
  }

  // ----- one operation -----

  /** From `s` to `s'` the cell `c` was pushed; the cells below are as before. */
  ghost predicate Lands(s: State, s': State, c: Cell, m: Memory) {
    && Room(s) && Room(s') && s'.sp == s.sp + 1 && s'.mem == m
    && s'.stack[..s.sp] == s.stack[..s.sp] && s'.stack[s.sp] == c
  }

  /** The machine is defined after it, and has pushed the cell, if there is a result. */
  ghost predicate Left(s: State, s': Option<State>, c: Cell, r: Result) {
    r.Value? ==> s'.Some? && Lands(s, s'.value, c, r.m)
  }

  lemma DoLd(env: Env, dt: Dt, v: Cell, s: State)
    requires Room(s) && s.sp < STACK_MAX && dt != Void && v < Range(dt)
    ensures Left(s, Do(env, Ld(dt, v), s), Filled(dt, Start(s), v), Value(v, s.mem))
  {
    FilledIs(dt, Start(s), v);
    var s' := Do(env, Ld(dt, v), s).value;
    assert s'.stack[..s.sp] == s.stack[..s.sp];
  }

  lemma FilledIs(dt: Dt, c: Cell, v: Cell)
    requires v < Range(dt)
    ensures Filled(dt, c, v) == Splice(dt, c, v) && Low(dt, v) == v
  {
  }

  lemma DoLdVal(env: Env, dt: Dt, a: Cell, s: State)
    requires Room(s) && s.sp < STACK_MAX && dt != Void && Mapped(s.mem, a, Size(dt))
    ensures Left(s, Do(env, LdVal(dt, a), s), Filled(dt, Start(s), Load(s.mem, a, dt)),
                 Value(Load(s.mem, a, dt), s.mem))
  {
    hide Load, Splice;
    FilledIs(dt, Start(s), Load(s.mem, a, dt));
    var s' := Do(env, LdVal(dt, a), s).value;
    assert s'.stack[..s.sp] == s.stack[..s.sp];
  }

  lemma CellsBelow(s: State, s1: State, s2: State, c1: Cell, c2: Cell, m1: Memory, m2: Memory)
    requires Lands(s, s1, c1, m1) && Lands(s1, s2, c2, m2)
    ensures s2.stack[s.sp] == c1 && s2.stack[..s.sp] == s.stack[..s.sp]
  {
    assert s2.stack[s.sp] == s2.stack[..s1.sp][s.sp] == s1.stack[s.sp];
    assert s2.stack[..s.sp] == s2.stack[..s1.sp][..s.sp] == s1.stack[..s.sp];
  }

  lemma DoBin(env: Env, op: BinOp, dt: Dt, s: State, s1: State, s2: State, c1: Cell, c2: Cell, m1: Memory, m2: Memory)
    requires Lands(s, s1, c1, m1) && Lands(s1, s2, c2, m2) && dt != Void
    requires Alu(env, op, dt, Low(dt, c1), Low(dt, c2)).Some?
    ensures var v := Alu(env, op, dt, Low(dt, c1), Low(dt, c2)).value;
      Left(s, Do(env, Bin(op, dt), s2), Filled(dt, c1, v), Value(v, m2))
  {
    hide Alu, Splice;
    CellsBelow(s, s1, s2, c1, c2, m1, m2);
    var v := Alu(env, op, dt, Low(dt, c1), Low(dt, c2)).value;
    FilledIs(dt, c1, v);
    var s' := Do(env, Bin(op, dt), s2).value;
    assert s'.stack[..s.sp] == s2.stack[..s.sp];
  }

  lemma DoNot(env: Env, dt: Dt, s: State, s1: State, c: Cell, m: Memory)
    requires Lands(s, s1, c, m) && dt != Void
    ensures var v := Complement(dt, Low(dt, c)); Left(s, Do(env, Not(dt), s1), Filled(dt, c, v), Value(v, m))
  {
    hide Splice;
    FilledIs(dt, c, Complement(dt, Low(dt, c)));
    var s' := Do(env, Not(dt), s1).value;
    assert s'.stack[..s.sp] == s1.stack[..s.sp];
  }

  lemma DoLdStk(env: Env, dt: Dt, s: State, s1: State, c: Cell, m: Memory)
    requires Lands(s, s1, c, m) && dt != Void
    ensures Do(env, LdStk(dt), s1).Some? <==> Mapped(m, c, Size(dt))
    ensures Left(s, Do(env, LdStk(dt), s1), if Mapped(m, c, Size(dt)) then Filled(dt, c, Load(m, c, dt)) else 0,
                 LoadAt(m, c, dt))
  {
    hide Load, Splice;
    if Mapped(m, c, Size(dt)) {
      FilledIs(dt, c, Load(m, c, dt));
      var s' := Do(env, LdStk(dt), s1).value;
      assert s'.stack[..s.sp] == s1.stack[..s.sp];
    }
  }

  /** A store leaves the address on the stack. */
  lemma DoSt(env: Env, dt: Dt, s: State, s1: State, s2: State, a: Cell, c: Cell, m1: Memory, m2: Memory)
    requires Lands(s, s1, a, m1) && Lands(s1, s2, c, m2) && dt != Void
    ensures Do(env, St(dt), s2).Some? <==> Mapped(m2, a, Size(dt))
    ensures Mapped(m2, a, Size(dt)) ==> Lands(s, Do(env, St(dt), s2).value, a, Store(m2, a, dt, Low(dt, c)))
  {
    hide Store;
    CellsBelow(s, s1, s2, a, c, m1, m2);
  }

  lemma DoPop(env: Env, s: State, s1: State, s2: State, c1: Cell, c2: Cell, m1: Memory, m2: Memory)
    requires Lands(s, s1, c1, m1) && Lands(s1, s2, c2, m2)
    ensures Do(env, Pop, s2).Some? && Lands(s, Do(env, Pop, s2).value, c1, m2)
  {
    CellsBelow(s, s1, s2, c1, c2, m1, m2);
  }

  // ----- ++ and -- -----

  /** With the variable's address on the stack, the variable is changed and the address stays. */
  lemma DoBump(env: Env, dt: Dt, a: Cell, down: bool, s: State, s1: State)
    requires Lands(s, s1, a, s.mem) && s1.sp + 2 <= STACK_MAX && dt != Void && Mapped(s.mem, a, Size(dt))
    ensures DoAll(env, Bump(dt, a, down), s1).Some?
    ensures var y := Alu(env, if down then Sub else Add, dt, Load(s.mem, a, dt), 1).value;
      Lands(s, DoAll(env, Bump(dt, a, down), s1).value, a, Store(s.mem, a, dt, y))
  {
    hide Do, Load, Store, Lands, Alu, Low, DoAll, Filled;
    var op, x := if down then Sub else Add, Load(s.mem, a, dt);
    SumDefined(env, op, dt, x);
    LandsRoom(s, s1, a, s.mem);
    DoLdVal(env, dt, a, s1);
    var s2 := Do(env, LdVal(dt, a), s1).value;
    LandsRoom(s1, s2, Filled(dt, Start(s1), x), s.mem);
    DoLd(env, dt, 1, s2);
    var s3 := Do(env, Ld(dt, 1), s2).value;
    FilledShows(dt, Start(s1), x);
    FilledShows(dt, Start(s2), 1);
    DoBin(env, op, dt, s1, s2, s3, Filled(dt, Start(s1), x), Filled(dt, Start(s2), 1), s.mem, s.mem);
    var y := Alu(env, op, dt, x, 1).value;
    var s4 := Do(env, Bin(op, dt), s3).value;
    FilledShows(dt, Filled(dt, Start(s1), x), y);
    DoSt(env, dt, s, s1, s4, a, Filled(dt, Filled(dt, Start(s1), x), y), s.mem, s.mem);
    assert [LdVal(dt, a)] + [Ld(dt, 1)] == [LdVal(dt, a), Ld(dt, 1)];
    assert [LdVal(dt, a), Ld(dt, 1)] + [Bin(op, dt)] == [LdVal(dt, a), Ld(dt, 1), Bin(op, dt)];
    assert [LdVal(dt, a), Ld(dt, 1), Bin(op, dt)] + [St(dt)] == Bump(dt, a, down);
    DoOne(env, LdVal(dt, a), s1);
    DoThen(env, [LdVal(dt, a)], Ld(dt, 1), s1);
    DoThen(env, [LdVal(dt, a), Ld(dt, 1)], Bin(op, dt), s1);
    DoThen(env, [LdVal(dt, a), Ld(dt, 1), Bin(op, dt)], St(dt), s1);
  }

  lemma LandsRoom(s: State, s': State, c: Cell, m: Memory)
    requires Lands(s, s', c, m)
    ensures Room(s) && Room(s') && s'.sp == s.sp + 1 && s'.mem == m && s'.stack[s.sp] == c
  {
  }

  lemma DoOne(env: Env, i: Instr, s: State)
    ensures DoAll(env, [i], s) == Do(env, i, s)
  {
    hide Do;
    if Do(env, i, s).Some? {
      assert DoAll(env, [i][1..], Do(env, i, s).value) == Do(env, i, s);
    }
  }

  lemma DoThen(env: Env, code: seq<Instr>, i: Instr, s: State)
    ensures DoAll(env, code + [i], s) == Then(env, DoAll(env, code, s), i)
  {
    hide Do;
    DoAppend(env, code, [i], s);
    if DoAll(env, code, s).Some? {
      DoOne(env, i, DoAll(env, code, s).value);
    }
  }

  lemma PreLands(env: Env, dt: Dt, a: Cell, down: bool, s: State)
    requires Room(s) && s.sp + 3 <= STACK_MAX && dt != Void && Mapped(s.mem, a, 4)
    ensures Mapped(s.mem, a, Size(dt))
    ensures var r := StepVar(env, true, down, dt, a, s.mem);
      r.Value? && Mapped(r.m, a, 4) && Left(s, DoAll(env, Stepping(true, down, dt, a), s), Load(r.m, a, Dword), r)
  {
    hide Do, Load, Store, Alu, Low, DoAll, Lands, Bump, Filled;
    assert Mapped(s.mem, a, Size(dt));
    var op := if down then Sub else Add;
    SumDefined(env, op, dt, Load(s.mem, a, dt));
    var y := Alu(env, op, dt, Load(s.mem, a, dt), 1).value;
    var m' := Store(s.mem, a, dt, y);
    DoOne(env, Ld(Dword, a), s);
    DoLd(env, Dword, a, s);
    WholeFilled(Start(s), a);
    var s1 := Do(env, Ld(Dword, a), s).value;
    LandsRoom(s, s1, a, s.mem);
    DoBump(env, dt, a, down, s, s1);
    var s2 := DoAll(env, Bump(dt, a, down), s1).value;
    LoadStore(s.mem, a, dt, y);
    assert Mapped(m', a, 4);
    DoLdStk(env, Dword, s, s2, a, m');
    WholeFilled(a, Load(m', a, Dword));
    DoThen(env, Bump(dt, a, down), LdStk(Dword), s1);
    DoAppend(env, [Ld(Dword, a)], Bump(dt, a, down) + [LdStk(Dword)], s);
    LandsStill(s, Do(env, LdStk(Dword), s2).value, Load(m', a, Dword), m');
  }

  lemma LandsStill(s: State, s': State, c: Cell, m: Memory)
    requires Lands(s, s', c, m)
    ensures forall v :: Left(s, Some(s'), c, Value(v, m))
  {
  }

  lemma WholeFilled(c: Cell, v: Cell)
    ensures Filled(Dword, c, v) == v
  {
  }

  lemma PostLands(env: Env, dt: Dt, a: Cell, down: bool, s: State)
    requires Room(s) && s.sp + 4 <= STACK_MAX && dt != Void && Mapped(s.mem, a, Size(dt))
    ensures Left(s, DoAll(env, Stepping(false, down, dt, a), s), Filled(dt, Start(s), Load(s.mem, a, dt)),
                 StepVar(env, false, down, dt, a, s.mem))
  {
    hide Do, Load, Store, Alu, Low, DoAll, Lands, Bump, Filled;
    var op := if down then Sub else Add;
    SumDefined(env, op, dt, Load(s.mem, a, dt));
    var y := Alu(env, op, dt, Load(s.mem, a, dt), 1).value;
    var c := Filled(dt, Start(s), Load(s.mem, a, dt));
    DoOne(env, LdVal(dt, a), s);
    DoLdVal(env, dt, a, s);
    var s1 := Do(env, LdVal(dt, a), s).value;
    LandsRoom(s, s1, c, s.mem);
    DoOne(env, Ld(Dword, a), s1);
    DoLd(env, Dword, a, s1);
    WholeFilled(Start(s1), a);
    var s2 := Do(env, Ld(Dword, a), s1).value;
    LandsRoom(s1, s2, a, s.mem);
    DoBump(env, dt, a, down, s1, s2);
    var s3 := DoAll(env, Bump(dt, a, down), s2).value;
    DoAppend(env, [Ld(Dword, a)], Bump(dt, a, down), s1);
    DoThen(env, [Ld(Dword, a)] + Bump(dt, a, down), Pop, s1);
    DoAppend(env, [LdVal(dt, a)], [Ld(Dword, a)] + Bump(dt, a, down) + [Pop], s);
    DoPop(env, s, s1, s3, c, a, s.mem, Store(s.mem, a, dt, y));
    LandsStill(s, Do(env, Pop, s3).value, c, Store(s.mem, a, dt, y));
  }

  // ----- arguments -----

  /** The cells were pushed one after the other. */
  ghost predicate LandsAll(s: State, s': State, cs: seq<Cell>, m: Memory) {
    && Room(s) && Room(s') && s'.sp == s.sp + |cs| && s'.mem == m
    && s'.stack[..s.sp] == s.stack[..s.sp] && s'.stack[s.sp..s'.sp] == cs
  }

  lemma LandsMore(s: State, s1: State, s2: State, c: Cell, cs: seq<Cell>, m1: Memory, m2: Memory)
    requires Lands(s, s1, c, m1) && LandsAll(s1, s2, cs, m2)
    ensures LandsAll(s, s2, [c] + cs, m2)
  {
    assert s2.stack[s.sp] == s2.stack[..s1.sp][s.sp] == s1.stack[s.sp];
    assert s2.stack[..s.sp] == s2.stack[..s1.sp][..s.sp] == s1.stack[..s.sp];
    assert s2.stack[s.sp..s2.sp] == [s2.stack[s.sp]] + s2.stack[s1.sp..s2.sp];
  }

  lemma DoCall(env: Env, s: State, s1: State, s2: State, f: Cell, cs: seq<Cell>, m1: Memory, m2: Memory)
    requires Lands(s, s1, f, m1) && LandsAll(s1, s2, cs, m2) && |cs| <= 16
    ensures Do(env, Call(|cs|), s2).Some?
    ensures Lands(s, Do(env, Call(|cs|), s2).value, env.sys(f, cs, m2).0, env.sys(f, cs, m2).1)
  {
    assert s2.stack[s.sp] == s2.stack[..s1.sp][s.sp] == s1.stack[s.sp];
    assert s2.stack[..s.sp] == s2.stack[..s1.sp][..s.sp] == s1.stack[..s.sp];
    var s' := Do(env, Call(|cs|), s2).value;
    assert s'.stack[..s.sp] == s2.stack[..s.sp];
  }

  /** The cells of arguments, each started from what is left on the stack by those before it. */
  function CellsOf(env: Env, es: Exprs, s: State): seq<Cell>
    decreases es
  {
    if es.Done? then []
    else (
      var s1 := Leave(env, es.head, false, s);
      [CellOf(env, es.head, false, Start(s), s.mem)] + if s1.None? then [] else CellsOf(env, es.tail, s1.value))
  }

  /** Arguments that are clean themselves, whether they fill their cells or not. */
  ghost predicate Inside(env: Env, es: Exprs, s: State)
    decreases es
  {
    es.More? ==>
      && Clean(env, es.head, false, s)
      && var s1 := Leave(env, es.head, false, s);
        s1.Some? ==> Inside(env, es.tail, s1.value)
  }

  // ----- the main lemma -----

  /** Where everything is clean, an expression leaves its cell and the memory of its evaluation. */
  lemma {:induction false} LeaveLands(env: Env, e: Expr, place: bool, s: State)
    requires (if place then FairPlace(e) else Fair(e)) && Clean(env, e, place, s)
    requires Room(s) && s.sp + Depth(e) <= STACK_MAX
    ensures Left(s, Leave(env, e, place, s), CellOf(env, e, place, Start(s), s.mem), ResultOf(env, e, place, s.mem))
    ensures (place || e.AddrOf?) && ResultOf(env, e, place, s.mem).Value? ==>
      CellOf(env, e, place, Start(s), s.mem) == ResultOf(env, e, place, s.mem).v
    decreases e, 1
  {
    hide Do, DoAll, Lands, Left, Filled, Load, Low, Clean, Leave, CellOf, Eval, Place, Fair, FairPlace, Depth;
    match e
    case Var(_, _, _) => LeafLands(env, e, place, s);
    case Binary(_, _, _) => NoPlace(e, place); BinaryLands(env, e, s);
    case Compl(_) => NoPlace(e, place); ComplLands(env, e, s);
    case Apply(_, _) => NoPlace(e, place); ApplyLands(env, e, s);
    case Assign(_, _) => NoPlace(e, place); AssignLands(env, e, s);
    case Step(_, _, _) => NoPlace(e, place); StepLands(env, e, s);
    case Deref(_) => DerefLands(env, e, place, s);
    case AddrOf(_) => NoPlace(e, place); AddrOfLands(env, e, s);
    case _ => LeafLands(env, e, place, s);
  }

  lemma NoPlace(e: Expr, place: bool)
    requires !e.Var? && !e.Deref? && (if place then FairPlace(e) else Fair(e))
    ensures !place
  {
  }

  /** Constants and variables. */
  lemma LeafLands(env: Env, e: Expr, place: bool, s: State)
    requires e.Var? || e.Char? || e.Num? || e.Fun?
    requires (if place then FairPlace(e) else Fair(e)) && Room(s) && s.sp < STACK_MAX
    ensures Left(s, Leave(env, e, place, s), CellOf(env, e, place, Start(s), s.mem), ResultOf(env, e, place, s.mem))
    ensures place && ResultOf(env, e, place, s.mem).Value? ==>
      CellOf(env, e, place, Start(s), s.mem) == ResultOf(env, e, place, s.mem).v
  {
    hide Do, Lands, Filled, Load, Low;
    match e
    case Var(ty, a, _) =>
      if place {
        DoLd(env, Dword, a, s);
        WholeFilled(Start(s), a);
      } else if Mapped(s.mem, a, Size(CodeDt(ty))) {
        DoLdVal(env, CodeDt(ty), a, s);
      }
    case Char(c) => DoLd(env, Byte, c, s);
    case Num(v) => DoLd(env, Dword, v, s); WholeFilled(Start(s), v);
    case Fun(f) => DoLd(env, Dword, f, s); WholeFilled(Start(s), f);
  }

  /** The low part of an operand's cell is the operand's value. */
  lemma Operand(env: Env, e: Expr, dt: Dt, c: Cell, m: Memory)
    requires Fair(e) && Eval(env, e, m).Value? && Size(dt) <= Size(Width(e))
    requires e.AddrOf? ==> CellOf(env, e, false, c, m) == Eval(env, e, m).v
    ensures Low(dt, CellOf(env, e, false, c, m)) == Low(dt, Eval(env, e, m).v)
  {
    hide CellOf, Eval, Low, Fair;
    if !e.AddrOf? {
      CellShows(env, e, c, m);
      LowLow(dt, Width(e), CellOf(env, e, false, c, m));
    }
  }

  lemma {:induction false} BinaryLands(env: Env, e: Expr, s: State)
    requires e.Binary? && Fair(e) && Clean(env, e, false, s) && Room(s) && s.sp + Depth(e) <= STACK_MAX
    ensures Left(s, Leave(env, e, false, s), CellOf(env, e, false, Start(s), s.mem), Eval(env, e, s.mem))
    decreases e, 0
  {
    hide Do, Lands, Filled, Low, Alu;
    LeaveLands(env, e.l, false, s);
    if Eval(env, e, s.mem).Value? {
      var dt, x := Type(e.l), Eval(env, e.l, s.mem);
      var s1, c1 := Leave(env, e.l, false, s).value, CellOf(env, e.l, false, Start(s), s.mem);
      LandsRoom(s, s1, c1, x.m);
      LeaveLands(env, e.r, false, s1);
      WideEnough(e.l);
      Operand(env, e.l, dt, Start(s), s.mem);
      var y, c2 := Eval(env, e.r, x.m), CellOf(env, e.r, false, Start(s1), x.m);
      DoBin(env, e.op, dt, s, s1, Leave(env, e.r, false, s1).value, c1, c2, x.m, y.m);
    }
  }

  lemma {:induction false} ComplLands(env: Env, e: Expr, s: State)
    requires e.Compl? && Fair(e) && Clean(env, e, false, s) && Room(s) && s.sp + Depth(e) <= STACK_MAX
    ensures Left(s, Leave(env, e, false, s), CellOf(env, e, false, Start(s), s.mem), Eval(env, e, s.mem))
    decreases e, 0
  {
    hide Do, Lands, Filled, Low, Complement;
    LeaveLands(env, e.e, false, s);
    if Eval(env, e, s.mem).Value? {
      var x, c := Eval(env, e.e, s.mem), CellOf(env, e.e, false, Start(s), s.mem);
      WideEnough(e.e);
      Operand(env, e.e, Type(e.e), Start(s), s.mem);
      DoNot(env, Type(e.e), s, Leave(env, e.e, false, s).value, c, x.m);
    }
  }

  lemma WholeSees(c: Cell, v: Cell)
    ensures Sees(Dword, c, v) <==> c == v
  {
  }

  lemma {:induction false} DerefLands(env: Env, e: Expr, place: bool, s: State)
    requires e.Deref? && (if place then FairPlace(e) else Fair(e)) && Clean(env, e, place, s)
    requires Room(s) && s.sp + Depth(e) <= STACK_MAX
    ensures Left(s, Leave(env, e, place, s), CellOf(env, e, place, Start(s), s.mem), ResultOf(env, e, place, s.mem))
    ensures place && ResultOf(env, e, place, s.mem).Value? ==>
      CellOf(env, e, place, Start(s), s.mem) == ResultOf(env, e, place, s.mem).v
    decreases e, 0
  {
    hide Do, Lands, Filled, Low, Load, Sees;
    LeaveLands(env, e.ptr, false, s);
    var p, c := Eval(env, e.ptr, s.mem), CellOf(env, e.ptr, false, Start(s), s.mem);
    if p.Value? {
      WholeSees(c, p.v);
      if !place {
        DoLdStk(env, Type(e.ptr), s, Leave(env, e.ptr, false, s).value, c, p.m);
      }
    }
  }

  lemma {:induction false} AddrOfLands(env: Env, e: Expr, s: State)
    requires e.AddrOf? && Fair(e) && Clean(env, e, false, s) && Room(s) && s.sp + Depth(e) <= STACK_MAX
    ensures Left(s, Leave(env, e, false, s), CellOf(env, e, false, Start(s), s.mem), Eval(env, e, s.mem))
    ensures Eval(env, e, s.mem).Value? ==> CellOf(env, e, false, Start(s), s.mem) == Eval(env, e, s.mem).v
    decreases e, 0
  {
    hide Do, Lands, Filled, Low, Load;
    LeaveLands(env, e.obj, true, s);
  }

  lemma {:induction false} AssignLands(env: Env, e: Expr, s: State)
    requires e.Assign? && Fair(e) && Clean(env, e, false, s) && Room(s) && s.sp + Depth(e) <= STACK_MAX
    ensures Left(s, Leave(env, e, false, s), CellOf(env, e, false, Start(s), s.mem), Eval(env, e, s.mem))
    decreases e, 0
  {
    hide Do, Lands, Filled, Low, Load, Store;
    LeaveLands(env, e.place, true, s);
    if Eval(env, e, s.mem).Value? {
      var dt, p := Type(e.place), Place(env, e.place, s.mem);
      var s1 := Leave(env, e.place, true, s).value;
      LandsRoom(s, s1, p.v, p.m);
      LeaveLands(env, e.val, false, s1);
      var x, c := Eval(env, e.val, p.m), CellOf(env, e.val, false, Start(s1), p.m);
      StoreLands(env, dt, s, s1, Leave(env, e.val, false, s1).value, p.v, c, x.v, p.m, x.m);
    }
  }

  /** A store and the load of what was stored, through the address on the stack. */
  lemma StoreLands(env: Env, dt: Dt, s: State, s1: State, s2: State, a: Cell, c: Cell, v: Cell, m1: Memory, m2: Memory)
    requires Lands(s, s1, a, m1) && Lands(s1, s2, c, m2) && dt != Void && Mapped(m2, a, Size(dt)) && Sees(dt, c, v)
    ensures Left(s, Then(env, Do(env, St(dt), s2), LdStk(dt)), Filled(dt, a, Low(dt, v)),
                 Value(Low(dt, v), Store(m2, a, dt, Low(dt, v))))
  {
    hide Do, Lands, Filled, Low, Load, Store;
    DoSt(env, dt, s, s1, s2, a, c, m1, m2);
    var m := Store(m2, a, dt, Low(dt, v));
    LoadStore(m2, a, dt, Low(dt, v));
    DoLdStk(env, dt, s, Do(env, St(dt), s2).value, a, m);
  }

  lemma StepLands(env: Env, e: Expr, s: State)
    requires e.Step? && Fair(e) && Room(s) && s.sp + Depth(e) <= STACK_MAX
    ensures Left(s, Leave(env, e, false, s), CellOf(env, e, false, Start(s), s.mem), Eval(env, e, s.mem))
  {
    hide Do, DoAll, Lands, Filled, Low, Load, StepVar, Stepping;
    var a, dt := e.target.a, Type(e.target);
    if Eval(env, e, s.mem).Value? {
      if e.pre {
        PreLands(env, dt, a, e.down, s);
      } else {
        PostLands(env, dt, a, e.down, s);
        OldValue(env, e.down, dt, a, s.mem);
      }
    }
  }

  lemma OldValue(env: Env, down: bool, dt: Dt, a: Cell, m: Memory)
    requires Mapped(m, a, Size(dt)) && dt != Void
    ensures StepVar(env, false, down, dt, a, m).Value? && StepVar(env, false, down, dt, a, m).v == Load(m, a, dt)
  {
  }

  lemma {:induction false} ApplyLands(env: Env, e: Expr, s: State)
    requires e.Apply? && Fair(e) && Clean(env, e, false, s) && Room(s) && s.sp + Depth(e) <= STACK_MAX
    ensures Left(s, Leave(env, e, false, s), CellOf(env, e, false, Start(s), s.mem), Eval(env, e, s.mem))
    decreases e, 0
  {
    hide Do, Lands, Filled, Low, Load, Sees, LandsAll;
    LeaveLands(env, e.callee, false, s);
    if Eval(env, e, s.mem).Value? {
      var f, c := Eval(env, e.callee, s.mem), CellOf(env, e.callee, false, Start(s), s.mem);
      WholeSees(c, f.v);
      var s1 := Leave(env, e.callee, false, s).value;
      LandsRoom(s, s1, c, f.m);
      CleanIff(env, e.args, s1);
      ArgsLand(env, e.args, s1);
      var xs := EvalArgs(env, e.args, f.m);
      DoCall(env, s, s1, LeaveAll(env, e.args, s1).value, f.v, xs.vs, f.m, xs.m);
    }
  }

  /** Arguments that are clean themselves leave their cells one after the other. */
  lemma {:induction false} ArgsLand(env: Env, es: Exprs, s: State)
    requires FairArgs(es) && Inside(env, es, s) && Room(s) && s.sp + DepthArgs(es) <= STACK_MAX
    requires EvalArgs(env, es, s.mem).All?
    ensures LeaveAll(env, es, s).Some? && |CellsOf(env, es, s)| == Count(es)
    ensures LandsAll(s, LeaveAll(env, es, s).value, CellsOf(env, es, s), EvalArgs(env, es, s.mem).m)
    decreases es, 1
  {
    hide Do, Lands;
    if es.More? {
      hide LandsAll;
      LeaveLands(env, es.head, false, s);
      var x, c := Eval(env, es.head, s.mem), CellOf(env, es.head, false, Start(s), s.mem);
      var s1 := Leave(env, es.head, false, s).value;
      LandsRoom(s, s1, c, x.m);
      ArgsLand(env, es.tail, s1);
      var xs := EvalArgs(env, es.tail, x.m);
      LandsMore(s, s1, LeaveAll(env, es.tail, s1).value, c, CellsOf(env, es.tail, s1), x.m, xs.m);
    }
  }

  /** Arguments are clean if and only if they are so themselves and their cells are their values. */
  lemma {:induction false} CleanIff(env: Env, es: Exprs, s: State)
    requires FairArgs(es) && Room(s) && s.sp + DepthArgs(es) <= STACK_MAX && EvalArgs(env, es, s.mem).All?
    ensures CleanArgs(env, es, s) <==> Inside(env, es, s) && CellsOf(env, es, s) == EvalArgs(env, es, s.mem).vs
    decreases es, 0
  {
    hide Do, Lands, Sees, CellOf, Eval, Clean;
    if es.More? && Clean(env, es.head, false, s) {
      LeaveLands(env, es.head, false, s);
      var x, c := Eval(env, es.head, s.mem), CellOf(env, es.head, false, Start(s), s.mem);
      var s1 := Leave(env, es.head, false, s).value;
      LandsRoom(s, s1, c, x.m);
      WholeSees(c, x.v);
      CleanIff(env, es.tail, s1);
      var vs := EvalArgs(env, es.tail, x.m).vs;
      assert CellsOf(env, es, s) == [c] + CellsOf(env, es.tail, s1);
      assert CellsOf(env, es, s)[1..] == CellsOf(env, es.tail, s1) && ([x.v] + vs)[1..] == vs;
    }
  }
}
