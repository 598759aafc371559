/**
 The compiler of components/finsh/finsh_compiler.c as it works on its tables: the nodes of
 the syntax tree with their links, whose type fields the type check fills in, and the text
 segment, into which the code is written byte by byte.
 */
module FinshNodes {
  import opened FinshOps
  import opened FinshVm
  import opened FinshTree
  import opened FinshCorrect

  const NULL: nat := 0

  /** The node table: the fields of each node by its number. */
  datatype Table = Table(info: map<nat, Info>, dt: map<nat, Dt>, addr: map<nat, bool>,
                         child: map<nat, nat>, sibling: map<nat, nat>)

  predicate Has(tb: Table, i: nat) {
    i in tb.info && i in tb.dt && i in tb.addr && i in tb.child && i in tb.sibling
  }

  /** The nodes reachable from `i` are those of the tree. */
  ghost predicate Shows(tb: Table, i: nat, t: Tree)
    decreases t
  {
    if t.Nil? then i == NULL
    else
      && i != NULL && i == t.id && Has(tb, i)
      && tb.info[i] == t.info && tb.dt[i] == t.dt && tb.addr[i] == t.addr
      && Shows(tb, tb.child[i], t.child) && Shows(tb, tb.sibling[i], t.sibling)
  }

  ghost function Ids(t: Tree): set<nat> {
    if t.Nil? then {} else {t.id} + Ids(t.child) + Ids(t.sibling)
  }

  /** No node occurs twice. */
  ghost predicate Apart(t: Tree) {
    t.Node? ==> Ids(t.child) !! Ids(t.sibling) && t.id !in Ids(t.child) && t.id !in Ids(t.sibling)
                && Apart(t.child) && Apart(t.sibling)
  }

  /** Nothing outside `ids` differs. */
  ghost predicate SameOutside(tb: Table, tb': Table, ids: set<nat>) {
    && tb'.info == tb.info && tb'.child == tb.child
    && forall i :: i !in ids && Has(tb, i) ==>
      Has(tb', i) && tb'.dt[i] == tb.dt[i] && tb'.addr[i] == tb.addr[i] && tb'.sibling[i] == tb.sibling[i]
  }

  lemma {:induction false} ShowsFrame(tb: Table, tb': Table, ids: set<nat>, i: nat, t: Tree)
    requires Shows(tb, i, t) && SameOutside(tb, tb', ids) && ids !! Ids(t)
    ensures Shows(tb', i, t)
    decreases t
  {
    if t.Node? {
      ShowsFrame(tb, tb', ids, tb.child[i], t.child);
      ShowsFrame(tb, tb', ids, tb.sibling[i], t.sibling);
    }
  }

  lemma SameTwice(tb: Table, tb1: Table, tb2: Table, ids1: set<nat>, ids2: set<nat>)
    requires SameOutside(tb, tb1, ids1) && SameOutside(tb1, tb2, ids2)
    ensures SameOutside(tb, tb2, ids1 + ids2)
  {
  }

  lemma SameMore(tb: Table, tb': Table, ids: set<nat>, more: set<nat>)
    requires SameOutside(tb, tb', ids) && ids <= more
    ensures SameOutside(tb, tb', more)
  {
  }

  lemma {:induction false} AnnotateKeepsIds(t: Tree, isAddr: bool)
    ensures Ids(Annotate(t, isAddr)) == Ids(t)
    ensures Apart(t) ==> Apart(Annotate(t, isAddr))
    decreases t
  {
    if t.Node? {
      AnnotateKeepsIds(t.child, ChildMode(t.info.kind, isAddr));
      AnnotateKeepsIds(t.sibling, false);
    }
  }

  // ----- the steps of the type check on the table -----

  /** After the child and the sibling have been checked, only the node's own fields remain. */
  ghost predicate Below(tb0: Table, tb: Table, i: nat, t: Tree, isAddr: bool)
    requires t.Node?
  {
    && Shows(tb0, i, t) && Apart(t) && Has(tb, i)
    && SameOutside(tb0, tb, Ids(t.child) + Ids(t.sibling))
    && Shows(tb, tb0.child[i], Annotate(t.child, ChildMode(t.info.kind, isAddr)))
    && Shows(tb, tb0.sibling[i], Annotate(t.sibling, false))
  }

  lemma ChildChecked(tb0: Table, tb: Table, i: nat, t: Tree, mode: bool)
    requires t.Node? && Shows(tb0, i, t) && Apart(t)
    requires SameOutside(tb0, tb, Ids(t.child)) && Shows(tb, tb0.child[i], Annotate(t.child, mode))
    ensures Has(tb, i) && tb.sibling[i] == tb0.sibling[i] && Shows(tb, tb.sibling[i], t.sibling)
  {
    ShowsFrame(tb0, tb, Ids(t.child), tb0.sibling[i], t.sibling);
  }

  lemma SiblingChecked(tb0: Table, tb1: Table, tb: Table, i: nat, t: Tree, isAddr: bool)
    requires t.Node? && Shows(tb0, i, t) && Apart(t)
    requires SameOutside(tb0, tb1, Ids(t.child))
    requires Shows(tb1, tb0.child[i], Annotate(t.child, ChildMode(t.info.kind, isAddr)))
    requires SameOutside(tb1, tb, Ids(t.sibling)) && Shows(tb, tb0.sibling[i], Annotate(t.sibling, false))
    ensures Below(tb0, tb, i, t, isAddr)
  {
    hide Annotate;
    SameTwice(tb0, tb1, tb, Ids(t.child), Ids(t.sibling));
    AnnotateKeepsIds(t.child, ChildMode(t.info.kind, isAddr));
    ShowsFrame(tb1, tb, Ids(t.sibling), tb0.child[i], Annotate(t.child, ChildMode(t.info.kind, isAddr)));
  }

  /** Setting the node's own fields disturbs nothing below or behind it. */
  lemma FieldsFrame(tb0: Table, tb: Table, tb': Table, i: nat, t: Tree, isAddr: bool)
    requires t.Node? && Below(tb0, tb, i, t, isAddr)
    requires tb' == tb.(dt := tb'.dt, addr := tb'.addr) && i in tb'.dt && i in tb'.addr
    requires SameOutside(tb, tb', {i})
    ensures Shows(tb', tb0.child[i], Annotate(t.child, ChildMode(t.info.kind, isAddr)))
    ensures Shows(tb', tb0.sibling[i], Annotate(t.sibling, false))
    ensures SameOutside(tb0, tb', Ids(t)) && tb'.child == tb0.child
  {
    hide Annotate;
    AnnotateKeepsIds(t.child, ChildMode(t.info.kind, isAddr));
    AnnotateKeepsIds(t.sibling, false);
    ShowsFrame(tb, tb', {i}, tb0.child[i], Annotate(t.child, ChildMode(t.info.kind, isAddr)));
    ShowsFrame(tb, tb', {i}, tb0.sibling[i], Annotate(t.sibling, false));
    SameTwice(tb0, tb, tb', Ids(t.child) + Ids(t.sibling), {i});
    SameMore(tb0, tb', Ids(t.child) + Ids(t.sibling) + {i}, Ids(t));
  }

  lemma OneField(tb: Table, tb': Table, i: nat)
    requires Has(tb, i) && tb' == tb.(dt := tb'.dt, addr := tb'.addr)
    requires i in tb'.dt && i in tb'.addr && tb'.dt == tb.dt[i := tb'.dt[i]] && tb'.addr == tb.addr[i := tb'.addr[i]]
    ensures SameOutside(tb, tb', {i}) && Has(tb', i)
  {
  }

  lemma BelowKeeps(tb0: Table, tb: Table, i: nat, t: Tree, isAddr: bool)
    requires t.Node? && Below(tb0, tb, i, t, isAddr)
    ensures i == t.id != NULL && Has(tb0, i) && Has(tb, i) && tb.info[i] == t.info
    ensures tb.child[i] == tb0.child[i] && tb.sibling[i] == tb0.sibling[i]
  {
  }

  /** Setting the node's own fields completes the annotation. */
  lemma NodeChecked(tb0: Table, tb: Table, tb': Table, i: nat, t: Tree, isAddr: bool)
    requires t.Node? && Below(tb0, tb, i, t, isAddr)
    requires tb' == tb.(dt := tb'.dt, addr := tb'.addr)
    requires tb'.addr == tb.addr[i := t.addr || (isAddr && !PlainSyscall(t))]
    requires tb'.dt == tb.dt[i := NodeDt(t, Annotate(t.child, ChildMode(t.info.kind, isAddr)))]
    ensures Shows(tb', i, Annotate(t, isAddr)) && SameOutside(tb0, tb', Ids(t))
  {
    hide Annotate, NodeDt, PlainSyscall, Below, SameOutside, Ids;
    AnnotatedNode(t, isAddr);
    AnnotatedId(t, isAddr);
    BelowKeeps(tb0, tb, i, t, isAddr);
    OneField(tb, tb', i);
    FieldsFrame(tb0, tb, tb', i, t, isAddr);
  }

  lemma AnnotatedId(t: Tree, isAddr: bool)
    requires t.Node?
    ensures Annotate(t, isAddr).Node? && Annotate(t, isAddr).id == t.id
  {
  }

  /** What the type check reads of the node when everything below is done. */
  lemma BelowReads(tb0: Table, tb: Table, i: nat, t: Tree, isAddr: bool)
    requires t.Node? && Below(tb0, tb, i, t, isAddr)
    ensures Has(tb, i) && tb.info[i] == t.info && tb.addr[i] == t.addr && tb.dt[i] == t.dt
    ensures tb.child[i] == tb0.child[i] && (tb.child[i] != NULL <==> t.child.Node?)
    ensures var c' := Annotate(t.child, ChildMode(t.info.kind, isAddr));
      c'.Node? ==> Has(tb, tb.child[i]) && tb.dt[tb.child[i]] == c'.dt && tb.child[i] != i
  {
    AnnotateKeepsIds(t.child, ChildMode(t.info.kind, isAddr));
  }

  // ----- code -----

  /** A part of the code fits where the whole does. */
  lemma PartFits(done: seq<Instr>, i: Instr, all: seq<Instr>)
    requires done + [i] <= all
    ensures EncodeAll(done + [i]) == EncodeAll(done) + Encode(i)
    ensures |EncodeAll(done + [i])| <= |EncodeAll(all)|
  {
    EncodeAppend(done, [i]);
    assert EncodeAll([i]) == Encode(i) + EncodeAll([i][1..]);
    assert [i][1..] == [];
    EncodeAppend(done + [i], all[|done| + 1..]);
    assert done + [i] + all[|done| + 1..] == all;
  }

  lemma EncodeParts(a: seq<Instr>, b: seq<Instr>, c: seq<Instr>)
    ensures EncodeAll(a + b + c) == EncodeAll(a) + EncodeAll(b) + EncodeAll(c)
  {
    EncodeAppend(a + b, c);
    EncodeAppend(a, b);
  }
}

module FinshCompiler {
  import opened FinshOps
  import opened FinshVm
  import opened FinshLang
  import opened FinshTree
  import opened FinshNodes
  import opened FinshCells
  import opened FinshCorrect

  class Compiler {
    const info: map<nat, Info>
    const child: map<nat, nat>
    var sibling: map<nat, nat>
    var dt: map<nat, Dt>
    var addr: map<nat, bool>
    const text: array<Octet>
    const stack: array<Cell>
    var pc: nat

    constructor (tb: Table, text: array<Octet>, stack: array<Cell>)
      requires text.Length == TEXT_MAX && stack.Length == STACK_MAX
      ensures Now() == tb && this.text == text && this.stack == stack && Fits()
    {
      info, child, sibling, dt, addr := tb.info, tb.child, tb.sibling, tb.dt, tb.addr;
      this.text, this.stack, pc := text, stack, 0;
    }

    ghost predicate Fits()
      reads this`pc
    {
      text.Length == TEXT_MAX && stack.Length == STACK_MAX && pc <= TEXT_MAX
    }

    ghost function Now(): Table
      reads this`sibling, this`dt, this`addr
    {
      Table(info, dt, addr, child, sibling)
    }

    /** finsh_type_check: the tree below and behind node `i` is annotated in place. */
    method TypeCheck(i: nat, isAddr: bool, ghost t: Tree)
      requires Shows(Now(), i, t) && Apart(t)
      modifies this`dt, this`addr
      ensures Shows(Now(), i, Annotate(t, isAddr)) && SameOutside(old(Now()), Now(), Ids(t))
      decreases t
    {
      hide Annotate, SameOutside, Below, NodeDt, Shows, Apart, Ids, PlainSyscall;
      if i == NULL {
        NoTree(Now(), t, isAddr);
        return;
      }
      ghost var tb0 := Now();
      ShowsNode(tb0, i, t);
      var kind := info[i].kind;
      if kind == NAssign || kind == NPreInc || kind == NPreDec || kind == NGetAddr {
        TypeCheck(child[i], true, t.child);
      } else if kind == NGetValue && isAddr {
        TypeCheck(child[i], false, t.child);
      } else {
        TypeCheck(child[i], isAddr, t.child);
      }
      ghost var tb1 := Now();
      ChildChecked(tb0, tb1, i, t, ChildMode(kind, isAddr));
      TypeCheck(sibling[i], false, t.sibling);
      SiblingChecked(tb0, tb1, Now(), i, t, isAddr);
      SetFields(i, isAddr, t, tb0);
    }

    /** The part of finsh_type_check behind the two recursive calls: the node's own fields. */
    method SetFields(i: nat, isAddr: bool, ghost t: Tree, ghost tb0: Table)
      requires t.Node? && Below(tb0, Now(), i, t, isAddr)
      modifies this`dt, this`addr
      ensures Shows(Now(), i, Annotate(t, isAddr)) && SameOutside(tb0, Now(), Ids(t))
    {
      hide Annotate, SameOutside, Below, NodeDt, Shows, Apart, Ids, PlainSyscall, ChildMode;
      ghost var tb := Now();
      BelowReads(tb0, tb, i, t, isAddr);
      CheckedIs(t, isAddr);
      if !(info[i].cls == IsSyscall && !addr[i]) {
        addr := addr[i := addr[i] || isAddr];
      }
      AddrSet(tb.addr, addr, i, t, isAddr);
      if child[i] != NULL {
        dt := dt[i := dt[child[i]]];
      } else {
        SetLeafType(i, t);
      }
      NodeChecked(tb0, tb, Now(), i, t, isAddr);
    }

    /** The end of finsh_type_check, for nodes without children. */
    method SetLeafType(i: nat, ghost t: Tree)
      requires i in info && i in dt && t.Node? && t.info == info[i] && t.dt == dt[i]
      modifies this`dt
      ensures dt == old(dt)[i := NodeDt(t, Nil)]
    {
      var node := info[i];
      if node.kind == NId {
        if node.cls == IsVar || node.cls == IsSysVar {
          match node.ty {
            case TVoid => dt := dt[i := Void];
            case TChar => dt := dt[i := Byte];
            case TUChar => dt := dt[i := Byte];
            case TShort => dt := dt[i := Word];
            case TUShort => dt := dt[i := Word];
            case TUnknown =>
            case _ => dt := dt[i := Dword];
          }
        }
      } else if node.kind == NChar {
        dt := dt[i := Byte];
      } else if node.kind == NInt || node.kind == NLong || node.kind == NString || node.kind == NNull {
        dt := dt[i := Dword];
      }
      assert old(dt) == old(dt)[i := old(dt)[i]];
    }

    // ----- finsh_compile -----

    /** finsh_code_byte, finsh_code_word, finsh_code_dword */
    method CodeByte(x: Octet)
      requires Fits() && pc < TEXT_MAX
      modifies this`pc, text
      ensures Fits() && Extends(old(text[..]), old(pc), text[..], pc, [x])
    {
      text[pc] := x;
      pc := pc + 1;
    }

    method CodeWord(v: Cell)
      requires Fits() && pc + 2 <= TEXT_MAX
      modifies this`pc, text
      ensures Fits() && Extends(old(text[..]), old(pc), text[..], pc, Bytes16(v))
    {
      hide ByteOf;
      text[pc] := ByteOf(v, 0);
      text[pc + 1] := ByteOf(v, 1);
      pc := pc + 2;
    }

    method CodeDword(v: Cell)
      requires Fits() && pc + 4 <= TEXT_MAX
      modifies this`pc, text
      ensures Fits() && Extends(old(text[..]), old(pc), text[..], pc, Bytes32(v))
    {
      hide ByteOf;
      text[pc] := ByteOf(v, 0);
      text[pc + 1] := ByteOf(v, 1);
      text[pc + 2] := ByteOf(v, 2);
      text[pc + 3] := ByteOf(v, 3);
      pc := pc + 4;
    }

    method CodeConstant(dt: Dt, v: Cell)
      requires Fits() && pc + Size(dt) <= TEXT_MAX
      modifies this`pc, text
      ensures Fits() && Extends(old(text[..]), old(pc), text[..], pc, Constant(dt, v))
    {
      hide ByteOf, Bytes16, Bytes32;
      match dt {
        case Void =>
        case Byte => CodeByte(ByteOf(v, 0));
        case Word => CodeWord(v);
        case Dword => CodeDword(v);
      }
    }

    /** One instruction: its opcode and its operand. */
    method CodeInstr(i: Instr)
      requires Fits() && pc + |Encode(i)| <= TEXT_MAX
      modifies this`pc, text
      ensures Fits() && Extends(old(text[..]), old(pc), text[..], pc, Encode(i))
    {
      hide ByteOf, Constant, Bytes32, Bytes16, Extends;
      ghost var t0, p0 := text[..], pc;
      ghost var op: Octet, operand: seq<Octet> := Encode(i)[0], Encode(i)[1..];
      match i {
        case Noop => CodeByte(0x00);
        case Bin(o, dt) => CodeByte(BinCode(o) + Offset(dt));
        case Not(dt) => CodeByte(0x19 + Offset(dt));
        case Ld(dt, v) => CodeByte(0x22 + Offset(dt));
        case LdVal(dt, a) => CodeByte(0x25 + Offset(dt));
        case St(dt) => CodeByte(0x28 + Offset(dt));
        case Pop => CodeByte(0x2B);
        case Call(n) => CodeByte(0x2C);
        case LdStk(dt) => CodeByte(0x2D + Offset(dt));
      }
      ghost var t1, p1 := text[..], pc;
      ExtendsLength(t0, p0, t1, p1, [op]);
      CodeOperand(i);
      ExtendsTwice(t0, p0, t1, p1, text[..], pc, [op], operand);
      assert [op] + operand == Encode(i);
    }

    method CodeOperand(i: Instr)
      requires Fits() && pc + |Encode(i)| - 1 <= TEXT_MAX
      modifies this`pc, text
      ensures Fits() && Extends(old(text[..]), old(pc), text[..], pc, Encode(i)[1..])
    {
      hide ByteOf, Constant, Bytes32, Bytes16, BinCode;
      ghost var operand: seq<Octet> := Encode(i)[1..];
      if i.Ld? {
        assert operand == Constant(i.dt, i.v);
        CodeConstant(i.dt, i.v);
      } else if i.LdVal? {
        assert operand == Bytes32(i.a);
        CodeDword(i.a);
      } else if i.Call? {
        assert operand == [i.n];
        CodeByte(i.n);
      }
    }

    /** The next instruction of `all`, whose code starts behind the first p0 bytes of `t0`. */
    method Emit(i: Instr, ghost t0: seq<Octet>, ghost p0: nat, ghost done: seq<Instr>, ghost all: seq<Instr>)
      requires Fits() && Extends(t0, p0, text[..], pc, EncodeAll(done)) && done + [i] <= all
      requires p0 + |EncodeAll(all)| <= TEXT_MAX
      modifies this`pc, text
      ensures Fits() && Extends(t0, p0, text[..], pc, EncodeAll(done + [i]))
    {
      hide EncodeAll, Encode, Extends;
      ghost var t1, p1 := text[..], pc;
      ExtendsLength(t0, p0, t1, p1, EncodeAll(done));
      PartFits(done, i, all);
      CodeInstr(i);
      ExtendsTwice(t0, p0, t1, p1, text[..], pc, EncodeAll(done), Encode(i));
    }

    /** A single instruction. */
    method EmitOnly(i: Instr)
      requires Fits() && pc + |EncodeAll([i])| <= TEXT_MAX
      modifies this`pc, text
      ensures Fits() && Extends(old(text[..]), old(pc), text[..], pc, EncodeAll([i]))
    {
      hide EncodeAll, Encode, Extends;
      NothingYet(text[..], pc);
      assert [] + [i] == [i];
      Emit(i, text[..], pc, [], [i]);
    }

    /** Node `i` and its child have the fields of `t`. */
    ghost predicate At(i: nat, t: Tree)
      reads this`sibling, this`dt, this`addr
    {
      && t.Node? && Has(Now(), i) && info[i] == t.info && dt[i] == t.dt && addr[i] == t.addr
      && (child[i] == NULL <==> t.child.Nil?)
      && (t.child.Node? ==>
            Has(Now(), child[i]) && info[child[i]] == t.child.info && dt[child[i]] == t.child.dt
            && Shows(Now(), sibling[child[i]], t.child.sibling))
    }

    /** The identifier case of finsh_compile. */
    method CompileId(i: nat, ghost t: Tree)
      requires Fits() && At(i, t) && t.info.kind == NId && pc + |EncodeAll(Own(t))| <= TEXT_MAX
      modifies this`pc, text
      ensures Fits() && Extends(old(text[..]), old(pc), text[..], pc, EncodeAll(Own(t)))
    {
      hide EncodeAll, Encode, Extends;
      ghost var t0, p0, all := text[..], pc, Own(t);
      NothingYet(t0, p0);
      if info[i].cls == IsSyscall {
        EmitOnly(Ld(Dword, info[i].at));
      } else {
        var a := if info[i].cls == IsSysVar then info[i].at else info[i].cell;
        if CodeDt(info[i].ty) != Void {
          if addr[i] {
            EmitOnly(Ld(Dword, a));
          } else {
            EmitOnly(LdVal(CodeDt(info[i].ty), a));
          }
        }
      }
    }

    /** The ++ and -- cases of finsh_compile. */
    method CompileStep(i: nat, ghost t: Tree, pre: bool, down: bool)
      requires Fits() && At(i, t) && pc + |EncodeAll(Own(t))| <= TEXT_MAX
      requires t.info.kind == if pre then if down then NPreDec else NPreInc else if down then NDec else NInc
      modifies this`pc, text
      ensures Fits() && Extends(old(text[..]), old(pc), text[..], pc, EncodeAll(Own(t)))
    {
      hide EncodeAll, Encode, Extends, Own;
      ghost var t0, p0, all := text[..], pc, Own(t);
      NothingYet(t0, p0);
      StepCode(t, pre, down);
      if child[i] != NULL && info[child[i]].kind == NId {
        var a, dt := info[child[i]].cell, dt[i];
        if dt != Void {
          ghost var done: seq<Instr> := [];
          if !pre {
            Emit(Ld(Dword, a), t0, p0, done, all);
            done := done + [Ld(Dword, a)];
          }
          Emit(LdVal(dt, a), t0, p0, done, all);
          done := done + [LdVal(dt, a)];
          Emit(Ld(dt, 1), t0, p0, done, all);
          done := done + [Ld(dt, 1)];
          Emit(Bin(if down then Sub else Add, dt), t0, p0, done, all);
          done := done + [Bin(if down then Sub else Add, dt)];
          Emit(St(dt), t0, p0, done, all);
          done := done + [St(dt)];
          var last := if pre then LdStk(Dword) else Pop;
          Emit(last, t0, p0, done, all);
          done := done + [last];
          assert done == all;
        }
      }
    }

    /** The number of nodes from `i` on, as the call case counts the parameters. */
    method CountSiblings(i: nat, ghost t: Tree) returns (n: nat)
      requires Shows(Now(), i, t)
      ensures n == Length(t)
    {
      n := 0;
      var at := i;
      ghost var rest := t;
      while at != NULL
        invariant Shows(Now(), at, rest) && n + Length(rest) == Length(t)
        decreases rest
      {
        n := n + 1;
        at := sibling[at];
        rest := rest.sibling;
      }
    }

    /** The switch of finsh_compile: what is emitted for node `i` itself. */
    method CompileNode(i: nat, ghost t: Tree)
      requires Fits() && At(i, t) && pc + |EncodeAll(Own(t))| <= TEXT_MAX
      modifies this`pc, text
      ensures Fits() && Extends(old(text[..]), old(pc), text[..], pc, EncodeAll(Own(t)))
    {
      hide EncodeAll, Encode, Extends, Bump;
      ghost var t0, p0, all := text[..], pc, Own(t);
      NothingYet(t0, p0);
      var node := info[i];
      match node.kind {
        case NId => CompileId(i, t);
        case NChar => EmitOnly(Ld(Byte, node.value % 0x100));
        case NInt => EmitOnly(Ld(Dword, node.value));
        case NLong => EmitOnly(Ld(Dword, node.value));
        case NString => EmitOnly(Ld(Dword, node.value));
        case NNull => EmitOnly(Ld(Dword, node.value));
        case NBinary(op) =>
          if dt[i] != Void {
            EmitOnly(Bin(op, dt[i]));
          }
        case NBitwise =>
          if dt[i] != Void {
            EmitOnly(Not(dt[i]));
          }
        case NFunc =>
          if child[i] != NULL {
            var parameters := CountSiblings(sibling[child[i]], t.child.sibling);
            EmitOnly(Call(parameters % 0x100));
          }
        case NAssign =>
          if child[i] != NULL && (info[child[i]].kind == NId || info[child[i]].kind == NGetValue) {
            var dt := dt[child[i]];
            if dt != Void {
              Emit(St(dt), t0, p0, [], all);
              Emit(LdStk(dt), t0, p0, [] + [St(dt)], all);
              assert [] + [St(dt)] + [LdStk(dt)] == all;
            }
          }
        case NPreInc => CompileStep(i, t, true, false);
        case NPreDec => CompileStep(i, t, true, true);
        case NInc => CompileStep(i, t, false, false);
        case NDec => CompileStep(i, t, false, true);
        case NGetValue =>
          if !addr[i] {
            if dt[i] != Void {
              EmitOnly(LdStk(dt[i]));
            }
          }
        case NSysNull =>
          CodeZeros(t0, p0, all);
        case _ =>
      }
    }

    /** finsh_code_dword(0) */
    method CodeZeros(ghost t0: seq<Octet>, ghost p0: nat, ghost all: seq<Instr>)
      requires Fits() && all == [Noop, Noop, Noop, Noop] && p0 == pc && t0 == text[..]
      requires p0 + |EncodeAll(all)| <= TEXT_MAX
      modifies this`pc, text
      ensures Fits() && Extends(t0, p0, text[..], pc, EncodeAll(all))
    {
      ZeroCode();
      CodeDword(0);
    }

    /** finsh_compile: the code of the tree below and behind node `i` is written. */
    method Compile(i: nat, ghost t: Tree)
      requires Fits() && Shows(Now(), i, t) && pc + |EncodeAll(Chain(t))| <= TEXT_MAX
      modifies this`pc, text
      ensures Fits() && Extends(old(text[..]), old(pc), text[..], pc, EncodeAll(Chain(t)))
      decreases t
    {
      hide EncodeAll, Extends, Own;
      ghost var t0, p0 := text[..], pc;
      NothingYet(t0, p0);
      if i != NULL {
        EncodeParts(Chain(t.child), Own(t), Chain(t.sibling));
        NoCode();
        if child[i] != NULL {
          Compile(child[i], t.child);
        }
        ghost var t1, p1 := text[..], pc;
        ExtendsLength(t0, p0, t1, p1, EncodeAll(Chain(t.child)));
        CompileNode(i, t);
        ExtendsTwice(t0, p0, t1, p1, text[..], pc, EncodeAll(Chain(t.child)), EncodeAll(Own(t)));
        ghost var t2, p2 := text[..], pc;
        ExtendsLength(t0, p0, t2, p2, EncodeAll(Chain(t.child)) + EncodeAll(Own(t)));
        ExtendsNot(t2, p2);
        if sibling[i] != NULL {
          Compile(sibling[i], t.sibling);
        }
        ExtendsTwice(t0, p0, t2, p2, text[..], pc, EncodeAll(Chain(t.child)) + EncodeAll(Own(t)),
          EncodeAll(Chain(t.sibling)));
      }
    }

    /** finsh_compiler_run: type check, then the statements one by one, popped in between. */
    method CompilerRun(node: nat, ghost t: Tree)
      requires Fits() && Shows(Now(), node, t) && Apart(t)
      requires |EncodeAll(Statements(Annotate(t, false)))| <= TEXT_MAX
      modifies this, text, stack
      ensures Fits() && Loaded(text[..], EncodeAll(Statements(Annotate(t, false))))
      ensures stack[0] == 0 && stack[1..] == old(stack[1..])
    {
      hide EncodeAll, Encode, Extends, Statements, Chain, Code, Annotate, Shows, Apart;
      TypeCheck(node, false, t);
      AnnotateKeepsIds(t, false);
      ClearText();
      stack[0] := 0;
      pc := 0;
      ghost var t0, all := text[..], Statements(Annotate(t, false));
      ghost var rest, done: seq<Instr> := Annotate(t, false), [];
      NothingYet(t0, 0);
      var next := node;
      while next != NULL
        modifies this`sibling, this`pc, text
        invariant Fits() && Shows(Now(), next, rest) && Apart(rest)
        invariant Extends(t0, 0, text[..], pc, EncodeAll(done)) && done + Statements(rest) == all
        decreases rest
      {
        next, done := CompileStatement(next, rest, t0, done, all);
        rest := rest.sibling;
      }
      NoStatements(Now(), rest);
      assert done == all;
      LoadedWhole(t0, text[..], pc, EncodeAll(all));
    }

    /** The body of the loop of finsh_compiler_run. */
    method CompileStatement(current: nat, ghost rest: Tree, ghost t0: seq<Octet>, ghost done: seq<Instr>,
        ghost all: seq<Instr>)
      returns (next: nat, ghost done': seq<Instr>)
      requires Fits() && current != NULL && Shows(Now(), current, rest) && Apart(rest)
      requires Extends(t0, 0, text[..], pc, EncodeAll(done)) && done + Statements(rest) == all
      requires |EncodeAll(all)| <= TEXT_MAX
      modifies this`sibling, this`pc, text
      ensures Fits() && rest.Node? && Shows(Now(), next, rest.sibling) && Apart(rest.sibling)
      ensures Extends(t0, 0, text[..], pc, EncodeAll(done')) && done' + Statements(rest.sibling) == all
    {
      hide EncodeAll, Encode, Extends, Statements, Chain, Code, Shows, Apart;
      ShowsNode(Now(), current, rest);
      next := sibling[current];
      ShowsNil(Now(), next, rest.sibling);
      ghost var one := CutOff(Now(), current, rest);
      sibling := sibling[current := NULL];
      ghost var t1, p1, code := text[..], pc, Chain(one);
      StatementParts(rest, one);
      ExtendsLength(t0, 0, t1, p1, EncodeAll(done));
      PrefixFits(done, code, all);
      Compile(current, one);
      ExtendsTwice(t0, 0, t1, p1, text[..], pc, EncodeAll(done), EncodeAll(code));
      EncodeAppend(done, code);
      done' := done + code;
      if next != NULL {
        Emit(Pop, t0, 0, done', all);
        done' := done' + [Pop];
      }
    }

    method ClearText()
      requires Fits()
      modifies text
      ensures forall k :: 0 <= k < TEXT_MAX ==> text[k] == 0
    {
      var i := 0;
      while i < TEXT_MAX
        invariant 0 <= i <= TEXT_MAX && forall k :: 0 <= k < i ==> text[k] == 0
      {
        text[i] := 0;
        i := i + 1;
      }
    }
  }

  /** A node taken off the chain: its sibling link is cleared, the rest stays a chain. */
  lemma CutOff(tb: Table, i: nat, t: Tree) returns (one: Tree)
    requires Shows(tb, i, t) && Apart(t) && i != NULL
    ensures t.Node? && one == Node(t.id, t.info, t.dt, t.addr, t.child, Nil) && Has(tb, i)
    ensures var tb' := tb.(sibling := tb.sibling[i := NULL]);
      Shows(tb', i, one) && Shows(tb', tb.sibling[i], t.sibling)
    ensures Apart(t.sibling)
  {
    one := Node(t.id, t.info, t.dt, t.addr, t.child, Nil);
    var tb' := tb.(sibling := tb.sibling[i := NULL]);
    assert SameOutside(tb, tb', {i});
    ShowsFrame(tb, tb', {i}, tb.child[i], t.child);
    ShowsFrame(tb, tb', {i}, tb.sibling[i], t.sibling);
  }

  lemma ShowsNil(tb: Table, i: nat, t: Tree)
    requires Shows(tb, i, t)
    ensures i == NULL <==> t.Nil?
  {
  }

  lemma StatementParts(t: Tree, one: Tree)
    requires t.Node? && one == Node(t.id, t.info, t.dt, t.addr, t.child, Nil)
    ensures Statements(t) == if t.sibling.Nil? then Chain(one) else Chain(one) + [Pop] + Statements(t.sibling)
    ensures t.sibling.Nil? ==> Statements(t.sibling) == []
  {
    hide Own;
    assert Chain(one) == Code(one) + [];
    assert Code(one) == Chain(t.child) + Own(one);
    SameOwn(t, one);
  }

  lemma SameOwn(t: Tree, one: Tree)
    requires t.Node? && one == Node(t.id, t.info, t.dt, t.addr, t.child, Nil)
    ensures Own(one) == Own(t)
  {
  }

  lemma NoStatements(tb: Table, t: Tree)
    requires Shows(tb, NULL, t)
    ensures Statements(t) == []
  {
  }

  lemma PrefixFits(a: seq<Instr>, b: seq<Instr>, all: seq<Instr>)
    requires a + b <= all
    ensures |EncodeAll(a)| + |EncodeAll(b)| <= |EncodeAll(all)|
  {
    hide EncodeAll;
    EncodeParts(a, b, all[|a + b|..]);
    assert a + b + all[|a + b|..] == all;
  }

  lemma LoadedWhole(t0: seq<Octet>, t1: seq<Octet>, pc: nat, code: seq<Octet>)
    requires |t0| == TEXT_MAX && (forall k :: 0 <= k < TEXT_MAX ==> t0[k] == 0) && Extends(t0, 0, t1, pc, code)
    ensures Loaded(t1, code)
  {
  }

  lemma NothingYet(t0: seq<Octet>, p0: nat)
    requires p0 <= |t0|
    ensures Extends(t0, p0, t0, p0, EncodeAll([]))
  {
  }

  lemma NoCode()
    ensures EncodeAll([]) == []
  {
  }

  lemma ZeroCode()
    ensures EncodeAll([Noop, Noop, Noop, Noop]) == Bytes32(0)
  {
    var a: seq<Instr> := [Noop, Noop, Noop, Noop];
    assert EncodeAll(a) == [0] + EncodeAll(a[1..]);
    assert EncodeAll(a[1..]) == [0] + EncodeAll(a[1..][1..]);
    assert EncodeAll(a[1..][1..]) == [0] + EncodeAll(a[1..][1..][1..]);
    assert EncodeAll(a[1..][1..][1..]) == [0] + EncodeAll(a[1..][1..][1..][1..]);
  }

  /** The code of ++ and -- instruction by instruction. */
  lemma StepCode(t: Tree, pre: bool, down: bool)
    requires t.Node?
    requires t.info.kind == if pre then if down then NPreDec else NPreInc else if down then NDec else NInc
    ensures var a, op := ChildCell(t), if down then Sub else Add;
      Own(t) == if t.child.Nil? || t.child.info.kind != NId || t.dt == Void then []
                else if pre then [LdVal(t.dt, a), Ld(t.dt, 1), Bin(op, t.dt), St(t.dt), LdStk(Dword)]
                else [Ld(Dword, a), LdVal(t.dt, a), Ld(t.dt, 1), Bin(op, t.dt), St(t.dt), Pop]
  {
  }

  /** `bs` was written behind the first p0 bytes of t0; nothing behind it changed. */
  ghost predicate Extends(t0: seq<Octet>, p0: nat, t1: seq<Octet>, p1: nat, bs: seq<Octet>) {
    && p1 == p0 + |bs| <= |t1| == |t0| && t1[..p1] == t0[..p0] + bs
    && forall k :: p1 <= k < |t1| ==> t1[k] == t0[k]
  }

  lemma ExtendsLength(t0: seq<Octet>, p0: nat, t1: seq<Octet>, p1: nat, bs: seq<Octet>)
    requires Extends(t0, p0, t1, p1, bs)
    ensures p1 == p0 + |bs|
  {
  }

  lemma ExtendsNot(t0: seq<Octet>, p0: nat)
    requires p0 <= |t0|
    ensures Extends(t0, p0, t0, p0, [])
  {
  }

  lemma ExtendsTwice(t0: seq<Octet>, p0: nat, t1: seq<Octet>, p1: nat, t2: seq<Octet>, p2: nat, a: seq<Octet>,
      b: seq<Octet>)
    requires Extends(t0, p0, t1, p1, a) && Extends(t1, p1, t2, p2, b)
    ensures Extends(t0, p0, t2, p2, a + b)
  {
  }

  lemma NoTree(tb: Table, t: Tree, isAddr: bool)
    requires Shows(tb, NULL, t)
    ensures t.Nil? && Annotate(t, isAddr) == Nil && SameOutside(tb, tb, Ids(t))
  {
  }

  lemma ShowsNode(tb: Table, i: nat, t: Tree)
    requires Shows(tb, i, t) && i != NULL
    ensures t.Node? && Has(tb, i) && tb.info[i] == t.info
    ensures Shows(tb, tb.child[i], t.child) && Shows(tb, tb.sibling[i], t.sibling)
    ensures Apart(t) ==> Apart(t.child) && Apart(t.sibling)
  {
  }

  lemma AddrSet(a: map<nat, bool>, a': map<nat, bool>, i: nat, t: Tree, isAddr: bool)
    requires t.Node? && i in a && a[i] == t.addr
    requires a' == if t.info.cls == IsSyscall && !a[i] then a else a[i := a[i] || isAddr]
    ensures a' == a[i := t.addr || (isAddr && !PlainSyscall(t))]
  {
  }

  /** The type of a node is its child's, if it has one. */
  lemma CheckedIs(t: Tree, isAddr: bool)
    requires t.Node?
    ensures var c' := Annotate(t.child, ChildMode(t.info.kind, isAddr));
      (c'.Node? <==> t.child.Node?) && (c'.Node? ==> NodeDt(t, c') == c'.dt) && (!c'.Node? ==> c' == Nil)
  {
  }

  /**
   The middle of finsh_run_line: what was parsed is compiled and run, and the bottom of the
   stack is the answer. The compiler has cleared the first cell of the stack, and that one only.
   For statements that are clean then, whose code and stack fit and whose evaluation is defined,
   memory and answer are those of the evaluation.
   */
  method RunLine(c: Compiler, vm: Vm, node: nat, ghost t: Tree, ghost es: Exprs) returns (answer: Cell)
    requires c.Fits() && vm.Valid() && c.text == vm.text && c.stack == vm.stack
    requires Shows(c.Now(), node, t) && Apart(t) && es.More? && BuildsAll(es, t)
    requires FairList(es) && CleanList(vm.env, es, State(vm.stack[..][0 := 0], 0, vm.mem))
    requires DepthList(es) <= STACK_MAX
    requires |EncodeAll(Statements(Annotate(t, false)))| <= TEXT_MAX
    requires EvalList(vm.env, es, vm.mem).Value?
    modifies c, vm, c.text, c.stack
    ensures vm.mem == EvalList(vm.env, es, old(vm.mem)).m
    ensures Low(Width(Last(es)), answer) == EvalList(vm.env, es, old(vm.mem)).v
  {
    hide EncodeAll, Statements, Annotate, Shows, Apart, BuildsAll, FairList, CleanList, DepthList, Loaded, EvalList,
      Exec, Low;
    ghost var was := vm.stack[..];
    c.CompilerRun(node, t);
    assert vm.stack[..] == was[0 := 0] by {
      assert vm.stack[..] == [vm.stack[0]] + vm.stack[1..];
    }
    RunsAsEvaluated(vm.env, es, t, vm.text[..], vm.Now().(sp := 0));
    vm.Run();
    answer := vm.stack[0];
  }
}
