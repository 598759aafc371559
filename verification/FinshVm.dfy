/**
 The stack machine of the finsh shell: components/finsh/finsh_ops.c and finsh_vm.c, with
 the byte encodings of finsh.h and finsh_ops.h.

 A stack cell is a 32-bit union; a byte or word operation writes only its low bytes and
 leaves the rest as it was. Memory is little-endian. What C leaves undefined (division by
 zero, shifts by 32 or more, access to unmapped memory, leaving the stack) stops the machine.
 */
module FinshOps {
  datatype Option<T> = None | Some(value: T)

  /** FINSH_DATA_TYPE_VOID, _BYTE, _WORD, _DWORD */
  datatype Dt = Void | Byte | Word | Dword

  type Cell = x: nat | x < 0x1_0000_0000
  type Octet = x: nat | x < 256
  type Memory = map<nat, Octet>

  datatype BinOp = Add | Sub | Mul | Div | Mod | And | Or | Xor | Shl | Shr

  /** What the machine runs in: the functions it can call, by address, and whether char is signed. */
  datatype Env = Env(sys: (nat, seq<Cell>, Memory) -> (Cell, Memory), signedChar: bool)

  function Size(dt: Dt): nat {
    match dt
    case Void => 0
    case Byte => 1
    case Word => 2
    case Dword => 4
  }

  /** The number of values of the type. */
  function Range(dt: Dt): (n: nat)
    ensures 1 <= n <= 0x1_0000_0000
  {
    match dt
    case Void => 1
    case Byte => 0x100
    case Word => 0x1_0000
    case Dword => 0x1_0000_0000
  }

  /** The part of a cell that the type sees. */
  function Low(dt: Dt, c: Cell): (v: Cell)
    ensures v < Range(dt)
  {
    c % Range(dt)
  }

  /** The cell after writing its low part. */
  function Splice(dt: Dt, c: Cell, v: Cell): (r: Cell)
    requires v < Range(dt)
    ensures Low(dt, r) == v
    ensures dt == Dword ==> r == v
    ensures r / Range(dt) == c / Range(dt)
  {
    match dt
    case Void => c
    case Byte => SpliceByte(c, v); c - c % 0x100 + v
    case Word => SpliceWord(c, v); c - c % 0x1_0000 + v
    case Dword => v
  }

  lemma SpliceByte(c: Cell, v: nat)
    requires v < 0x100
    ensures var r := c - c % 0x100 + v; r < 0x1_0000_0000 && r % 0x100 == v && r / 0x100 == c / 0x100
  {
  }

  lemma SpliceWord(c: Cell, v: nat)
    requires v < 0x1_0000
    ensures var r := c - c % 0x1_0000 + v; r < 0x1_0000_0000 && r % 0x1_0000 == v && r / 0x1_0000 == c / 0x1_0000
  {
  }

  /** The number that the bits of a typed value stand for. */
  function IntOf(env: Env, dt: Dt, v: Cell): int {
    match dt
    case Void => 0
    case Byte => if env.signedChar && v >= 0x80 then v - 0x100 else v
    case Word => if v >= 0x8000 then v - 0x1_0000 else v
    case Dword => if v >= 0x8000_0000 then v - 0x1_0000_0000 else v
  }

  function Wrap(dt: Dt, x: int): (v: Cell)
    ensures v < Range(dt)
  {
    x % Range(dt)
  }

  /** C's division, which truncates toward zero. */
  function Quotient(x: int, y: int): int
    requires y != 0
  {
    if x >= 0 then x / y else -((-x) / y)
  }

  function Pow2(n: nat): (p: nat)
    ensures p >= 1
  {
    if n == 0 then 1 else 2 * Pow2(n - 1)
  }

  function Bit(op: BinOp, a: nat, b: nat): nat {
    match op
    case And => if a % 2 == 1 && b % 2 == 1 then 1 else 0
    case Or => if a % 2 == 1 || b % 2 == 1 then 1 else 0
    case _ => if a % 2 != b % 2 then 1 else 0
  }

  /** The bitwise operators, on the lowest n bits. */
  function Bits(op: BinOp, a: nat, b: nat, n: nat): nat {
    if n == 0 then 0 else Bit(op, a, b) + 2 * Bits(op, a / 2, b / 2, n - 1)
  }

  /** The binary operators on values of one type. */
  function Alu(env: Env, op: BinOp, dt: Dt, a: Cell, b: Cell): (r: Option<Cell>)
    ensures r.Some? ==> r.value < Range(dt)
  {
    var x, y := IntOf(env, dt, a), IntOf(env, dt, b);
    match op
    case Add => Some(Wrap(dt, x + y))
    case Sub => Some(Wrap(dt, x - y))
    case Mul => Some(Wrap(dt, x * y))
    case Div => if y == 0 || (y == -1 && x == -0x8000_0000) then None else Some(Wrap(dt, Quotient(x, y)))
    case Mod => if y == 0 || (y == -1 && x == -0x8000_0000) then None else Some(Wrap(dt, x - Quotient(x, y) * y))
    case Shl => if 0 <= y < 32 then Some(Wrap(dt, x * Pow2(y))) else None
    case Shr => if 0 <= y < 32 then Some(Wrap(dt, x / Pow2(y))) else None
    case _ => Some(Wrap(dt, Bits(op, a, b, 8 * Size(dt))))
  }

  function Complement(dt: Dt, a: Cell): (r: Cell)
    requires a < Range(dt)
    ensures r < Range(dt)
  {
    Range(dt) - 1 - a
  }

  // ----- memory -----

  predicate Mapped(m: Memory, a: nat, n: nat) {
    forall x: nat :: a <= x < a + n ==> x in m
  }

  /** Byte k of a number, and numbers made of bytes, lowest first. */
  function ByteOf(v: nat, k: nat): Octet
    requires k < 4
  {
    if k == 0 then v % 0x100
    else if k == 1 then v / 0x100 % 0x100
    else if k == 2 then v / 0x1_0000 % 0x100
    else v / 0x100_0000 % 0x100
  }

  function Join2(b0: Octet, b1: Octet): (v: nat)
    ensures v < 0x1_0000
  {
    (b0 as nat) + 0x100 * (b1 as nat)
  }

  function Join4(b0: Octet, b1: Octet, b2: Octet, b3: Octet): (v: nat)
    ensures v < 0x1_0000_0000
  {
    Join2(b0, b1) + 0x1_0000 * Join2(b2, b3)
  }

  lemma JoinBytes(v: nat)
    ensures v < 0x1_0000 ==> Join2(ByteOf(v, 0), ByteOf(v, 1)) == v
    ensures v < 0x1_0000_0000 ==> Join4(ByteOf(v, 0), ByteOf(v, 1), ByteOf(v, 2), ByteOf(v, 3)) == v
  {
    var x, y := v % 0x1_0000, v / 0x1_0000;
    assert x % 0x100 == v % 0x100 && x / 0x100 % 0x100 == v / 0x100 % 0x100;
    assert v / 0x100_0000 == y / 0x100;
  }

  function Load(m: Memory, a: nat, dt: Dt): (v: Cell)
    requires Mapped(m, a, Size(dt))
    ensures v < Range(dt)
  {
    match dt
    case Void => 0
    case Byte => m[a]
    case Word => Join2(m[a], m[a + 1])
    case Dword => Join4(m[a], m[a + 1], m[a + 2], m[a + 3])
  }

  function Store(m: Memory, a: nat, dt: Dt, v: Cell): Memory
    requires v < Range(dt)
  {
    match dt
    case Void => m
    case Byte => m[a := ByteOf(v, 0)]
    case Word => m[a := ByteOf(v, 0)][a + 1 := ByteOf(v, 1)]
    case Dword => m[a := ByteOf(v, 0)][a + 1 := ByteOf(v, 1)][a + 2 := ByteOf(v, 2)][a + 3 := ByteOf(v, 3)]
  }

  /** What was stored is what is loaded, and nothing else changes. */
  lemma LoadStore(m: Memory, a: nat, dt: Dt, v: Cell)
    requires v < Range(dt)
    ensures Mapped(Store(m, a, dt, v), a, Size(dt)) && Load(Store(m, a, dt, v), a, dt) == v
    ensures forall x: nat :: !(a <= x < a + Size(dt)) ==>
      (x in Store(m, a, dt, v) <==> x in m) && (x in m ==> Store(m, a, dt, v)[x] == m[x])
    ensures forall x: nat :: x in m ==> x in Store(m, a, dt, v)
  {
    hide Join2, Join4, ByteOf;
    JoinBytes(v);
    if dt == Byte {
      Small(v);
    }
  }

  lemma Small(v: nat)
    requires v < 0x100
    ensures ByteOf(v, 0) == v
  {
  }

  /** Loading a whole cell shows the narrower value in its low bytes. */
  lemma LoadWhole(m: Memory, a: nat, dt: Dt)
    requires Mapped(m, a, 4)
    ensures Mapped(m, a, Size(dt)) && Low(dt, Load(m, a, Dword)) == Load(m, a, dt)
  {
    hide Join2, Join4;
    LowJoin(m[a], m[a + 1], m[a + 2], m[a + 3]);
  }

  lemma LowJoin(b0: Octet, b1: Octet, b2: Octet, b3: Octet)
    ensures Join4(b0, b1, b2, b3) % 0x100 == b0 && Join4(b0, b1, b2, b3) % 0x1_0000 == Join2(b0, b1)
  {
    assert Join4(b0, b1, b2, b3) == (b0 as nat) + 0x100 * ((b1 as nat) + 0x100 * Join2(b2, b3));
  }

  /** A narrower part of a wider part is the narrower part. */
  lemma LowLow(dt: Dt, dt': Dt, c: Cell)
    requires Size(dt) <= Size(dt')
    ensures Low(dt, Low(dt', c)) == Low(dt, c)
  {
    match dt
    case Void =>
    case Byte => assert c % 0x1_0000 % 0x100 == c % 0x100;
    case Word =>
    case Dword =>
  }
}

module FinshVm {
  import opened FinshOps

  const TEXT_MAX: nat := 128
  const STACK_MAX: nat := 64

  /** The instructions that the opcodes of finsh_ops.h stand for; dt is never Void. */
  datatype Instr = Noop | Bin(op: BinOp, dt: Dt) | Not(dt: Dt) | Ld(dt: Dt, v: Cell) | LdVal(dt: Dt, a: Cell)
                 | St(dt: Dt) | Pop | Call(n: Octet) | LdStk(dt: Dt)

  predicate Proper(i: Instr) {
    match i
    case Bin(_, dt) => dt != Void
    case Not(dt) => dt != Void
    case Ld(dt, v) => dt != Void && v < Range(dt)
    case LdVal(dt, _) => dt != Void
    case St(dt) => dt != Void
    case LdStk(dt) => dt != Void
    case _ => true
  }

  // ----- the byte code -----

  /** The place of a type among the three opcodes of an operation. */
  function Offset(dt: Dt): (n: Octet)
    ensures n <= 2
  {
    match dt
    case Word => 1
    case Dword => 2
    case _ => 0
  }

  function BinCode(op: BinOp): (n: Octet)
    ensures n <= 0x1F
  {
    match op
    case Add => 0x01
    case Sub => 0x04
    case Div => 0x07
    case Mod => 0x0A
    case Mul => 0x0D
    case And => 0x10
    case Or => 0x13
    case Xor => 0x16
    case Shl => 0x1C
    case Shr => 0x1F
  }

  /** FINSH_SET16, FINSH_SET32 */
  function Bytes16(v: nat): (bs: seq<Octet>)
    ensures |bs| == 2
  {
    [ByteOf(v, 0), ByteOf(v, 1)]
  }

  function Bytes32(v: Cell): (bs: seq<Octet>)
    ensures |bs| == 4
  {
    [ByteOf(v, 0), ByteOf(v, 1), ByteOf(v, 2), ByteOf(v, 3)]
  }

  function Constant(dt: Dt, v: Cell): (bs: seq<Octet>)
    ensures |bs| == Size(dt)
  {
    match dt
    case Void => []
    case Byte => [ByteOf(v, 0)]
    case Word => Bytes16(v)
    case Dword => Bytes32(v)
  }

  function Encode(i: Instr): (bs: seq<Octet>)
    ensures |bs| > 0
  {
    match i
    case Noop => [0x00]
    case Bin(op, dt) => [BinCode(op) + Offset(dt)]
    case Not(dt) => [0x19 + Offset(dt)]
    case Ld(dt, v) => [0x22 + Offset(dt)] + Constant(dt, v)
    case LdVal(dt, a) => [0x25 + Offset(dt)] + Bytes32(a)
    case St(dt) => [0x28 + Offset(dt)]
    case Pop => [0x2B]
    case Call(n) => [0x2C, n]
    case LdStk(dt) => [0x2D + Offset(dt)]
  }

  function EncodeAll(ins: seq<Instr>): seq<Octet> {
    if ins == [] then [] else Encode(ins[0]) + EncodeAll(ins[1..])
  }

  lemma {:induction false} EncodeAppend(a: seq<Instr>, b: seq<Instr>)
    ensures EncodeAll(a + b) == EncodeAll(a) + EncodeAll(b)
  {
    hide Encode;
    if a == [] {
      assert a + b == b;
    } else {
      EncodeAppend(a[1..], b);
      assert (a + b)[1..] == a[1..] + b;
    }
  }

  // ----- the operations -----

  datatype State = State(stack: seq<Cell>, sp: nat, mem: Memory)

  predicate Room(s: State) {
    |s.stack| == STACK_MAX && s.sp <= STACK_MAX
  }

  /** An operation; nothing if it is undefined in this state. */
  function Do(env: Env, i: Instr, s: State): (r: Option<State>)
    ensures r.Some? ==> Room(s) && Room(r.value) && Proper(i)
  {
    if !Room(s) || !Proper(i) then None
    else
      match i
      case Noop => Some(s)
      case Bin(op, dt) =>
        if s.sp < 2 then None
        else (
          var a, b := Low(dt, s.stack[s.sp - 2]), Low(dt, s.stack[s.sp - 1]);
          var v := Alu(env, op, dt, a, b);
          if v.None? then None
          else Some(State(s.stack[s.sp - 2 := Splice(dt, s.stack[s.sp - 2], v.value)], s.sp - 1, s.mem)))
      case Not(dt) =>
        if s.sp < 1 then None
        else (
          var v := Complement(dt, Low(dt, s.stack[s.sp - 1]));
          Some(s.(stack := s.stack[s.sp - 1 := Splice(dt, s.stack[s.sp - 1], v)])))
      case Ld(dt, v) =>
        if s.sp == STACK_MAX then None
        else Some(s.(stack := s.stack[s.sp := Splice(dt, s.stack[s.sp], v)], sp := s.sp + 1))
      case LdVal(dt, a) =>
        if s.sp == STACK_MAX || !Mapped(s.mem, a, Size(dt)) then None
        else Some(s.(stack := s.stack[s.sp := Splice(dt, s.stack[s.sp], Load(s.mem, a, dt))], sp := s.sp + 1))
      case St(dt) =>
        if s.sp < 2 || !Mapped(s.mem, s.stack[s.sp - 2], Size(dt)) then None
        else Some(s.(mem := Store(s.mem, s.stack[s.sp - 2], dt, Low(dt, s.stack[s.sp - 1])), sp := s.sp - 1))
      case Pop =>
        if s.sp < 1 then None else Some(s.(sp := s.sp - 1))
      case Call(n) =>
        if s.sp < n + 1 || n > 16 then None
        else (
          var b := s.sp - n - 1;
          var (r, mem) := env.sys(s.stack[b], s.stack[b + 1..s.sp], s.mem);
          Some(State(s.stack[b := r], b + 1, mem)))
      case LdStk(dt) =>
        if s.sp < 1 || !Mapped(s.mem, s.stack[s.sp - 1], Size(dt)) then None
        else (
          var c := s.stack[s.sp - 1];
          Some(s.(stack := s.stack[s.sp - 1 := Splice(dt, c, Load(s.mem, c, dt))])))
  }

  function DoAll(env: Env, ins: seq<Instr>, s: State): Option<State> {
    if ins == [] then Some(s)
    else (
      var s1 := Do(env, ins[0], s);
      if s1.None? then None else DoAll(env, ins[1..], s1.value))
  }

  lemma {:induction false} DoAppend(env: Env, a: seq<Instr>, b: seq<Instr>, s: State)
    ensures var s1 := DoAll(env, a, s);
      DoAll(env, a + b, s) == if s1.None? then None else DoAll(env, b, s1.value)
  {
    hide Do;
    if a == [] {
      assert a + b == b;
    } else {
      assert (a + b)[1..] == a[1..] + b && (a + b)[0] == a[0];
      var s1 := Do(env, a[0], s);
      if s1.Some? {
        DoAppend(env, a[1..], b, s1.value);
      }
    }
  }

  // ----- fetch and dispatch -----

  /** FINSH_GET16, FINSH_GET32 */
  function Get16(text: seq<Octet>, pc: nat): Cell
    requires pc + 2 <= |text|
  {
    Join2(text[pc], text[pc + 1])
  }

  function Get32(text: seq<Octet>, pc: nat): Cell
    requires pc + 4 <= |text|
  {
    Join4(text[pc], text[pc + 1], text[pc + 2], text[pc + 3])
  }

  /** The type that an opcode of the three starting at `base` is for. */
  function Typed(op: nat, base: nat): Dt
    requires base <= op < base + 3
  {
    if op == base then Byte else if op == base + 1 then Word else Dword
  }

  /** The entry of op_table that an opcode selects, with the length of the instruction. */
  datatype Entry = Op(i: Instr, length: nat) | Bad

  function Fetch(text: seq<Octet>, pc: nat): (e: Entry)
    requires pc < |text|
    ensures e.Op? ==> Proper(e.i) && e.length > 0 && pc + e.length <= |text|
  {
    var op := text[pc];
    if op == 0x00 then Op(Noop, 1)
    else if op < 0x04 then Op(Bin(Add, Typed(op, 0x01)), 1)
    else if op < 0x07 then Op(Bin(Sub, Typed(op, 0x04)), 1)
    else if op < 0x0A then Op(Bin(Div, Typed(op, 0x07)), 1)
    else if op < 0x0D then Op(Bin(Mod, Typed(op, 0x0A)), 1)
    else if op < 0x10 then Op(Bin(Mul, Typed(op, 0x0D)), 1)
    else if op < 0x13 then Op(Bin(And, Typed(op, 0x10)), 1)
    else if op < 0x16 then Op(Bin(Or, Typed(op, 0x13)), 1)
    else if op < 0x19 then Op(Bin(Xor, Typed(op, 0x16)), 1)
    else if op < 0x1C then Op(Not(Typed(op, 0x19)), 1)
    else if op < 0x1F then Op(Bin(Shl, Typed(op, 0x1C)), 1)
    else if op < 0x22 then Op(Bin(Shr, Typed(op, 0x1F)), 1)
    else if op == 0x22 then if pc + 2 <= |text| then Op(Ld(Byte, text[pc + 1]), 2) else Bad
    else if op == 0x23 then if pc + 3 <= |text| then Op(Ld(Word, Get16(text, pc + 1)), 3) else Bad
    else if op == 0x24 then if pc + 5 <= |text| then Op(Ld(Dword, Get32(text, pc + 1)), 5) else Bad
    else if op < 0x28 then if pc + 5 <= |text| then Op(LdVal(Typed(op, 0x25), Get32(text, pc + 1)), 5) else Bad
    else if op < 0x2B then Op(St(Typed(op, 0x28)), 1)
    else if op == 0x2B then Op(Pop, 1)
    else if op == 0x2C then if pc + 2 <= |text| then Op(Call(text[pc + 1]), 2) else Bad
    else if op < 0x30 then Op(LdStk(Typed(op, 0x2D)), 1)
    else Bad
  }

  /** The machine from `pc` on, until it has passed `end`; nothing if it is stopped before. */
  function Exec(env: Env, text: seq<Octet>, pc: nat, end: nat, s: State): Option<State>
    requires end <= |text|
    decreases end - pc
  {
    if pc >= end then Some(s)
    else
      match Fetch(text, pc)
      case Bad => None
      case Op(i, length) =>
        var s1 := Do(env, i, s);
        if s1.None? then None else Exec(env, text, pc + length, end, s1.value)
  }

  predicate CodeAt(text: seq<Octet>, pc: nat, code: seq<Octet>) {
    pc + |code| <= |text| && text[pc..pc + |code|] == code
  }

  /** Every instruction is decoded as the one that was encoded. */
  lemma FetchEncoded(text: seq<Octet>, pc: nat, i: Instr)
    requires Proper(i) && CodeAt(text, pc, Encode(i))
    ensures Fetch(text, pc) == Op(i, |Encode(i)|)
  {
    hide Get16, Get32, ByteOf;
    var code := Encode(i);
    forall k: nat | k < |code| ensures text[pc + k] == code[k] {
      assert text[pc..pc + |code|][k] == code[k];
    }
    assert text[pc + 0] == code[0];
    match i
    case Ld(dt, v) =>
      OperandAt(text, pc, code[0], Constant(dt, v));
      Reads(text, pc + 1, dt, v);
    case LdVal(dt, a) =>
      OperandAt(text, pc, code[0], Constant(Dword, a));
      Reads(text, pc + 1, Dword, a);
    case Call(n) =>
      assert text[pc + 1] == code[1];
    case _ =>
  }

  lemma OperandAt(text: seq<Octet>, pc: nat, op: Octet, operand: seq<Octet>)
    requires CodeAt(text, pc, [op] + operand)
    ensures forall k :: 0 <= k < |operand| ==> text[pc + 1 + k] == operand[k]
  {
    var code := [op] + operand;
    forall k | 0 <= k < |operand| ensures text[pc + 1 + k] == operand[k] {
      assert text[pc..pc + |code|][k + 1] == code[k + 1];
    }
  }

  lemma Reads(text: seq<Octet>, pc: nat, dt: Dt, v: Cell)
    requires pc + Size(dt) <= |text| && v < Range(dt)
    requires forall k :: 0 <= k < Size(dt) ==> text[pc + k] == Constant(dt, v)[k]
    ensures dt == Byte ==> text[pc] == v
    ensures dt == Word ==> Get16(text, pc) == v
    ensures dt == Dword ==> Get32(text, pc) == v
  {
    hide Join2, Join4, ByteOf;
    JoinBytes(v);
    assert forall k :: 0 <= k < Size(dt) ==> text[pc + k] == Constant(dt, v)[k];
    assert Size(dt) > 0 ==> text[pc + 0] == Constant(dt, v)[0];
    assert Size(dt) > 1 ==> text[pc + 1] == Constant(dt, v)[1];
    assert Size(dt) > 2 ==> text[pc + 2] == Constant(dt, v)[2] && text[pc + 3] == Constant(dt, v)[3];
    if dt == Byte {
      Small(v);
    }
  }

  /** Running encoded instructions does what the instructions do, and goes on behind them. */
  lemma {:induction false} ExecEncoded(env: Env, text: seq<Octet>, pc: nat, end: nat, ins: seq<Instr>, s: State)
    requires DoAll(env, ins, s).Some?
    requires CodeAt(text, pc, EncodeAll(ins)) && pc + |EncodeAll(ins)| <= end <= |text|
    ensures Exec(env, text, pc, end, s) == Exec(env, text, pc + |EncodeAll(ins)|, end, DoAll(env, ins, s).value)
    decreases |ins|
  {
    hide Do, Encode, Fetch;
    if ins != [] {
      var code := Encode(ins[0]);
      assert EncodeAll(ins) == code + EncodeAll(ins[1..]);
      CodeSplit(text, pc, code, EncodeAll(ins[1..]));
      FetchEncoded(text, pc, ins[0]);
      var s1 := Do(env, ins[0], s);
      ExecEncoded(env, text, pc + |code|, end, ins[1..], s1.value);
    }
  }

  lemma CodeSplit(text: seq<Octet>, pc: nat, a: seq<Octet>, b: seq<Octet>)
    requires CodeAt(text, pc, a + b)
    ensures CodeAt(text, pc, a) && CodeAt(text, pc + |a|, b)
  {
    var c := text[pc..pc + |a + b|];
    assert c[..|a|] == a && c[|a|..] == b;
    assert text[pc..pc + |a|] == c[..|a|] && text[pc + |a|..pc + |a| + |b|] == c[|a|..];
  }

  /** The zero bytes behind the code do nothing. */
  lemma {:induction false} ExecZeros(env: Env, text: seq<Octet>, pc: nat, end: nat, s: State)
    requires end <= |text| && Room(s) && (forall k :: pc <= k < end ==> text[k] == 0)
    ensures Exec(env, text, pc, end, s) == Some(s)
    decreases end - pc
  {
    if pc < end {
      ExecZeros(env, text, pc + 1, end, s);
    }
  }

  /** The virtual machine: text_segment, finsh_vm_stack, finsh_sp, finsh_pc and the memory. */
  class Vm {
    const env: Env
    var text: array<Octet>
    var stack: array<Cell>
    var sp: nat
    var pc: nat
    var mem: Memory

    ghost predicate Valid()
      reads this, stack
    {
      text.Length == TEXT_MAX && stack.Length == STACK_MAX && sp <= STACK_MAX
    }

    ghost function Now(): (s: State)
      reads this, stack
      requires Valid()
      ensures Room(s)
    {
      State(stack[..], sp, mem)
    }

    constructor (env: Env, text: array<Octet>, stack: array<Cell>, mem: Memory)
      requires text.Length == TEXT_MAX && stack.Length == STACK_MAX
      ensures Valid() && this.env == env && this.text == text && this.stack == stack && this.mem == mem
    {
      this.env, this.text, this.stack, this.mem := env, text, stack, mem;
      sp, pc := 0, 0;
    }

    /** OP_BIN_BYTE, OP_BIN_WORD, OP_BIN_DWORD */
    method OpBin(op: BinOp, dt: Dt)
      requires Valid() && dt != Void && Do(env, Bin(op, dt), Now()).Some?
      modifies this`sp, stack
      ensures Valid() && Now() == Do(env, Bin(op, dt), old(Now())).value
    {
      ghost var s := Now();
      var v := Alu(env, op, dt, Low(dt, stack[sp - 2]), Low(dt, stack[sp - 1]));
      stack[sp - 2] := Splice(dt, stack[sp - 2], v.value);
      sp := sp - 1;
      assert stack[..] == s.stack[s.sp - 2 := stack[s.sp - 2]];
    }

    /** OP_bw_byte, OP_bw_word, OP_bw_dword */
    method OpNot(dt: Dt)
      requires Valid() && dt != Void && Do(env, Not(dt), Now()).Some?
      modifies stack
      ensures Valid() && Now() == Do(env, Not(dt), old(Now())).value
    {
      ghost var s := Now();
      stack[sp - 1] := Splice(dt, stack[sp - 1], Complement(dt, Low(dt, stack[sp - 1])));
      assert stack[..] == s.stack[s.sp - 1 := stack[s.sp - 1]];
    }

    /** OP_ld_byte, OP_ld_word, OP_ld_dword: the constant follows the opcode. */
    method OpLd(dt: Dt, v: Cell)
      requires Valid() && dt != Void && v < Range(dt) && Do(env, Ld(dt, v), Now()).Some?
      modifies this`sp, stack
      ensures Valid() && Now() == Do(env, Ld(dt, v), old(Now())).value
    {
      ghost var s := Now();
      stack[sp] := Splice(dt, stack[sp], v);
      sp := sp + 1;
      assert stack[..] == s.stack[s.sp := stack[s.sp]];
    }

    /** OP_ld_value_byte, OP_ld_value_word, OP_ld_value_dword: the address follows the opcode. */
    method OpLdValue(dt: Dt, a: Cell)
      requires Valid() && dt != Void && Do(env, LdVal(dt, a), Now()).Some?
      modifies this`sp, stack
      ensures Valid() && Now() == Do(env, LdVal(dt, a), old(Now())).value
    {
      ghost var s := Now();
      stack[sp] := Splice(dt, stack[sp], Load(mem, a, dt));
      sp := sp + 1;
      assert stack[..] == s.stack[s.sp := stack[s.sp]];
    }

    /** OP_ld_value_byte_stack and its kin: the address is on the stack. */
    method OpLdValueStack(dt: Dt)
      requires Valid() && dt != Void && Do(env, LdStk(dt), Now()).Some?
      modifies stack
      ensures Valid() && Now() == Do(env, LdStk(dt), old(Now())).value
    {
      ghost var s := Now();
      var c := stack[sp - 1];
      stack[sp - 1] := Splice(dt, c, Load(mem, c, dt));
      assert stack[..] == s.stack[s.sp - 1 := stack[s.sp - 1]];
    }

    /** OP_st_byte, OP_st_word, OP_st_dword */
    method OpSt(dt: Dt)
      requires Valid() && dt != Void && Do(env, St(dt), Now()).Some?
      modifies this`sp, this`mem
      ensures Valid() && Now() == Do(env, St(dt), old(Now())).value
    {
      mem := Store(mem, stack[sp - 2], dt, Low(dt, stack[sp - 1]));
      sp := sp - 1;
    }

    /** OP_call: the arguments are taken off the stack from the last to the first. */
    method OpCall(n: Octet)
      requires Valid() && Do(env, Call(n), Now()).Some?
      modifies this`sp, this`mem, stack
      ensures Valid() && Now() == Do(env, Call(n), old(Now())).value
    {
      ghost var s := Now();
      var args: seq<Cell> := [];
      var i := 0;
      sp := sp - 1;
      while i < n
        modifies this`sp
        invariant 0 <= i <= n && sp == s.sp - 1 - i && |args| == i
        invariant args == s.stack[sp + 1..s.sp]
      {
        args := [stack[sp]] + args;
        sp := sp - 1;
        i := i + 1;
        assert s.stack[sp + 1..s.sp] == [s.stack[sp + 1]] + s.stack[sp + 2..s.sp];
      }
      var (r, m) := env.sys(stack[sp], args, mem);
      mem := m;
      stack[sp] := r;
      sp := sp + 1;
      assert stack[..] == s.stack[s.sp - n - 1 := r];
    }

    /** op_table[op](), for an instruction that has been fetched */
    method Dispatch(i: Instr)
      requires Valid() && Do(env, i, Now()).Some?
      modifies this`sp, this`mem, stack
      ensures Valid() && Now() == Do(env, i, old(Now())).value
    {
      match i {
        case Noop =>
        case Bin(op, dt) => OpBin(op, dt);
        case Not(dt) => OpNot(dt);
        case Ld(dt, v) => OpLd(dt, v);
        case LdVal(dt, a) => OpLdValue(dt, a);
        case St(dt) => OpSt(dt);
        case Pop => sp := sp - 1;
        case Call(n) => OpCall(n);
        case LdStk(dt) => OpLdValueStack(dt);
      }
    }

    /** finsh_vm_run, for a program that is nowhere undefined */
    method Run()
      requires Valid() && Exec(env, text[..], 0, TEXT_MAX, Now().(sp := 0)).Some?
      modifies this`sp, this`pc, this`mem, stack
      ensures Valid() && Now() == Exec(env, text[..], 0, TEXT_MAX, old(Now()).(sp := 0)).value
      ensures pc >= TEXT_MAX
    {
      hide Do, Fetch, Proper;
      ghost var code, s := text[..], Now().(sp := 0);
      sp, pc := 0, 0;
      while pc < TEXT_MAX
        invariant Valid() && text[..] == code
        invariant Exec(env, code, pc, TEXT_MAX, Now()) == Exec(env, code, 0, TEXT_MAX, s)
        decreases TEXT_MAX - pc
      {
        var e := Fetch(text[..], pc);
        Dispatch(e.i);
        pc := pc + e.length;
      }
    }
  }
}
