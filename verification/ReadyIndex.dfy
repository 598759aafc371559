/**
 Words of bits, __rt_ffs of src/kservice.c, and the two forms of the ready bitmap of
 src/scheduler.c: one word for up to 32 priorities, a word over a table of bytes for up to 256.
 */
module Words {
  /** Bit k of a word. */
  predicate Bit(v: nat, k: nat) {
    if k == 0 then v % 2 == 1 else Bit(v / 2, k - 1)
  }

  function Pow2(k: nat): (p: nat)
    ensures p >= 1
  {
    if k == 0 then 1 else 2 * Pow2(k - 1)
  }

  function B(b: bool): nat {
    if b then 1 else 0
  }

  /** a | b and a & ~b. */
  function Or(a: nat, b: nat): nat
    decreases a + b
  {
    if a == 0 && b == 0 then 0 else B(a % 2 == 1 || b % 2 == 1) + 2 * Or(a / 2, b / 2)
  }

  function AndNot(a: nat, b: nat): nat
    decreases a
  {
    if a == 0 then 0 else B(a % 2 == 1 && b % 2 == 0) + 2 * AndNot(a / 2, b / 2)
  }

  function And(a: nat, b: nat): nat
    decreases a
  {
    if a == 0 then 0 else B(a % 2 == 1 && b % 2 == 1) + 2 * And(a / 2, b / 2)
  }

  lemma HalfBit(c: bool, x: nat)
    ensures (B(c) + 2 * x) / 2 == x && (B(c) + 2 * x) % 2 == B(c)
  {
  }

  lemma {:induction false} OrBit(a: nat, b: nat, k: nat)
    ensures Bit(Or(a, b), k) <==> Bit(a, k) || Bit(b, k)
    decreases k
  {
    if a == 0 && b == 0 {
      ZeroBit(k);
    } else {
      HalfBit(a % 2 == 1 || b % 2 == 1, Or(a / 2, b / 2));
      if k > 0 {
        OrBit(a / 2, b / 2, k - 1);
      }
    }
  }

  lemma {:induction false} AndNotBit(a: nat, b: nat, k: nat)
    ensures Bit(AndNot(a, b), k) <==> Bit(a, k) && !Bit(b, k)
    decreases k
  {
    if a == 0 {
      ZeroBit(k);
    } else {
      HalfBit(a % 2 == 1 && b % 2 == 0, AndNot(a / 2, b / 2));
      if k > 0 {
        AndNotBit(a / 2, b / 2, k - 1);
      }
    }
  }

  lemma {:induction false} AndBit(a: nat, b: nat, k: nat)
    ensures Bit(And(a, b), k) <==> Bit(a, k) && Bit(b, k)
    decreases k
  {
    if a == 0 {
      ZeroBit(k);
    } else {
      HalfBit(a % 2 == 1 && b % 2 == 1, And(a / 2, b / 2));
      if k > 0 {
        AndBit(a / 2, b / 2, k - 1);
      }
    }
  }

  lemma {:induction false} ZeroBit(k: nat)
    ensures !Bit(0, k)
  {
    if k > 0 {
      ZeroBit(k - 1);
    }
  }

  lemma {:induction false} MaskBit(p: nat, k: nat)
    ensures Bit(Pow2(p), k) <==> k == p
    decreases p
  {
    if p == 0 {
      if k > 0 {
        ZeroBit(k - 1);
      }
    } else if k > 0 {
      MaskBit(p - 1, k - 1);
    }
  }

  /** A word with no bit set is 0. */
  lemma {:induction false} NoBits(v: nat)
    requires forall k: nat :: !Bit(v, k)
    ensures v == 0
    decreases v
  {
    if v > 0 {
      assert !Bit(v, 0);
      forall k: nat ensures !Bit(v / 2, k) {
        assert !Bit(v, k + 1);
      }
      NoBits(v / 2);
    }
  }

  /** Words with the same bits are the same. */
  lemma {:induction false} SameBits(a: nat, b: nat)
    requires forall k: nat :: Bit(a, k) <==> Bit(b, k)
    ensures a == b
    decreases a + b
  {
    if a > 0 || b > 0 {
      assert Bit(a, 0) <==> Bit(b, 0);
      forall k: nat ensures Bit(a / 2, k) <==> Bit(b / 2, k) {
        assert Bit(a, k + 1) <==> Bit(b, k + 1);
      }
      SameBits(a / 2, b / 2);
    }
  }

  /** A word of n bits. */
  predicate Fits(v: nat, n: nat) {
    v < Pow2(n)
  }

  lemma {:induction false} FitsBits(v: nat, n: nat, k: nat)
    requires Fits(v, n) && Bit(v, k)
    ensures k < n
    decreases n
  {
    if n == 0 {
      ZeroBit(k);
    } else if k > 0 {
      FitsBits(v / 2, n - 1, k - 1);
    }
  }

  lemma {:induction false} BitsFit(v: nat, n: nat)
    requires forall k: nat :: Bit(v, k) ==> k < n
    ensures Fits(v, n)
    decreases n
  {
    if n == 0 {
      NoBits(v);
    } else {
      forall k: nat | Bit(v / 2, k) ensures k < n - 1 {
        assert Bit(v, k + 1);
      }
      BitsFit(v / 2, n - 1);
    }
  }

  // ----- the lowest bit -----

  /** The lowest bit that is set. */
  function Lowest(v: nat): (k: nat)
    requires v > 0
    ensures Bit(v, k) && forall j: nat :: j < k ==> !Bit(v, j)
  {
    if v % 2 == 1 then 0
    else (
      var k := Lowest(v / 2);
      LowestUp(v, k);
      k + 1)
  }

  lemma LowestUp(v: nat, k: nat)
    requires v % 2 == 0 && Bit(v / 2, k) && forall j: nat :: j < k ==> !Bit(v / 2, j)
    ensures Bit(v, k + 1) && forall j: nat :: j < k + 1 ==> !Bit(v, j)
  {
    forall j: nat | j < k + 1 ensures !Bit(v, j) {
      if j > 0 {
        assert !Bit(v / 2, j - 1);
      }
    }
  }

  /** __lowest_bit_bitmap, row by row */
  const LOWEST_BIT_BITMAP: seq<seq<nat>> := [
    [0, 0, 1, 0, 2, 0, 1, 0, 3, 0, 1, 0, 2, 0, 1, 0],
    [4, 0, 1, 0, 2, 0, 1, 0, 3, 0, 1, 0, 2, 0, 1, 0],
    [5, 0, 1, 0, 2, 0, 1, 0, 3, 0, 1, 0, 2, 0, 1, 0],
    [4, 0, 1, 0, 2, 0, 1, 0, 3, 0, 1, 0, 2, 0, 1, 0],
    [6, 0, 1, 0, 2, 0, 1, 0, 3, 0, 1, 0, 2, 0, 1, 0],
    [4, 0, 1, 0, 2, 0, 1, 0, 3, 0, 1, 0, 2, 0, 1, 0],
    [5, 0, 1, 0, 2, 0, 1, 0, 3, 0, 1, 0, 2, 0, 1, 0],
    [4, 0, 1, 0, 2, 0, 1, 0, 3, 0, 1, 0, 2, 0, 1, 0],
    [7, 0, 1, 0, 2, 0, 1, 0, 3, 0, 1, 0, 2, 0, 1, 0],
    [4, 0, 1, 0, 2, 0, 1, 0, 3, 0, 1, 0, 2, 0, 1, 0],
    [5, 0, 1, 0, 2, 0, 1, 0, 3, 0, 1, 0, 2, 0, 1, 0],
    [4, 0, 1, 0, 2, 0, 1, 0, 3, 0, 1, 0, 2, 0, 1, 0],
    [6, 0, 1, 0, 2, 0, 1, 0, 3, 0, 1, 0, 2, 0, 1, 0],
    [4, 0, 1, 0, 2, 0, 1, 0, 3, 0, 1, 0, 2, 0, 1, 0],
    [5, 0, 1, 0, 2, 0, 1, 0, 3, 0, 1, 0, 2, 0, 1, 0],
    [4, 0, 1, 0, 2, 0, 1, 0, 3, 0, 1, 0, 2, 0, 1, 0]
  ]

  function Entry(v: nat): nat
    requires v < 256
  {
    LOWEST_BIT_BITMAP[v / 16][v % 16]
  }

  function Low16(v: nat): nat
    requires 0 < v < 16
  {
    if v % 2 == 1 then 0 else if v % 4 == 2 then 1 else if v % 8 == 4 then 2 else 3
  }

  lemma LowestStep(v: nat)
    requires v > 0
    ensures Lowest(v) == if v % 2 == 1 then 0 else Lowest(v / 2) + 1
  {
  }

  lemma LowestSmall(v: nat)
    requires 0 < v < 16
    ensures Lowest(v) == Low16(v)
  {
    hide Lowest;
    LowestStep(v);
    if v >= 2 {
      LowestStep(v / 2);
    }
    if v >= 4 {
      LowestStep(v / 4);
    }
    if v >= 8 {
      LowestStep(v / 8);
    }
  }

  /** Bits above those looked at do not matter. */
  lemma {:induction false} LowestMod(v: nat, n: nat)
    requires v % Pow2(n) > 0
    ensures v > 0 && Lowest(v) == Lowest(v % Pow2(n))
    decreases n
  {
    if n > 0 {
      HalfMod(v, Pow2(n - 1), Pow2(n));
      if v % 2 == 0 {
        LowestMod(v / 2, n - 1);
      }
    }
  }

  lemma HalfMod(v: nat, m: nat, n: nat)
    requires m > 0 && n == 2 * m
    ensures v % n / 2 == v / 2 % m && v % n % 2 == v % 2 && v / 2 / m == v / n
  {
    var q, r := DivModOf(v, n);
    HalfModOf(v, m, n, q, r);
  }

  lemma DivModOf(v: nat, n: nat) returns (q: nat, r: nat)
    requires n > 0
    ensures v == q * n + r && r < n
  {
    DivMod(v, n);
    q, r := v / n, v % n;
  }

  lemma HalfModOf(v: nat, m: nat, n: nat, q: nat, r: nat)
    requires v == q * n + r && r < n && n == 2 * m && m > 0
    ensures v % n == r && v / n == q && v / 2 % m == r / 2 && v / 2 / m == q && r % 2 == v % 2
  {
    HalvesOf(v, m, n, q, r);
    ModUnique(v, q, r, n);
    DivUnique(v, q, r, n);
    ModUnique(v / 2, q, r / 2, m);
    DivUnique(v / 2, q, r / 2, m);
  }

  lemma HalvesOf(v: nat, m: nat, n: nat, q: nat, r: nat)
    requires v == q * n + r && r < n && n == 2 * m
    ensures v / 2 == q * m + r / 2 && r / 2 < m && r % 2 == v % 2
  {
    Twice(q, m);
    HalfSum(q * m, r);
  }

  lemma DivMod(v: nat, n: nat)
    requires n > 0
    ensures v == v / n * n + v % n && v % n < n
  {
  }

  lemma HalfSum(w: nat, r: nat)
    ensures (2 * w + r) / 2 == w + r / 2 && (2 * w + r) % 2 == r % 2
  {
  }

  lemma Twice(q: nat, m: nat)
    ensures q * (2 * m) == 2 * (q * m)
  {
  }

  lemma ModUnique(x: nat, q: nat, r: nat, m: nat)
    requires x == q * m + r && r < m
    ensures x % m == r
  {
    var q', r' := x / m, x % m;
    assert x == q' * m + r';
    if q < q' {
      MulMono(q + 1, q', m);
    } else if q' < q {
      MulMono(q' + 1, q, m);
    }
  }

  lemma MulMono(a: nat, b: nat, m: nat)
    requires a <= b
    ensures a * m <= b * m
  {
  }

  /** Low zero bits are counted. */
  lemma {:induction false} LowestShift(v: nat, n: nat)
    requires v > 0 && v % Pow2(n) == 0
    ensures v / Pow2(n) > 0 && Lowest(v) == n + Lowest(v / Pow2(n))
    decreases n
  {
    if n == 0 {
      assert v / 1 == v;
    } else {
      HalfMod(v, Pow2(n - 1), Pow2(n));
      LowestShift(v / 2, n - 1);
    }
  }

  lemma DivUnique(x: nat, q: nat, r: nat, m: nat)
    requires x == q * m + r && r < m
    ensures x / m == q
  {
    var q', r' := x / m, x % m;
    assert x == q' * m + r';
    if q < q' {
      MulMono(q + 1, q', m);
    } else if q' < q {
      MulMono(q' + 1, q, m);
    }
  }

  function Row(first: nat): seq<nat> {
    [first, 0, 1, 0, 2, 0, 1, 0, 3, 0, 1, 0, 2, 0, 1, 0]
  }

  lemma RowIs(r: nat)
    requires r < 16
    ensures LOWEST_BIT_BITMAP[r] == Row(if r == 0 then 0 else 4 + Low16(r))
  {
  }

  lemma RowEntry(first: nat, c: nat)
    requires c < 16
    ensures Row(first)[c] == if c == 0 then first else Low16(c)
  {
  }

  /** The table holds the lowest set bit of every byte that is not 0. */
  lemma EntryIsLowest(v: nat)
    requires 0 < v < 256
    ensures Entry(v) == Lowest(v)
  {
    hide Lowest, Row, Low16;
    var r, c := v / 16, v % 16;
    PowersOf2();
    RowIs(r);
    RowEntry(if r == 0 then 0 else 4 + Low16(r), c);
    if c > 0 {
      LowestMod(v, 4);
      LowestSmall(c);
    } else {
      LowestShift(v, 4);
      LowestSmall(r);
    }
  }

  lemma PowersOf2()
    ensures Pow2(4) == 16 && Pow2(8) == 0x100 && Pow2(16) == 0x1_0000 && Pow2(24) == 0x100_0000
      && Pow2(32) == 0x1_0000_0000
  {
    assert Pow2(4) == 2 * Pow2(3) == 4 * Pow2(2) == 8 * Pow2(1) == 16;
    assert Pow2(8) == 2 * Pow2(7) == 4 * Pow2(6) == 8 * Pow2(5) == 16 * Pow2(4);
    assert Pow2(16) == 2 * Pow2(15) == 4 * Pow2(14) == 8 * Pow2(13) == 16 * Pow2(12);
    assert Pow2(12) == 2 * Pow2(11) == 4 * Pow2(10) == 8 * Pow2(9) == 16 * Pow2(8);
    assert Pow2(24) == 2 * Pow2(23) == 4 * Pow2(22) == 8 * Pow2(21) == 16 * Pow2(20);
    assert Pow2(20) == 2 * Pow2(19) == 4 * Pow2(18) == 8 * Pow2(17) == 16 * Pow2(16);
    assert Pow2(32) == 2 * Pow2(31) == 4 * Pow2(30) == 8 * Pow2(29) == 16 * Pow2(28);
    assert Pow2(28) == 2 * Pow2(27) == 4 * Pow2(26) == 8 * Pow2(25) == 16 * Pow2(24);
  }

  /** __rt_ffs */
  function Ffs(value: nat): nat
    requires value < 0x1_0000_0000
  {
    if value == 0 then 0
    else if value % 0x100 != 0 then Entry(value % 0x100) + 1
    else if value / 0x100 % 0x100 != 0 then Entry(value / 0x100 % 0x100) + 9
    else if value / 0x1_0000 % 0x100 != 0 then Entry(value / 0x1_0000 % 0x100) + 17
    else Entry(value / 0x100_0000) + 25
  }

  /** __rt_ffs gives the number of the lowest set bit, counted from 1, and 0 for 0. */
  lemma FfsIsLowest(value: nat)
    requires value < 0x1_0000_0000
    ensures Ffs(value) == if value == 0 then 0 else Lowest(value) + 1
  {
    hide Lowest, Entry;
    PowersOf2();
    ZeroBytes(value);
    if value == 0 {
    } else if value % 0x100 != 0 {
      LowestMod(value, 8);
      EntryIsLowest(value % 0x100);
    } else if value / 0x100 % 0x100 != 0 {
      ByteAt(value, 8, 0x100);
    } else if value / 0x1_0000 % 0x100 != 0 {
      ByteAt(value, 16, 0x1_0000);
    } else {
      ByteAt(value, 24, 0x100_0000);
    }
  }

  /** Zero low bytes, and what is left then. */
  lemma ZeroBytes(v: nat)
    requires v < 0x1_0000_0000
    ensures v % 0x100 == 0 && v / 0x100 % 0x100 == 0 ==> v % 0x1_0000 == 0
    ensures v % 0x1_0000 == 0 && v / 0x1_0000 % 0x100 == 0 ==> v % 0x100_0000 == 0
    ensures v / 0x100_0000 % 0x100 == v / 0x100_0000 && (v % 0x100_0000 == 0 && v > 0 ==> v / 0x100_0000 > 0)
  {
    assert v % 0x1_0000 == v % 0x100 + 0x100 * (v / 0x100 % 0x100);
    assert v % 0x100_0000 == v % 0x1_0000 + 0x1_0000 * (v / 0x1_0000 % 0x100);
  }

  lemma ByteAt(value: nat, n: nat, m: nat)
    requires m == Pow2(n) && value > 0 && value % m == 0 && value / m % 0x100 != 0
    ensures Lowest(value) == n + Entry(value / m % 0x100)
  {
    hide Lowest, Entry;
    PowersOf2();
    LowestShift(value, n);
    LowestMod(value / m, 8);
    EntryIsLowest(value / m % 0x100);
  }
}

module ReadyIndex {
  import opened Words

  /** rt_thread_ready_priority_group, alone or with rt_thread_ready_table. */
  datatype Index = OneWord(group: nat) | TwoLevel(group: nat, table: seq<nat>)

  /** The priorities the form is for. */
  function Limit(ix: Index): nat {
    if ix.OneWord? then 32 else 256
  }

  /** Priority p is marked. */
  predicate Marked(ix: Index, p: nat) {
    match ix
    case OneWord(group) => p < 32 && Bit(group, p)
    case TwoLevel(_, table) => p / 8 < |table| && Bit(table[p / 8], p % 8)
  }

  predicate ByteOk(group: nat, table: seq<nat>, n: nat)
    requires n < |table|
  {
    table[n] < 0x100 && (Bit(group, n) <==> table[n] != 0)
  }

  /** A word of 32 bits; with a table, its bits say which bytes are not 0. */
  ghost predicate Ok(ix: Index) {
    && ix.group < 0x1_0000_0000
    && (ix.TwoLevel? ==> |ix.table| == 32 && forall n :: 0 <= n < 32 ==> ByteOk(ix.group, ix.table, n))
  }

  /** What rt_schedule_insert_thread does for a thread of priority p. */
  function Insert(ix: Index, p: nat): Index
    requires Ok(ix) && p < Limit(ix)
  {
    match ix
    case OneWord(group) => OneWord(Or(group, Pow2(p)))
    case TwoLevel(group, table) =>
      TwoLevel(Or(group, Pow2(p / 8)), table[p / 8 := Or(table[p / 8], Pow2(p % 8))])
  }

  /** What rt_schedule_remove_thread does when the queue of priority p has become empty. */
  function Clear(ix: Index, p: nat): Index
    requires Ok(ix) && p < Limit(ix)
  {
    match ix
    case OneWord(group) => OneWord(AndNot(group, Pow2(p)))
    case TwoLevel(group, table) =>
      var byte := AndNot(table[p / 8], Pow2(p % 8));
      TwoLevel(if byte == 0 then AndNot(group, Pow2(p / 8)) else group, table[p / 8 := byte])
  }

  /** highest_ready_priority in rt_schedule, if any priority is marked */
  function Highest(ix: Index): nat
    requires Ok(ix) && ix.group != 0
  {
    match ix
    case OneWord(group) => Ffs(group) - 1
    case TwoLevel(group, table) =>
      FirstByte(ix);
      var number := Ffs(group) - 1;
      number * 8 + Ffs(table[number]) - 1
  }

  lemma FirstByte(ix: Index)
    requires Ok(ix) && ix.group != 0
    ensures Ffs(ix.group) >= 1 && Ffs(ix.group) - 1 < 32
    ensures ix.TwoLevel? ==> 0 < ix.table[Ffs(ix.group) - 1] < 0x100 && Ffs(ix.table[Ffs(ix.group) - 1]) >= 1
  {
    hide Lowest, Ffs, Bit;
    PowersOf2();
    FfsIsLowest(ix.group);
    var k := Lowest(ix.group);
    FitsBits(ix.group, 32, k);
    if ix.TwoLevel? {
      assert ByteOk(ix.group, ix.table, k);
      FfsIsLowest(ix.table[k]);
    }
  }

  lemma OrMask(v: nat, p: nat, n: nat)
    requires v < Pow2(n) && p < n
    ensures Or(v, Pow2(p)) < Pow2(n) && Or(v, Pow2(p)) != 0
    ensures forall k: nat :: Bit(Or(v, Pow2(p)), k) <==> Bit(v, k) || k == p
  {
    hide Or, Bit, Pow2;
    var w := Or(v, Pow2(p));
    forall k: nat ensures Bit(w, k) <==> Bit(v, k) || k == p {
      OrBit(v, Pow2(p), k);
      MaskBit(p, k);
    }
    forall k: nat | Bit(w, k) ensures k < n {
      if k != p {
        FitsBits(v, n, k);
      }
    }
    BitsFit(w, n);
    assert Bit(w, p);
    ZeroBit(p);
  }

  lemma AndNotMask(v: nat, p: nat, n: nat)
    requires v < Pow2(n) && p < n
    ensures AndNot(v, Pow2(p)) < Pow2(n)
    ensures forall k: nat :: Bit(AndNot(v, Pow2(p)), k) <==> Bit(v, k) && k != p
    ensures AndNot(v, Pow2(p)) == 0 <==> OnlyBit(v, p)
  {
    hide AndNot, Pow2;
    var w := AndNot(v, Pow2(p));
    forall k: nat ensures Bit(w, k) <==> Bit(v, k) && k != p {
      AndNotBit(v, Pow2(p), k);
      MaskBit(p, k);
    }
    forall k: nat | Bit(w, k) ensures k < n {
      FitsBits(v, n, k);
    }
    BitsFit(w, n);
    if k: nat :| Bit(v, k) && k != p {
      assert Bit(w, k);
      BitNotZero(w, k);
      NotOnly(v, p, k);
    } else {
      NoBits(w);
    }
  }

  ghost predicate OnlyBit(v: nat, p: nat) {
    forall k: nat :: Bit(v, k) ==> k == p
  }

  lemma NotOnly(v: nat, p: nat, k: nat)
    requires Bit(v, k) && k != p
    ensures !OnlyBit(v, p)
  {
  }

  lemma BitNotZero(w: nat, k: nat)
    requires Bit(w, k)
    ensures w != 0
  {
    if w == 0 {
      ZeroBit(k);
    }
  }

  /** Insertion marks exactly one priority more. */
  lemma InsertMarks(ix: Index, p: nat)
    requires Ok(ix) && p < Limit(ix)
    ensures Ok(Insert(ix, p)) && Limit(Insert(ix, p)) == Limit(ix)
    ensures forall q: nat :: Marked(Insert(ix, p), q) <==> Marked(ix, q) || q == p
  {
    hide Or, Bit, Pow2;
    PowersOf2();
    match ix
    case OneWord(group) => OrMask(group, p, 32);
    case TwoLevel(group, table) =>
      var n := p / 8;
      assert ByteOk(group, table, n);
      OrMask(group, n, 32);
      OrMask(table[n], p % 8, 8);
      var ix' := Insert(ix, p);
      forall m | 0 <= m < 32 ensures ByteOk(ix'.group, ix'.table, m) {
        assert ByteOk(group, table, m);
      }
      forall q: nat ensures Marked(ix', q) <==> Marked(ix, q) || q == p {
        assert q / 8 == n && q % 8 == p % 8 ==> q == p;
      }
  }

  /** Clearing unmarks exactly one priority. */
  lemma ClearUnmarks(ix: Index, p: nat)
    requires Ok(ix) && p < Limit(ix)
    ensures Ok(Clear(ix, p)) && Limit(Clear(ix, p)) == Limit(ix)
    ensures forall q: nat :: Marked(Clear(ix, p), q) <==> Marked(ix, q) && q != p
  {
    hide AndNot, Bit, Pow2;
    PowersOf2();
    match ix
    case OneWord(group) => AndNotMask(group, p, 32);
    case TwoLevel(group, table) =>
      var n := p / 8;
      assert ByteOk(group, table, n);
      AndNotMask(group, n, 32);
      AndNotMask(table[n], p % 8, 8);
      var ix' := Clear(ix, p);
      if ix'.table[n] != 0 && table[n] == 0 {
        EmptyByte(table[n], p % 8);
      }
      forall m | 0 <= m < 32 ensures ByteOk(ix'.group, ix'.table, m) {
        assert ByteOk(group, table, m);
      }
      forall q: nat ensures Marked(ix', q) <==> Marked(ix, q) && q != p {
        assert q / 8 == n && q % 8 == p % 8 ==> q == p;
      }
  }

  lemma EmptyByte(v: nat, p: nat)
    requires v == 0
    ensures AndNot(v, Pow2(p)) == 0
  {
  }

  /** The bitmap is 0 if and only if no priority is marked. */
  lemma EmptyIff(ix: Index)
    requires Ok(ix)
    ensures ix.group == 0 <==> forall p: nat :: !Marked(ix, p)
  {
    hide Lowest, Bit;
    if ix.group == 0 {
      forall p: nat ensures !Marked(ix, p) {
        NothingMarked(ix, p);
      }
    } else {
      HighestIsLeast(ix);
    }
  }

  lemma NothingMarked(ix: Index, p: nat)
    requires Ok(ix) && ix.group == 0
    ensures !Marked(ix, p)
  {
    hide Bit;
    ZeroBit(p);
    ZeroBit(p / 8);
    ZeroBit(p % 8);
    if ix.TwoLevel? && p / 8 < 32 {
      assert ByteOk(ix.group, ix.table, p / 8);
    }
  }

  /** The scheduler finds the most urgent marked priority: the one with the least number. */
  lemma HighestIsLeast(ix: Index)
    requires Ok(ix) && ix.group != 0
    ensures Marked(ix, Highest(ix)) && forall p: nat :: Marked(ix, p) ==> Highest(ix) <= p
  {
    hide Lowest, Bit, Ffs;
    PowersOf2();
    FirstByte(ix);
    FfsIsLowest(ix.group);
    var k := Lowest(ix.group);
    LowestIs(ix.group);
    match ix
    case OneWord(group) =>
      FitsBits(group, 32, k);
      forall p: nat | Marked(ix, p) ensures Highest(ix) <= p {
      }
    case TwoLevel(group, table) =>
      assert ByteOk(group, table, k);
      FfsIsLowest(table[k]);
      var j := Lowest(table[k]);
      LowestIs(table[k]);
      FitsBits(table[k], 8, j);
      assert Highest(ix) == k * 8 + j;
      forall p: nat | Marked(ix, p) ensures Highest(ix) <= p {
        assert ByteOk(group, table, p / 8);
        ZeroBit(p % 8);
        assert p == p / 8 * 8 + p % 8;
      }
  }

  lemma LowestIs(v: nat)
    requires v > 0
    ensures Bit(v, Lowest(v)) && forall j: nat :: Bit(v, j) ==> Lowest(v) <= j
  {
    hide Lowest, Bit;
  }
}
