/**
 The zones of src/slab.c: how a request is rounded to a chunk size, how a zone is laid out,
 and what taking and giving back a chunk does to it.
 */
module ZoneClasses {
  const NZONES: nat := 72

  /** n rounded up to a multiple of g, as (n + g - 1) & ~(g - 1) does for powers of two. */
  function RoundUp(n: nat, g: nat): nat
    requires g > 0
  {
    (n + g - 1) / g * g
  }

  /** zoneindex: the zone class of a request and the size it is rounded to. */
  function ZoneIndex(n: nat): (r: (nat, nat))
    requires 0 < n < 16384
  {
    if n < 128 then (RoundUp(n, 8) / 8 - 1, RoundUp(n, 8))
    else if n < 256 then (RoundUp(n, 16) / 16 + 7, RoundUp(n, 16))
    else if n < 512 then (RoundUp(n, 32) / 32 + 15, RoundUp(n, 32))
    else if n < 1024 then (RoundUp(n, 64) / 64 + 23, RoundUp(n, 64))
    else if n < 2048 then (RoundUp(n, 128) / 128 + 31, RoundUp(n, 128))
    else if n < 4096 then (RoundUp(n, 256) / 256 + 39, RoundUp(n, 256))
    else if n < 8192 then (RoundUp(n, 512) / 512 + 47, RoundUp(n, 512))
    else (RoundUp(n, 1024) / 1024 + 55, RoundUp(n, 1024))
  }

  /** The chunk size of a zone class. */
  function ChunkSize(zi: nat): nat {
    if zi < 16 then 8 * (zi + 1)
    else if zi < 24 then 16 * (zi - 7)
    else if zi < 32 then 32 * (zi - 15)
    else if zi < 40 then 64 * (zi - 23)
    else if zi < 48 then 128 * (zi - 31)
    else if zi < 56 then 256 * (zi - 39)
    else if zi < 64 then 512 * (zi - 47)
    else 1024 * (zi - 55)
  }

  /** A request gets the smallest class that fits it, and the size of that class. */
  lemma ZoneIndexFits(n: nat)
    requires 0 < n < 16384
    ensures var (zi, size) := ZoneIndex(n);
      zi < NZONES && size == ChunkSize(zi) && n <= size && (zi > 0 ==> ChunkSize(zi - 1) < n)
  {
    hide RoundUp;
    var g := if n < 128 then 8 else if n < 256 then 16 else if n < 512 then 32 else if n < 1024 then 64
             else if n < 2048 then 128 else if n < 4096 then 256 else if n < 8192 then 512 else 1024;
    Rounded(n, g);
  }

  lemma Rounded(n: nat, g: nat)
    requires n > 0 && g > 0
    ensures var q := RoundUp(n, g) / g;
      RoundUp(n, g) == q * g && n <= q * g < n + g
  {
    var q := (n + g - 1) / g;
    assert n + g - 1 == q * g + (n + g - 1) % g;
    ModOf(q * g, q, 0, g);
  }

  /** Classes are ordered by their sizes. */
  lemma {:induction false} ChunkSizeGrows(i: nat, j: nat)
    requires i < j < NZONES
    ensures 8 <= ChunkSize(i) < ChunkSize(j) <= 16384
    decreases j
  {
    if i + 1 < j {
      ChunkSizeGrows(i, j - 1);
    }
  }

  predicate IsPow2(n: nat) {
    n == 1 || (n > 0 && n % 2 == 0 && IsPow2(n / 2))
  }

  function Quotient(a: nat, b: nat): nat
    requires b > 0
  {
    a / b
  }

  // ----- the layout of a zone -----

  /** sizeof(slab_zone) */
  const HEADER: nat := 36

  /** Where the chunks start in a zone. */
  function Offset(size: nat): nat
    requires size > 0
  {
    if IsPow2(size) then RoundUp(HEADER, size) else RoundUp(HEADER, 8)
  }

  function ChunkAt(base: nat, size: nat, i: nat): nat {
    base + i * size
  }

  lemma {:induction false} ChunkStep(base: nat, size: nat, i: nat, j: nat)
    requires i < j
    ensures ChunkAt(base, size, i) + size <= ChunkAt(base, size, j)
    decreases j
  {
    assert j * size == (j - 1) * size + size;
    if i < j - 1 {
      ChunkStep(base, size, i, j - 1);
    }
  }

  lemma OffsetBounds(size: nat)
    requires size > 0
    ensures HEADER <= Offset(size) && (Offset(size) < HEADER + size || Offset(size) == 40)
  {
    RoundUpBounds(HEADER, size);
  }

  lemma RoundUpBounds(n: nat, g: nat)
    requires g > 0
    ensures n <= RoundUp(n, g) < n + g && RoundUp(n, g) % g == 0
  {
    var q := (n + g - 1) / g;
    assert n + g - 1 == q * g + (n + g - 1) % g;
    MultipleMod(q, g);
  }

  lemma {:induction false} MultipleMod(q: nat, g: nat)
    requires g > 0
    ensures (q * g) % g == 0
  {
    if q > 0 {
      MultipleMod(q - 1, g);
      assert q * g == (q - 1) * g + g;
      AddMod((q - 1) * g, g);
    }
  }

  lemma AddMod(x: nat, g: nat)
    requires g > 0
    ensures (x + g) % g == x % g
  {
    var q, r := x / g, x % g;
    assert x + g == (q + 1) * g + r;
    ModOf(x + g, q + 1, r, g);
  }

  lemma ModOf(x: nat, q: nat, r: nat, g: nat)
    requires x == q * g + r && r < g
    ensures x % g == r && x / g == q
  {
    var q', r' := x / g, x % g;
    assert x == q' * g + r';
    if q < q' {
      ChunkStep(0, g, q, q');
    } else if q' < q {
      ChunkStep(0, g, q', q);
    }
  }

  /** A power-of-two chunk is aligned to its size if and only if its zone is: the code aligns
      the offset in the zone, and zones are only aligned to pages. */
  lemma {:induction false} AlignedIff(zone: nat, size: nat, i: nat)
    requires size > 0 && IsPow2(size)
    ensures ChunkAt(zone + Offset(size), size, i) % size == 0 <==> zone % size == 0
  {
    RoundUpBounds(HEADER, size);
    var q := (HEADER + size - 1) / size;
    assert Offset(size) == q * size;
    AddMultiple(zone, q, size);
    AddMultiple(zone + q * size, i, size);
  }

  lemma {:induction false} AddMultiple(x: nat, q: nat, g: nat)
    requires g > 0
    ensures (x + q * g) % g == x % g
  {
    if q > 0 {
      AddMultiple(x, q - 1, g);
      assert x + q * g == x + (q - 1) * g + g;
      AddMod(x + (q - 1) * g, g);
    }
  }

  /** At least two chunks fit a zone of four times the size and more. */
  lemma ChunksFit(zoneSize: nat, size: nat)
    requires size >= 8 && 4 * size <= zoneSize && zoneSize >= 4096
    ensures var n := (zoneSize - Offset(size)) / size;
      Offset(size) <= zoneSize && n >= 2 && ChunkAt(Offset(size), size, n) <= zoneSize
  {
    OffsetBounds(size);
    var room := zoneSize - Offset(size);
    var n := room / size;
    assert room == n * size + room % size;
    assert n < 2 ==> n * size <= size;
  }
}
