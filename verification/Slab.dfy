/**
 rt_malloc and rt_free of src/slab.c over the page allocator: zones of equal chunks for small
 requests, runs of pages for large ones, and a usage entry per page that leads from a pointer
 back to its zone.

 Zones are numbered by their first page; the lists that zones and chunks are linked into are
 kept as sequences.
 */
module SlabState {
  import opened PageRuns
  import opened ZoneClasses

  /** RT_MM_PAGE_SIZE */
  const PAGE: nat := 4096

  datatype PageKind = PageFree | PageSmall | PageLarge

  /** struct memusage */
  datatype Usage = Usage(kind: PageKind, size: nat)

  /** slab_zone: `chunks` is the list z_freechunk. */
  datatype Zone = Zone(nfree: int, nmax: nat, base: nat, uindex: nat, size: nat, zi: nat, chunks: seq<nat>)

  /** What a caller holds: a chunk of a zone, or whole pages. */
  datatype Block = Chunk(zone: nat, size: nat) | Large(pages: nat)

  function Bytes(b: Block): nat {
    match b
    case Chunk(_, size) => size
    case Large(n) => n * PAGE
  }

  // ----- one zone -----

  ghost predicate IsGiven(Z: Zone, p: nat) {
    exists i: nat :: i <= Z.uindex && p == ChunkAt(Z.base, Z.size, i)
  }

  predicate OfZone(live: map<nat, Block>, p: nat, z: nat) {
    p in live && live[p].Chunk? && live[p].zone == z
  }

  /** The number of chunks that fit a zone. */
  function Chunks(size: nat, zpc: nat): nat
    requires size > 0 && Offset(size) <= zpc * PAGE
  {
    Quotient(zpc * PAGE - Offset(size), size)
  }

  predicate Layout(z: nat, Z: Zone, zpc: nat) {
    && Z.zi < NZONES && Z.size == ChunkSize(Z.zi) && 8 <= Z.size && 4 * Z.size <= zpc * PAGE
    && Z.base == z * PAGE + Offset(Z.size) && Offset(Z.size) <= zpc * PAGE
    && Z.nmax == Chunks(Z.size, zpc)
  }

  /** The chunks given out so far are the callers' and the listed ones, each once; z_nfree
      counts the listed ones and those never given out, which is all that callers do not hold. */
  ghost predicate ZoneOk(z: nat, Z: Zone, live: map<nat, Block>, zpc: nat) {
    && Layout(z, Z, zpc)
    && Z.uindex < Z.nmax && Z.nfree == Z.nmax - 1 - Z.uindex + |Z.chunks|
    && Z.nfree + |Held(live, z)| == Z.nmax
    && (forall i, j :: 0 <= i < j < |Z.chunks| ==> Z.chunks[i] != Z.chunks[j])
    && (forall i :: 0 <= i < |Z.chunks| ==> IsGiven(Z, Z.chunks[i]))
    && (forall p: nat :: OfZone(live, p, z) <==> IsGiven(Z, p) && p !in Z.chunks)
    && (forall p: nat :: OfZone(live, p, z) ==> live[p].size == Z.size)
  }

  lemma ZoneFrame(z: nat, Z: Zone, live: map<nat, Block>, live': map<nat, Block>, zpc: nat)
    requires ZoneOk(z, Z, live, zpc)
    requires forall p: nat :: OfZone(live', p, z) <==> OfZone(live, p, z)
    requires forall p: nat :: OfZone(live', p, z) && OfZone(live, p, z) ==> live'[p] == live[p]
    ensures ZoneOk(z, Z, live', zpc)
  {
    hide IsGiven, Layout;
    HeldSame(live, live', z);
  }

  /** Chunks lie in their zone, behind its header, and do not overlap. */
  lemma GivenBounds(z: nat, Z: Zone, zpc: nat, p: nat)
    requires Layout(z, Z, zpc) && Z.uindex < Z.nmax && zpc >= 1 && IsGiven(Z, p)
    ensures z * PAGE + HEADER <= p && p + Z.size <= (z + zpc) * PAGE
    ensures z <= p / PAGE < z + zpc
  {
    hide IsPow2, Offset, ChunkSize;
    var i: nat :| i <= Z.uindex && p == ChunkAt(Z.base, Z.size, i);
    ChunksFit(zpc * PAGE, Z.size);
    OffsetBounds(Z.size);
    ChunkStep(Z.base, Z.size, i, Z.nmax);
    assert ChunkAt(Z.base, Z.size, Z.nmax) == z * PAGE + ChunkAt(Offset(Z.size), Z.size, Z.nmax);
    assert ChunkAt(Z.base, Z.size, i) >= Z.base;
    assert (z + zpc) * PAGE == z * PAGE + zpc * PAGE;
  }

  lemma GivenApart(Z: Zone, p: nat, q: nat)
    requires IsGiven(Z, p) && IsGiven(Z, q) && p != q
    ensures p + Z.size <= q || q + Z.size <= p
  {
    var i: nat :| i <= Z.uindex && p == ChunkAt(Z.base, Z.size, i);
    var j: nat :| j <= Z.uindex && q == ChunkAt(Z.base, Z.size, j);
    if i < j {
      ChunkStep(Z.base, Z.size, i, j);
    } else {
      ChunkStep(Z.base, Z.size, j, i);
    }
  }

  function Grown(Z: Zone): Zone {
    Z.(nfree := Z.nfree - 1, uindex := Z.uindex + 1)
  }

  /** Giving out one chunk more: exactly that one is new. */
  lemma GivenGrown(Z: Zone, p: nat)
    requires Z.size > 0
    ensures IsGiven(Grown(Z), p) <==> IsGiven(Z, p) || p == ChunkAt(Z.base, Z.size, Z.uindex + 1)
    ensures !IsGiven(Z, ChunkAt(Z.base, Z.size, Z.uindex + 1))
  {
    var last := ChunkAt(Z.base, Z.size, Z.uindex + 1);
    if IsGiven(Z, last) {
      var i: nat :| i <= Z.uindex && last == ChunkAt(Z.base, Z.size, i);
      ChunkStep(Z.base, Z.size, i, Z.uindex + 1);
    }
    if IsGiven(Grown(Z), p) {
      var i: nat :| i <= Z.uindex + 1 && p == ChunkAt(Z.base, Z.size, i);
      assert i <= Z.uindex ==> IsGiven(Z, p);
    }
    if IsGiven(Z, p) {
      var i: nat :| i <= Z.uindex && p == ChunkAt(Z.base, Z.size, i);
      assert i <= Grown(Z).uindex && p == ChunkAt(Grown(Z).base, Grown(Z).size, i);
    }
    assert Z.uindex + 1 <= Grown(Z).uindex && last == ChunkAt(Grown(Z).base, Grown(Z).size, Z.uindex + 1);
  }

  lemma TakeFresh(z: nat, Z: Zone, live: map<nat, Block>, zpc: nat)
    requires ZoneOk(z, Z, live, zpc) && Z.uindex + 1 != Z.nmax
    ensures var p := ChunkAt(Z.base, Z.size, Z.uindex + 1);
      ZoneOk(z, Grown(Z), live[p := Chunk(z, Z.size)], zpc) && !OfZone(live, p, z) && IsGiven(Grown(Z), p)
  {
    hide IsGiven, Offset, ChunkSize, Held;
    var p := ChunkAt(Z.base, Z.size, Z.uindex + 1);
    GivenGrown(Z, p);
    HeldMore(live, z, p, Z.size);
    forall x: nat ensures (IsGiven(Grown(Z), x) <==> IsGiven(Z, x) || x == p) && !IsGiven(Z, p) {
      GivenGrown(Z, x);
    }
  }

  lemma TakeListed(z: nat, Z: Zone, live: map<nat, Block>, zpc: nat)
    requires ZoneOk(z, Z, live, zpc) && Z.chunks != []
    ensures var p, Z' := Z.chunks[0], Z.(nfree := Z.nfree - 1, chunks := Z.chunks[1..]);
      ZoneOk(z, Z', live[p := Chunk(z, Z.size)], zpc) && !OfZone(live, p, z) && IsGiven(Z', p)
  {
    hide Offset, ChunkSize, IsGiven, Held;
    var p, Z' := Z.chunks[0], Z.(nfree := Z.nfree - 1, chunks := Z.chunks[1..]);
    SameGiven(Z, Z');
    assert forall x: nat :: x in Z.chunks <==> x in Z.chunks[1..] || x == p;
    HeldMore(live, z, p, Z.size);
  }

  lemma SameGiven(Z: Zone, Z': Zone)
    requires Z'.base == Z.base && Z'.size == Z.size && Z'.uindex == Z.uindex
    ensures forall p: nat :: IsGiven(Z', p) <==> IsGiven(Z, p)
  {
  }

  lemma GiveBack(z: nat, Z: Zone, live: map<nat, Block>, zpc: nat, p: nat)
    requires ZoneOk(z, Z, live, zpc) && OfZone(live, p, z)
    ensures ZoneOk(z, Z.(nfree := Z.nfree + 1, chunks := [p] + Z.chunks), live - {p}, zpc)
  {
    hide Offset, ChunkSize, IsGiven, Held;
    var Z' := Z.(nfree := Z.nfree + 1, chunks := [p] + Z.chunks);
    SameGiven(Z, Z');
    assert forall x: nat :: x in Z'.chunks <==> x in Z.chunks || x == p;
    HeldLess(live, z, p);
  }

  function NewZone(z: nat, size: nat, zi: nat, zpc: nat): Zone
    requires size > 0 && Offset(size) <= zpc * PAGE
  {
    var nmax := Chunks(size, zpc);
    Zone(nmax - 1, nmax, z * PAGE + Offset(size), 0, size, zi, [])
  }

  /** A new zone gives out its first chunk. */
  lemma FreshZone(z: nat, zi: nat, live: map<nat, Block>, zpc: nat)
    requires zi < NZONES && 4 * ChunkSize(zi) <= zpc * PAGE && zpc >= 1 && (forall p: nat :: !OfZone(live, p, z))
    ensures ChunkSize(zi) > 0 && Offset(ChunkSize(zi)) <= zpc * PAGE
    ensures var Z := NewZone(z, ChunkSize(zi), zi, zpc); var p := ChunkAt(Z.base, Z.size, 0);
      ZoneOk(z, Z, live[p := Chunk(z, Z.size)], zpc) && IsGiven(Z, p) && Z.nfree > 0
  {
    hide IsPow2, Offset, ChunkSize, Held, IsGiven, Chunks, ChunkAt;
    ChunkSizeAtLeast(zi);
    EnoughChunks(ChunkSize(zi), zpc);
    var Z := NewZone(z, ChunkSize(zi), zi, zpc);
    var p := ChunkAt(Z.base, Z.size, 0);
    OnlyFirst(Z, p);
    assert Held(live, z) == {} by { NoneHeld(live, z); }
    HeldMore(live, z, p, Z.size);
    var l := live[p := Chunk(z, Z.size)];
    forall x: nat ensures OfZone(l, x, z) <==> x == p {
      assert !OfZone(live, x, z);
    }
  }

  lemma EnoughChunks(size: nat, zpc: nat)
    requires size >= 8 && 4 * size <= zpc * PAGE && zpc >= 1
    ensures Offset(size) <= zpc * PAGE && Chunks(size, zpc) >= 2
  {
    ChunksFit(zpc * PAGE, size);
  }

  lemma NoneHeld(live: map<nat, Block>, z: nat)
    requires forall p: nat :: !OfZone(live, p, z)
    ensures Held(live, z) == {}
  {
  }

  lemma OnlyFirst(Z: Zone, p: nat)
    requires Z.uindex == 0 && p == ChunkAt(Z.base, Z.size, 0)
    ensures forall x: nat :: IsGiven(Z, x) <==> x == p
  {
    assert 0 <= Z.uindex && p == ChunkAt(Z.base, Z.size, 0);
    forall x: nat ensures IsGiven(Z, x) <==> x == p {
      if IsGiven(Z, x) {
        var i: nat :| i <= Z.uindex && x == ChunkAt(Z.base, Z.size, i);
        assert i == 0;
      }
    }
  }

  lemma ChunkSizeAtLeast(zi: nat)
    requires zi < NZONES
    ensures 8 <= ChunkSize(zi) <= 16384
  {
  }

  /** A zone with room gives out a chunk: a fresh one if there is one, otherwise a listed one. */
  lemma RoomLeft(z: nat, Z: Zone, live: map<nat, Block>, zpc: nat)
    requires ZoneOk(z, Z, live, zpc) && Z.nfree > 0 && Z.uindex + 1 == Z.nmax
    ensures Z.chunks != []
  {
  }

  /** The chunks of a zone that callers hold. */
  function Held(live: map<nat, Block>, z: nat): set<nat> {
    set p: nat | p in live && OfZone(live, p, z)
  }

  lemma HeldMore(live: map<nat, Block>, z: nat, p: nat, size: nat)
    requires !OfZone(live, p, z)
    ensures |Held(live[p := Chunk(z, size)], z)| == |Held(live, z)| + 1
  {
    assert Held(live[p := Chunk(z, size)], z) == Held(live, z) + {p};
  }

  lemma HeldLess(live: map<nat, Block>, z: nat, p: nat)
    requires OfZone(live, p, z)
    ensures |Held(live - {p}, z)| == |Held(live, z)| - 1
  {
    assert Held(live - {p}, z) == Held(live, z) - {p};
  }

  lemma HeldSame(live: map<nat, Block>, live': map<nat, Block>, z: nat)
    requires forall p: nat :: OfZone(live', p, z) <==> OfZone(live, p, z)
    ensures Held(live', z) == Held(live, z)
  {
  }

  /** All chunks of a zone are free if and only if no caller holds one. */
  lemma NoneHeldIff(z: nat, Z: Zone, live: map<nat, Block>, zpc: nat)
    requires ZoneOk(z, Z, live, zpc)
    ensures Z.nfree == Z.nmax <==> forall p: nat :: !OfZone(live, p, z)
  {
    hide IsGiven, Layout, Held;
    if Z.nfree == Z.nmax {
      EmptyHeld(live, z);
    }
    if forall p: nat :: !OfZone(live, p, z) {
      NoneHeld(live, z);
    }
  }

  lemma EmptyHeld(live: map<nat, Block>, z: nat)
    requires |Held(live, z)| == 0
    ensures forall p: nat :: !OfZone(live, p, z)
  {
    forall p: nat ensures OfZone(live, p, z) ==> p in Held(live, z) {
    }
  }

  // ----- all zones -----

  /** Whole zones at rest have no chunk in use. */
  ghost predicate ZonesOk(zones: map<nat, Zone>, zfree: seq<nat>, live: map<nat, Block>, zpc: nat) {
    && (forall z :: z in zones && z !in zfree ==> ZoneOk(z, zones[z], live, zpc))
    && (forall p, z :: OfZone(live, p, z) ==> z in zones && z !in zfree)
  }

  ghost predicate Distinct(q: seq<nat>) {
    forall i, j :: 0 <= i < j < |q| ==> q[i] != q[j]
  }

  /** A zone is listed for its class if and only if it has free chunks and is not at rest. */
  predicate Listable(zones: map<nat, Zone>, zfree: seq<nat>, z: nat, zi: nat) {
    z in zones && z !in zfree && zones[z].zi == zi && zones[z].nfree > 0
  }

  ghost predicate ClassOk(q: seq<nat>, zones: map<nat, Zone>, zfree: seq<nat>, zi: nat) {
    Distinct(q) && forall z: nat :: z in q <==> Listable(zones, zfree, z, zi)
  }

  ghost predicate ListsOk(arr: seq<seq<nat>>, zones: map<nat, Zone>, zfree: seq<nat>) {
    && |arr| == NZONES && (forall zi :: 0 <= zi < NZONES ==> ClassOk(arr[zi], zones, zfree, zi))
    && Distinct(zfree) && (forall i :: 0 <= i < |zfree| ==> zfree[i] in zones)
  }

  // ----- pages -----

  /** Blocks of pages that are not on the free list and do not overlap. */
  ghost predicate OwnedOk(runs: seq<Run>, owned: map<nat, nat>) {
    && (forall a :: a in owned ==> a > 0 && owned[a] > 0 && NoneFree(runs, a, owned[a]))
    && (forall a, c :: a in owned && c in owned && a != c ==> a + owned[a] <= c || c + owned[c] <= a)
  }

  predicate LargeAt(live: map<nat, Block>, p: nat) {
    p in live && live[p].Large?
  }

  /** Zones and large blocks own their pages, and the usage entries lead back to them. */
  ghost predicate PagesOk(usage: map<nat, Usage>, zones: map<nat, Zone>, live: map<nat, Block>, owned: map<nat, nat>,
      zpc: nat) {
    && (forall z :: z in zones ==> z in owned && owned[z] == zpc)
    && (forall z, k: nat {:trigger UsageOf(usage, z, k)} :: z in zones && k < zpc ==>
      UsageOf(usage, z, k) == Usage(PageSmall, k))
    && (forall p: nat :: LargeAt(live, p) ==> LargeOk(usage, zones, owned, p, live[p].pages))
  }

  function UsageOf(usage: map<nat, Usage>, z: nat, k: nat): Usage {
    if z + k in usage then usage[z + k] else Usage(PageFree, 0)
  }

  predicate LargeOk(usage: map<nat, Usage>, zones: map<nat, Zone>, owned: map<nat, nat>, p: nat, n: nat) {
    && p % PAGE == 0 && n > 0 && p / PAGE in owned && owned[p / PAGE] == n && p / PAGE !in zones
    && p / PAGE in usage && usage[p / PAGE] == Usage(PageLarge, n)
  }

  // ----- statistics -----

  /** The bytes that callers hold. */
  function Used(live: map<nat, Block>): nat {
    if live == map[] then 0
    else (
      var p := Least(live.Keys);
      Bytes(live[p]) + Used(live - {p}))
  }

  lemma {:induction false} Smaller(s: set<nat>, x: nat) returns (m: nat)
    requires x in s
    ensures m in s && forall y :: y in s ==> m <= y
    decreases x
  {
    if y :| y in s && y < x {
      m := Smaller(s, y);
    } else {
      m := x;
    }
  }

  lemma HasLeast(s: set<nat>)
    requires s != {}
    ensures exists m :: m in s && forall y :: y in s ==> m <= y
  {
    var x :| x in s;
    var m := Smaller(s, x);
  }

  function Least(s: set<nat>): (m: nat)
    requires s != {}
    ensures m in s
  {
    HasLeast(s);
    var m: nat :| m in s && forall y :: y in s ==> m <= y;
    m
  }

  lemma {:induction false} UsedWithout(live: map<nat, Block>, p: nat)
    requires p in live
    ensures Used(live) == Bytes(live[p]) + Used(live - {p})
    decreases |live|
  {
    hide Least, Bytes;
    var q := Least(live.Keys);
    if q != p {
      assert p in (live - {q}) && q in (live - {p});
      FewerKeys(live, q);
      FewerKeys(live, p);
      UsedWithout(live - {q}, p);
      UsedWithout(live - {p}, q);
      assert live - {q} - {p} == live - {p} - {q};
    }
  }

  lemma FewerKeys(live: map<nat, Block>, p: nat)
    requires p in live
    ensures |live - {p}| < |live|
  {
    assert (live - {p}).Keys == live.Keys - {p};
  }

  lemma UsedWith(live: map<nat, Block>, p: nat, b: Block)
    requires p !in live
    ensures Used(live[p := b]) == Used(live) + Bytes(b)
  {
    UsedWithout(live[p := b], p);
    assert live[p := b] - {p} == live;
  }

  // ----- the whole allocator -----

  datatype State = State(usage: map<nat, Usage>, zones: map<nat, Zone>, arr: seq<seq<nat>>, zfree: seq<nat>,
                         live: map<nat, Block>, owned: map<nat, nat>, runs: seq<Run>)

  ghost predicate Ok(s: State, zpc: nat) {
    && zpc >= 1 && Canonical(s.runs)
    && ZonesOk(s.zones, s.zfree, s.live, zpc) && ListsOk(s.arr, s.zones, s.zfree)
    && OwnedOk(s.runs, s.owned) && PagesOk(s.usage, s.zones, s.live, s.owned, zpc)
  }

  /** Where a held block lies: in its zone, or in its own pages. */
  lemma BlockAt(s: State, zpc: nat, p: nat)
    requires Ok(s, zpc) && p in s.live
    ensures p > 0
    ensures s.live[p].Chunk? ==>
      var z: nat := s.live[p].zone;
      && z in s.zones && z !in s.zfree && z in s.owned && s.owned[z] == zpc && IsGiven(s.zones[z], p)
      && ZoneOk(z, s.zones[z], s.live, zpc) && s.live[p].size == s.zones[z].size
      && z * PAGE <= p && p + Bytes(s.live[p]) <= (z + zpc) * PAGE && z <= p / PAGE < z + zpc
    ensures s.live[p].Large? ==>
      var q: nat := p / PAGE;
      p == q * PAGE && q in s.owned && s.owned[q] == s.live[p].pages && q !in s.zones
      && LargeOk(s.usage, s.zones, s.owned, p, s.live[p].pages)
  {
    hide ListsOk, Canonical, UsageOf;
    if s.live[p].Chunk? {
      var z: nat := s.live[p].zone;
      assert OfZone(s.live, p, z);
      GivenBounds(z, s.zones[z], zpc, p);
    } else {
      assert LargeAt(s.live, p);
      assert p / PAGE > 0;
    }
  }

  /** The page that owns a held block, and how many pages it has there. */
  function Home(b: Block, p: nat): nat {
    match b
    case Chunk(z, _) => z
    case Large(_) => p / PAGE
  }

  lemma BlockInHome(s: State, zpc: nat, p: nat)
    requires Ok(s, zpc) && p in s.live
    ensures var h: nat := Home(s.live[p], p);
      h in s.owned && h * PAGE <= p && p + Bytes(s.live[p]) <= (h + s.owned[h]) * PAGE && Bytes(s.live[p]) > 0
  {
    hide Ok, IsGiven, LargeOk;
    BlockAt(s, zpc, p);
    if s.live[p].Large? {
      var q: nat := p / PAGE;
      assert (q + s.owned[q]) * PAGE == q * PAGE + s.owned[q] * PAGE;
      LargeSome(s, zpc, p);
    }
  }

  lemma LargeSome(s: State, zpc: nat, p: nat)
    requires Ok(s, zpc) && p in s.live && s.live[p].Large?
    ensures s.live[p].pages > 0
  {
    assert LargeAt(s.live, p);
  }

  /** No two callers hold the same byte. */
  lemma HeldDisjoint(s: State, zpc: nat, p: nat, q: nat)
    requires Ok(s, zpc) && p in s.live && q in s.live && p != q
    ensures p + Bytes(s.live[p]) <= q || q + Bytes(s.live[q]) <= p
  {
    hide Ok, IsGiven;
    BlockInHome(s, zpc, p);
    BlockInHome(s, zpc, q);
    BlockAt(s, zpc, p);
    BlockAt(s, zpc, q);
    var h: nat, g: nat := Home(s.live[p], p), Home(s.live[q], q);
    if h == g {
      if s.live[p].Chunk? && s.live[q].Chunk? {
        GivenApart(s.zones[h], p, q);
      }
    } else {
      HomesApart(s, zpc, h, g);
    }
  }

  lemma HomesApart(s: State, zpc: nat, a: nat, c: nat)
    requires Ok(s, zpc) && a in s.owned && c in s.owned && a != c
    ensures (a + s.owned[a]) * PAGE <= c * PAGE || (c + s.owned[c]) * PAGE <= a * PAGE
  {
    hide ZonesOk, ListsOk, PagesOk, Canonical;
  }

  /** The usage entry of the page that a held pointer lies in leads to its block. */
  lemma UsageLeadsBack(s: State, zpc: nat, p: nat)
    requires Ok(s, zpc) && p in s.live
    ensures p / PAGE in s.usage
    ensures s.live[p].Large? ==> s.usage[p / PAGE] == Usage(PageLarge, s.live[p].pages)
    ensures s.live[p].Chunk? ==> s.usage[p / PAGE].kind == PageSmall && s.usage[p / PAGE].size <= p / PAGE
                                 && p / PAGE - s.usage[p / PAGE].size == s.live[p].zone
  {
    hide ZonesOk, ListsOk, Canonical, OwnedOk;
    BlockAt(s, zpc, p);
    if s.live[p].Chunk? {
      var z: nat := s.live[p].zone;
      assert UsageOf(s.usage, z, p / PAGE - z) == Usage(PageSmall, p / PAGE - z);
    }
  }

  /** A pointer into a zone is held only as a chunk of it. */
  lemma InZone(s: State, zpc: nat, z: nat, p: nat)
    requires Ok(s, zpc) && z in s.owned && z * PAGE <= p < (z + s.owned[z]) * PAGE && p in s.live
    ensures Home(s.live[p], p) == z
  {
    hide Ok;
    BlockInHome(s, zpc, p);
    if Home(s.live[p], p) != z {
      HomesApart(s, zpc, Home(s.live[p], p), z);
    }
  }

  // ----- what each operation keeps -----

  /** The zone at the front of its class has given out a chunk; it leaves the class when empty. */
  lemma ListTaken(arr: seq<seq<nat>>, zones: map<nat, Zone>, zfree: seq<nat>, z: nat, Z: Zone)
    requires ListsOk(arr, zones, zfree) && z in zones && Z.zi == zones[z].zi < NZONES && Z.nfree == zones[z].nfree - 1
    requires arr[Z.zi] != [] && arr[Z.zi][0] == z
    ensures ListsOk(if Z.nfree == 0 then arr[Z.zi := arr[Z.zi][1..]] else arr, zones[z := Z], zfree)
  {
    var zi, q, zones' := Z.zi, arr[Z.zi], zones[z := Z];
    var arr' := if Z.nfree == 0 then arr[zi := q[1..]] else arr;
    assert z in q && Listable(zones, zfree, z, zi);
    assert forall x: nat :: x in q <==> x == z || x in q[1..];
    assert z !in q[1..];
    forall i | 0 <= i < NZONES ensures ClassOk(arr'[i], zones', zfree, i) {
      assert ClassOk(arr[i], zones, zfree, i);
      forall x: nat ensures x != z ==> Listable(zones', zfree, x, i) == Listable(zones, zfree, x, i) {
      }
    }
  }

  /** A zone that has got its first free chunk is put at the front of its class. */
  lemma ListGiven(arr: seq<seq<nat>>, zones: map<nat, Zone>, zfree: seq<nat>, z: nat, Z: Zone)
    requires ListsOk(arr, zones, zfree) && z in zones && z !in zfree && Z.zi == zones[z].zi < NZONES
    requires Z.nfree == zones[z].nfree + 1 && zones[z].nfree >= 0
    ensures ListsOk(if zones[z].nfree == 0 then arr[Z.zi := [z] + arr[Z.zi]] else arr, zones[z := Z], zfree)
  {
    var zi, q, zones' := Z.zi, arr[Z.zi], zones[z := Z];
    var arr' := if zones[z].nfree == 0 then arr[zi := [z] + q] else arr;
    assert ClassOk(q, zones, zfree, zi);
    assert forall x: nat :: x in [z] + q <==> x == z || x in q;
    forall i | 0 <= i < NZONES ensures ClassOk(arr'[i], zones', zfree, i) {
      assert ClassOk(arr[i], zones, zfree, i);
      forall x: nat ensures x != z ==> Listable(zones', zfree, x, i) == Listable(zones, zfree, x, i) {
      }
      assert zones[z].nfree == 0 ==> !Listable(zones, zfree, z, i);
    }
  }

  /** A list without its member z. */
  function Without(q: seq<nat>, z: nat): seq<nat> {
    if q == [] then [] else if q[0] == z then q[1..] else [q[0]] + Without(q[1..], z)
  }

  lemma {:induction false} WithoutIs(q: seq<nat>, z: nat)
    requires Distinct(q)
    ensures Distinct(Without(q, z)) && forall x: nat :: x in Without(q, z) <==> x in q && x != z
  {
    if q != [] && q[0] != z {
      WithoutIs(q[1..], z);
      var d := Without(q[1..], z);
      assert forall x: nat :: x in [q[0]] + d <==> x == q[0] || x in d;
      assert q[0] !in d;
      forall i, j | 0 <= i < j < |[q[0]] + d| ensures ([q[0]] + d)[i] != ([q[0]] + d)[j] {
        assert d[j - 1] in d;
      }
    }
  }

  /** A zone leaves its class for the zones at rest. */
  lemma ListRested(arr: seq<seq<nat>>, zones: map<nat, Zone>, zfree: seq<nat>, z: nat)
    requires ListsOk(arr, zones, zfree) && z in zones && z !in zfree && zones[z].zi < NZONES
    ensures var zi := zones[z].zi; ListsOk(arr[zi := Without(arr[zi], z)], zones, [z] + zfree)
  {
    var zi := zones[z].zi;
    var arr', zfree' := arr[zi := Without(arr[zi], z)], [z] + zfree;
    assert forall x: nat :: x in zfree' <==> x == z || x in zfree;
    forall i | 0 <= i < NZONES ensures ClassOk(arr'[i], zones, zfree', i) {
      assert ClassOk(arr[i], zones, zfree, i);
      WithoutIs(arr[i], z);
      forall x: nat ensures Listable(zones, zfree', x, i) == (Listable(zones, zfree, x, i) && x != z) {
      }
    }
  }

  /** A zone at rest is set up for a class. */
  lemma ListReused(arr: seq<seq<nat>>, zones: map<nat, Zone>, zfree: seq<nat>, Z: Zone)
    requires ListsOk(arr, zones, zfree) && zfree != [] && Z.zi < NZONES && Z.nfree > 0
    ensures ListsOk(arr[Z.zi := [zfree[0]] + arr[Z.zi]], zones[zfree[0] := Z], zfree[1..])
  {
    var z, zi, zones', rest := zfree[0], Z.zi, zones[zfree[0] := Z], zfree[1..];
    var arr' := arr[zi := [z] + arr[zi]];
    assert forall x: nat :: x in zfree <==> x == z || x in rest;
    assert z !in rest;
    forall i | 0 <= i < NZONES ensures ClassOk(arr'[i], zones', rest, i) {
      assert ClassOk(arr[i], zones, zfree, i);
      assert !Listable(zones, zfree, z, i);
      forall x: nat ensures x != z ==> Listable(zones', rest, x, i) == Listable(zones, zfree, x, i) {
      }
      assert i == zi ==> forall x: nat :: x in arr'[i] <==> x == z || x in arr[i];
    }
  }

  /** A zone at rest is given up, or a new one is put there. */
  lemma ListDropped(arr: seq<seq<nat>>, zones: map<nat, Zone>, zfree: seq<nat>)
    requires ListsOk(arr, zones, zfree) && zfree != []
    ensures ListsOk(arr, zones - {zfree[0]}, zfree[1..])
  {
    var z, zones', rest := zfree[0], zones - {zfree[0]}, zfree[1..];
    assert forall x: nat :: x in zfree <==> x == z || x in rest;
    assert z !in rest;
    forall i | 0 <= i < NZONES ensures ClassOk(arr[i], zones', rest, i) {
      assert ClassOk(arr[i], zones, zfree, i);
      forall x: nat ensures Listable(zones', rest, x, i) == Listable(zones, zfree, x, i) {
      }
    }
  }

  lemma ListAdded(arr: seq<seq<nat>>, zones: map<nat, Zone>, zfree: seq<nat>, z: nat, Z: Zone)
    requires ListsOk(arr, zones, zfree) && z !in zones
    ensures ListsOk(arr, zones[z := Z], [z] + zfree)
  {
    var zones', zfree' := zones[z := Z], [z] + zfree;
    assert forall x: nat :: x in zfree' <==> x == z || x in zfree;
    forall i | 0 <= i < |zfree| ensures zfree[i] != z {
      assert zfree[i] in zones;
    }
    forall i | 0 <= i < NZONES ensures ClassOk(arr[i], zones', zfree', i) {
      assert ClassOk(arr[i], zones, zfree, i);
      forall x: nat ensures Listable(zones', zfree', x, i) == Listable(zones, zfree, x, i) {
      }
    }
  }

  /** One zone changes with its held chunks; the others do not notice. */
  lemma ZonesChange(zones: map<nat, Zone>, zfree: seq<nat>, live: map<nat, Block>, live': map<nat, Block>, zpc: nat,
      z: nat, Z: Zone)
    requires ZonesOk(zones, zfree, live, zpc) && z in zones && z !in zfree && ZoneOk(z, Z, live', zpc)
    requires forall x: nat, p: nat :: x != z ==> (OfZone(live', p, x) <==> OfZone(live, p, x))
    requires forall x: nat, p: nat :: x != z && OfZone(live', p, x) && OfZone(live, p, x) ==> live'[p] == live[p]
    ensures ZonesOk(zones[z := Z], zfree, live', zpc)
  {
    hide ZoneOk;
    forall x: nat | x in zones && x !in zfree && x != z ensures ZoneOk(x, zones[x], live', zpc) {
      ZoneFrame(x, zones[x], live, live', zpc);
    }
  }

  lemma PagesSame(usage: map<nat, Usage>, zones: map<nat, Zone>, live: map<nat, Block>, live': map<nat, Block>,
                  owned: map<nat, nat>, zpc: nat, z: nat, Z: Zone)
    requires PagesOk(usage, zones, live, owned, zpc) && z in zones
    requires forall p: nat :: LargeAt(live', p) ==> LargeAt(live, p) && live'[p] == live[p]
    ensures PagesOk(usage, zones[z := Z], live', owned, zpc)
  {
    hide UsageOf;
  }

  /** A zone gives out a chunk that nobody holds. */
  lemma ChunkTaken(s: State, zpc: nat, z: nat, Z: Zone, p: nat)
    requires Ok(s, zpc) && z in s.zones && z !in s.zfree
    requires ZoneOk(z, Z, s.live[p := Chunk(z, Z.size)], zpc) && !OfZone(s.live, p, z) && IsGiven(Z, p)
    ensures p !in s.live && p > 0
    ensures ZonesOk(s.zones[z := Z], s.zfree, s.live[p := Chunk(z, Z.size)], zpc)
    ensures PagesOk(s.usage, s.zones[z := Z], s.live[p := Chunk(z, Z.size)], s.owned, zpc)
  {
    hide ListsOk, Canonical, IsGiven, Layout, OwnedOk, ZonesOk, PagesOk, Held;
    var live' := s.live[p := Chunk(z, Z.size)];
    GivenBounds(z, Z, zpc, p);
    ZoneOwned(s, zpc, z);
    if p in s.live {
      InZone(s, zpc, z, p);
      BlockAt(s, zpc, p);
      assert false;
    }
    ZonesChange(s.zones, s.zfree, s.live, live', zpc, z, Z);
    PagesSame(s.usage, s.zones, s.live, live', s.owned, zpc, z, Z);
  }

  lemma ZoneOwned(s: State, zpc: nat, z: nat)
    requires Ok(s, zpc) && z in s.zones
    ensures z in s.owned && s.owned[z] == zpc && z > 0 && NoneFree(s.runs, z, zpc)
  {
    hide ListsOk, Canonical, ZonesOk, NoneFree;
  }

  /** A held chunk goes back to its zone. */
  lemma ChunkGiven(s: State, zpc: nat, p: nat)
    requires Ok(s, zpc) && p in s.live && s.live[p].Chunk?
    ensures var z: nat := s.live[p].zone;
      && z in s.zones && z !in s.zfree && s.zones[z].zi < NZONES && s.zones[z].nfree >= 0
      && s.live[p].size == s.zones[z].size
      && var Z := s.zones[z].(nfree := s.zones[z].nfree + 1, chunks := [p] + s.zones[z].chunks);
         var arr := if s.zones[z].nfree == 0 then s.arr[Z.zi := [z] + s.arr[Z.zi]] else s.arr;
         Ok(s.(zones := s.zones[z := Z], arr := arr, live := s.live - {p}), zpc)
         && Z.nfree <= Z.nmax && ZoneOk(z, Z, s.live - {p}, zpc)
  {
    hide IsGiven, OwnedOk, ZonesOk, PagesOk, Held, ListsOk, Canonical, ChunkSize, Offset;
    BlockAt(s, zpc, p);
    var z: nat := s.live[p].zone;
    var Z := s.zones[z].(nfree := s.zones[z].nfree + 1, chunks := [p] + s.zones[z].chunks);
    GiveBack(z, s.zones[z], s.live, zpc, p);
    ZonesChange(s.zones, s.zfree, s.live, s.live - {p}, zpc, z, Z);
    PagesSame(s.usage, s.zones, s.live, s.live - {p}, s.owned, zpc, z, Z);
    ListGiven(s.arr, s.zones, s.zfree, z, Z);
  }

  /** A zone all of whose chunks are free comes to rest. */
  lemma ZoneRested(s: State, zpc: nat, z: nat)
    requires Ok(s, zpc) && z in s.zones && z !in s.zfree && s.zones[z].zi < NZONES
      && s.zones[z].nfree == s.zones[z].nmax
    ensures Ok(s.(arr := s.arr[s.zones[z].zi := Without(s.arr[s.zones[z].zi], z)], zfree := [z] + s.zfree), zpc)
  {
    hide IsGiven, OwnedOk, PagesOk, Held, ListsOk, Canonical, ZoneOk, Without;
    NoneHeldIff(z, s.zones[z], s.live, zpc);
    ListRested(s.arr, s.zones, s.zfree, z);
    assert forall x: nat :: x in [z] + s.zfree <==> x == z || x in s.zfree;
  }

  /** A zone at rest is set up anew and gives out its first chunk. */
  lemma ZoneReused(s: State, zpc: nat, zi: nat)
    requires Ok(s, zpc) && s.zfree != [] && zi < NZONES && 4 * ChunkSize(zi) <= zpc * PAGE
    ensures ChunkSize(zi) > 0 && Offset(ChunkSize(zi)) <= zpc * PAGE && |s.arr| == NZONES
    ensures var z: nat := s.zfree[0]; var Z := NewZone(z, ChunkSize(zi), zi, zpc); var p := ChunkAt(Z.base, Z.size, 0);
      && p !in s.live && p > 0
      && Ok(s.(zones := s.zones[z := Z], arr := s.arr[zi := [z] + s.arr[zi]], zfree := s.zfree[1..],
               live := s.live[p := Chunk(z, Z.size)]), zpc)
  {
    hide IsGiven, OwnedOk, PagesOk, Held, ListsOk, Canonical, ZonesOk, ZoneOk, ChunkSize, Offset;
    var z: nat := s.zfree[0];
    Resting(s, zpc, z);
    FreshZone(z, zi, s.live, zpc);
    var Z := NewZone(z, ChunkSize(zi), zi, zpc);
    ClassCount(s, zpc);
    ListReused(s.arr, s.zones, s.zfree, Z);
    var s1 := s.(zones := s.zones[z := Z], arr := s.arr[zi := [z] + s.arr[zi]], zfree := s.zfree[1..]);
    ReusedTaken(s, s1, zpc, z, Z, ChunkAt(Z.base, Z.size, 0));
  }

  lemma ClassCount(s: State, zpc: nat)
    requires Ok(s, zpc)
    ensures |s.arr| == NZONES
  {
    hide OwnedOk, PagesOk, Canonical, ZoneOk, ClassOk;
  }

  lemma Resting(s: State, zpc: nat, z: nat)
    requires Ok(s, zpc) && z in s.zfree
    ensures z in s.zones && forall p: nat :: !OfZone(s.live, p, z)
  {
    hide OwnedOk, PagesOk, Canonical, ZoneOk, ClassOk;
    var i :| 0 <= i < |s.zfree| && s.zfree[i] == z;
  }

  lemma ReusedTaken(s: State, s1: State, zpc: nat, z: nat, Z: Zone, p: nat)
    requires Ok(s, zpc) && s.zfree != [] && z == s.zfree[0] && z in s.zones && (forall x: nat :: !OfZone(s.live, x, z))
    requires s1 == s.(zones := s.zones[z := Z], arr := s1.arr, zfree := s.zfree[1..])
      && ListsOk(s1.arr, s1.zones, s1.zfree)
    requires ZoneOk(z, Z, s.live[p := Chunk(z, Z.size)], zpc) && IsGiven(Z, p)
    ensures p !in s.live && p > 0 && Ok(s1.(live := s.live[p := Chunk(z, Z.size)]), zpc)
  {
    hide ListsOk, Canonical, IsGiven, Layout, OwnedOk, PagesOk, Held;
    var live' := s.live[p := Chunk(z, Z.size)];
    GivenBounds(z, Z, zpc, p);
    ZoneOwned(s, zpc, z);
    if p in s.live {
      InZone(s, zpc, z, p);
      BlockAt(s, zpc, p);
      assert false;
    }
    OnlyFront(s, z);
    forall q: nat, x: nat | OfZone(live', q, x) ensures x in s1.zones && x !in s1.zfree {
      assert q != p ==> OfZone(s.live, q, x);
    }
    forall x: nat | x in s1.zones && x !in s1.zfree ensures ZoneOk(x, s1.zones[x], live', zpc) {
      if x != z {
        ZoneFrame(x, s.zones[x], s.live, live', zpc);
      }
    }
    PagesSame(s.usage, s.zones, s.live, live', s.owned, zpc, z, Z);
  }

  lemma OnlyFront(s: State, z: nat)
    requires ListsOk(s.arr, s.zones, s.zfree) && s.zfree != [] && z == s.zfree[0]
    ensures z !in s.zfree[1..] && forall x: nat :: x in s.zfree <==> x == z || x in s.zfree[1..]
  {
  }

  // ----- pages come and go -----

  /** The usage entries of the pages from z on, as the loops of the code write them. */
  function SetUsage(usage: map<nat, Usage>, z: nat, n: nat, kind: PageKind): map<nat, Usage> {
    if n == 0 then usage
    else SetUsage(usage, z, n - 1, kind)[z + n - 1 := Usage(kind, if kind == PageSmall then n - 1 else 0)]
  }

  lemma {:induction false} SetUsageIs(usage: map<nat, Usage>, z: nat, n: nat, kind: PageKind)
    ensures forall x: nat :: !(z <= x < z + n) ==>
      (x in SetUsage(usage, z, n, kind) <==> x in usage) && (x in usage ==> SetUsage(usage, z, n, kind)[x] == usage[x])
    ensures forall x: nat :: z <= x < z + n ==>
      x in SetUsage(usage, z, n, kind)
      && SetUsage(usage, z, n, kind)[x] == Usage(kind, if kind == PageSmall then x - z else 0)
  {
    if n > 0 {
      SetUsageIs(usage, z, n - 1, kind);
    }
  }

  /** Pages that were free belong to nobody. */
  lemma FreshPages(runs: seq<Run>, owned: map<nat, nat>, runs': seq<Run>, a: nat, n: nat)
    requires OwnedOk(runs, owned) && a > 0 && n > 0
    requires forall p: nat :: a <= p < a + n ==> Free(runs, p)
    requires forall p: nat :: Free(runs', p) <==> Free(runs, p) && !(a <= p < a + n)
    ensures a !in owned && OwnedOk(runs', owned[a := n])
    ensures forall c :: c in owned ==> a + n <= c || c + owned[c] <= a
  {
    forall c | c in owned ensures a + n <= c || c + owned[c] <= a {
      var p: nat := if a < c then c else a;
      assert NoneFree(runs, c, owned[c]);
      assert c <= p < c + owned[c] ==> !Free(runs, p);
    }
  }

  /** Pages put back belong to nobody any more. */
  lemma GivenPages(runs: seq<Run>, owned: map<nat, nat>, runs': seq<Run>, a: nat)
    requires OwnedOk(runs, owned) && a in owned
    requires forall p: nat :: Free(runs', p) <==> Free(runs, p) || a <= p < a + owned[a]
    ensures OwnedOk(runs', owned - {a})
  {
    forall c | c in owned && c != a ensures NoneFree(runs', c, owned[c]) {
      assert NoneFree(runs, c, owned[c]);
    }
  }

  lemma AllocatedPages(runs: seq<Run>, n: nat)
    requires Canonical(runs) && n > 0 && Alloc(runs, n).1 != 0
    ensures Canonical(Alloc(runs, n).0)
    ensures var a := Alloc(runs, n).1;
      && (forall p: nat :: a <= p < a + n ==> Free(runs, p))
      && forall p: nat :: Free(Alloc(runs, n).0, p) <==> Free(runs, p) && !(a <= p < a + n)
  {
    AllocKeeps(runs, n);
    var a := Alloc(runs, n).1;
    forall p: nat
      ensures a <= p < a + n ==> Free(runs, p)
      ensures Free(Alloc(runs, n).0, p) <==> Free(runs, p) && !(a <= p < a + n)
    {
      AllocTakes(runs, n, p);
    }
  }

  lemma ReleasedPages(runs: seq<Run>, a: nat, n: nat)
    requires Canonical(runs) && n > 0 && a > 0 && NoneFree(runs, a, n)
    ensures Canonical(Release(runs, a, n))
    ensures forall p: nat :: Free(Release(runs, a, n), p) <==> Free(runs, p) || a <= p < a + n
  {
    ReleaseKeeps(runs, a, n);
    forall p: nat ensures Free(Release(runs, a, n), p) <==> Free(runs, p) || a <= p < a + n {
      ReleaseAdds(runs, a, n, p);
    }
  }

  /** A zone is carved out of free pages; until it is set up it counts as one at rest. */
  lemma ZoneCarved(s: State, zpc: nat, Z: Zone)
    requires Ok(s, zpc) && Alloc(s.runs, zpc).1 != 0
    ensures var (runs', z) := Alloc(s.runs, zpc);
      z !in s.zones && Ok(s.(usage := SetUsage(s.usage, z, zpc, PageSmall), zones := s.zones[z := Z],
        zfree := [z] + s.zfree, owned := s.owned[z := zpc], runs := runs'), zpc)
  {
    hide OwnedOk, PagesOk, Canonical, ListsOk, ZoneOk, Alloc, SetUsage;
    var runs', z: nat := Alloc(s.runs, zpc).0, Alloc(s.runs, zpc).1;
    AllocatedPages(s.runs, zpc);
    FreshPages(s.runs, s.owned, runs', z, zpc);
    OwnedZones(s, zpc, z);
    ListAdded(s.arr, s.zones, s.zfree, z, Z);
    assert forall x: nat :: x in [z] + s.zfree <==> x == z || x in s.zfree;
    CarvedPages(s, zpc, z, Z);
  }

  lemma OwnedZones(s: State, zpc: nat, z: nat)
    requires Ok(s, zpc) && z !in s.owned
    ensures z !in s.zones
  {
    hide OwnedOk, Canonical, ListsOk, ZonesOk;
  }

  lemma CarvedPages(s: State, zpc: nat, z: nat, Z: Zone)
    requires PagesOk(s.usage, s.zones, s.live, s.owned, zpc) && z !in s.owned && z !in s.zones
    requires forall c :: c in s.owned ==> z + zpc <= c || c + s.owned[c] <= z
    ensures PagesOk(SetUsage(s.usage, z, zpc, PageSmall), s.zones[z := Z], s.live, s.owned[z := zpc], zpc)
  {
    hide SetUsage, UsageOf;
    var usage', zones', owned' := SetUsage(s.usage, z, zpc, PageSmall), s.zones[z := Z], s.owned[z := zpc];
    SetUsageIs(s.usage, z, zpc, PageSmall);
    forall x, k: nat {:trigger UsageOf(usage', x, k)} | x in zones' && k < zpc
      ensures UsageOf(usage', x, k) == Usage(PageSmall, k) {
      UsageMoved(s.usage, usage', x, k);
      if x != z {
        assert UsageOf(s.usage, x, k) == Usage(PageSmall, k);
      }
    }
    forall p: nat | LargeAt(s.live, p) ensures LargeOk(usage', zones', owned', p, s.live[p].pages) {
      assert LargeOk(s.usage, s.zones, s.owned, p, s.live[p].pages);
    }
  }

  lemma UsageMoved(usage: map<nat, Usage>, usage': map<nat, Usage>, x: nat, k: nat)
    ensures (x + k in usage' <==> x + k in usage) && (x + k in usage ==> usage'[x + k] == usage[x + k]) ==>
      UsageOf(usage', x, k) == UsageOf(usage, x, k)
    ensures x + k in usage' ==> UsageOf(usage', x, k) == usage'[x + k]
  {
  }

  /** Whole pages are given to a caller. */
  lemma LargeTaken(s: State, zpc: nat, n: nat)
    requires Ok(s, zpc) && n > 0 && Alloc(s.runs, n).1 != 0
    ensures var (runs', q) := Alloc(s.runs, n);
      && q * PAGE !in s.live && q * PAGE > 0
      && Ok(s.(usage := s.usage[q := Usage(PageLarge, n)], live := s.live[q * PAGE := Large(n)],
               owned := s.owned[q := n], runs := runs'), zpc)
  {
    hide OwnedOk, PagesOk, Canonical, ListsOk, ZoneOk, Alloc;
    var runs', q: nat := Alloc(s.runs, n).0, Alloc(s.runs, n).1;
    AllocatedPages(s.runs, n);
    FreshPages(s.runs, s.owned, runs', q, n);
    OwnedZones(s, zpc, q);
    var p := q * PAGE;
    assert p / PAGE == q && p % PAGE == 0;
    if p in s.live {
      HomeNotFree(s, zpc, p);
      assert false;
    }
    LargePages(s, zpc, q, n);
    ZonesAside(s, zpc, s.live[p := Large(n)]);
  }

  lemma HomeNotFree(s: State, zpc: nat, p: nat)
    requires Ok(s, zpc) && p in s.live
    ensures !Free(s.runs, p / PAGE)
  {
    hide PagesOk, Canonical, ListsOk, ZonesOk, Free;
    BlockInHome(s, zpc, p);
    var h: nat := Home(s.live[p], p);
    assert h <= p / PAGE < h + s.owned[h];
  }

  /** A change to large blocks alone does not concern the zones. */
  lemma ZonesAside(s: State, zpc: nat, live': map<nat, Block>)
    requires ZonesOk(s.zones, s.zfree, s.live, zpc)
    requires forall p: nat, z: nat :: OfZone(live', p, z) <==> OfZone(s.live, p, z)
    requires forall p: nat, z: nat :: OfZone(live', p, z) && OfZone(s.live, p, z) ==> live'[p] == s.live[p]
    ensures ZonesOk(s.zones, s.zfree, live', zpc)
  {
    hide ZoneOk;
    forall x: nat | x in s.zones && x !in s.zfree ensures ZoneOk(x, s.zones[x], live', zpc) {
      ZoneFrame(x, s.zones[x], s.live, live', zpc);
    }
  }

  lemma LargePages(s: State, zpc: nat, q: nat, n: nat)
    requires PagesOk(s.usage, s.zones, s.live, s.owned, zpc) && q !in s.owned && q !in s.zones && n > 0
    requires forall c :: c in s.owned ==> q + n <= c || c + s.owned[c] <= q
    ensures PagesOk(s.usage[q := Usage(PageLarge, n)], s.zones, s.live[q * PAGE := Large(n)], s.owned[q := n], zpc)
  {
    hide UsageOf;
    var usage', live', owned' := s.usage[q := Usage(PageLarge, n)], s.live[q * PAGE := Large(n)], s.owned[q := n];
    forall x, k: nat {:trigger UsageOf(usage', x, k)} | x in s.zones && k < zpc
      ensures UsageOf(usage', x, k) == Usage(PageSmall, k) {
      UsageMoved(s.usage, usage', x, k);
      assert UsageOf(s.usage, x, k) == Usage(PageSmall, k);
    }
    forall p: nat | LargeAt(live', p) ensures LargeOk(usage', s.zones, owned', p, live'[p].pages) {
      if p == q * PAGE {
        assert p / PAGE == q && p % PAGE == 0;
      } else {
        assert LargeAt(s.live, p) && LargeOk(s.usage, s.zones, s.owned, p, s.live[p].pages);
      }
    }
  }

  /** A large block is given back: its entry keeps its kind and says size 0. */
  lemma LargeGiven(s: State, zpc: nat, p: nat)
    requires Ok(s, zpc) && p in s.live && s.live[p].Large?
    ensures var q, n := p / PAGE, s.live[p].pages;
      && q > 0 && n > 0 && NoneFree(s.runs, q, n) && q in s.usage
      && Ok(s.(usage := s.usage[q := Usage(PageLarge, 0)], live := s.live - {p}, owned := s.owned - {q},
               runs := Release(s.runs, q, n)), zpc)
  {
    hide OwnedOk, PagesOk, Canonical, ListsOk, ZoneOk, Release, NoneFree;
    BlockAt(s, zpc, p);
    LargeSome(s, zpc, p);
    var q: nat, n := p / PAGE, s.live[p].pages;
    OwnedFacts(s, zpc, q);
    ReleasedPages(s.runs, q, n);
    GivenPages(s.runs, s.owned, Release(s.runs, q, n), q);
    ZonesAside(s, zpc, s.live - {p});
    LargeGone(s, zpc, p);
  }

  lemma OwnedFacts(s: State, zpc: nat, a: nat)
    requires Ok(s, zpc) && a in s.owned
    ensures a > 0 && s.owned[a] > 0 && NoneFree(s.runs, a, s.owned[a])
  {
    hide PagesOk, Canonical, ListsOk, ZonesOk, NoneFree;
  }

  lemma LargeGone(s: State, zpc: nat, p: nat)
    requires Ok(s, zpc) && p in s.live && s.live[p].Large?
    ensures PagesOk(s.usage[p / PAGE := Usage(PageLarge, 0)], s.zones, s.live - {p}, s.owned - {p / PAGE}, zpc)
  {
    hide Canonical, ListsOk, ZonesOk, UsageOf, NoneFree;
    BlockAt(s, zpc, p);
    var q: nat := p / PAGE;
    var usage', live', owned' := s.usage[q := Usage(PageLarge, 0)], s.live - {p}, s.owned - {q};
    forall x, k: nat {:trigger UsageOf(usage', x, k)} | x in s.zones && k < zpc
      ensures UsageOf(usage', x, k) == Usage(PageSmall, k) {
      UsageMoved(s.usage, usage', x, k);
      assert UsageOf(s.usage, x, k) == Usage(PageSmall, k);
    }
    forall x: nat | LargeAt(live', x) ensures LargeOk(usage', s.zones, owned', x, live'[x].pages) {
      assert LargeAt(s.live, x) && LargeOk(s.usage, s.zones, s.owned, x, s.live[x].pages);
    }
  }

  /** A zone at rest is given back to the page allocator. */
  lemma ZoneReleased(s: State, zpc: nat)
    requires Ok(s, zpc) && s.zfree != []
    ensures var z: nat := s.zfree[0];
      && z > 0 && NoneFree(s.runs, z, zpc)
      && Ok(s.(usage := SetUsage(s.usage, z, zpc, PageFree), zones := s.zones - {z}, zfree := s.zfree[1..],
               owned := s.owned - {z}, runs := Release(s.runs, z, zpc)), zpc)
  {
    hide OwnedOk, PagesOk, Canonical, ListsOk, ZoneOk, Release, NoneFree, SetUsage;
    var z: nat := s.zfree[0];
    Resting(s, zpc, z);
    ZoneOwned(s, zpc, z);
    ReleasedPages(s.runs, z, zpc);
    GivenPages(s.runs, s.owned, Release(s.runs, z, zpc), z);
    ListDropped(s.arr, s.zones, s.zfree);
    OnlyFront(s, z);
    ZoneGone(s, zpc, z);
  }

  lemma ZoneGone(s: State, zpc: nat, z: nat)
    requires Ok(s, zpc) && z in s.zones
    ensures PagesOk(SetUsage(s.usage, z, zpc, PageFree), s.zones - {z}, s.live, s.owned - {z}, zpc)
  {
    hide Canonical, ListsOk, ZonesOk, UsageOf, NoneFree, SetUsage;
    var usage', zones', owned' := SetUsage(s.usage, z, zpc, PageFree), s.zones - {z}, s.owned - {z};
    SetUsageIs(s.usage, z, zpc, PageFree);
    forall x, k: nat {:trigger UsageOf(usage', x, k)} | x in zones' && k < zpc
      ensures UsageOf(usage', x, k) == Usage(PageSmall, k) {
      UsageMoved(s.usage, usage', x, k);
      assert UsageOf(s.usage, x, k) == Usage(PageSmall, k);
    }
    forall p: nat | LargeAt(s.live, p) ensures LargeOk(usage', zones', owned', p, s.live[p].pages) {
      assert LargeOk(s.usage, s.zones, s.owned, p, s.live[p].pages);
      LargePositive(s, zpc, p);
    }
  }

  lemma LargePositive(s: State, zpc: nat, p: nat)
    requires Ok(s, zpc) && LargeAt(s.live, p)
    ensures s.live[p].pages > 0
  {
  }
}

module Slab {
  import opened PageRuns
  import opened PageAlloc
  import opened ZoneClasses
  import opened SlabState

  /** ZONE_RELEASE_THRESH */
  const RELEASE: nat := 2

  class SlabHeap {
    const pages: PageList
    const zpc: nat
    const zoneLimit: nat
    var usage: map<nat, Usage>
    var zones: map<nat, Zone>
    var zoneArray: seq<seq<nat>>
    var zoneFree: seq<nat>
    var zoneFreeCnt: nat
    var usedMem: nat
    var maxMem: nat
    ghost var live: map<nat, Block>
    ghost var owned: map<nat, nat>

    ghost function Now(): State
      reads this, pages
    {
      State(usage, zones, zoneArray, zoneFree, live, owned, pages.runs)
    }

    ghost predicate Valid()
      reads this, pages
    {
      && zpc in {8, 16, 32} && zoneLimit == (if zpc == 8 then 8192 else 16384)
      && pages.Valid() && Ok(Now(), zpc)
      && zoneFreeCnt == |zoneFree| <= RELEASE
      && usedMem == Used(live) <= maxMem
    }

    /** rt_system_heap_init, from the first page and the number of pages between the aligned ends. */
    constructor (start: nat, npages: nat)
      requires start > 0 && npages > 0
      ensures Valid() && live == map[] && usedMem == 0 && zpc * PAGE == ZoneSize(npages * PAGE) && fresh(pages)
      ensures Total(pages.runs) == npages - RoundUp(npages * 4, PAGE) / PAGE
    {
      ZoneSizes(npages * PAGE);
      var zoneSize := FindZoneSize(npages * PAGE);
      pages := new PageList(start, npages);
      zpc := zoneSize / PAGE;
      zoneLimit := if zoneSize / 4 > 16384 then 16384 else zoneSize / 4;
      usage, zones, zoneArray, zoneFree, zoneFreeCnt := map[], map[], seq(NZONES, _ => []), [], 0;
      usedMem, maxMem, live, owned := 0, 0, map[], map[];
      new;
      ghost var rs := pages.runs;
      var n := RoundUp(npages * 4, PAGE) / PAGE;
      TableFits(npages);
      FreshState(Now(), zpc);
      FirstRun(rs, start, npages, n);
      AllocTotal(rs, n);
      var table := pages.Alloc(n);
      TableTaken(rs, start, npages, n);
      owned := map[start := n];
      assert Now().owned == map[start := n];
      StateWithTable(Now(), zpc, start, n);
    }

    /** used_mem and max_mem after a block has been handed out */
    method CountUsed(n: nat)
      modifies this`usedMem, this`maxMem
      ensures usedMem == old(usedMem) + n && maxMem == if usedMem > old(maxMem) then usedMem else old(maxMem)
    {
      usedMem := usedMem + n;
      if usedMem > maxMem {
        maxMem := usedMem;
      }
    }

    /** rt_malloc for a request of zone_limit bytes or more: whole pages. */
    method MallocLarge(size: nat) returns (p: nat)
      requires Valid() && size >= zoneLimit
      modifies this, pages
      ensures Valid()
      ensures p == 0 <==> Alloc(old(pages.runs), RoundUp(size, PAGE) / PAGE).1 == 0
      ensures p == 0 ==> Now() == old(Now()) && usedMem == old(usedMem)
      ensures p != 0 ==> p !in old(live) && live == old(live)[p := Large(RoundUp(size, PAGE) / PAGE)]
      ensures maxMem == if usedMem > old(maxMem) then usedMem else old(maxMem)
    {
      hide Ok, Used, Canonical, Shows, Alloc;
      Rounded(size, PAGE);
      var n := RoundUp(size, PAGE) / PAGE;
      ghost var s := Now();
      NoAlloc(s.runs, n);
      var q := pages.Alloc(n);
      if q == 0 {
        assert Now() == s;
        return 0;
      }
      LargeTaken(s, zpc, n);
      p := q * PAGE;
      UsedWith(live, p, Large(n));
      usage := usage[q := Usage(PageLarge, n)];
      live, owned := live[p := Large(n)], owned[q := n];
      CountUsed(n * PAGE);
      assert Now() == s.(usage := s.usage[q := Usage(PageLarge, n)], live := s.live[p := Large(n)],
                         owned := s.owned[q := n], runs := Alloc(s.runs, n).0);
    }

    /** rt_malloc from the first zone of a class that has free chunks. */
    method MallocFromZone(zi: nat, size: nat) returns (p: nat)
      requires Valid() && zi < NZONES && zi < |zoneArray| && zoneArray[zi] != [] && size == ChunkSize(zi)
      modifies this
      ensures Valid() && p !in old(live) && p != 0 && live == old(live)[p := Chunk(old(zoneArray)[zi][0], size)]
      ensures pages.runs == old(pages.runs) && maxMem == if usedMem > old(maxMem) then usedMem else old(maxMem)
    {
      hide Ok, Used, Canonical, Shows, ZoneOk, IsGiven, ChunkSize;
      ghost var s := Now();
      var z := zoneArray[zi][0];
      FrontZone(s, zpc, zi);
      var Z := zones[z];
      var chunk;
      var nfree := Z.nfree - 1;
      if Z.uindex + 1 != Z.nmax {
        TakeFresh(z, Z, live, zpc);
        Z := Z.(nfree := nfree, uindex := Z.uindex + 1);
        chunk := ChunkAt(Z.base, size, Z.uindex);
      } else {
        RoomLeft(z, Z, live, zpc);
        TakeListed(z, Z, live, zpc);
        chunk := Z.chunks[0];
        Z := Z.(nfree := nfree, chunks := Z.chunks[1..]);
      }
      ChunkTaken(s, zpc, z, Z, chunk);
      FrontTaken(s, zpc, zi, Z);
      UsedWith(live, chunk, Chunk(z, size));
      if nfree == 0 {
        zoneArray := zoneArray[zi := zoneArray[zi][1..]];
      }
      zones := zones[z := Z];
      live := live[chunk := Chunk(z, size)];
      CountUsed(Z.size);
      OkTaken(s, Now(), zpc, z, Z, chunk);
      return chunk;
    }

    /** rt_malloc when a class has no zone with free chunks: a zone at rest or new pages. */
    method MallocNewZone(zi: nat, size: nat) returns (p: nat)
      requires Valid() && zi < NZONES && size == ChunkSize(zi) && 4 * size <= zpc * PAGE
      modifies this, pages
      ensures Valid()
      ensures p == 0 <==> old(zoneFree) == [] && Alloc(old(pages.runs), zpc).1 == 0
      ensures p == 0 ==> Now() == old(Now()) && usedMem == old(usedMem)
      ensures p != 0 ==>
        p !in old(live) && p in live && live[p].Chunk? && live[p].size == size && live == old(live)[p := live[p]]
      ensures maxMem == if usedMem > old(maxMem) then usedMem else old(maxMem)
    {
      hide Ok, Used, Canonical, Shows, ZoneOk, IsGiven, ChunkSize, Offset, Alloc, SetUsage;
      var z;
      if zoneFreeCnt != 0 {
        z := zoneFree[0];
        zoneFreeCnt := zoneFreeCnt - 1;
      } else {
        ghost var s := Now();
        z := pages.Alloc(zpc);
        NoAlloc(s.runs, zpc);
        if z == 0 {
          assert Now() == s;
          return 0;
        }
        ZoneCarved(s, zpc, Zone(0, 0, 0, 0, size, zi, []));
        MarkSmall(z);
        zones := zones[z := Zone(0, 0, 0, 0, size, zi, [])];
        zoneFree := [z] + zoneFree;
        owned := owned[z := zpc];
        assert Now() == s.(usage := SetUsage(s.usage, z, zpc, PageSmall),
          zones := s.zones[z := Zone(0, 0, 0, 0, size, zi, [])],
                           zfree := [z] + s.zfree, owned := s.owned[z := zpc], runs := Alloc(s.runs, zpc).0);
      }
      p := SetUpZone(z, zi, size);
    }

    /** The loop that enters the pages of a zone into the usage table. */
    method MarkSmall(z: nat)
      modifies this`usage
      ensures usage == SetUsage(old(usage), z, zpc, PageSmall)
    {
      var off: nat := 0;
      while off < zpc
        invariant 0 <= off <= zpc && usage == SetUsage(old(usage), z, off, PageSmall)
      {
        usage := usage[z + off := Usage(PageSmall, off)];
        off := off + 1;
      }
    }

    /** The zone header, the first chunk, and the link into its class. */
    method SetUpZone(z: nat, zi: nat, size: nat) returns (p: nat)
      requires zpc in {8, 16, 32} && pages.Valid() && Ok(Now(), zpc) && usedMem == Used(live) <= maxMem
      requires zoneFree != [] && z == zoneFree[0] && zoneFreeCnt == |zoneFree| - 1 <= RELEASE
      requires zoneLimit == if zpc == 8 then 8192 else 16384
      requires zi < NZONES && size == ChunkSize(zi) && 4 * size <= zpc * PAGE
      modifies this
      ensures Valid() && p != 0 && p !in old(live) && live == old(live)[p := Chunk(z, size)]
      ensures maxMem == if usedMem > old(maxMem) then usedMem else old(maxMem)
    {
      hide Ok, Used, Canonical, Shows, ZoneOk, IsGiven, ChunkSize, Offset, IsPow2;
      ghost var s := Now();
      ZoneReused(s, zpc, zi);
      ChunkSizeAtLeast(zi);
      EnoughChunks(size, zpc);
      var off := Offset(size);
      var nmax := Quotient(zpc * PAGE - off, size);
      var Z := Zone(nmax - 1, nmax, z * PAGE + off, 0, size, zi, []);
      assert Z == NewZone(z, size, zi, zpc);
      p := ChunkAt(Z.base, size, Z.uindex);
      UsedWith(live, p, Chunk(z, size));
      zoneFree := zoneFree[1..];
      zones := zones[z := Z];
      zoneArray := zoneArray[zi := [z] + zoneArray[zi]];
      live := live[p := Chunk(z, size)];
      CountUsed(Z.size);
      assert Now() == s.(zones := s.zones[z := Z], arr := s.arr[zi := [z] + s.arr[zi]], zfree := s.zfree[1..],
                         live := s.live[p := Chunk(z, size)]);
    }

    /**
     rt_malloc. The caller gets a block of its own that is large enough; the request fails
     only when it needs pages and no run of free pages is long enough.
     */
    method Malloc(size: nat) returns (p: nat)
      requires Valid()
      modifies this, pages
      ensures Valid()
      ensures p == 0 <==> size == 0 || NeedsPages(old(Now()), zpc, zoneLimit, size)
      ensures p == 0 ==> Now() == old(Now()) && usedMem == old(usedMem)
      ensures p != 0 ==> p !in old(live) && p in live && live == old(live)[p := live[p]] && Bytes(live[p]) >= size
      ensures maxMem == if usedMem > old(maxMem) then usedMem else old(maxMem)
    {
      hide Ok, Used, Canonical, Shows, ZoneOk, IsGiven, ChunkSize, Alloc, ZoneIndex;
      if size == 0 {
        return 0;
      }
      if size >= zoneLimit {
        Rounded(size, PAGE);
        p := MallocLarge(size);
        return;
      }
      ZoneIndexFits(size);
      var (zi, chunkSize) := ZoneIndex(size);
      ClassCount(Now(), zpc);
      if zoneArray[zi] != [] {
        p := MallocFromZone(zi, chunkSize);
        return;
      }
      LimitFits(size, zpc, zoneLimit);
      p := MallocNewZone(zi, chunkSize);
    }

    /** rt_free. A zone that becomes whole rests if its class has another one; of the zones at
        rest no more than two are kept. */
    method Free(p: nat)
      requires Valid() && (p != 0 ==> p in live)
      modifies this, pages
      ensures Valid()
      ensures p == 0 ==> Now() == old(Now())
      ensures p != 0 ==> live == old(live) - {p} && usedMem == old(usedMem) - Bytes(old(live)[p])
      ensures maxMem == old(maxMem)
    {
      hide Ok, Used, Canonical, Shows, ZoneOk, IsGiven, ChunkSize, Release;
      if p == 0 {
        return;
      }
      ghost var s := Now();
      UsageLeadsBack(s, zpc, p);
      UsedWithout(live, p);
      var kup := usage[p / PAGE];
      if kup.kind == PageLarge {
        LargeGiven(s, zpc, p);
        LargeStart(s, zpc, p);
        usage := usage[p / PAGE := Usage(PageLarge, 0)];
        usedMem := usedMem - kup.size * PAGE;
        live, owned := live - {p}, owned - {p / PAGE};
        pages.Free(p / PAGE, kup.size);
        assert Now() == s.(usage := s.usage[p / PAGE := Usage(PageLarge, 0)], live := s.live - {p},
          owned := s.owned - {p / PAGE}, runs := Release(s.runs, p / PAGE, kup.size));
        return;
      }
      FreeChunk(p, p / PAGE - kup.size);
    }

    /** The zone case of rt_free. */
    method FreeChunk(p: nat, z: nat)
      requires Valid() && p in live && live[p].Chunk? && live[p].zone == z
      modifies this, pages
      ensures Valid()
      ensures live == old(live) - {p} && usedMem == old(usedMem) - Bytes(old(live)[p]) && maxMem == old(maxMem)
    {
      hide Ok, Used, Canonical, Shows, ZoneOk, IsGiven, ChunkSize, Without;
      ghost var s := Now();
      UsedWithout(live, p);
      ChunkGiven(s, zpc, p);
      ClassCount(s, zpc);
      var Z := zones[z];
      Z := Z.(chunks := [p] + Z.chunks);
      usedMem := usedMem - Z.size;
      if Z.nfree == 0 {
        zoneArray := zoneArray[Z.zi := [z] + zoneArray[Z.zi]];
      }
      Z := Z.(nfree := Z.nfree + 1);
      zones := zones[z := Z];
      live := live - {p};
      assert Now() == s.(zones := zones, arr := zoneArray, live := live);
      ClassCount(Now(), zpc);
      if Z.nfree == Z.nmax && zoneArray[Z.zi] != [z] {
        RestZone(z);
      }
    }

    /** A whole zone leaves its class, which has another one. */
    method RestZone(z: nat)
      requires Valid() && z in zones && z !in zoneFree && zones[z].zi < NZONES && zones[z].zi < |zoneArray|
      requires zones[z].nfree == zones[z].nmax
      modifies this`usage, this`zones, this`zoneArray, this`zoneFree, this`zoneFreeCnt, this`owned, pages
      ensures Valid()
    {
      hide Ok, Used, Canonical, Shows, Without;
      ghost var s := Now();
      ZoneRested(s, zpc, z);
      var zi := zones[z].zi;
      zoneArray := zoneArray[zi := Without(zoneArray[zi], z)];
      zoneFree := [z] + zoneFree;
      zoneFreeCnt := zoneFreeCnt + 1;
      assert Now() == s.(arr := zoneArray, zfree := zoneFree);
      if zoneFreeCnt > RELEASE {
        ReleaseZone();
      }
    }

    /** The end of rt_free: the first zone at rest goes back to the page allocator. */
    method ReleaseZone()
      requires zpc in {8, 16, 32} && pages.Valid() && Ok(Now(), zpc) && zoneFreeCnt == |zoneFree| == RELEASE + 1
      modifies this`usage, this`zones, this`zoneFree, this`zoneFreeCnt, this`owned, pages
      ensures pages.Valid() && Ok(Now(), zpc) && zoneFreeCnt == |zoneFree| == RELEASE
    {
      hide Ok, Canonical, Shows, Release, SetUsage;
      ghost var s := Now();
      ZoneReleased(s, zpc);
      var z := zoneFree[0];
      zoneFree := zoneFree[1..];
      zoneFreeCnt := zoneFreeCnt - 1;
      SetUsageNone(usage, z);
      var i: nat := 0;
      while i < zpc
        modifies this`usage
        invariant 0 <= i <= zpc && usage == SetUsage(s.usage, z, i, PageFree)
      {
        SetUsageMore(s.usage, z, i);
        usage := usage[z + i := Usage(PageFree, 0)];
        i := i + 1;
      }
      zones, owned := zones - {z}, owned - {z};
      pages.Free(z, zpc);
      assert Now() == s.(usage := SetUsage(s.usage, z, zpc, PageFree), zones := s.zones - {z}, zfree := s.zfree[1..],
                         owned := s.owned - {z}, runs := Release(s.runs, z, zpc));
    }
  }

  /** The request cannot be met: whole pages, or a new zone, for which there is no run of free pages. */
  ghost predicate NeedsPages(s: State, zpc: nat, zoneLimit: nat, size: nat) {
    if size >= zoneLimit then
      size > 0 && RoundUp(size, PAGE) / PAGE > 0 && Alloc(s.runs, RoundUp(size, PAGE) / PAGE).1 == 0
    else if 0 < size < 16384 && zpc > 0 then
      ZoneIndex(size).0 < |s.arr| && s.arr[ZoneIndex(size).0] == [] && s.zfree == [] && Alloc(s.runs, zpc).1 == 0
    else false
  }

  lemma NoAlloc(rs: seq<Run>, n: nat)
    requires Canonical(rs) && n > 0
    ensures Alloc(rs, n).1 == 0 ==> Alloc(rs, n).0 == rs
  {
    AllocKeeps(rs, n);
  }

  lemma LimitFits(size: nat, zpc: nat, zoneLimit: nat)
    requires 0 < size < zoneLimit && zpc in {8, 16, 32} && zoneLimit == if zpc == 8 then 8192 else 16384
    ensures 4 * ZoneIndex(size).1 <= zpc * PAGE
  {
    hide RoundUp;
    ZoneIndexFits(size);
    var g := if size < 4096 then 256 else if size < 8192 then 512 else 1024;
    Rounded(size, g);
    SmallIndex(size);
  }

  lemma SmallIndex(size: nat)
    requires 0 < size < 16384
    ensures ZoneIndex(size).1 <= if size < 8192 then 8192 else 16384
  {
    hide RoundUp;
    var g := if size < 128 then 8 else if size < 256 then 16 else if size < 512 then 32 else if size < 1024 then 64
             else if size < 2048 then 128 else if size < 4096 then 256 else if size < 8192 then 512 else 1024;
    Rounded(size, g);
    var q := RoundUp(size, g) / g;
    assert g == 8 ==> q <= 16;
    assert g == 512 ==> q <= 16;
    assert g == 1024 ==> q <= 16;
  }

  /** The first zone of a class that is not empty. */
  lemma FrontZone(s: State, zpc: nat, zi: nat)
    requires Ok(s, zpc) && zi < NZONES && zi < |s.arr| && s.arr[zi] != []
    ensures var z: nat := s.arr[zi][0];
      z in s.zones && z !in s.zfree && s.zones[z].zi == zi && s.zones[z].nfree > 0 && ZoneOk(z, s.zones[z], s.live, zpc)
      && s.zones[z].size == ChunkSize(zi)
  {
    hide OwnedOk, PagesOk, Canonical;
    var z: nat := s.arr[zi][0];
    assert ClassOk(s.arr[zi], s.zones, s.zfree, zi) && z in s.arr[zi];
    assert Listable(s.zones, s.zfree, z, zi);
  }

  lemma FrontTaken(s: State, zpc: nat, zi: nat, Z: Zone)
    requires Ok(s, zpc) && zi < NZONES && zi < |s.arr| && s.arr[zi] != []
    requires s.arr[zi][0] in s.zones && Z.zi == zi == s.zones[s.arr[zi][0]].zi
      && Z.nfree == s.zones[s.arr[zi][0]].nfree - 1
    ensures ListsOk(if Z.nfree == 0 then s.arr[zi := s.arr[zi][1..]] else s.arr, s.zones[s.arr[zi][0] := Z], s.zfree)
  {
    hide OwnedOk, PagesOk, Canonical, ZonesOk, ListsOk;
    ListTaken(s.arr, s.zones, s.zfree, s.arr[zi][0], Z);
  }

  lemma OkTaken(s: State, s': State, zpc: nat, z: nat, Z: Zone, p: nat)
    requires Ok(s, zpc) && s' == s.(zones := s.zones[z := Z], arr := s'.arr, live := s.live[p := Chunk(z, Z.size)])
    requires ListsOk(s'.arr, s'.zones, s'.zfree) && ZonesOk(s'.zones, s'.zfree, s'.live, zpc)
    requires PagesOk(s'.usage, s'.zones, s'.live, s'.owned, zpc)
    ensures Ok(s', zpc)
  {
  }

  lemma LargeStart(s: State, zpc: nat, p: nat)
    requires Ok(s, zpc) && p in s.live && s.live[p].Large?
    ensures p / PAGE * PAGE == p && Bytes(s.live[p]) == s.live[p].pages * PAGE
  {
    BlockAt(s, zpc, p);
  }

  lemma SetUsageNone(usage: map<nat, Usage>, z: nat)
    ensures SetUsage(usage, z, 0, PageFree) == usage
  {
  }

  lemma SetUsageMore(usage: map<nat, Usage>, z: nat, i: nat)
    ensures SetUsage(usage, z, i + 1, PageFree) == SetUsage(usage, z, i, PageFree)[z + i := Usage(PageFree, 0)]
  {
  }

  /** The loop of rt_system_heap_init: 32 KB, doubled up to 128 KB while twice the size is below
      the 1024th part of the heap. */
  function ZoneSize(limsize: nat): nat {
    if 65536 >= limsize / 1024 then 32768 else if 131072 >= limsize / 1024 then 65536 else 131072
  }

  method FindZoneSize(limsize: nat) returns (zoneSize: nat)
    ensures zoneSize == ZoneSize(limsize)
  {
    zoneSize := 32768;
    while zoneSize < 131072 && zoneSize * 2 < limsize / 1024
      invariant zoneSize in {32768, 65536, 131072}
      invariant zoneSize > 32768 ==> zoneSize < limsize / 1024
      decreases 131072 - zoneSize
    {
      zoneSize := zoneSize * 2;
    }
  }

  lemma ZoneSizes(limsize: nat)
    ensures ZoneSize(limsize) in {32768, 65536, 131072}
  {
  }

  /** The usage table fits the heap whose pages it describes. */
  lemma TableFits(npages: nat)
    requires npages > 0
    ensures 0 < RoundUp(npages * 4, PAGE) / PAGE <= npages
  {
    Rounded(npages * 4, PAGE);
  }

  lemma FirstRun(rs: seq<Run>, start: nat, npages: nat, n: nat)
    requires rs == [Run(start, npages)] && start > 0 && 0 < n <= npages
    ensures Canonical(rs) && Alloc(rs, n).1 == start && Total(rs) == npages
  {
    assert Total(rs) == npages + Total(rs[1..]);
  }

  lemma TableTaken(rs: seq<Run>, start: nat, npages: nat, n: nat)
    requires rs == [Run(start, npages)] && start > 0 && 0 < n <= npages
    ensures Canonical(Alloc(rs, n).0) && NoneFree(Alloc(rs, n).0, start, n)
  {
    FirstRun(rs, start, npages, n);
    AllocKeeps(rs, n);
    forall p: nat | start <= p < start + n ensures !Free(Alloc(rs, n).0, p) {
      AllocTakes(rs, n, p);
    }
  }

  lemma FreshState(s: State, zpc: nat)
    requires s.usage == map[] && s.zones == map[] && s.arr == seq(NZONES, _ => []) && s.zfree == [] && s.live == map[]
    ensures ZonesOk(s.zones, s.zfree, s.live, zpc) && ListsOk(s.arr, s.zones, s.zfree)
  {
    forall i | 0 <= i < NZONES ensures ClassOk(s.arr[i], s.zones, s.zfree, i) {
      assert s.arr[i] == [];
    }
  }

  lemma StateWithTable(s: State, zpc: nat, start: nat, n: nat)
    requires s.zones == map[] && s.live == map[] && s.owned == map[start := n] && zpc >= 1 && start > 0 && n > 0
    requires Canonical(s.runs) && NoneFree(s.runs, start, n)
    requires ZonesOk(s.zones, s.zfree, s.live, zpc) && ListsOk(s.arr, s.zones, s.zfree)
    ensures Ok(s, zpc)
  {
    hide ZonesOk, ListsOk, Canonical, NoneFree;
  }
}
