/** The aligned allocator over the Windows process heap: a block is over-allocated, the pointer handed out is
    rounded up inside it, and the block's base and the size asked for are stored right in front of the pointer. */
module HeapAllocator {
  import opened Options
  import opened Bytes
  import opened Seals
  import Bits

  /** Size of a pointer in bytes: 4 or 8. */
  predicate IsPointerSize(ptr: nat) { ptr == 4 || ptr == 8 }

  /** One more than SIZE_MAX. */
  function Space(ptr: nat): (n: nat)
    ensures n > 0
  {
    Bits.Pow2(8 * ptr)
  }

  /** An unsigned result of that width. */
  function Word(ptr: nat, x: nat): (r: nat)
    ensures r < Space(ptr)
  {
    Bits.Mod(x, Space(ptr))
  }

  function HeaderSize(ptr: nat): (n: nat) { 2 * ptr }

  /** skyuv_is_power_of_two. */
  predicate PowerOfTwo(v: nat) { v != 0 && Bits.And(v, v - 1) == 0 }

  predicate GoodAlignment(ptr: nat, alignment: nat) { PowerOfTwo(alignment) && alignment >= ptr }

  function Normalized(size: nat): (n: nat)
    ensures n > 0
  {
    if size == 0 then 1 else size
  }

  function Extra(ptr: nat, alignment: nat): (n: nat)
    requires alignment > 0
  {
    Word(ptr, HeaderSize(ptr) + alignment - 1)
  }

  /** The checks in front of HeapAlloc. */
  predicate Accepts(ptr: nat, alignment: nat, size: nat) {
    GoodAlignment(ptr, alignment) && Normalized(size) <= Space(ptr) - 1 - Extra(ptr, alignment)
  }

  function BlockSize(ptr: nat, alignment: nat, size: nat): (n: nat)
    requires alignment > 0
  {
    Word(ptr, Normalized(size) + Extra(ptr, alignment))
  }

  /** The pointer handed out of a block. */
  function AlignedIn(ptr: nat, base: nat, alignment: nat): (p: nat)
    requires 0 < alignment <= Space(ptr)
  {
    Bits.And(Word(ptr, Word(ptr, base + HeaderSize(ptr)) + alignment - 1), Space(ptr) - alignment)
  }

  // ---------- the arithmetic ----------

  lemma {:induction false} WordExact(ptr: nat, x: nat)
    requires x < Space(ptr)
    ensures Word(ptr, x) == x
  {
  }

  lemma {:induction false} ModLess(x: nat, m: nat)
    requires m > 0
    ensures Bits.Mod(x - Bits.Mod(x, m), m) == 0
  {
    if x >= m { ModLess(x - m, m); }
  }

  /** A size_t power of two leaves room for the header: the bytes added to a request do not wrap around. */
  lemma {:induction false} ExtraExact(ptr: nat, alignment: nat)
    requires IsPointerSize(ptr) && GoodAlignment(ptr, alignment) && alignment < Space(ptr)
    ensures Extra(ptr, alignment) == HeaderSize(ptr) + alignment - 1 && HeaderSize(ptr) + alignment <= Space(ptr)
  {
    Bits.PowerTest(alignment);
    var k: nat :| alignment == Bits.Pow2(k);
    if k >= 8 * ptr { Bits.Pow2Monotone(8 * ptr, k); }
    Bits.Pow2Monotone(k, 8 * ptr - 1);
    Bits.Pow2Monotone(5, 8 * ptr - 1);
    assert Bits.Pow2(5) == 32 by { assert Bits.Pow2(2) == 4; }
  }

  lemma {:induction false} BlockExact(ptr: nat, alignment: nat, size: nat)
    requires IsPointerSize(ptr) && alignment < Space(ptr) && Accepts(ptr, alignment, size)
    ensures BlockSize(ptr, alignment, size) == Normalized(size) + HeaderSize(ptr) + alignment - 1
  {
    ExtraExact(ptr, alignment);
  }

  lemma {:induction false} MaskWord(x: nat, alignment: nat, w: nat)
    requires PowerOfTwo(alignment) && alignment < Bits.Pow2(w) && x < Bits.Pow2(w)
    ensures Bits.And(x, Bits.Pow2(w) - alignment) == x - Bits.Mod(x, alignment)
  {
    Bits.PowerTest(alignment);
    var k: nat :| alignment == Bits.Pow2(k);
    if k >= w { Bits.Pow2Monotone(w, k); }
    Bits.AndHighMask(x, k, w);
  }

  /** The mask takes off the remainder, and nothing wraps around on the way. */
  lemma {:induction false} MaskExact(ptr: nat, base: nat, alignment: nat)
    requires PowerOfTwo(alignment) && alignment < Space(ptr) && base + HeaderSize(ptr) + alignment - 1 < Space(ptr)
    ensures var x := base + HeaderSize(ptr) + alignment - 1;
            AlignedIn(ptr, base, alignment) == x - Bits.Mod(x, alignment)
  {
    WordExact(ptr, base + HeaderSize(ptr));
    WordExact(ptr, base + HeaderSize(ptr) + alignment - 1);
    MaskWord(base + HeaderSize(ptr) + alignment - 1, alignment, 8 * ptr);
  }

  lemma {:induction false} LastMultiple(x: nat, a: nat, q: nat)
    requires a > 0
    ensures Bits.Mod(x - Bits.Mod(x, a), a) == 0
    ensures x - a < q < x - Bits.Mod(x, a) ==> Bits.Mod(q, a) != 0
  {
    ModLess(x, a);
    var p := x - Bits.Mod(x, a);
    if x - a < q < p { Bits.ModDistinct(q, p - q, a); }
  }

  /** The mask rounds up: the pointer is the first multiple of the alignment that leaves room for the header. */
  lemma {:induction false} RoundsUp(ptr: nat, base: nat, alignment: nat, q: nat)
    requires IsPointerSize(ptr) && GoodAlignment(ptr, alignment) && alignment < Space(ptr)
    requires base + HeaderSize(ptr) + alignment - 1 < Space(ptr)
    ensures var p := AlignedIn(ptr, base, alignment);
            && base + HeaderSize(ptr) <= p < base + HeaderSize(ptr) + alignment && Bits.Mod(p, alignment) == 0
            && (base + HeaderSize(ptr) <= q < p ==> Bits.Mod(q, alignment) != 0)
  {
    MaskExact(ptr, base, alignment);
    LastMultiple(base + HeaderSize(ptr) + alignment - 1, alignment, q);
  }

  /** Header and user bytes lie inside the block, one after the other. */
  lemma {:induction false} FitsInside(ptr: nat, base: nat, alignment: nat, size: nat)
    requires IsPointerSize(ptr) && alignment < Space(ptr) && Accepts(ptr, alignment, size)
    requires base + BlockSize(ptr, alignment, size) <= Space(ptr)
    ensures var p := AlignedIn(ptr, base, alignment);
            base <= p - HeaderSize(ptr) && p + Normalized(size) <= base + BlockSize(ptr, alignment, size)
  {
    BlockExact(ptr, alignment, size);
    RoundsUp(ptr, base, alignment, 0);
  }

  function Product(count: nat, size: nat): (n: nat) { count * size }

  /** The overflow test of calloc is exact. */
  lemma {:induction false} CallocCheck(ptr: nat, count: nat, size: nat)
    ensures (count != 0 && size > (Space(ptr) - 1) / count) <==> Product(count, size) >= Space(ptr)
  {
    var max := Space(ptr) - 1;
    if count != 0 {
      var q := max / count;
      assert q * count <= max < (q + 1) * count by { DivisionBounds(max, count); }
      if size > q { Grows(count, q + 1, size); } else { Grows(count, size, q); }
    }
  }

  lemma {:induction false} DivisionBounds(x: nat, d: nat)
    requires d > 0
    ensures x / d * d <= x < (x / d + 1) * d
  {
    assert x == x / d * d + x % d;
  }

  lemma {:induction false} Grows(c: nat, a: nat, b: nat)
    requires a <= b
    ensures c * a <= c * b
  {
  }

  // ---------- bytes and words ----------

  type Memory = map<nat, byte>

  function Cell(memory: Memory, a: nat): (b: byte) { if a in memory then memory[a] else 0 }

  /** The n bytes from an address on as a number, the least significant byte first. */
  function WordAt(memory: Memory, a: nat, n: nat): (x: nat)
    decreases n
  {
    if n == 0 then 0 else Cell(memory, a) + 256 * WordAt(memory, a + 1, n - 1)
  }

  /** Stores a number in the n bytes from an address on. */
  function Store(memory: Memory, a: nat, n: nat, x: nat): (m: Memory)
    decreases n
  {
    if n == 0 then memory else Store(memory[a := x % 256], a + 1, n - 1, x / 256)
  }

  /** The memory after a run of bytes has been set. */
  function Filled(memory: Memory, a: nat, n: nat, contents: nat -> byte): (m: Memory) {
    memory + map c: nat | c in Span(a, n) :: contents(c - a)
  }

  /** The addresses of n bytes. */
  function Span(a: nat, n: nat): (s: set<nat>)
    ensures forall c :: c in s <==> a <= c < a + n
    decreases n
  {
    if n == 0 then {} else {a} + Span(a + 1, n - 1)
  }

  function Zero(k: nat): (b: byte) { 0 }

  /** The k-th byte behind a pointer. */
  function At(memory: Memory, p: nat, k: nat): (b: byte) { Cell(memory, p + k) }

  /** memcpy. */
  function Copied(memory: Memory, to: nat, from: nat, n: nat): (m: Memory) {
    Filled(memory, to, n, k => Cell(memory, from + k))
  }

  predicate Apart(a: int, m: nat, b: int, n: nat) { a + m <= b || b + n <= a }

  lemma {:induction false} StoreElsewhere(memory: Memory, a: nat, n: nat, x: nat, c: nat)
    requires Apart(a, n, c, 1)
    ensures Cell(Store(memory, a, n, x), c) == Cell(memory, c)
    decreases n
  {
    if n > 0 { StoreElsewhere(memory[a := x % 256], a + 1, n - 1, x / 256, c); }
  }

  lemma {:induction false} WordSame(m: Memory, m': Memory, a: nat, n: nat)
    requires forall c: nat :: a <= c < a + n ==> Cell(m', c) == Cell(m, c)
    ensures WordAt(m', a, n) == WordAt(m, a, n)
    decreases n
  {
    if n > 0 {
      assert Cell(m', a) == Cell(m, a);
      WordSame(m, m', a + 1, n - 1);
    }
  }

  /** A number that fits is read back from where it was stored. */
  lemma {:induction false} StoreReads(memory: Memory, a: nat, n: nat, x: nat)
    requires x < Bits.Pow2(8 * n)
    ensures WordAt(Store(memory, a, n, x), a, n) == x
    decreases n
  {
    if n > 0 {
      Shifted(x, n);
      StoreReads(memory[a := x % 256], a + 1, n - 1, x / 256);
      StoreElsewhere(memory[a := x % 256], a + 1, n - 1, x / 256, a);
    }
  }

  lemma {:induction false} Shifted(x: nat, n: nat)
    requires n > 0 && x < Bits.Pow2(8 * n)
    ensures x / 256 < Bits.Pow2(8 * (n - 1)) && x == x % 256 + 256 * (x / 256)
  {
    Pow256(n);
  }

  lemma {:induction false} Pow256(n: nat)
    requires n > 0
    ensures Bits.Pow2(8 * n) == 256 * Bits.Pow2(8 * (n - 1))
  {
    var k := 8 * (n - 1);
    assert Bits.Pow2(k + 2) == 4 * Bits.Pow2(k);
    assert Bits.Pow2(k + 4) == 4 * Bits.Pow2(k + 2);
    assert Bits.Pow2(k + 6) == 4 * Bits.Pow2(k + 4);
    assert Bits.Pow2(k + 8) == 4 * Bits.Pow2(k + 6);
  }

  // ---------- the header in front of a pointer ----------

  datatype Header = Header(base: nat, size: nat)

  /** header->base and header->size, as a pointer finds them in memory. */
  function HeaderAt(memory: Memory, ptr: nat, p: nat): (h: Header)
    requires HeaderSize(ptr) <= p
  {
    Header(WordAt(memory, p - HeaderSize(ptr), ptr), WordAt(memory, p - ptr, ptr))
  }

  lemma {:induction false} HeaderSame(m: Memory, m': Memory, ptr: nat, p: nat)
    requires HeaderSize(ptr) <= p && forall c: nat :: p - HeaderSize(ptr) <= c < p ==> Cell(m', c) == Cell(m, c)
    ensures HeaderAt(m', ptr, p) == HeaderAt(m, ptr, p)
  {
    WordSame(m, m', p - HeaderSize(ptr), ptr);
    WordSame(m, m', p - ptr, ptr);
  }

  function WithHeader(memory: Memory, ptr: nat, p: nat, h: Header): (m: Memory)
    requires HeaderSize(ptr) <= p
  {
    Store(Store(memory, p - HeaderSize(ptr), ptr, h.base), p - ptr, ptr, h.size)
  }

  lemma {:induction false} HeaderReads(memory: Memory, ptr: nat, p: nat, h: Header)
    requires HeaderSize(ptr) <= p && h.base < Space(ptr) && h.size < Space(ptr)
    ensures HeaderAt(WithHeader(memory, ptr, p, h), ptr, p) == h
  {
    var m1 := Store(memory, p - HeaderSize(ptr), ptr, h.base);
    StoreReads(memory, p - HeaderSize(ptr), ptr, h.base);
    StoreReads(m1, p - ptr, ptr, h.size);
    forall c: nat | p - HeaderSize(ptr) <= c < p - ptr ensures Cell(WithHeader(memory, ptr, p, h), c) == Cell(m1, c) {
      StoreElsewhere(m1, p - ptr, ptr, h.size, c);
    }
    WordSame(m1, WithHeader(memory, ptr, p, h), p - HeaderSize(ptr), ptr);
  }

  lemma {:induction false} HeaderElsewhere(memory: Memory, ptr: nat, p: nat, h: Header, c: nat)
    requires HeaderSize(ptr) <= p && Apart(p - HeaderSize(ptr), HeaderSize(ptr), c, 1)
    ensures Cell(WithHeader(memory, ptr, p, h), c) == Cell(memory, c)
  {
    StoreElsewhere(memory, p - HeaderSize(ptr), ptr, h.base, c);
    StoreElsewhere(Store(memory, p - HeaderSize(ptr), ptr, h.base), p - ptr, ptr, h.size, c);
  }

  // ---------- live allocations ----------

  type Blocks = map<nat, nat>
  type Allocations = map<nat, Header>

  /** Header and user bytes of a pointer lie inside the block allocated for it. */
  ghost predicate Inside(ptr: nat, blocks: Blocks, p: nat, h: Header) {
    && h.base in blocks && h.size > 0
    && h.base + HeaderSize(ptr) <= p && p + h.size <= h.base + blocks[h.base]
  }

  /** Blocks do not overlap, and each allocation has one of its own. */
  ghost predicate Placed(ptr: nat, blocks: Blocks, live: Allocations) {
    && (forall p :: p in live ==> Inside(ptr, blocks, p, live[p]))
    && (forall p, q :: p in live && q in live && p != q ==> live[p].base != live[q].base)
    && (forall a, b :: a in blocks && b in blocks && a != b ==> Apart(a, blocks[a], b, blocks[b]))
  }

  /** In front of every pointer, memory holds the base and the size of its allocation. */
  ghost predicate Headed(ptr: nat, memory: Memory, live: Allocations) {
    forall p :: p in live ==> HeaderSize(ptr) <= p && HeaderAt(memory, ptr, p) == live[p]
  }

  ghost predicate Sound(ptr: nat, blocks: Blocks, memory: Memory, live: Allocations) {
    forall k: nat :: Unsealed(Fold.Heaps, k) ==> Placed(ptr, blocks, live) && Headed(ptr, memory, live)
  }

  /** The user bytes of every pointer but `except` are the same. */
  ghost predicate Same(live: Allocations, except: Option<nat>, m: Memory, m': Memory) {
    forall q, k: nat :: q in live && Some(q) != except && k < live[q].size ==> At(m', q, k) == At(m, q, k)
  }

  /** Nothing one allocation may touch belongs to another: headers and bytes of two pointers never overlap. */
  lemma {:induction false} Disjoint(ptr: nat, blocks: Blocks, live: Allocations, p: nat, q: nat)
    requires Placed(ptr, blocks, live) && p in live && q in live && p != q
    ensures Apart(p - HeaderSize(ptr), HeaderSize(ptr) + live[p].size, q - HeaderSize(ptr), HeaderSize(ptr) + live[q].size)
  {
    assert Inside(ptr, blocks, p, live[p]) && Inside(ptr, blocks, q, live[q]);
  }

  /** What a pointer finds in front of it is what was allocated for it. */
  lemma {:induction false} ReadsBack(ptr: nat, blocks: Blocks, memory: Memory, live: Allocations, p: nat)
    requires Sound(ptr, blocks, memory, live) && p in live
    ensures HeaderSize(ptr) <= p && HeaderAt(memory, ptr, p) == live[p] && live[p].base in blocks
  {
    assert Unsealed(Fold.Heaps, 0);
    assert Inside(ptr, blocks, p, live[p]);
  }

  /** Memory changed in the user bytes of one pointer only. */
  ghost predicate WithinUser(m: Memory, m': Memory, p: nat, size: nat) {
    forall c: nat :: Apart(p, size, c, 1) ==> Cell(m', c) == Cell(m, c)
  }

  /** Then every header still stands. */
  lemma {:induction false} UserWrite(ptr: nat, blocks: Blocks, live: Allocations, m: Memory, m': Memory, p: nat)
    requires Sound(ptr, blocks, m, live) && p in live && WithinUser(m, m', p, live[p].size)
    ensures Sound(ptr, blocks, m', live) && Same(live, Some(p), m, m')
  {
    assert Unsealed(Fold.Heaps, 0);
    forall q | q in live ensures HeaderSize(ptr) <= q && HeaderAt(m', ptr, q) == live[q] {
      if q != p { Disjoint(ptr, blocks, live, p, q); }
      HeaderSame(m, m', ptr, q);
    }
    forall q, k: nat | q in live && q != p && k < live[q].size ensures At(m', q, k) == At(m, q, k) {
      Disjoint(ptr, blocks, live, p, q);
    }
  }

  /** A block apart from the others, with a pointer and its header in it. */
  ghost predicate Fresh(ptr: nat, blocks: Blocks, p: nat, h: Header, total: nat) {
    && h.base !in blocks && h.size > 0 && h.base + HeaderSize(ptr) <= p && p + h.size <= h.base + total <= Space(ptr)
    && forall b :: b in blocks ==> Apart(h.base, total, b, blocks[b])
  }

  lemma {:induction false} NotYet(ptr: nat, blocks: Blocks, live: Allocations, p: nat, h: Header, total: nat)
    requires Placed(ptr, blocks, live) && Fresh(ptr, blocks, p, h, total)
    ensures p !in live && forall q :: q in live ==> live[q].base != h.base
  {
    forall q | q in live ensures q != p && live[q].base != h.base { assert Inside(ptr, blocks, q, live[q]); }
  }

  lemma {:induction false} PlaceNew(ptr: nat, blocks: Blocks, live: Allocations, p: nat, h: Header, total: nat)
    requires Placed(ptr, blocks, live) && Fresh(ptr, blocks, p, h, total)
    ensures Placed(ptr, blocks[h.base := total], live[p := h])
  {
    NotYet(ptr, blocks, live, p, h, total);
    var blocks', live' := blocks[h.base := total], live[p := h];
    forall q | q in live' ensures Inside(ptr, blocks', q, live'[q]) { if q != p { assert Inside(ptr, blocks, q, live[q]); } }
  }

  /** Memory changed inside a new block only: every header and every user byte still stands. */
  lemma {:induction false} BlockWrite(ptr: nat, blocks: Blocks, live: Allocations, m: Memory, m': Memory, base: nat, total: nat)
    requires Placed(ptr, blocks, live) && Headed(ptr, m, live) && WithinUser(m, m', base, total)
    requires forall b :: b in blocks ==> Apart(base, total, b, blocks[b])
    ensures Headed(ptr, m', live) && Same(live, None, m, m')
  {
    forall q | q in live ensures HeaderSize(ptr) <= q && HeaderAt(m', ptr, q) == live[q] {
      assert Inside(ptr, blocks, q, live[q]);
      HeaderSame(m, m', ptr, q);
    }
    forall q, k: nat | q in live && k < live[q].size ensures At(m', q, k) == At(m, q, k) {
      assert Inside(ptr, blocks, q, live[q]);
    }
  }

  /** What HeapAlloc hands out, with the header written into it. */
  function Laid(memory: Memory, ptr: nat, p: nat, h: Header, total: nat, contents: nat -> byte): (m: Memory)
    requires HeaderSize(ptr) <= p
  {
    WithHeader(Filled(memory, h.base, total, contents), ptr, p, h)
  }

  lemma {:induction false} LaidCells(memory: Memory, ptr: nat, p: nat, h: Header, total: nat, contents: nat -> byte)
    requires ptr > 0 && h.base + HeaderSize(ptr) <= p && p + h.size <= h.base + total <= Space(ptr) && h.size > 0
    ensures var m := Laid(memory, ptr, p, h, total, contents);
            && HeaderAt(m, ptr, p) == h && WithinUser(memory, m, h.base, total)
            && forall k: nat :: k < h.size ==> At(m, p, k) == At(Filled(memory, h.base, total, contents), p, k)
  {
    var m0 := Filled(memory, h.base, total, contents);
    var m := Laid(memory, ptr, p, h, total, contents);
    HeaderReads(m0, ptr, p, h);
    forall c: nat | Apart(h.base, total, c, 1) ensures Cell(m, c) == Cell(memory, c) { HeaderElsewhere(m0, ptr, p, h, c); }
    forall k: nat | k < h.size ensures At(m, p, k) == At(m0, p, k) { HeaderElsewhere(m0, ptr, p, h, p + k); }
  }

  /** A new allocation is recorded in front of its pointer, and the others stay recorded and untouched. */
  lemma {:induction false} InsertSound(ptr: nat, blocks: Blocks, memory: Memory, live: Allocations, p: nat, h: Header, total: nat,
                                       contents: nat -> byte)
    requires ptr > 0 && Sound(ptr, blocks, memory, live) && Fresh(ptr, blocks, p, h, total)
    ensures p !in live && Same(live, None, memory, Laid(memory, ptr, p, h, total, contents))
    ensures Sound(ptr, blocks[h.base := total], Laid(memory, ptr, p, h, total, contents), live[p := h])
  {
    assert Unsealed(Fold.Heaps, 0);
    PlaceNew(ptr, blocks, live, p, h, total);
    NotYet(ptr, blocks, live, p, h, total);
    LaidCells(memory, ptr, p, h, total, contents);
    BlockWrite(ptr, blocks, live, memory, Laid(memory, ptr, p, h, total, contents), h.base, total);
  }

  /** A block given back leaves the others recorded. */
  lemma {:induction false} FreeSound(ptr: nat, blocks: Blocks, memory: Memory, live: Allocations, p: nat)
    requires Sound(ptr, blocks, memory, live) && p in live
    ensures Sound(ptr, blocks - {live[p].base}, memory, live - {p})
  {
    assert Unsealed(Fold.Heaps, 0);
    forall q | q in live - {p} ensures Inside(ptr, blocks - {live[p].base}, q, (live - {p})[q]) {
      assert Inside(ptr, blocks, q, live[q]);
    }
  }

  /** memcpy between the user bytes of two allocations, of no more than either has. */
  lemma {:induction false} CopySound(ptr: nat, blocks: Blocks, memory: Memory, live: Allocations, to: nat, from: nat, n: nat)
    requires Sound(ptr, blocks, memory, live) && to in live && from in live && to != from && n <= live[to].size && n <= live[from].size
    ensures var m := Copied(memory, to, from, n);
            && Sound(ptr, blocks, m, live) && Same(live, Some(to), memory, m)
            && forall k: nat :: k < n ==> At(m, to, k) == At(memory, from, k)
  {
    UserWrite(ptr, blocks, live, memory, Copied(memory, to, from, n), to);
  }

  lemma {:induction false} ZeroFilled(memory: Memory, base: nat, total: nat, p: nat, size: nat)
    requires base <= p && p + size <= base + total
    ensures forall k: nat :: k < size ==> At(Filled(memory, base, total, Zero), p, k) == 0
  {
  }

  // ---------- any sequence of operations ----------

  datatype State = State(blocks: Blocks, memory: Memory, live: Allocations)

  /** A block obtained and its header written, a pointer freed, a byte stored by the program. */
  datatype Operation =
    | Obtain(p: nat, h: Header, total: nat, contents: nat -> byte)
    | Release(p: nat)
    | StoreByte(p: nat, k: nat, b: byte)

  ghost predicate Possible(ptr: nat, st: State, op: Operation) {
    match op
    case Obtain(p, h, total, _) => Fresh(ptr, st.blocks, p, h, total)
    case Release(p) => p in st.live && HeaderSize(ptr) <= p
    case StoreByte(p, k, _) => p in st.live && k < st.live[p].size
  }

  /** A pointer is freed by what memory says in front of it. */
  ghost function After(ptr: nat, st: State, op: Operation): (st': State)
    requires Possible(ptr, st, op)
  {
    match op
    case Obtain(p, h, total, contents) =>
      State(st.blocks[h.base := total], Laid(st.memory, ptr, p, h, total, contents), st.live[p := h])
    case Release(p) => State(st.blocks - {HeaderAt(st.memory, ptr, p).base}, st.memory, st.live - {p})
    case StoreByte(p, k, b) => st.(memory := st.memory[p + k := b])
  }

  ghost predicate Trail(ptr: nat, trail: seq<State>, ops: seq<Operation>) {
    && |trail| == |ops| + 1 && trail[0] == State(map[], map[], map[])
    && forall i :: 0 <= i < |ops| ==> Possible(ptr, trail[i], ops[i]) && trail[i + 1] == After(ptr, trail[i], ops[i])
  }

  lemma {:induction false} AfterSound(ptr: nat, st: State, op: Operation)
    requires ptr > 0 && Sound(ptr, st.blocks, st.memory, st.live) && Possible(ptr, st, op)
    ensures var st' := After(ptr, st, op); Sound(ptr, st'.blocks, st'.memory, st'.live)
  {
    match op
    case Obtain(p, h, total, contents) => InsertSound(ptr, st.blocks, st.memory, st.live, p, h, total, contents);
    case Release(p) =>
      ReadsBack(ptr, st.blocks, st.memory, st.live, p);
      FreeSound(ptr, st.blocks, st.memory, st.live, p);
    case StoreByte(p, k, b) => UserWrite(ptr, st.blocks, st.live, st.memory, st.memory[p + k := b], p);
  }

  /** After any sequence of allocations, frees and stores, the words in front of a live pointer are the base and the size it was
      allocated with, and that block is still allocated. */
  lemma {:induction false} HeadersSurvive(ptr: nat, trail: seq<State>, ops: seq<Operation>, i: nat, p: nat)
    requires ptr > 0 && Trail(ptr, trail, ops) && i <= |ops|
    ensures Sound(ptr, trail[i].blocks, trail[i].memory, trail[i].live)
    ensures p in trail[i].live ==>
              HeaderSize(ptr) <= p && HeaderAt(trail[i].memory, ptr, p) == trail[i].live[p] && trail[i].live[p].base in trail[i].blocks
  {
    if i > 0 {
      HeadersSurvive(ptr, trail, ops, i - 1, p);
      AfterSound(ptr, trail[i - 1], ops[i - 1]);
    }
    if p in trail[i].live { ReadsBack(ptr, trail[i].blocks, trail[i].memory, trail[i].live, p); }
  }

  // ---------- the heap in place ----------

  /** What HeapAlloc may answer: nothing, or a base whose block is inside the address space and apart from the others. */
  predicate Answers(ptr: nat, blocks: Blocks, total: nat, base: Option<nat>) {
    base.Some? ==>
      && base.value > 0 && base.value !in blocks && base.value + total <= Space(ptr)
      && forall b :: b in blocks ==> Apart(base.value, total, b, blocks[b])
  }

  /** The same for a request with the default alignment. */
  predicate CanAnswer(ptr: nat, blocks: Blocks, size: nat, base: Option<nat>)
    requires ptr > 0
  {
    Accepts(ptr, 2 * ptr, size) ==> Answers(ptr, blocks, BlockSize(ptr, 2 * ptr, size), base)
  }

  /** Such a request succeeds. */
  predicate Obtains(ptr: nat, size: nat, base: Option<nat>) { Accepts(ptr, 2 * ptr, size) && base.Some? }

  /** The process heap: blocks by base address, and bytes. `live` is what the program has been handed, for the proofs only:
      no method looks at it. */
  class Heap {
    const ptr: nat
    var blocks: Blocks
    var memory: Memory
    ghost var live: Allocations

    ghost predicate Valid()
      reads this
    {
      IsPointerSize(ptr) && Sound(ptr, blocks, memory, live)
    }

    constructor (ptr: nat)
      requires IsPointerSize(ptr)
      ensures Valid() && live == map[] && blocks == map[] && this.ptr == ptr
    {
      this.ptr, blocks, memory, live := ptr, map[], map[], map[];
    }

    /** The program stores a byte in what it was handed. */
    method Write(p: nat, k: nat, b: byte)
      requires Valid() && p in live && k < live[p].size
      modifies this`memory
      ensures Valid() && Same(live, Some(p), old(memory), memory)
      ensures forall c: nat :: Cell(memory, c) == if c == p + k then b else Cell(old(memory), c)
    {
      memory := memory[p + k := b];
      UserWrite(ptr, blocks, live, old(memory), memory, p);
    }

    /** skyuv_heap_allocate; `base` is HeapAlloc's answer and `fill` what an unzeroed block happens to contain. */
    method Allocate(alignment: nat, size: nat, zero: bool, base: Option<nat>, fill: nat -> byte) returns (p: Option<nat>)
      requires Valid() && alignment < Space(ptr) && size < Space(ptr)
      requires Accepts(ptr, alignment, size) ==> Answers(ptr, blocks, BlockSize(ptr, alignment, size), base)
      modifies this
      ensures Valid() && (p.Some? <==> Accepts(ptr, alignment, size) && base.Some?) && Same(old(live), None, old(memory), memory)
      ensures p.None? ==> blocks == old(blocks) && live == old(live) && memory == old(memory)
      ensures p.Some? ==>
                && p.value !in old(live) && Bits.Mod(p.value, alignment) == 0
                && live == old(live)[p.value := Header(base.value, Normalized(size))]
                && blocks == old(blocks)[base.value := BlockSize(ptr, alignment, size)]
                && (zero ==> forall k: nat :: k < Normalized(size) ==> At(memory, p.value, k) == 0)
    {
      if !GoodAlignment(ptr, alignment) || Normalized(size) > Space(ptr) - 1 - Extra(ptr, alignment) || base.None? { return None; }
      var total := BlockSize(ptr, alignment, size);
      var aligned := Round(base.value, alignment, size);
      var h := Header(base.value, Normalized(size));
      if zero {
        ZeroFilled(memory, base.value, total, aligned, Normalized(size));
        Insert(aligned, h, total, Zero);
      } else {
        Insert(aligned, h, total, fill);
      }
      p := Some(aligned);
    }

    /** The pointer inside a block that has been obtained. */
    method Round(base: nat, alignment: nat, size: nat) returns (p: nat)
      requires IsPointerSize(ptr) && alignment < Space(ptr) && Accepts(ptr, alignment, size)
      requires Answers(ptr, blocks, BlockSize(ptr, alignment, size), Some(base))
      ensures Bits.Mod(p, alignment) == 0
      ensures Fresh(ptr, blocks, p, Header(base, Normalized(size)), BlockSize(ptr, alignment, size))
    {
      FitsInside(ptr, base, alignment, size);
      BlockExact(ptr, alignment, size);
      RoundsUp(ptr, base, alignment, 0);
      p := AlignedIn(ptr, base, alignment);
    }

    /** A new block with a pointer in it: HeapAlloc sets its contents, and the header is written. */
    method Insert(p: nat, h: Header, total: nat, contents: nat -> byte)
      requires Valid() && Fresh(ptr, blocks, p, h, total)
      modifies this
      ensures Valid() && p !in old(live) && Same(old(live), None, old(memory), memory)
      ensures live == old(live)[p := h] && blocks == old(blocks)[h.base := total]
      ensures forall k: nat :: k < h.size ==> At(memory, p, k) == At(Filled(old(memory), h.base, total, contents), p, k)
    {
      InsertSound(ptr, blocks, memory, live, p, h, total, contents);
      LaidCells(memory, ptr, p, h, total, contents);
      memory := Laid(memory, ptr, p, h, total, contents);
      blocks, live := blocks[h.base := total], live[p := h];
    }

    /** skyuv_free. The word in front of the pointer leads back to the block that was allocated for it. */
    method Free(p: Option<nat>)
      requires Valid() && (p.Some? ==> p.value in live)
      modifies this`blocks, this`live
      ensures Valid()
      ensures p.None? ==> blocks == old(blocks) && live == old(live)
      ensures p.Some? ==> live == old(live) - {p.value} && blocks == old(blocks) - {old(live)[p.value].base}
    {
      if p.None? { return; }
      ReadsBack(ptr, blocks, memory, live, p.value);
      FreeSound(ptr, blocks, memory, live, p.value);
      var base := HeaderAt(memory, ptr, p.value).base;
      blocks, live := blocks - {base}, live - {p.value};
    }

    /** skyuv_calloc. */
    method Calloc(count: nat, size: nat, base: Option<nat>) returns (p: Option<nat>)
      requires Valid() && count < Space(ptr) && size < Space(ptr)
      requires Product(count, size) < Space(ptr) ==> CanAnswer(ptr, blocks, Product(count, size), base)
      modifies this
      ensures Valid() && (p.Some? <==> Product(count, size) < Space(ptr) && Obtains(ptr, Product(count, size), base))
      ensures Same(old(live), None, old(memory), memory)
      ensures p.Some? ==>
                && p.value !in old(live) && live == old(live)[p.value := Header(base.value, Normalized(Product(count, size)))]
                && forall k: nat :: k < Normalized(Product(count, size)) ==> At(memory, p.value, k) == 0
    {
      CallocCheck(ptr, count, size);
      SmallAlignment(ptr);
      if count != 0 && size > (Space(ptr) - 1) / count { return None; }
      p := Allocate(2 * ptr, Product(count, size), true, base, Zero);
    }

    /** skyuv_malloc. */
    method Malloc(size: nat, base: Option<nat>, fill: nat -> byte) returns (p: Option<nat>)
      requires Valid() && size < Space(ptr) && CanAnswer(ptr, blocks, size, base)
      modifies this
      ensures Valid() && (p.Some? <==> Obtains(ptr, size, base)) && Same(old(live), None, old(memory), memory)
      ensures p.None? ==> blocks == old(blocks) && live == old(live) && memory == old(memory)
      ensures p.Some? ==> p.value !in old(live) && live == old(live)[p.value := Header(base.value, Normalized(size))]
      ensures p.Some? ==> Bits.Mod(p.value, 2 * ptr) == 0
    {
      SmallAlignment(ptr);
      p := Allocate(2 * ptr, size, false, base, fill);
    }

    /** skyuv_realloc. The first bytes survive, up to the smaller of the two sizes; when no new block can be had the
        old one stays as it is. */
    method Realloc(p: Option<nat>, size: nat, base: Option<nat>, fill: nat -> byte) returns (r: Option<nat>)
      requires Valid() && size < Space(ptr) && (p.Some? ==> p.value in live) && CanAnswer(ptr, blocks, size, base)
      modifies this
      ensures Valid() && Same(old(live), p, old(memory), memory)
      ensures r.Some? <==> (p.None? || size != 0) && Obtains(ptr, size, base)
      ensures r.Some? ==> r.value !in old(live) && r.value in live && live[r.value] == Header(base.value, Normalized(size))
      ensures r.Some? && p.Some? ==>
                && live == old(live)[r.value := live[r.value]] - {p.value} && old(live)[p.value].base !in blocks
                && forall k: nat :: k < size && k < old(live)[p.value].size ==> At(memory, r.value, k) == At(old(memory), p.value, k)
      ensures r.None? && p.Some? && size != 0 ==> live == old(live) && blocks == old(blocks) && memory == old(memory)
      ensures r.None? && p.Some? && size == 0 ==> live == old(live) - {p.value} && blocks == old(blocks) - {old(live)[p.value].base}
    {
      if p.None? {
        r := Malloc(size, base, fill);
      } else if size == 0 {
        Free(p);
        r := None;
      } else {
        r := Replace(p.value, size, base, fill);
      }
    }

    /** skyuv_realloc of a block to a size that is not zero. */
    method Replace(p: nat, size: nat, base: Option<nat>, fill: nat -> byte) returns (r: Option<nat>)
      requires Valid() && 0 < size < Space(ptr) && p in live && CanAnswer(ptr, blocks, size, base)
      modifies this
      ensures Valid() && Same(old(live), Some(p), old(memory), memory) && (r.Some? <==> Obtains(ptr, size, base))
      ensures r.Some? ==>
                && r.value !in old(live) && live == old(live)[r.value := Header(base.value, size)] - {p} && old(live)[p].base !in blocks
                && forall k: nat :: k < size && k < old(live)[p].size ==> At(memory, r.value, k) == At(old(memory), p, k)
      ensures r.None? ==> live == old(live) && blocks == old(blocks) && memory == old(memory)
    {
      r := Malloc(size, base, fill);
      if r.Some? {
        ghost var between := memory;
        Move(p, r.value, size);
        Through(old(live), p, r.value, old(memory), between, memory);
      }
    }

    /** The end of skyuv_realloc: the size in front of the original says how much to copy to the replacement; the original is
        freed. */
    method Move(p: nat, r: nat, size: nat)
      requires Valid() && p in live && r in live && p != r && live[r].size == size
      modifies this
      ensures Valid() && live == old(live) - {p} && old(live)[p].base !in blocks && Same(old(live), Some(r), old(memory), memory)
      ensures forall k: nat :: k < size && k < old(live)[p].size ==> At(memory, r, k) == At(old(memory), p, k)
    {
      ReadsBack(ptr, blocks, memory, live, p);
      var h := HeaderAt(memory, ptr, p);
      var n := if h.size < size then h.size else size;
      CopySound(ptr, blocks, memory, live, r, p, n);
      memory := Copied(memory, r, p, n);
      Free(Some(p));
    }
  }

  /** Two changes of memory, the second in a pointer the first made. */
  lemma {:induction false} Through(live: Allocations, p: nat, r: nat, m: Memory, m1: Memory, m2: Memory)
    requires p in live && r !in live && Same(live, None, m, m1)
    requires forall q, k: nat :: q in live && k < live[q].size ==> At(m2, q, k) == At(m1, q, k)
    ensures Same(live, Some(p), m, m2)
  {
    forall q, k: nat | q in live && q != p && k < live[q].size ensures At(m2, q, k) == At(m, q, k) {
      assert At(m2, q, k) == At(m1, q, k) && At(m1, q, k) == At(m, q, k);
    }
  }

  lemma {:induction false} SmallAlignment(ptr: nat)
    requires IsPointerSize(ptr)
    ensures GoodAlignment(ptr, 2 * ptr) && 2 * ptr < Space(ptr)
  {
    Bits.Pow2Monotone(5, 8 * ptr);
    assert Bits.Pow2(2) == 4 && Bits.Pow2(4) == 16;
    Bits.PowerTest(2 * ptr);
    assert 8 == Bits.Pow2(3);
    assert 16 == Bits.Pow2(4);
  }
}
