/** Socket identifiers: a slot number and a generation packed into one positive `int`, the
    generation counter of a slot, and the cyclic search for a free slot. */
module SocketIds {
  import opened Options
  import Bits

  const GENERATION_MAX: nat := 0x7fff
  const UINT16: nat := 0x1_0000
  const UINT32: nat := 0x1_0000_0000

  /** The table sizes the build accepts: two to the power SKYUV_SOCKET_SLOT_BITS, 1 to 16. */
  predicate IsSlotBits(bits: nat) { 1 <= bits <= 16 }

  function SlotCount(bits: nat): (n: nat) { Bits.Pow2(bits) }

  lemma SlotCountRange(bits: nat)
    requires IsSlotBits(bits)
    ensures 2 <= SlotCount(bits) <= 65536
    ensures Bits.ShiftLeft(SlotCount(bits), 32 - bits) == UINT32
  {
    Bits.Pow2Constants();
    Bits.Pow2Monotone(1, bits);
    Bits.Pow2Monotone(bits, 16);
    Bits.Pow2AsShift(bits, 32 - bits);
  }

  /** Conversion of a C `int` to `uint32_t`. */
  function Unsigned(id: int): (u: nat) { id % UINT32 }

  function IdSlot(bits: nat, id: int): (slot: nat) {
    Bits.And(Unsigned(id), SlotCount(bits) - 1) % UINT16
  }

  function IdGeneration(bits: nat, id: int): (generation: nat) {
    Bits.And(Bits.ShiftRight(Unsigned(id), bits), GENERATION_MAX) % UINT16
  }

  function NextGeneration(generation: nat): (next: nat) {
    var g := (generation + 1) % UINT16;
    if g == 0 || g > GENERATION_MAX then 1 else g
  }

  function IdMake(bits: nat, slot: nat, generation: nat): (id: int) {
    if generation == 0 || generation > GENERATION_MAX then -1
    else if bits < 16 && slot >= SlotCount(bits) then -1
    else Bits.Or(Bits.ShiftLeft(generation, bits), slot)
  }

  lemma IdSlotIsRemainder(bits: nat, id: int)
    requires IsSlotBits(bits)
    ensures IdSlot(bits, id) < SlotCount(bits)
    ensures IdSlot(bits, id) == Bits.Mod(Unsigned(id), SlotCount(bits))
  {
    SlotCountRange(bits);
    Bits.AndLowMask(Unsigned(id), bits);
  }

  /** The two halves of a packed number, recovered by the decoders. */
  lemma {:induction false} HalvesDecode(bits: nat, slot: nat, generation: nat, id: nat)
    requires IsSlotBits(bits) && slot < SlotCount(bits) && generation <= GENERATION_MAX && id < UINT32
    requires id == Bits.ShiftLeft(generation, bits) + slot
    ensures IdSlot(bits, id) == slot
    ensures IdGeneration(bits, id) == generation
  {
    LowHalf(bits, slot, generation, id);
    HighHalf(bits, slot, generation, id);
  }

  lemma {:induction false} LowHalf(bits: nat, slot: nat, generation: nat, id: nat)
    requires IsSlotBits(bits) && slot < SlotCount(bits) && id == Bits.ShiftLeft(generation, bits) + slot < UINT32
    ensures IdSlot(bits, id) == slot
  {
    assert Unsigned(id) == id;
    IdSlotIsRemainder(bits, id);
    Bits.ModPacked(generation, slot, bits);
  }

  lemma {:induction false} HighHalf(bits: nat, slot: nat, generation: nat, id: nat)
    requires IsSlotBits(bits) && slot < SlotCount(bits) && generation <= GENERATION_MAX
    requires id == Bits.ShiftLeft(generation, bits) + slot < UINT32
    ensures IdGeneration(bits, id) == generation
  {
    assert Unsigned(id) == id;
    Bits.ShiftPacked(generation, slot, bits);
    MaskGeneration(generation);
  }

  lemma MaskGeneration(generation: nat)
    requires generation <= GENERATION_MAX
    ensures Bits.And(generation, GENERATION_MAX) == generation
  {
    Bits.Pow2Constants();
    Bits.AndLowMask(generation, 15);
  }

  /** A made identifier is positive, fits an `int`, and decodes to the slot and generation it was made of. */
  lemma IdRoundTrip(bits: nat, slot: nat, generation: nat)
    requires IsSlotBits(bits) && slot < SlotCount(bits) && 1 <= generation <= GENERATION_MAX
    ensures 0 < IdMake(bits, slot, generation) <= 0x7fff_ffff
    ensures IdSlot(bits, IdMake(bits, slot, generation)) == slot
    ensures IdGeneration(bits, IdMake(bits, slot, generation)) == generation
  {
    Bits.OrDisjoint(generation, slot, bits);
    IdBound(bits, slot, generation);
    HalvesDecode(bits, slot, generation, IdMake(bits, slot, generation));
  }

  lemma IdBound(bits: nat, slot: nat, generation: nat)
    requires IsSlotBits(bits) && slot < SlotCount(bits) && 1 <= generation <= GENERATION_MAX
    ensures 0 < Bits.ShiftLeft(generation, bits) + slot <= 0x7fff_ffff
  {
    Bits.ShiftLeftBound(generation, GENERATION_MAX, bits);
    Bits.ShiftLeftSuccessor(GENERATION_MAX, bits);
    Bits.Pow2Constants();
    Bits.Pow2AsShift(15, bits);
    Bits.Pow2Monotone(15 + bits, 31);
  }

  /** The generation a slot carries after it has been reserved `count` times. */
  function GenerationAt(count: nat): (generation: nat)
    ensures generation <= GENERATION_MAX
    ensures count > 0 ==> generation > 0
  {
    if count == 0 then 0 else (count - 1) % GENERATION_MAX + 1
  }

  lemma GenerationAdvances(count: nat)
    ensures NextGeneration(GenerationAt(count)) == GenerationAt(count + 1)
  {
  }

  lemma GenerationRepeats(first: nat, second: nat)
    requires 1 <= first <= second
    ensures GenerationAt(first) == GenerationAt(second) <==> (second - first) % GENERATION_MAX == 0
  {
  }

  /** Two reservations of one slot share an identifier exactly when a whole number of
      generation cycles lies between them. */
  lemma IdRepeats(bits: nat, slot: nat, first: nat, second: nat)
    requires IsSlotBits(bits) && slot < SlotCount(bits) && 1 <= first <= second
    ensures IdMake(bits, slot, GenerationAt(first)) == IdMake(bits, slot, GenerationAt(second))
            <==> (second - first) % GENERATION_MAX == 0
  {
    IdRoundTrip(bits, slot, GenerationAt(first));
    IdRoundTrip(bits, slot, GenerationAt(second));
    GenerationRepeats(first, second);
  }

  /** The search of reserve_entry: at most one look at each slot, in cursor order.
      Yields the free slot met first, and the cursor left behind. */
  function Scan<T>(bits: nat, slots: seq<Option<T>>, cursor: nat, checked: nat): (r: (Option<nat>, nat))
    requires IsSlotBits(bits) && |slots| == SlotCount(bits)
    requires cursor < UINT32 && checked <= |slots|
    ensures r.1 < UINT32
    ensures r.0.Some? ==> r.0.value < |slots| && slots[r.0.value].None?
    decreases |slots| - checked
  {
    if checked == |slots| then (None, cursor) else
    IdSlotIsRemainder(bits, cursor);
    var slot := IdSlot(bits, cursor);
    var next := (cursor + 1) % UINT32;
    if slots[slot].Some? then Scan(bits, slots, next, checked + 1) else (Some(slot), next)
  }

  /** The slot looked at after k steps from a cursor, however often the cursor has wrapped. */
  function Probe(n: nat, cursor: nat, k: nat): (slot: nat)
    requires n > 0
    ensures slot < n
  {
    Bits.Mod(cursor + k, n)
  }

  /** The first n probes visit every slot exactly once. */
  lemma ProbesCoverTable(n: nat, cursor: nat, slot: nat)
    requires slot < n
    ensures exists k :: 0 <= k < n && Probe(n, cursor, k) == slot
    ensures forall j, k :: 0 <= j < k < n ==> Probe(n, cursor, j) != Probe(n, cursor, k)
  {
    var k := Bits.ModReaches(cursor, slot, n);
    assert Probe(n, cursor, k) == slot;
    forall i, j | 0 <= i < j < n ensures Probe(n, cursor, i) != Probe(n, cursor, j) {
      Bits.ModDistinct(cursor + i, j - i, n);
    }
  }

  /** The k-th probe is the first that meets a free slot. */
  ghost predicate FirstFree<T>(slots: seq<Option<T>>, cursor: nat, k: nat)
    requires |slots| > 0
  {
    slots[Probe(|slots|, cursor, k)].None? && AllTaken(slots, cursor, k)
  }

  ghost predicate AllTaken<T>(slots: seq<Option<T>>, cursor: nat, k: nat)
    requires |slots| > 0
  {
    forall j :: 0 <= j < k ==> slots[Probe(|slots|, cursor, j)].Some?
  }

  ghost predicate FoundAt<T>(slots: seq<Option<T>>, cursor: nat, k: nat, slot: nat, next: nat)
    requires |slots| > 0
  {
    k < |slots| && FirstFree(slots, cursor, k) && slot == Probe(|slots|, cursor, k) && next == (cursor + k + 1) % UINT32
  }

  /** What the search returns, without reference to how it runs: the slot of the first probe that
      meets a free one, or nothing when all n probes meet taken slots. */
  ghost predicate FindsFirstFree<T>(slots: seq<Option<T>>, cursor: nat, found: Option<nat>, next: nat)
    requires |slots| > 0
  {
    match found
    case None => AllTaken(slots, cursor, |slots|) && next == (cursor + |slots|) % UINT32
    case Some(slot) => exists k: nat :: FoundAt(slots, cursor, k, slot, next)
  }

  /** The search after `checked` looks at taken slots, started at `start`. */
  lemma {:induction false} ScanFrom<T>(bits: nat, slots: seq<Option<T>>, start: nat, checked: nat)
    requires IsSlotBits(bits) && |slots| == SlotCount(bits) > 0
    requires start < UINT32 && checked <= |slots| && AllTaken(slots, start, checked)
    ensures var r := Scan(bits, slots, (start + checked) % UINT32, checked);
            FindsFirstFree(slots, start, r.0, r.1)
    decreases |slots| - checked
  {
    if checked < |slots| {
      var cursor := (start + checked) % UINT32;
      CursorSlot(bits, start, checked);
      CursorAdvances(start, checked);
      if slots[IdSlot(bits, cursor)].Some? {
        ScanFrom(bits, slots, start, checked + 1);
      } else {
        assert FoundAt(slots, start, checked, IdSlot(bits, cursor), (cursor + 1) % UINT32);
      }
    }
  }

  lemma CursorAdvances(start: nat, k: nat)
    ensures ((start + k) % UINT32 + 1) % UINT32 == (start + k + 1) % UINT32
  {
  }

  /** A 32-bit cursor that has wrapped still points at the slot an unbounded one would. */
  lemma CursorSlot(bits: nat, start: nat, k: nat)
    requires IsSlotBits(bits) && start < UINT32 && k <= SlotCount(bits)
    ensures IdSlot(bits, (start + k) % UINT32) == Probe(SlotCount(bits), start, k)
  {
    SlotCountRange(bits);
    var x := start + k;
    IdSlotIsRemainder(bits, x % UINT32);
    if x >= UINT32 {
      assert x % UINT32 == x - UINT32;
      Bits.ModShiftedMultiple(x - UINT32, SlotCount(bits), 32 - bits);
    } else {
      assert x % UINT32 == x;
    }
  }

  lemma EveryProbeTaken<T>(slots: seq<Option<T>>, cursor: nat)
    requires |slots| > 0 && AllTaken(slots, cursor, |slots|)
    ensures forall s :: 0 <= s < |slots| ==> slots[s].Some?
  {
    forall s | 0 <= s < |slots| ensures slots[s].Some? {
      ProbesCoverTable(|slots|, cursor, s);
    }
  }

  /** reserve_entry takes the first free slot in cursor order and misses exactly when the table is full. */
  lemma ScanComplete<T>(bits: nat, slots: seq<Option<T>>, cursor: nat)
    requires IsSlotBits(bits) && |slots| == SlotCount(bits) > 0 && cursor < UINT32
    ensures var r := Scan(bits, slots, cursor, 0); FindsFirstFree(slots, cursor, r.0, r.1)
    ensures Scan(bits, slots, cursor, 0).0.None? <==> forall s :: 0 <= s < |slots| ==> slots[s].Some?
  {
    assert (cursor + 0) % UINT32 == cursor;
    ScanFrom(bits, slots, cursor, 0);
    var r := Scan(bits, slots, cursor, 0);
    if r.0.None? { EveryProbeTaken(slots, cursor); }
  }
}
