/** The slot array of entry objects with its generations and its cursor. A ghost table follows them. */
module SlotTables {
  import opened Options
  import opened LinkedQueues
  import opened Seals
  import opened SocketEntries
  import opened SocketIds
  import opened SocketMachine
  import opened SocketObjects

  /** The table with a fresh entry in a slot. */
  function Settled(tb: Table, s: nat, owner: nat, cursor: nat): (tb': Table)
    requires Sizes(tb) && s < |tb.slots| && cursor < UINT32
    ensures Sizes(tb')
  {
    var generation := NextGeneration(tb.generations[s]);
    Table(tb.bits, tb.slots[s := Some(Fresh(IdMake(tb.bits, s, generation), owner))], tb.generations[s := generation],
          cursor, tb.count + 1, tb.traces[s := []], tb.reserved[s := tb.reserved[s] + 1])
  }

  lemma {:induction false} ReserveIs(tb: Table, owner: nat, memory: bool, found: Option<nat>, next: nat)
    requires Sizes(tb) && (found, next) == Scan(tb.bits, tb.slots, tb.cursor, 0)
    ensures SocketMachine.Reserve(tb, owner, memory)
            == if found.Some? && memory then (found, Settled(tb, found.value, owner, next)) else (None, tb.(cursor := next))
  {
  }

  /** One look of the search. */
  lemma {:induction false} ScanOnce<T>(bits: nat, table: seq<Option<T>>, cursor: nat, checked: nat)
    requires IsSlotBits(bits) && |table| == SlotCount(bits) && cursor < UINT32 && checked < |table|
    ensures IdSlot(bits, cursor) < |table|
    ensures Scan(bits, table, cursor, checked)
            == if table[IdSlot(bits, cursor)].Some? then Scan(bits, table, (cursor + 1) % UINT32, checked + 1)
               else (Some(IdSlot(bits, cursor)), (cursor + 1) % UINT32)
  {
    IdSlotIsRemainder(bits, cursor);
  }

  class SlotTable {
    const bits: nat
    const slots: array<SocketEntry?>
    const generations: array<nat>
    var nextSlot: nat
    var count: int
    ghost var model: Table
    ghost var entries: set<SocketEntry>
    ghost var queues: set<Queue<Buffer>>
    ghost var cells: set<Node<Buffer>>

    /** The entry of a slot and its queues belong to the table. */
    ghost predicate Owned(i: nat)
      requires i < slots.Length
      reads this`entries, this`queues, slots
    {
      slots[i] != null ==> slots[i] in entries && slots[i].high in queues && slots[i].low in queues
    }

    /** A slot is free in both, or its entry object is well linked and looks like the entry of the model. */
    ghost predicate SlotMatches(i: nat)
      requires i < slots.Length && i < |model.slots| && Owned(i)
      reads this`model, this`entries, this`queues, this`cells, slots, entries, queues, cells
    {
      if slots[i] == null then model.slots[i].None?
      else slots[i].Cells() <= cells && slots[i].Valid() && model.slots[i] == Some(slots[i].View())
    }

    /** Two occupied slots share nothing. */
    ghost predicate Apart(i: nat, j: nat)
      requires i < slots.Length && j < slots.Length && Owned(i) && Owned(j)
      reads this`entries, this`queues, slots, queues
    {
      slots[i] != null && slots[j] != null ==>
        && slots[i] != slots[j] && {slots[i].high, slots[i].low} !! {slots[j].high, slots[j].low}
        && slots[i].Cells() !! slots[j].Cells()
    }

    /** The entries and the table agree, except in slot `skip`. */
    ghost predicate AlignedBut(skip: int)
      reads this, slots, generations, entries, queues, cells
    {
      && Sizes(model) && model.bits == bits && |model.slots| == slots.Length == generations.Length
      && (forall i :: 0 <= i < slots.Length ==> Owned(i))
      && (forall i :: 0 <= i < slots.Length && i != skip ==> SlotMatches(i))
      && (forall i, j :: 0 <= i < j < slots.Length ==> Apart(i, j))
      && (forall i :: 0 <= i < slots.Length ==> generations[i] == model.generations[i])
      && nextSlot < UINT32 && count == model.count
    }

    ghost predicate Ready()
      reads this, slots, generations, entries, queues, cells
    {
      AlignedBut(-1) && nextSlot == model.cursor
    }

    ghost predicate Valid()
      reads this, slots, generations, entries, queues, cells
    {
      && Sizes(model) && model.bits == bits && |model.slots| == slots.Length && count == model.count
      && forall k: nat :: Unsealed(Fold.Tables, k) ==> Ready()
    }

    /** A slot is null exactly when it is free, and otherwise holds the entry the model has there. */
    lemma Shows(i: nat)
      requires Valid() && i < slots.Length
      ensures slots[i] == null <==> model.slots[i].None?
      ensures slots[i] != null ==> slots[i] in entries && {slots[i].high, slots[i].low} <= queues
                                   && model.slots[i] == Some(slots[i].View())
    {
      assert Unsealed(Fold.Tables, 0);
      assert Owned(i) && SlotMatches(i);
    }

    /** No entry is in two slots. */
    lemma Distinct(i: nat, j: nat)
      requires Valid() && i < slots.Length && j < slots.Length && i != j && slots[i] != null
      ensures slots[i] != slots[j]
    {
      assert Unsealed(Fold.Tables, 0);
      if i < j { assert Apart(i, j); } else { assert Apart(j, i); }
    }

    /** Valid looks at nothing of an entry but its view and its queues, so relinking the pump list keeps it. */
    twostate lemma Relinked()
      requires old(Valid()) && unchanged(this) && unchanged(slots) && unchanged(generations) && unchanged(queues) && unchanged(cells)
      requires forall e :: e in old(entries) ==> e.View() == old(e.View())
      ensures Valid()
    {
      assert Unsealed(Fold.Tables, 0);
      forall i | 0 <= i < slots.Length ensures Owned(i) { assert old(Owned(i)); }
      forall i | 0 <= i < slots.Length ensures SlotMatches(i) { assert old(Owned(i)) && old(SlotMatches(i)); }
      forall i, j | 0 <= i < j < slots.Length ensures Apart(i, j) { assert old(Apart(i, j)); }
    }

    twostate lemma Undisturbed()
      requires old(Valid()) && unchanged(this) && unchanged(slots) && unchanged(generations)
      requires unchanged(entries) && unchanged(queues) && unchanged(cells)
      ensures Valid()
    {
    }

    /** What the table has gained since is new. */
    twostate predicate Grown()
      reads this
    {
      && old(entries) <= entries && fresh(entries - old(entries))
      && old(queues) <= queues && fresh(queues - old(queues))
      && old(cells) <= cells && fresh(cells - old(cells))
    }

    constructor (bits: nat)
      requires IsSlotBits(bits)
      ensures Valid() && model == Init(bits).table && this.bits == bits
      ensures fresh(slots) && fresh(generations) && entries == {} && queues == {} && cells == {}
    {
      this.bits := bits;
      slots := new SocketEntry?[SlotCount(bits)](i => null);
      generations := new nat[SlotCount(bits)](i => 0);
      nextSlot, count := 0, 0;
      model, entries, queues, cells := Init(bits).table, {}, {}, {};
    }

    lemma FreeMatches()
      requires AlignedBut(-1)
      ensures forall i :: 0 <= i < slots.Length ==> (slots[i] == null <==> model.slots[i].None?)
    {
      forall i | 0 <= i < slots.Length ensures slots[i] == null <==> model.slots[i].None? {
        assert SlotMatches(i);
      }
    }

    /** find_entry. */
    method Find(id: int) returns (slot: Option<nat>)
      requires Valid()
      ensures slot == FindEntry(model, id)
    {
      assert Unsealed(Fold.Tables, 0);
      IdSlotIsRemainder(bits, id);
      var s := IdSlot(bits, id);
      assert SlotMatches(s);
      if slots[s] == null || slots[s].id != id { return None; }
      slot := Some(s);
    }

    /** The search of reserve_entry. */
    method Search() returns (slot: Option<nat>)
      requires AlignedBut(-1)
      modifies this`nextSlot
      ensures (slot, nextSlot) == Scan(bits, model.slots, old(nextSlot), 0)
    {
      ghost var table := model.slots;
      FreeMatches();
      var checked := 0;
      while checked < slots.Length
        invariant checked <= slots.Length && nextSlot < UINT32
        invariant Scan(bits, table, nextSlot, checked) == Scan(bits, table, old(nextSlot), 0)
      {
        ScanOnce(bits, table, nextSlot, checked);
        var s := IdSlot(bits, nextSlot);
        nextSlot := (nextSlot + 1) % UINT32;
        if slots[s] == null { return Some(s); }
        checked := checked + 1;
      }
      slot := None;
    }

    /** reserve_entry once a free slot is found. */
    method Occupy(s: nat, owner: nat)
      requires AlignedBut(-1) && s < slots.Length && slots[s] == null
      modifies this`count, this`entries, this`queues, this`model, slots, generations
      ensures AlignedBut(-1) && Grown() && (forall e :: e in entries && e !in old(entries) ==> e.pumpNext == null)
      ensures forall i :: 0 <= i < slots.Length && i != s ==> slots[i] == old(slots[i])
      ensures model == Settled(old(model), s, owner, nextSlot)
    {
      var generation := NextGeneration(generations[s]);
      var e := new SocketEntry(IdMake(bits, s, generation), owner);
      PutIn(s, e);
      Adopt(s, owner, generation);
    }

    /** An entry that shares nothing with the others goes into a free slot. */
    method PutIn(s: nat, e: SocketEntry)
      requires AlignedBut(-1) && s < slots.Length && slots[s] == null
      requires e !in entries && e.high !in queues && e.low !in queues && e.Cells() == {}
      modifies this`entries, this`queues, slots
      ensures AlignedBut(s) && slots[..] == old(slots[..])[s := e]
      ensures entries == old(entries) + {e} && queues == old(queues) + {e.high, e.low}
    {
      slots[s], entries, queues := e, entries + {e}, queues + {e.high, e.low};
      forall i | 0 <= i < slots.Length ensures Owned(i) { assert old(Owned(i)); }
      forall i | 0 <= i < slots.Length && i != s ensures SlotMatches(i) { assert old(Owned(i)) && old(SlotMatches(i)); }
      forall i, j | 0 <= i < j < slots.Length ensures Apart(i, j) { assert old(Owned(i)) && old(Owned(j)) && old(Apart(i, j)); }
    }

    /** The rest of the table follows the new entry in a slot. */
    method Adopt(s: nat, owner: nat, generation: nat)
      requires AlignedBut(s) && s < slots.Length && slots[s] != null && generation == NextGeneration(generations[s])
      requires slots[s].Cells() == {} && slots[s].Valid() && slots[s].View() == Fresh(IdMake(bits, s, generation), owner)
      modifies this`count, this`model, generations
      ensures AlignedBut(-1) && model == Settled(old(model), s, owner, nextSlot)
    {
      generations[s], count := generation, count + 1;
      model := Settled(model, s, owner, nextSlot);
      forall i | 0 <= i < slots.Length && i != s ensures SlotMatches(i) { assert old(SlotMatches(i)); }
    }

    /** reserve_entry. */
    method Reserve(owner: nat, memory: bool) returns (slot: Option<nat>)
      requires Valid()
      modifies this`nextSlot, this`count, this`entries, this`queues, this`model, slots, generations
      ensures Valid() && Grown() && (slot, model) == SocketMachine.Reserve(old(model), owner, memory)
      ensures forall e :: e in entries && e !in old(entries) ==> e.pumpNext == null
      ensures forall i :: 0 <= i < slots.Length && Some(i) != slot ==> slots[i] == old(slots[i])
    {
      assert Unsealed(Fold.Tables, 0);
      slot := Search();
      ReserveIs(model, owner, memory, slot, nextSlot);
      if slot.Some? && memory {
        FreeMatches();
        Occupy(slot.value, owner);
      } else {
        slot := None;
        KeepCursor();
      }
    }

    ghost method KeepCursor()
      requires AlignedBut(-1)
      modifies this`model
      ensures Ready() && model == old(model).(cursor := nextSlot)
    {
      model := model.(cursor := nextSlot);
      forall i | 0 <= i < slots.Length ensures SlotMatches(i) { assert old(SlotMatches(i)); }
    }

    /** Empties a slot and takes n off the count. */
    method Clear(s: nat, n: nat)
      requires Valid() && s < slots.Length
      modifies this`count, this`model, slots
      ensures slots[..] == old(slots[..])[s := null]
      ensures Valid() && model == old(model).(slots := old(model.slots)[s := None], count := old(model.count) - n)
    {
      assert Unsealed(Fold.Tables, 0);
      slots[s], count := null, count - n;
      model := model.(slots := model.slots[s := None], count := model.count - n);
      forall i | 0 <= i < slots.Length ensures Owned(i) { assert old(Owned(i)); }
      forall i | 0 <= i < slots.Length ensures SlotMatches(i) { if i != s { assert old(SlotMatches(i)); } }
      forall i, j | 0 <= i < j < slots.Length ensures Apart(i, j) { if i != s && j != s { assert old(Apart(i, j)); } }
    }

    /** The entry object of a slot takes a step, and nothing else changes. */
    method Run(s: nat, input: Input) returns (freed: bool, actions: seq<Action>)
      requires Ready() && s < slots.Length && model.slots[s].Some? && Enabled(model.slots[s].value, input)
      modifies entries, queues, cells
      ensures AlignedBut(s) && slots[s] != null && slots[s].Valid() && fresh(slots[s].Cells() - cells)
      ensures forall e :: e in entries ==> e.pumpNext == old(e.pumpNext)
      ensures Left(freed, slots[s].View(), actions) == Perform(model.slots[s].value, input)
    {
      assert Owned(s) && SlotMatches(s);
      var e := slots[s];
      freed, actions := e.Step(input);
      ghost var gained := e.Cells() - old(e.Cells());
      assert gained !! cells && e.Cells() == old(e.Cells()) + gained;
      forall i | 0 <= i < slots.Length && i != s ensures Untouched(i) && Unshared(s, i) {
        assert old(SlotMatches(i));
        if i < s { assert old(Apart(i, s)); } else { assert old(Apart(s, i)); }
      }
      OthersStay(s);
    }

    /** Neither the entry of a slot nor its queues changed. */
    twostate predicate Untouched(i: nat)
      requires i < slots.Length && slots[i] == old(slots[i]) && entries == old(entries) && queues == old(queues) && cells == old(cells)
      requires old(Owned(i))
      reads this`entries, this`queues, this`cells, slots, entries, queues, cells
    {
      slots[i] != null && old(slots[i].Cells()) <= cells ==>
        unchanged(slots[i]) && unchanged(slots[i].high) && unchanged(slots[i].low) && unchanged(old(slots[i].Cells()))
    }

    twostate lemma OthersStay(s: nat)
      requires s < slots.Length && entries == old(entries) && queues == old(queues) && cells == old(cells) && model == old(model)
      requires old(AlignedBut(-1)) && forall i :: 0 <= i < slots.Length ==> slots[i] == old(slots[i]) && Owned(i)
      requires forall i :: 0 <= i < slots.Length && i != s ==> old(SlotMatches(i)) && Untouched(i) && Unshared(s, i)
      ensures forall i :: 0 <= i < slots.Length && i != s ==> SlotMatches(i)
      ensures forall i, j :: 0 <= i < j < slots.Length ==> Apart(i, j)
    {
      forall i | 0 <= i < slots.Length && i != s ensures SlotMatches(i) { assert old(SlotMatches(i)) && Untouched(i); }
      forall i, j | 0 <= i < j < slots.Length ensures Apart(i, j) {
        assert old(Apart(i, j));
        if i == s { assert Unshared(s, j); } else if j == s { assert Unshared(s, i); } else { assert Untouched(i) && Untouched(j); }
      }
    }

    /** The same with the ghost table; a freed entry is still in its slot. */
    method StepOn(s: nat, input: Input) returns (freed: bool, actions: seq<Action>)
      requires Ready() && s < slots.Length && model.slots[s].Some? && Enabled(model.slots[s].value, input)
      modifies this`model, this`cells, entries, queues, cells
      ensures Ready() && Grown() && model.slots[s].Some?
      ensures forall e :: e in old(entries) ==> e.pumpNext == old(e.pumpNext)
      ensures Left(freed, model.slots[s].value, actions) == Perform(old(model.slots)[s].value, input)
      ensures model == old(model).(slots := old(model.slots)[s := model.slots[s]], traces := old(model.traces)[s := old(model.traces)[s] + actions])
    {
      freed, actions := Run(s, input);
      Absorb(s, actions);
    }

    /** The nodes of two entries are different. */
    ghost predicate Unshared(s: nat, i: nat)
      requires s < slots.Length && i < slots.Length && Owned(s) && Owned(i)
      reads this`entries, this`queues, slots, queues
    {
      slots[s] != null && slots[i] != null ==> slots[s].Cells() !! slots[i].Cells()
    }

    /** The ghost table follows an entry that has just taken a step. */
    ghost method Absorb(s: nat, actions: seq<Action>)
      requires AlignedBut(s) && nextSlot == model.cursor && s < slots.Length && slots[s] != null && slots[s].Valid()
      modifies this`model, this`cells
      ensures Ready() && cells == old(cells) + slots[s].Cells()
      ensures model == old(model).(slots := old(model.slots)[s := Some(slots[s].View())], traces := old(model.traces)[s := old(model.traces)[s] + actions])
    {
      cells := cells + slots[s].Cells();
      model := model.(slots := model.slots[s := Some(slots[s].View())], traces := model.traces[s := model.traces[s] + actions]);
      forall i | 0 <= i < slots.Length && i != s ensures SlotMatches(i) { assert old(SlotMatches(i)); }
    }

    /** One command or callback on the entry object of a slot. */
    method Operate(s: nat, input: Input) returns (freed: bool, actions: seq<Action>)
      requires Valid() && s < slots.Length && model.slots[s].Some? && Enabled(model.slots[s].value, input)
      modifies this`count, this`model, this`cells, slots, entries, queues, cells
      ensures Valid() && Grown() && slots[..] == if freed then old(slots[..])[s := null] else old(slots[..])
      ensures forall e :: e in old(entries) ==> e.pumpNext == old(e.pumpNext)
      ensures var o := Perform(old(model.slots)[s].value, input);
              freed == o.entry.None? && actions == o.actions && model == Place(old(model), s, o)
    {
      assert Unsealed(Fold.Tables, 0);
      freed, actions := StepOn(s, input);
      if freed { Clear(s, 1); }
    }
  }
}
