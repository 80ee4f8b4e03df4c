/** The invariant of the socket runtime and its preservation by every step. `t` is an arbitrary token:
    the conservation part follows that one buffer, so proving the invariant for every `t` accounts for
    all of them. */
module MachineInvariants {
  import opened Bytes
  import opened Options
  import opened SocketEntries
  import opened SocketIds
  import opened EntryTraces
  import opened EntryInvariants
  import opened SocketMachine
  import opened Counting
  import opened Seals
  import Udp = UdpAddresses

  // ---------- counting ----------

  function SlotHeld(slots: seq<Option<Entry>>, t: nat): (n: nat) {
    if slots == [] then 0 else HoldsIn(slots[0], t) + SlotHeld(slots[1..], t)
  }

  lemma {:induction false} HeldUpdate(slots: seq<Option<Entry>>, s: nat, e: Option<Entry>, t: nat)
    requires s < |slots|
    ensures SlotHeld(slots[s := e], t) + HoldsIn(slots[s], t) == SlotHeld(slots, t) + HoldsIn(e, t)
  {
    if s > 0 {
      HeldUpdate(slots[1..], s - 1, e, t);
      assert slots[s := e][1..] == slots[1..][s - 1 := e];
    } else {
      assert slots[s := e][1..] == slots[1..];
    }
  }

  lemma {:induction false} HeldNone(slots: seq<Option<Entry>>, t: nat)
    requires forall s :: 0 <= s < |slots| ==> HoldsIn(slots[s], t) == 0
    ensures SlotHeld(slots, t) == 0
  {
    if slots != [] { HeldNone(slots[1..], t); }
  }

  /** Occupied slots. */
  function Taken(slots: seq<Option<Entry>>): (n: nat) {
    if slots == [] then 0 else OneIf(slots[0].Some?) + Taken(slots[1..])
  }

  lemma {:induction false} TakenUpdate(slots: seq<Option<Entry>>, s: nat, e: Option<Entry>)
    requires s < |slots|
    ensures Taken(slots[s := e]) + OneIf(slots[s].Some?) == Taken(slots) + OneIf(e.Some?)
  {
    if s > 0 {
      TakenUpdate(slots[1..], s - 1, e);
      assert slots[s := e][1..] == slots[1..][s - 1 := e];
    } else {
      assert slots[s := e][1..] == slots[1..];
    }
  }

  lemma {:induction false} TakenZero(slots: seq<Option<Entry>>)
    ensures Taken(slots) == 0 <==> forall s :: 0 <= s < |slots| ==> slots[s].None?
  {
    if slots != [] {
      TakenZero(slots[1..]);
      assert forall s :: 0 < s < |slots| ==> slots[s] == slots[1..][s - 1];
    }
  }

  lemma {:induction false} EffectsMatch(l: Ledger, h: seq<Action>)
    ensures Tally(l, h).freed == l.freed + CountOf(ReleasedIn(h), l.watch)
    ensures Tally(l, h).scheduled == l.scheduled + Schedulings(h)
    ensures Tally(l, h).watch == l.watch
    decreases |h|
  {
    if h != [] {
      EffectsMatch(Observe(l, h[0]), h[1..]);
      var head := if h[0].Released? then [h[0].token] else [];
      CountConcat(head, ReleasedIn(h[1..]), l.watch);
      if head != [] { CountOne(head[0], l.watch); }
    }
  }

  // ---------- the invariant ----------

  /** Identifiers: every slot carries the generation of its latest reservation, and the entry in it the
      identifier made of the two. */
  ghost predicate TableOk(tb: Table) {
    && Sizes(tb)
    && (forall s :: 0 <= s < |tb.slots| ==> tb.generations[s] == GenerationAt(tb.reserved[s]))
    && (forall s :: 0 <= s < |tb.slots| && tb.slots[s].Some? ==>
          tb.reserved[s] > 0 && tb.slots[s].value.id == IdMake(tb.bits, s, tb.generations[s]))
  }

  function LedgerOf(tb: Table, s: nat, t: nat): (l: Ledger)
    requires s < |tb.traces|
  {
    Tally(Blank(t), tb.traces[s])
  }

  /** The invariant of an entry, sealed, so that proofs about the table pass it on whole. */
  ghost predicate Sealed(e: Entry, l: Ledger) { forall k: nat :: Unsealed(Fold.Entries, k) ==> EntryOk(e, l) }

  lemma {:induction false} Seal(e: Entry, l: Ledger)
    requires EntryOk(e, l)
    ensures Sealed(e, l)
  {
  }

  lemma {:induction false} Unseal(e: Entry, l: Ledger)
    requires Sealed(e, l)
    ensures EntryOk(e, l)
  {
    assert Unsealed(Fold.Entries, 0);
  }

  ghost predicate EntriesOk(tb: Table, t: nat)
    requires Sizes(tb)
  {
    forall s :: 0 <= s < |tb.slots| && tb.slots[s].Some? ==> Sealed(tb.slots[s].value, LedgerOf(tb, s, t))
  }

  predicate Pending(tb: Table, s: nat) { Occupied(tb, s) && tb.slots[s].value.pumpPending }

  /** The pump list holds exactly the entries flagged as pending, each once. */
  ghost predicate PumpOk(tb: Table, pump: seq<nat>) {
    && (forall i :: 0 <= i < |pump| ==> Pending(tb, pump[i]))
    && (forall i, j :: 0 <= i < j < |pump| ==> pump[i] != pump[j])
    && (forall s :: 0 <= s < |tb.slots| && Pending(tb, s) ==> s in pump)
  }

  ghost predicate IsEnd(end: seq<Command>, whole: seq<Command>)
    requires |end| <= |whole|
  {
    forall i :: 0 <= i < |end| ==> end[i] == whole[|whole| - |end| + i]
  }

  /** The queue is the untaken end of everything it accepted, and EXIT can only be the last of that. */
  ghost predicate MailOk(q: Mail, phase: Phase) {
    && |q.commands| <= |q.taken| && IsEnd(q.commands, q.taken)
    && (forall i :: 0 <= i < |q.taken| - 1 ==> !q.taken[i].order.Quit?)
    && (q.accepting ==> q.taken != [] ==> !q.taken[|q.taken| - 1].order.Quit?)
    && (!q.accepting && !phase.Gone? ==> q.taken != [] && q.taken[|q.taken| - 1].order.Quit?)
    && (forall i :: 0 <= i < |q.commands| ==> Sendworthy(q.commands[i]))
  }

  ghost predicate AllClosing(tb: Table) {
    forall s :: 0 <= s < |tb.slots| && tb.slots[s].Some? ==> tb.slots[s].value.state.Closing?
  }

  ghost predicate ExitOk(m: Machine) {
    && (m.loop.exiting || Serving(m.loop) ==> m.table.count == Taken(m.table.slots))
    && (m.loop.exiting ==> !m.mail.accepting && m.mail.commands == [] && !m.loop.asyncOpen)
    && (m.loop.exiting || m.loop.phase.Releasing? ==> AllClosing(m.table))
    && (m.loop.exitReady ==> m.loop.exiting && Taken(m.table.slots) == 0)
    && (m.loop.exiting && Taken(m.table.slots) == 0 ==> m.loop.exitReady || m.out.exits > 0)
    && (!m.loop.exiting ==> m.out.exits == 0)
    && (m.loop.exiting && Taken(m.table.slots) > 0 ==> m.out.exits == 0)
  }

  /** The watched buffer is in one place: a queued command, an entry, or released; before it is issued, in none. */
  ghost predicate Conserved(m: Machine, t: nat) {
    SlotHeld(m.table.slots, t) + CountOf(Buffers(m.mail.commands), t) + CountOf(m.out.released, t) == OneIf(t < m.out.issued)
  }

  predicate Resting(phase: Phase) { phase.Idle? || phase.Releasing? || phase.Gone? }

  /** Everything but the place of the watched buffer. */
  ghost predicate Sound(m: Machine, t: nat) {
    && TableOk(m.table) && EntriesOk(m.table, t) && PumpOk(m.table, m.loop.pump) && MailOk(m.mail, m.loop.phase)
    && ExitOk(m) && (Resting(m.loop.phase) ==> m.loop.pump == [])
  }

  ghost predicate Inv(m: Machine, t: nat) { Sound(m, t) && Conserved(m, t) }

  // ---------- one operation on one slot ----------

  lemma {:induction false} PlaceTable(tb: Table, s: nat, o: Outcome)
    requires TableOk(tb) && Occupied(tb, s) && (o.entry.Some? ==> o.entry.value.id == tb.slots[s].value.id)
    ensures TableOk(Place(tb, s, o))
  {
  }

  lemma {:induction false} PlaceEntries(tb: Table, s: nat, o: Outcome, t: nat)
    requires Sizes(tb) && EntriesOk(tb, t) && s < |tb.slots|
    requires o.entry.Some? ==> Sealed(o.entry.value, Tally(LedgerOf(tb, s, t), o.actions))
    ensures EntriesOk(Place(tb, s, o), t)
  {
    TallyConcat(Blank(t), tb.traces[s], o.actions);
    var tb' := Place(tb, s, o);
    forall i | 0 <= i < |tb'.slots| && tb'.slots[i].Some? ensures Sealed(tb'.slots[i].value, LedgerOf(tb', i, t)) {
      if i != s { assert tb'.slots[i] == tb.slots[i] && tb'.traces[i] == tb.traces[i]; }
    }
  }

  lemma {:induction false} PlacePump(tb: Table, pump: seq<nat>, s: nat, o: Outcome)
    requires Sizes(tb) && Occupied(tb, s) && PumpOk(tb, pump)
    requires PumpKept(tb.slots[s].value, o.entry, Schedulings(o.actions))
    ensures PumpOk(Place(tb, s, o), pump + if Schedulings(o.actions) > 0 then [s] else [])
  {
    var tb' := Place(tb, s, o);
    var pump' := pump + if Schedulings(o.actions) > 0 then [s] else [];
    assert Pending(tb', s) == (Pending(tb, s) || Schedulings(o.actions) > 0);
    forall i | 0 <= i < |pump'| ensures Pending(tb', pump'[i]) {
      if i < |pump| { assert Pending(tb, pump[i]); }
    }
    forall i, j | 0 <= i < j < |pump'| ensures pump'[i] != pump'[j] {
      if j == |pump| { assert Pending(tb, pump[i]); }
    }
    forall i | 0 <= i < |tb'.slots| && Pending(tb', i) ensures i in pump' {
      if i != s { assert Pending(tb, i); } else { assert Pending(tb, s) || s == pump'[|pump'| - 1]; }
    }
  }

  lemma {:induction false} ClosingStays(l: Ledger, h: seq<Action>)
    requires l.state.Closing? && Tally(l, h).legal
    ensures l.legal && Tally(l, h).state.Closing?
    decreases |h|
  {
    if h != [] {
      LegalGrows(Observe(l, h[0]), h[1..]);
      ClosingStays(Observe(l, h[0]), h[1..]);
    }
  }

  lemma {:induction false} LegalGrows(l: Ledger, h: seq<Action>)
    requires Tally(l, h).legal
    ensures l.legal
    decreases |h|
  {
    if h != [] { LegalGrows(Observe(l, h[0]), h[1..]); }
  }

  /** The parts of the invariant an operation on a slot can touch. */
  ghost predicate Steady(tb: Table, pump: seq<nat>, t: nat) {
    TableOk(tb) && EntriesOk(tb, t) && PumpOk(tb, pump)
  }

  lemma {:induction false} PlaceSteady(tb: Table, pump: seq<nat>, s: nat, o: Outcome, t: nat)
    requires Steady(tb, pump, t) && Occupied(tb, s)
    requires PumpKept(tb.slots[s].value, o.entry, Schedulings(o.actions))
    requires o.entry.Some? ==> o.entry.value.id == tb.slots[s].value.id
                               && Sealed(o.entry.value, Tally(LedgerOf(tb, s, t), o.actions))
    ensures Steady(Place(tb, s, o), pump + if Schedulings(o.actions) > 0 then [s] else [], t)
  {
    PlaceTable(tb, s, o);
    PlaceEntries(tb, s, o, t);
    PlacePump(tb, pump, s, o);
  }

  /** An outcome an entry can have, as the entry invariant sees it. */
  ghost predicate FitsEntry(e: Entry, l: Ledger, o: Outcome, incoming: nat) {
    var l' := Tally(l, o.actions);
    && l'.legal && l.state == e.state
    && HoldsIn(o.entry, l.watch) + l'.freed == Holds(e.out, l.watch) + l.freed + incoming
    && (o.entry.Some? ==> Sealed(o.entry.value, l') && o.entry.value.id == e.id && o.entry.value.state == l'.state)
    && PumpKept(e, o.entry, l'.scheduled - l.scheduled)
  }

  ghost predicate Fits(tb: Table, s: nat, o: Outcome, incoming: nat, t: nat) {
    Sizes(tb) && Occupied(tb, s) && FitsEntry(tb.slots[s].value, LedgerOf(tb, s, t), o, incoming)
  }

  lemma {:induction false} Performs(tb: Table, s: nat, input: Input, t: nat)
    requires Sizes(tb) && EntriesOk(tb, t) && Occupied(tb, s) && Enabled(tb.slots[s].value, input) && !input.Pump?
    ensures Fits(tb, s, Perform(tb.slots[s].value, input), Brings(input, t), t)
    ensures !input.Send? ==> Schedulings(Perform(tb.slots[s].value, input).actions) == 0
  {
    WatchKept(t, tb.traces[s]);
    var _ := EntryPerforms(tb.slots[s].value, LedgerOf(tb, s, t), input);
  }

  lemma {:induction false} EntryPerforms(e: Entry, l: Ledger, input: Input) returns (o: Outcome)
    requires Sealed(e, l) && Enabled(e, input) && !input.Pump?
    ensures o == Perform(e, input) && FitsEntry(e, l, o, Brings(input, l.watch))
    ensures !input.Send? ==> Schedulings(o.actions) == 0
  {
    Unseal(e, l);
    PerformKeeps(e, l, input);
    o := Perform(e, input);
    EffectsMatch(l, o.actions);
    if o.entry.Some? { Seal(o.entry.value, Tally(l, o.actions)); }
  }

  lemma {:induction false} WatchKept(t: nat, h: seq<Action>)
    ensures Tally(Blank(t), h).watch == t
  {
    EffectsMatch(Blank(t), h);
  }

  lemma {:induction false} CarrySteady(m: Machine, s: nat, o: Outcome, incoming: nat, t: nat)
    requires Steady(m.table, m.loop.pump, t) && Fits(m.table, s, o, incoming, t)
    ensures var m' := Carry(m, s, o); Steady(m'.table, m'.loop.pump, t)
  {
    EffectsMatch(LedgerOf(m.table, s, t), o.actions);
    PlaceSteady(m.table, m.loop.pump, s, o, t);
  }

  /** The watched buffer stays accounted for, and the entry count follows the occupied slots. */
  ghost predicate Accounts(m: Machine, m': Machine, incoming: nat, t: nat) {
    && SlotHeld(m'.table.slots, t) + CountOf(m'.out.released, t)
       == SlotHeld(m.table.slots, t) + CountOf(m.out.released, t) + incoming
    && m'.table.count - Taken(m'.table.slots) == m.table.count - Taken(m.table.slots)
    && Taken(m'.table.slots) <= Taken(m.table.slots)
    && m'.mail == m.mail && m'.out.issued == m.out.issued && m'.out.exits == m.out.exits
  }

  /** Buffers are accounted for; what Fits says without the pump flag. */
  ghost predicate Settles(tb: Table, s: nat, o: Outcome, incoming: nat, t: nat) {
    && Sizes(tb) && Occupied(tb, s)
    && HoldsIn(o.entry, t) + CountOf(ReleasedIn(o.actions), t) == HoldsIn(tb.slots[s], t) + incoming
  }

  lemma {:induction false} FitsSettles(tb: Table, s: nat, o: Outcome, incoming: nat, t: nat)
    requires Fits(tb, s, o, incoming, t)
    ensures Settles(tb, s, o, incoming, t)
  {
    WatchKept(t, tb.traces[s]);
    EffectsMatch(LedgerOf(tb, s, t), o.actions);
  }

  lemma {:induction false} CarryAccounts(m: Machine, s: nat, o: Outcome, incoming: nat, t: nat)
    requires Settles(m.table, s, o, incoming, t)
    ensures Accounts(m, Carry(m, s, o), incoming, t)
  {
    HeldUpdate(m.table.slots, s, o.entry, t);
    TakenUpdate(m.table.slots, s, o.entry);
    CountConcat(m.out.released, ReleasedIn(o.actions), t);
  }

  lemma {:induction false} CarryClosing(m: Machine, s: nat, o: Outcome, incoming: nat, t: nat)
    requires Sizes(m.table) && EntriesOk(m.table, t) && Fits(m.table, s, o, incoming, t) && AllClosing(m.table)
    ensures AllClosing(Carry(m, s, o).table)
  {
    ClosingStays(LedgerOf(m.table, s, t), o.actions);
  }

  lemma {:induction false} CarrySound(m: Machine, s: nat, o: Outcome, incoming: nat, t: nat)
    requires Sound(m, t) && Fits(m.table, s, o, incoming, t)
    requires Resting(m.loop.phase) ==> Schedulings(o.actions) == 0
    ensures Sound(Carry(m, s, o), t) && Accounts(m, Carry(m, s, o), incoming, t)
  {
    CarrySteady(m, s, o, incoming, t);
    FitsSettles(m.table, s, o, incoming, t);
    CarryAccounts(m, s, o, incoming, t);
    if AllClosing(m.table) { CarryClosing(m, s, o, incoming, t); }
    if m.loop.exiting { TakenZero(m.table.slots); }
  }

  // ---------- API calls ----------

  lemma {:induction false} ReserveTable(tb: Table, owner: nat, memory: bool)
    requires TableOk(tb)
    ensures TableOk(Reserve(tb, owner, memory).1)
  {
    var (slot, tb') := Reserve(tb, owner, memory);
    if slot.Some? { GenerationAdvances(tb.reserved[slot.value]); }
  }

  lemma {:induction false} ReserveShape(tb: Table, owner: nat, memory: bool)
    requires Sizes(tb)
    ensures var (slot, tb') := Reserve(tb, owner, memory);
            if slot.None? then tb' == tb.(cursor := tb'.cursor)
            else
              var e := tb'.slots[slot.value].value;
              && e == Fresh(e.id, owner) && tb'.slots == tb.slots[slot.value := Some(e)]
              && tb'.traces == tb.traces[slot.value := []]
  {
  }

  lemma {:induction false} ReserveEntries(tb: Table, owner: nat, memory: bool, t: nat)
    requires Sizes(tb) && EntriesOk(tb, t)
    ensures EntriesOk(Reserve(tb, owner, memory).1, t)
  {
    ReserveShape(tb, owner, memory);
    var r := Reserve(tb, owner, memory);
    if r.0.Some? { OccupiedNow(tb, r.1, r.0.value, r.1.slots[r.0.value].value, owner, t); }
  }

  lemma {:induction false} OccupiedNow(tb: Table, tb': Table, s: nat, e: Entry, owner: nat, t: nat)
    requires Sizes(tb) && Sizes(tb') && EntriesOk(tb, t) && s < |tb.slots|
    requires e == Fresh(e.id, owner) && tb'.slots == tb.slots[s := Some(e)] && tb'.traces == tb.traces[s := []]
    ensures EntriesOk(tb', t)
  {
    FreshSlot(e.id, owner, t);
    NewOccupant(tb, tb', s, e, t);
  }

  lemma {:induction false} FreshSlot(id: int, owner: nat, t: nat)
    ensures Sealed(Fresh(id, owner), Tally(Blank(t), []))
  {
    FreshOk(id, owner, t);
    Seal(Fresh(id, owner), Blank(t));
  }

  lemma {:induction false} NewOccupant(tb: Table, tb': Table, s: nat, e: Entry, t: nat)
    requires Sizes(tb) && Sizes(tb') && EntriesOk(tb, t) && s < |tb.slots|
    requires tb'.slots == tb.slots[s := Some(e)] && tb'.traces == tb.traces[s := []] && Sealed(e, Tally(Blank(t), []))
    ensures EntriesOk(tb', t)
  {
    forall i | 0 <= i < |tb'.slots| && tb'.slots[i].Some? ensures Sealed(tb'.slots[i].value, LedgerOf(tb', i, t)) {
      if i != s { assert tb'.slots[i] == tb.slots[i] && tb'.traces[i] == tb.traces[i]; }
    }
  }

  lemma {:induction false} ReservePump(tb: Table, owner: nat, memory: bool, pump: seq<nat>)
    requires Sizes(tb) && PumpOk(tb, pump)
    ensures PumpOk(Reserve(tb, owner, memory).1, pump)
  {
    var (slot, tb') := Reserve(tb, owner, memory);
    forall i | 0 <= i < |pump| ensures Pending(tb', pump[i]) { assert Pending(tb, pump[i]); }
    forall i | 0 <= i < |tb'.slots| && Pending(tb', i) ensures i in pump { assert Pending(tb, i); }
  }

  lemma {:induction false} ReserveSteady(tb: Table, owner: nat, memory: bool, pump: seq<nat>, t: nat)
    requires Steady(tb, pump, t)
    ensures Steady(Reserve(tb, owner, memory).1, pump, t)
  {
    ReserveTable(tb, owner, memory);
    ReserveEntries(tb, owner, memory, t);
    ReservePump(tb, owner, memory, pump);
  }

  /** What a reservation does to the counts. */
  ghost predicate CountsOne(tb: Table, tb': Table, s: nat, t: nat) {
    && s < |tb.slots| && tb.slots[s].None? && |tb'.slots| == |tb.slots|
    && SlotHeld(tb'.slots, t) == SlotHeld(tb.slots, t)
    && Taken(tb'.slots) == Taken(tb.slots) + 1 && tb'.count == tb.count + 1
    && tb'.slots[s].Some? && tb'.slots[s := None] == tb.slots
  }

  lemma {:induction false} ReserveCounts(tb: Table, owner: nat, memory: bool, t: nat)
    requires Sizes(tb) && Reserve(tb, owner, memory).0.Some?
    ensures var (slot, tb') := Reserve(tb, owner, memory); CountsOne(tb, tb', slot.value, t)
  {
    ReserveShape(tb, owner, memory);
    var (slot, tb') := Reserve(tb, owner, memory);
    var e := tb'.slots[slot.value];
    HeldUpdate(tb.slots, slot.value, e, t);
    TakenUpdate(tb.slots, slot.value, e);
    FreshEmpty(e.value.id, owner, t);
  }

  /** A table that differs from another only in the bookkeeping of free slots. */
  lemma {:induction false} SameOccupants(tb: Table, tb': Table, pump: seq<nat>, t: nat)
    requires Steady(tb, pump, t) && TableOk(tb') && tb'.slots == tb.slots
    requires forall i :: 0 <= i < |tb.slots| && tb.slots[i].Some? ==> tb'.traces[i] == tb.traces[i]
    ensures Steady(tb', pump, t)
  {
    assert EntriesOk(tb', t) by {
      forall i | 0 <= i < |tb'.slots| && tb'.slots[i].Some? ensures Sealed(tb'.slots[i].value, LedgerOf(tb', i, t)) {
        assert LedgerOf(tb', i, t) == LedgerOf(tb, i, t);
      }
    }
    assert PumpOk(tb', pump) by {
      forall i | 0 <= i < |pump| ensures Pending(tb', pump[i]) { assert Pending(tb, pump[i]); }
      forall i | 0 <= i < |tb'.slots| && Pending(tb', i) ensures i in pump { assert Pending(tb, i); }
    }
  }

  /** The bookkeeping of a table after a reservation, with the slot given back. */
  lemma {:induction false} DiscardSteady(tb: Table, tb1: Table, s: nat, pump: seq<nat>, t: nat)
    requires Steady(tb, pump, t) && TableOk(tb1) && CountsOne(tb, tb1, s, t)
    requires forall i :: 0 <= i < |tb.slots| && i != s ==> tb1.traces[i] == tb.traces[i]
    ensures Steady(tb1.(slots := tb.slots, count := tb.count), pump, t)
  {
    var tb' := tb1.(slots := tb.slots, count := tb.count);
    assert TableOk(tb') by {
      forall i | 0 <= i < |tb'.slots| && tb'.slots[i].Some?
        ensures tb'.reserved[i] > 0 && tb'.slots[i].value.id == IdMake(tb'.bits, i, tb'.generations[i])
      {
        assert i != s && tb1.slots[i] == tb1.slots[s := None][i];
      }
    }
    SameOccupants(tb, tb', pump, t);
  }

  /** A slot given back right away leaves only a higher generation behind; after an exit, it also makes the
      EXIT event ready again. */
  lemma {:induction false} DiscardSound(m: Machine, tb: Table, s: nat, t: nat)
    requires Sound(m, t) && Serving(m.loop) && TableOk(tb) && CountsOne(m.table, tb, s, t)
    requires forall i :: 0 <= i < |tb.slots| && i != s ==> tb.traces[i] == m.table.traces[i]
    ensures var m' := Discard(m.(table := tb), s);
            && Sound(m', t) && m'.table.slots == m.table.slots && m'.mail == m.mail && m'.out == m.out
            && (m'.loop.exitReady <==> m.loop.exitReady || (m.loop.exiting && Taken(m.table.slots) == 0))
  {
    DiscardSteady(m.table, tb, s, m.loop.pump, t);
    var m' := Discard(m.(table := tb), s);
    assert m'.table == tb.(slots := m.table.slots, count := m.table.count);
  }

  lemma {:induction false} PushMail(q: Mail, c: Command, phase: Phase)
    requires MailOk(q, phase) && Sendworthy(c)
    ensures MailOk(Push(q, c).0, phase)
  {
  }

  lemma {:induction false} StopMail(q: Mail, phase: Phase)
    requires MailOk(q, phase)
    ensures MailOk(Stop(q).0, phase)
  {
  }

  lemma {:induction false} BuffersAppend(commands: seq<Command>, c: Command, t: nat)
    ensures CountOf(Buffers(commands + [c]), t) == CountOf(Buffers(commands), t) + CountOf(Buffers([c]), t)
  {
    if commands == [] {
      assert commands + [c] == [c];
    } else {
      BuffersAppend(commands[1..], c, t);
      assert (commands + [c])[1..] == commands[1..] + [c];
      CountConcat(Destroyed(commands[0]), Buffers(commands[1..]), t);
      CountConcat(Destroyed(commands[0]), Buffers(commands[1..] + [c]), t);
    }
  }

  /** How often the destruction of one command releases a token. */
  function Carries(c: Command, t: nat): (n: nat) { CountOf(Destroyed(c), t) }

  lemma {:induction false} BuffersOne(c: Command, t: nat)
    ensures CountOf(Buffers([c]), t) == Carries(c, t)
  {
    assert [c][1..] == [];
    assert Buffers([c]) == Destroyed(c) + [];
  }

  lemma {:induction false} BuffersHead(commands: seq<Command>, t: nat)
    requires commands != []
    ensures CountOf(Buffers(commands), t) == Carries(commands[0], t) + CountOf(Buffers(commands[1..]), t)
  {
    CountConcat(Destroyed(commands[0]), Buffers(commands[1..]), t);
  }

  lemma {:induction false} ReserveTraces(tb: Table, owner: nat, memory: bool)
    requires Sizes(tb)
    ensures var r := Reserve(tb, owner, memory);
            if r.0.None? then r.1 == tb.(cursor := r.1.cursor)
            else forall i :: 0 <= i < |tb.slots| && i != r.0.value ==> r.1.traces[i] == tb.traces[i]
  {
    ReserveShape(tb, owner, memory);
  }

  lemma {:induction false} OpenKeeps(m: Machine, order: Order, owner: nat, a: bool, b: bool, t: nat)
    requires Inv(m, t) && Serving(m.loop) && IsOpen(order)
    ensures Inv(ApiOpen(m, order, owner, a, b).0, t)
  {
    var r := Reserve(m.table, owner, a);
    ReserveSteady(m.table, owner, a, m.loop.pump, t);
    ReserveTraces(m.table, owner, a);
    if r.0.None? {
      CursorMoved(m, r.1, t);
    } else {
      ReserveCounts(m.table, owner, a, t);
      OpenWithKeeps(m, r.0.value, r.1, order, b, t);
    }
  }

  lemma {:induction false} CursorMoved(m: Machine, tb: Table, t: nat)
    requires Inv(m, t) && Steady(tb, m.loop.pump, t) && tb == m.table.(cursor := tb.cursor)
    ensures Inv(m.(table := tb), t)
  {
  }

  lemma {:induction false} OpenWithKeeps(m: Machine, s: nat, tb: Table, order: Order, memory: bool, t: nat)
    requires Inv(m, t) && Serving(m.loop) && IsOpen(order) && Steady(tb, m.loop.pump, t) && CountsOne(m.table, tb, s, t)
    requires forall i :: 0 <= i < |tb.slots| && i != s ==> tb.traces[i] == m.table.traces[i]
    ensures Inv(OpenWith(m, s, tb, order, memory).0, t)
  {
    if !memory || !m.mail.accepting {
      DiscardSound(m, tb, s, t);
    } else {
      ReservedKeeps(m, tb, s, t);
      PushKeeps(m.(table := tb), Command(tb.slots[s].value.id, order), t);
    }
  }

  lemma {:induction false} ReservedKeeps(m: Machine, tb: Table, s: nat, t: nat)
    requires Inv(m, t) && Serving(m.loop) && m.mail.accepting && Steady(tb, m.loop.pump, t) && CountsOne(m.table, tb, s, t)
    ensures Inv(m.(table := tb), t)
  {
  }

  /** A queued command brings its buffer into the account. */
  lemma {:induction false} PushKeeps(m: Machine, c: Command, t: nat)
    requires Inv(m, t) && Sendworthy(c) && Carries(c, t) == 0
    ensures Inv(m.(mail := Push(m.mail, c).0), t)
  {
    PushMail(m.mail, c, m.loop.phase);
    BuffersAppend(m.mail.commands, c, t);
    BuffersOne(c, t);
  }

  lemma {:induction false} PlainKeeps(m: Machine, id: int, order: Order, memory: bool, t: nat)
    requires Inv(m, t) && IsPlain(order) && Serving(m.loop)
    ensures Inv(ApiPlain(m, id, order, memory).0, t)
  {
    PushKeeps(m, Command(id, order), t);
  }

  lemma {:induction false} SendCallKeeps(m: Machine, id: int, p: Priority, address: Option<seq<byte>>, size: nat,
                                         ownership: Ownership, a: bool, b: bool, t: nat)
    requires Inv(m, t) && Serving(m.loop)
    ensures Inv(ApiSend(m, id, p, address, size, ownership, a, b).0, t)
  {
    var r := ApiSend(m, id, p, address, size, ownership, a, b);
    SendForms(m, id, p, address, size, ownership, a, b);
    if r.1 == Ok {
      IssueKeeps(m, SendCommand(id, p, address, Buffer(m.out.issued, size)), t);
    } else {
      CopyKeeps(m, t);
    }
  }

  /** A copy of the caller's buffer was made and freed again. */
  function CopyFreed(m: Machine): (m': Machine) {
    m.(out := m.out.(issued := m.out.issued + 1, released := m.out.released + [m.out.issued]))
  }

  /** The three ways a send call can end. */
  lemma {:induction false} SendForms(m: Machine, id: int, p: Priority, address: Option<seq<byte>>, size: nat,
                                     ownership: Ownership, a: bool, b: bool)
    ensures var r := ApiSend(m, id, p, address, size, ownership, a, b);
            var c := SendCommand(id, p, address, Buffer(m.out.issued, size));
            if r.1 == Ok then
              m.mail.accepting && Sendworthy(c) && r.0 == m.(mail := Push(m.mail, c).0, out := m.out.(issued := m.out.issued + 1))
            else r.0 == m || (ownership.Borrowed? && r.0 == CopyFreed(m))
  {
    assert m.out.released + [] == m.out.released;
  }

  lemma {:induction false} IssueKeeps(m: Machine, c: Command, t: nat)
    requires Inv(m, t) && Sendworthy(c) && CarriesBuffer(c.order) && c.order.buffer.token == m.out.issued && m.mail.accepting
    ensures Inv(m.(mail := Push(m.mail, c).0, out := m.out.(issued := m.out.issued + 1)), t)
  {
    PushMail(m.mail, c, m.loop.phase);
    BuffersAppend(m.mail.commands, c, t);
    BuffersOne(c, t);
    CountOne(m.out.issued, t);
  }

  /** A copy made and freed again. */
  lemma {:induction false} CopyKeeps(m: Machine, t: nat)
    requires Inv(m, t)
    ensures Inv(CopyFreed(m), t)
  {
    CountConcat(m.out.released, [m.out.issued], t);
    CountOne(m.out.issued, t);
  }

  lemma {:induction false} ExitCallKeeps(m: Machine, memory: bool, t: nat)
    requires Inv(m, t) && Serving(m.loop)
    ensures Inv(ApiExit(m, memory).0, t)
  {
    var c := Command(0, Quit);
    StopMail(m.mail, m.loop.phase);
    BuffersAppend(m.mail.commands, c, t);
    BuffersOne(c, t);
  }

  // ---------- the loop thread ----------

  /** What process_exit has achieved after the first k slots. */
  ghost predicate ExitedTo(m: Machine, k: nat, t: nat) {
    && Steady(m.table, m.loop.pump, t) && k <= |m.table.slots|
    && (forall s :: 0 <= s < k && m.table.slots[s].Some? ==> m.table.slots[s].value.state.Closing?)
    && m.table.count == Taken(m.table.slots) && m.loop.exiting
    && (m.loop.exitReady ==> Taken(m.table.slots) == 0)
  }

  lemma {:induction false} ExitStep(m: Machine, k: nat, o: Outcome, t: nat)
    requires ExitedTo(m, k, t) && Fits(m.table, k, o, 0, t) && (o.entry.Some? ==> o.entry.value.state.Closing?)
    ensures ExitedTo(Carry(m, k, o), k + 1, t) && Accounts(m, Carry(m, k, o), 0, t) && SameLoop(m.loop, Carry(m, k, o).loop)
  {
    var m' := Carry(m, k, o);
    CarrySteady(m, k, o, 0, t);
    FitsSettles(m.table, k, o, 0, t);
    CarryAccounts(m, k, o, 0, t);
    TakenZero(m.table.slots);
    forall s | 0 <= s < k + 1 && m'.table.slots[s].Some? ensures m'.table.slots[s].value.state.Closing? {
      if s < k { assert m'.table.slots[s] == m.table.slots[s]; }
    }
  }

  lemma {:induction false} ExitShuts(e: Entry, l: Ledger)
    requires EntryOk(e, l)
    ensures var o := ProcessExit(e); o.entry.Some? ==> o.entry.value.state.Closing?
  {
  }

  /** One slot of process_exit. */
  function ExitSlot(m: Machine, k: nat): (m': Machine)
    requires Sizes(m.table) && k < |m.table.slots|
    ensures Sizes(m'.table) && |m'.table.slots| == |m.table.slots|
  {
    if m.table.slots[k].Some? then Deliver(m, k, ExitNow) else m
  }

  ghost predicate SameLoop(lp: Loop, lp': Loop) {
    lp' == lp.(pump := lp'.pump, exitReady := lp'.exitReady)
  }

  ghost predicate ExitedOne(m: Machine, m': Machine, k: nat, t: nat) {
    ExitedTo(m', k + 1, t) && Accounts(m, m', 0, t) && SameLoop(m.loop, m'.loop)
  }

  lemma {:induction false} ExitOccupied(m: Machine, k: nat, t: nat) returns (m1: Machine)
    requires ExitedTo(m, k, t) && Occupied(m.table, k)
    ensures m1 == ExitSlot(m, k) && ExitedOne(m, m1, k, t)
  {
    var e := m.table.slots[k].value;
    m1 := Carry(m, k, ProcessExit(e));
    Performs(m.table, k, ExitNow, t);
    Unseal(e, LedgerOf(m.table, k, t));
    ExitShuts(e, LedgerOf(m.table, k, t));
    ExitStep(m, k, ProcessExit(e), t);
  }

  lemma {:induction false} ExitOne(m: Machine, k: nat, t: nat) returns (m1: Machine)
    requires ExitedTo(m, k, t) && k < |m.table.slots|
    ensures m1 == ExitSlot(m, k) && ExitedOne(m, m1, k, t)
  {
    if m.table.slots[k].Some? {
      m1 := ExitOccupied(m, k, t);
    } else {
      m1 := m;
      ExitEmpty(m, k, t);
    }
  }

  lemma {:induction false} ExitEmpty(m: Machine, k: nat, t: nat)
    requires ExitedTo(m, k, t) && k < |m.table.slots| && m.table.slots[k].None?
    ensures ExitedOne(m, m, k, t)
  {
  }

  lemma {:induction false} AccountsTwice(m: Machine, m1: Machine, m2: Machine, t: nat)
    requires Accounts(m, m1, 0, t) && Accounts(m1, m2, 0, t) && SameLoop(m.loop, m1.loop) && SameLoop(m1.loop, m2.loop)
    ensures Accounts(m, m2, 0, t) && SameLoop(m.loop, m2.loop)
  {
  }

  lemma {:induction false} ExitFromKeeps(m: Machine, k: nat, t: nat)
    requires ExitedTo(m, k, t)
    ensures var m' := ExitFrom(m, k);
            ExitedTo(m', |m'.table.slots|, t) && Accounts(m, m', 0, t) && SameLoop(m.loop, m'.loop)
    decreases |m.table.slots| - k
  {
    if k < |m.table.slots| {
      var m1 := ExitOne(m, k, t);
      ExitFromKeeps(m1, k + 1, t);
      ExitFromUnrolls(m, k);
      AccountsTwice(m, m1, ExitFrom(m1, k + 1), t);
    }
  }

  lemma {:induction false} ExitFromUnrolls(m: Machine, k: nat)
    requires Sizes(m.table) && k < |m.table.slots|
    ensures ExitFrom(m, k) == ExitFrom(ExitSlot(m, k), k + 1)
  {
  }

  lemma {:induction false} QuitKeeps(m: Machine, t: nat)
    requires Inv(m, t) && m.loop.phase.Draining? && m.mail.commands != [] && m.mail.commands[0].order.Quit?
    ensures Inv(ProcessQuit(m.(mail := m.mail.(commands := m.mail.commands[1..]))), t)
  {
    var q := m.mail.(commands := m.mail.commands[1..]);
    PopMail(m.mail, m.loop.phase);
    LastIsQuit(m.mail, m.loop.phase);
    BuffersHead(m.mail.commands, t);
    var m0 := m.(mail := q, loop := m.loop.(exiting := true));
    ExitFromKeeps(m0, 0, t);
    QuitDone(m0, ExitFrom(m0, 0), t);
  }

  lemma {:induction false} QuitDone(m: Machine, m': Machine, t: nat)
    requires ExitedTo(m', |m'.table.slots|, t) && Accounts(m, m', 0, t) && SameLoop(m.loop, m'.loop)
    requires MailOk(m.mail, m.loop.phase) && m.mail.commands == [] && !m.mail.accepting && m.loop.phase.Draining? && m.loop.exiting
    requires m.out.exits == 0 && Conserved(m, t)
    ensures Inv(m'.(loop := ExitCheck(m'.loop.(asyncOpen := false), m'.table.count)), t)
  {
  }

  lemma {:induction false} PopMail(q: Mail, phase: Phase)
    requires MailOk(q, phase) && q.commands != []
    ensures MailOk(q.(commands := q.commands[1..]), phase)
  {
  }

  /** EXIT is the last command: nothing is queued behind it. */
  lemma {:induction false} LastIsQuit(q: Mail, phase: Phase)
    requires MailOk(q, phase) && q.commands != [] && q.commands[0].order.Quit?
    ensures |q.commands| == 1 && !q.accepting
  {
    var i := |q.taken| - |q.commands|;
    assert q.taken[i] == q.commands[0];
  }

  lemma {:induction false} PopSound(m: Machine, t: nat)
    requires Sound(m, t) && m.mail.commands != []
    ensures Sound(m.(mail := m.mail.(commands := m.mail.commands[1..])), t)
  {
    PopMail(m.mail, m.loop.phase);
  }

  /** The watched buffer is in place but for a command that has just been taken off the queue. */
  ghost predicate Carrying(m: Machine, c: Command, t: nat) {
    SlotHeld(m.table.slots, t) + CountOf(Buffers(m.mail.commands), t) + CountOf(m.out.released, t) + Carries(c, t)
    == OneIf(t < m.out.issued)
  }

  lemma {:induction false} ConsumeKeeps(m: Machine, env: Env, t: nat)
    requires Inv(m, t) && m.loop.phase.Draining? && m.mail.commands != []
    ensures Inv(Consume(m, env), t)
  {
    var c := m.mail.commands[0];
    if c.order.Quit? {
      QuitKeeps(m, t);
    } else {
      PopSound(m, t);
      BuffersHead(m.mail.commands, t);
      ServeKeeps(m.(mail := m.mail.(commands := m.mail.commands[1..])), c, env, t);
    }
  }

  lemma {:induction false} ServeKeeps(m: Machine, c: Command, env: Env, t: nat)
    requires Sound(m, t) && m.loop.phase.Draining? && Carrying(m, c, t) && Sendworthy(c) && !c.order.Quit?
    ensures match FindEntry(m.table, c.id)
            case None => Inv(m.(out := Missing(m.out, c)), t)
            case Some(s) => Inv(Deliver(m, s, ToInput(c.order, env)), t)
  {
    match FindEntry(m.table, c.id) {
      case None => MissingKeeps(m, c, t);
      case Some(s) => var _ := CommandKeeps(m, c, s, env, t);
    }
  }

  lemma {:induction false} InputBrings(c: Command, env: Env, t: nat)
    requires !c.order.Quit? && Sendworthy(c)
    ensures Brings(ToInput(c.order, env), t) == Carries(c, t)
  {
    if CarriesBuffer(c.order) { CountOne(c.order.buffer.token, t); }
  }

  lemma {:induction false} CommandKeeps(m: Machine, c: Command, s: nat, env: Env, t: nat) returns (m': Machine)
    requires Sound(m, t) && m.loop.phase.Draining? && Carrying(m, c, t) && Sendworthy(c) && !c.order.Quit?
    requires Occupied(m.table, s)
    ensures m' == Deliver(m, s, ToInput(c.order, env)) && Inv(m', t)
  {
    var o := CommandFits(m.table, c, s, env, t);
    m' := Carry(m, s, o);
    CarryCommand(m, s, o, c, t);
  }

  lemma {:induction false} CommandFits(tb: Table, c: Command, s: nat, env: Env, t: nat) returns (o: Outcome)
    requires Sizes(tb) && EntriesOk(tb, t) && Occupied(tb, s) && Sendworthy(c) && !c.order.Quit?
    ensures o == Perform(tb.slots[s].value, ToInput(c.order, env)) && Fits(tb, s, o, Carries(c, t), t)
  {
    o := Perform(tb.slots[s].value, ToInput(c.order, env));
    Performs(tb, s, ToInput(c.order, env), t);
    InputBrings(c, env, t);
  }

  lemma {:induction false} CarryCommand(m: Machine, s: nat, o: Outcome, c: Command, t: nat)
    requires Sound(m, t) && m.loop.phase.Draining? && Carrying(m, c, t) && Fits(m.table, s, o, Carries(c, t), t)
    ensures Inv(Carry(m, s, o), t)
  {
    CarrySound(m, s, o, Carries(c, t), t);
  }

  lemma {:induction false} MissingKeeps(m: Machine, c: Command, t: nat)
    requires Sound(m, t) && Carrying(m, c, t)
    ensures Inv(m.(out := Missing(m.out, c)), t)
  {
    MissingReleases(m.out, c, t);
    NewOutput(m, Missing(m.out, c), t);
  }

  lemma {:induction false} MissingReleases(out: Output, c: Command, t: nat)
    ensures var out' := Missing(out, c);
            CountOf(out'.released, t) == CountOf(out.released, t) + Carries(c, t) && out'.issued == out.issued && out'.exits == out.exits
  {
    CountConcat(out.released, Destroyed(c), t);
  }

  lemma {:induction false} NewOutput(m: Machine, out: Output, t: nat)
    requires Sound(m, t) && out.exits == m.out.exits
    ensures Sound(m.(out := out), t)
  {
  }

  lemma {:induction false} PumpSteady(m: Machine, env: Env, t: nat)
    requires Steady(m.table, m.loop.pump, t) && PumpReady(m) && m.loop.pump != []
    ensures var s := m.loop.pump[0];
            var o := Perform(m.table.slots[s].value, Pump(env));
            && Steady(Place(m.table, s, o), m.loop.pump[1..], t) && Schedulings(o.actions) == 0 && o.entry.Some?
            && Settles(m.table, s, o, 0, t)
  {
    var s := m.loop.pump[0];
    var e := m.table.slots[s].value;
    var l := LedgerOf(m.table, s, t);
    var o := Perform(e, Pump(env));
    WatchKept(t, m.table.traces[s]);
    Unseal(e, l);
    PumpTurnKeeps(e, l, env);
    EffectsMatch(l, o.actions);
    Seal(o.entry.value, Tally(l, o.actions));
    TurnSteady(m.table, m.loop.pump, o, t);
  }

  lemma {:induction false} TurnSteady(tb: Table, pump: seq<nat>, o: Outcome, t: nat)
    requires Steady(tb, pump, t) && pump != [] && Pending(tb, pump[0])
    requires o.entry.Some? && !o.entry.value.pumpPending && o.entry.value.id == tb.slots[pump[0]].value.id
    requires Sealed(o.entry.value, Tally(LedgerOf(tb, pump[0], t), o.actions))
    ensures Steady(Place(tb, pump[0], o), pump[1..], t)
  {
    PlaceTable(tb, pump[0], o);
    PlaceEntries(tb, pump[0], o, t);
    PumpPopped(tb, pump, o);
  }

  lemma {:induction false} TakePumpKeeps(m: Machine, env: Env, t: nat)
    requires Inv(m, t) && m.loop.phase.Pumping? && PumpReady(m) && m.loop.pump != []
    ensures Inv(PumpNext(m, env), t)
  {
    var s := m.loop.pump[0];
    var o := Perform(m.table.slots[s].value, Pump(env));
    PumpSteady(m, env, t);
    if m.loop.exiting { PumpClosing(m.table.slots[s].value, env); }
    CarryTurn(m, o, t);
  }

  lemma {:induction false} CarryTurn(m: Machine, o: Outcome, t: nat)
    requires Inv(m, t) && m.loop.phase.Pumping? && PumpReady(m) && m.loop.pump != []
    requires Steady(Place(m.table, m.loop.pump[0], o), m.loop.pump[1..], t) && Schedulings(o.actions) == 0
    requires o.entry.Some? && Settles(m.table, m.loop.pump[0], o, 0, t)
    requires m.loop.exiting ==> o.entry.value.state.Closing?
    ensures Inv(Carry(m.(loop := m.loop.(pump := m.loop.pump[1..])), m.loop.pump[0], o), t)
  {
    var m1 := m.(loop := m.loop.(pump := m.loop.pump[1..]));
    CarryAccounts(m1, m.loop.pump[0], o, 0, t);
    TurnLeaves(m1, m.loop.pump[0], o);
    Turns(m, m1, Carry(m1, m.loop.pump[0], o), t);
  }

  lemma {:induction false} TurnLeaves(m: Machine, s: nat, o: Outcome)
    requires Sizes(m.table) && s < |m.table.slots| && Schedulings(o.actions) == 0 && o.entry.Some?
    ensures var m' := Carry(m, s, o);
            && m'.table == Place(m.table, s, o) && m'.loop == m.loop && m'.mail == m.mail && m'.table.count == m.table.count
            && (AllClosing(m.table) && o.entry.value.state.Closing? ==> AllClosing(m'.table))
  {
    assert m.loop.pump + [] == m.loop.pump;
  }

  /** A pump turn changes a table, the pump list and the output. */
  lemma {:induction false} Turns(m: Machine, m1: Machine, m': Machine, t: nat)
    requires Inv(m, t) && m.loop.phase.Pumping? && m.loop.pump != [] && m1 == m.(loop := m.loop.(pump := m.loop.pump[1..]))
    requires Steady(m'.table, m'.loop.pump, t) && m'.loop == m1.loop && m'.mail == m.mail && Accounts(m1, m', 0, t)
    requires m'.table.count == m.table.count && (m.loop.exiting ==> AllClosing(m'.table))
    ensures Inv(m', t)
  {
  }

  lemma {:induction false} PumpClosing(e: Entry, env: Env)
    requires e.state.Closing?
    ensures PumpTurn(e, env).entry == Some(e.(pumpPending := false))
  {
  }

  lemma {:induction false} PumpPopped(tb: Table, pump: seq<nat>, o: Outcome)
    requires Sizes(tb) && PumpOk(tb, pump) && pump != []
    requires o.entry.Some? && !o.entry.value.pumpPending
    ensures Pending(tb, pump[0]) && PumpOk(Place(tb, pump[0], o), pump[1..])
  {
    var s := pump[0];
    assert Pending(tb, pump[0]);
    var tb' := Place(tb, s, o);
    forall i | 0 <= i < |pump[1..]| ensures Pending(tb', pump[1..][i]) { assert Pending(tb, pump[i + 1]); }
    forall i | 0 <= i < |tb'.slots| && Pending(tb', i) ensures i in pump[1..] {
      assert Pending(tb, i);
      var j :| 0 <= j < |pump| && pump[j] == i;
      assert pump[1..][j - 1] == i;
    }
  }

  // ---------- callbacks, poll, release ----------

  lemma {:induction false} CallbackKeeps(m: Machine, s: nat, input: Input, t: nat)
    requires Inv(m, t) && Occupied(m.table, s) && IsCallback(input) && Enabled(m.table.slots[s].value, input)
    ensures Inv(Deliver(m, s, input), t)
  {
    Performs(m.table, s, input, t);
    CarryQuiet(m, s, Perform(m.table.slots[s].value, input), t);
  }

  lemma {:induction false} CarryQuiet(m: Machine, s: nat, o: Outcome, t: nat)
    requires Inv(m, t) && Fits(m.table, s, o, 0, t) && Schedulings(o.actions) == 0
    ensures Inv(Carry(m, s, o), t)
  {
    CarrySound(m, s, o, 0, t);
  }

  lemma {:induction false} ReserveGuest(tb: Table, owner: nat, memory: bool)
    requires Sizes(tb) && Reserve(tb, owner, memory).0.Some?
    ensures var r := Reserve(tb, owner, memory);
            && r.1.slots[r.0.value].value.state.Reserved?
            && forall i :: 0 <= i < |tb.slots| && i != r.0.value ==> r.1.slots[i] == tb.slots[i]
  {
    ReserveShape(tb, owner, memory);
  }

  lemma {:induction false} AcceptKeeps(m: Machine, s: nat, env: Env, t: nat)
    requires Inv(m, t) && m.loop.phase.Idle? && Occupied(m.table, s) && m.table.slots[s].value.state.Listening?
    ensures Inv(AcceptPeer(m, s, env), t)
  {
    var owner := m.table.slots[s].value.owner;
    var r := Reserve(m.table, owner, env.memory);
    ReserveSteady(m.table, owner, env.memory, m.loop.pump, t);
    if r.0.None? {
      ReserveTraces(m.table, owner, env.memory);
      CursorMoved(m, r.1, t);
    } else {
      ReserveCounts(m.table, owner, env.memory, t);
      ReserveGuest(m.table, owner, env.memory);
      GuestKeeps(m, s, r.0.value, r.1, env, t);
    }
  }

  lemma {:induction false} GuestKeeps(m: Machine, s: nat, slot: nat, tb: Table, env: Env, t: nat)
    requires Inv(m, t) && m.loop.phase.Idle? && Occupied(m.table, s) && m.table.slots[s].value.state.Listening?
    requires Steady(tb, m.loop.pump, t) && CountsOne(m.table, tb, slot, t) && tb.slots[slot].value.state.Reserved?
    requires forall i :: 0 <= i < |m.table.slots| && i != slot ==> tb.slots[i] == m.table.slots[i]
    ensures s != slot && Occupied(tb, s) && tb.slots[s].value.state.Listening?
    ensures Inv(AcceptWith(m.(table := tb), s, slot, env), t)
  {
    NewPeer(m, slot, tb, t);
    var _ := AcceptedKeeps(m.(table := tb), s, slot, env, t);
  }

  /** A listener exists, so the runtime is not exiting and the table may grow. */
  lemma {:induction false} NewPeer(m: Machine, s: nat, tb: Table, t: nat)
    requires Inv(m, t) && Serving(m.loop) && Steady(tb, m.loop.pump, t) && CountsOne(m.table, tb, s, t)
    requires !AllClosing(m.table)
    ensures Inv(m.(table := tb), t)
  {
  }

  lemma {:induction false} AcceptedKeeps(m: Machine, s: nat, slot: nat, env: Env, t: nat) returns (m3: Machine)
    requires Inv(m, t) && m.loop.phase.Idle? && s != slot && Occupied(m.table, s) && m.table.slots[s].value.state.Listening?
    requires Occupied(m.table, slot) && m.table.slots[slot].value.state.Reserved?
    ensures m3 == AcceptWith(m, s, slot, env) && Inv(m3, t)
  {
    m3 := ArrivesKeeps(m, slot, env, t);
    if env.init == 0 && env.open == 0 { m3 := ArrivalKeeps(m3, s, m.table.slots[slot].value.id, t); }
  }

  lemma {:induction false} ArrivesKeeps(m: Machine, slot: nat, env: Env, t: nat) returns (m2: Machine)
    requires Inv(m, t) && Occupied(m.table, slot) && m.table.slots[slot].value.state.Reserved?
    ensures m2 == Deliver(m, slot, AcceptedAs(env)) && Inv(m2, t)
  {
    m2 := Carry(m, slot, Perform(m.table.slots[slot].value, AcceptedAs(env)));
    Performs(m.table, slot, AcceptedAs(env), t);
    CarryQuiet(m, slot, Perform(m.table.slots[slot].value, AcceptedAs(env)), t);
  }

  lemma {:induction false} ArrivalKeeps(m: Machine, s: nat, id: int, t: nat) returns (m': Machine)
    requires Inv(m, t) && Occupied(m.table, s) && m.table.slots[s].value.state.Listening?
    ensures m' == Deliver(m, s, PeerArrived(id)) && Inv(m', t)
  {
    m' := Carry(m, s, Perform(m.table.slots[s].value, PeerArrived(id)));
    Performs(m.table, s, PeerArrived(id), t);
    CarryQuiet(m, s, Perform(m.table.slots[s].value, PeerArrived(id)), t);
  }

  lemma {:induction false} PollKeeps(m: Machine, t: nat)
    requires Inv(m, t) && m.loop.phase.Idle? && (m.out.events != [] || m.loop.exitReady)
    ensures Inv(Poll(m).0, t)
  {
  }

  /** What the first loop of a release has achieved after k slots. */
  ghost predicate ReleasedTo(m: Machine, k: nat, t: nat) {
    && Steady(m.table, m.loop.pump, t) && k <= |m.table.slots| && m.loop.pump == []
    && (forall s :: 0 <= s < k && m.table.slots[s].Some? ==> m.table.slots[s].value.state.Closing?)
    && (m.loop.exiting ==> m.table.count == Taken(m.table.slots) && AllClosing(m.table))
  }

  /** One slot of that loop. */
  function ReleaseSlot(m: Machine, k: nat): (m': Machine)
    requires Sizes(m.table) && k < |m.table.slots|
    ensures Sizes(m'.table) && |m'.table.slots| == |m.table.slots|
  {
    if m.table.slots[k].None? then m
    else if !m.table.slots[k].value.initialized then m.(table := m.table.(slots := m.table.slots[k := None]))
    else Deliver(m, k, ExitNow)
  }

  lemma {:induction false} ReleaseFromUnrolls(m: Machine, k: nat)
    requires Sizes(m.table) && k < |m.table.slots|
    ensures ReleaseFrom(m, k) == ReleaseFrom(ReleaseSlot(m, k), k + 1)
  {
  }

  /** What a release step leaves alone. */
  ghost predicate Tidy(m: Machine, m': Machine, t: nat) {
    && SlotHeld(m'.table.slots, t) + CountOf(m'.out.released, t) == SlotHeld(m.table.slots, t) + CountOf(m.out.released, t)
    && m'.mail == m.mail && m'.out.issued == m.out.issued && m'.out.exits == m.out.exits && m'.loop == m.loop
    && (m.loop.exiting ==> Taken(m'.table.slots) == Taken(m.table.slots))
  }

  lemma {:induction false} FreeUninitialized(m: Machine, k: nat, t: nat)
    requires ReleasedTo(m, k, t) && Occupied(m.table, k) && !m.table.slots[k].value.initialized
    ensures var m' := m.(table := m.table.(slots := m.table.slots[k := None]));
            ReleasedTo(m', k + 1, t) && Tidy(m, m', t)
  {
    var m' := m.(table := m.table.(slots := m.table.slots[k := None]));
    Unseal(m.table.slots[k].value, LedgerOf(m.table, k, t));
    NothingHeld(m.table.slots[k].value, LedgerOf(m.table, k, t));
    WatchKept(t, m.table.traces[k]);
    HeldUpdate(m.table.slots, k, None, t);
    assert !m.loop.exiting;
    forall i | 0 <= i < |m'.table.slots| && m'.table.slots[i].Some?
      ensures Sealed(m'.table.slots[i].value, LedgerOf(m'.table, i, t))
    {
      assert m'.table.slots[i] == m.table.slots[i];
    }
    forall i | 0 <= i < |m'.table.slots| ensures !Pending(m'.table, i) {
      if Pending(m'.table, i) { assert Pending(m.table, i); }
    }
  }

  lemma {:induction false} CloseOnRelease(m: Machine, k: nat, o: Outcome, t: nat)
    requires ReleasedTo(m, k, t) && Fits(m.table, k, o, 0, t) && Schedulings(o.actions) == 0
    requires o.entry.Some? && o.entry.value.state.Closing?
    ensures ReleasedTo(Carry(m, k, o), k + 1, t) && Tidy(m, Carry(m, k, o), t)
  {
    var m' := Carry(m, k, o);
    CarrySteady(m, k, o, 0, t);
    FitsSettles(m.table, k, o, 0, t);
    CarryAccounts(m, k, o, 0, t);
    TakenUpdate(m.table.slots, k, o.entry);
    assert m.loop.pump + [] == m.loop.pump;
    forall s | 0 <= s < k + 1 && m'.table.slots[s].Some? ensures m'.table.slots[s].value.state.Closing? {
      if s < k { assert m'.table.slots[s] == m.table.slots[s]; }
    }
  }

  lemma {:induction false} ReleaseOne(m: Machine, k: nat, t: nat)
    requires ReleasedTo(m, k, t) && k < |m.table.slots|
    ensures ReleasedTo(ReleaseSlot(m, k), k + 1, t) && Tidy(m, ReleaseSlot(m, k), t)
  {
    if m.table.slots[k].Some? {
      var e := m.table.slots[k].value;
      if !e.initialized {
        FreeUninitialized(m, k, t);
      } else {
        Performs(m.table, k, ExitNow, t);
        Unseal(e, LedgerOf(m.table, k, t));
        ExitShuts(e, LedgerOf(m.table, k, t));
        CloseOnRelease(m, k, Perform(e, ExitNow), t);
      }
    }
  }

  lemma {:induction false} ReleaseFromKeeps(m: Machine, k: nat, t: nat)
    requires ReleasedTo(m, k, t)
    ensures var m' := ReleaseFrom(m, k); ReleasedTo(m', |m'.table.slots|, t) && Tidy(m, m', t)
    decreases |m.table.slots| - k
  {
    if k < |m.table.slots| {
      ReleaseOne(m, k, t);
      ReleaseFromKeeps(ReleaseSlot(m, k), k + 1, t);
      ReleaseFromUnrolls(m, k);
    }
  }

  lemma {:induction false} ReleaseBeginKeeps(m: Machine, t: nat)
    requires Inv(m, t) && m.loop.phase.Idle?
    ensures Inv(ReleaseBegin(m), t)
  {
    ReleaseFromKeeps(m, 0, t);
    ReleaseReady(m, ReleaseFrom(m, 0), t);
  }

  lemma {:induction false} ReleaseReady(m: Machine, m': Machine, t: nat)
    requires Inv(m, t) && m.loop.phase.Idle? && ReleasedTo(m', |m'.table.slots|, t) && Tidy(m, m', t)
    ensures Inv(m'.(loop := m'.loop.(phase := Releasing, asyncOpen := false)), t)
  {
  }

  lemma {:induction false} ReleaseEndKeeps(m: Machine, t: nat)
    requires Inv(m, t) && m.loop.phase.Releasing?
    ensures Inv(ReleaseEnd(m), t)
  {
    CountConcat(m.out.released, Buffers(m.mail.commands), t);
    assert Buffers([]) == [];
  }

  // ---------- every step ----------

  lemma {:induction false} ApiKeeps(m: Machine, step: Step, t: nat)
    requires Inv(m, t) && CanStep(m, step)
    requires step.CallOpen? || step.CallPlain? || step.CallSend? || step.CallExit?
    ensures Inv(Next(m, step), t)
  {
    match step
    case CallOpen(order, owner, a, b) => OpenKeeps(m, order, owner, a, b, t);
    case CallPlain(id, order, memory) => PlainKeeps(m, id, order, memory, t);
    case CallSend(id, p, address, size, ownership, a, b) => SendCallKeeps(m, id, p, address, size, ownership, a, b, t);
    case CallExit(memory) => ExitCallKeeps(m, memory, t);
  }

  lemma {:induction false} PhaseKeeps(m: Machine, phase: Phase, t: nat)
    requires Inv(m, t) && Serving(m.loop) && Serving(m.loop.(phase := phase)) && (Resting(phase) ==> m.loop.pump == [])
    ensures Inv(m.(loop := m.loop.(phase := phase)), t)
  {
  }

  lemma {:induction false} BatchKeeps(m: Machine, step: Step, t: nat)
    requires Inv(m, t) && CanStep(m, step) && (step.BatchStart? || step.TakeCommand? || step.TakePump?)
    ensures Inv(Next(m, step), t)
  {
    match step
    case BatchStart => PhaseKeeps(m, Draining, t);
    case TakeCommand(env) =>
      if m.mail.commands != [] { ConsumeKeeps(m, env, t); } else { PhaseKeeps(m, Pumping, t); }
    case TakePump(env) =>
      if m.loop.pump != [] { TakePumpKeeps(m, env, t); } else { PhaseKeeps(m, Idle, t); }
  }

  /** Every step keeps the invariant. */
  lemma {:induction false} NextKeeps(m: Machine, step: Step, t: nat)
    requires Inv(m, t) && CanStep(m, step)
    ensures Inv(Next(m, step), t)
  {
    if step.CallOpen? || step.CallPlain? || step.CallSend? || step.CallExit? {
      ApiKeeps(m, step, t);
    } else if step.BatchStart? || step.TakeCommand? || step.TakePump? {
      BatchKeeps(m, step, t);
    } else {
      match step
      case Callback(s, input) => CallbackKeeps(m, s, input, t);
      case PeerAccepted(s, env) => AcceptKeeps(m, s, env, t);
      case CallPoll => PollKeeps(m, t);
      case CallRelease => ReleaseBeginKeeps(m, t);
      case FinishRelease => ReleaseEndKeeps(m, t);
    }
  }

  lemma {:induction false} InitOk(bits: nat, t: nat)
    requires IsSlotBits(bits)
    ensures Inv(Init(bits), t)
  {
    var m := Init(bits);
    TakenZero(m.table.slots);
    HeldNone(m.table.slots, t);
  }
}
