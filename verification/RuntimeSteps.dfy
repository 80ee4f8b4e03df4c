/** Steps of the machine as relations between states, kept folded so that proofs about the runtime object can pass them on
    whole, and runs of steps. */
module RuntimeSteps {
  import opened Options
  import opened Seals
  import opened SocketEntries
  import opened SocketIds
  import opened SocketMachine
  import opened MachineInvariants
  import opened EntryTraces
  import opened EntryInvariants

  /** The invariant, whichever buffer is watched. */
  ghost predicate Kept(m: Machine) { forall t: nat :: Inv(m, t) }

  lemma {:induction false} InitKept(bits: nat)
    requires IsSlotBits(bits)
    ensures Kept(Init(bits))
  {
    forall t: nat ensures Inv(Init(bits), t) { InitOk(bits, t); }
  }

  // ---------- steps ----------

  /** The step can be taken in one state and leads to the other. */
  ghost predicate Moves(m: Machine, step: Step, m': Machine) {
    forall k: nat :: Unsealed(Fold.Moving, k) ==> CanStep(m, step) && m' == Next(m, step)
  }

  lemma {:induction false} Moved(m: Machine, step: Step, m': Machine)
    requires Moves(m, step, m')
    ensures CanStep(m, step) && m' == Next(m, step)
  {
    assert Unsealed(Fold.Moving, 0);
  }

  lemma {:induction false} CallKept(m: Machine, step: Step)
    requires Kept(m) && CanStep(m, step)
    ensures Kept(Next(m, step))
  {
    forall t: nat ensures Inv(Next(m, step), t) { NextKeeps(m, step, t); }
  }

  lemma {:induction false} MoveKept(m: Machine, step: Step, m': Machine)
    requires Kept(m) && Moves(m, step, m')
    ensures Kept(m')
  {
    assert Unsealed(Fold.Moving, 0);
    forall t: nat ensures Inv(m', t) { NextKeeps(m, step, t); }
  }

  ghost predicate Linked(run: seq<Machine>, steps: seq<Step>) {
    |run| == |steps| + 1 && forall i :: 0 <= i < |steps| ==> Moves(run[i], steps[i], run[i + 1])
  }

  /** The steps lead from one state to the other. */
  ghost predicate Reaches(m: Machine, steps: seq<Step>, m': Machine) {
    exists run :: Linked(run, steps) && run[0] == m && run[|steps|] == m'
  }

  /** Further rounds of a batch have been added at the end. */
  ghost predicate Extends(done: seq<Step>, steps: seq<Step>) {
    && |done| <= |steps| && (forall i :: 0 <= i < |done| ==> steps[i] == done[i])
    && forall i :: |done| <= i < |steps| ==> steps[i].TakeCommand? || steps[i].TakePump?
  }

  lemma {:induction false} ReachesMore(m: Machine, steps: seq<Step>, m': Machine, step: Step, m'': Machine)
    requires Reaches(m, steps, m') && Moves(m', step, m'')
    ensures Reaches(m, steps + [step], m'')
  {
    var run :| Linked(run, steps) && run[0] == m && run[|steps|] == m';
    var run', steps' := run + [m''], steps + [step];
    forall i | 0 <= i < |steps'| ensures Moves(run'[i], steps'[i], run'[i + 1]) {
      if i < |steps| { assert Moves(run[i], steps[i], run[i + 1]); }
    }
    assert Linked(run', steps');
  }

  lemma {:induction false} ReachesSelf(m: Machine)
    ensures Reaches(m, [], m)
  {
    assert Linked([m], []);
  }

  lemma {:induction false} BatchStarts(m: Machine)
    requires Kept(m) && m.loop.phase.Idle? && m.loop.asyncOpen
    ensures Moves(m, BatchStart, m.(loop := m.loop.(phase := Draining)))
  {
    assert Inv(m, 0);
  }

  lemma {:induction false} DrainEnds(m: Machine, env: Env)
    requires Kept(m) && m.loop.phase.Draining? && m.mail.commands == []
    ensures Moves(m, TakeCommand(env), m.(loop := m.loop.(phase := Pumping)))
  {
    assert Inv(m, 0);
  }

  lemma {:induction false} PumpEnds(m: Machine, env: Env)
    requires Kept(m) && m.loop.phase.Pumping? && m.loop.pump == []
    ensures Moves(m, TakePump(env), m.(loop := m.loop.(phase := Idle)))
  {
    assert Inv(m, 0);
  }

  // ---------- an operation on a slot ----------

  /** The part of the invariant that an operation on a slot needs and keeps. */
  ghost predicate Calm(m: Machine) { forall k: nat :: Unsealed(Fold.Calming, k) ==> Steady(m.table, m.loop.pump, 0) }

  lemma {:induction false} KeptCalm(m: Machine)
    requires Kept(m)
    ensures Calm(m)
  {
    assert Inv(m, 0);
  }

  lemma {:induction false} CalmTable(m: Machine)
    requires Calm(m)
    ensures TableOk(m.table)
  {
    assert Unsealed(Fold.Calming, 0);
  }

  /** Only the parts outside the table and the pump list differ. */
  lemma {:induction false} CalmAlike(m: Machine, m': Machine)
    requires Calm(m) && m'.table == m.table && m'.loop.pump == m.loop.pump
    ensures Calm(m')
  {
    assert Unsealed(Fold.Calming, 0);
  }

  /** What an operation does outside the table. */
  function Around(m: Machine, s: nat, freed: bool, actions: seq<Action>): (m': Machine) {
    var lp := m.loop.(pump := m.loop.pump + if Schedulings(actions) > 0 then [s] else []);
    Machine(m.table, m.mail, if freed then ExitCheck(lp, m.table.count) else lp,
            m.out.(events := m.out.events + EventsIn(actions), released := m.out.released + ReleasedIn(actions)))
  }

  lemma {:induction false} CarryIs(m: Machine, s: nat, o: Outcome)
    requires Sizes(m.table) && s < |m.table.slots|
    ensures Carry(m, s, o) == Around(m.(table := Place(m.table, s, o)), s, o.entry.None?, o.actions)
  {
  }

  /** How an outcome fits the pump list: an entry that is freed is not on it, and one that goes on it was not there before. */
  ghost predicate Listable(m: Machine, s: nat, o: Outcome) {
    && (s in m.loop.pump ==> o.entry.Some? && Schedulings(o.actions) == 0)
    && (Schedulings(o.actions) > 0 ==> o.entry.Some?)
  }

  /** What an input does to an entry. */
  ghost predicate Yields(e: Entry, input: Input, o: Outcome) {
    forall k: nat :: Unsealed(Fold.Operating, k) ==> Enabled(e, input) && o == Perform(e, input)
  }

  lemma {:induction false} IsYield(e: Entry, input: Input, o: Outcome)
    requires Yields(e, input, o)
    ensures Enabled(e, input) && o == Perform(e, input)
  {
    assert Unsealed(Fold.Operating, 0);
  }

  /** The state after a command or a callback on the entry of a slot. */
  ghost predicate Delivers(m: Machine, s: nat, input: Input, m': Machine) {
    forall k: nat :: Unsealed(Fold.Operating, k) ==>
      Sizes(m.table) && Occupied(m.table, s) && Enabled(m.table.slots[s].value, input) && m' == Deliver(m, s, input)
  }

  /** Such an operation is possible. */
  ghost predicate Takes(m: Machine, s: nat, input: Input) {
    && Occupied(m.table, s) && !input.Pump?
    && forall k: nat :: Unsealed(Fold.Operating, k) ==> Enabled(m.table.slots[s].value, input)
  }

  lemma {:induction false} Outcomes(m: Machine, s: nat, input: Input) returns (o: Outcome)
    requires Calm(m) && Takes(m, s, input)
    ensures Sizes(m.table) && Yields(m.table.slots[s].value, input, o) && Listable(m, s, o)
    ensures Delivers(m, s, input, Carry(m, s, o)) && Calm(Carry(m, s, o))
  {
    assert Unsealed(Fold.Calming, 0); assert Unsealed(Fold.Operating, 0);
    o := Perform(m.table.slots[s].value, input);
    Performs(m.table, s, input, 0);
    CarrySteady(m, s, o, Brings(input, 0), 0);
    EffectsMatch(LedgerOf(m.table, s, 0), o.actions);
    if s in m.loop.pump { assert Pending(m.table, s); }
  }

  lemma {:induction false} EventsNext(done: seq<Event>, actions: seq<Action>, i: nat)
    requires i < |actions|
    ensures done + EventsIn(actions[i..]) == (if actions[i].Emitted? then done + [actions[i].event] else done) + EventsIn(actions[i + 1..])
  {
    assert actions[i..][1..] == actions[i + 1..];
  }

  lemma {:induction false} OneEvent(event: Event)
    ensures EventsIn([Emitted(event)]) == [event]
  {
    assert [Emitted(event)][1..] == [];
  }

  // ---------- process_exit ----------

  lemma {:induction false} Closes(m: Machine, k: nat)
    requires Occupied(m.table, k)
    ensures Takes(m, k, ExitNow)
  {
  }

  ghost predicate ShutsSlot(m: Machine, k: nat, m': Machine) {
    forall u: nat :: Unsealed(Fold.Exiting, u) ==> Sizes(m.table) && k < |m.table.slots| && m' == ExitSlot(m, k)
  }

  lemma {:induction false} SlotShut(m: Machine, k: nat, m': Machine)
    requires Sizes(m.table) && k < |m.table.slots|
    requires if m.table.slots[k].Some? then Delivers(m, k, ExitNow, m') else m' == m
    ensures ShutsSlot(m, k, m')
  {
    assert Unsealed(Fold.Operating, 0);
  }

  /** What is left of process_exit at slot k is the rest of it from `start`. */
  ghost predicate ExitsOn(start: Machine, m: Machine, k: nat) {
    forall u: nat :: Unsealed(Fold.Exiting, u) ==>
      Sizes(start.table) && Sizes(m.table) && k <= |m.table.slots| && ExitFrom(m, k) == ExitFrom(start, 0)
  }

  lemma {:induction false} ExitsFirst(m: Machine)
    requires Sizes(m.table)
    ensures ExitsOn(m, m, 0)
  {
  }

  lemma {:induction false} ExitsMore(start: Machine, m: Machine, k: nat, m': Machine)
    requires ExitsOn(start, m, k) && ShutsSlot(m, k, m')
    ensures ExitsOn(start, m', k + 1)
  {
    assert Unsealed(Fold.Exiting, 0);
    ExitFromUnrolls(m, k);
  }

  ghost predicate Quits(m: Machine, m': Machine) {
    forall k: nat :: Unsealed(Fold.Exiting, k) ==> Sizes(m.table) && m' == ProcessQuit(m)
  }

  lemma {:induction false} ExitsLast(m: Machine, m1: Machine)
    requires Sizes(m.table) && Sizes(m1.table) && ExitsOn(m.(loop := m.loop.(exiting := true)), m1, |m1.table.slots|)
    ensures Quits(m, m1.(loop := ExitCheck(m1.loop.(asyncOpen := false), m1.table.count)))
  {
    assert Unsealed(Fold.Exiting, 0);
  }

  lemma {:induction false} ExitKeepsPhase(m: Machine, k: nat)
    requires Sizes(m.table) && k <= |m.table.slots|
    ensures ExitFrom(m, k).loop.phase == m.loop.phase && ExitFrom(m, k).mail == m.mail
    decreases |m.table.slots| - k
  {
    if k < |m.table.slots| {
      ExitFromUnrolls(m, k);
      ExitKeepsPhase(ExitSlot(m, k), k + 1);
    }
  }

  // ---------- one command, one pump turn ----------

  /** What becomes of a command that has been taken off the queue. */
  ghost predicate Serves(m: Machine, c: Command, env: Env, m': Machine) {
    if c.order.Quit? then Quits(m, m')
    else
      && Sizes(m.table) && Sendworthy(c)
      && match FindEntry(m.table, c.id)
         case None => m' == m.(out := Missing(m.out, c))
         case Some(s) => Delivers(m, s, ToInput(c.order, env), m')
  }

  lemma {:induction false} Served(m: Machine, c: Command, env: Env, m': Machine)
    requires Kept(m) && m.loop.phase.Draining? && m.mail.commands != [] && c == m.mail.commands[0]
    requires Serves(m.(mail := m.mail.(commands := m.mail.commands[1..])), c, env, m')
    ensures Moves(m, TakeCommand(env), m') && m'.loop.phase.Draining? && m'.mail.commands == m.mail.commands[1..]
  {
    CommandReady(m, env);
    if c.order.Quit? { ServedQuit(m, c, env, m'); } else { ServedOther(m, c, env, m'); }
  }

  lemma {:induction false} CommandReady(m: Machine, env: Env)
    requires Kept(m) && m.loop.phase.Draining?
    ensures CanStep(m, TakeCommand(env))
  {
    assert Inv(m, 0);
  }

  lemma {:induction false} ServedQuit(m: Machine, c: Command, env: Env, m': Machine)
    requires CanStep(m, TakeCommand(env)) && m.mail.commands != [] && c == m.mail.commands[0] && c.order.Quit?
    requires Quits(m.(mail := m.mail.(commands := m.mail.commands[1..])), m')
    ensures Moves(m, TakeCommand(env), m') && m'.loop.phase.Draining? && m'.mail.commands == m.mail.commands[1..]
  {
    assert Unsealed(Fold.Exiting, 0);
    var m1 := m.(mail := m.mail.(commands := m.mail.commands[1..]), loop := m.loop.(exiting := true));
    ExitKeepsPhase(m1, 0);
  }

  lemma {:induction false} ServedOther(m: Machine, c: Command, env: Env, m': Machine)
    requires CanStep(m, TakeCommand(env)) && m.mail.commands != [] && c == m.mail.commands[0] && !c.order.Quit?
    requires Serves(m.(mail := m.mail.(commands := m.mail.commands[1..])), c, env, m')
    ensures Moves(m, TakeCommand(env), m') && m'.loop.phase.Draining? && m'.mail.commands == m.mail.commands[1..]
  {
    assert Unsealed(Fold.Operating, 0);
  }

  /** A command in the queue may be sent to the socket it names. */
  lemma {:induction false} Addressed(m: Machine, c: Command, s: nat, env: Env)
    requires Sendworthy(c) && !c.order.Quit? && Occupied(m.table, s)
    ensures Takes(m, s, ToInput(c.order, env))
  {
  }

  lemma {:induction false} HeadSendworthy(m: Machine)
    requires Kept(m) && m.mail.commands != []
    ensures Sendworthy(m.mail.commands[0])
  {
    assert Inv(m, 0);
  }

  lemma {:induction false} PumpReadyNow(m: Machine, env: Env)
    requires Kept(m) && m.loop.phase.Pumping? && m.loop.pump != []
    ensures Steady(m.table, m.loop.pump, 0) && CanStep(m, TakePump(env)) && Pending(m.table, m.loop.pump[0])
  {
    assert Inv(m, 0);
    assert Pending(m.table, m.loop.pump[0]);
  }

  /** What a pump turn does to the entry at the head of the pump list. */
  lemma {:induction false} PumpOutcome(m: Machine, env: Env) returns (o: Outcome)
    requires Kept(m) && m.loop.phase.Pumping? && m.loop.pump != []
    ensures Occupied(m.table, m.loop.pump[0]) && Sizes(m.table)
    ensures var m1, s := m.(loop := m.loop.(pump := m.loop.pump[1..])), m.loop.pump[0];
            && Yields(m.table.slots[s].value, Pump(env), o) && Listable(m1, s, o)
            && Moves(m, TakePump(env), Carry(m1, s, o)) && Carry(m1, s, o).loop == m1.loop && Carry(m1, s, o).mail == m.mail
  {
    PumpReadyNow(m, env);
    PumpSteady(m, env, 0);
    o := PumpYields(m, env);
    TurnStays(m.(loop := m.loop.(pump := m.loop.pump[1..])), m.loop.pump[0], o);
  }

  lemma {:induction false} PumpYields(m: Machine, env: Env) returns (o: Outcome)
    requires CanStep(m, TakePump(env)) && m.loop.pump != []
    ensures o == Perform(m.table.slots[m.loop.pump[0]].value, Pump(env))
    ensures Yields(m.table.slots[m.loop.pump[0]].value, Pump(env), o)
    ensures Moves(m, TakePump(env), Carry(m.(loop := m.loop.(pump := m.loop.pump[1..])), m.loop.pump[0], o))
  {
    o := Perform(m.table.slots[m.loop.pump[0]].value, Pump(env));
  }

  lemma {:induction false} TurnStays(m: Machine, s: nat, o: Outcome)
    requires Sizes(m.table) && s < |m.table.slots| && o.entry.Some? && Schedulings(o.actions) == 0
    ensures Carry(m, s, o).loop == m.loop && Carry(m, s, o).mail == m.mail
  {
    assert m.loop.pump + [] == m.loop.pump;
  }

  /** An entry is in the slot its identifier names. */
  lemma {:induction false} SlotOfId(tb: Table, s: nat)
    requires TableOk(tb) && Occupied(tb, s)
    ensures IdSlot(tb.bits, tb.slots[s].value.id) == s
  {
    IdRoundTrip(tb.bits, s, tb.generations[s]);
  }

  // ---------- callbacks and accept_connection ----------

  lemma {:induction false} CalledBack(m: Machine, s: nat, input: Input)
    requires CanStep(m, Callback(s, input))
    ensures Takes(m, s, input)
    ensures forall m' :: Delivers(m, s, input, m') ==> Moves(m, Callback(s, input), m')
  {
    forall m' | Delivers(m, s, input, m') ensures Moves(m, Callback(s, input), m') { assert Unsealed(Fold.Operating, 0); }
  }

  /** accept_connection with the slot of the new connection. */
  ghost predicate Accepts(m: Machine, s: nat, slot: nat, env: Env, m': Machine) {
    forall k: nat :: Unsealed(Fold.Accepting, k) ==>
      && Sizes(m.table) && Occupied(m.table, s) && m.table.slots[s].value.state.Listening?
      && s != slot && Occupied(m.table, slot) && m.table.slots[slot].value.state.Reserved?
      && m' == AcceptWith(m, s, slot, env)
  }

  /** The new slot is not the listener's, and the listener stays. */
  ghost predicate Guest(m: Machine, s: nat, slot: nat) {
    && Sizes(m.table) && Occupied(m.table, s) && m.table.slots[s].value.state.Listening?
    && s != slot && Occupied(m.table, slot) && m.table.slots[slot].value.state.Reserved?
  }

  lemma {:induction false} GuestEnters(m: Machine, s: nat, slot: nat, env: Env)
    requires Guest(m, s, slot)
    ensures Takes(m, slot, AcceptedAs(env))
  {
  }

  lemma {:induction false} HostHears(m: Machine, s: nat, slot: nat, env: Env, m1: Machine)
    requires Guest(m, s, slot) && Delivers(m, slot, AcceptedAs(env), m1)
    ensures Takes(m1, s, PeerArrived(m.table.slots[slot].value.id))
  {
    assert Unsealed(Fold.Operating, 0);
  }

  lemma {:induction false} GuestAccepted(m: Machine, s: nat, slot: nat, env: Env, m1: Machine, m': Machine)
    requires Guest(m, s, slot) && Delivers(m, slot, AcceptedAs(env), m1)
    requires if env.init == 0 && env.open == 0 then Delivers(m1, s, PeerArrived(m.table.slots[slot].value.id), m') else m' == m1
    ensures Accepts(m, s, slot, env, m')
  {
    assert Unsealed(Fold.Operating, 0);
  }

  /** accept_connection in two parts: the slot, then the connection in it. */
  lemma {:induction false} AcceptParts(m: Machine, s: nat, env: Env)
    requires CanStep(m, PeerAccepted(s, env))
    ensures var r := Reserve(m.table, m.table.slots[s].value.owner, env.memory);
            if r.0.None? then Moves(m, PeerAccepted(s, env), m.(table := r.1))
            else
              && Guest(m.(table := r.1), s, r.0.value)
              && forall m' :: Accepts(m.(table := r.1), s, r.0.value, env, m') ==> Moves(m, PeerAccepted(s, env), m')
  {
    var owner := m.table.slots[s].value.owner;
    var r := Reserve(m.table, owner, env.memory);
    if r.0.Some? {
      ReserveGuest(m.table, owner, env.memory);
      forall m' | Accepts(m.(table := r.1), s, r.0.value, env, m') ensures Moves(m, PeerAccepted(s, env), m') { assert Unsealed(Fold.Accepting, 0); }
    }
  }

  lemma {:induction false} CalmReserve(m: Machine, owner: nat, memory: bool)
    requires Calm(m)
    ensures Sizes(m.table) && Calm(m.(table := Reserve(m.table, owner, memory).1))
  {
    assert Unsealed(Fold.Calming, 0);
    ReserveSteady(m.table, owner, memory, m.loop.pump, 0);
  }

  // ---------- release ----------

  ghost predicate Vacates(m: Machine, k: nat, m': Machine) {
    forall u: nat :: Unsealed(Fold.Freeing, u) ==> Sizes(m.table) && k < |m.table.slots| && m' == ReleaseSlot(m, k)
  }

  lemma {:induction false} SlotVacated(m: Machine, k: nat, m': Machine)
    requires Sizes(m.table) && k < |m.table.slots|
    requires if m.table.slots[k].None? then m' == m
             else if m.table.slots[k].value.initialized then Delivers(m, k, ExitNow, m')
             else m' == m.(table := m.table.(slots := m.table.slots[k := None]))
    ensures Vacates(m, k, m')
  {
    assert Unsealed(Fold.Operating, 0);
  }

  /** What is left of a release at slot k is the rest of it from `start`, and nothing is scheduled. */
  ghost predicate ReleasesOn(start: Machine, m: Machine, k: nat) {
    && m.loop.pump == [] && Calm(m)
    && forall u: nat :: Unsealed(Fold.Freeing, u) ==>
         Sizes(start.table) && ReleasedTo(m, k, 0) && ReleaseFrom(m, k) == ReleaseFrom(start, 0)
  }

  lemma {:induction false} ReleaseStarts(m: Machine)
    requires Kept(m) && m.loop.phase.Idle?
    ensures ReleasesOn(m, m, 0)
  {
    assert Inv(m, 0);
  }

  lemma {:induction false} ReleasesMore(start: Machine, m: Machine, k: nat, m': Machine)
    requires ReleasesOn(start, m, k) && Vacates(m, k, m')
    ensures ReleasesOn(start, m', k + 1)
  {
    assert Unsealed(Fold.Freeing, 0);
    ReleaseFromUnrolls(m, k);
    ReleaseOne(m, k, 0);
  }

  lemma {:induction false} ReleaseBegun(start: Machine, m: Machine)
    requires Kept(start) && start.loop.phase.Idle? && ReleasesOn(start, m, |m.table.slots|)
    ensures Moves(start, CallRelease, m.(loop := m.loop.(phase := Releasing, asyncOpen := false)))
  {
    assert Unsealed(Fold.Freeing, 0);
    assert Inv(start, 0);
  }

  lemma {:induction false} BuffersNext(done: seq<nat>, commands: seq<Command>)
    requires commands != []
    ensures done + Destroyed(commands[0]) + Buffers(commands[1..]) == done + Buffers(commands)
  {
    Together(done, Destroyed(commands[0]), Buffers(commands[1..]));
  }

  lemma {:induction false} Together(x: seq<nat>, y: seq<nat>, z: seq<nat>)
    ensures x + y + z == x + (y + z) && x + [] == x
  {
  }
}
