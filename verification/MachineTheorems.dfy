/** Whole runs of the socket runtime: ownership of buffers, stale identifiers, write progress, shutdown. */
module MachineTheorems {
  import opened Bytes
  import opened Options
  import opened SocketEntries
  import opened SocketIds
  import opened EntryTraces
  import opened EntryInvariants
  import opened EntryLimits
  import opened SocketMachine
  import opened MachineInvariants
  import EntryTheorems
  import opened Counting
  import Udp = UdpAddresses

  /** No handle has been passed to uv_close twice; libuv does not carry on after that. */
  ghost predicate Intact(tb: Table) {
    && Sizes(tb)
    && forall s :: 0 <= s < |tb.slots| && tb.slots[s].Some? ==> LedgerOf(tb, s, 0).handleCloses <= 1
  }

  /** A run: states linked by steps, from the state after creation. */
  ghost predicate Execution(bits: nat, run: seq<Machine>, steps: seq<Step>) {
    && IsSlotBits(bits) && |run| == |steps| + 1 && run[0] == Init(bits)
    && forall i :: 0 <= i < |steps| ==> Advances(run[i], steps[i], run[i + 1])
  }

  ghost predicate Advances(m: Machine, step: Step, m': Machine) {
    Intact(m.table) && CanStep(m, step) && m' == Next(m, step)
  }

  /** The invariant holds in every state of every run. */
  lemma {:induction false} Always(bits: nat, run: seq<Machine>, steps: seq<Step>, i: nat, t: nat)
    requires Execution(bits, run, steps) && i < |run|
    ensures Inv(run[i], t)
    decreases i
  {
    if i == 0 {
      InitOk(bits, t);
    } else {
      Always(bits, run, steps, i - 1, t);
      assert Advances(run[i - 1], steps[i - 1], run[i]);
      AdvanceKeeps(run[i - 1], steps[i - 1], run[i], t);
    }
  }

  lemma {:induction false} AdvanceKeeps(m: Machine, step: Step, m': Machine, t: nat)
    requires Inv(m, t) && Advances(m, step, m')
    ensures Inv(m', t)
  {
    NextKeeps(m, step, t);
  }

  // ---------- ownership ----------

  /** A buffer is in exactly one place from the call that queued it on: with a queued command, with an
      entry, or released; so it is released at most once, and never before it was accepted. */
  lemma {:induction false} BufferInOnePlace(bits: nat, run: seq<Machine>, steps: seq<Step>, i: nat, t: nat)
    requires Execution(bits, run, steps) && i < |run|
    ensures var m := run[i];
            SlotHeld(m.table.slots, t) + CountOf(Buffers(m.mail.commands), t) + CountOf(m.out.released, t)
            == (if t < m.out.issued then 1 else 0)
  {
    Always(bits, run, steps, i, t);
  }

  /** When the release has finished, every accepted buffer has been released, once. */
  lemma {:induction false} AllReleasedAtEnd(bits: nat, run: seq<Machine>, steps: seq<Step>, i: nat, t: nat)
    requires Execution(bits, run, steps) && i < |steps| && steps[i].FinishRelease?
    ensures CountOf(run[i + 1].out.released, t) == (if t < run[i + 1].out.issued then 1 else 0)
  {
    Always(bits, run, steps, i, t);
    assert Advances(run[i], steps[i], run[i + 1]);
    ReleaseLeavesNone(run[i], t);
  }

  lemma {:induction false} ReleaseLeavesNone(m: Machine, t: nat)
    requires Inv(m, t) && CanStep(m, FinishRelease)
    ensures CountOf(ReleaseEnd(m).out.released, t) == (if t < m.out.issued then 1 else 0)
  {
    HeldNone(m.table.slots, t);
    CountConcat(m.out.released, Buffers(m.mail.commands), t);
  }

  /** A send that fails leaves the runtime answerable for nothing: an OWNED buffer goes back to the caller, since the
      refused command is destroyed with its flag turned, and the copy of a BORROWED one is released, since its
      command still owns it. A send that succeeds queues one buffer, owned by its command. */
  lemma {:induction false} FailedSendKeepsBuffer(m: Machine, id: int, p: Priority, address: Option<seq<byte>>, size: nat,
                                                 ownership: Ownership, a: bool, b: bool, t: nat)
    ensures var r := ApiSend(m, id, p, address, size, ownership, a, b);
            && (r.1 != Ok && ownership.Owned? ==> r.0 == m)
            && (r.1 != Ok ==> r.0.table == m.table && r.0.mail == m.mail && r.0.loop == m.loop
                              && CountOf(r.0.out.released, t) == CountOf(m.out.released, t) + OneIf(m.out.issued <= t < r.0.out.issued))
            && (r.1 == Ok ==> r.0.out.released == m.out.released && r.0.out.issued == m.out.issued + 1
                              && CountOf(Buffers(r.0.mail.commands), t) == CountOf(Buffers(m.mail.commands), t) + OneIf(t == m.out.issued))
  {
    SendForms(m, id, p, address, size, ownership, a, b);
    CountOne(m.out.issued, t);
    CountConcat(m.out.released, [m.out.issued], t);
    var c := SendCommand(id, p, address, Buffer(m.out.issued, size));
    BuffersAppend(m.mail.commands, c, t);
    BuffersOne(c, t);
  }

  // ---------- identifiers ----------

  /** The identifier handed out by the n-th reservation of a slot. */
  function IdOf(tb: Table, s: nat, n: nat): (id: int) { IdMake(tb.bits, s, GenerationAt(n)) }

  /** A stale identifier finds a socket exactly when its slot is occupied and has been reserved a whole
      number of generation cycles since; so it misses for the next 32766 reservations of the slot. */
  lemma {:induction false} StaleIdsMiss(bits: nat, run: seq<Machine>, steps: seq<Step>, i: nat, s: nat, n: nat)
    requires Execution(bits, run, steps) && i < |run|
    requires s < |run[i].table.slots| && s < |run[i].table.reserved| && 1 <= n <= run[i].table.reserved[s]
    ensures StaleMisses(run[i].table, s, n)
  {
    Always(bits, run, steps, i, 0);
    StaleTable(run[i].table, s, n);
  }

  ghost predicate StaleMisses(tb: Table, s: nat, n: nat) {
    && Sizes(tb) && s < |tb.slots|
    && var found := FindEntry(tb, IdOf(tb, s, n));
       var since := tb.reserved[s] - n;
       && (found == Some(s) <==> tb.slots[s].Some? && since % GENERATION_MAX == 0)
       && (found.Some? ==> found.value == s)
       && (0 < since < GENERATION_MAX ==> found.None?)
  }

  lemma {:induction false} StaleTable(tb: Table, s: nat, n: nat)
    requires TableOk(tb) && s < |tb.slots| && 1 <= n <= tb.reserved[s]
    ensures StaleMisses(tb, s, n)
  {
    FoundInItsSlot(tb, s, n);
    IdRepeats(tb.bits, s, n, tb.reserved[s]);
    WithinCycle(tb.reserved[s] - n);
  }

  lemma {:induction false} FoundInItsSlot(tb: Table, s: nat, n: nat)
    requires TableOk(tb) && s < |tb.slots| && n > 0
    ensures FindEntry(tb, IdOf(tb, s, n)) in {None, Some(s)}
    ensures FindEntry(tb, IdOf(tb, s, n)) == Some(s) <==> tb.slots[s].Some? && IdOf(tb, s, n) == IdOf(tb, s, tb.reserved[s])
  {
    IdRoundTrip(tb.bits, s, GenerationAt(n));
  }

  lemma {:induction false} WithinCycle(d: int)
    ensures 0 < d < GENERATION_MAX ==> d % GENERATION_MAX != 0
  {
  }

  /** A live socket is found by its own identifier, and distinct live sockets have distinct identifiers. */
  lemma {:induction false} LiveIdsDistinct(m: Machine, t: nat, s: nat, s': nat)
    requires Inv(m, t) && Occupied(m.table, s) && Occupied(m.table, s')
    ensures FindEntry(m.table, m.table.slots[s].value.id) == Some(s)
    ensures s != s' ==> m.table.slots[s].value.id != m.table.slots[s'].value.id
  {
    IdRoundTrip(m.table.bits, s, m.table.generations[s]);
    IdRoundTrip(m.table.bits, s', m.table.generations[s']);
  }

  // ---------- writes ----------

  /** While the loop waits in libuv, every live socket with queued writes and no deferred close has a write
      in flight, and the pump list is empty. */
  lemma {:induction false} NoStrandedWrites(m: Machine, t: nat, s: nat)
    requires Inv(m, t) && m.loop.phase.Idle?
    ensures m.loop.pump == []
    ensures Occupied(m.table, s) ==>
              var e := m.table.slots[s].value;
              !e.state.Closing? && !e.closeRequested && (e.out.high != [] || e.out.low != []) ==> e.out.inflight.Some?
  {
    if Occupied(m.table, s) {
      assert !Pending(m.table, s);
      Unseal(m.table.slots[s].value, LedgerOf(m.table, s, t));
    }
  }

  // ---------- traces ----------

  ghost predicate LegalTrace(h: seq<Action>) { EntryTheorems.Legal(h) }

  /** Every slot holds the legal trace of its present socket, or of the last one it had. */
  ghost predicate AllLegal(traces: seq<seq<Action>>) { forall s :: 0 <= s < |traces| ==> LegalTrace(traces[s]) }

  lemma {:induction false} TraceLegal(traces: seq<seq<Action>>, s: nat, h: seq<Action>)
    requires AllLegal(traces) && s < |traces| && LegalTrace(h)
    ensures AllLegal(traces[s := h])
  {
  }

  lemma {:induction false} DeliverLegal(m: Machine, s: nat, input: Input) returns (m': Machine)
    requires Sizes(m.table) && AllLegal(m.table.traces) && EntriesOk(m.table, 0) && Occupied(m.table, s)
    requires Enabled(m.table.slots[s].value, input)
    ensures m' == Deliver(m, s, input) && AllLegal(m'.table.traces)
  {
    var e, l := m.table.slots[s].value, LedgerOf(m.table, s, 0);
    Unseal(e, l);
    if input.Pump? { PumpTurnKeeps(e, l, input.env); } else { PerformKeeps(e, l, input); }
    var o := Perform(e, input);
    m' := Carry(m, s, o);
    TallyConcat(Blank(0), m.table.traces[s], o.actions);
    TraceLegal(m.table.traces, s, m.table.traces[s] + o.actions);
  }

  lemma {:induction false} ReserveLegal(tb: Table, owner: nat, memory: bool)
    requires Sizes(tb) && AllLegal(tb.traces)
    ensures AllLegal(Reserve(tb, owner, memory).1.traces)
  {
    ReserveShape(tb, owner, memory);
    var r := Reserve(tb, owner, memory);
    if r.0.Some? { TraceLegal(tb.traces, r.0.value, []); }
  }

  lemma {:induction false} ExitFromLegal(m: Machine, k: nat)
    requires ExitedTo(m, k, 0) && AllLegal(m.table.traces)
    ensures AllLegal(ExitFrom(m, k).table.traces)
    decreases |m.table.slots| - k
  {
    if k < |m.table.slots| {
      if m.table.slots[k].Some? { var _ := DeliverLegal(m, k, ExitNow); }
      var m1 := ExitOne(m, k, 0);
      ExitFromUnrolls(m, k);
      ExitFromLegal(m1, k + 1);
    }
  }

  lemma {:induction false} ReleaseFromLegal(m: Machine, k: nat)
    requires ReleasedTo(m, k, 0) && AllLegal(m.table.traces)
    ensures AllLegal(ReleaseFrom(m, k).table.traces)
    decreases |m.table.slots| - k
  {
    if k < |m.table.slots| {
      ReleaseOne(m, k, 0);
      ReleaseFromUnrolls(m, k);
      ReleaseSlotLegal(m, k);
      ReleaseFromLegal(ReleaseSlot(m, k), k + 1);
    }
  }

  lemma {:induction false} ReleaseSlotLegal(m: Machine, k: nat)
    requires ReleasedTo(m, k, 0) && AllLegal(m.table.traces) && k < |m.table.slots|
    ensures AllLegal(ReleaseSlot(m, k).table.traces)
  {
    if m.table.slots[k].Some? && m.table.slots[k].value.initialized { var _ := DeliverLegal(m, k, ExitNow); }
  }

  lemma {:induction false} ConsumeLegal(m: Machine, env: Env)
    requires Inv(m, 0) && AllLegal(m.table.traces) && m.loop.phase.Draining? && m.mail.commands != []
    ensures AllLegal(Consume(m, env).table.traces)
  {
    var c := m.mail.commands[0];
    var m1 := m.(mail := m.mail.(commands := m.mail.commands[1..]));
    if c.order.Quit? {
      ExitFromLegal(m1.(loop := m.loop.(exiting := true)), 0);
    } else {
      match FindEntry(m1.table, c.id)
      case None =>
      case Some(s) => var _ := DeliverLegal(m1, s, ToInput(c.order, env));
    }
  }

  lemma {:induction false} AcceptLegal(m: Machine, s: nat, env: Env) returns (tb: Table)
    requires Steady(m.table, m.loop.pump, 0) && AllLegal(m.table.traces) && Occupied(m.table, s) && m.table.slots[s].value.state.Listening?
    ensures tb == AcceptPeer(m, s, env).table && AllLegal(tb.traces)
  {
    var owner := m.table.slots[s].value.owner;
    var r := Reserve(m.table, owner, env.memory);
    ReserveLegal(m.table, owner, env.memory);
    if r.0.None? {
      tb := r.1;
    } else {
      ReserveSteady(m.table, owner, env.memory, m.loop.pump, 0);
      ReserveGuest(m.table, owner, env.memory);
      tb := GuestArrives(m, s, r.0.value, r.1, env);
    }
  }

  lemma {:induction false} GuestArrives(m: Machine, s: nat, slot: nat, tb: Table, env: Env) returns (tb': Table)
    requires Sizes(m.table) && Occupied(m.table, s) && m.table.slots[s].value.state.Listening?
    requires slot < |m.table.slots| == |tb.slots| && m.table.slots[slot].None?
    requires AllLegal(tb.traces) && Steady(tb, m.loop.pump, 0) && Occupied(tb, slot) && tb.slots[slot].value.state.Reserved?
    requires forall i :: 0 <= i < |m.table.slots| && i != slot ==> tb.slots[i] == m.table.slots[i]
    ensures s != slot && Occupied(tb, s) && tb.slots[s].value.state.Listening?
    ensures tb' == AcceptWith(m.(table := tb), s, slot, env).table && AllLegal(tb'.traces)
  {
    var m1 := m.(table := tb);
    var m2 := DeliverLegal(m1, slot, AcceptedAs(env));
    if env.init == 0 && env.open == 0 {
      Performs(tb, slot, AcceptedAs(env), 0);
      PlaceEntries(tb, slot, Perform(tb.slots[slot].value, AcceptedAs(env)), 0);
      m2 := DeliverLegal(m2, s, PeerArrived(tb.slots[slot].value.id));
    }
    tb' := m2.table;
  }

  lemma {:induction false} OpenLegal(m: Machine, order: Order, owner: nat, a: bool, b: bool)
    requires Sizes(m.table) && AllLegal(m.table.traces)
    ensures AllLegal(ApiOpen(m, order, owner, a, b).0.table.traces)
  {
    ReserveLegal(m.table, owner, a);
  }

  lemma {:induction false} NextLegal(m: Machine, step: Step)
    requires Inv(m, 0) && AllLegal(m.table.traces) && CanStep(m, step)
    ensures AllLegal(Next(m, step).table.traces)
  {
    match step
    case CallOpen(order, owner, a, b) => OpenLegal(m, order, owner, a, b);
    case TakeCommand(env) => if m.mail.commands != [] { ConsumeLegal(m, env); }
    case TakePump(env) =>
      if m.loop.pump != [] { var _ := DeliverLegal(m.(loop := m.loop.(pump := m.loop.pump[1..])), m.loop.pump[0], Pump(env)); }
    case Callback(s, input) => var _ := DeliverLegal(m, s, input);
    case PeerAccepted(s, env) => var _ := AcceptLegal(m, s, env);
    case CallRelease => ReleaseFromLegal(m, 0);
    case _ =>
  }

  /** In every run the trace of every socket is legal from its first action to its last, the close callback that freed
      it included; so the theorems about legal traces (write order, one write in flight, the state graph, pausing,
      warnings) hold of it. */
  lemma {:induction false} TracesAreLegal(bits: nat, run: seq<Machine>, steps: seq<Step>, i: nat)
    requires Execution(bits, run, steps) && i < |run|
    ensures Sizes(run[i].table) && AllLegal(run[i].table.traces)
    decreases i
  {
    Always(bits, run, steps, i, 0);
    if i > 0 {
      TracesAreLegal(bits, run, steps, i - 1);
      Always(bits, run, steps, i - 1, 0);
      assert Advances(run[i - 1], steps[i - 1], run[i]);
      AdvanceLegal(run[i - 1], steps[i - 1], run[i]);
    } else {
      InitLegal(bits);
    }
  }

  /** And the entry in a slot agrees with its trace. */
  lemma {:induction false} EntriesMatchTraces(bits: nat, run: seq<Machine>, steps: seq<Step>, i: nat, s: nat)
    requires Execution(bits, run, steps) && i < |run| && Occupied(run[i].table, s)
    ensures s < |run[i].table.traces| && EntryOk(run[i].table.slots[s].value, LedgerOf(run[i].table, s, 0))
  {
    Always(bits, run, steps, i, 0);
    Unseal(run[i].table.slots[s].value, LedgerOf(run[i].table, s, 0));
  }

  lemma {:induction false} AdvanceLegal(m: Machine, step: Step, m': Machine)
    requires Inv(m, 0) && AllLegal(m.table.traces) && Advances(m, step, m')
    ensures AllLegal(m'.table.traces)
  {
    NextLegal(m, step);
  }

  lemma {:induction false} InitLegal(bits: nat)
    requires IsSlotBits(bits)
    ensures AllLegal(Init(bits).table.traces)
  {
  }

  // ---------- a handle is closed once ----------

  lemma {:induction false} CarryIntact(m: Machine, s: nat, o: Outcome)
    requires Intact(m.table) && s < |m.table.slots|
    ensures Intact(Carry(m, s, o).table)
            <==> (o.entry.Some? ==> Tally(LedgerOf(m.table, s, 0), o.actions).handleCloses <= 1)
  {
    var tb := Carry(m, s, o).table;
    TallyConcat(Blank(0), m.table.traces[s], o.actions);
    assert tb.slots[s] == o.entry && LedgerOf(tb, s, 0) == Tally(LedgerOf(m.table, s, 0), o.actions);
    if o.entry.Some? ==> LedgerOf(tb, s, 0).handleCloses <= 1 {
      forall i | 0 <= i < |tb.slots| && tb.slots[i].Some? ensures LedgerOf(tb, i, 0).handleCloses <= 1 {
        if i != s { assert tb.slots[i] == m.table.slots[i] && tb.traces[i] == m.table.traces[i]; }
      }
    }
  }

  /** One callback breaks the once-only rule of uv_close exactly in the situations of DoubleCloses. */
  lemma {:induction false} CallbackIntact(m: Machine, s: nat, input: Input)
    requires Inv(m, 0) && Intact(m.table) && Occupied(m.table, s) && Enabled(m.table.slots[s].value, input)
    ensures Intact(Deliver(m, s, input).table) <==> !DoubleCloses(m.table.slots[s].value, input)
  {
    var e := m.table.slots[s].value;
    var o := Perform(e, input);
    Unseal(e, LedgerOf(m.table, s, 0));
    SecondHandleClose(e, LedgerOf(m.table, s, 0), input);
    CarryIntact(m, s, o);
  }

  lemma {:induction false} ReserveIntact(tb: Table, owner: nat, memory: bool)
    requires Intact(tb)
    ensures Intact(Reserve(tb, owner, memory).1)
  {
    ReserveShape(tb, owner, memory);
    var r := Reserve(tb, owner, memory);
    if r.0.Some? { GuestIntact(tb, r.1, r.0.value); }
  }

  lemma {:induction false} GuestIntact(tb: Table, tb': Table, s: nat)
    requires Intact(tb) && Sizes(tb') && s < |tb.slots| == |tb'.slots| && tb'.traces == tb.traces[s := []]
    requires forall i :: 0 <= i < |tb.slots| && i != s ==> tb'.slots[i] == tb.slots[i]
    ensures Intact(tb')
  {
    forall i | 0 <= i < |tb'.slots| && tb'.slots[i].Some? ensures LedgerOf(tb', i, 0).handleCloses <= 1 {
      if i == s { assert tb'.traces[i] == []; } else { assert tb'.traces[i] == tb.traces[i]; }
    }
  }

  /** Every operation but a finished write leaves a table intact. */
  lemma {:induction false} OthersIntact(m: Machine, s: nat, input: Input)
    requires Intact(m.table) && EntriesOk(m.table, 0) && Occupied(m.table, s)
    requires Enabled(m.table.slots[s].value, input) && !input.WriteEnded?
    ensures Intact(Deliver(m, s, input).table)
  {
    var e := m.table.slots[s].value;
    Unseal(e, LedgerOf(m.table, s, 0));
    SecondHandleClose(e, LedgerOf(m.table, s, 0), input);
    CarryIntact(m, s, Perform(e, input));
  }

  lemma {:induction false} ExitFromIntact(m: Machine, k: nat)
    requires ExitedTo(m, k, 0) && Intact(m.table)
    ensures Intact(ExitFrom(m, k).table)
    decreases |m.table.slots| - k
  {
    if k < |m.table.slots| {
      if m.table.slots[k].Some? { OthersIntact(m, k, ExitNow); }
      var m1 := ExitOne(m, k, 0);
      ExitFromUnrolls(m, k);
      ExitFromIntact(m1, k + 1);
    }
  }

  lemma {:induction false} ReleaseFromIntact(m: Machine, k: nat)
    requires ReleasedTo(m, k, 0) && Intact(m.table)
    ensures Intact(ReleaseFrom(m, k).table)
    decreases |m.table.slots| - k
  {
    if k < |m.table.slots| {
      ReleaseOne(m, k, 0);
      ReleaseFromUnrolls(m, k);
      ReleaseSlotIntact(m, k);
      ReleaseFromIntact(ReleaseSlot(m, k), k + 1);
    }
  }

  lemma {:induction false} ReleaseSlotIntact(m: Machine, k: nat)
    requires ReleasedTo(m, k, 0) && Intact(m.table) && k < |m.table.slots|
    ensures Intact(ReleaseSlot(m, k).table)
  {
    if m.table.slots[k].Some? && m.table.slots[k].value.initialized { OthersIntact(m, k, ExitNow); }
  }

  lemma {:induction false} ConsumeIntact(m: Machine, env: Env)
    requires Inv(m, 0) && Intact(m.table) && m.loop.phase.Draining? && m.mail.commands != []
    ensures Intact(Consume(m, env).table)
  {
    var c := m.mail.commands[0];
    var m1 := m.(mail := m.mail.(commands := m.mail.commands[1..]));
    if c.order.Quit? {
      ExitFromIntact(m1.(loop := m.loop.(exiting := true)), 0);
    } else {
      ServeIntact(m1, c, env);
    }
  }

  lemma {:induction false} ServeIntact(m: Machine, c: Command, env: Env)
    requires Intact(m.table) && EntriesOk(m.table, 0) && Sendworthy(c) && !c.order.Quit?
    ensures match FindEntry(m.table, c.id)
            case None => true
            case Some(s) => Intact(Deliver(m, s, ToInput(c.order, env)).table)
  {
    match FindEntry(m.table, c.id)
    case None =>
    case Some(s) => OthersIntact(m, s, ToInput(c.order, env));
  }

  lemma {:induction false} OpenWithIntact(m: Machine, s: nat, tb: Table, order: Order, memory: bool)
    requires Intact(tb) && Occupied(tb, s)
    ensures Intact(OpenWith(m, s, tb, order, memory).0.table)
  {
  }

  lemma {:induction false} AcceptWithIntact(m: Machine, s: nat, slot: nat, env: Env)
    requires Intact(m.table) && EntriesOk(m.table, 0) && Occupied(m.table, s) && m.table.slots[s].value.state.Listening?
    requires s != slot && Occupied(m.table, slot) && m.table.slots[slot].value.state.Reserved?
    ensures Intact(AcceptWith(m, s, slot, env).table)
  {
    var m' := Deliver(m, slot, AcceptedAs(env));
    OthersIntact(m, slot, AcceptedAs(env));
    Performs(m.table, slot, AcceptedAs(env), 0);
    PlaceEntries(m.table, slot, Perform(m.table.slots[slot].value, AcceptedAs(env)), 0);
    OthersIntact(m', s, PeerArrived(m.table.slots[slot].value.id));
  }

  lemma {:induction false} AcceptIntact(m: Machine, s: nat, env: Env) returns (tb: Table)
    requires Steady(m.table, m.loop.pump, 0) && Intact(m.table) && Occupied(m.table, s) && m.table.slots[s].value.state.Listening?
    ensures tb == AcceptPeer(m, s, env).table && Intact(tb)
  {
    var owner := m.table.slots[s].value.owner;
    var r := Reserve(m.table, owner, env.memory);
    ReserveIntact(m.table, owner, env.memory);
    if r.0.None? {
      tb := r.1;
    } else {
      ReserveSteady(m.table, owner, env.memory, m.loop.pump, 0);
      ReserveGuest(m.table, owner, env.memory);
      GuestAccepted(m, s, r.0.value, r.1, env);
      tb := AcceptWith(m.(table := r.1), s, r.0.value, env).table;
    }
  }

  lemma {:induction false} GuestAccepted(m: Machine, s: nat, slot: nat, tb: Table, env: Env)
    requires Sizes(m.table) && Occupied(m.table, s) && m.table.slots[s].value.state.Listening?
    requires slot < |m.table.slots| == |tb.slots| && m.table.slots[slot].None?
    requires Intact(tb) && Steady(tb, m.loop.pump, 0) && Occupied(tb, slot) && tb.slots[slot].value.state.Reserved?
    requires forall i :: 0 <= i < |m.table.slots| && i != slot ==> tb.slots[i] == m.table.slots[i]
    ensures s != slot && Occupied(tb, s) && tb.slots[s].value.state.Listening?
    ensures Intact(AcceptWith(m.(table := tb), s, slot, env).table)
  {
    AcceptWithIntact(m.(table := tb), s, slot, env);
  }

  /** uv_close is called at most once per handle, step by step: the rule breaks exactly when a write callback
      finds the entry in a situation of DoubleCloses. */
  lemma {:induction false} HandleClosedOnce(m: Machine, step: Step)
    requires Inv(m, 0) && Intact(m.table) && CanStep(m, step)
    ensures Intact(Next(m, step).table)
            <==> !(step.Callback? && DoubleCloses(m.table.slots[step.slot].value, step.input))
  {
    match step
    case CallOpen(order, owner, a, b) =>
      ReserveIntact(m.table, owner, a);
      var r := Reserve(m.table, owner, a);
      if r.0.Some? { OpenWithIntact(m, r.0.value, r.1, order, b); }
    case TakeCommand(env) => if m.mail.commands != [] { ConsumeIntact(m, env); }
    case TakePump(env) =>
      if m.loop.pump != [] { OthersIntact(m.(loop := m.loop.(pump := m.loop.pump[1..])), m.loop.pump[0], Pump(env)); }
    case Callback(s, input) => CallbackIntact(m, s, input);
    case PeerAccepted(s, env) => var _ := AcceptIntact(m, s, env);
    case CallRelease => ReleaseFromIntact(m, 0);
    case _ =>
  }

  // ---------- shutdown ----------

  /** EXIT is accepted at most once and is the last command the queue ever takes; after it every call that
      would queue a command is refused. */
  lemma {:induction false} ExitIsLastCommand(m: Machine, t: nat, i: nat, c: Command)
    requires Inv(m, t) && i < |m.mail.taken| && m.mail.taken[i].order.Quit?
    ensures i == |m.mail.taken| - 1 && !m.mail.accepting
    ensures Push(m.mail, c) == (m.mail, InvalidState) && Stop(m.mail) == (m.mail, InvalidState)
  {
  }

  /** Once EXIT has been processed, the entries left are all closing, their number is the entry count, and
      an EXIT event is handed out only when none is left and no event is queued. */
  lemma {:induction false} ExitSafety(m: Machine, t: nat)
    requires Inv(m, t) && m.loop.exiting
    ensures AllClosing(m.table) && m.table.count == Taken(m.table.slots) && m.mail.commands == [] && !m.mail.accepting
    ensures m.out.exits > 0 || m.loop.exitReady ==> Taken(m.table.slots) == 0
    ensures Taken(m.table.slots) == 0 ==> m.loop.exitReady || m.out.exits > 0
  {
  }

  lemma {:induction false} ExitEventOnlyWhenDone(m: Machine, t: nat)
    requires Inv(m, t) && CanStep(m, CallPoll)
    ensures Poll(m).0.out.exits > m.out.exits
            ==> m.out.events == [] && m.loop.exiting && forall s :: 0 <= s < |m.table.slots| ==> m.table.slots[s].None?
  {
    TakenZero(m.table.slots);
  }

  /** What libuv still owes a closing entry: its requests, then the close callback. */
  function Owed(e: Option<Entry>): (n: nat) {
    if e.None? then 0
    else 1 + OneIf(e.value.out.inflight.Some?) + |e.value.out.datagrams| + OneIf(e.value.connectPending)
  }

  function TotalOwed(slots: seq<Option<Entry>>): (n: nat) {
    if slots == [] then 0 else Owed(slots[0]) + TotalOwed(slots[1..])
  }

  lemma {:induction false} OwedUpdate(slots: seq<Option<Entry>>, s: nat, e: Option<Entry>)
    requires s < |slots|
    ensures TotalOwed(slots[s := e]) + Owed(slots[s]) == TotalOwed(slots) + Owed(e)
  {
    if s > 0 {
      OwedUpdate(slots[1..], s - 1, e);
      assert slots[s := e][1..] == slots[1..][s - 1 := e];
    } else {
      assert slots[s := e][1..] == slots[1..];
    }
  }

  lemma {:induction false} OwedZero(slots: seq<Option<Entry>>)
    ensures TotalOwed(slots) == 0 <==> Taken(slots) == 0
  {
    if slots != [] { OwedZero(slots[1..]); }
  }

  lemma {:induction false} ClosingWriteOwed(e: Entry, status: int, env: Env)
    requires e.state.Closing? && e.out.inflight.Some?
    ensures Owed(WriteDone(e, status, env).entry) == Owed(Some(e)) - 1
  {
  }

  lemma {:induction false} CallbackOwed(e: Entry, input: Input)
    requires e.state.Closing? && e.handle.Shut? && IsCallback(input) && Enabled(e, input)
    ensures Owed(Perform(e, input).entry) == Owed(Some(e)) - 1
  {
    match input
    case WriteEnded(status, env) => ClosingWriteOwed(e, status, env);
    case _ =>
  }

  /** A closing entry always has a callback coming. */
  lemma {:induction false} SomethingOwed(e: Entry) returns (input: Input)
    requires e.state.Closing? && e.handle.Shut? && !e.pumpPending
    ensures IsCallback(input) && Enabled(e, input)
  {
    input := if e.out.inflight.Some? then WriteEnded(0, FINE)
             else if e.out.datagrams != [] then DatagramEnded(0, 0)
             else if e.connectPending then ConnectEnded(0, FINE)
             else HandleGone;
  }

  /** The runtime is on its way down: EXIT has been processed and the loop waits, or a release has begun. */
  ghost predicate WindingDown(m: Machine) { (m.loop.exiting && m.loop.phase.Idle?) || m.loop.phase.Releasing? }

  /** The callbacks owed by libuv count down to the end: each one brings the total down by exactly one, one is
      available while any socket is left, and at zero the EXIT event is ready or out, or the release can finish. */
  lemma {:induction false} ExitCountsDown(m: Machine, t: nat)
    requires Inv(m, t) && WindingDown(m)
    ensures forall s, input :: CanStep(m, Callback(s, input)) ==>
              TotalOwed(Next(m, Callback(s, input)).table.slots) == TotalOwed(m.table.slots) - 1
    ensures TotalOwed(m.table.slots) > 0 ==> exists s, input :: CanStep(m, Callback(s, input))
    ensures TotalOwed(m.table.slots) == 0 && m.loop.exiting ==> m.loop.exitReady || m.out.exits > 0
    ensures TotalOwed(m.table.slots) == 0 && m.loop.phase.Releasing? ==> CanStep(m, FinishRelease)
  {
    forall s, input | CanStep(m, Callback(s, input))
      ensures TotalOwed(Next(m, Callback(s, input)).table.slots) == TotalOwed(m.table.slots) - 1
    {
      OneCallback(m, t, s, input);
    }
    OwedZero(m.table.slots);
    TakenZero(m.table.slots);
    if TotalOwed(m.table.slots) > 0 { var s, input := CallbackDue(m, t); }
  }

  lemma {:induction false} CallbackDue(m: Machine, t: nat) returns (s: nat, input: Input)
    requires Inv(m, t) && WindingDown(m) && Taken(m.table.slots) > 0
    ensures CanStep(m, Callback(s, input))
  {
    TakenZero(m.table.slots);
    s :| 0 <= s < |m.table.slots| && m.table.slots[s].Some?;
    assert !Pending(m.table, s);
    Unseal(m.table.slots[s].value, LedgerOf(m.table, s, t));
    input := SomethingOwed(m.table.slots[s].value);
  }

  lemma {:induction false} OneCallback(m: Machine, t: nat, s: nat, input: Input)
    requires Inv(m, t) && WindingDown(m) && CanStep(m, Callback(s, input))
    ensures TotalOwed(Next(m, Callback(s, input)).table.slots) == TotalOwed(m.table.slots) - 1
  {
    var e := m.table.slots[s].value;
    Unseal(e, LedgerOf(m.table, s, t));
    CallbackOwed(e, input);
    OwedUpdate(m.table.slots, s, Perform(e, input).entry);
  }

  lemma {:induction false} OpenRefused(m: Machine, order: Order, owner: nat, a: bool, b: bool)
    requires Sizes(m.table) && !m.mail.accepting
    ensures ApiOpen(m, order, owner, a, b).0.table.slots == m.table.slots
    ensures ApiOpen(m, order, owner, a, b).0.out == m.out
  {
    ReserveShape(m.table, owner, a);
  }

  lemma {:induction false} PumpOwed(m: Machine, t: nat, env: Env)
    requires Inv(m, t) && m.loop.exiting && CanStep(m, TakePump(env)) && m.loop.pump != []
    ensures TotalOwed(PumpNext(m, env).table.slots) == TotalOwed(m.table.slots)
  {
    var e := m.table.slots[m.loop.pump[0]].value;
    PumpClosing(e, env);
    OwedUpdate(m.table.slots, m.loop.pump[0], PumpTurn(e, env).entry);
  }

  lemma {:induction false} NothingToRelease(m: Machine, k: nat, t: nat)
    requires Sizes(m.table) && EntriesOk(m.table, t) && AllClosing(m.table) && k <= |m.table.slots|
    ensures ReleaseFrom(m, k).table.slots == m.table.slots
    decreases |m.table.slots| - k
  {
    if k < |m.table.slots| {
      ReleaseFromUnrolls(m, k);
      if m.table.slots[k].Some? {
        Unseal(m.table.slots[k].value, LedgerOf(m.table, k, t));
        KeptAsIs(m, k);
      }
      NothingToRelease(m, k + 1, t);
    }
  }

  lemma {:induction false} KeptAsIs(m: Machine, k: nat)
    requires Sizes(m.table) && Occupied(m.table, k) && m.table.slots[k].value.initialized && m.table.slots[k].value.handle.Shut?
    ensures ReleaseSlot(m, k) == m
  {
    var m' := ReleaseSlot(m, k);
    assert m.table.traces[k] + [] == m.table.traces[k] && m.loop.pump + [] == m.loop.pump;
    assert m.out.events + [] == m.out.events && m.out.released + [] == m.out.released;
    assert m'.table.slots == m.table.slots && m'.table.traces == m.table.traces;
  }

  /** Nothing but callbacks changes what is owed: no other step adds to it. */
  lemma {:induction false} NothingMoreOwed(m: Machine, t: nat, step: Step)
    requires Inv(m, t) && (m.loop.exiting || m.loop.phase.Releasing?) && CanStep(m, step) && !step.Callback?
    ensures TotalOwed(Next(m, step).table.slots) == TotalOwed(m.table.slots)
  {
    match step
    case CallOpen(order, owner, a, b) => OpenRefused(m, order, owner, a, b);
    case TakePump(env) => if m.loop.pump != [] { PumpOwed(m, t, env); }
    case CallRelease => NothingToRelease(m, 0, t);
    case _ =>
  }

  /** With no socket left, a reservation succeeds exactly when there is memory for an entry. */
  lemma {:induction false} EmptyTableReserves(tb: Table, owner: nat, memory: bool)
    requires Sizes(tb) && Taken(tb.slots) == 0
    ensures Reserve(tb, owner, memory).0.Some? <==> memory
  {
    TakenZero(tb.slots);
    SlotCountRange(tb.bits);
    ScanComplete(tb.bits, tb.slots, tb.cursor);
    assert tb.slots[0].None?;
  }

  /** The EXIT event can be handed out again: once it has been, a step makes it ready again exactly when it is a
      listen, connect, bind or udp call that gets memory for an entry. */
  lemma {:induction false} ExitEventRepeats(m: Machine, t: nat, step: Step)
    requires Inv(m, t) && CanStep(m, step) && m.loop.exiting && Serving(m.loop) && Taken(m.table.slots) == 0 && !m.loop.exitReady
    requires !step.CallRelease?
    ensures Next(m, step).loop.exitReady <==> step.CallOpen? && step.entryMemory
  {
    TakenZero(m.table.slots);
    match step
    case CallOpen(order, owner, a, b) =>
      EmptyTableReserves(m.table, owner, a);
      OpenAfterExit(m, t, order, owner, a, b);
    case TakePump(env) => PumpNeedsSockets(m.table, m.loop.pump);
    case _ =>
  }

  lemma {:induction false} PumpNeedsSockets(tb: Table, pump: seq<nat>)
    requires PumpOk(tb, pump)
    ensures pump != [] ==> exists s :: 0 <= s < |tb.slots| && tb.slots[s].Some?
  {
    if pump != [] { assert Pending(tb, pump[0]); }
  }

  lemma {:induction false} OpenAfterExit(m: Machine, t: nat, order: Order, owner: nat, a: bool, b: bool)
    requires Inv(m, t) && m.loop.exiting && Serving(m.loop) && Taken(m.table.slots) == 0 && !m.loop.exitReady && IsOpen(order)
    ensures ApiOpen(m, order, owner, a, b).0.loop.exitReady <==> Reserve(m.table, owner, a).0.Some?
  {
    var r := Reserve(m.table, owner, a);
    if r.0.Some? {
      ReserveTable(m.table, owner, a);
      ReserveTraces(m.table, owner, a);
      ReserveCounts(m.table, owner, a, t);
      DiscardSound(m, r.1, r.0.value, t);
    }
  }

  // ---------- a run that hands out EXIT twice ----------

  lemma {:induction false} ExitFromEmpty(m: Machine, k: nat)
    requires Sizes(m.table) && k <= |m.table.slots| && forall s :: 0 <= s < |m.table.slots| ==> m.table.slots[s].None?
    ensures ExitFrom(m, k) == m
    decreases |m.table.slots| - k
  {
    if k < |m.table.slots| { ExitFromEmpty(m, k + 1); }
  }

  /** A machine without sockets. */
  ghost predicate Empty(m: Machine) {
    Sizes(m.table) && m.table.count == 0 && forall s :: 0 <= s < |m.table.slots| ==> m.table.slots[s].None?
  }

  lemma {:induction false} QuitEmpty(m: Machine, env: Env) returns (m': Machine)
    requires Empty(m) && m.loop.phase.Draining? && m.mail.commands == [Command(0, Quit)]
    ensures Advances(m, TakeCommand(env), m')
    ensures m' == m.(mail := m.mail.(commands := []), loop := m.loop.(exiting := true, asyncOpen := false, exitReady := true))
  {
    assert m.mail.commands[1..] == [];
    m' := m.(mail := m.mail.(commands := []), loop := m.loop.(exiting := true, asyncOpen := false, exitReady := true));
    ExitFromEmpty(m.(mail := m.mail.(commands := []), loop := m.loop.(exiting := true)), 0);
  }

  /** From creation to the first EXIT event. */
  lemma {:induction false} FirstExit(bits: nat) returns (run: seq<Machine>, steps: seq<Step>)
    requires IsSlotBits(bits)
    ensures Execution(bits, run, steps) && |steps| == 6
    ensures var m := run[6]; Empty(m) && m.loop == Loop(Idle, [], true, false, false) && !m.mail.accepting && m.out == Output([], 1, 0, [])
  {
    var m0 := Init(bits);
    var quit := Command(0, Quit);
    var m1 := m0.(mail := Mail([quit], false, [quit]));
    assert [] + [quit] == [quit];
    var m2 := m1.(loop := m1.loop.(phase := Draining));
    var m3 := QuitEmpty(m2, FINE);
    var m4 := m3.(loop := m3.loop.(phase := Pumping));
    var m5 := m4.(loop := m4.loop.(phase := Idle));
    var m6 := m5.(loop := m5.loop.(exitReady := false), out := m5.out.(exits := 1));
    run := [m0, m1, m2, m3, m4, m5, m6];
    steps := [CallExit(true), BatchStart, TakeCommand(FINE), TakeCommand(FINE), TakePump(FINE), CallPoll];
    assert Advances(m0, CallExit(true), m1) && Advances(m1, BatchStart, m2);
    assert Advances(m3, TakeCommand(FINE), m4) && Advances(m4, TakePump(FINE), m5) && Advances(m5, CallPoll, m6);
  }

  lemma {:induction false} AndAgain(m: Machine, t: nat) returns (m1: Machine, m2: Machine)
    requires Inv(m, t) && Empty(m) && m.loop == Loop(Idle, [], true, false, false) && !m.mail.accepting && m.out.events == []
    ensures Advances(m, CallOpen(OpenListen, 0, true, true), m1) && Advances(m1, CallPoll, m2)
    ensures m2.out.exits == m.out.exits + 1
  {
    m1 := ApiOpen(m, OpenListen, 0, true, true).0;
    TakenZero(m.table.slots);
    EmptyTableReserves(m.table, 0, true);
    OpenAfterExit(m, t, OpenListen, 0, true, true);
    OpenRefused(m, OpenListen, 0, true, true);
    OpenKeepsLoop(m, OpenListen, 0, true, true);
    m2 := Poll(m1).0;
  }

  lemma {:induction false} OpenKeepsLoop(m: Machine, order: Order, owner: nat, a: bool, b: bool)
    requires Sizes(m.table) && !m.mail.accepting
    ensures var m' := ApiOpen(m, order, owner, a, b).0; m'.loop == m.loop.(exitReady := m'.loop.exitReady) && Sizes(m'.table)
  {
  }

  /** Whatever the size of the table, there is a run in which EXIT is handed out twice. */
  lemma {:induction false} ExitHandedOutTwice(bits: nat) returns (run: seq<Machine>, steps: seq<Step>)
    requires IsSlotBits(bits)
    ensures Execution(bits, run, steps) && run[|steps|].out.exits == 2
  {
    var run0, steps0 := FirstExit(bits);
    Always(bits, run0, steps0, 6, 0);
    var m7, m8 := AndAgain(run0[6], 0);
    run, steps := run0 + [m7, m8], steps0 + [CallOpen(OpenListen, 0, true, true), CallPoll];
    forall i | 0 <= i < |steps| ensures Advances(run[i], steps[i], run[i + 1]) {
      if i < 6 { assert Advances(run0[i], steps0[i], run0[i + 1]); }
    }
  }
}
